/** The definition-name rules of `src/schemas/definition.ts`.

    Both regular expressions have the shape
      `^[a-zA-Z](?:(?![_-]{2,})[<class>]){lo,hi}[a-zA-Z0-9]$`
    with `<class>` = `a-zA-Z0-9_-` for tool, credential and plugin names and
    `a-zA-Z0-9_/-` for model names. Because both ends are anchored, the
    repeated group consumes exactly the characters strictly between the first
    and the last one, so a match is decided position by position.

    The source writes `{3,63}`, which admits names of 5..65 characters, and
    `BaseName` and `ModelName` are that rule as written. The comments and
    the error message beside it promise 4..64 characters, which is the
    quantifier `{2,62}`; that corrected rule is `IntendedName`. */
module Names {

  predicate IsLetter(c: char) { 'a' <= c <= 'z' || 'A' <= c <= 'Z' }

  predicate IsDigit(c: char) { '0' <= c <= '9' }

  predicate IsAlnum(c: char) { IsLetter(c) || IsDigit(c) }

  /** The characters of `[_-]`. */
  predicate IsSeparator(c: char) { c == '_' || c == '-' }

  /** The repeated group's character class. */
  predicate InClass(c: char, allowSlash: bool)
  {
    IsAlnum(c) || IsSeparator(c) || (allowSlash && c == '/')
  }

  /** Bounds of the `{3,63}` quantifier as the source writes it. */
  const WrittenMinRepeat: nat := 3
  const WrittenMaxRepeat: nat := 63

  /** Bounds of the quantifier for the promised 4..64 characters. */
  const IntendedMinRepeat: nat := 2
  const IntendedMaxRepeat: nat := 62

  /** The lookahead `(?![_-]{2,})` fails at position `i`: two or more
      separators start there (two are enough to decide it). */
  predicate SeparatorRunAt(s: string, i: nat)
  {
    i + 1 < |s| && IsSeparator(s[i]) && IsSeparator(s[i + 1])
  }

  /** The regular expression with repetition bounds `lo..hi`. */
  predicate NameShape(s: string, allowSlash: bool, lo: nat, hi: nat)
  {
    && 2 <= |s|
    && IsLetter(s[0])
    && IsAlnum(s[|s| - 1])
    && lo <= |s| - 2 <= hi
    && forall i :: 1 <= i < |s| - 1 ==> !SeparatorRunAt(s, i) && InClass(s[i], allowSlash)
  }

  /** `BaseDefinitionSchema.name` as written: tool, credential and plugin
      names. */
  predicate BaseName(s: string) { NameShape(s, false, WrittenMinRepeat, WrittenMaxRepeat) }

  /** `ModelDefinitionSchema.name` as written: the same rule, `/` allowed in
      the middle. */
  predicate ModelName(s: string) { NameShape(s, true, WrittenMinRepeat, WrittenMaxRepeat) }

  /** The rule the comments promise: the regex with `{2,62}`. */
  predicate IntendedName(s: string, allowSlash: bool)
  {
    NameShape(s, allowSlash, IntendedMinRepeat, IntendedMaxRepeat)
  }

  /** No two neighbouring characters are both `_` or `-`. */
  predicate NoSeparatorPair(s: string)
  {
    forall i :: 0 <= i < |s| - 1 ==> !(IsSeparator(s[i]) && IsSeparator(s[i + 1]))
  }

  /** The first three rules of the comments, stated character by character
      and independently of the regex: letters, digits, `_` and `-` (and `/`
      for models); a letter first and a letter or digit last; no two
      separators in a row. */
  predicate CharacterRules(s: string, allowSlash: bool)
  {
    && 0 < |s|
    && IsLetter(s[0])
    && IsAlnum(s[|s| - 1])
    && (forall i :: 0 <= i < |s| ==> InClass(s[i], allowSlash))
    && NoSeparatorPair(s)
  }

  /** All four rules of the comments, with the promised 4..64 characters. */
  predicate WellFormedName(s: string, allowSlash: bool)
  {
    4 <= |s| <= 64 && CharacterRules(s, allowSlash)
  }

  /** For any quantifier `{lo,hi}`, the regex accepts exactly the strings
      that follow the character rules and have `lo + 2 .. hi + 2`
      characters. */
  lemma NameShapeCharacterised(s: string, allowSlash: bool, lo: nat, hi: nat)
    ensures NameShape(s, allowSlash, lo, hi) <==>
              (lo + 2 <= |s| <= hi + 2 && CharacterRules(s, allowSlash))
  {
    if NameShape(s, allowSlash, lo, hi) {
      forall i | 0 <= i < |s| - 1
        ensures !(IsSeparator(s[i]) && IsSeparator(s[i + 1]))
      {
        if i > 0 { assert !SeparatorRunAt(s, i); }
      }
    }
  }

  /** The rule as written accepts exactly the names that follow the
      character rules and have 5..65 characters. */
  lemma WrittenNameCharacterised(s: string, allowSlash: bool)
    ensures NameShape(s, allowSlash, WrittenMinRepeat, WrittenMaxRepeat) <==>
              (5 <= |s| <= 65 && CharacterRules(s, allowSlash))
  {
    NameShapeCharacterised(s, allowSlash, WrittenMinRepeat, WrittenMaxRepeat);
  }

  /** The corrected rule accepts exactly the names all four commented rules
      allow. */
  lemma NameRegexCharacterised(s: string, allowSlash: bool)
    ensures IntendedName(s, allowSlash) <==> WellFormedName(s, allowSlash)
  {
    NameShapeCharacterised(s, allowSlash, IntendedMinRepeat, IntendedMaxRepeat);
  }

  /** Accepted base names never hold `__`, `--`, `_-` or `-_`. */
  lemma BaseNameHasNoSeparatorPair(s: string)
    requires BaseName(s)
    ensures NoSeparatorPair(s)
    ensures 5 <= |s| <= 65
  {
    WrittenNameCharacterised(s, false);
  }

  /** Every base name is also a valid model name. */
  lemma BaseNameIsModelName(s: string)
    ensures BaseName(s) ==> ModelName(s)
  {
  }

  /** `/` never starts or ends a model name. */
  lemma ModelNameSlashEnds(s: string)
    requires ModelName(s)
    ensures s[0] != '/' && s[|s| - 1] != '/'
  {
  }

  /** Adjacent and repeated slashes are model names but not base names. */
  lemma ModelNameSlashExamples()
    ensures ModelName("ab//c") && ModelName("a/b/c/d")
    ensures !BaseName("ab//c")
  {
    assert !InClass("ab//c"[2], false);
  }

  /** Decides the name rule as written with one pass over the string. */
  method CheckName(s: string, allowSlash: bool) returns (ok: bool)
    ensures ok <==> if allowSlash then ModelName(s) else BaseName(s)
  {
    if |s| < 2 + WrittenMinRepeat || |s| > 2 + WrittenMaxRepeat || !IsLetter(s[0]) || !IsAlnum(s[|s| - 1]) {
      return false;
    }
    var i := 1;
    while i < |s| - 1
      invariant 1 <= i <= |s| - 1
      invariant forall j :: 1 <= j < i ==> !SeparatorRunAt(s, j) && InClass(s[j], allowSlash)
    {
      if SeparatorRunAt(s, i) || !InClass(s[i], allowSlash) {
        return false;
      }
      i := i + 1;
    }
    return true;
  }

  /** The rule as written rejects a four-character name the comments allow
      and accepts a sixty-five-character one they forbid. */
  lemma AsWrittenLengthBounds(s: string)
    requires |s| == 65 && IsLetter(s[0]) && forall i :: 1 <= i < |s| ==> IsDigit(s[i])
    ensures BaseName(s) && ModelName(s) && !WellFormedName(s, false) && !WellFormedName(s, true)
    ensures !BaseName("abcd") && !ModelName("abcd")
    ensures WellFormedName("abcd", false) && WellFormedName("abcd", true)
  {
  }

  /** The corrected rule keeps the written rule's character constraints and
      only moves the length window from 5..65 to 4..64. */
  lemma IntendedNameLengths(s: string, allowSlash: bool)
    ensures IntendedName(s, allowSlash) ==> 4 <= |s| <= 64
    ensures 5 <= |s| <= 64 ==>
              (IntendedName(s, allowSlash) <==> NameShape(s, allowSlash, WrittenMinRepeat, WrittenMaxRepeat))
  {
  }
}
