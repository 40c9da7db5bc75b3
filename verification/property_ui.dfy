/** The UI-property schemas of `src/schemas/property-ui.ts`: the shared
    props every component accepts, the per-component shapes, and the
    discriminated unions that pick a shape by the `component` tag. */
module PropertyUI {
  import opened Wrappers
  import opened JsValue
  import opened Schema

  /** Every component a UI property can name. */
  datatype Component =
    | Input | Textarea | NumberInput | CodeEditor | Select | RadioGroup
    | EmojiPicker | ColorPicker | MultiSelect | Switch | Slider
    | KeyValueEditor | TagInput | CredentialSelect | JsonSchemaEditor
    | ConditionsEditor | ArraySection | CollapsiblePanel | EncryptedInput
    | Section

  /** The `component` literal of each shape. */
  function Tag(c: Component): string
  {
    match c
    case Input => "input"
    case Textarea => "textarea"
    case NumberInput => "number-input"
    case CodeEditor => "code-editor"
    case Select => "select"
    case RadioGroup => "radio-group"
    case EmojiPicker => "emoji-picker"
    case ColorPicker => "color-picker"
    case MultiSelect => "multi-select"
    case Switch => "switch"
    case Slider => "slider"
    case KeyValueEditor => "key-value-editor"
    case TagInput => "tag-input"
    case CredentialSelect => "credential-select"
    case JsonSchemaEditor => "json-schema-editor"
    case ConditionsEditor => "conditions-editor"
    case ArraySection => "array-section"
    case CollapsiblePanel => "collapsible-panel"
    case EncryptedInput => "encrypted-input"
    case Section => "section"
  }

  /** The component a tag names, if any. */
  function ParseTag(t: string): Option<Component>
  {
    if t == "input" then Some(Input)
    else if t == "textarea" then Some(Textarea)
    else if t == "number-input" then Some(NumberInput)
    else if t == "code-editor" then Some(CodeEditor)
    else if t == "select" then Some(Select)
    else if t == "radio-group" then Some(RadioGroup)
    else if t == "emoji-picker" then Some(EmojiPicker)
    else if t == "color-picker" then Some(ColorPicker)
    else if t == "multi-select" then Some(MultiSelect)
    else if t == "switch" then Some(Switch)
    else if t == "slider" then Some(Slider)
    else if t == "key-value-editor" then Some(KeyValueEditor)
    else if t == "tag-input" then Some(TagInput)
    else if t == "credential-select" then Some(CredentialSelect)
    else if t == "json-schema-editor" then Some(JsonSchemaEditor)
    else if t == "conditions-editor" then Some(ConditionsEditor)
    else if t == "array-section" then Some(ArraySection)
    else if t == "collapsible-panel" then Some(CollapsiblePanel)
    else if t == "encrypted-input" then Some(EncryptedInput)
    else if t == "section" then Some(Section)
    else None
  }

  /** Every tag reads back as its component. The components are taken in
      groups, in `ParseTag`'s order, only so that each group's proof stays
      small; the groups have no meaning in the schema. */
  lemma TagRoundTrip(c: Component)
    ensures ParseTag(Tag(c)) == Some(c)
  {
    if c in {Input, Textarea, NumberInput, CodeEditor, Select, RadioGroup, EmojiPicker} {
      TagRoundTripEarly(c);
    } else if c in {ColorPicker, MultiSelect, Switch, Slider, KeyValueEditor} {
      TagRoundTripMiddle(c);
    } else if c in {TagInput, CredentialSelect, JsonSchemaEditor, ConditionsEditor} {
      TagRoundTripLate(c);
    } else if c in {ArraySection, CollapsiblePanel} {
      TagRoundTripLast(c);
    } else {
      TagRoundTripFinal(c);
    }
  }

  lemma TagRoundTripEarly(c: Component)
    requires c in {Input, Textarea, NumberInput, CodeEditor, Select, RadioGroup, EmojiPicker}
    ensures ParseTag(Tag(c)) == Some(c)
  {
  }

  lemma TagRoundTripMiddle(c: Component)
    requires c in {ColorPicker, MultiSelect, Switch, Slider, KeyValueEditor}
    ensures ParseTag(Tag(c)) == Some(c)
  {
  }

  lemma TagRoundTripLate(c: Component)
    requires c in {TagInput, CredentialSelect, JsonSchemaEditor, ConditionsEditor}
    ensures ParseTag(Tag(c)) == Some(c)
  {
  }

  lemma TagRoundTripLast(c: Component)
    requires c in {ArraySection, CollapsiblePanel}
    ensures ParseTag(Tag(c)) == Some(c)
  {
  }

  lemma TagRoundTripFinal(c: Component)
    requires c in {EncryptedInput, Section}
    ensures ParseTag(Tag(c)) == Some(c)
  {
  }

  /** A tag that parses is the tag of what it parses to. */
  lemma ParseTagSound(t: string)
    ensures ParseTag(t).Some? ==> Tag(ParseTag(t).value) == t
  {
    if t == "input" {} else if t == "textarea" {} else if t == "number-input" {}
    else if t == "code-editor" {} else if t == "select" {} else if t == "radio-group" {}
    else if t == "emoji-picker" {} else if t == "color-picker" {} else if t == "multi-select" {}
    else if t == "switch" {} else if t == "slider" {} else if t == "key-value-editor" {}
    else if t == "tag-input" {} else if t == "credential-select" {} else if t == "json-schema-editor" {}
    else if t == "conditions-editor" {} else if t == "array-section" {} else if t == "collapsible-panel" {}
    else if t == "encrypted-input" {} else if t == "section" {}
  }

  /** Distinct components carry distinct tags. */
  lemma TagInjective(c1: Component, c2: Component)
    ensures Tag(c1) == Tag(c2) <==> c1 == c2
  {
    TagRoundTrip(c1);
    TagRoundTrip(c2);
  }

  // ---------------------------------------------------------------------
  // Shared props

  /** `indentationSchema`: the literals 2, 4, ..., 80. */
  const Indentations: seq<int> := [
    2, 4, 6, 8, 10, 12, 14, 16, 18, 20, 22, 24, 26, 28, 30, 32, 34, 36, 38, 40,
    42, 44, 46, 48, 50, 52, 54, 56, 58, 60, 62, 64, 66, 68, 70, 72, 74, 76, 78, 80
  ]

  /** The `width` enum. */
  const Widths: seq<string> := ["small", "medium", "full"]

  /** `PropertyUICommonPropsSchema`. */
  const CommonSpec: seq<FieldSpec> := [
    FieldSpec("disabled", true, BooleanValue),
    FieldSpec("hint", true, I18nEntry),
    FieldSpec("placeholder", true, I18nEntry),
    FieldSpec("readonly", true, BooleanValue),
    FieldSpec("sensitive", true, BooleanValue),
    FieldSpec("support_expression", true, BooleanValue),
    FieldSpec("width", true, Enum(Widths)),
    FieldSpec("indentation", true, IntLiteral(Indentations)),
    FieldSpec("display_none", true, BooleanValue)
  ]

  /** `PropertyUIOptionSchema`. */
  const OptionSpec: seq<FieldSpec> := [
    FieldSpec("icon", true, StringValue),
    FieldSpec("label", false, I18nEntry),
    FieldSpec("value", false, Scalar)
  ]

  /** `PropertyUISelectPropsBaseSchema`. */
  const SelectBaseSpec: seq<FieldSpec> := [
    FieldSpec("clearable", true, BooleanValue),
    FieldSpec("options", true, ArrayOf(Object(OptionSpec))),
    FieldSpec("searchable", true, BooleanValue)
  ]

  /** The code editor's `language` enum. */
  const Languages: seq<string> := ["json", "javascript", "python3"]

  /** What each component adds to the shared props. */
  function ExtraSpec(c: Component): seq<FieldSpec>
  {
    match c
    case Textarea => [FieldSpec("max_height", true, NumberValue), FieldSpec("min_height", true, NumberValue)]
    case NumberInput => [FieldSpec("step", true, NumberValue), FieldSpec("suffix", true, StringValue)]
    case CodeEditor => [
      FieldSpec("language", true, Enum(Languages)),
      FieldSpec("line_numbers", true, BooleanValue),
      FieldSpec("line_wrapping", true, BooleanValue),
      FieldSpec("max_height", true, NumberValue),
      FieldSpec("min_height", true, NumberValue),
      FieldSpec("rows", true, NumberValue)]
    case Select => SelectBaseSpec
    case RadioGroup => SelectBaseSpec
    case MultiSelect => SelectBaseSpec
    case EmojiPicker => [FieldSpec("size", true, Enum(["extra-small", "small", "medium", "large"]))]
    case Slider => [
      FieldSpec("marks", true, PlainRecord),
      FieldSpec("show_value", true, BooleanValue),
      FieldSpec("step", true, NumberValue)]
    case KeyValueEditor => [
      FieldSpec("add_button_label", true, I18nEntry),
      FieldSpec("empty_description", true, I18nEntry),
      FieldSpec("section_header", true, I18nEntry)]
    case CredentialSelect => [FieldSpec("clearable", true, BooleanValue), FieldSpec("searchable", true, BooleanValue)]
    case ArraySection => [
      FieldSpec("add_label", true, I18nEntry),
      FieldSpec("collapsible", true, BooleanValue),
      FieldSpec("empty_message", true, I18nEntry),
      FieldSpec("remove_tooltip", true, I18nEntry),
      FieldSpec("sortable", true, BooleanValue)]
    case CollapsiblePanel => [
      FieldSpec("collapsible", true, BooleanValue),
      FieldSpec("default_collapsed", true, BooleanValue),
      FieldSpec("panel_title", true, I18nEntry),
      FieldSpec("remove_tooltip", true, I18nEntry),
      FieldSpec("sortable", true, BooleanValue)]
    case _ => []
  }

  /** The `component` field of a shape. */
  function ComponentField(c: Component): FieldSpec
  {
    FieldSpec("component", false, Literal(Tag(c)))
  }

  /** A component's full shape: its tag, the shared props, its own props. */
  function PropsSpec(c: Component): (r: seq<FieldSpec>)
    ensures |r| > 0 && r[0] == ComponentField(c)
    ensures forall f :: f in CommonSpec ==> f in r
  {
    [ComponentField(c)] + CommonSpec + ExtraSpec(c)
  }

  /** Whether `v` is valid props for component `c`. */
  predicate PropsAccepts(c: Component, v: Value)
  {
    Accepts(Object(PropsSpec(c)), v)
  }

  /** Valid props carry their component's tag. */
  lemma PropsCarryTag(c: Component, v: Value)
    requires PropsAccepts(c, v)
    ensures v.Obj? && Lookup(v.fields, "component") == Some(Str(Tag(c)))
  {
    ObjectField(PropsSpec(c), v, ComponentField(c));
  }

  /** A present `indentation` is one of the listed literals, whatever the
      component. */
  lemma IndentationChecked(c: Component, v: Value)
    requires PropsAccepts(c, v)
    ensures var ind := Lookup(v.fields, "indentation");
            ind.Some? && ind.value != Undefined ==> ind.value.Num? && IndentationAccepted(ind.value.n)
  {
    assert CommonSpec[7] in CommonSpec;
    ObjectField(PropsSpec(c), v, CommonSpec[7]);
  }

  /** A present `width` is `small`, `medium` or `full`, whatever the
      component. */
  lemma WidthChecked(c: Component, v: Value)
    requires PropsAccepts(c, v)
    ensures var w := Lookup(v.fields, "width");
            w.Some? && w.value != Undefined ==> w.value.Str? && w.value.s in {"small", "medium", "full"}
  {
    assert CommonSpec[6] in CommonSpec;
    ObjectField(PropsSpec(c), v, CommonSpec[6]);
  }

  /** Whether the indentation union accepts `n`. */
  predicate IndentationAccepted(n: int)
  {
    n in Indentations
  }

  /** The indentation union accepts exactly the even integers from 2 to 80. */
  lemma IndentationIsEvenInRange(n: int)
    ensures IndentationAccepted(n) <==> 2 <= n <= 80 && n % 2 == 0
  {
    if IndentationAccepted(n) {
      var i := IndentationIndex(n);
      EvenStep(i);
    }
    if 2 <= n <= 80 && n % 2 == 0 {
      IndentationsAreSteps();
      assert Indentations[n / 2 - 1] == n;
    }
  }

  /** The indentation literals step by two from 2. */
  lemma IndentationsAreSteps()
    ensures |Indentations| == 40
    ensures forall i :: 0 <= i < 40 ==> Indentations[i] == 2 * i + 2
  {
  }

  /** The position of an accepted indentation among the literals. */
  lemma IndentationIndex(n: int) returns (i: int)
    requires IndentationAccepted(n)
    ensures 0 <= i < 40 && n == 2 * i + 2
  {
    IndentationsAreSteps();
    i :| 0 <= i < 40 && Indentations[i] == n;
  }

  lemma EvenStep(i: int)
    requires 0 <= i < 40
    ensures 2 <= 2 * i + 2 <= 80 && (2 * i + 2) % 2 == 0
  {
  }

  /** A valid option has a label, and a value that is a string, a number
      or a boolean. */
  lemma OptionShape(v: Value)
    requires Accepts(Object(OptionSpec), v)
    ensures v.Obj?
    ensures Lookup(v.fields, "label").Some? && Lookup(v.fields, "label").value.Obj?
    ensures var x := Lookup(v.fields, "value");
            x.Some? && (x.value.Str? || x.value.Num? || x.value.Bool?)
  {
    ObjectField(OptionSpec, v, OptionSpec[1]);
    ObjectField(OptionSpec, v, OptionSpec[2]);
  }

  /** A code editor's present `language` is `json`, `javascript` or
      `python3`. */
  lemma CodeEditorLanguage(v: Value)
    requires PropsAccepts(CodeEditor, v)
    ensures var l := Lookup(v.fields, "language");
            l.Some? && l.value != Undefined ==> l.value.Str? && l.value.s in {"json", "javascript", "python3"}
  {
    ObjectField(PropsSpec(CodeEditor), v, FieldSpec("language", true, Enum(Languages)));
  }

  // ---------------------------------------------------------------------
  // Discriminated unions

  /** The exported unions. */
  datatype Union =
    | Props | BooleanUI | NumberUI | StringUI | ArrayUI | ObjectUI
    | CredentialIdUI | DiscriminatorUI | DiscriminatorUnionUI | EncryptedStringUI

  /** Each union's options, in the order listed. */
  function Members(u: Union): seq<Component>
  {
    match u
    case Props => [
      Input, Textarea, NumberInput, CodeEditor, Select, RadioGroup, EmojiPicker,
      ColorPicker, MultiSelect, Switch, Slider, KeyValueEditor, TagInput,
      CredentialSelect, JsonSchemaEditor, ConditionsEditor, ArraySection,
      CollapsiblePanel, EncryptedInput]
    case BooleanUI => [Switch]
    case NumberUI => [NumberInput, Slider]
    case StringUI => [Input, Textarea, CodeEditor, Select, CredentialSelect, RadioGroup, EmojiPicker, ColorPicker]
    case ArrayUI => [MultiSelect, TagInput, KeyValueEditor, Slider, ArraySection]
    case ObjectUI => [CollapsiblePanel, Section, JsonSchemaEditor, ConditionsEditor, CodeEditor]
    case CredentialIdUI => [CredentialSelect]
    case DiscriminatorUI => [Switch, Select, RadioGroup]
    case DiscriminatorUnionUI => [CollapsiblePanel]
    case EncryptedStringUI => [EncryptedInput]
  }

  /** `z.discriminatedUnion("component", ...)`: read the tag, pick the
      option it names, and check the value against that option only. */
  predicate UnionAccepts(u: Union, v: Value)
  {
    && v.Obj?
    && match Lookup(v.fields, "component")
       case Some(Str(t)) =>
         (match ParseTag(t)
          case Some(c) => c in Members(u) && PropsAccepts(c, v)
          case None => false)
       case _ => false
  }

  /** Picking by tag loses nothing: the discriminated union accepts exactly
      what the plain union of its options accepts. */
  lemma DiscriminatedIsPlainUnion(u: Union, v: Value)
    ensures UnionAccepts(u, v) <==> exists c :: c in Members(u) && PropsAccepts(c, v)
  {
    if c :| c in Members(u) && PropsAccepts(c, v) {
      PropsCarryTag(c, v);
      TagRoundTrip(c);
    }
  }

  /** The component a union accepted. */
  lemma UnionTag(u: Union, v: Value)
    requires UnionAccepts(u, v)
    ensures exists c :: c in Members(u) && Lookup(v.fields, "component") == Some(Str(Tag(c)))
  {
    var c :| c in Members(u) && PropsAccepts(c, v) by {
      DiscriminatedIsPlainUnion(u, v);
    }
    PropsCarryTag(c, v);
  }

  /** The general union lists every component but `section`. */
  lemma PropsListsAllButSection(c: Component)
    ensures c in Members(Props) <==> c != Section
    ensures |Members(Props)| == 19
  {
  }

  /** Props valid for a component are accepted by exactly the unions that
      list it. */
  lemma AcceptedMember(u: Union, c: Component, v: Value)
    requires PropsAccepts(c, v)
    ensures UnionAccepts(u, v) <==> c in Members(u)
  {
    PropsCarryTag(c, v);
    TagRoundTrip(c);
  }

  /** Only the object union lists `section`. */
  lemma SectionListedOnlyByObject(u: Union)
    ensures Section in Members(u) <==> u == ObjectUI
  {
  }

  /** `section` props are accepted by the object union and by no other. */
  lemma SectionOnlyInObject(u: Union, v: Value)
    requires PropsAccepts(Section, v)
    ensures UnionAccepts(u, v) <==> u == ObjectUI
  {
    AcceptedMember(u, Section, v);
    SectionListedOnlyByObject(u);
  }

  /** The single-option unions: boolean takes only `switch`, credential id
      only `credential-select`, encrypted string only `encrypted-input`. */
  lemma SingleOptionUnions(v: Value)
    ensures UnionAccepts(BooleanUI, v) <==> PropsAccepts(Switch, v)
    ensures UnionAccepts(CredentialIdUI, v) <==> PropsAccepts(CredentialSelect, v)
    ensures UnionAccepts(EncryptedStringUI, v) <==> PropsAccepts(EncryptedInput, v)
  {
    SingleOption(BooleanUI, Switch, v);
    SingleOption(CredentialIdUI, CredentialSelect, v);
    SingleOption(EncryptedStringUI, EncryptedInput, v);
  }

  /** A union with one option accepts what that option accepts. */
  lemma SingleOption(u: Union, c: Component, v: Value)
    requires Members(u) == [c]
    ensures UnionAccepts(u, v) <==> PropsAccepts(c, v)
  {
    DiscriminatedIsPlainUnion(u, v);
  }

  /** The discriminator union takes `switch`, `select` or `radio-group`. */
  lemma DiscriminatorChoices(v: Value)
    ensures UnionAccepts(DiscriminatorUI, v) <==>
              PropsAccepts(Switch, v) || PropsAccepts(Select, v) || PropsAccepts(RadioGroup, v)
  {
    DiscriminatedIsPlainUnion(DiscriminatorUI, v);
  }

  /** Slider props are valid both as a number and as an array property. */
  lemma SliderIsNumberAndArray(v: Value)
    requires PropsAccepts(Slider, v)
    ensures UnionAccepts(NumberUI, v) && UnionAccepts(ArrayUI, v)
  {
    AcceptedMember(NumberUI, Slider, v);
    AcceptedMember(ArrayUI, Slider, v);
  }

  /** Code-editor props are valid both as a string and as an object
      property. */
  lemma CodeEditorIsStringAndObject(v: Value)
    requires PropsAccepts(CodeEditor, v)
    ensures UnionAccepts(StringUI, v) && UnionAccepts(ObjectUI, v)
  {
    AcceptedMember(StringUI, CodeEditor, v);
    AcceptedMember(ObjectUI, CodeEditor, v);
  }

  /** The general union lists no component twice. */
  lemma PropsMembersDistinct()
    ensures forall i, j :: 0 <= i < j < |Members(Props)| ==> Members(Props)[i] != Members(Props)[j]
  {
  }

  /** No union lists a component twice. */
  lemma MembersDistinct(u: Union)
    ensures forall i, j :: 0 <= i < j < |Members(u)| ==> Members(u)[i] != Members(u)[j]
  {
    if u == Props {
      PropsMembersDistinct();
    }
  }

  /** Within each union the tags are pairwise distinct, so a tag selects at
      most one option. */
  lemma MemberTagsDistinct(u: Union)
    ensures forall i, j :: 0 <= i < j < |Members(u)| ==> Tag(Members(u)[i]) != Tag(Members(u)[j])
  {
    MembersDistinct(u);
    forall i, j | 0 <= i < j < |Members(u)| ensures Tag(Members(u)[i]) != Tag(Members(u)[j]) {
      TagInjective(Members(u)[i], Members(u)[j]);
    }
  }
}
