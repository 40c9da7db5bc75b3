/** JavaScript values as the serializers and the dispatcher observe them.

    A plain object is the ordered list of its own enumerable string-keyed
    properties, in `Object.keys` order; a well-formed object has pairwise
    distinct keys. `Func` stands for any callable (what `isFunction` accepts)
    and `JsMap` for a `Map` instance, whose entries keep insertion order. */
module JsValue {
  import opened Wrappers

  datatype Value =
    | Undefined
    | Null
    | Bool(b: bool)
    | Num(n: int)
    | Str(s: string)
    | Arr(items: seq<Value>)
    | Obj(fields: seq<Field>)
    | Func(id: nat)
    | JsMap(entries: seq<Field>)

  /** One property of an object, or one entry of a `Map`. */
  datatype Field = Field(key: string, val: Value)

  /** The keys of an object. */
  function KeySet(fields: seq<Field>): set<string>
  {
    set i | 0 <= i < |fields| :: fields[i].key
  }

  /** The keys of an object with one more property in front. */
  lemma KeySetCons(f: Field, fields: seq<Field>)
    ensures KeySet([f] + fields) == {f.key} + KeySet(fields)
  {
    var s := [f] + fields;
    assert s[0].key == f.key;
    forall x | x in KeySet(s) ensures x in {f.key} + KeySet(fields) {
      var i :| 0 <= i < |s| && s[i].key == x;
      if i > 0 { assert s[i] == fields[i - 1]; }
    }
    forall x | x in KeySet(fields) ensures x in KeySet(s) {
      var i :| 0 <= i < |fields| && fields[i].key == x;
      assert s[i + 1].key == x;
    }
  }

  /** The keys of an object with one more property at the end. */
  lemma KeySetSnoc(fields: seq<Field>, f: Field)
    ensures KeySet(fields + [f]) == KeySet(fields) + {f.key}
  {
    var s := fields + [f];
    assert s[|fields|].key == f.key;
    forall x | x in KeySet(s) ensures x in KeySet(fields) + {f.key} {
      var i :| 0 <= i < |s| && s[i].key == x;
      if i < |fields| { assert s[i] == fields[i]; }
    }
    forall x | x in KeySet(fields) ensures x in KeySet(s) {
      var i :| 0 <= i < |fields| && fields[i].key == x;
      assert s[i].key == x;
    }
  }

  /** JavaScript objects never hold the same key twice. */
  predicate DistinctKeys(fields: seq<Field>)
  {
    forall i, j :: 0 <= i < j < |fields| ==> fields[i].key != fields[j].key
  }

  /** Property read `obj[k]`: `None` when the object has no such own key. */
  function Lookup(fields: seq<Field>, k: string): (r: Option<Value>)
    ensures r.Some? <==> k in KeySet(fields)
    ensures r.Some? ==> Field(k, r.value) in fields
    ensures DistinctKeys(fields) ==>
              forall i :: 0 <= i < |fields| && fields[i].key == k ==> r == Some(fields[i].val)
  {
    if |fields| == 0 then None
    else if fields[0].key == k then Some(fields[0].val)
    else
      assert KeySet(fields) == {fields[0].key} + KeySet(fields[1..]);
      Lookup(fields[1..], k)
  }

  /** `Object.assign(obj, { [k]: v })`: an existing key keeps its position and
      takes the new value; a new key is appended at the end. The same rule
      is `map.set(k, v)` on a `Map`. */
  function Assign(fields: seq<Field>, k: string, v: Value): seq<Field>
  {
    if |fields| == 0 then [Field(k, v)]
    else if fields[0].key == k then [Field(k, v)] + fields[1..]
    else [fields[0]] + Assign(fields[1..], k, v)
  }

  /** Assigning adds `k` to the keys and no other key. */
  lemma {:induction false} AssignKeys(fields: seq<Field>, k: string, v: Value)
    ensures KeySet(Assign(fields, k, v)) == KeySet(fields) + {k}
  {
    if |fields| == 0 {
      KeySetCons(Field(k, v), []);
      assert [Field(k, v)] + [] == [Field(k, v)];
    } else {
      KeySetCons(fields[0], fields[1..]);
      assert [fields[0]] + fields[1..] == fields;
      if fields[0].key == k {
        KeySetCons(Field(k, v), fields[1..]);
      } else {
        AssignKeys(fields[1..], k, v);
        KeySetCons(fields[0], Assign(fields[1..], k, v));
      }
    }
  }

  /** Assigning onto a well-formed object gives a well-formed object. */
  lemma {:induction false} AssignKeepsDistinct(fields: seq<Field>, k: string, v: Value)
    ensures DistinctKeys(fields) ==> DistinctKeys(Assign(fields, k, v))
  {
    if |fields| > 0 && DistinctKeys(fields) {
      var tail := fields[1..];
      assert DistinctKeys(tail);
      KeySetCons(fields[0], tail);
      assert [fields[0]] + tail == fields;
      assert fields[0].key !in KeySet(tail);
      if fields[0].key != k {
        AssignKeepsDistinct(tail, k, v);
        AssignKeys(tail, k, v);
        var rest := Assign(tail, k, v);
        assert fields[0].key !in KeySet(rest);
        forall i, j | 0 <= i < j < |[fields[0]] + rest|
          ensures ([fields[0]] + rest)[i].key != ([fields[0]] + rest)[j].key
        {
          if i == 0 { assert ([fields[0]] + rest)[j] == rest[j - 1]; }
        }
      }
    }
  }

  /** A new key is appended at the end. */
  lemma {:induction false} AssignAppends(fields: seq<Field>, k: string, v: Value)
    ensures k !in KeySet(fields) ==> Assign(fields, k, v) == fields + [Field(k, v)]
  {
    if |fields| > 0 && k !in KeySet(fields) {
      KeySetCons(fields[0], fields[1..]);
      assert [fields[0]] + fields[1..] == fields;
      AssignAppends(fields[1..], k, v);
    }
  }

  /** On a well-formed object an existing key is overwritten where it
      stands: same length, same order, only that property's value
      changes. */
  lemma {:induction false} AssignReplaces(fields: seq<Field>, k: string, v: Value)
    requires DistinctKeys(fields) && k in KeySet(fields)
    ensures |Assign(fields, k, v)| == |fields|
    ensures forall i :: 0 <= i < |fields| ==>
              Assign(fields, k, v)[i] == if fields[i].key == k then Field(k, v) else fields[i]
  {
    var tail := fields[1..];
    KeySetCons(fields[0], tail);
    assert [fields[0]] + tail == fields;
    if fields[0].key == k {
      forall i | 0 < i < |fields| ensures fields[i].key != k {
        assert fields[0].key != fields[i].key;
      }
    } else {
      assert DistinctKeys(tail);
      AssignReplaces(tail, k, v);
    }
  }

  /** Every property after assigning is an old one or the assigned one. */
  lemma {:induction false} AssignElements(fields: seq<Field>, k: string, v: Value)
    ensures forall f :: f in Assign(fields, k, v) ==> f in fields || f == Field(k, v)
  {
    if |fields| > 0 && fields[0].key != k {
      AssignElements(fields[1..], k, v);
      assert forall f :: f in fields[1..] ==> f in fields;
    }
  }

  /** After `Object.assign(obj, { [k]: v })`, `k` reads `v` and every other
      key reads what it read before. */
  lemma {:induction false} AssignLookup(fields: seq<Field>, k: string, v: Value, k': string)
    ensures Lookup(Assign(fields, k, v), k') == if k' == k then Some(v) else Lookup(fields, k')
  {
    if |fields| > 0 && fields[0].key != k {
      var r := Assign(fields, k, v);
      assert r[1..] == Assign(fields[1..], k, v);
      AssignLookup(fields[1..], k, v, k');
    }
  }

  /** Reading an object extended at the end. */
  lemma {:induction false} LookupAppend(fields: seq<Field>, f: Field, k: string)
    ensures Lookup(fields + [f], k) ==
              if k in KeySet(fields) then Lookup(fields, k)
              else if k == f.key then Some(f.val)
              else None
  {
    if |fields| > 0 {
      assert (fields + [f])[1..] == fields[1..] + [f];
      assert KeySet(fields) == {fields[0].key} + KeySet(fields[1..]);
      LookupAppend(fields[1..], f, k);
    }
  }

  /** A well-formed object has exactly as many properties as keys. */
  lemma {:induction false} DistinctKeysCount(fields: seq<Field>)
    requires DistinctKeys(fields)
    ensures |KeySet(fields)| == |fields|
  {
    if |fields| > 0 {
      var last := |fields| - 1;
      var init := fields[..last];
      assert DistinctKeys(init);
      DistinctKeysCount(init);
      assert KeySet(fields) == KeySet(init) + {fields[last].key};
      assert fields[last].key !in KeySet(init);
    }
  }

  /** An object never has more keys than properties. */
  lemma {:induction false} KeySetSize(fields: seq<Field>)
    ensures |KeySet(fields)| <= |fields|
  {
    if |fields| > 0 {
      var init := fields[..|fields| - 1];
      KeySetSize(init);
      KeySetSnoc(init, fields[|fields| - 1]);
      assert fields == init + [fields[|fields| - 1]];
    }
  }

  /** `Object.assign` of each entry in turn onto `{}`: the object a reduce
      over the entries builds. */
  function AssignAll(entries: seq<Field>): seq<Field>
    decreases |entries|
  {
    if |entries| == 0 then []
    else Assign(AssignAll(entries[..|entries| - 1]), entries[|entries| - 1].key, entries[|entries| - 1].val)
  }

  /** The value of the last entry carrying `k`: the reference for what the
      reduced object reads. */
  function LastValue(entries: seq<Field>, k: string): Option<Value>
    decreases |entries|
  {
    if |entries| == 0 then None
    else if entries[|entries| - 1].key == k then Some(entries[|entries| - 1].val)
    else LastValue(entries[..|entries| - 1], k)
  }

  /** The reduced object is well formed and has exactly the entries' keys. */
  lemma {:induction false} AssignAllKeys(entries: seq<Field>)
    ensures DistinctKeys(AssignAll(entries))
    ensures KeySet(AssignAll(entries)) == KeySet(entries)
    decreases |entries|
  {
    if |entries| > 0 {
      var init := entries[..|entries| - 1];
      var last := entries[|entries| - 1];
      AssignAllKeys(init);
      AssignKeepsDistinct(AssignAll(init), last.key, last.val);
      AssignKeys(AssignAll(init), last.key, last.val);
      KeySetSnoc(init, last);
      assert entries == init + [last];
    }
  }

  /** Every key of the reduced object reads the last entry's value. */
  lemma {:induction false} AssignAllLookup(entries: seq<Field>, k: string)
    ensures Lookup(AssignAll(entries), k) == LastValue(entries, k)
    decreases |entries|
  {
    if |entries| > 0 {
      var init := entries[..|entries| - 1];
      var last := entries[|entries| - 1];
      AssignAllLookup(init, k);
      AssignLookup(AssignAll(init), last.key, last.val, k);
    }
  }

  /** The entry is the last one with its key exactly when the key reads its
      value. */
  lemma {:induction false} LastValueLaterWins(entries: seq<Field>, j: nat)
    requires j < |entries|
    requires forall k :: j < k < |entries| ==> entries[k].key != entries[j].key
    ensures LastValue(entries, entries[j].key) == Some(entries[j].val)
    decreases |entries|
  {
    var n := |entries|;
    if j < n - 1 {
      var init := entries[..n - 1];
      assert init[j] == entries[j];
      assert forall k :: j < k < |init| ==> init[k] == entries[k];
      LastValueLaterWins(init, j);
    }
  }

  /** Entries with distinct keys are kept as they are, in order. */
  lemma {:induction false} AssignAllDistinct(entries: seq<Field>)
    requires DistinctKeys(entries)
    ensures AssignAll(entries) == entries
    decreases |entries|
  {
    var n := |entries|;
    if n > 0 {
      var init := entries[..n - 1];
      var last := entries[n - 1];
      assert DistinctKeys(init);
      AssignAllDistinct(init);
      AssignAllKeys(init);
      assert last.key !in KeySet(init);
      AssignAppends(init, last.key, last.val);
      assert entries == init + [last];
    }
  }
}
