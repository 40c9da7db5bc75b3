/** `serializeFeature` (`src/utils/serialize-feature.ts`): copy a feature
    object without its function-valued properties. */
module FeatureSerialization {
  import opened Wrappers
  import opened JsValue

  /** The reduce callback: a function-valued property is skipped, any other
      is assigned onto the accumulator. */
  function Step(acc: seq<Field>, f: Field): seq<Field>
  {
    if f.val.Func? then acc else Assign(acc, f.key, f.val)
  }

  /** The properties whose value is not a function, in their original order:
      the reference the serializer is checked against. */
  function NonFunctionFields(fields: seq<Field>): (r: seq<Field>)
    ensures forall f :: f in r <==> f in fields && !f.val.Func?
    ensures KeySet(r) <= KeySet(fields)
    ensures DistinctKeys(fields) ==> DistinctKeys(r)
    decreases |fields|
  {
    if |fields| == 0 then []
    else
      var init := fields[..|fields| - 1];
      var last := fields[|fields| - 1];
      var rest := NonFunctionFields(init);
      assert fields == init + [last];
      assert forall f :: f in fields <==> f in init || f == last;
      KeySetSnoc(init, last);
      if last.val.Func? then rest
      else
        KeySetSnoc(rest, last);
        rest + [last]
  }

  /** `serializeFeature(feature)`: `Object.keys(feature).reduce(Step, {})`,
      the left fold written on prefixes. On a well-formed object it keeps
      exactly the non-function properties, in order. */
  function SerializeFeature(feature: seq<Field>): (r: seq<Field>)
    ensures DistinctKeys(feature) ==> r == NonFunctionFields(feature)
    decreases |feature|
  {
    if |feature| == 0 then []
    else
      var init := feature[..|feature| - 1];
      var last := feature[|feature| - 1];
      assert DistinctKeys(feature) ==> DistinctKeys(init) && last.key !in KeySet(init);
      AssignAppends(SerializeFeature(init), last.key, last.val);
      Step(SerializeFeature(init), last)
  }

  /** The output's keys are the input keys whose value is not a function. */
  lemma SerializeFeatureKeys(feature: seq<Field>)
    requires DistinctKeys(feature)
    ensures forall k :: k in KeySet(SerializeFeature(feature)) <==>
                          k in KeySet(feature) && !Lookup(feature, k).value.Func?
  {
    var r := SerializeFeature(feature);
    forall k ensures k in KeySet(r) <==> k in KeySet(feature) && !Lookup(feature, k).value.Func? {
      if k in KeySet(r) {
        var i :| 0 <= i < |r| && r[i].key == k;
        assert r[i] in feature;
      }
      if k in KeySet(feature) && !Lookup(feature, k).value.Func? {
        assert Field(k, Lookup(feature, k).value) in r;
      }
    }
  }

  /** No value in the output is a function. */
  lemma SerializeFeatureHasNoFunctions(feature: seq<Field>)
    requires DistinctKeys(feature)
    ensures forall i :: 0 <= i < |SerializeFeature(feature)| ==> !SerializeFeature(feature)[i].val.Func?
  {
    var r := SerializeFeature(feature);
    forall i | 0 <= i < |r| ensures !r[i].val.Func? {
      assert r[i] in r;
    }
  }

  /** Every retained property reads exactly what it read in the input,
      nested objects, arrays, `null` and `undefined` included; a
      function-valued property reads as absent. */
  lemma SerializeFeatureLookup(feature: seq<Field>, k: string)
    requires DistinctKeys(feature)
    ensures Lookup(SerializeFeature(feature), k) ==
              if Lookup(feature, k).Some? && Lookup(feature, k).value.Func? then None
              else Lookup(feature, k)
  {
    var r := SerializeFeature(feature);
    SerializeFeatureKeys(feature);
    if Lookup(r, k).Some? {
      assert Field(k, Lookup(r, k).value) in feature;
    }
  }

  /** A feature without function properties serializes to itself. */
  lemma {:induction false} SerializeFeatureIdentity(feature: seq<Field>)
    requires DistinctKeys(feature)
    requires forall i :: 0 <= i < |feature| ==> !feature[i].val.Func?
    ensures SerializeFeature(feature) == feature
  {
    NonFunctionFieldsIdentity(feature);
  }

  lemma {:induction false} NonFunctionFieldsIdentity(fields: seq<Field>)
    requires forall i :: 0 <= i < |fields| ==> !fields[i].val.Func?
    ensures NonFunctionFields(fields) == fields
    decreases |fields|
  {
    if |fields| > 0 {
      var init := fields[..|fields| - 1];
      NonFunctionFieldsIdentity(init);
      assert fields == init + [fields[|fields| - 1]];
    }
  }

  /** Serializing twice is serializing once. */
  lemma SerializeFeatureIdempotent(feature: seq<Field>)
    requires DistinctKeys(feature)
    ensures SerializeFeature(SerializeFeature(feature)) == SerializeFeature(feature)
  {
    SerializeFeatureHasNoFunctions(feature);
    SerializeFeatureIdentity(SerializeFeature(feature));
  }

  /** Only top-level values are tested: a function nested inside an object
      property survives. */
  lemma SerializeFeatureIsShallow()
    ensures var nested := Obj([Field("run", Func(0))]);
            SerializeFeature([Field("config", nested), Field("run", Func(1))]) == [Field("config", nested)]
  {
    var nested := Obj([Field("run", Func(0))]);
    var feature := [Field("config", nested), Field("run", Func(1))];
    assert DistinctKeys(feature);
    assert feature[..1] == [Field("config", nested)];
    assert [Field("config", nested)][..0] == [];
  }
}
