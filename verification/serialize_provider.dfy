/** `serializeProvider` (`src/utils/serialize-provider.ts`): turn a provider
    store into plain data. Function-valued properties are dropped, each `Map`
    of features becomes an object keyed by the features' English names, and
    every other value is copied. */
module ProviderSerialization {
  import opened Wrappers
  import opened JsValue
  import opened FeatureSerialization

  /** What the store's maps hold: a well-formed object whose `name` is an
      object with a string `en_US`. */
  predicate IsFeature(v: Value)
  {
    && v.Obj?
    && DistinctKeys(v.fields)
    && match Lookup(v.fields, "name")
       case Some(Obj(n)) => Lookup(n, "en_US").Some? && Lookup(n, "en_US").value.Str?
       case _ => false
  }

  /** `feature.name.en_US`. */
  function EnUsName(v: Value): string
    requires IsFeature(v)
  {
    Lookup(Lookup(v.fields, "name").value.fields, "en_US").value.s
  }

  predicate AllFeatures(vs: seq<Value>)
  {
    forall i :: 0 <= i < |vs| ==> IsFeature(vs[i])
  }

  /** `Array.from(map.values())`: the entries' values in insertion order. */
  function MapValues(entries: seq<Field>): (r: seq<Value>)
    ensures |r| == |entries|
    ensures forall i :: 0 <= i < |entries| ==> r[i] == entries[i].val
  {
    seq(|entries|, i requires 0 <= i < |entries| => entries[i].val)
  }

  /** Each feature under its English name, serialized. */
  function Keyed(features: seq<Value>): (r: seq<Field>)
    requires AllFeatures(features)
    ensures |r| == |features|
    ensures forall i :: 0 <= i < |features| ==>
              r[i] == Field(EnUsName(features[i]), Obj(SerializeFeature(features[i].fields)))
  {
    seq(|features|, i requires 0 <= i < |features| && AllFeatures(features) =>
      Field(EnUsName(features[i]), Obj(SerializeFeature(features[i].fields))))
  }

  /** The inner reduce: `Object.assign(acc, { [feature.name.en_US]:
      serializeFeature(feature) })` for each feature in turn. */
  function Denormalise(features: seq<Value>): seq<Field>
    requires AllFeatures(features)
  {
    AssignAll(Keyed(features))
  }

  /** The object is well formed and its keys are exactly the features'
      English names. */
  lemma DenormaliseKeys(features: seq<Value>)
    requires AllFeatures(features)
    ensures DistinctKeys(Denormalise(features))
    ensures forall name :: name in KeySet(Denormalise(features)) <==>
              exists i :: 0 <= i < |features| && EnUsName(features[i]) == name
  {
    var e := Keyed(features);
    AssignAllKeys(e);
    forall name ensures name in KeySet(e) <==> exists i :: 0 <= i < |features| && EnUsName(features[i]) == name {
      if name in KeySet(e) {
        var i :| 0 <= i < |e| && e[i].key == name;
        assert EnUsName(features[i]) == name;
      }
    }
  }

  /** A name reads the serialization of the LAST feature carrying it: a
      later feature overwrites an earlier one of the same name. */
  lemma DenormaliseLaterWins(features: seq<Value>, j: nat)
    requires AllFeatures(features)
    requires j < |features|
    requires forall k :: j < k < |features| ==> EnUsName(features[k]) != EnUsName(features[j])
    ensures Lookup(Denormalise(features), EnUsName(features[j])) ==
              Some(Obj(SerializeFeature(features[j].fields)))
  {
    var e := Keyed(features);
    AssignAllLookup(e, e[j].key);
    LastValueLaterWins(e, j);
  }

  /** With pairwise distinct names nothing is overwritten: the output lists
      every feature's serialization, in map order. */
  lemma DenormaliseDistinctNames(features: seq<Value>)
    requires AllFeatures(features)
    requires forall i, j :: 0 <= i < j < |features| ==> EnUsName(features[i]) != EnUsName(features[j])
    ensures Denormalise(features) == Keyed(features)
  {
    AssignAllDistinct(Keyed(features));
  }

  /** The object has one key per distinct English name. */
  lemma DenormaliseSize(features: seq<Value>)
    requires AllFeatures(features)
    ensures |Denormalise(features)| == |KeySet(Keyed(features))| <= |features|
  {
    AssignAllKeys(Keyed(features));
    DistinctKeysCount(Denormalise(features));
    KeySetSize(Keyed(features));
  }

  /** Every map in the store holds features only. */
  predicate WellFormedProvider(provider: seq<Field>)
  {
    forall i :: 0 <= i < |provider| && provider[i].val.JsMap? ==>
      AllFeatures(MapValues(provider[i].val.entries))
  }

  /** What one property of the store serializes to; `None` drops it. */
  function ProviderValue(v: Value): Option<Value>
    requires v.JsMap? ==> AllFeatures(MapValues(v.entries))
  {
    if v.Func? then None
    else if v.JsMap? then Some(Obj(Denormalise(MapValues(v.entries))))
    else Some(v)
  }

  /** `serializeProvider(provider)`: the outer reduce over `Object.keys`,
      written on prefixes. */
  function SerializeProvider(provider: seq<Field>): (r: seq<Field>)
    requires WellFormedProvider(provider)
    ensures DistinctKeys(provider) ==> DistinctKeys(r)
    decreases |provider|
  {
    if |provider| == 0 then []
    else
      var init := provider[..|provider| - 1];
      var last := provider[|provider| - 1];
      assert WellFormedProvider(init) by {
        assert forall i :: 0 <= i < |init| ==> init[i] == provider[i];
      }
      assert DistinctKeys(provider) ==> DistinctKeys(init);
      var acc := SerializeProvider(init);
      match ProviderValue(last.val)
      case None => acc
      case Some(x) =>
        AssignKeepsDistinct(acc, last.key, x);
        Assign(acc, last.key, x)
  }

  /** Reading a property of the serialized store: a function reads as
      absent, a map reads as its denormalised object, anything else
      (nested objects, `null`, `undefined`) reads unchanged. */
  lemma {:induction false} SerializeProviderLookup(provider: seq<Field>, k: string)
    requires WellFormedProvider(provider)
    requires DistinctKeys(provider)
    ensures Lookup(SerializeProvider(provider), k) ==
              match Lookup(provider, k)
              case None => None
              case Some(v) => ProviderValue(v)
    decreases |provider|
  {
    if |provider| > 0 {
      var n := |provider|;
      var init := provider[..n - 1];
      var last := provider[n - 1];
      assert provider == init + [last];
      assert forall i :: 0 <= i < |init| ==> init[i] == provider[i];
      assert DistinctKeys(init);
      assert last.key !in KeySet(init);
      LookupAppend(init, last, k);
      SerializeProviderLookup(init, k);
      match ProviderValue(last.val)
      case None =>
      case Some(x) =>
        AssignLookup(SerializeProvider(init), last.key, x, k);
    }
  }

  /** The output is plain data at the top level: no function and no `Map`
      remains, and its keys are the store's keys not holding a function. */
  lemma SerializeProviderIsPlain(provider: seq<Field>)
    requires WellFormedProvider(provider)
    requires DistinctKeys(provider)
    ensures forall i :: 0 <= i < |SerializeProvider(provider)| ==>
              !SerializeProvider(provider)[i].val.Func? && !SerializeProvider(provider)[i].val.JsMap?
    ensures forall k :: k in KeySet(SerializeProvider(provider)) <==>
              k in KeySet(provider) && !Lookup(provider, k).value.Func?
  {
    var r := SerializeProvider(provider);
    forall i | 0 <= i < |r| ensures !r[i].val.Func? && !r[i].val.JsMap? {
      SerializeProviderLookup(provider, r[i].key);
    }
    forall k ensures k in KeySet(r) <==> k in KeySet(provider) && !Lookup(provider, k).value.Func? {
      SerializeProviderLookup(provider, k);
    }
  }

  /** An empty map serializes to an empty object. */
  lemma EmptyMapSerializesEmpty()
    ensures SerializeProvider([Field("tool", JsMap([]))]) == [Field("tool", Obj([]))]
  {
    var p := [Field("tool", JsMap([]))];
    assert MapValues([]) == [];
    assert p[..0] == [];
  }

  /** A store holding only functions serializes to an empty object. */
  lemma {:induction false} OnlyFunctionsSerializeEmpty(provider: seq<Field>)
    requires forall i :: 0 <= i < |provider| ==> provider[i].val.Func?
    ensures WellFormedProvider(provider)
    ensures SerializeProvider(provider) == []
    decreases |provider|
  {
    if |provider| > 0 {
      OnlyFunctionsSerializeEmpty(provider[..|provider| - 1]);
    }
  }
}
