/** The feature registry created by `createRegistry(plugin)`: one store per
    feature kind, each a `Map` from definition name to definition, plus the
    plugin's own metadata. Its contract is the one `tests/core/registry.test.ts`
    asserts for `register`, `resolve` and `serialize`; the implementation file
    is not part of this model. */
module FeatureRegistry {
  import opened Wrappers
  import opened JsValue
  import opened FeatureSerialization
  import opened Definitions

  /** Each store keeps insertion order; re-setting a name keeps its place. */
  datatype Registry = Registry(
    plugin: seq<Field>,
    credentials: seq<Field>,
    tools: seq<Field>,
    models: seq<Field>)

  /** `createRegistry(plugin)`: the metadata and three empty stores. */
  function CreateRegistry(plugin: seq<Field>): Registry
  {
    Registry(plugin, [], [], [])
  }

  /** The store of one kind. */
  function Store(reg: Registry, kind: Kind): seq<Field>
  {
    match kind
    case Credential => reg.credentials
    case Tool => reg.tools
    case Model => reg.models
  }

  /** The names registered under a kind. */
  function Names(reg: Registry, kind: Kind): set<string>
  {
    KeySet(Store(reg, kind))
  }

  /** The registry with one kind's store replaced. */
  function WithStore(reg: Registry, kind: Kind, store: seq<Field>): (r: Registry)
    ensures r.plugin == reg.plugin
    ensures forall k :: Store(r, k) == if k == kind then store else Store(reg, k)
  {
    match kind
    case Credential => reg.(credentials := store)
    case Tool => reg.(tools := store)
    case Model => reg.(models := store)
  }

  /** `register(kind, definition)`: `map.set(definition.name, definition)` on
      that kind's store. The metadata and the other kinds are untouched and
      the name joins the registered names. */
  function Register(reg: Registry, kind: Kind, def: seq<Field>): (r: Registry)
    requires NameOf(def).Some?
    ensures r.plugin == reg.plugin
    ensures forall other :: other != kind ==> Store(r, other) == Store(reg, other)
    ensures Names(r, kind) == Names(reg, kind) + {NameOf(def).value}
  {
    var name := NameOf(def).value;
    AssignKeys(Store(reg, kind), name, Obj(def));
    WithStore(reg, kind, Assign(Store(reg, kind), name, Obj(def)))
  }

  /** The message of the error `resolve` throws. */
  function NotRegisteredMessage(name: string): string
  {
    "Feature \"" + name + "\" not registered"
  }

  /** `resolve(kind, name)`: the definition stored under the name, or the
      not-registered error, which names the missing feature. */
  function Resolve(reg: Registry, kind: Kind, name: string): (r: Result<Value, string>)
    ensures r.Ok? <==> name in Names(reg, kind)
    ensures r.Err? ==> r.error == NotRegisteredMessage(name)
  {
    match Lookup(Store(reg, kind), name)
    case Some(def) => Ok(def)
    case None => Err(NotRegisteredMessage(name))
  }

  /** After registering `def`, its kind and name resolve to it, and every
      other (kind, name) pair resolves as before. */
  lemma ResolveAfterRegister(reg: Registry, kind: Kind, def: seq<Field>, kind': Kind, name: string)
    requires NameOf(def).Some?
    ensures Resolve(Register(reg, kind, def), kind', name) ==
              if kind' == kind && name == NameOf(def).value then Ok(Obj(def))
              else Resolve(reg, kind', name)
  {
    AssignLookup(Store(reg, kind), NameOf(def).value, Obj(def), name);
  }

  /** Registering two definitions of the same name and kind: the second one
      resolves, the first is gone. */
  lemma LastRegistrationWins(reg: Registry, kind: Kind, def1: seq<Field>, def2: seq<Field>)
    requires NameOf(def1).Some? && NameOf(def1) == NameOf(def2)
    ensures Resolve(Register(Register(reg, kind, def1), kind, def2), kind, NameOf(def1).value) == Ok(Obj(def2))
  {
    ResolveAfterRegister(Register(reg, kind, def1), kind, def2, kind, NameOf(def1).value);
  }

  /** The same name registered as a credential and as a tool resolves to
      each definition under its own kind. */
  lemma KindsAreIndependent(reg: Registry, cred: seq<Field>, tool: seq<Field>)
    requires NameOf(cred).Some? && NameOf(cred) == NameOf(tool)
    ensures var r := Register(Register(reg, Credential, cred), Tool, tool);
            && Resolve(r, Credential, NameOf(cred).value) == Ok(Obj(cred))
            && Resolve(r, Tool, NameOf(cred).value) == Ok(Obj(tool))
  {
    var name := NameOf(cred).value;
    var r1 := Register(reg, Credential, cred);
    ResolveAfterRegister(reg, Credential, cred, Credential, name);
    ResolveAfterRegister(r1, Tool, tool, Credential, name);
    ResolveAfterRegister(r1, Tool, tool, Tool, name);
  }

  /** Nothing resolves in a fresh registry; the error names the feature. */
  lemma FreshRegistryResolvesNothing(plugin: seq<Field>, kind: Kind, name: string)
    ensures Resolve(CreateRegistry(plugin), kind, name) == Err("Feature \"" + name + "\" not registered")
  {
  }

  /** What every reachable registry satisfies: each store is a well-formed
      `Map` whose values are definitions (well-formed objects) filed under
      their own `name`. */
  predicate WellFormedStore(store: seq<Field>)
  {
    && DistinctKeys(store)
    && forall f :: f in store ==>
         f.val.Obj? && DistinctKeys(f.val.fields) && NameOf(f.val.fields) == Some(f.key)
  }

  predicate WellFormed(reg: Registry)
  {
    forall kind :: WellFormedStore(Store(reg, kind))
  }

  /** Registering a well-formed definition keeps the registry well formed
      (a fresh registry, with empty stores, trivially is). */
  lemma RegisterKeepsWellFormed(reg: Registry, kind: Kind, def: seq<Field>)
    requires WellFormed(reg)
    requires NameOf(def).Some? && DistinctKeys(def)
    ensures WellFormed(Register(reg, kind, def))
  {
    var name := NameOf(def).value;
    var s := Store(reg, kind);
    AssignKeepsDistinct(s, name, Obj(def));
    AssignElements(s, name, Obj(def));
    var r := Register(reg, kind, def);
    assert WellFormedStore(Store(r, kind));
    forall other ensures WellFormedStore(Store(r, other)) {
      if other != kind { assert Store(r, other) == Store(reg, other); }
    }
  }

  /** The fields of a stored definition. */
  function DefinitionFields(v: Value): seq<Field>
  {
    if v.Obj? then v.fields else []
  }

  /** One kind's serialized list: `serializeFeature` of each definition, in
      registration order. */
  function SerializeStore(store: seq<Field>): (r: seq<Value>)
    ensures |r| == |store|
    ensures forall i :: 0 <= i < |store| ==> r[i] == Obj(SerializeFeature(DefinitionFields(store[i].val)))
  {
    seq(|store|, i requires 0 <= i < |store| => Obj(SerializeFeature(DefinitionFields(store[i].val))))
  }

  /** The key of each kind's list in the serialized plugin. */
  function ListKey(kind: Kind): string
  {
    match kind
    case Credential => "credentials"
    case Tool => "tools"
    case Model => "models"
  }

  /** `serialize().plugin`: the plugin metadata spread, then the three
      lists. */
  function SerializedPlugin(reg: Registry): seq<Field>
  {
    var withCredentials := Assign(reg.plugin, "credentials", Arr(SerializeStore(reg.credentials)));
    var withTools := Assign(withCredentials, "tools", Arr(SerializeStore(reg.tools)));
    Assign(withTools, "models", Arr(SerializeStore(reg.models)))
  }

  /** `serialize()`: `{ plugin: { ...metadata, credentials, tools, models } }`. */
  function Serialize(reg: Registry): Value
  {
    Obj([Field("plugin", Obj(SerializedPlugin(reg)))])
  }

  /** Every kind's list is present under its key, and every other key of
      the serialized plugin reads the metadata unchanged. */
  lemma SerializedPluginLookup(reg: Registry, k: string)
    ensures Lookup(SerializedPlugin(reg), k) ==
              if k == "credentials" then Some(Arr(SerializeStore(reg.credentials)))
              else if k == "tools" then Some(Arr(SerializeStore(reg.tools)))
              else if k == "models" then Some(Arr(SerializeStore(reg.models)))
              else Lookup(reg.plugin, k)
  {
    var withCredentials := Assign(reg.plugin, "credentials", Arr(SerializeStore(reg.credentials)));
    var withTools := Assign(withCredentials, "tools", Arr(SerializeStore(reg.tools)));
    AssignLookup(reg.plugin, "credentials", Arr(SerializeStore(reg.credentials)), k);
    AssignLookup(withCredentials, "tools", Arr(SerializeStore(reg.tools)), k);
    AssignLookup(withTools, "models", Arr(SerializeStore(reg.models)), k);
  }

  /** Each kind's list sits under its key. */
  lemma SerializedList(reg: Registry, kind: Kind)
    ensures Lookup(SerializedPlugin(reg), ListKey(kind)) == Some(Arr(SerializeStore(Store(reg, kind))))
  {
    SerializedPluginLookup(reg, ListKey(kind));
  }

  /** A fresh registry serializes to its metadata with three empty lists,
      never absent ones. */
  lemma SerializeFreshRegistry(plugin: seq<Field>, k: string)
    ensures Lookup(SerializedPlugin(CreateRegistry(plugin)), k) ==
              if k in {"credentials", "tools", "models"} then Some(Arr([]))
              else Lookup(plugin, k)
  {
    SerializedPluginLookup(CreateRegistry(plugin), k);
  }

  /** In a valid registry each serialized definition keeps its name and
      has no function-valued field, so a tool's `invoke` is gone. */
  lemma SerializedEntries(reg: Registry, kind: Kind, i: nat)
    requires WellFormed(reg)
    requires i < |Store(reg, kind)|
    ensures var item := SerializeStore(Store(reg, kind))[i];
            && item.Obj?
            && Lookup(item.fields, "name") == Some(Str(Store(reg, kind)[i].key))
            && forall j :: 0 <= j < |item.fields| ==> !item.fields[j].val.Func?
  {
    var f := Store(reg, kind)[i];
    assert f in Store(reg, kind);
    assert WellFormedStore(Store(reg, kind));
    SerializeFeatureLookup(f.val.fields, "name");
    SerializeFeatureHasNoFunctions(f.val.fields);
  }

  /** A kind's serialized list has one entry per distinct registered name. */
  lemma SerializedCount(reg: Registry, kind: Kind)
    requires WellFormed(reg)
    ensures |SerializeStore(Store(reg, kind))| == |Names(reg, kind)|
  {
    assert WellFormedStore(Store(reg, kind));
    DistinctKeysCount(Store(reg, kind));
  }

  /** `register` of each definition in turn. */
  function RegisterAll(reg: Registry, kind: Kind, defs: seq<seq<Field>>): Registry
    requires forall i :: 0 <= i < |defs| ==> NameOf(defs[i]).Some?
    decreases |defs|
  {
    if |defs| == 0 then reg
    else Register(RegisterAll(reg, kind, defs[..|defs| - 1]), kind, defs[|defs| - 1])
  }

  /** The store entries the definitions would form if none overwrote
      another. */
  function Entries(defs: seq<seq<Field>>): (r: seq<Field>)
    requires forall i :: 0 <= i < |defs| ==> NameOf(defs[i]).Some?
    ensures |r| == |defs|
    ensures forall i :: 0 <= i < |defs| ==> r[i] == Field(NameOf(defs[i]).value, Obj(defs[i]))
  {
    seq(|defs|, i requires 0 <= i < |defs| && NameOf(defs[i]).Some? => Field(NameOf(defs[i]).value, Obj(defs[i])))
  }

  /** Registering into a fresh store is the reduce of `map.set` over the
      definitions. */
  lemma {:induction false} RegisterAllFresh(plugin: seq<Field>, kind: Kind, defs: seq<seq<Field>>)
    requires forall i :: 0 <= i < |defs| ==> NameOf(defs[i]).Some?
    ensures Store(RegisterAll(CreateRegistry(plugin), kind, defs), kind) == AssignAll(Entries(defs))
    decreases |defs|
  {
    if |defs| > 0 {
      var init := defs[..|defs| - 1];
      RegisterAllFresh(plugin, kind, init);
      assert Entries(defs)[..|defs| - 1] == Entries(init);
    }
  }

  /** Registering N definitions with distinct names into a fresh registry
      lists N serialized entries, the i-th carrying the i-th definition's
      name. */
  lemma SerializeRoundTrip(plugin: seq<Field>, kind: Kind, defs: seq<seq<Field>>)
    requires forall i :: 0 <= i < |defs| ==> NameOf(defs[i]).Some? && DistinctKeys(defs[i])
    requires forall i, j :: 0 <= i < j < |defs| ==> NameOf(defs[i]) != NameOf(defs[j])
    ensures var list := SerializeStore(Store(RegisterAll(CreateRegistry(plugin), kind, defs), kind));
            && |list| == |defs|
            && forall i :: 0 <= i < |defs| ==>
                 list[i].Obj? && Lookup(list[i].fields, "name") == Lookup(defs[i], "name")
  {
    var e := Entries(defs);
    RegisterAllFresh(plugin, kind, defs);
    assert DistinctKeys(e);
    AssignAllDistinct(e);
    forall i | 0 <= i < |defs|
      ensures Lookup(SerializeFeature(defs[i]), "name") == Lookup(defs[i], "name")
    {
      SerializeFeatureLookup(defs[i], "name");
    }
  }
}
