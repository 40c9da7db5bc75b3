/** The definition schemas of `src/schemas/definition.ts`: which fields a
    plugin, credential, tool or model definition declares, and what each
    field accepts. */
module Definitions {
  import opened Wrappers
  import opened JsValue
  import opened Schema
  import Names

  /** The three kinds of feature a plugin registers. */
  datatype Kind = Credential | Tool | Model

  // Each schema below is the field list that `BaseDefinitionSchema`
  // (name, display_name, description, icon, parameters, optional settings)
  // becomes after the source's `.omit()` and object spreads.

  /** `PluginDefinitionSchema`: the base without `parameters` and
      `settings`, then the plugin's own fields. */
  const PluginSpec: seq<FieldSpec> := [
    FieldSpec("name", false, Name(false)),
    FieldSpec("display_name", false, I18nEntry),
    FieldSpec("description", false, I18nEntry),
    FieldSpec("icon", false, StringValue),
    FieldSpec("author", false, StringValue),
    FieldSpec("email", false, Email),
    FieldSpec("repo", true, HttpUrl),
    FieldSpec("version", true, StringValue),
    FieldSpec("locales", false, ArrayOf(StringValue))
  ]

  /** `CredentialDefinitionSchema`: the base without `settings`. */
  const CredentialSpec: seq<FieldSpec> := [
    FieldSpec("name", false, Name(false)),
    FieldSpec("display_name", false, I18nEntry),
    FieldSpec("description", false, I18nEntry),
    FieldSpec("icon", false, StringValue),
    FieldSpec("parameters", false, PropertyList)
  ]

  /** `ToolDefinitionSchema`: the whole base plus the `invoke` function. */
  const ToolSpec: seq<FieldSpec> := [
    FieldSpec("name", false, Name(false)),
    FieldSpec("display_name", false, I18nEntry),
    FieldSpec("description", false, I18nEntry),
    FieldSpec("icon", false, StringValue),
    FieldSpec("parameters", false, PropertyList),
    FieldSpec("settings", true, PropertyList),
    FieldSpec("invoke", false, Callable)
  ]

  const InputModalities: seq<string> := ["file", "image", "text"]
  const OutputModalities: seq<string> := ["text"]

  /** The `unsupported_parameters` enum (the commented-out names excluded). */
  const UnsupportedParameters: seq<string> := [
    "endpoint", "temperature", "frequency_penalty", "seed", "max_tokens", "json_schema",
    "stream", "stream_options", "structured_outputs", "parallel_tool_calls", "verbosity"
  ]

  const PricingSpec: seq<FieldSpec> := [
    FieldSpec("currency", true, StringValue),
    FieldSpec("input", true, NumberValue),
    FieldSpec("input_cache_read", true, NumberValue),
    FieldSpec("input_cache_write", true, NumberValue),
    FieldSpec("output", true, NumberValue),
    FieldSpec("request", true, NumberValue)
  ]

  const BoundsSpec: seq<FieldSpec> := [
    FieldSpec("default", true, NumberValue),
    FieldSpec("maximum", true, NumberValue),
    FieldSpec("minimum", true, NumberValue)
  ]

  const OverrideParametersSpec: seq<FieldSpec> := [
    FieldSpec("temperature", true, Object(BoundsSpec)),
    FieldSpec("frequency_penalty", true, Object(BoundsSpec)),
    FieldSpec("max_tokens", true, Object([
      FieldSpec("default", true, NumberValue),
      FieldSpec("maximum", true, NumberValue)
    ])),
    FieldSpec("verbosity", true, Object([
      FieldSpec("default", true, Enum(["low", "medium", "high"]))
    ]))
  ]

  /** `ModelDefinitionSchema`: the base without `parameters` and `settings`,
      its `name` rule replaced in place by the model-name rule, then the
      model's own fields. */
  const ModelSpec: seq<FieldSpec> := [
    FieldSpec("name", false, Name(true)),
    FieldSpec("display_name", false, I18nEntry),
    FieldSpec("description", false, I18nEntry),
    FieldSpec("icon", false, StringValue),
    FieldSpec("model_type", false, Literal("llm")),
    FieldSpec("default_endpoint", true, HttpUrl),
    FieldSpec("input_modalities", false, ArrayOf(Enum(InputModalities))),
    FieldSpec("output_modalities", false, ArrayOf(Enum(OutputModalities))),
    FieldSpec("pricing", true, Object(PricingSpec)),
    FieldSpec("override_parameters", true, Object(OverrideParametersSpec)),
    FieldSpec("unsupported_parameters", false, ArrayOf(Enum(UnsupportedParameters)))
  ]

  function SpecFor(kind: Kind): seq<FieldSpec>
  {
    match kind
    case Credential => CredentialSpec
    case Tool => ToolSpec
    case Model => ModelSpec
  }

  /** `<Kind>DefinitionSchema.parse(v)` succeeds. */
  predicate Valid(kind: Kind, v: Value)
  {
    Accepts(Object(SpecFor(kind)), v)
  }

  /** The `name` of a definition, when it is a string. */
  function NameOf(fields: seq<Field>): (r: Option<string>)
    ensures r.Some? <==> exists s :: Lookup(fields, "name") == Some(Str(s))
    ensures r.Some? ==> Lookup(fields, "name") == Some(Str(r.value))
  {
    match Lookup(fields, "name")
    case Some(Str(s)) => Some(s)
    case _ => None
  }

  /** Plugin definitions declare neither parameters nor settings,
      credential definitions declare no settings, and tool definitions
      declare a required `invoke` function. */
  lemma DefinitionShapes()
    ensures "parameters" !in SpecKeys(PluginSpec) && "settings" !in SpecKeys(PluginSpec)
    ensures "settings" !in SpecKeys(CredentialSpec) && "parameters" in SpecKeys(CredentialSpec)
    ensures FieldSpec("invoke", false, Callable) in ToolSpec
    ensures "parameters" !in SpecKeys(ModelSpec) && "settings" !in SpecKeys(ModelSpec)
  {
    assert ToolSpec[6] == FieldSpec("invoke", false, Callable);
    assert CredentialSpec[4].key == "parameters";
    assert forall i :: 0 <= i < |PluginSpec| ==> PluginSpec[i].key != "parameters" && PluginSpec[i].key != "settings";
    assert forall i :: 0 <= i < |ModelSpec| ==> ModelSpec[i].key != "parameters" && ModelSpec[i].key != "settings";
    assert forall i :: 0 <= i < |CredentialSpec| ==> CredentialSpec[i].key != "settings";
  }

  /** Every accepted definition has a string name obeying its kind's rule:
      the model-name rule for models, the base rule otherwise. */
  lemma ValidDefinitionNamed(kind: Kind, v: Value)
    requires Valid(kind, v)
    ensures v.Obj? && NameOf(v.fields).Some?
    ensures kind == Model ==> Names.ModelName(NameOf(v.fields).value)
    ensures kind != Model ==> Names.BaseName(NameOf(v.fields).value)
  {
    var f := FieldSpec("name", false, Name(kind == Model));
    match kind
    case Credential =>
      assert CredentialSpec[0] == f;
      ObjectField(CredentialSpec, v, f);
    case Tool =>
      assert ToolSpec[0] == f;
      ObjectField(ToolSpec, v, f);
    case Model =>
      assert ModelSpec[0] == f;
      ObjectField(ModelSpec, v, f);
    assert Accepts(Name(kind == Model), Lookup(v.fields, "name").value);
  }

  /** An accepted tool definition carries a callable `invoke`. */
  lemma ToolCarriesInvoke(v: Value)
    requires Valid(Tool, v)
    ensures v.Obj? && Lookup(v.fields, "invoke").Some? && Lookup(v.fields, "invoke").value.Func?
  {
    var f := FieldSpec("invoke", false, Callable);
    assert ToolSpec[6] == f;
    ObjectField(ToolSpec, v, f);
    assert Accepts(Callable, Lookup(v.fields, "invoke").value);
  }

  /** An accepted model definition has `model_type` `"llm"`. */
  lemma ModelIsLlm(v: Value)
    requires Valid(Model, v)
    ensures v.Obj? && Lookup(v.fields, "model_type") == Some(Str("llm"))
  {
    var f := FieldSpec("model_type", false, Literal("llm"));
    assert ModelSpec[4] == f;
    ObjectField(ModelSpec, v, f);
  }

  /** An accepted model's input modalities are each file, image or text. */
  lemma ModelInputModalities(v: Value)
    requires Valid(Model, v)
    ensures v.Obj? && Lookup(v.fields, "input_modalities").Some?
    ensures var m := Lookup(v.fields, "input_modalities").value;
            m.Arr? && forall i :: 0 <= i < |m.items| ==> m.items[i].Str? && m.items[i].s in {"file", "image", "text"}
  {
    var f := FieldSpec("input_modalities", false, ArrayOf(Enum(InputModalities)));
    assert ModelSpec[6] == f;
    ObjectField(ModelSpec, v, f);
    var m := Lookup(v.fields, "input_modalities").value;
    assert Accepts(ArrayOf(Enum(InputModalities)), m);
    forall i | 0 <= i < |m.items| ensures m.items[i].Str? && m.items[i].s in {"file", "image", "text"} {
      assert Accepts(Enum(InputModalities), m.items[i]);
    }
  }

  /** An accepted model's output modalities are all text. */
  lemma ModelOutputModalities(v: Value)
    requires Valid(Model, v)
    ensures v.Obj? && Lookup(v.fields, "output_modalities").Some?
    ensures var m := Lookup(v.fields, "output_modalities").value;
            m.Arr? && forall i :: 0 <= i < |m.items| ==> m.items[i] == Str("text")
  {
    var f := FieldSpec("output_modalities", false, ArrayOf(Enum(OutputModalities)));
    assert ModelSpec[7] == f;
    ObjectField(ModelSpec, v, f);
    var m := Lookup(v.fields, "output_modalities").value;
    assert Accepts(ArrayOf(Enum(OutputModalities)), m);
    forall i | 0 <= i < |m.items| ensures m.items[i] == Str("text") {
      assert Accepts(Enum(OutputModalities), m.items[i]);
    }
  }

  /** An accepted model's unsupported parameters all come from the fixed
      list. */
  lemma ModelUnsupportedParameters(v: Value)
    requires Valid(Model, v)
    ensures v.Obj? && Lookup(v.fields, "unsupported_parameters").Some?
    ensures var m := Lookup(v.fields, "unsupported_parameters").value;
            m.Arr? && forall i :: 0 <= i < |m.items| ==> m.items[i].Str? && m.items[i].s in UnsupportedParameters
  {
    var f := FieldSpec("unsupported_parameters", false, ArrayOf(Enum(UnsupportedParameters)));
    assert ModelSpec[10] == f;
    ObjectField(ModelSpec, v, f);
  }

  /** The unsupported-parameter list holds eleven distinct names. */
  lemma UnsupportedParametersDistinct()
    ensures |UnsupportedParameters| == 11
    ensures forall i, j :: 0 <= i < j < |UnsupportedParameters| ==> UnsupportedParameters[i] != UnsupportedParameters[j]
  {
  }
}
