# atomemo-plugin-sdk-js core, modelled in Dafny

This project models the core of the Atomemo plugin SDK for JavaScript.
A plugin declares credentials, tools and models. The SDK validates each
definition against its schema and keeps it in a registry. It strips
functions from the definitions when it sends the plugin manifest to the hub.
It then answers the hub's `credential_auth_spec` and `invoke_tool` messages.

The modules follow the program's structure:

- `Wrappers` holds `Option` and `Result`.
- `JsValue` holds JavaScript values as the serializers and the dispatcher
  observe them:
  - an object is its own properties, in insertion order;
  - `Func` is anything `isFunction` accepts;
  - `JsMap` is a `Map` instance.

  `Assign` is `Object.assign(obj, { [k]: v })` and `map.set(k, v)`. An
  existing key keeps its place, and a new key is added after the others.
  This is insertion order: the model does not list integer-like keys
  first, and it treats `__proto__` as an ordinary key (see "Left out").
- `Names` holds the definition-name regexes (`src/schemas/definition.ts`).
- `Schema` is the fragment of zod object schemas the definitions and UI
  props are built from.
- `Definitions` holds the plugin, credential, tool and model schemas.
- `FeatureSerialization` is `serializeFeature`. `ProviderSerialization` is
  `serializeProvider`. Each reduce is written as a left fold on prefixes and
  checked against an independent reference definition.
- `FeatureRegistry` is `createRegistry`, `register`, `resolve` and
  `serialize`. The registry's own source is not part of this model; its
  behaviour is taken from `tests/core/registry.test.ts`.
- `Plugin` covers:
  - the `add*` methods;
  - the topic the plugin joins, and its parser;
  - the debug-mode `register_plugin` push;
  - the two inbound handlers. Each is one pure step from (registry, message,
    outcome of the awaited behaviour) to the pushes made and the behaviour
    called.
- `PropertyUI` covers the UI-property schemas: the shared props, the option
  and per-component shapes, and the discriminated unions keyed by
  `component`.

The name rule used throughout (`Names.BaseName`, `Names.ModelName`) is the
regex as the source writes it. It admits names of 5..65 characters, while
the comments beside it promise 4..64. The promised rule is kept separately
as `Names.IntendedName` and is proved equal to the commented rules. See
"Findings".
The English error message says separators may not repeat "more than twice".
The regex and the comment on line 22 forbid any two in a row, and the model
follows the regex.

Nothing in `createPlugin` (`src/plugin.ts:70-78`) validates the plugin's
own definition. It is handed to `createRegistry`, whose source is not part
of this model. If that does not validate either, a plugin name may hold
`__`, and two such plugins can meet on one release topic
(`Plugin.UnvalidatedNamesCollide`).

## Model

These members are defined by their bodies and carry no contract of their
own. The rows below state their properties:
- `Names.BaseName` and `Names.ModelName` (src/schemas/definition.ts:24 and
  :68) are covered by `Names.WrittenNameCharacterised` and the `Names` rows.
- `Schema.Accepts` (the zod checks) is covered by `Schema.ObjectField`.
- `Definitions.Valid` (`<Kind>DefinitionSchema.parse`) is covered by the
  `Definitions` rows.
- `JsValue.Assign` (`Object.assign` and `map.set`) is covered by the
  `JsValue.Assign*` rows.
- `FeatureRegistry.CreateRegistry`, `SerializedPlugin` and `Serialize` are
  covered by the `FeatureRegistry` rows.
- `Plugin.Topic` (src/plugin.ts:120-122) is covered by the `Plugin` topic
  rows.
- `Plugin.PushName` is the event name passed to `channel.push`.
- `PropertyUI.UnionAccepts` (`z.discriminatedUnion("component", ...)`) is
  covered by `PropertyUI.DiscriminatedIsPlainUnion` and the union rows.

| member | source | states |
|---|---|---|
| Names.NameShapeCharacterised | src/schemas/definition.ts:24 | For any repetition bounds `{lo,hi}`, the anchored regex accepts a string exactly when it obeys the character rules and has `lo+2..hi+2` characters. The character rules are: <br>- only letters, digits, `_`, `-` (and `/` for models); <br>- a letter first, and a letter or digit last; <br>- no two separators in a row |
| Names.WrittenNameCharacterised | src/schemas/definition.ts:24 | The rule as written (`{3,63}`), which the schemas apply, accepts exactly the strings that obey the character rules and have 5..65 characters |
| Names.NameRegexCharacterised | src/schemas/definition.ts:20-26 | The corrected rule (`{2,62}`) accepts a string exactly when all four commented rules hold, including the promised 4..64 characters |
| Names.BaseNameHasNoSeparatorPair | src/schemas/definition.ts:22-24 | No accepted name contains `__`, `--`, `_-` or `-_`, and every accepted name is 5..65 characters long |
| Names.BaseNameIsModelName | src/schemas/definition.ts:68 | Every valid tool, credential or plugin name is also a valid model name |
| Names.ModelNameSlashEnds | src/schemas/definition.ts:68 | `/` is allowed only in the middle of a model name, never first or last |
| Names.ModelNameSlashExamples | src/schemas/definition.ts:68 | Repeated and adjacent slashes are allowed in model names; a slash is refused in a base name |
| Names.CheckName | src/schemas/definition.ts:24 | A single left-to-right scan returns true exactly when the regex as written accepts the string: the model regex when `/` is allowed, the base regex otherwise |
| Names.AsWrittenLengthBounds | src/schemas/definition.ts:24 | Both regexes as written refuse the 4-character name `abcd`, which the commented rules allow. They accept a letter followed by 64 digits, which the rules forbid |
| Names.IntendedNameLengths | src/schemas/definition.ts:23-24 | The corrected rule differs from the written one only in the length window. On 5..64 characters the two agree |
| Schema.ObjectField | src/schemas/definition.ts:19-33 | An object a `z.object` shape accepts passes every declared field. Each required field is present, not `undefined`, and passes its own check |
| Definitions.DefinitionShapes | src/schemas/definition.ts:38-155 | The field lists that result from `omit` and the spreads: <br>- plugin definitions drop `parameters` and `settings`; <br>- credentials drop only `settings`; <br>- tools add a required `invoke` function; <br>- models drop both |
| Definitions.ValidDefinitionNamed | src/schemas/definition.ts:19-68 | Every accepted definition has a string `name`. It obeys the model rule for models and the base rule otherwise |
| Definitions.ToolCarriesInvoke | src/schemas/definition.ts:149-155 | Every accepted tool has a callable `invoke` |
| Definitions.ModelIsLlm | src/schemas/definition.ts:72 | Every accepted model has `model_type` equal to `"llm"` |
| Definitions.ModelInputModalities | src/schemas/definition.ts:74 | An accepted model's input modalities are an array of `file`, `image` or `text` |
| Definitions.ModelOutputModalities | src/schemas/definition.ts:75 | An accepted model's output modalities are an array of `text` only |
| Definitions.ModelUnsupportedParameters | src/schemas/definition.ts:115-143 | An accepted model's unsupported parameters are an array drawn from the fixed enum. The commented-out names are excluded |
| Definitions.UnsupportedParametersDistinct | src/schemas/definition.ts:115-143 | The unsupported-parameter enum has eleven pairwise distinct names |
| JsValue.Lookup | src/utils/serialize-feature.ts:13 | A property read finds a value exactly when the object has that key. On a well-formed object it is the value stored under that key |
| JsValue.AssignKeys | src/utils/serialize-feature.ts:19 | `Object.assign(acc, {[k]: v})` adds `k` to the object's keys and no other key |
| JsValue.AssignLookup | src/utils/serialize-feature.ts:19 | After `Object.assign(acc, {[k]: v})`, `k` reads `v` and every other key reads what it read before |
| JsValue.AssignAppends | src/utils/serialize-feature.ts:19 | Assigning a key the object lacks appends it after all existing properties |
| JsValue.AssignReplaces | src/utils/serialize-provider.ts:25-31 | Assigning a key the object has overwrites it where it stands. The length and order are unchanged |
| JsValue.AssignAllKeys | src/utils/serialize-provider.ts:25-31 | Reducing a list of entries with `Object.assign` gives an object with distinct keys: exactly the entries' keys |
| JsValue.AssignAllLookup | src/utils/serialize-provider.ts:25-31 | In the reduced object, every key reads the value of the LAST entry with that key (`LastValue`) |
| JsValue.LastValueLaterWins | src/utils/serialize-provider.ts:25-31 | An entry that no later entry shares a key with is the value its key reads after the reduce |
| FeatureSerialization.NonFunctionFields | src/utils/serialize-feature.ts:15-17 | The reference filter holds exactly the properties whose value is not a function, and never adds keys |
| FeatureSerialization.SerializeFeature | src/utils/serialize-feature.ts:10-21 | On any object, `serializeFeature` equals the order-preserving filter `NonFunctionFields` |
| FeatureSerialization.SerializeFeatureKeys | src/utils/serialize-feature.ts:12-19 | The output's keys are exactly the input keys whose value is not a function |
| FeatureSerialization.SerializeFeatureHasNoFunctions | src/utils/serialize-feature.ts:15-17 | No output value is a function |
| FeatureSerialization.SerializeFeatureLookup | src/utils/serialize-feature.ts:13-19 | A function-valued key reads as absent. Every other key reads the same value as in the input, including nested objects, arrays, `null` and `undefined` |
| FeatureSerialization.SerializeFeatureIdentity | src/utils/serialize-feature.ts:10-21 | A feature without function properties serializes to itself |
| FeatureSerialization.SerializeFeatureIdempotent | src/utils/serialize-feature.ts:10-21 | Serializing twice gives the same result as serializing once |
| FeatureSerialization.SerializeFeatureIsShallow | src/utils/serialize-feature.ts:15-17 | Only top-level values are tested: a function inside a nested object survives |
| ProviderSerialization.DenormaliseKeys | src/utils/serialize-provider.ts:25-31 | A denormalised map is an object with distinct keys, and its keys are exactly the features' `name.en_US` |
| ProviderSerialization.DenormaliseLaterWins | src/utils/serialize-provider.ts:26-29 | A name reads the serialization of the last feature with that name: a later feature overwrites an earlier one |
| ProviderSerialization.DenormaliseDistinctNames | src/utils/serialize-provider.ts:25-31 | With distinct names, the object lists every feature's serialization, in map insertion order |
| ProviderSerialization.DenormaliseSize | src/utils/serialize-provider.ts:25-31 | The object has one key per distinct name, so it never has more keys than the map has features |
| ProviderSerialization.SerializeProvider | src/utils/serialize-provider.ts:13-37 | The outer reduce turns an object with distinct keys into an object with distinct keys |
| ProviderSerialization.SerializeProviderLookup | src/utils/serialize-provider.ts:13-37 | Each key of the output reads: <br>- nothing, where the store held a function; <br>- the denormalised object, where it held a `Map`; <br>- the unchanged value, otherwise |
| ProviderSerialization.SerializeProviderIsPlain | src/utils/serialize-provider.ts:18-35 | No function and no `Map` remains at the top level. The keys are exactly the store's keys that do not hold a function |
| ProviderSerialization.EmptyMapSerializesEmpty | src/utils/serialize-provider.ts:22-32 | An empty `Map` serializes to an empty object |
| ProviderSerialization.OnlyFunctionsSerializeEmpty | src/utils/serialize-provider.ts:18-20 | A store that holds only functions serializes to `{}` |
| FeatureRegistry.Register | tests/core/registry.test.ts:28-66 | Registering adds the definition's name to its kind's names and no other name. Other kinds and the plugin metadata are unchanged |
| FeatureRegistry.Resolve | tests/core/registry.test.ts:142-146 | `resolve` succeeds exactly for registered names. Otherwise it fails with `Feature "<name>" not registered` |
| FeatureRegistry.ResolveAfterRegister | tests/core/registry.test.ts:96-140 | After a registration, its kind and name resolve to the definition. Every other kind and name pair resolves as before |
| FeatureRegistry.LastRegistrationWins | tests/core/registry.test.ts:68-92 | Registering a second definition under the same kind and name replaces the first |
| FeatureRegistry.KindsAreIndependent | tests/core/registry.test.ts:148-171 | The same name registered as a credential and as a tool resolves to each definition under its own kind |
| FeatureRegistry.FreshRegistryResolvesNothing | tests/core/registry.test.ts:142-146 | In a fresh registry, every name fails to resolve, and the error names the feature |
| FeatureRegistry.RegisterKeepsWellFormed | tests/core/registry.test.ts:27-92 | Registering keeps the store invariant: keys are distinct, and each definition is an object stored under its own name |
| FeatureRegistry.SerializedPluginLookup | tests/core/registry.test.ts:175-180 | The serialized plugin keeps every metadata key and adds `credentials`, `tools` and `models` as arrays |
| FeatureRegistry.SerializedList | tests/core/registry.test.ts:182-210 | Each kind's list appears under its key, as that store's serialized definitions in order |
| FeatureRegistry.SerializeFreshRegistry | tests/core/registry.test.ts:227-232 | A fresh registry serializes to its metadata with three empty lists |
| FeatureRegistry.SerializedEntries | tests/core/registry.test.ts:182-225 | In a well-formed registry, each serialized definition keeps its `name` and holds no function, so `invoke` is gone |
| FeatureRegistry.SerializedCount | tests/core/registry.test.ts:234-271 | A kind's serialized list has one entry per registered name |
| FeatureRegistry.RegisterAllFresh | tests/core/registry.test.ts:275-316 | Registering definitions in turn into a fresh registry builds the reduce of `map.set` over them |
| FeatureRegistry.SerializeRoundTrip | tests/core/registry.test.ts:275-316 | Registering N definitions with distinct names gives a list of length N. Its names are the definitions' names, in registration order |
| Plugin.TopicRoundTrip | src/plugin.ts:120-122 | A debug or release topic parses back into its mode, plugin name and version text. For release topics, this holds for every name that has no `__` and does not end in `_` |
| Plugin.BaseNameSplitsCleanly | src/plugin.ts:122 | Every valid plugin name can be read back from its release topic: no `__` inside it, and no `_` at its end |
| Plugin.ReleaseTopicsDistinguishPlugins | src/plugin.ts:120-122 | Two plugins whose names have no `__` and no trailing `_` share a release topic only when they share name and version text |
| Plugin.UnvalidatedNamesCollide | src/plugin.ts:70-122 | Nothing in the code shown here validates the plugin name. Unvalidated, the plugins (`a__b`, version `c`) and (`a`, version `b__c`) share the release topic `release_plugin:a__b__c` |
| Plugin.EventNamesDistinct | src/plugin.ts:127-177 | Distinct outbound events go out under distinct names |
| Plugin.Respond | src/plugin.ts:145-157 | A handler that has read `request_id` makes exactly one reply carrying that id (for an error reply, see "Left out" on a thrown `Error`'s own `request_id`): <br>- a failure before the call gives the error event with that failure; <br>- a resolved call gives the response event with the data; <br>- a thrown non-`Error` gives `"Unexpected Error"` |
| Plugin.ToolPlan | src/plugin.ts:163-169 | The tool call happens exactly when the message parses and names a registered tool whose `invoke` is a function. That function is the one called |
| Plugin.HandleInvokeTool | src/plugin.ts:160-180 | A message whose `request_id` cannot be read gets no push. Any other gets exactly one reply (`invoke_tool_response` or `invoke_tool_error`) echoing its `request_id` (for an error reply, see "Left out"). A behaviour is called only for a parsed message, and only if it is a function |
| Plugin.InvokeToolResponds | src/plugin.ts:160-180 | `invoke_tool_response` goes out exactly when the message parses, the tool is registered with a function `invoke`, and that function resolves. It carries the resolved data |
| Plugin.UnregisteredToolFails | src/plugin.ts:166 | A well-formed message naming an unregistered tool gets `invoke_tool_error` with the not-registered error, and nothing is called |
| Plugin.MalformedMessageAnswered | src/plugin.ts:161-164 | A malformed, non-nullish message is still answered, with its own `request_id` (`undefined` when it has none), and nothing is called |
| Plugin.InvokeNonErrorIsUnexpected | src/plugin.ts:173-178 | A tool that throws a non-`Error` value is reported as `"Unexpected Error"` |
| Plugin.CredentialPlan | src/plugin.ts:134-145 | The credential call happens exactly when the message parses and names a registered credential whose `authenticate` is a function |
| Plugin.HandleCredentialAuthSpec | src/plugin.ts:131-158 | A message whose `request_id` cannot be read gets no push. Any other gets exactly one `credential_auth_spec_*` reply echoing its `request_id` (for an error reply, see "Left out") |
| Plugin.MissingAuthenticateFails | src/plugin.ts:137-139 | A credential whose `authenticate` reads `null` or `undefined` (or is missing) gets the error reply, and nothing is called |
| Plugin.CredentialAuthSpecResponds | src/plugin.ts:134-147 | `credential_auth_spec_response` goes out exactly when the message parses, the credential has a function `authenticate`, and that function resolves. The function receives `{ args: { credential, extra } }` |
| Plugin.CredentialNonErrorIsUnexpected | src/plugin.ts:150-157 | A credential check that throws a non-`Error` value is reported as `"Unexpected Error"` |
| Plugin.Add | src/plugin.ts:88-113 | `addCredential`, `addTool` and `addModel` register a definition exactly when its kind's schema accepts it. A refused definition leaves the registry unchanged |
| Plugin.AddThenResolve | src/plugin.ts:88-113 | After an accepted `add*`, the definition resolves under its kind and name, and every other pair resolves as before |
| Plugin.StartupPushes | src/plugin.ts:125-127 | Debug mode pushes one manifest, under `register_plugin`, before listening; release mode pushes nothing |
| Plugin.StartupManifestListsFeatures | src/plugin.ts:125-127 | The debug manifest holds each kind's serialized list under its key |
| PropertyUI.TagRoundTrip | src/schemas/property-ui.ts:94-286 | Every component's `component` literal parses back as that component |
| PropertyUI.ParseTagSound | src/schemas/property-ui.ts:94-286 | A tag that parses is the literal of the component it parses to |
| PropertyUI.TagInjective | src/schemas/property-ui.ts:94-286 | Distinct components carry distinct literals |
| PropertyUI.PropsCarryTag | src/schemas/property-ui.ts:94-286 | Valid props for a component carry that component's literal under `component` |
| PropertyUI.IndentationChecked | src/schemas/property-ui.ts:80 | For every component, a present `indentation` is one of the listed literals |
| PropertyUI.WidthChecked | src/schemas/property-ui.ts:79 | For every component, a present `width` is `small`, `medium` or `full` |
| PropertyUI.IndentationIsEvenInRange | src/schemas/property-ui.ts:25-69 | The indentation union accepts exactly the even integers from 2 to 80 |
| PropertyUI.OptionShape | src/schemas/property-ui.ts:85-89 | A valid option has a label and a value that is a string, a number or a boolean |
| PropertyUI.CodeEditorLanguage | src/schemas/property-ui.ts:128 | A code editor's present `language` is `json`, `javascript` or `python3` |
| PropertyUI.DiscriminatedIsPlainUnion | src/schemas/property-ui.ts:288-383 | Picking the option by its `component` tag accepts exactly what the plain union of the options accepts |
| PropertyUI.UnionTag | src/schemas/property-ui.ts:288-383 | A value a union accepts carries the tag of one of the union's options |
| PropertyUI.AcceptedMember | src/schemas/property-ui.ts:288-383 | Props valid for a component are accepted by exactly the unions that list it |
| PropertyUI.PropsListsAllButSection | src/schemas/property-ui.ts:288-308 | The general union lists 19 components: every component except `section` |
| PropertyUI.SectionListedOnlyByObject | src/schemas/property-ui.ts:353-359 | `section` is listed by the object union and no other |
| PropertyUI.SectionOnlyInObject | src/schemas/property-ui.ts:284-359 | `section` props are accepted by the object union and refused by every other |
| PropertyUI.SingleOptionUnions | src/schemas/property-ui.ts:313-383 | The boolean union accepts exactly `switch` props, the credential-id union `credential-select` props, and the encrypted-string union `encrypted-input` props |
| PropertyUI.DiscriminatorChoices | src/schemas/property-ui.ts:371-375 | The discriminator union accepts exactly `switch`, `select` or `radio-group` props |
| PropertyUI.SliderIsNumberAndArray | src/schemas/property-ui.ts:320-348 | Slider props are valid both as a number property and as an array property |
| PropertyUI.CodeEditorIsStringAndObject | src/schemas/property-ui.ts:328-359 | Code-editor props are valid both as a string property and as an object property |
| PropertyUI.MembersDistinct | src/schemas/property-ui.ts:288-383 | No union lists a component twice |
| PropertyUI.MemberTagsDistinct | src/schemas/property-ui.ts:288-383 | Within each union the tags are pairwise distinct, so a tag selects at most one option |

## Left out

- I/O and process control are not modelled: the session lookup, the
  environment read, the transporter connection, `Bun.write` of
  `definition.json`, `process.exit` and the `SIGINT`/`SIGTERM` handlers.
  `HUB_MODE` becomes the `Mode` parameter. The behaviour's settled outcome
  becomes the `Outcome` parameter.
- Concurrency is not modelled: handlers may interleave while awaiting, and
  each handler is modelled as one atomic step.
- zod removes undeclared keys from parsed objects. The model does not, and
  it registers the object as given. This matters for credentials:
  `plugin.ts` imports its credential schema from a separate schema package
  that declares `authenticate`. The local `CredentialDefinitionSchema` does
  not declare it, and that package is not part of this model. The handler
  reads `authenticate` from the stored definition.
- `implementAsync` wraps the behaviour with input and output validation.
  The model calls the behaviour directly and takes its outcome as a
  parameter.
- Plugin.HandleInvokeTool: the error reply is `{ request_id, ...error }`.
  The model records which failure occurred (`Failure`), not the own
  properties the spread copies. The spread copies only the `Error`'s own
  enumerable properties, so `message`, which is usually not one of them,
  is copied only when it is own and enumerable. An `Error` with its own
  enumerable `request_id` replaces the message's id: a tool rejecting
  with `Object.assign(new Error("x"), { request_id: "other" })` gets a
  reply carrying `"other"`. The model always echoes the message's id, so
  its error replies echo `request_id` only for an `Error` without its own
  enumerable `request_id`.
- Plugin.HandleCredentialAuthSpec: the same holds for
  `credential_auth_spec_error` (`src/plugin.ts:150`). The echoed
  `request_id` and the copied `message` are as described for
  `HandleInvokeTool`.
- Plugin.Respond: `request_id` is echoed in every reply, which matches the
  source only when a thrown `Error` has no own enumerable `request_id`
  (see `HandleInvokeTool`).
- `I18nEntrySchema`, `PropertiesSchema`, `z.email()` and `z.httpUrl()` are
  defined outside the shown sources. They are approximated: an object of
  strings, an array, and a string (twice).
- Numbers are modelled as unbounded integers. No floating point appears in
  any modelled decision.
- The slider's `marks` is a `z.record(z.number(), z.string())`. It is
  approximated by "an object".
- `DataSourceDefinitionSchema` is not used by the core and is left out.
  The files that only declare types (`src/types/property-ui.ts`,
  `src/node-property-ui.type.ts`, `src/node-property.type.ts`) are left out
  too.
- ProviderSerialization.SerializeProvider requires every `Map` in the
  store to hold features (objects with a string `name.en_US`). This is
  what the `ProviderStore` type promises. With other map contents the
  source throws (a feature without `name`) or uses `String(name.en_US)` as
  the key (`undefined`, `"5"`, `"[object Object]"`, ...).
- FeatureRegistry.SerializedPlugin: `src/registry` is not part of this
  model. The serialized plugin is the metadata followed by `credentials`,
  `tools` and `models`, and the model fixes that key order.
- Plugin.Add: `plugin.ts` imports all three definition schemas (credential,
  tool, model) from the separate schema package, not from the local
  `src/schemas/definition.ts`. That package is not part of this model, so
  the local file stands in for all three. Wherever the package's schemas
  differ from the local file, `Add` follows the local file. The one
  difference known here is `authenticate` (see above).
- JsValue.Assign: objects keep insertion order. JavaScript's `Object.keys`
  lists integer-like keys (such as `"1"`) first, in ascending order, and
  the model does not. `Object.assign(acc, { ["__proto__"]: v })` sets the
  prototype instead of adding a key, and the model treats it as an
  ordinary key.
- JsValue.AssignAppends: "a new key goes last" holds only for keys that
  are not integer-like, and not `__proto__`.
- ProviderSerialization.DenormaliseDistinctNames: "in map insertion order"
  holds only when no feature's `name.en_US` is integer-like or
  `__proto__`.
- FeatureSerialization.SerializeFeature states its equality with the
  reference filter only for objects with distinct keys. Every JavaScript
  object has distinct keys.

## Findings

| source | as written | input that shows it | evidently intended | confidence | as-written member | corrected member |
|---|---|---|---|---|---|---|
| src/schemas/definition.ts:24 | `[a-zA-Z]` then `{3,63}` then `[a-zA-Z0-9]`, which admits names of 5..65 characters (line 68 too) | `"abcd"` is refused; a letter followed by 64 digits is accepted | 4..64 characters (`{2,62}`), as the comment on line 23 and the error message on line 26 state | medium; not executed | Names.AsWrittenLengthBounds | Names.NameRegexCharacterised |

The schemas, and so `Plugin.Add`, use the rule as written, because that
is what the program checks. The corrected rule is `Names.IntendedName`.
`Names.IntendedNameLengths` shows it differs from the written rule only in
the length window.
