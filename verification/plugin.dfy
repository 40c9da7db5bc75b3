/** The plugin facade of `src/plugin.ts`: the `add*` methods, the topic the
    plugin joins, the `register_plugin` push of debug mode, and the two
    inbound handlers, each a single step from (registry, raw message,
    behaviour outcome) to the pushes it makes. */
module Plugin {
  import opened Wrappers
  import opened JsValue
  import opened Schema
  import NameRules = Names
  import Definitions
  import opened FeatureRegistry

  // ---------------------------------------------------------------------
  // Topic

  /** `HUB_MODE === "debug"` or not. */
  datatype Mode = Debug | Release

  const DebugPrefix: string := "debug_plugin:"
  const ReleasePrefix: string := "release_plugin:"

  /** A template literal renders a missing version as `undefined`. */
  function VersionText(version: Option<string>): string
  {
    match version
    case Some(v) => v
    case None => "undefined"
  }

  /** The topic `run` connects to. */
  function Topic(mode: Mode, name: string, version: Option<string>): string
  {
    match mode
    case Debug => DebugPrefix + name
    case Release => ReleasePrefix + name + "__" + VersionText(version)
  }

  /** The parts a topic is built from; a debug topic has no version. */
  datatype TopicParts = TopicParts(mode: Mode, name: string, version: Option<string>)

  /** Splits `s` at its first `__`. */
  function SplitAtDoubleUnderscore(s: string): (r: Option<(string, string)>)
    ensures r.Some? ==> s == r.value.0 + "__" + r.value.1
    decreases |s|
  {
    if |s| < 2 then None
    else if s[0] == '_' && s[1] == '_' then Some(("", s[2..]))
    else
      match SplitAtDoubleUnderscore(s[1..])
      case None => None
      case Some((a, b)) => Some(([s[0]] + a, b))
  }

  /** Reads a topic back into its parts. */
  function ParseTopic(topic: string): Option<TopicParts>
  {
    if |DebugPrefix| <= |topic| && topic[..|DebugPrefix|] == DebugPrefix then
      Some(TopicParts(Debug, topic[|DebugPrefix|..], None))
    else if |ReleasePrefix| <= |topic| && topic[..|ReleasePrefix|] == ReleasePrefix then
      match SplitAtDoubleUnderscore(topic[|ReleasePrefix|..])
      case Some((name, version)) => Some(TopicParts(Release, name, Some(version)))
      case None => None
    else None
  }

  /** A name that splits off cleanly before a `__`: it holds no `__` and
      does not end in `_`. */
  predicate SplitsCleanly(name: string)
  {
    && (forall i :: 0 <= i < |name| - 1 ==> !(name[i] == '_' && name[i + 1] == '_'))
    && (|name| > 0 ==> name[|name| - 1] != '_')
  }

  lemma {:induction false} SplitAfterName(name: string, version: string)
    requires SplitsCleanly(name)
    ensures SplitAtDoubleUnderscore(name + "__" + version) == Some((name, version))
    decreases |name|
  {
    var s := name + "__" + version;
    if |name| == 0 {
      assert s == "__" + version;
      assert s[2..] == version;
    } else {
      assert s[1..] == name[1..] + "__" + version;
      if |name| == 1 {
        assert s[0] != '_';
      } else {
        assert !(name[0] == '_' && name[1] == '_');
      }
      SplitAfterName(name[1..], version);
      assert [name[0]] + name[1..] == name;
    }
  }

  /** Every valid plugin name splits cleanly. */
  lemma BaseNameSplitsCleanly(name: string)
    requires NameRules.BaseName(name)
    ensures SplitsCleanly(name)
  {
    NameRules.BaseNameHasNoSeparatorPair(name);
  }

  /** A topic gives back its mode, name and version text; for a release
      topic this needs the name to split cleanly, which every valid plugin
      name does. */
  lemma TopicRoundTrip(mode: Mode, name: string, version: Option<string>)
    requires mode == Release ==> SplitsCleanly(name)
    ensures ParseTopic(Topic(mode, name, version)) ==
              Some(TopicParts(mode, name, if mode == Debug then None else Some(VersionText(version))))
  {
    var t := Topic(mode, name, version);
    match mode
    case Debug =>
      assert t[..|DebugPrefix|] == DebugPrefix;
      assert t[|DebugPrefix|..] == name;
    case Release =>
      assert t[..|ReleasePrefix|] == ReleasePrefix;
      assert t[..|DebugPrefix|] != DebugPrefix by {
        assert t[0] != DebugPrefix[0];
      }
      assert t[|ReleasePrefix|..] == name + "__" + VersionText(version);
      SplitAfterName(name, VersionText(version));
  }

  /** Two plugins whose names split cleanly (every name the plugin-name
      rule accepts does) share a release topic only when they share name
      and version text. */
  lemma ReleaseTopicsDistinguishPlugins(n1: string, v1: Option<string>, n2: string, v2: Option<string>)
    requires SplitsCleanly(n1) && SplitsCleanly(n2)
    requires Topic(Release, n1, v1) == Topic(Release, n2, v2)
    ensures n1 == n2 && VersionText(v1) == VersionText(v2)
  {
    TopicRoundTrip(Release, n1, v1);
    TopicRoundTrip(Release, n2, v2);
  }

  /** `createPlugin` never checks the plugin name, and a name holding `__`
      makes two different plugins meet on one release topic. */
  lemma UnvalidatedNamesCollide()
    ensures Topic(Release, "a__b", Some("c")) == Topic(Release, "a", Some("b__c"))
    ensures !NameRules.BaseName("a__b") && !SplitsCleanly("a__b")
  {
    assert "a__b"[1] == '_' && "a__b"[2] == '_';
    assert !NameRules.BaseName("a__b");
  }

  // ---------------------------------------------------------------------
  // Outbound events

  datatype Event =
    | RegisterPluginEvent
    | CredentialAuthSpecResponse
    | CredentialAuthSpecError
    | InvokeToolResponse
    | InvokeToolError

  function EventName(e: Event): string
  {
    match e
    case RegisterPluginEvent => "register_plugin"
    case CredentialAuthSpecResponse => "credential_auth_spec_response"
    case CredentialAuthSpecError => "credential_auth_spec_error"
    case InvokeToolResponse => "invoke_tool_response"
    case InvokeToolError => "invoke_tool_error"
  }

  /** Distinct events go out under distinct names. */
  lemma EventNamesDistinct(e1: Event, e2: Event)
    ensures EventName(e1) == EventName(e2) <==> e1 == e2
  {
  }

  /** Why a request failed. An `Error` is spread into the payload, whose
      exact properties are not modelled. */
  datatype Failure =
    | InvalidMessage                  // the message schema's parse threw
    | NotRegistered(message: string)  // `registry.resolve` threw
    | NotImplemented                  // the credential has no `authenticate`
    | NotCallable                     // the behaviour is not a function
    | BadDefinition                   // a property read on a nullish definition threw
    | Raised(message: string)         // the behaviour threw an `Error`

  /** The payload next to `request_id`. */
  datatype Body =
    | Data(data: Value)               // `{ request_id, data }`
    | ErrorFields(failure: Failure)   // `{ request_id, ...error }`
    | Message(text: string)           // `{ request_id, message }`

  datatype Push =
    | Reply(event: Event, requestId: Value, body: Body)
    | Manifest(definition: seq<Field>)

  /** The event name `channel.push` is called with. */
  function PushName(p: Push): string
  {
    match p
    case Reply(e, _, _) => EventName(e)
    case Manifest(_) => EventName(RegisterPluginEvent)
  }

  const UnexpectedError: string := "Unexpected Error"
  const NotImplementedMessage: string := "Credential authenticate method is not implemented"

  // ---------------------------------------------------------------------
  // Inbound handlers

  /** What a thrown value is: an `Error` instance or anything else. */
  datatype Thrown = ErrorInstance(message: string) | NonError(value: Value)

  /** How the awaited behaviour settles. */
  datatype Outcome = Resolved(data: Value) | Rejected(thrown: Thrown)

  /** The behaviour a handler called, and the argument it passed. */
  datatype Call = Call(behaviour: Value, argument: Value)

  /** What handling one message did. */
  datatype Handled = Handled(pushes: seq<Push>, call: Option<Call>)

  /** `v[k]` on any value: `None` when reading it throws (`v` is `null` or
      `undefined`), `undefined` for a missing property. */
  function Property(v: Value, k: string): Option<Value>
  {
    match v
    case Undefined => None
    case Null => None
    case Obj(fields) => Some(match Lookup(fields, k) case Some(x) => x case None => Undefined)
    case _ => Some(Undefined)
  }

  /** `message.request_id`, read before the `try`. */
  function RequestId(msg: Value): Option<Value>
  {
    Property(msg, "request_id")
  }

  /** `ToolInvokeMessage`. */
  const ToolInvokeMessage: Check := Object([
    FieldSpec("request_id", false, StringValue),
    FieldSpec("tool_name", false, StringValue),
    FieldSpec("parameters", false, PlainRecord),
    FieldSpec("credentials", true, PlainRecord)
  ])

  /** `CredentialAuthenticateMessage`. */
  const CredentialAuthenticateMessage: Check := Object([
    FieldSpec("request_id", false, StringValue),
    FieldSpec("credential", false, PlainRecord),
    FieldSpec("credential_name", false, StringValue),
    FieldSpec("extra", false, PlainRecord)
  ])

  /** A string property of a parsed message. */
  function StringField(msg: Value, k: string): string
  {
    match Property(msg, k)
    case Some(Str(s)) => s
    case _ => ""
  }

  /** A property of a parsed message, `undefined` when absent. */
  function FieldValue(msg: Value, k: string): Value
  {
    match Property(msg, k)
    case Some(x) => x
    case None => Undefined
  }

  /** The `catch` block: an `Error` is spread, anything else becomes
      `"Unexpected Error"`. */
  function Settle(success: Event, failure: Event, rid: Value, outcome: Outcome): Push
  {
    match outcome
    case Resolved(data) => Reply(success, rid, Data(data))
    case Rejected(ErrorInstance(m)) => Reply(failure, rid, ErrorFields(Raised(m)))
    case Rejected(NonError(_)) => Reply(failure, rid, Message(UnexpectedError))
  }

  /** The single push a handler makes once it has read `request_id`: a
      failure before the call is thrown and caught; otherwise the behaviour
      is called and its outcome settles the reply. */
  function Respond(success: Event, failure: Event, rid: Value, plan: Result<Call, Failure>, outcome: Outcome): (r: Handled)
    requires success != failure
    ensures |r.pushes| == 1 && r.pushes[0].Reply? && r.pushes[0].requestId == rid
    ensures r.pushes[0].event == success <==> plan.Ok? && outcome.Resolved?
    ensures r.pushes[0].event != success ==> r.pushes[0].event == failure
    ensures r.call.Some? <==> plan.Ok?
    ensures plan.Ok? ==> r.call.value == plan.value
    ensures plan.Err? ==> r.pushes[0].body == ErrorFields(plan.error)
    ensures plan.Ok? && outcome.Resolved? ==> r.pushes[0].body == Data(outcome.data)
    ensures plan.Ok? && outcome.Rejected? && outcome.thrown.NonError? ==>
              r.pushes[0].body == Message(UnexpectedError)
  {
    match plan
    case Err(f) => Handled([Reply(failure, rid, ErrorFields(f))], None)
    case Ok(call) => Handled([Settle(success, failure, rid, outcome)], Some(call))
  }

  /** The behaviour a resolved definition holds under `key`; `None` when
      the name is not registered or the definition is nullish. */
  function Behaviour(reg: Registry, kind: Definitions.Kind, name: string, key: string): Option<Value>
  {
    match Resolve(reg, kind, name)
    case Ok(def) => Property(def, key)
    case Err(_) => None
  }

  /** The `try` block of `invoke_tool` up to the awaited call. */
  function ToolPlan(reg: Registry, msg: Value): (r: Result<Call, Failure>)
    ensures r.Ok? <==>
              && Accepts(ToolInvokeMessage, msg)
              && Behaviour(reg, Definitions.Tool, StringField(msg, "tool_name"), "invoke").Some?
              && Behaviour(reg, Definitions.Tool, StringField(msg, "tool_name"), "invoke").value.Func?
    ensures r.Ok? ==> r.value.behaviour == Behaviour(reg, Definitions.Tool, StringField(msg, "tool_name"), "invoke").value
  {
    if !Accepts(ToolInvokeMessage, msg) then Err(InvalidMessage)
    else
      match Resolve(reg, Definitions.Tool, StringField(msg, "tool_name"))
      case Err(m) => Err(NotRegistered(m))
      case Ok(def) =>
        match Property(def, "invoke")
        case None => Err(BadDefinition)
        case Some(invoke) =>
          if !invoke.Func? then Err(NotCallable)
          else
            var args := Obj([Field("credentials", FieldValue(msg, "credentials")),
                             Field("parameters", FieldValue(msg, "parameters"))]);
            Ok(Call(invoke, Obj([Field("args", args)])))
  }

  /** The `invoke_tool` handler. */
  function HandleInvokeTool(reg: Registry, msg: Value, outcome: Outcome): (r: Handled)
    ensures RequestId(msg).None? ==> r.pushes == [] && r.call.None?
    ensures RequestId(msg).Some? ==>
              && |r.pushes| == 1
              && r.pushes[0].Reply?
              && r.pushes[0].requestId == RequestId(msg).value
              && r.pushes[0].event in {InvokeToolResponse, InvokeToolError}
              && PushName(r.pushes[0]) in {"invoke_tool_response", "invoke_tool_error"}
    ensures r.call.Some? ==> Accepts(ToolInvokeMessage, msg) && r.call.value.behaviour.Func?
  {
    match RequestId(msg)
    case None => Handled([], None)
    case Some(rid) => Respond(InvokeToolResponse, InvokeToolError, rid, ToolPlan(reg, msg), outcome)
  }

  /** `invoke_tool_response` goes out exactly when the message parses, names
      a registered tool whose `invoke` is a function, and that function
      resolves; the response carries the resolved data. */
  lemma InvokeToolResponds(reg: Registry, msg: Value, outcome: Outcome)
    requires RequestId(msg).Some?
    ensures var r := HandleInvokeTool(reg, msg, outcome);
            var invoke := Behaviour(reg, Definitions.Tool, StringField(msg, "tool_name"), "invoke");
            (r.pushes[0].event == InvokeToolResponse) <==>
              && Accepts(ToolInvokeMessage, msg)
              && invoke.Some? && invoke.value.Func?
              && outcome.Resolved?
    ensures var r := HandleInvokeTool(reg, msg, outcome);
            r.pushes[0].event == InvokeToolResponse ==> r.pushes[0].body == Data(outcome.data)
  {
  }

  /** A well-formed message naming an unregistered tool gets an error
      event with the not-registered error, and nothing is called. */
  lemma UnregisteredToolFails(reg: Registry, msg: Value, outcome: Outcome)
    requires Accepts(ToolInvokeMessage, msg)
    requires StringField(msg, "tool_name") !in FeatureRegistry.Names(reg, Definitions.Tool)
    ensures HandleInvokeTool(reg, msg, outcome) ==
              Handled([Reply(InvokeToolError, RequestId(msg).value,
                             ErrorFields(NotRegistered("Feature \"" + StringField(msg, "tool_name") + "\" not registered")))],
                      None)
  {
    assert RequestId(msg).Some?;
  }

  /** A malformed message is still answered, with its own `request_id`
      (`undefined` when it has none), and nothing is called. */
  lemma MalformedMessageAnswered(reg: Registry, msg: Value, outcome: Outcome)
    requires msg != Null && msg != Undefined
    requires !Accepts(ToolInvokeMessage, msg)
    ensures HandleInvokeTool(reg, msg, outcome) ==
              Handled([Reply(InvokeToolError, FieldValue(msg, "request_id"), ErrorFields(InvalidMessage))], None)
  {
  }

  /** A thrown value that is not an `Error` is reported as
      `"Unexpected Error"`. */
  lemma InvokeNonErrorIsUnexpected(reg: Registry, msg: Value, v: Value)
    requires RequestId(msg).Some?
    requires HandleInvokeTool(reg, msg, Rejected(NonError(v))).call.Some?
    ensures HandleInvokeTool(reg, msg, Rejected(NonError(v))).pushes ==
              [Reply(InvokeToolError, RequestId(msg).value, Message("Unexpected Error"))]
  {
  }

  /** The `try` block of `credential_auth_spec` up to the awaited call. A
      nullish `authenticate` is refused before anything is called. */
  function CredentialPlan(reg: Registry, msg: Value): (r: Result<Call, Failure>)
    ensures r.Ok? <==>
              && Accepts(CredentialAuthenticateMessage, msg)
              && Behaviour(reg, Definitions.Credential, StringField(msg, "credential_name"), "authenticate").Some?
              && Behaviour(reg, Definitions.Credential, StringField(msg, "credential_name"), "authenticate").value.Func?
    ensures r.Ok? ==>
              r.value.behaviour ==
                Behaviour(reg, Definitions.Credential, StringField(msg, "credential_name"), "authenticate").value
  {
    if !Accepts(CredentialAuthenticateMessage, msg) then Err(InvalidMessage)
    else
      match Resolve(reg, Definitions.Credential, StringField(msg, "credential_name"))
      case Err(m) => Err(NotRegistered(m))
      case Ok(def) =>
        match Property(def, "authenticate")
        case None => Err(BadDefinition)
        case Some(authenticate) =>
          if authenticate == Undefined || authenticate == Null then Err(NotImplemented)
          else if !authenticate.Func? then Err(NotCallable)
          else
            var args := Obj([Field("credential", FieldValue(msg, "credential")),
                             Field("extra", FieldValue(msg, "extra"))]);
            Ok(Call(authenticate, Obj([Field("args", args)])))
  }

  /** The `credential_auth_spec` handler. */
  function HandleCredentialAuthSpec(reg: Registry, msg: Value, outcome: Outcome): (r: Handled)
    ensures RequestId(msg).None? ==> r.pushes == [] && r.call.None?
    ensures RequestId(msg).Some? ==>
              && |r.pushes| == 1
              && r.pushes[0].Reply?
              && r.pushes[0].requestId == RequestId(msg).value
              && r.pushes[0].event in {CredentialAuthSpecResponse, CredentialAuthSpecError}
              && PushName(r.pushes[0]) in {"credential_auth_spec_response", "credential_auth_spec_error"}
    ensures r.call.Some? ==> Accepts(CredentialAuthenticateMessage, msg) && r.call.value.behaviour.Func?
  {
    match RequestId(msg)
    case None => Handled([], None)
    case Some(rid) =>
      Respond(CredentialAuthSpecResponse, CredentialAuthSpecError, rid, CredentialPlan(reg, msg), outcome)
  }

  /** A registered credential whose `authenticate` reads `null` or
      `undefined` (a missing property reads `undefined`) is answered with an
      error and no behaviour runs. */
  lemma MissingAuthenticateFails(reg: Registry, msg: Value, outcome: Outcome)
    requires Accepts(CredentialAuthenticateMessage, msg)
    requires Behaviour(reg, Definitions.Credential, StringField(msg, "credential_name"), "authenticate")
               in {Some(Undefined), Some(Null)}
    ensures HandleCredentialAuthSpec(reg, msg, outcome) ==
              Handled([Reply(CredentialAuthSpecError, RequestId(msg).value, ErrorFields(NotImplemented))], None)
  {
    assert RequestId(msg).Some?;
  }

  /** `credential_auth_spec_response` goes out exactly when the message
      parses, names a registered credential whose `authenticate` is a
      function, and that function resolves; the function receives the
      message's `credential` and `extra` under `args`. */
  lemma CredentialAuthSpecResponds(reg: Registry, msg: Value, outcome: Outcome)
    requires RequestId(msg).Some?
    ensures var r := HandleCredentialAuthSpec(reg, msg, outcome);
            var authenticate := Behaviour(reg, Definitions.Credential, StringField(msg, "credential_name"), "authenticate");
            (r.pushes[0].event == CredentialAuthSpecResponse) <==>
              && Accepts(CredentialAuthenticateMessage, msg)
              && authenticate.Some? && authenticate.value.Func?
              && outcome.Resolved?
    ensures var r := HandleCredentialAuthSpec(reg, msg, outcome);
            r.call.Some? ==>
              r.call.value.argument ==
                Obj([Field("args", Obj([Field("credential", FieldValue(msg, "credential")),
                                        Field("extra", FieldValue(msg, "extra"))]))])
  {
  }

  /** A thrown value that is not an `Error` is reported as
      `"Unexpected Error"`. */
  lemma CredentialNonErrorIsUnexpected(reg: Registry, msg: Value, v: Value)
    requires RequestId(msg).Some?
    requires HandleCredentialAuthSpec(reg, msg, Rejected(NonError(v))).call.Some?
    ensures HandleCredentialAuthSpec(reg, msg, Rejected(NonError(v))).pushes ==
              [Reply(CredentialAuthSpecError, RequestId(msg).value, Message("Unexpected Error"))]
  {
  }

  // ---------------------------------------------------------------------
  // Registration and start-up

  /** The registry after an `add*` call, and whether the parse accepted the
      definition (a rejected one throws). */
  datatype Added = Added(registry: Registry, accepted: bool)

  /** `addCredential`, `addTool`, `addModel`: parse with the kind's schema,
      and register only what parses. */
  function Add(reg: Registry, kind: Definitions.Kind, v: Value): (r: Added)
    ensures r.accepted <==> Definitions.Valid(kind, v)
    ensures !r.accepted ==> r.registry == reg
    ensures r.accepted ==> v.Obj? && Definitions.NameOf(v.fields).Some?
  {
    if Definitions.Valid(kind, v) then
      Definitions.ValidDefinitionNamed(kind, v);
      Added(Register(reg, kind, v.fields), true)
    else Added(reg, false)
  }

  /** An accepted definition resolves under its kind and name, and every
      other pair resolves as before; a rejected one changes nothing. */
  lemma AddThenResolve(reg: Registry, kind: Definitions.Kind, v: Value, kind': Definitions.Kind, name: string)
    ensures var r := Add(reg, kind, v);
            Resolve(r.registry, kind', name) ==
              if r.accepted && kind' == kind && name == Definitions.NameOf(v.fields).value then Ok(v)
              else Resolve(reg, kind', name)
  {
    var r := Add(reg, kind, v);
    if r.accepted {
      ResolveAfterRegister(reg, kind, v.fields, kind', name);
    }
  }

  /** The pushes `run` makes before it listens: the serialized plugin in
      debug mode, nothing in release mode. */
  function StartupPushes(mode: Mode, reg: Registry): (r: seq<Push>)
    ensures mode == Release ==> r == []
    ensures mode == Debug ==> |r| == 1 && r[0].Manifest? && PushName(r[0]) == "register_plugin"
  {
    match mode
    case Debug => [Manifest(SerializedPlugin(reg))]
    case Release => []
  }

  /** The debug manifest holds the three lists of the registry. */
  lemma StartupManifestListsFeatures(reg: Registry, kind: Definitions.Kind)
    ensures Lookup(StartupPushes(Debug, reg)[0].definition, ListKey(kind)) ==
              Some(Arr(SerializeStore(Store(reg, kind))))
  {
    SerializedList(reg, kind);
  }
}
