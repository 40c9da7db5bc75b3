/** The fragment of zod's object schemas that the definition and UI-property
    schemas are built from: field checks, `z.object` and `.optional()`.
    A shape is the list of its fields after `.omit()`, object spreads and
    `.extend()` have been applied. Unknown keys are accepted and left alone. */
module Schema {
  import opened Wrappers
  import opened JsValue
  import Names

  /** What one field's schema accepts. */
  datatype Check =
    | StringValue                     // z.string()
    | NumberValue                     // z.number()
    | BooleanValue                    // z.boolean()
    | Literal(text: string)           // z.literal("...")
    | Enum(options: seq<string>)      // z.enum([...])
    | IntLiteral(values: seq<int>)    // z.union of numeric z.literal(...)
    | Scalar                          // z.union([z.string(), z.number(), z.boolean()])
    | Callable                        // z.function(...)
    | PlainRecord                     // z.record(z.string(), ...)
    | I18nEntry                       // I18nEntrySchema, approximated
    | PropertyList                    // PropertiesSchema, approximated
    | Email                           // z.email(), approximated
    | HttpUrl                         // z.httpUrl(), approximated
    | Name(allowSlash: bool)          // the definition-name regexes
    | ArrayOf(item: Check)            // z.array(item)
    | Object(spec: seq<FieldSpec>)    // z.object({...})

  /** One key of a `z.object` shape; `optional` is `.optional()`. */
  datatype FieldSpec = FieldSpec(key: string, optional: bool, check: Check)

  /** Whether `v` passes the check. */
  predicate Accepts(c: Check, v: Value)
    decreases c
  {
    match c
    case StringValue => v.Str?
    case NumberValue => v.Num?
    case BooleanValue => v.Bool?
    case Literal(t) => v == Str(t)
    case Enum(opts) => v.Str? && v.s in opts
    case IntLiteral(opts) => v.Num? && v.n in opts
    case Scalar => v.Str? || v.Num? || v.Bool?
    case Callable => v.Func?
    case PlainRecord => v.Obj?
    case I18nEntry => v.Obj? && forall i :: 0 <= i < |v.fields| ==> v.fields[i].val.Str?
    case PropertyList => v.Arr?
    case Email => v.Str?
    case HttpUrl => v.Str?
    case Name(slash) => v.Str? && (if slash then Names.ModelName(v.s) else Names.BaseName(v.s))
    case ArrayOf(item) => v.Arr? && forall i :: 0 <= i < |v.items| ==> Accepts(item, v.items[i])
    case Object(spec) => v.Obj? && forall i :: 0 <= i < |spec| ==> FieldAccepts(spec[i], v.fields)
  }

  /** A missing key, or one holding `undefined`, passes only when optional. */
  predicate FieldAccepts(f: FieldSpec, fields: seq<Field>)
    decreases f
  {
    match Lookup(fields, f.key)
    case None => f.optional
    case Some(x) => if x == Undefined then f.optional else Accepts(f.check, x)
  }

  /** The keys a shape declares. */
  function SpecKeys(spec: seq<FieldSpec>): set<string>
  {
    set i | 0 <= i < |spec| :: spec[i].key
  }

  /** No key declared twice. */
  predicate DistinctSpecKeys(spec: seq<FieldSpec>)
  {
    forall i, j :: 0 <= i < j < |spec| ==> spec[i].key != spec[j].key
  }

  /** A value accepted by an object check passes each declared field, and a
      required field is present, defined and accepted by its check. */
  lemma ObjectField(spec: seq<FieldSpec>, v: Value, f: FieldSpec)
    requires Accepts(Object(spec), v)
    requires f in spec
    ensures v.Obj? && FieldAccepts(f, v.fields)
    ensures !f.optional ==>
              && Lookup(v.fields, f.key).Some?
              && Lookup(v.fields, f.key).value != Undefined
              && Accepts(f.check, Lookup(v.fields, f.key).value)
  {
    var i :| 0 <= i < |spec| && spec[i] == f;
    assert FieldAccepts(spec[i], v.fields);
  }
}
