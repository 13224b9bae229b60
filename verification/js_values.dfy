/**
 JavaScript values as far as the HTTP client inspects them: truthiness,
 own enumerable properties (what `Object.assign` copies) and property reads.
 */
module JsValues {

  /** Function values. `Identity` is the `x => x` that the default factories
      build; every other function (a user callback, a transport) is opaque and
      known only by an identifier. */
  datatype Func = Identity | Opaque(id: nat)

  /** The response a transport delivers. Its body is never read by the client. */
  datatype Response = Response(status: int, ok: bool, body: string)

  datatype Val =
    | Undefined
    | Null
    | Bool(b: bool)
    | Num(n: int)
    | Str(s: string)
    | Fn(f: Func)
    | Resp(r: Response)
    | Obj(props: map<string, Val>)

  /** JavaScript truthiness: `undefined`, `null`, `false`, `0` and `""` are falsy. */
  predicate Truthy(v: Val) {
    match v
    case Undefined => false
    case Null => false
    case Bool(b) => b
    case Num(n) => n != 0
    case Str(s) => s != ""
    case Fn(_) => true
    case Resp(_) => true
    case Obj(_) => true
  }

  /** Values on which a property read throws a TypeError. */
  predicate Nullish(v: Val) {
    v.Undefined? || v.Null?
  }

  /** The own enumerable properties of a value. Only plain objects have any
      here; a Response exposes its fields through prototype getters. */
  function OwnProps(v: Val): map<string, Val> {
    if v.Obj? then v.props else map[]
  }

  /** `v[key]`, which is `undefined` when `v` has no such property. */
  function Prop(v: Val, key: string): (r: Val)
    requires !Nullish(v)
    ensures key !in OwnProps(v) ==> r == Undefined
    ensures key in OwnProps(v) ==> r == OwnProps(v)[key]
  {
    if key in OwnProps(v) then OwnProps(v)[key] else Undefined
  }

  /** `Object.assign({}, a, b)`: a fresh object holding the own properties of
      `a`, overwritten by those of `b`. `null` and `undefined` sources are skipped. */
  function Assign(a: Val, b: Val): (m: map<string, Val>)
    ensures m.Keys == OwnProps(a).Keys + OwnProps(b).Keys
    ensures forall p :: p in OwnProps(b) ==> m[p] == OwnProps(b)[p]
    ensures forall p :: p in OwnProps(a) && p !in OwnProps(b) ==> m[p] == OwnProps(a)[p]
  {
    OwnProps(a) + OwnProps(b)
  }

  /** The falsy values are exactly `undefined`, `null`, `false`, `0` and `""`. */
  lemma FalsyValues(v: Val)
    ensures !Truthy(v) <==> v in {Undefined, Null, Bool(false), Num(0), Str("")}
  {
  }
}
