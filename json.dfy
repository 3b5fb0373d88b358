/** JavaScript values as the request handler sees them: parsed JSON data plus
    `undefined`, with the language's truthiness, property reads, optional
    chaining, `||`, destructuring defaults, and the `JSON.stringify` step that
    `res.json` applies before a body goes on the wire. */
module Json {

  /** A JavaScript value that JSON can carry, or `undefined`. Numbers are IEEE
      doubles in JavaScript and are modelled here as reals, since the handler does
      no arithmetic on them. The model therefore has no NaN and no infinities:
      `JSON.parse` reads an overflowing literal such as `1e400` as `Infinity`,
      which serialisation then writes as `null`, whereas the model keeps the
      number. */
  datatype Value =
    | Undefined
    | Null
    | Bool(b: bool)
    | Num(n: real)
    | Str(s: string)
    | Arr(items: seq<Value>)
    | Obj(members: map<string, Value>)

  /** JavaScript's ToBoolean: `undefined`, `null`, `false`, `0` and `""` are
      falsy; every array and every object, even an empty one, is truthy. */
  predicate Truthy(v: Value) {
    match v
    case Undefined => false
    case Null => false
    case Bool(b) => b
    case Num(n) => n != 0.0
    case Str(s) => s != ""
    case Arr(_) => true
    case Obj(_) => true
  }

  /** `null` or `undefined`: the two values whose property reads throw and at
      which `?.` stops. */
  predicate Nullish(v: Value) {
    v.Undefined? || v.Null?
  }

  /** The property read `v.name` on a value that is not nullish. Only own data
      properties are modelled; inherited members (`length`, `constructor`, ...)
      are not, and none of the names the handler reads is one of them. */
  function Prop(v: Value, name: string): Value
    requires !Nullish(v)
  {
    if v.Obj? && name in v.members then v.members[name] else Undefined
  }

  /** The optional-chaining read `v?.name`. */
  function OptProp(v: Value, name: string): (r: Value)
    ensures Nullish(v) ==> r.Undefined?
    ensures v.Obj? && name in v.members ==> r == v.members[name]
    ensures v.Obj? && name !in v.members ==> r.Undefined?
    ensures !v.Obj? ==> r.Undefined?
  {
    if Nullish(v) then Undefined else Prop(v, name)
  }

  /** `a || b`: the left operand when it is truthy, otherwise the right one,
      whatever the right one is. */
  function Or(a: Value, b: Value): Value {
    if Truthy(a) then a else b
  }

  /** A destructuring default `{ x = d } = obj`: `d` replaces the property only
      when it is `undefined`; `null`, `0`, `""` and `false` are kept. */
  function WithDefault(v: Value, d: Value): Value {
    if v.Undefined? then d else v
  }

  /** The destructuring default and the `||` fallback agree on `undefined` and
      on truthy values, and on nothing else whose default differs from it. */
  lemma DefaultVersusOr(v: Value, d: Value)
    ensures v.Undefined? || Truthy(v) ==> WithDefault(v, d) == Or(v, d)
    ensures !v.Undefined? && !Truthy(v) ==> WithDefault(v, d) == v && Or(v, d) == d
  {
  }

  /** JSON data: a value with no `undefined` anywhere in it, which is what
      `JSON.parse` produces and what a client receives. */
  predicate IsJson(v: Value) {
    match v
    case Undefined => false
    case Arr(xs) => forall i :: 0 <= i < |xs| ==> IsJson(xs[i])
    case Obj(m) => forall k :: k in m ==> IsJson(m[k])
    case _ => true
  }

  /** What `JSON.stringify` keeps of a value: object members whose value is
      `undefined` are dropped, `undefined` array elements become `null`, and a
      top-level `undefined` stays `undefined` (Express then sends an empty body). */
  function Serialized(v: Value): Value {
    match v
    case Arr(xs) =>
      Arr(seq(|xs|, i requires 0 <= i < |xs| => if xs[i].Undefined? then Null else Serialized(xs[i])))
    case Obj(m) =>
      Obj(map k | k in m && !m[k].Undefined? :: Serialized(m[k]))
    case _ => v
  }

  /** Whatever the handler passes to `res.json`, unless it is `undefined`, the
      client receives JSON data. */
  lemma {:induction false} SerializedIsJson(v: Value)
    requires !v.Undefined?
    ensures IsJson(Serialized(v))
  {
    match v
    case Arr(xs) =>
      forall i | 0 <= i < |xs| && !xs[i].Undefined?
        ensures IsJson(Serialized(xs[i]))
      {
        SerializedIsJson(xs[i]);
      }
    case Obj(m) =>
      forall k | k in m && !m[k].Undefined?
        ensures IsJson(Serialized(m[k]))
      {
        SerializedIsJson(m[k]);
      }
    case _ =>
  }

  /** JSON data goes through `JSON.stringify` unchanged: a body that came from
      `JSON.parse` is forwarded exactly. */
  lemma {:induction false} SerializedOfJson(v: Value)
    requires IsJson(v)
    ensures Serialized(v) == v
  {
    match v
    case Arr(xs) =>
      forall i | 0 <= i < |xs|
        ensures Serialized(xs[i]) == xs[i]
      {
        SerializedOfJson(xs[i]);
      }
      assert Serialized(v).items == xs;
    case Obj(m) =>
      forall k | k in m
        ensures Serialized(m[k]) == m[k]
      {
        SerializedOfJson(m[k]);
      }
      assert Serialized(v).members == m;
    case _ =>
  }

  /** A member of a serialised object is present on the wire exactly when it
      was present and not `undefined`, and then carries the serialised value. */
  lemma SerializedMember(m: map<string, Value>, k: string)
    ensures k in Serialized(Obj(m)).members <==> k in m && !m[k].Undefined?
    ensures k in m && !m[k].Undefined? ==> Serialized(Obj(m)).members[k] == Serialized(m[k])
  {
  }
}
