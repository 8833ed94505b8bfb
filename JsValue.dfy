/** JavaScript values as the plugin runtime handles them: parsed JSON
    manifests and configuration files, plugin records, handler functions
    and event payloads. Only the parts of the language's value semantics
    that the runtime's code depends on are modelled: `typeof`, truthiness,
    `===`, property reads, conversion of a value to a property key, and the
    JSON round trip used to copy plugin lists. */
module JsValue {

  datatype Option<+T> = None | Some(value: T)

  /** The functions the runtime can call as handlers: the bundled
      `addCreatedAt` plugin, and functions whose behaviour the model
      takes from outside (an oracle keyed by `id`). */
  datatype Handler = AddCreatedAt | External(id: nat)

  /** A JavaScript value. Numbers are integers; `Fn` carries the function's
      source text, which is what converting it to a string yields. */
  datatype Value =
    | Undefined
    | Null
    | Bool(b: bool)
    | Num(n: int)
    | Str(s: string)
    | Fn(handler: Handler, source: string)
    | Arr(elems: seq<Value>)
    | Obj(props: map<string, Value>)

  /** Reading a property of these throws a TypeError. */
  predicate Nullish(v: Value) {
    v.Undefined? || v.Null?
  }

  /** `v[key]` for a value that is not nullish: an own property of an
      object, and `undefined` for everything else. */
  function Prop(v: Value, key: string): Value {
    if v.Obj? && key in v.props then v.props[key] else Undefined
  }

  /** The `typeof` operator. */
  function TypeOf(v: Value): string {
    match v
    case Undefined => "undefined"
    case Null => "object"
    case Bool(_) => "boolean"
    case Num(_) => "number"
    case Str(_) => "string"
    case Fn(_, _) => "function"
    case Arr(_) => "object"
    case Obj(_) => "object"
  }

  /** The value's truthiness, as used by `||`. */
  predicate Truthy(v: Value) {
    match v
    case Undefined => false
    case Null => false
    case Bool(b) => b
    case Num(n) => n != 0
    case Str(s) => s != ""
    case Fn(_, _) => true
    case Arr(_) => true
    case Obj(_) => true
  }

  /** `a === b`. Every object or array compared by the runtime comes from a
      separate JSON parse or literal, so two of them are never identical. */
  predicate StrictEquals(a: Value, b: Value) {
    a == b && !a.Obj? && !a.Arr?
  }

  predicate IsDigits(s: string) {
    forall i :: 0 <= i < |s| ==> '0' <= s[i] <= '9'
  }

  /** The number a string of decimal digits denotes. */
  function DecimalValue(s: string): nat
    requires IsDigits(s)
  {
    if s == [] then 0
    else 10 * DecimalValue(s[..|s| - 1]) + (s[|s| - 1] as int - '0' as int)
  }

  /** Decimal digits of a natural number, without leading zeros. */
  function NatToString(n: nat): (r: string)
    ensures |r| >= 1 && IsDigits(r)
    ensures DecimalValue(r) == n
    ensures |r| > 1 ==> r[0] != '0'
  {
    var d := ['0' + (n % 10) as char];
    if n < 10 then d
    else
      var r := NatToString(n / 10) + d;
      assert r[..|r| - 1] == NatToString(n / 10);
      r
  }

  function IntToString(n: int): string {
    if n < 0 then "-" + NatToString(-n) else NatToString(n)
  }

  /** The property key a value is converted to when it is used as `obj[v]`
      or interpolated into a template string. */
  function ToKey(v: Value): string {
    match v
    case Undefined => "undefined"
    case Null => "null"
    case Bool(b) => if b then "true" else "false"
    case Num(n) => IntToString(n)
    case Str(s) => s
    case Fn(_, source) => source
    case Arr(es) => JoinKeys(v, 0)
    case Obj(_) => "[object Object]"
  }

  /** `Array.prototype.toString` from element `i` on: elements joined with
      commas, null and undefined elements written as empty strings. */
  function JoinKeys(a: Value, i: nat): string
    requires a.Arr? && i <= |a.elems|
    decreases a, |a.elems| - i
  {
    if i == |a.elems| then ""
    else
      var e := a.elems[i];
      var k := if Nullish(e) then "" else ToKey(e);
      if i + 1 == |a.elems| then k else k + "," + JoinKeys(a, i + 1)
  }

  /** A value that JSON can represent exactly: no functions and no
      undefined, at any depth. */
  predicate IsJson(v: Value) {
    match v
    case Undefined => false
    case Fn(_, _) => false
    case Arr(es) => forall i :: 0 <= i < |es| ==> IsJson(es[i])
    case Obj(m) => forall k :: k in m ==> IsJson(m[k])
    case _ => true
  }

  /** `JSON.parse(JSON.stringify(v))` where `v` sits inside a container:
      `None` when stringify omits it (undefined and functions); elements of
      arrays that are omitted come back as `null`, properties of objects
      that are omitted are dropped. */
  function ToJson(v: Value): Option<Value>
    decreases v, 0
  {
    match v
    case Undefined => None
    case Fn(_, _) => None
    case Arr(es) => Some(Arr(seq(|es|, i requires 0 <= i < |es| => JsonElement(es[i]))))
    case Obj(m) => Some(Obj(map k | k in m && ToJson(m[k]).Some? :: ToJson(m[k]).value))
    case _ => Some(v)
  }

  function JsonElement(v: Value): Value
    decreases v, 1
  {
    match ToJson(v)
    case Some(w) => w
    case None => Null
  }

  /** The copy helper applied to an array: the JSON round trip of each element. */
  function CopyList(vs: seq<Value>): (r: seq<Value>)
    ensures |r| == |vs|
  {
    seq(|vs|, i requires 0 <= i < |vs| => JsonElement(vs[i]))
  }

  /** The round trip is the identity on values JSON represents exactly. */
  lemma {:induction false} ToJsonIdentity(v: Value)
    requires IsJson(v)
    ensures ToJson(v) == Some(v)
  {
    match v
    case Arr(es) =>
      forall i | 0 <= i < |es| ensures JsonElement(es[i]) == es[i] {
        ToJsonIdentity(es[i]);
      }
      assert seq(|es|, i requires 0 <= i < |es| => JsonElement(es[i])) == es;
    case Obj(m) =>
      forall k | k in m ensures ToJson(m[k]) == Some(m[k]) {
        ToJsonIdentity(m[k]);
      }
      assert (map k | k in m && ToJson(m[k]).Some? :: ToJson(m[k]).value) == m;
    case _ =>
  }

  /** Whatever the input, the copy holds no functions and no undefined. */
  lemma {:induction false} ToJsonIsJson(v: Value)
    ensures ToJson(v).Some? <==> !(v.Undefined? || v.Fn?)
    ensures ToJson(v).Some? ==> IsJson(ToJson(v).value)
  {
    match v
    case Arr(es) =>
      forall i | 0 <= i < |es| ensures IsJson(JsonElement(es[i])) {
        ToJsonIsJson(es[i]);
      }
    case Obj(m) =>
      forall k | k in m && ToJson(m[k]).Some? ensures IsJson(ToJson(m[k]).value) {
        ToJsonIsJson(m[k]);
      }
    case _ =>
  }

  /** Copying a list of plugin records that JSON represents exactly gives
      the same list; any other list loses its functions. */
  lemma CopyListOfJson(vs: seq<Value>)
    ensures (forall i :: 0 <= i < |vs| ==> IsJson(vs[i])) ==> CopyList(vs) == vs
    ensures forall i :: 0 <= i < |vs| ==> IsJson(CopyList(vs)[i])
  {
    forall i | 0 <= i < |vs|
      ensures IsJson(vs[i]) ==> CopyList(vs)[i] == vs[i]
      ensures IsJson(CopyList(vs)[i])
    {
      ToJsonIsJson(vs[i]);
      if IsJson(vs[i]) { ToJsonIdentity(vs[i]); }
    }
  }
}
