/**
 * The value tree shared by both TOON codecs: JSON values with objects as
 * ordered association lists (insertion order, unique keys) and numbers as
 * exact decimals.
 */
module JsonValue {
  import opened Wrappers
  import opened JsText

  /** The number `mant / 10^scale`. */
  datatype Decimal = Decimal(mant: int, scale: nat)

  datatype Json =
    | Null
    | Bool(b: bool)
    | Num(n: Decimal)
    | Str(s: string)
    | Arr(items: seq<Json>)
    | Obj(fields: seq<Field>)

  datatype Field = Field(key: string, value: Json)

  function Pow10(n: nat): (r: nat)
    ensures r >= 1
  {
    if n == 0 then 1 else 10 * Pow10(n - 1)
  }

  /** One representation per number: no trailing zero in the fraction. */
  predicate Canonical(d: Decimal) {
    d.scale == 0 || d.mant % 10 != 0
  }

  /** The canonical decimal equal to `m / 10^s`. */
  function Normalize(m: int, s: nat): (d: Decimal)
    ensures Canonical(d)
    ensures d.scale <= s && m == d.mant * Pow10(s - d.scale)
    decreases s
  {
    if s > 0 && m % 10 == 0 then
      var d := Normalize(m / 10, s - 1);
      assert m / 10 == d.mant * Pow10(s - 1 - d.scale);
      assert s - d.scale == (s - 1 - d.scale) + 1;
      d
    else Decimal(m, s)
  }

  function Keys(f: seq<Field>): (ks: seq<string>)
    ensures |ks| == |f|
    ensures forall i :: 0 <= i < |f| ==> ks[i] == f[i].key
  {
    if f == [] then [] else [f[0].key] + Keys(f[1..])
  }

  predicate UniqueKeys(f: seq<Field>) {
    forall i, j :: 0 <= i < j < |f| ==> f[i].key != f[j].key
  }

  /** `obj[k]`: the value of the first field named `k`. */
  function Get(f: seq<Field>, k: string): (r: Option<Json>)
    ensures r.Some? <==> k in Keys(f)
  {
    if f == [] then None else if f[0].key == k then Some(f[0].value) else Get(f[1..], k)
  }

  /**
   * `obj[k] = v` on a JavaScript object: an existing key keeps its place and
   * takes the new value, a new key is appended.
   */
  function Assign(f: seq<Field>, k: string, v: Json): (r: seq<Field>)
    ensures Keys(r) == if k in Keys(f) then Keys(f) else Keys(f) + [k]
  {
    if f == [] then [Field(k, v)]
    else if f[0].key == k then [Field(k, v)] + f[1..]
    else
      var t := Assign(f[1..], k, v);
      assert Keys([f[0]] + t) == [f[0].key] + Keys(t);
      assert Keys(f) == [f[0].key] + Keys(f[1..]);
      [f[0]] + t
  }

  /** After `obj[k] = v`, reading `k` gives `v` and every other key reads as before. */
  lemma {:induction false} AssignGet(f: seq<Field>, k: string, v: Json, k': string)
    ensures Get(Assign(f, k, v), k') == if k' == k then Some(v) else Get(f, k')
  {
    if f != [] && f[0].key != k {
      AssignGet(f[1..], k, v, k');
    }
  }

  /** Assignment keeps the keys of an object unique. */
  lemma AssignUnique(f: seq<Field>, k: string, v: Json)
    requires UniqueKeys(f)
    ensures UniqueKeys(Assign(f, k, v))
  {
    var r := Assign(f, k, v);
    assert forall i :: 0 <= i < |r| ==> r[i].key == Keys(r)[i];
    assert forall i :: 0 <= i < |f| ==> f[i].key == Keys(f)[i];
  }

  /** Every object has unique keys and every number is canonical. */
  predicate WellFormed(j: Json) {
    match j
    case Num(d) => Canonical(d)
    case Arr(items) => forall i :: 0 <= i < |items| ==> WellFormed(items[i])
    case Obj(f) => WellFormedFields(f)
    case _ => true
  }

  predicate WellFormedFields(f: seq<Field>) {
    UniqueKeys(f) && forall i :: 0 <= i < |f| ==> WellFormed(f[i].value)
  }

  predicate IsScalar(j: Json) {
    j.Null? || j.Bool? || j.Num? || j.Str?
  }

  function Abs(n: int): nat { if n < 0 then -n else n }

  function ZeroPad(s: string, width: nat): (r: string)
    ensures |r| >= width && |r| >= |s|
    decreases width - |s|
  {
    if |s| >= width then s else ZeroPad("0" + s, width)
  }

  /** `String(n)` for a number, written as a plain decimal. */
  function NumberText(d: Decimal): string {
    var digits := ZeroPad(NatToString(Abs(d.mant)), d.scale + 1);
    var sign := if d.mant < 0 then "-" else "";
    if d.scale == 0 then sign + digits
    else sign + digits[..|digits| - d.scale] + "." + digits[|digits| - d.scale..]
  }

  /** `String(v)` for a scalar, and JavaScript's `String` of arrays and objects. */
  function JsString(j: Json): string {
    match j
    case Null => "null"
    case Bool(b) => if b then "true" else "false"
    case Num(d) => NumberText(d)
    case Str(s) => s
    case Arr(items) => ArrayJoinText(items)
    case Obj(_) => "[object Object]"
  }

  /** `items.join(',')`: null elements become empty strings. */
  function ArrayJoinText(items: seq<Json>): string {
    if items == [] then ""
    else
      var head := if items[0].Null? then "" else JsString(items[0]);
      if |items| == 1 then head else head + "," + ArrayJoinText(items[1..])
  }
}
