/**
 * JavaScript values as the system sees them after `JSON.parse`, plus `undefined`, with the
 * handful of language rules the modelled code leans on: truthiness, `??`, property access
 * (which throws a TypeError on `null`/`undefined`), optional chaining and `String(v)`.
 */
module Json {
  import opened Wrappers
  import opened Strings
  import JsNumber

  datatype Js =
    | JUndef
    | JNull
    | JBool(b: bool)
    | JNum(n: real)
    | JStr(s: string)
    | JArr(items: seq<Js>)
    | JObj(props: map<string, Js>)

  /** `null` or `undefined`: the values `??` and `?.` step over. */
  predicate Nullish(v: Js) {
    v.JUndef? || v.JNull?
  }

  /** JavaScript truthiness (NaN is not representable here). */
  predicate Truthy(v: Js) {
    match v
    case JUndef => false
    case JNull => false
    case JBool(b) => b
    case JNum(n) => n != 0.0
    case JStr(s) => s != ""
    case JArr(_) => true
    case JObj(_) => true
  }

  lemma NullishIsFalsy(v: Js)
    ensures Nullish(v) ==> !Truthy(v)
  {
  }

  /** `v.key` for a value that is not `null`/`undefined`: an own property or `undefined`. */
  function Get(v: Js, key: string): (r: Js)
    ensures v.JObj? && key in v.props ==> r == v.props[key]
    ensures !v.JObj? ==> r == JUndef
  {
    if v.JObj? && key in v.props then v.props[key] else JUndef
  }

  /** `v.key`: `None` when the access throws a TypeError, that is when `v` is nullish. */
  function Member(v: Js, key: string): (r: Option<Js>)
    ensures r.None? <==> Nullish(v)
    ensures r.Some? ==> r.value == Get(v, key)
  {
    if Nullish(v) then None else Some(Get(v, key))
  }

  /** The TypeError's message for reading `key` of a nullish `v`, as V8 writes it. */
  function ReadError(v: Js, key: string): string {
    "Cannot read properties of " + ToStr(v) + " (reading '" + key + "')"
  }

  /** `v.key` where a throw propagates: reading from a nullish value throws `ReadError`. */
  function Prop(v: Js, key: string): (r: Result<Js>)
    ensures r.Err? <==> Nullish(v)
    ensures r.Ok? ==> r.value == Get(v, key)
    ensures r.Err? ==> r.message == ReadError(v, key)
  {
    match Member(v, key)
    case None => Err(ReadError(v, key))
    case Some(x) => Ok(x)
  }

  /** `v?.key`: `undefined` when `v` is nullish, otherwise `v.key`. */
  function OptGet(v: Js, key: string): (r: Js)
    ensures Nullish(v) ==> r == JUndef
    ensures !Nullish(v) ==> r == Get(v, key)
  {
    if Nullish(v) then JUndef else Get(v, key)
  }

  /** `a ?? b`. */
  function Coalesce(a: Js, b: Js): (r: Js)
    ensures Nullish(a) ==> r == b
    ensures !Nullish(a) ==> r == a
  {
    if Nullish(a) then b else a
  }

  /** `a || b`. */
  function Or(a: Js, b: Js): (r: Js)
    ensures Truthy(a) ==> r == a
    ensures !Truthy(a) ==> r == b
  {
    if Truthy(a) then a else b
  }

  /** `{}` */
  const EmptyObject: Js := JObj(map[])

  /**
   * The digits of a fraction in `[0, 1)`, most significant first, stopping when nothing is
   * left or after `fuel` digits.
   */
  function FractionDigits(f: real, fuel: nat): (r: string)
    requires 0.0 <= f < 1.0
    ensures AllDigits(r) && |r| <= fuel
    decreases fuel
  {
    if f == 0.0 || fuel == 0 then ""
    else
      var d := (f * 10.0).Floor;
      [DigitChar(d)] + FractionDigits(f * 10.0 - d as real, fuel - 1)
  }

  /**
   * `String(n)` for a number: integers are written in decimal; other numbers as their
   * decimal expansion, up to twenty fraction digits.
   */
  function NumberText(n: real): string
  {
    if n == n.Floor as real then ShowInt(n.Floor)
    else if n < 0.0 then "-" + PositiveText(-n)
    else PositiveText(n)
  }

  function PositiveText(n: real): string
    requires n > 0.0
  {
    ShowNat(n.Floor) + "." + FractionDigits(n - n.Floor as real, 20)
  }

  /**
   * `Number(v)`, the conversion a relational comparison applies: `undefined` and objects are
   * NaN (`None`), `null` and `false` are 0, `true` is 1, and strings and arrays are read from
   * their text.
   */
  function ToNumber(v: Js): (r: Option<real>)
    ensures v.JNum? ==> r == Some(v.n)
    ensures v.JUndef? || v.JObj? ==> r.None?
    ensures v.JStr? ==> r == JsNumber.StringToNumber(v.s)
  {
    match v
    case JUndef => None
    case JNull => Some(0.0)
    case JBool(b) => Some(if b then 1.0 else 0.0)
    case JNum(n) => Some(n)
    case JStr(s) => JsNumber.StringToNumber(s)
    case JArr(_) => JsNumber.StringToNumber(ToStr(v))
    case JObj(_) => None
  }

  /** `String(v)`, the conversion `new Error(v)` and template strings apply. */
  function ToStr(v: Js): string
    decreases v, 1
  {
    match v
    case JUndef => "undefined"
    case JNull => "null"
    case JBool(b) => if b then "true" else "false"
    case JNum(n) => NumberText(n)
    case JStr(s) => s
    case JArr(_) => Join(ElemTexts(v), ",")
    case JObj(_) => "[object Object]"
  }

  /** What `Array.prototype.join` writes for one element: nothing for `null`/`undefined`. */
  function ElemText(e: Js): string
    decreases e, 2
  {
    if Nullish(e) then "" else ToStr(e)
  }

  function ElemTexts(v: Js): (r: seq<string>)
    requires v.JArr?
    ensures |r| == |v.items|
    decreases v, 0
  {
    seq(|v.items|, i requires 0 <= i < |v.items| => ElemText(v.items[i]))
  }

  /** `a.join(sep)` for an array value. */
  function ArrayJoin(v: Js, sep: string): string
    requires v.JArr?
  {
    Join(ElemTexts(v), sep)
  }

  /** The array of the given strings. */
  function StrArray(parts: seq<string>): (r: Js)
    ensures r.JArr? && |r.items| == |parts|
  {
    JArr(seq(|parts|, i requires 0 <= i < |parts| => JStr(parts[i])))
  }

  /** An array of strings joins to the strings themselves. */
  lemma StrArrayTexts(parts: seq<string>)
    ensures ElemTexts(StrArray(parts)) == parts
  {
    var a := StrArray(parts);
    forall i | 0 <= i < |parts|
      ensures ElemTexts(a)[i] == parts[i]
    {
      assert a.items[i] == JStr(parts[i]);
      assert ElemText(a.items[i]) == parts[i];
    }
  }

  /** `String` of an integer reads back through `parseFloat` as that integer. */
  lemma IntegerTextReadsBack(k: int)
    ensures JsNumber.ParseFloat(ToStr(JNum(k as real))) == Some(k as real)
  {
    var t := ToStr(JNum(k as real));
    IntegerText(k);
    if k < 0 {
      var m: nat := -k;
      assert t == "-" + ShowNat(m);
      NegativeReadsBack(m);
      assert JsNumber.ParseFloat(t) == Some(-(m as real));
    } else {
      assert t == ShowNat(k);
      JsNumber.ParseShowNat(k);
    }
  }

  lemma IntegerText(k: int)
    ensures ToStr(JNum(k as real)) == ShowInt(k)
  {
    assert (k as real).Floor == k;
  }

  lemma NegativeReadsBack(m: nat)
    ensures JsNumber.ParseFloat("-" + ShowNat(m)) == Some(-(m as real))
  {
    var t := ShowNat(m);
    var s := "-" + t;
    assert TrimStart(s) == s by {
      assert !IsJsSpace(s[0]);
    }
    assert s[1..] == t;
    JsNumber.ParseShowNat(m);
    JsNumber.StartsWithDigit(t);
  }
}
