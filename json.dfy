/** The JSON-shaped values the scrapers and the HTTP handlers receive, with
    the Python conversions applied to them: truthiness, `or`, `str()` (with
    placeholders for lists, dicts and fractional floats), and `int()` and
    `float()` of plain decimal text. Floats are exact reals. */
module JsonValue {
  import opened Options
  import opened Text

  datatype Json =
    | JNull
    | JBool(b: bool)
    | JInt(i: int)
    | JFloat(r: real)
    | JStr(s: string)
    | JList(items: seq<Json>)
    | JObject(fields: map<string, Json>)

  /** A Python dict with string keys, as decoded from JSON or built by the code. */
  type Dict = map<string, Json>

  /** Python's `bool(v)`. */
  predicate Truthy(v: Json)
  {
    match v
    case JNull => false
    case JBool(b) => b
    case JInt(i) => i != 0
    case JFloat(r) => r != 0.0
    case JStr(s) => s != []
    case JList(items) => items != []
    case JObject(fields) => fields != map[]
  }

  /** `d.get(k, default)`. */
  function Get(d: Dict, k: string, default: Json): (v: Json)
    ensures k in d ==> v == d[k]
    ensures k !in d ==> v == default
  {
    if k in d then d[k] else default
  }

  /** Python's `a or b`: the first operand when it is truthy, else the second. */
  function Or(a: Json, b: Json): (v: Json)
    ensures Truthy(a) ==> v == a
    ensures !Truthy(a) ==> v == b
  {
    if Truthy(a) then a else b
  }

  /** `d.get(k1) or d.get(k2) or ... or last`: the first truthy field value
      among `keys`, else `last`. */
  function FirstTruthy(d: Dict, keys: seq<string>, last: Json): (v: Json)
    ensures v == last || exists k :: k in keys && k in d && d[k] == v && Truthy(v)
    ensures (forall k :: k in keys ==> !Truthy(Get(d, k, JNull))) ==> v == last
  {
    if keys == [] then last
    else Or(Get(d, keys[0], JNull), FirstTruthy(d, keys[1..], last))
  }

  /** Python's `int(x)` on a finite float: truncation toward zero. */
  function TruncReal(r: real): (i: int)
    ensures r >= 0.0 ==> i as real <= r < i as real + 1.0
    ensures r < 0.0 ==> i as real - 1.0 < r <= i as real
  {
    if r >= 0.0 then r.Floor else -((-r).Floor)
  }

  function Pow10(n: nat): (p: nat)
    ensures p >= 1
  {
    if n == 0 then 1 else 10 * Pow10(n - 1)
  }

  predicate AllDigits(s: string)
  {
    forall i :: 0 <= i < |s| ==> IsDigit(s[i])
  }

  /** Splits off an optional leading sign: whether it is '-', and the rest. */
  function SignOf(t: string): (r: (bool, string))
    ensures |r.1| <= |t|
  {
    if t != [] && t[0] == '-' then (true, t[1..])
    else if t != [] && t[0] == '+' then (false, t[1..])
    else (false, t)
  }

  /** Index of the first '.', or |s| when there is none. */
  function DotIndex(s: string): (k: nat)
    ensures k <= |s|
    ensures k < |s| ==> s[k] == '.'
    ensures forall i :: 0 <= i < k ==> s[i] != '.'
  {
    if s == [] then 0 else if s[0] == '.' then 0 else 1 + DotIndex(s[1..])
  }

  /** Python's `int(s)` for a string: optional surrounding whitespace, an
      optional sign and at least one decimal digit. */
  function ParseInt(s: string): (r: Option<int>)
    ensures r.Some? ==> Strip(s) != []
  {
    var (negative, body) := SignOf(Strip(s));
    if body != [] && AllDigits(body) then
      Some(if negative then -(DigitsValue(body) as int) else DigitsValue(body))
    else None
  }

  /** Python's `float(s)` for a plain decimal string: optional surrounding
      whitespace, an optional sign, digits with at most one '.', and at least
      one digit. */
  function ParseDecimal(s: string): (r: Option<real>)
    ensures r.Some? ==> Strip(s) != []
  {
    var signed := SignOf(Strip(s));
    var u := UnsignedDecimal(signed.1);
    if u.Some? then Some(Signed(signed.0, u.value)) else None
  }

  /** `x`, negated when `negative`. */
  function Signed(negative: bool, x: real): real
  {
    if negative then -x else x
  }

  /** Digits with at most one '.', and at least one digit. */
  function UnsignedDecimal(body: string): (r: Option<real>)
    ensures r.Some? ==> r.value >= 0.0
  {
    var k := DotIndex(body);
    var whole := body[..k];
    var frac := if k < |body| then body[k + 1..] else [];
    if (whole != [] || frac != []) && AllDigits(whole) && AllDigits(frac) then
      Some(DigitsValue(whole) as real + DigitsValue(frac) as real / Pow10(|frac|) as real)
    else None
  }

  /** A run of digits has no '.'. */
  lemma {:induction false} DotIndexOfDigits(s: string)
    requires AllDigits(s)
    ensures DotIndex(s) == |s|
  {
    if s != [] {
      DotIndexOfDigits(s[1..]);
    }
  }

  /** A run of digits without a '.' is read as its integer value. */
  lemma UnsignedDecimalOfDigits(body: string)
    requires body != [] && AllDigits(body)
    ensures UnsignedDecimal(body) == Some(DigitsValue(body) as real)
  {
    var k := DotIndex(body);
    DotIndexOfDigits(body);
    assert body[..k] == body;
    NoFraction(DigitsValue(body));
  }

  /** An empty fraction adds nothing. */
  lemma NoFraction(n: nat)
    ensures n as real + DigitsValue([]) as real / Pow10(0) as real == n as real
  {
    assert DigitsValue([]) == 0 && Pow10(0) == 1;
  }

  /** A signed run of digits parses as an int to its value. */
  lemma ParseIntOfDigits(s: string, negative: bool, body: string)
    requires SignOf(Strip(s)) == (negative, body)
    requires body != [] && AllDigits(body)
    ensures ParseInt(s) == Some(if negative then -(DigitsValue(body) as int) else DigitsValue(body))
  {
  }

  /** `str(i)` has no surrounding whitespace. */
  lemma StripRendered(i: int)
    ensures Strip(IntToString(i)) == IntToString(i)
  {
    var s := IntToString(i);
    assert !IsSpace(s[0]);
    assert !IsSpace(s[|s| - 1]);
    StripUnchanged(s);
  }

  /** `str(i)` is an optional '-' followed by the digits of |i|. */
  lemma RenderedSign(i: int) returns (body: string)
    ensures body != [] && AllDigits(body) && DigitsValue(body) == if i < 0 then -i else i
    ensures SignOf(Strip(IntToString(i))) == (i < 0, body)
  {
    var n: nat := if i < 0 then -i else i;
    NatToStringRoundTrip(n);
    body := NatToString(n);
    StripRendered(i);
    var s := IntToString(i);
    if i < 0 {
      assert s == "-" + body;
      assert s[0] == '-' && s[1..] == body;
    } else {
      assert s == body;
      assert IsDigit(s[0]);
    }
  }

  /** `int(str(i)) == i`. */
  lemma ParseIntOfRendered(i: int)
    ensures ParseInt(IntToString(i)) == Some(i)
  {
    var body := RenderedSign(i);
    ParseIntOfDigits(IntToString(i), i < 0, body);
  }

  /** A signed run of digits parses as a float to its value. */
  lemma ParseDecimalOfDigits(s: string, negative: bool, body: string)
    requires SignOf(Strip(s)) == (negative, body)
    requires body != [] && AllDigits(body)
    ensures ParseDecimal(s) == Some(Signed(negative, DigitsValue(body) as real))
  {
    UnsignedDecimalOfDigits(body);
  }

  /** `float(str(i)) == i` for an int rendered by Python. */
  lemma ParseDecimalOfRendered(i: int)
    ensures ParseDecimal(IntToString(i)) == Some(i as real)
  {
    var body := RenderedSign(i);
    ParseDecimalOfDigits(IntToString(i), i < 0, body);
  }

  /** Python's `str(v)` (and an f-string field). Booleans, None, ints and
      strings are rendered exactly; a float is rendered exactly when it is
      integral and below 10^16, every other float, list or dict by a fixed
      placeholder. */
  function Render(v: Json): (r: string)
    ensures v.JStr? ==> r == v.s
  {
    match v
    case JNull => "None"
    case JBool(b) => if b then "True" else "False"
    case JInt(i) => IntToString(i)
    case JFloat(x) =>
      if x == x.Floor as real && -10000000000000000 < x.Floor < 10000000000000000
      then IntToString(x.Floor) + ".0" else "<float>"
    case JStr(s) => s
    case JList(_) => "<list>"
    case JObject(_) => "<dict>"
  }

  /** Python's `int(float(str(v)))` with every exception turned into 0, as the
      scrapers do for award amounts. */
  function AmountOf(v: Json): (n: int)
    ensures v.JInt? ==> n == v.i
    ensures v.JNull? || v.JList? || v.JObject? ==> n == 0
  {
    match v
    case JInt(i) => ParseDecimalOfRendered(i); i
    case JFloat(x) => TruncReal(x)
    case JStr(s) => (match ParseDecimal(s) case Some(x) => TruncReal(x) case None => 0)
    case _ => 0
  }

  /** The value of a number, `True` and `False` included (Python's bool is an int). */
  function NumberOf(v: Json): (r: Option<real>)
    ensures r.Some? <==> v.JInt? || v.JFloat? || v.JBool?
  {
    match v
    case JInt(i) => Some(i as real)
    case JFloat(x) => Some(x)
    case JBool(b) => Some(if b then 1.0 else 0.0)
    case _ => None
  }

  /** Python's `float(v)`; `None` where it raises. Strings are read by
      `ParseDecimal`. */
  function ToFloat(v: Json): (r: Option<real>)
    ensures v.JNull? || v.JList? || v.JObject? ==> r.None?
  {
    if v.JStr? then ParseDecimal(v.s) else NumberOf(v)
  }

  /** Python's `int(v)`; `None` where it raises. */
  function ToInt(v: Json): (r: Option<int>)
    ensures v.JInt? ==> r == Some(v.i)
    ensures v.JNull? || v.JList? || v.JObject? ==> r.None?
  {
    match v
    case JInt(i) => Some(i)
    case JBool(b) => Some(if b then 1 else 0)
    case JFloat(x) => Some(TruncReal(x))
    case JStr(s) => ParseInt(s)
    case _ => None
  }

  /** Python's `len(v)`; `None` for the values that have no length. */
  function Len(v: Json): (r: Option<nat>)
    ensures v.JStr? ==> r == Some(|v.s|)
    ensures v.JNull? || v.JInt? || v.JFloat? || v.JBool? ==> r.None?
  {
    match v
    case JStr(s) => Some(|s|)
    case JList(items) => Some(|items|)
    case JObject(fields) => Some(|fields|)
    case _ => None
  }

  /** Python's slice `v[:n]`; `None` for a value that cannot be sliced. */
  function Slice(v: Json, n: nat): (r: Option<Json>)
    ensures v.JStr? ==> r == Some(JStr(Take(v.s, n)))
    ensures r.Some? <==> v.JStr? || v.JList?
  {
    match v
    case JStr(s) => Some(JStr(Take(s, n)))
    case JList(items) => Some(JList(Take(items, n)))
    case _ => None
  }
}
