/** The Python values the bot handles: what `response.json()` decodes from the
    homework API, with the Python operations homework.py applies to them
    (truthiness, `d[key]`, `d.get(key)`, `v[0]`, `str(v)`) and the exceptions
    those operations raise. */
module PyValues {
  import opened Wrappers

  /** A decoded JSON value (floats are not part of this model). */
  datatype Json =
    | JNull
    | JBool(b: bool)
    | JInt(i: int)
    | JStr(s: string)
    | JList(items: seq<Json>)
    | JObject(fields: map<string, Json>)

  /** Every exception the core can raise; the loop catches them all alike. */
  datatype Error =
    | KeyError(key: Json)   // a dict subscript with a key the dict lacks
    | TypeError             // a subscript of a value that does not support it, or an unhashable key
    | IndexError            // `[0]` on an empty sequence
    | AttributeError        // `.get` on a decoded body that is not a dict
    | NonOkStatus(code: int) // the bare `raise` of get_api_answer on a non-200 reply
    | NotAList              // the bare `raise` of check_response
    | ConnectionError       // the HTTP request itself failed
    | JsonDecodeError       // the reply body is not JSON
    | SendError             // the Telegram bot could not send the message

  /** The empty or zero value of v's own type: None, False, 0, "", [] or {}. */
  function EmptyOf(v: Json): Json {
    match v
    case JNull => JNull
    case JBool(_) => JBool(false)
    case JInt(_) => JInt(0)
    case JStr(_) => JStr("")
    case JList(_) => JList([])
    case JObject(_) => JObject(map[])
  }

  /** Python's `bool(v)`: false exactly for the empty or zero value of each type. */
  predicate Truthy(v: Json)
    ensures Truthy(v) <==> v != EmptyOf(v)
  {
    match v
    case JNull => false
    case JBool(b) => b
    case JInt(i) => i != 0
    case JStr(s) => |s| > 0
    case JList(items) => |items| > 0
    case JObject(fields) => |fields| > 0
  }

  /** `v[key]` for a string key. */
  function Subscript(v: Json, key: string): (r: Result<Json, Error>)
    ensures r.Success? <==> v.JObject? && key in v.fields
    ensures r.Success? ==> r.value == v.fields[key]
  {
    match v
    case JObject(fields) => if key in fields then Success(fields[key]) else Failure(KeyError(JStr(key)))
    case _ => Failure(TypeError)
  }

  /** `d.get(key)` on a dict: the value, or `None` when the key is absent. */
  function DictGet(fields: map<string, Json>, key: string): (r: Json)
    ensures Subscript(JObject(fields), key).Success? ==> r == Subscript(JObject(fields), key).value
    ensures Subscript(JObject(fields), key).Failure? ==> r == JNull
  {
    if key in fields then fields[key] else JNull
  }

  /** `v[0]`. A string yields its first character; a dict is looked up under
      the integer key 0, which a decoded JSON object never has. */
  function First(v: Json): (r: Result<Json, Error>)
    ensures r.Success? <==> (v.JList? && v.items != []) || (v.JStr? && v.s != "")
    ensures r.Success? && v.JList? ==> r.value == v.items[0]
    ensures r.Success? && v.JStr? ==> r.value == JStr([v.s[0]])
    ensures (v.JList? && v.items == []) || (v.JStr? && v.s == "") ==> r == Failure(IndexError)
    ensures v.JObject? ==> r == Failure(KeyError(JInt(0)))
    ensures !(v.JList? || v.JStr? || v.JObject?) ==> r == Failure(TypeError)
  {
    match v
    case JList(items) => if items != [] then Success(items[0]) else Failure(IndexError)
    case JStr(s) => if s != "" then Success(JStr([s[0]])) else Failure(IndexError)
    case JObject(_) => Failure(KeyError(JInt(0)))
    case _ => Failure(TypeError)
  }

  /** Decimal digits of a natural number, as `str(n)` writes them: no
      leading zero except for 0 itself. */
  function Digits(n: nat): (r: string)
    ensures IsCanonical(r)
    ensures r[0] == '0' <==> n == 0
  {
    if n < 10 then [DigitChar(n)] else Digits(n / 10) + [DigitChar(n % 10)]
  }

  function DigitChar(d: nat): (c: char)
    requires d < 10
    ensures '0' <= c <= '9'
  {
    (('0' as int) + d) as char
  }

  predicate IsDecimal(s: string) {
    forall k | 0 <= k < |s| :: '0' <= s[k] <= '9'
  }

  /** A decimal numeral without leading zeros, the form `str()` gives a natural number. */
  predicate IsCanonical(s: string) {
    |s| > 0 && IsDecimal(s) && (s[0] != '0' || |s| == 1)
  }

  /** The form `str()` gives an integer: a canonical numeral, or a minus
      sign before a canonical numeral other than "0". */
  predicate IsCanonicalInt(s: string) {
    IsCanonical(s) || (|s| > 1 && s[0] == '-' && IsCanonical(s[1..]) && s[1] != '0')
  }

  /** The number a string of decimal digits denotes, most significant first. */
  function DecimalValue(s: string): nat
    requires IsDecimal(s)
  {
    if s == [] then 0 else 10 * DecimalValue(s[..|s| - 1]) + ((s[|s| - 1] as int) - ('0' as int))
  }

  /** Digits writes n in decimal: reading the digits back gives n. */
  lemma {:induction false} DigitsReadBack(n: nat)
    ensures DecimalValue(Digits(n)) == n
    decreases n
  {
    if n >= 10 {
      DigitsReadBack(n / 10);
      var d := Digits(n);
      assert d[..|d| - 1] == Digits(n / 10);
    }
  }

  /** A numeral with a leading digit other than '0' denotes a positive number. */
  lemma {:induction false} LeadingDigitPositive(s: string)
    requires IsDecimal(s) && |s| > 0 && s[0] != '0'
    ensures DecimalValue(s) >= 1
    decreases |s|
  {
    if |s| > 1 {
      LeadingDigitPositive(s[..|s| - 1]);
    }
  }

  /** Canonical numerals are unique: each is the one Digits writes for its
      value, so a canonical numeral that reads back to n is `str(n)`. */
  lemma {:induction false} CanonicalIsDigits(s: string)
    requires IsCanonical(s)
    ensures Digits(DecimalValue(s)) == s
    decreases |s|
  {
    var last := s[|s| - 1];
    var d := (last as int) - ('0' as int);
    if |s| == 1 {
      assert DigitChar(d) == last;
    } else {
      var prefix := s[..|s| - 1];
      LeadingDigitPositive(prefix);
      assert prefix[0] == s[0];
      CanonicalIsDigits(prefix);
      var n := DecimalValue(s);
      assert n / 10 == DecimalValue(prefix) && n % 10 == d;
      assert DigitChar(d) == last;
      assert s == prefix + [last];
    }
  }

  /** Python's `int(s)` for an optionally signed string of decimal digits. */
  function ReadInt(s: string): Option<int> {
    if |s| > 1 && s[0] == '-' && IsDecimal(s[1..]) then Some(-(DecimalValue(s[1..]) as int))
    else if |s| > 0 && IsDecimal(s) then Some(DecimalValue(s))
    else None
  }

  lemma SignedNumeral(i: int)
    ensures var r := if i < 0 then "-" + Digits(-i) else Digits(i);
      IsCanonicalInt(r) && ReadInt(r) == Some(i)
  {
    var magnitude := if i < 0 then -i else i;
    DigitsReadBack(magnitude);
    assert ("-" + Digits(magnitude))[1..] == Digits(magnitude);
  }

  /** `str(v)`, as an f-string renders a value. Arrays and objects are shown
      as fixed placeholders rather than by Python's repr. */
  function Display(v: Json): (r: string)
    ensures v.JStr? ==> r == v.s
    ensures v.JInt? ==> IsCanonicalInt(r) && ReadInt(r) == Some(v.i)
    ensures v.JNull? ==> r == "None"
    ensures v.JBool? ==> r == (if v.b then "True" else "False")
  {
    match v
    case JNull => "None"
    case JBool(b) => if b then "True" else "False"
    case JInt(i) =>
      SignedNumeral(i);
      if i < 0 then "-" + Digits(-i) else Digits(i)
    case JStr(s) => s
    case JList(_) => "[...]"
    case JObject(_) => "{...}"
  }
}
