/**
 * Values of a decoded JSON request body, Python's int() conversion and
 * truthiness on them, and the conversions the record fields apply when a
 * record is saved.
 */
module Values {
  import opened Wrappers

  /** A calendar date, as an opaque, totally ordered day number. */
  type Date = int

  /** The failures a view reports to its client. */
  datatype Error =
    | InvalidAge  // the registration view's own "Invalid Age" (400)
    | NotFound    // the looked-up record does not exist (404)
    | Rejected    // any other exception, caught and reported as 400

  /**
   * One value of a decoded JSON body. `DateStr(text, d)` is a string
   * `text` that the date field's parser accepts, denoting the day `d`;
   * `Str(s)` is any other string. `Compound(size, repr)` is a JSON array or
   * object with `size` members, whose Python str() is `repr`.
   */
  datatype Value =
    | Null
    | Bool(b: bool)
    | Num(n: int)
    | Str(s: string)
    | DateStr(text: string, d: Date)
    | Compound(size: nat, repr: string)

  /**
   * The values a JSON decoder can produce: a date string is never empty,
   * and Python's str() of an array or object is never empty (it opens with
   * a bracket). `Truthy` and `PyStr` follow Python on these values only;
   * `DateStr("", d)` or `Compound(n, "")` stand for no decoded value. Only
   * `TruthyOfText` needs this; no operation depends on it.
   */
  predicate Occurs(v: Value) {
    match v
    case DateStr(text, _) => text != ""
    case Compound(_, repr) => repr != [] && (repr[0] == '[' || repr[0] == '{')
    case _ => true
  }

  /** A decoded JSON object. */
  type Body = map<string, Value>

  /** `data.get(key, default)`. */
  function Get(body: Body, key: string, default: Value): (v: Value)
    ensures key in body ==> v == body[key]
    ensures key !in body ==> v == default
  {
    if key in body then body[key] else default
  }

  /** Python's truth value of the decoded value. */
  predicate Truthy(v: Value) {
    match v
    case Null => false
    case Bool(b) => b
    case Num(n) => n != 0
    case Str(s) => s != ""
    case DateStr(_, _) => true
    case Compound(size, _) => size > 0
  }

  // ---------------------------------------------------------------------
  // Python's int() of a string
  // ---------------------------------------------------------------------

  /** The characters Python's str.strip() and int() treat as white space. */
  predicate IsSpace(c: char) {
    var k := c as int;
    (9 <= k <= 13) || (28 <= k <= 32) || k == 0x85 || k == 0xA0 || k == 0x1680
    || (0x2000 <= k <= 0x200A) || k == 0x2028 || k == 0x2029 || k == 0x202F
    || k == 0x205F || k == 0x3000
  }

  predicate IsDigit(c: char) {
    '0' <= c <= '9'
  }

  function TrimLeft(s: string): (r: string)
    ensures |r| <= |s| && r == s[|s| - |r|..]
    ensures r == [] || !IsSpace(r[0])
  {
    if |s| > 0 && IsSpace(s[0]) then TrimLeft(s[1..]) else s
  }

  function TrimRight(s: string): (r: string)
    ensures |r| <= |s| && r == s[..|r|]
    ensures r == [] || !IsSpace(r[|r| - 1])
  {
    if |s| > 0 && IsSpace(s[|s| - 1]) then TrimRight(s[..|s| - 1]) else s
  }

  /** Python's str.strip(): white space removed from both ends. */
  function Strip(s: string): string {
    TrimRight(TrimLeft(s))
  }

  /**
   * A run of ASCII digits in which single underscores may separate digits,
   * the form Python's int() accepts after the sign.
   */
  predicate WellGrouped(s: string) {
    && |s| > 0
    && IsDigit(s[0])
    && IsDigit(s[|s| - 1])
    && (forall i :: 0 <= i < |s| ==> IsDigit(s[i]) || s[i] == '_')
    && (forall i :: 0 <= i < |s| - 1 ==> s[i] == '_' ==> s[i + 1] != '_')
  }

  /** The number a run of digits and underscores denotes, underscores ignored. */
  function DigitsValue(s: string): nat
    requires forall i :: 0 <= i < |s| ==> IsDigit(s[i]) || s[i] == '_'
  {
    if s == [] then 0
    else
      var last := s[|s| - 1];
      assert IsDigit(last) || last == '_';
      if last == '_' then DigitsValue(s[..|s| - 1])
      else 10 * DigitsValue(s[..|s| - 1]) + (last as int - '0' as int)
  }

  /** Python's int(s) for a string s in base 10; None where it raises ValueError. */
  function ParseInt(s: string): Option<int> {
    ParseSigned(Strip(s))
  }

  /** An optional sign followed by a well-grouped run of digits. */
  function ParseSigned(t: string): Option<int> {
    if |t| > 0 && (t[0] == '+' || t[0] == '-') then
      var digits := t[1..];
      if WellGrouped(digits) then
        var magnitude: int := DigitsValue(digits);
        Some(if t[0] == '-' then -magnitude else magnitude)
      else None
    else if WellGrouped(t) then Some(DigitsValue(t))
    else None
  }

  function DigitChar(d: nat): (c: char)
    requires d < 10
    ensures IsDigit(c) && c as int - '0' as int == d
  {
    ('0' as int + d) as char
  }

  function NatToDecimal(n: nat): (s: string)
    ensures |s| > 0
    ensures forall i :: 0 <= i < |s| ==> IsDigit(s[i])
  {
    if n < 10 then [DigitChar(n)] else NatToDecimal(n / 10) + [DigitChar(n % 10)]
  }

  /** Python's str() of an int: an optional minus sign, then decimal digits. */
  function IntToString(n: int): string {
    if n < 0 then "-" + NatToDecimal(-n) else NatToDecimal(n)
  }

  lemma {:induction false} DigitsValueOfDecimal(n: nat)
    ensures DigitsValue(NatToDecimal(n)) == n
  {
    var s := NatToDecimal(n);
    if n >= 10 {
      DigitsValueOfDecimal(n / 10);
      assert s[..|s| - 1] == NatToDecimal(n / 10);
    }
  }

  lemma StripUnchanged(t: string)
    requires |t| > 0 && !IsSpace(t[0]) && !IsSpace(t[|t| - 1])
    ensures Strip(t) == t
  {
    assert TrimLeft(t) == t;
  }

  /** Reading back what str() wrote gives the same integer. */
  lemma {:induction false} ParseIntOfIntToString(n: int)
    ensures ParseInt(IntToString(n)) == Some(n)
  {
    var t := IntToString(n);
    var digits := NatToDecimal(if n < 0 then -n else n);
    DigitsValueOfDecimal(if n < 0 then -n else n);
    assert WellGrouped(digits);
    if n < 0 {
      assert t[1..] == digits;
      assert t[|t| - 1] == digits[|digits| - 1];
    }
    StripUnchanged(t);
  }

  /** White space around the digits does not change what int() reads. */
  lemma ParseIntIgnoresSurroundingSpace(s: string, c: char)
    requires IsSpace(c)
    ensures ParseInt([c] + s) == ParseInt(s) == ParseInt(s + [c])
  {
    assert ([c] + s)[1..] == s;
    assert Strip([c] + s) == Strip(s);
    TrimLeftOfSpaceSuffix(s, c);
    assert Strip(s + [c]) == Strip(s);
  }

  lemma {:induction false} TrimLeftOfSpaceSuffix(s: string, c: char)
    requires IsSpace(c)
    ensures TrimRight(TrimLeft(s + [c])) == TrimRight(TrimLeft(s))
  {
    if |s| > 0 && IsSpace(s[0]) {
      assert (s + [c])[1..] == s[1..] + [c];
      TrimLeftOfSpaceSuffix(s[1..], c);
    } else if |s| == 0 {
      assert TrimLeft([c]) == TrimLeft([]);
    } else {
      var t := s + [c];
      assert t[..|t| - 1] == s;
    }
  }

  /**
   * Python's int(v); None where it raises TypeError or ValueError. A date
   * string is read like any other string: the basic ISO form "20240101" is
   * both a date and an integer literal.
   */
  function PyInt(v: Value): (r: Option<int>)
    ensures v.Num? ==> r == Some(v.n)
    ensures v.Bool? ==> r == Some(if v.b then 1 else 0)
    ensures v.Str? ==> r == ParseInt(v.s)
    ensures v.DateStr? ==> r == ParseInt(v.text)
    ensures v.Null? || v.Compound? ==> r == None
  {
    match v
    case Null => None
    case Bool(b) => Some(if b then 1 else 0)
    case Num(n) => Some(n)
    case Str(s) => ParseInt(s)
    case DateStr(text, _) => ParseInt(text)
    case Compound(_, _) => None
  }

  /** A number sent as its decimal string converts to the same number. */
  lemma PyIntOfNumericString(n: int)
    ensures PyInt(Str(IntToString(n))) == Some(n)
  {
    ParseIntOfIntToString(n);
  }

  // ---------------------------------------------------------------------
  // Field conversions applied when a record is saved
  // ---------------------------------------------------------------------

  /** An integer field: int(value); None fails the NOT NULL constraint. */
  function IntegerField(v: Value): (r: Result<int, Error>)
    ensures r.Ok? <==> PyInt(v).Some?
    ensures r.Ok? ==> r.value == PyInt(v).value
    ensures r.Err? ==> r.error == Rejected
  {
    match PyInt(v)
    case Some(n) => Ok(n)
    case None => Err(Rejected)
  }

  /**
   * An integer column reads back the integer it is sent as a number, as a
   * boolean's 1 or 0, or as its decimal string.
   */
  lemma IntegerFieldOfDecimal(n: int)
    ensures IntegerField(Num(n)) == Ok(n)
    ensures IntegerField(Str(IntToString(n))) == Ok(n)
    ensures IntegerField(Bool(n != 0)) == Ok(n) <==> n == 0 || n == 1
  {
    PyIntOfNumericString(n);
  }

  /**
   * A boolean field: True, False, 1, 0, "t", "True", "1", "f", "False", "0";
   * anything else, None included, is rejected.
   */
  function BooleanField(v: Value): (r: Result<bool, Error>)
    ensures r.Ok? && !v.Str? ==> r.value == Truthy(v)
    ensures v.Bool? ==> r == Ok(v.b)
    ensures v.Num? ==> (r.Ok? <==> v.n == 0 || v.n == 1)
    ensures v.Str? ==> (r.Ok? <==> v.s in {"t", "True", "1", "f", "False", "0"})
    ensures v.Str? && r.Ok? ==> r.value == (v.s in {"t", "True", "1"})
    ensures v.Null? || v.Compound? || v.DateStr? ==> r.Err?
  {
    match v
    case Bool(b) => Ok(b)
    case Num(n) => if n == 1 then Ok(true) else if n == 0 then Ok(false) else Err(Rejected)
    case Str(s) =>
      if s == "t" || s == "True" || s == "1" then Ok(true)
      else if s == "f" || s == "False" || s == "0" then Ok(false)
      else Err(Rejected)
    case _ => Err(Rejected)
  }

  /**
   * Python's str() of a value that is not None; a number or a boolean
   * written this way reads back as the same value.
   */
  function PyStr(v: Value): (s: string)
    requires !v.Null?
    ensures v.Num? ==> ParseInt(s) == Some(v.n)
    ensures v.Bool? ==> BooleanField(Str(s)) == Ok(v.b)
  {
    match v
    case Bool(b) => if b then "True" else "False"
    case Num(n) => ParseIntOfIntToString(n); IntToString(n)
    case Str(s) => s
    case DateStr(text, _) => text
    case Compound(_, repr) => repr
  }

  /** A string that can occur is true for Python exactly when its text is not empty. */
  lemma TruthyOfText(v: Value)
    requires Occurs(v) && (v.Str? || v.DateStr?)
    ensures Truthy(v) <==> PyStr(v) != ""
  {
  }

  /**
   * A non-null text field: a string is stored as it is and any other value
   * as its str(); None fails the NOT NULL constraint.
   */
  function TextField(v: Value): (r: Result<string, Error>)
    ensures r.Ok? <==> !v.Null?
    ensures r.Err? ==> r.error == Rejected
    ensures v.Str? ==> r == Ok(v.s)
    ensures v.DateStr? ==> r == Ok(v.text)
    ensures v.Num? ==> r.Ok? && ParseInt(r.value) == Some(v.n)
    ensures v.Bool? ==> r.Ok? && BooleanField(Str(r.value)) == Ok(v.b)
  {
    if v.Null? then Err(Rejected) else Ok(PyStr(v))
  }

  /** A nullable text field: None is stored as null, any other value as for a text field. */
  function NullableTextField(v: Value): (r: Option<string>)
    ensures v.Null? <==> r.None?
    ensures !v.Null? ==> r == Some(TextField(v).value)
  {
    if v.Null? then None else Some(PyStr(v))
  }

  /** A non-null date field: only a parseable date string is stored. */
  function DateField(v: Value): (r: Result<Date, Error>)
    ensures r.Ok? <==> v.DateStr?
    ensures r.Ok? ==> r.value == v.d
  {
    if v.DateStr? then Ok(v.d) else Err(Rejected)
  }

  /** A nullable date field: a parseable date string, or None. */
  function NullableDateField(v: Value): (r: Result<Option<Date>, Error>)
    ensures r.Ok? <==> v.DateStr? || v.Null?
    ensures r.Ok? ==> r.value == if v.DateStr? then Some(v.d) else None
  {
    match v
    case DateStr(_, d) => Ok(Some(d))
    case Null => Ok(None)
    case _ => Err(Rejected)
  }
}
