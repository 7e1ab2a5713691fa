/**
 * The dynamically typed values a YAML configuration file loads into, the
 * exceptions the modelled code raises, and the Python built-in conversions
 * (`int()`, `float()`, `str()`, `bool()`) the configuration accessors apply.
 */
module PyValue {
  import opened Wrappers

  /** A value as `yaml.safe_load` hands it over; a Python float is its exact real value. */
  datatype Value =
    | PyNone
    | PyBool(b: bool)
    | PyInt(i: int)
    | PyFloat(r: real)
    | PyStr(s: string)
    | PyList(items: seq<Value>)
    | PyDict(entries: map<string, Value>)

  /** The exceptions raised by the modelled code, each with the text Python would attach. */
  datatype Error =
    | MissingConfig(key: string)          // kedro's MissingConfigException, naming the dotted key
    | ValueError(message: string)
    | TypeError(message: string)
    | AttributeError(message: string)
    | Exception(message: string)

  /** The text an exception carries. */
  function Message(e: Error): string {
    match e
    case MissingConfig(key) => "Missing required configuration: '" + key + "'."
    case ValueError(m) => m
    case TypeError(m) => m
    case AttributeError(m) => m
    case Exception(m) => m
  }

  /** Python's `type(v).__name__`. */
  function TypeName(v: Value): string {
    match v
    case PyNone => "NoneType"
    case PyBool(_) => "bool"
    case PyInt(_) => "int"
    case PyFloat(_) => "float"
    case PyStr(_) => "str"
    case PyList(_) => "list"
    case PyDict(_) => "dict"
  }

  /** The AttributeError raised when `attribute` is looked up on a value that lacks it. */
  function NoAttribute(v: Value, attribute: string): Error {
    AttributeError("'" + TypeName(v) + "' object has no attribute '" + attribute + "'")
  }

  /** The TypeError a conversion raises for an argument of the wrong type. */
  function WrongArgumentType(conversion: string, expected: string, v: Value): Error {
    TypeError(conversion + "() argument must be " + expected + ", not '" + TypeName(v) + "'")
  }

  /** The ValueError `int()` raises for a string that is not a literal. */
  function InvalidLiteral(what: string, s: string): Error {
    ValueError("invalid literal for " + what + ": " + Quoted(s))
  }

  /** `repr` of a string, without Python's escaping of quotes and control characters. */
  function Quoted(s: string): string {
    "'" + s + "'"
  }

  // ---------------------------------------------------------------------------
  // Decimal digits

  predicate IsDigit(c: char) {
    '0' <= c <= '9'
  }

  predicate AllDigits(s: string) {
    forall i :: 0 <= i < |s| ==> IsDigit(s[i])
  }

  function DigitValue(c: char): nat
    requires IsDigit(c)
  {
    c as int - '0' as int
  }

  function DigitChar(d: nat): (c: char)
    requires d < 10
    ensures IsDigit(c) && DigitValue(c) == d
  {
    ('0' as int + d) as char
  }

  /** The number a string of decimal digits denotes (most significant digit first). */
  function DigitsValue(s: string): nat
    requires AllDigits(s)
  {
    if s == [] then 0 else DigitsValue(s[..|s| - 1]) * 10 + DigitValue(s[|s| - 1])
  }

  function Pow10(n: nat): (p: nat)
    ensures p >= 1
  {
    if n == 0 then 1 else 10 * Pow10(n - 1)
  }

  /** The shortest decimal rendering of a natural number, as `str` gives it. */
  function NatToString(n: nat): (s: string)
    ensures |s| > 0 && AllDigits(s)
    ensures DigitsValue(s) == n
  {
    if n < 10 then
      [DigitChar(n)]
    else
      var s := NatToString(n / 10) + [DigitChar(n % 10)];
      assert s[..|s| - 1] == NatToString(n / 10);
      s
  }

  /** `str(n)` for a Python int. */
  function IntToString(n: int): string {
    if n < 0 then "-" + NatToString(-n) else NatToString(n)
  }

  /** `str(n)` begins with a minus sign or a digit, never a letter. */
  lemma SignOrDigitFirst(n: int)
    ensures |IntToString(n)| > 0 && (IntToString(n)[0] == '-' || IsDigit(IntToString(n)[0]))
  {
    if n >= 0 {
      assert IsDigit(NatToString(n)[0]);
    }
  }

  /** A leading `+` or `-`, if present, split off: (is it negative, the rest). */
  function SplitSign(s: string): (bool, string) {
    if |s| > 0 && (s[0] == '-' || s[0] == '+') then (s[0] == '-', s[1..]) else (false, s)
  }

  /** The base-10 literals `int(s)` accepts: an optional sign and one or more digits. */
  function ParseInt(s: string): Option<int> {
    var body := SplitSign(s).1;
    if |body| > 0 && AllDigits(body) then
      Some(if SplitSign(s).0 then -(DigitsValue(body) as int) else DigitsValue(body))
    else
      None
  }

  /** The first position of `c` in `s`. */
  function IndexOf(s: string, c: char): (r: Option<nat>)
    ensures r.Some? ==> r.value < |s| && s[r.value] == c && c !in s[..r.value]
    ensures r.None? ==> c !in s
  {
    if s == [] then None
    else if s[0] == c then Some(0)
    else match IndexOf(s[1..], c)
         case None => None
         case Some(k) => assert s[1..][..k] == s[1..k + 1]; Some(k + 1)
  }

  /** The value of the digits after a decimal point. */
  function FractionValue(fraction: string): real
    requires AllDigits(fraction)
  {
    DigitsValue(fraction) as real / Pow10(|fraction|) as real
  }

  /** Digits before and after a decimal point, read as a number; at least one digit overall. */
  function DecimalParts(whole: string, fraction: string): Option<real> {
    if |whole| + |fraction| > 0 && AllDigits(whole) && AllDigits(fraction) then
      Some(DigitsValue(whole) as real + FractionValue(fraction))
    else
      None
  }

  /** The unsigned decimal literals: digits, optionally a `.` and more digits. */
  function DecimalMagnitude(body: string): Option<real> {
    match IndexOf(body, '.')
    case None => if |body| > 0 && AllDigits(body) then Some(DigitsValue(body) as real) else None
    case Some(k) => DecimalParts(body[..k], body[k + 1..])
  }

  /** The decimal literals `float(s)` accepts: an optional sign, then an unsigned decimal. */
  function ParseDecimal(s: string): Option<real> {
    match DecimalMagnitude(SplitSign(s).1)
    case None => None
    case Some(x) => Some(if SplitSign(s).0 then -x else x)
  }

  // ---------------------------------------------------------------------------
  // The built-in conversions

  /** `int(r)` for a float: truncation toward zero, unlike Dafny's `Floor`. */
  function Truncate(r: real): (t: int)
    ensures 0.0 <= r ==> 0 <= t && t as real <= r < t as real + 1.0
    ensures r < 0.0 ==> t <= 0 && t as real - 1.0 < r <= t as real
  {
    if r >= 0.0 then r.Floor else -((-r).Floor)
  }

  /** `bool(v)`: Python truthiness; exactly None, false, zero and the empty containers are false. */
  function Truth(v: Value): (r: bool)
    ensures !r <==> v in {PyNone, PyBool(false), PyInt(0), PyFloat(0.0), PyStr(""), PyList([]), PyDict(map[])}
  {
    match v
    case PyNone => false
    case PyBool(b) => b
    case PyInt(i) => i != 0
    case PyFloat(r) => r != 0.0
    case PyStr(s) => |s| > 0
    case PyList(items) => |items| > 0
    case PyDict(entries) => |entries| > 0
  }

  /** `int(v)`. */
  function IntOf(v: Value): (r: Result<int, Error>)
    ensures r.Success? <==> (v.PyBool? || v.PyInt? || v.PyFloat? || (v.PyStr? && ParseInt(v.s).Some?))
    ensures v.PyInt? ==> r == Success(v.i)
    ensures v.PyBool? ==> r == Success(if v.b then 1 else 0)
    ensures v.PyFloat? ==> r == Success(Truncate(v.r))
    ensures r.Failure? ==> (r.error.TypeError? <==> !v.PyStr?) && (r.error.ValueError? <==> v.PyStr?)
  {
    match v
    case PyBool(b) => Success(if b then 1 else 0)
    case PyInt(i) => Success(i)
    case PyFloat(r) => Success(Truncate(r))
    case PyStr(s) =>
      (match ParseInt(s)
       case Some(n) => Success(n)
       case None => Failure(InvalidLiteral("int() with base 10", s)))
    case _ => Failure(WrongArgumentType("int", "a string, a bytes-like object or a real number", v))
  }

  /** `float(v)`. */
  function FloatOf(v: Value): (r: Result<real, Error>)
    ensures r.Success? <==> (v.PyBool? || v.PyInt? || v.PyFloat? || (v.PyStr? && ParseDecimal(v.s).Some?))
    ensures v.PyInt? ==> r == Success(v.i as real)
    ensures v.PyFloat? ==> r == Success(v.r)
    ensures r.Failure? ==> (r.error.TypeError? <==> !v.PyStr?) && (r.error.ValueError? <==> v.PyStr?)
  {
    match v
    case PyBool(b) => Success(if b then 1.0 else 0.0)
    case PyInt(i) => Success(i as real)
    case PyFloat(r) => Success(r)
    case PyStr(s) =>
      (match ParseDecimal(s)
       case Some(x) => Success(x)
       case None => Failure(ValueError("could not convert string to float: " + Quoted(s))))
    case _ => Failure(WrongArgumentType("float", "a string or a real number", v))
  }

  /**
   * `str(v)`; a non-integral float, a list and a dict are rendered as a fixed
   * placeholder. A string is its own rendering, and no other value renders as
   * a merge strategy's name.
   */
  function StrOf(v: Value): (r: string)
    ensures v.PyStr? ==> r == v.s
    ensures v.PyNone? ==> r == "None"
    ensures r == "none" || r == "full" ==> v == PyStr(r)
  {
    match v
    case PyNone => "None"
    case PyBool(b) => if b then "True" else "False"
    case PyInt(i) => SignOrDigitFirst(i); IntToString(i)
    case PyFloat(r) =>
      if r == r.Floor as real then
        SignOrDigitFirst(r.Floor);
        assert (IntToString(r.Floor) + ".0")[0] == IntToString(r.Floor)[0];
        IntToString(r.Floor) + ".0"
      else "<float>"
    case PyStr(s) => s
    case PyList(_) => "<list>"
    case PyDict(_) => "<dict>"
  }

  // ---------------------------------------------------------------------------
  // Round trips between the conversions

  lemma NatToStringHasNoSign(n: nat)
    ensures NatToString(n)[0] != '-' && NatToString(n)[0] != '+' && '.' !in NatToString(n)
  {
    assert IsDigit(NatToString(n)[0]);
  }

  /** `int(str(n)) == n` for every Python int. */
  lemma IntRoundTrip(n: int)
    ensures IntOf(PyStr(StrOf(PyInt(n)))) == Success(n)
  {
    var s := IntToString(n);
    if n < 0 {
      assert SplitSign(s) == (true, NatToString(-n));
    } else {
      NatToStringHasNoSign(n);
      assert SplitSign(s) == (false, NatToString(n));
    }
  }

  /** The one `.` of `digits + ".0"` is the one after the digits. */
  lemma PointAfterDigits(digits: string)
    requires AllDigits(digits)
    ensures IndexOf(digits + ".0", '.') == Some(|digits|)
  {
    assert (digits + ".0")[|digits|] == '.';
  }

  lemma ZeroFraction()
    ensures AllDigits("0") && FractionValue("0") == 0.0
  {
    assert "0"[..0] == "";
    assert DigitsValue("0") == 0;
    assert Pow10(|"0"|) == 10;
  }

  /** `float` reads `digits + ".0"` as the number the digits denote. */
  lemma WholeDecimal(digits: string)
    requires |digits| > 0 && AllDigits(digits)
    ensures DecimalMagnitude(digits + ".0") == Some(DigitsValue(digits) as real)
  {
    var body := digits + ".0";
    calc {
      DecimalMagnitude(body);
      == { PointAfterDigits(digits); }
      DecimalParts(body[..|digits|], body[|digits| + 1..]);
      == { assert body[..|digits|] == digits && body[|digits| + 1..] == "0"; }
      DecimalParts(digits, "0");
      == { ZeroFraction(); }
      Some(DigitsValue(digits) as real);
    }
  }

  /** `float` reads the rendering of a whole float back as that number. */
  lemma ParseWholeFloat(n: int)
    ensures ParseDecimal(IntToString(n) + ".0") == Some(n as real)
  {
    var m: nat := if n < 0 then -n else n;
    var body := NatToString(m) + ".0";
    WholeDecimal(NatToString(m));
    if n < 0 {
      assert IntToString(n) + ".0" == "-" + body;
      assert SplitSign("-" + body) == (true, body);
    } else {
      assert IsDigit(body[0]);
      assert SplitSign(body) == (false, body);
    }
  }

  /** `float(str(x)) == x` for every float holding a whole number. */
  lemma FloatRoundTripIntegral(n: int)
    ensures FloatOf(PyStr(StrOf(PyFloat(n as real)))) == Success(n as real)
  {
    assert (n as real).Floor == n;
    assert StrOf(PyFloat(n as real)) == IntToString(n) + ".0";
    ParseWholeFloat(n);
  }
}
