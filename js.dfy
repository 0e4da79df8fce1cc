/**
 * The few pieces of JavaScript value semantics that the question route and the
 * two pages depend on, stated over an abstract JSON value (anything `JSON.parse`
 * can produce). JSON parsing itself and the string-to-number grammar are not
 * modelled: callers receive them as function parameters.
 */
module Js {
  import opened Wrappers

  /**
   * A JSON value. A number is the double JSON.parse produced, as a real: a literal too small
   * for a double is given as `JNum(0.0)` (so "1e-400" counts as 0, not as a small positive
   * value), and -0 is 0. A literal too large for a double parses to Infinity; it is given as a
   * large finite value, which behaves the same in every operation here (the [1, 5] clamp,
   * `typeof`, truthiness).
   */
  datatype Json =
    | JNull
    | JBool(b: bool)
    | JNum(n: real)
    | JStr(s: string)
    | JArr(items: seq<Json>)
    | JObj(fields: map<string, Json>)

  /** JavaScript truthiness: null, false, 0 and "" are falsy, every array and object is truthy. */
  predicate Truthy(v: Json)
    ensures Truthy(v) <==> v !in {JNull, JBool(false), JNum(0.0), JStr("")}
  {
    match v
    case JNull => false
    case JBool(b) => b
    case JNum(n) => n != 0.0
    case JStr(s) => s != ""
    case JArr(_) => true
    case JObj(_) => true
  }

  // ---------------------------------------------------------------------------
  // Decimal digits: `${n}` for a non-negative integer, and canonical array-index keys

  function Digit(d: nat): (c: char)
    requires d < 10
    ensures '0' <= c <= '9'
    ensures c as int - '0' as int == d
  {
    (48 + d) as char
  }

  predicate AllDigits(s: string) {
    forall i | 0 <= i < |s| :: '0' <= s[i] <= '9'
  }

  /** The decimal spelling of `n`, as a template literal prints an integer. */
  function Decimal(n: nat): (s: string)
    ensures |s| > 0 && AllDigits(s)
    ensures s[0] == '0' <==> n == 0
    ensures n == 0 ==> s == "0"
  {
    if n < 10 then [Digit(n)] else Decimal(n / 10) + [Digit(n % 10)]
  }

  /** The value of a string of decimal digits, most significant first. */
  function DigitsValue(s: string): nat
    requires AllDigits(s)
  {
    if s == [] then 0 else DigitsValue(s[..|s| - 1]) * 10 + (s[|s| - 1] as int - '0' as int)
  }

  lemma {:induction false} DecimalRoundTrip(n: nat)
    ensures DigitsValue(Decimal(n)) == n
  {
    if n >= 10 {
      var d := Decimal(n / 10);
      assert Decimal(n) == d + [Digit(n % 10)];
      assert (d + [Digit(n % 10)])[..|d|] == d;
      DecimalRoundTrip(n / 10);
    }
  }

  lemma DecimalInjective(a: nat, b: nat)
    ensures Decimal(a) == Decimal(b) ==> a == b
  {
    DecimalRoundTrip(a);
    DecimalRoundTrip(b);
  }

  /** The array index a property key names: a non-empty digit string without a leading zero. */
  function CanonicalIndex(key: string): (r: Option<nat>)
    ensures r.Some? ==> Decimal(r.value) == key
  {
    if key != [] && AllDigits(key) && (key[0] != '0' || |key| == 1) then
      DecimalOfDigits(key);
      Some(DigitsValue(key))
    else None
  }

  lemma {:induction false} DecimalOfDigits(key: string)
    requires key != [] && AllDigits(key) && (key[0] != '0' || |key| == 1)
    ensures Decimal(DigitsValue(key)) == key
  {
    var init, last := key[..|key| - 1], key[|key| - 1];
    var d := last as int - '0' as int;
    assert 0 <= d < 10;
    assert Digit(d) == last;
    assert key == init + [last];
    if init != [] {
      assert init[0] == key[0] != '0';
      DecimalOfDigits(init);
      var m := DigitsValue(init);
      assert Decimal(m)[0] != '0';
      LastDigit(m, d);
    }
  }

  /** Splitting `m * 10 + d` back into `m` and its last digit `d`. */
  lemma LastDigit(m: nat, d: nat)
    requires m > 0 && d < 10
    ensures (m * 10 + d) / 10 == m && (m * 10 + d) % 10 == d && m * 10 + d >= 10
  {
  }

  // ---------------------------------------------------------------------------
  // Property reads

  /**
   * `v[key]` on a receiver that is not null: the own property of an object, an
   * element or the length of an array or string, `undefined` (None) otherwise.
   * Inherited members (methods of Object.prototype, Array.prototype, String.prototype)
   * are not JSON values and are not modelled; no key read by this code names one.
   */
  function Get(v: Json, key: string): (r: Option<Json>)
    ensures v.JObj? ==> (r.Some? <==> key in v.fields)
    ensures r.Some? ==> v.JObj? || v.JArr? || v.JStr?
  {
    match v
    case JObj(fields) => if key in fields then Some(fields[key]) else None
    case JArr(items) =>
      if key == "length" then Some(JNum(|items| as real))
      else (match CanonicalIndex(key)
        case Some(i) => if i < |items| then Some(items[i]) else None
        case None => None)
    case JStr(s) =>
      if key == "length" then Some(JNum(|s| as real))
      else (match CanonicalIndex(key)
        case Some(i) => if i < |s| then Some(JStr([s[i]])) else None
        case None => None)
    case _ => None
  }

  /** One step `x?.key` of an optional chain: undefined or null short-circuits to undefined. */
  function Chain(x: Option<Json>, key: string): (r: Option<Json>)
    ensures (x.None? || x == Some(JNull)) ==> r.None?
  {
    match x
    case None => None
    case Some(JNull) => None
    case Some(v) => Get(v, key)
  }

  // ---------------------------------------------------------------------------
  // Number(v)

  datatype Num = Finite(x: real) | NaN | PosInf | NegInf

  /** The result of a conversion that may raise a TypeError. */
  datatype Outcome<T> = TypeError | Value(value: T)

  /**
   * Converting `v` to a primitive (for `Number(v)`, a template literal or a property key)
   * raises a TypeError. An object with its own `toString` key shadows
   * Object.prototype.toString with a value that is not callable, and `valueOf` gives back
   * the object itself, so no conversion method yields a primitive. An array converts by
   * joining its elements, so it raises when an element at any depth does.
   */
  predicate ToStringThrows(v: Json) {
    match v
    case JObj(fields) => "toString" in fields
    case JArr(items) => exists i | 0 <= i < |items| :: ToStringThrows(items[i])
    case _ => false
  }

  /**
   * `Number(v)` on a JSON value. A string goes through `fromString`, JavaScript's
   * StringToNumber, which is not modelled. An array converts through its string form:
   * `[]` is 0, `[x]` converts like `x` except that a boolean element spells "true" or
   * "false" (NaN) and null spells "" (0); two or more elements contain a comma (NaN).
   */
  function ToNumber(v: Json, fromString: string -> Num): (r: Outcome<Num>)
    ensures r.TypeError? <==> ToStringThrows(v)
    ensures v.JNum? ==> r == Value(Finite(v.n))
    ensures v.JObj? ==> r == if "toString" in v.fields then TypeError else Value(NaN)
    ensures v.JNull? ==> r == Value(Finite(0.0))
    ensures v.JBool? ==> r == Value(Finite(if v.b then 1.0 else 0.0))
    ensures v.JStr? ==> r == Value(fromString(v.s))
    ensures v.JArr? && !ToStringThrows(v) && |v.items| != 1 ==> r == Value(if v.items == [] then Finite(0.0) else NaN)
  {
    match v
    case JNull => Value(Finite(0.0))
    case JBool(b) => Value(Finite(if b then 1.0 else 0.0))
    case JNum(n) => Value(Finite(n))
    case JStr(s) => Value(fromString(s))
    case JObj(fields) => if "toString" in fields then TypeError else Value(NaN)
    case JArr(items) =>
      if ToStringThrows(v) then TypeError
      else if |items| == 0 then Value(Finite(0.0))
      else if |items| > 1 then Value(NaN)
      else if items[0].JBool? then Value(NaN)
      else ToNumber(items[0], fromString)
  }

  // ---------------------------------------------------------------------------
  // Math.floor(Math.random() * n)

  /** The index `Math.floor(roll * n)` picks, for a roll in [0, 1) as Math.random returns. */
  function PickIndex(roll: real, n: nat): (i: nat)
    requires 0.0 <= roll < 1.0 && n > 0
    ensures i < n
    ensures i as real <= roll * n as real < i as real + 1.0
  {
    var x := roll * n as real;
    ScaledRollBelow(roll, n as real);
    FloorBelow(x, n);
    x.Floor
  }

  lemma FloorBelow(x: real, n: nat)
    requires 0.0 <= x < n as real
    ensures 0 <= x.Floor < n
  {
  }

  lemma ScaledRollBelow(roll: real, m: real)
    requires 0.0 <= roll < 1.0 && m > 0.0
    ensures 0.0 <= roll * m < m
  {
    assert (1.0 - roll) * m > 0.0;
  }

  // ---------------------------------------------------------------------------
  // String.prototype.trim

  /** WhiteSpace and LineTerminator code points of ECMAScript (section 12.2 and 12.3 of ECMA-262). */
  predicate IsSpace(c: char) {
    || c in {'\t', '\U{B}', '\U{C}', ' ', '\U{A0}', '\U{FEFF}', '\n', '\r', '\U{2028}', '\U{2029}',
             '\U{1680}', '\U{202F}', '\U{205F}', '\U{3000}'}
    || '\U{2000}' <= c <= '\U{200A}'
  }

  function TrimStart(s: string): (r: string)
    ensures |r| <= |s| && r == s[|s| - |r|..]
    ensures forall i | 0 <= i < |s| - |r| :: IsSpace(s[i])
    ensures r == [] || !IsSpace(r[0])
  {
    if |s| > 0 && IsSpace(s[0]) then TrimStart(s[1..]) else s
  }

  function TrimEnd(s: string): (r: string)
    ensures |r| <= |s| && r == s[..|r|]
    ensures forall i | |r| <= i < |s| :: IsSpace(s[i])
    ensures r == [] || !IsSpace(r[|r| - 1])
  {
    if |s| > 0 && IsSpace(s[|s| - 1]) then TrimEnd(s[..|s| - 1]) else s
  }

  /**
   * `r` is `s` with its first `k` characters and everything after `k + |r|` removed, and
   * every removed character is white space.
   */
  predicate StripsSpaceAt(s: string, r: string, k: nat) {
    && k + |r| <= |s| && r == s[k..][..|r|]
    && (forall i | 0 <= i < k :: IsSpace(s[i]))
    && (forall i | k + |r| <= i < |s| :: IsSpace(s[i]))
  }

  /**
   * `s.trim()`: `s` without its leading and trailing white space. What is removed is white
   * space only, and what is kept neither starts nor ends with it, so the result is unique.
   */
  function Trim(s: string): (r: string)
    ensures exists k: nat :: StripsSpaceAt(s, r, k)
    ensures r == [] || (!IsSpace(r[0]) && !IsSpace(r[|r| - 1]))
    ensures r == [] <==> forall i | 0 <= i < |s| :: IsSpace(s[i])
  {
    TrimSlices(s);
    TrimEnd(TrimStart(s))
  }

  lemma TrimSlices(s: string)
    ensures StripsSpaceAt(s, TrimEnd(TrimStart(s)), |s| - |TrimStart(s)|)
    ensures TrimEnd(TrimStart(s)) == [] <==> forall i | 0 <= i < |s| :: IsSpace(s[i])
  {
    var t := TrimStart(s);
    var k, r := |s| - |t|, TrimEnd(t);
    assert t == s[k..];
    forall i | k + |r| <= i < |s| ensures IsSpace(s[i]) {
      assert s[i] == t[i - k];
    }
  }

  /** Trimming twice is trimming once. */
  lemma TrimIdempotent(s: string)
    ensures Trim(Trim(s)) == Trim(s)
  {
    var r := Trim(s);
    assert TrimStart(r) == r;
    assert TrimEnd(r) == r;
  }
}
