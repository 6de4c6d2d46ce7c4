/**
 * The Python values a settings file parses into, and the Python builtins the
 * setting loaders apply to them: truthiness, `int()`, `float()`, `==`,
 * subscripting, two-element unpacking, `dict.pop`, `str.strip` and `str.upper`.
 * Each builtin either returns a value or raises one of the errors below.
 */
module PyValues {
  import opened Wrappers

  /** A value read from a YAML settings file. */
  datatype Yaml =
    | YNone
    | YBool(b: bool)
    | YInt(i: int)
    | YReal(r: real)
    | YStr(s: string)
    | YList(items: seq<Yaml>)

  /** The builtin exceptions the loaders can run into. */
  datatype PyError = TypeError | ValueError | IndexError | KeyError | AttributeError | ZeroDivisionError

  /** A parsed settings mapping, as the loaders see it. */
  type Dict = map<string, Yaml>

  // ---------------------------------------------------------------- truthiness and numbers

  /** Python truthiness: `None`, `False`, zero, the empty string and the empty list are false. */
  predicate Truthy(v: Yaml)
  {
    match v
    case YNone => false
    case YBool(b) => b
    case YInt(i) => i != 0
    case YReal(r) => r != 0.0
    case YStr(s) => s != []
    case YList(items) => items != []
  }

  /** Booleans, integers and floats take part in arithmetic; `bool` is a subclass of `int`. */
  predicate IsNumber(v: Yaml)
  {
    v.YBool? || v.YInt? || v.YReal?
  }

  function NumValue(v: Yaml): real
    requires IsNumber(v)
  {
    match v
    case YBool(b) => if b then 1.0 else 0.0
    case YInt(i) => i as real
    case YReal(r) => r
  }

  /** Conversion of a float to an integer, which truncates toward zero. */
  function Trunc(r: real): (n: int)
    ensures 0.0 <= r ==> 0 <= n && n as real <= r < n as real + 1.0
    ensures r < 0.0 ==> n <= 0 && n as real - 1.0 < r <= n as real
  {
    if r >= 0.0 then r.Floor else -((-r).Floor)
  }

  // ---------------------------------------------------------------- strings

  /** The characters `str.isspace` accepts, which `str.strip()` removes. */
  predicate IsSpace(c: char)
  {
    var n := c as int;
    (9 <= n <= 13) || (28 <= n <= 32) || n == 0x85 || n == 0xA0 || n == 0x1680 ||
    (0x2000 <= n <= 0x200A) || n == 0x2028 || n == 0x2029 || n == 0x202F || n == 0x205F || n == 0x3000
  }

  /** The string without its leading whitespace. */
  function TrimStart(s: string): (r: string)
    ensures |r| <= |s|
    ensures r != [] ==> !IsSpace(r[0])
  {
    if s != [] && IsSpace(s[0]) then TrimStart(s[1..]) else s
  }

  /** The string without its trailing whitespace. */
  function TrimEnd(s: string): (r: string)
    ensures |r| <= |s| && r == s[..|r|]
    ensures r != [] ==> !IsSpace(r[|r| - 1])
  {
    if s != [] && IsSpace(s[|s| - 1]) then TrimEnd(s[..|s| - 1]) else s
  }

  /** Trimming the start drops a run of whitespace and keeps the rest. */
  lemma {:induction false} TrimStartDropsSpace(s: string)
    ensures TrimStart(s) == s[|s| - |TrimStart(s)|..]
    ensures forall k :: 0 <= k < |s| - |TrimStart(s)| ==> IsSpace(s[k])
  {
    if s != [] && IsSpace(s[0]) {
      TrimStartDropsSpace(s[1..]);
    }
  }

  /** Trimming the end drops a run of whitespace. */
  lemma {:induction false} TrimEndDropsSpace(s: string)
    ensures forall k :: |TrimEnd(s)| <= k < |s| ==> IsSpace(s[k])
  {
    if s != [] && IsSpace(s[|s| - 1]) {
      TrimEndDropsSpace(s[..|s| - 1]);
    }
  }

  /** `str.strip()`: the string without whitespace at either end. */
  function Strip(s: string): (r: string)
    ensures |r| <= |s|
    ensures r != [] ==> !IsSpace(r[0]) && !IsSpace(r[|r| - 1])
  {
    TrimEnd(TrimStart(s))
  }

  /** What `str.strip()` removes is whitespace at the two ends and nothing else. */
  lemma StripRemovesEnds(s: string)
    ensures exists i, j ::
              && 0 <= i <= j <= |s| && Strip(s) == s[i..j]
              && (forall k :: 0 <= k < i ==> IsSpace(s[k]))
              && (forall k :: j <= k < |s| ==> IsSpace(s[k]))
  {
    var t := TrimStart(s);
    var r := TrimEnd(t);
    TrimStartDropsSpace(s);
    TrimEndDropsSpace(t);
    var i := |s| - |t|;
    assert r == s[i..i + |r|];
    assert forall k :: i + |r| <= k < |s| ==> s[k] == t[k - i];
  }

  /** A string with no whitespace at either end is its own strip. */
  lemma StripTrimmed(s: string)
    requires s != [] ==> !IsSpace(s[0]) && !IsSpace(s[|s| - 1])
    ensures Strip(s) == s
  {
    if s != [] {
      assert TrimStart(s) == s;
      assert TrimEnd(s) == s;
    }
  }

  /** Stripping twice strips nothing more. */
  lemma StripIdempotent(s: string)
    ensures Strip(Strip(s)) == Strip(s)
  {
    StripTrimmed(Strip(s));
  }

  function UpperChar(c: char): char
  {
    if 'a' <= c <= 'z' then (c as int - 32) as char else c
  }

  /** `str.upper()` on ASCII letters. */
  function Upper(s: string): (r: string)
    ensures |r| == |s|
  {
    seq(|s|, k requires 0 <= k < |s| => UpperChar(s[k]))
  }

  /** Upper-casing leaves no lower-case letter, keeps every other character, and changes nothing when repeated. */
  lemma UpperCases(s: string)
    ensures forall k :: 0 <= k < |s| ==> !('a' <= Upper(s)[k] <= 'z')
    ensures forall k :: 0 <= k < |s| && !('a' <= s[k] <= 'z') ==> Upper(s)[k] == s[k]
    ensures Upper(Upper(s)) == Upper(s)
  {
  }

  // ---------------------------------------------------------------- decimal literals

  predicate IsDigit(c: char)
  {
    '0' <= c <= '9'
  }

  predicate AllDigits(s: string)
  {
    forall k :: 0 <= k < |s| ==> IsDigit(s[k])
  }

  /** The number a string of decimal digits denotes. */
  function DigitsValue(s: string): nat
    requires AllDigits(s)
  {
    if s == [] then 0 else DigitsValue(s[..|s| - 1]) * 10 + (s[|s| - 1] as int - '0' as int)
  }

  /** The decimal digits of a natural number, without leading zeros. */
  function ShowNat(n: nat): (r: string)
    ensures r != [] && AllDigits(r)
  {
    var d := ('0' as int + n % 10) as char;
    if n < 10 then [d] else ShowNat(n / 10) + [d]
  }

  /** The decimal rendering of an integer, as `str()` writes it. */
  function Show(n: int): (r: string)
    ensures r != [] && !IsSpace(r[0]) && !IsSpace(r[|r| - 1])
  {
    if n < 0 then "-" + ShowNat(-n) else ShowNat(n)
  }

  /** Reading back the digits of a natural number gives the number. */
  lemma {:induction false} ShowNatValue(n: nat)
    ensures DigitsValue(ShowNat(n)) == n
  {
    var d := ('0' as int + n % 10) as char;
    if n >= 10 {
      var init := ShowNat(n / 10);
      ShowNatValue(n / 10);
      assert (init + [d])[..|init + [d]| - 1] == init;
    }
  }

  /**
   * The integer a sign and a run of decimal digits denote, or nothing. The
   * string is stripped first, as `int()` does.
   */
  function ParseInt(s: string): Option<int>
  {
    var t := Strip(s);
    if t != [] && (t[0] == '-' || t[0] == '+') then
      if |t| > 1 && AllDigits(t[1..]) then
        Some(if t[0] == '-' then -(DigitsValue(t[1..]) as int) else DigitsValue(t[1..]))
      else None
    else if t != [] && AllDigits(t) then Some(DigitsValue(t))
    else None
  }

  /** `int()` reads back what `str()` writes. */
  lemma ParseIntShow(n: int)
    ensures ParseInt(Show(n)) == Some(n)
  {
    StripTrimmed(Show(n));
    if n < 0 {
      assert Show(n)[1..] == ShowNat(-n);
      ShowNatValue(-n);
    } else {
      ShowNatValue(n);
    }
  }

  /** The position of the first `.` in a string, if any. */
  function DotIndex(s: string): (r: Option<nat>)
    ensures r.Some? ==> r.value < |s| && s[r.value] == '.' && forall k :: 0 <= k < r.value ==> s[k] != '.'
    ensures r.None? ==> forall k :: 0 <= k < |s| ==> s[k] != '.'
  {
    if s == [] then None
    else if s[0] == '.' then Some(0)
    else match DotIndex(s[1..])
      case None => None
      case Some(k) => Some(k + 1)
  }

  function Pow10(n: nat): (r: nat)
    ensures r > 0
  {
    if n == 0 then 1 else 10 * Pow10(n - 1)
  }

  /** An unsigned decimal literal: digits, optionally a point and more digits, with at least one digit. */
  function ParseUnsignedDecimal(s: string): Option<real>
  {
    match DotIndex(s)
    case None => if s != [] && AllDigits(s) then Some(DigitsValue(s) as real) else None
    case Some(k) =>
      var whole := s[..k];
      var frac := s[k + 1..];
      if |whole| + |frac| > 0 && AllDigits(whole) && AllDigits(frac) then
        Some(DigitsValue(whole) as real + DigitsValue(frac) as real / Pow10(|frac|) as real)
      else None
  }

  /** The number a signed decimal literal denotes, or nothing; the string is stripped first, as `float()` does. */
  function ParseDecimal(s: string): Option<real>
  {
    var t := Strip(s);
    if t != [] && (t[0] == '-' || t[0] == '+') then
      match ParseUnsignedDecimal(t[1..])
      case None => None
      case Some(x) => Some(if t[0] == '-' then -x else x)
    else ParseUnsignedDecimal(t)
  }

  /** Every integer literal `int()` accepts, `float()` accepts with the same value. */
  lemma ParseDecimalOfInt(s: string)
    requires ParseInt(s).Some?
    ensures ParseDecimal(s) == Some(ParseInt(s).value as real)
  {
    var t := Strip(s);
    if t[0] == '-' || t[0] == '+' {
      assert DotIndex(t[1..]).None?;
    } else {
      assert DotIndex(t).None?;
    }
  }

  // ---------------------------------------------------------------- conversions

  /** `int(v)`: numbers convert (floats truncate), strings must be integer literals, anything else is a type error. */
  function ToInt(v: Yaml): (r: Result<int, PyError>)
    ensures r.Err? ==> r.error == (if v.YStr? then ValueError else TypeError)
  {
    match v
    case YBool(b) => Ok(if b then 1 else 0)
    case YInt(i) => Ok(i)
    case YReal(x) => Ok(Trunc(x))
    case YStr(s) => (match ParseInt(s) case Some(n) => Ok(n) case None => Err(ValueError))
    case _ => Err(TypeError)
  }

  /** `float(v)`: numbers convert exactly, strings must be decimal literals, anything else is a type error. */
  function ToReal(v: Yaml): (r: Result<real, PyError>)
    ensures r.Err? ==> r.error == (if v.YStr? then ValueError else TypeError)
    ensures IsNumber(v) ==> r == Ok(NumValue(v))
  {
    match v
    case YStr(s) => (match ParseDecimal(s) case Some(x) => Ok(x) case None => Err(ValueError))
    case _ => if IsNumber(v) then Ok(NumValue(v)) else Err(TypeError)
  }

  /** Wherever `int()` succeeds on something other than a float, `float()` succeeds with the same value. */
  lemma ToRealOfInt(v: Yaml)
    requires ToInt(v).Ok? && !v.YReal?
    ensures ToReal(v) == Ok(ToInt(v).value as real)
  {
    if v.YStr? {
      ParseDecimalOfInt(v.s);
    }
  }

  /** `int(str(n))` is `n`. */
  lemma ToIntShow(n: int)
    ensures ToInt(YStr(Show(n))) == Ok(n)
  {
    ParseIntShow(n);
  }

  // ---------------------------------------------------------------- equality and containers

  /** Python `==`: numbers compare by value across bool, int and float; strings and lists structurally. */
  predicate PyEq(a: Yaml, b: Yaml)
    decreases a
  {
    if IsNumber(a) && IsNumber(b) then NumValue(a) == NumValue(b)
    else match (a, b)
      case (YNone, YNone) => true
      case (YStr(x), YStr(y)) => x == y
      case (YList(x), YList(y)) => |x| == |y| && forall k :: 0 <= k < |x| ==> PyEq(x[k], y[k])
      case _ => false
  }

  /** Every value equals itself. */
  lemma {:induction false} PyEqReflexive(a: Yaml)
    ensures PyEq(a, a)
    decreases a
  {
    if a.YList? {
      forall k | 0 <= k < |a.items|
        ensures PyEq(a.items[k], a.items[k])
      {
        PyEqReflexive(a.items[k]);
      }
    }
  }

  /** Equality does not depend on the order of its operands. */
  lemma {:induction false} PyEqSymmetric(a: Yaml, b: Yaml)
    requires PyEq(a, b)
    ensures PyEq(b, a)
    decreases a
  {
    if a.YList? && b.YList? {
      forall k | 0 <= k < |b.items|
        ensures PyEq(b.items[k], a.items[k])
      {
        PyEqSymmetric(a.items[k], b.items[k]);
      }
    }
  }

  /** Python `v in xs` on a list. */
  predicate Contains(xs: seq<Yaml>, v: Yaml)
  {
    exists k :: 0 <= k < |xs| && PyEq(xs[k], v)
  }

  /** Every element of a list is in it. */
  lemma ContainsElement(xs: seq<Yaml>, k: nat)
    requires k < |xs|
    ensures Contains(xs, xs[k])
  {
    PyEqReflexive(xs[k]);
  }

  /** `v[i]` for a non-negative index: lists give an element, strings a one-character string. */
  function Subscript(v: Yaml, i: nat): (r: Result<Yaml, PyError>)
    ensures r.Ok? <==> (v.YList? && i < |v.items|) || (v.YStr? && i < |v.s|)
    ensures r.Err? ==> r.error == (if v.YList? || v.YStr? then IndexError else TypeError)
  {
    match v
    case YList(items) => if i < |items| then Ok(items[i]) else Err(IndexError)
    case YStr(s) => if i < |s| then Ok(YStr([s[i]])) else Err(IndexError)
    case _ => Err(TypeError)
  }

  /** `a, b = v`: lists and strings of length two unpack, other lengths and other values raise. */
  function Unpack2(v: Yaml): (r: Result<(Yaml, Yaml), PyError>)
    ensures r.Ok? ==> Subscript(v, 0) == Ok(r.value.0) && Subscript(v, 1) == Ok(r.value.1) && Subscript(v, 2).Err?
    ensures r.Ok? <==> (v.YList? && |v.items| == 2) || (v.YStr? && |v.s| == 2)
  {
    match v
    case YList(items) => if |items| == 2 then Ok((items[0], items[1])) else Err(ValueError)
    case YStr(s) => if |s| == 2 then Ok((YStr([s[0]]), YStr([s[1]]))) else Err(ValueError)
    case _ => Err(TypeError)
  }

  /** `d.pop(key)`: the value and the mapping without the key, or a key error. */
  function Pop(d: Dict, key: string): (r: Result<(Yaml, Dict), PyError>)
    ensures r.Ok? <==> key in d
    ensures r.Ok? ==> r.value.0 == d[key] && r.value.1.Keys == d.Keys - {key}
    ensures r.Ok? ==> forall k :: k in r.value.1 ==> r.value.1[k] == d[k]
    ensures r.Err? ==> r.error == KeyError
  {
    if key in d then Ok((d[key], d - {key})) else Err(KeyError)
  }

  /** The first of the given keys the mapping lacks, if any. */
  function FirstMissing(d: Dict, keys: seq<string>): (r: Option<string>)
    ensures r.None? <==> forall k :: 0 <= k < |keys| ==> keys[k] in d
    ensures r.Some? ==> r.value !in d
    ensures r.Some? ==> exists k ::
              && 0 <= k < |keys| && keys[k] == r.value
              && forall j :: 0 <= j < k ==> keys[j] in d
  {
    if keys == [] then None
    else if keys[0] !in d then Some(keys[0])
    else match FirstMissing(d, keys[1..])
      case None => None
      case Some(m) => (assert keys[1..][0] == keys[1]; Some(m))
  }

  /** The first missing key is the one at the first position whose key is absent. */
  lemma {:induction false} FirstMissingAt(d: Dict, keys: seq<string>, i: nat)
    requires i < |keys| && keys[i] !in d
    requires forall j :: 0 <= j < i ==> keys[j] in d
    ensures FirstMissing(d, keys) == Some(keys[i])
  {
    if i > 0 {
      FirstMissingAt(d, keys[1..], i - 1);
    }
  }

  /** The type name an entry's type value denotes: stripped and upper-cased. */
  function TypeNameOf(s: string): string
  {
    Upper(Strip(s))
  }
}
