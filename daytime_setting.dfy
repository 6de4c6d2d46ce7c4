/**
 * Day-time settings: a setting whose value varies over the day, held as one
 * curve per component. An entry names a type, a label, a description and a
 * default. A scalar setting has a two-element range, a unit and optionally a
 * logarithmic factor, and one curve; a colour setting has a three-component
 * default in 0..255 and three curves. Loading consumes the known keys, builds
 * the curves from the default, checks the default, and refuses leftover keys.
 */
module DayTimeSettings {
  import opened Wrappers
  import opened PyValues

  /** A curve colour as red, green and blue. */
  datatype Rgb = Rgb(red: int, green: int, blue: int)

  /** How a curve starts: its display colour, if it has one, and its constant value. */
  datatype CurveInit = CurveInit(color: Option<Rgb>, value: real)

  /** The type-specific part of a setting. The scalar range is the one checked while building the curve. */
  datatype DayKind =
    | ScalarKind(min: real, max: real, unit: Yaml, expFactor: real)
    | ColorKind

  /** What the scalar loader read before the curve is built: the range is still unconverted. */
  datatype Additional =
    | ScalarKeys(low: Yaml, high: Yaml, unit: Yaml, expFactor: real)
    | ColorKeys

  /** Why reading the type-specific keys or building the curves failed; the loader wraps each. */
  datatype InitError = Raised(cause: PyError) | UnknownUnit(unit: Yaml) | FactorOutOfRange(factor: real)

  /** Why a default is refused. */
  datatype DefaultError =
    | Conversion(cause: PyError)
    | DefaultOutOfRange(converted: real)
    | NotAList
    | ComponentCount(count: nat)
    | ComponentOutOfRange(component: Yaml)
    | MessageTypeError

  /** Why a day-time entry does not load. */
  datatype LoadError =
    | MissingKey(key: string)
    | NotAString(key: string)
    | UnknownType(name: string)
    | InitFailed(init: InitError)
    | BadDefault(reason: DefaultError)
    | UnrecognizedKeys(keys: set<string>)

  /** A loaded day-time setting. */
  datatype DayView = DayView(
    kind: DayKind, typeName: Yaml, labelText: Yaml, description: Yaml, default: Yaml, curves: seq<CurveInit>)

  /** The keys every entry must have, in the order they are checked. */
  const BaseKeys: seq<string> := ["type", "label", "description", "default"]

  /**
   * The type names with a setting class. The empty name is the base class
   * itself, which has no loader for type-specific keys.
   */
  const TypeNames: set<string> := {"", "SCALAR", "COLOR"}

  /** The units a scalar setting may have. */
  const Units: seq<Yaml> := [YStr("degree"), YStr("percent"), YStr("meter")]

  /** The bounds of the scaled logarithmic factor. */
  const MinFactor: real := 0.001
  const MaxFactor: real := 1000.0

  // ---------------------------------------------------------------- serialisation

  /** Every curve text followed by a comma. */
  function Terms(texts: seq<string>): string
  {
    if texts == [] then "" else Terms(texts[..|texts| - 1]) + texts[|texts| - 1] + ","
  }

  /** The curve texts separated by commas. */
  function Join(texts: seq<string>): string
  {
    if texts == [] then ""
    else if |texts| == 1 then texts[0]
    else Join(texts[..|texts| - 1]) + "," + texts[|texts| - 1]
  }

  /** `str.rstrip(",")`. */
  function TrimCommas(s: string): (r: string)
    ensures |r| <= |s| && r == s[..|r|]
    ensures r == [] || r[|r| - 1] != ','
  {
    if s != [] && s[|s| - 1] == ',' then TrimCommas(s[..|s| - 1]) else s
  }

  /**
   * The serialised setting: an opening bracket, each curve text followed by a
   * comma, every trailing comma removed, and a closing bracket.
   */
  function Bracketed(texts: seq<string>): string
  {
    TrimCommas("[" + Terms(texts)) + "]"
  }

  /** Stripping commas keeps a first character that is not a comma. */
  lemma {:induction false} TrimCommasKeepsHead(s: string)
    requires s != [] && s[0] != ','
    ensures TrimCommas(s) != [] && TrimCommas(s)[0] == s[0]
  {
    if s[|s| - 1] == ',' {
      TrimCommasKeepsHead(s[..|s| - 1]);
    }
  }

  /** A serialisation always opens and closes with a bracket. */
  lemma BracketedShape(texts: seq<string>)
    ensures |Bracketed(texts)| >= 2 && Bracketed(texts)[0] == '[' && Bracketed(texts)[|Bracketed(texts)| - 1] == ']'
  {
    TrimCommasKeepsHead("[" + Terms(texts));
  }

  /** The comma-terminated terms are the joined texts and one more comma. */
  lemma {:induction false} TermsJoin(texts: seq<string>)
    requires texts != []
    ensures Terms(texts) == Join(texts) + ","
  {
    if |texts| > 1 {
      var init := texts[..|texts| - 1];
      TermsJoin(init);
      assert Terms(texts) == Join(init) + "," + texts[|texts| - 1] + ",";
    } else {
      assert texts[..0] == [];
    }
  }

  /** A setting without curves serialises as the empty list. */
  lemma BracketedEmpty()
    ensures Bracketed([]) == "[]"
  {
    assert TrimCommas("[") == "[";
  }

  /**
   * When the last curve text is not empty and does not end in a comma, the
   * serialisation is the curve texts, comma-separated, in brackets.
   */
  lemma BracketedJoin(texts: seq<string>)
    requires texts != []
    requires texts[|texts| - 1] != [] && texts[|texts| - 1][|texts[|texts| - 1]| - 1] != ','
    ensures Bracketed(texts) == "[" + Join(texts) + "]"
  {
    TermsJoin(texts);
    var body := "[" + Join(texts);
    assert "[" + Terms(texts) == body + ",";
    JoinEndsWithLast(texts);
    assert TrimCommas(body) == body;
  }

  /** The joined texts end with the last text. */
  lemma JoinEndsWithLast(texts: seq<string>)
    requires texts != []
    ensures |Join(texts)| >= |texts[|texts| - 1]|
    ensures Join(texts)[|Join(texts)| - |texts[|texts| - 1]|..] == texts[|texts| - 1]
  {
  }

  /**
   * The serialisation cannot tell a last curve text with a trailing comma from
   * the same text without it: stripping commas reaches into the last curve text.
   */
  lemma BracketedLosesTrailingComma(texts: seq<string>, last: string)
    ensures Bracketed(texts + [last + ","]) == Bracketed(texts + [last])
  {
    var a := texts + [last + ","];
    var b := texts + [last];
    assert a[..|a| - 1] == texts && b[..|b| - 1] == texts;
    var prefix := "[" + Terms(texts) + last;
    assert "[" + Terms(a) == prefix + "," + ",";
    assert "[" + Terms(b) == prefix + ",";
    assert (prefix + "," + ",")[..|prefix + ","|] == prefix + ",";
  }

  // ---------------------------------------------------------------- the curves

  /** A curve of the day-time editor, as far as a setting uses it. */
  class Curve {
    /** The display colour `set_color` gave it, if any. */
    var color: Option<Rgb>
    /** The constant value `set_single_value` gave it. */
    var value: real
    /** The control points `set_cv_points` gave it last, if any. */
    var cvPoints: Option<Yaml>
    /** Whether the curve reports itself modified. */
    var modified: bool
    /** The curve's own serialisation. */
    var text: string

    /** A new curve with a colour and a constant value, and no control points given yet. */
    constructor(init: CurveInit)
      ensures color == init.color && value == init.value && cvPoints == None
    {
      color := init.color;
      value := init.value;
      cvPoints := None;
    }

    function Start(): CurveInit
      reads this
    {
      CurveInit(color, value)
    }

    /** Replaces the control points and nothing else the model tracks. */
    method SetCvPoints(points: Yaml)
      modifies this`cvPoints
      ensures cvPoints == Some(points)
    {
      cvPoints := Some(points);
    }
  }

  /** Whether some curve from position `i` on reports modified. */
  predicate AnyModified(cs: seq<Curve>, i: nat)
    reads set c | c in cs
    decreases |cs| - i
  {
    i < |cs| && (cs[i].modified || AnyModified(cs, i + 1))
  }

  /** The scan answers yes exactly when some curve at or after the start position is modified. */
  lemma {:induction false} AnyModifiedExists(cs: seq<Curve>, i: nat)
    ensures AnyModified(cs, i) <==> exists k :: i <= k < |cs| && cs[k].modified
    decreases |cs| - i
  {
    if i < |cs| {
      AnyModifiedExists(cs, i + 1);
      if exists k :: i <= k < |cs| && cs[k].modified {
        var k :| i <= k < |cs| && cs[k].modified;
        assert k == i || (i + 1 <= k < |cs| && cs[k].modified);
      }
    }
  }

  // ---------------------------------------------------------------- loading

  /** The keys only a setting of the given type reads. */
  function KindKeys(typeName: string): set<string>
  {
    if typeName == "SCALAR" then {"range", "unit", "logarithmic_factor"} else {}
  }

  /** The keys a setting of the given type reads. */
  function KnownKeys(typeName: string): set<string>
  {
    {"type", "label", "description", "default"} + KindKeys(typeName)
  }

  /** Whether the entry has every base key. */
  predicate HasBaseKeys(y: Dict)
  {
    "type" in y && "label" in y && "description" in y && "default" in y
  }

  /** No base key is missing exactly when the entry has them all. */
  lemma BaseKeysPresent(y: Dict)
    ensures FirstMissing(y, BaseKeys).None? <==> HasBaseKeys(y)
  {
    assert BaseKeys[0] == "type" && BaseKeys[1] == "label" && BaseKeys[2] == "description" && BaseKeys[3] == "default";
  }

  /** The logarithmic factor scaled by 0.2; only numbers can be scaled. */
  function ScaledFactor(v: Yaml): Result<real, PyError>
  {
    if IsNumber(v) then Ok(NumValue(v) * 0.2) else Err(TypeError)
  }

  /** The optional logarithmic factor, scaled and checked; 1.0 when the key is absent. */
  function LoadFactor(d: Dict): (r: Result<(real, Dict), InitError>)
    ensures r.Ok? ==> r.value.1 == d - {"logarithmic_factor"}
    ensures r.Ok? && "logarithmic_factor" in d ==> MinFactor <= r.value.0 <= MaxFactor
  {
    if "logarithmic_factor" !in d then Ok((1.0, d))
    else
      match ScaledFactor(d["logarithmic_factor"])
      case Err(e) => Err(Raised(e))
      case Ok(f) =>
        if f < MinFactor || f > MaxFactor then Err(FactorOutOfRange(f))
        else Ok((f, d - {"logarithmic_factor"}))
  }

  /**
   * Reading the type-specific keys: a scalar pops its range (which must unpack
   * into two values), its unit (which must be a known unit) and its optional
   * factor; a colour reads nothing; the base class has no such loader.
   */
  function LoadAdditional(typeName: string, d: Dict): (r: Result<(Additional, Dict), InitError>)
    requires typeName in TypeNames
    ensures r.Ok? ==> r.value.1 == d - KindKeys(typeName)
    ensures r.Ok? ==> typeName != "" && (r.value.0.ScalarKeys? <==> typeName == "SCALAR")
    ensures r.Ok? && r.value.0.ScalarKeys? ==> Contains(Units, r.value.0.unit)
  {
    if typeName == "" then Err(Raised(AttributeError))
    else if typeName == "COLOR" then Ok((ColorKeys, d))
    else
      match Pop(d, "range")
      case Err(e) => Err(Raised(e))
      case Ok((range, d1)) =>
        match Unpack2(range)
        case Err(e) => Err(Raised(e))
        case Ok((low, high)) =>
          match Pop(d1, "unit")
          case Err(e) => Err(Raised(e))
          case Ok((unit, d2)) =>
            if !Contains(Units, unit) then Err(UnknownUnit(unit))
            else
              match LoadFactor(d2)
              case Err(e) => Err(e)
              case Ok((factor, d3)) => Ok((ScalarKeys(low, high, unit, factor), d3))
  }

  /** `max(0, min(1, x))`. */
  function Clamp01(x: real): (r: real)
    ensures 0.0 <= r <= 1.0
    ensures 0.0 <= x <= 1.0 ==> r == x
  {
    if x < 0.0 then 0.0 else if x > 1.0 then 1.0 else x
  }

  /** The position of `x` in the range from `min` to `max`, clamped to [0, 1]. */
  function ToLinearSpace(x: real, min: real, max: real): (r: real)
    requires min != max
    ensures 0.0 <= r <= 1.0
  {
    Clamp01((x - min) / (max - min))
  }

  /** The value at position `t` (clamped to [0, 1]) of the range from `min` to `max`. */
  function FromLinearSpace(t: real, min: real, max: real): real
  {
    Clamp01(t) * (max - min) + min
  }

  /** Every position maps back into the range. */
  lemma FromLinearSpaceInRange(t: real, min: real, max: real)
    requires min < max
    ensures min <= FromLinearSpace(t, min, max) <= max
  {
    PointInRange(Clamp01(t), min, max);
  }

  /** A value within the range sits at its exact relative position, and mapping it back gives the value. */
  lemma LinearSpaceRoundTrip(x: real, min: real, max: real)
    requires min <= x <= max && min < max
    ensures ToLinearSpace(x, min, max) == (x - min) / (max - min)
    ensures FromLinearSpace(ToLinearSpace(x, min, max), min, max) == x
  {
    DivisionInUnit(x - min, max - min);
  }

  /** A part of a whole is between 0 and 1. */
  lemma DivisionInUnit(part: real, whole: real)
    requires 0.0 <= part <= whole && whole != 0.0
    ensures 0.0 <= part / whole <= 1.0
  {
  }

  /** The point a fraction of the way along a range lies within the range. */
  lemma PointInRange(u: real, min: real, max: real)
    requires 0.0 <= u <= 1.0 && min < max
    ensures min <= u * (max - min) + min <= max
  {
    var len := max - min;
    assert 0.0 <= u * len;
    assert 0.0 <= (1.0 - u) * len == len - u * len;
  }

  /**
   * Building a scalar curve: the default is converted, both range ends must be
   * numbers and differ, and the curve starts at the default's position in the
   * range.
   */
  function ScalarCurve(low: Yaml, high: Yaml, default: Yaml): (r: Result<(real, real, CurveInit), PyError>)
    ensures r.Ok? ==> IsNumber(low) && IsNumber(high) && r.value.0 == NumValue(low) && r.value.1 == NumValue(high)
    ensures r.Ok? ==> r.value.0 != r.value.1 && r.value.2.color == None && ToReal(default).Ok?
    ensures r.Ok? ==> r.value.2.value == ToLinearSpace(ToReal(default).value, r.value.0, r.value.1)
  {
    match ToReal(default)
    case Err(e) => Err(e)
    case Ok(x) =>
      if !IsNumber(low) || !IsNumber(high) then Err(TypeError)
      else if NumValue(high) - NumValue(low) == 0.0 then Err(ZeroDivisionError)
      else
        var min := NumValue(low);
        var max := NumValue(high);
        Ok((min, max, CurveInit(None, ToLinearSpace(x, min, max))))
  }

  /** The display colours of the red, green and blue curves. */
  const ColorOf: seq<Rgb> := [Rgb(255, 0, 0), Rgb(0, 255, 0), Rgb(0, 0, 255)]

  /** The starting value of colour component `i`: the component of the default over 255. */
  function ComponentCurve(default: Yaml, i: nat): (r: Result<CurveInit, PyError>)
    requires i < 3
    ensures r.Ok? <==> Subscript(default, i).Ok? && IsNumber(Subscript(default, i).value)
  {
    match Subscript(default, i)
    case Err(e) => Err(e)
    case Ok(c) => if IsNumber(c) then Ok(CurveInit(Some(ColorOf[i]), NumValue(c) / 255.0)) else Err(TypeError)
  }

  /** Building the three colour curves, red first. */
  function ColorCurves(default: Yaml): (r: Result<seq<CurveInit>, PyError>)
    ensures r.Ok? <==> forall i :: 0 <= i < 3 ==> ComponentCurve(default, i).Ok?
    ensures r.Ok? ==> |r.value| == 3 && forall i :: 0 <= i < 3 ==> r.value[i] == ComponentCurve(default, i).value
  {
    match ComponentCurve(default, 0)
    case Err(e) => Err(e)
    case Ok(red) =>
      match ComponentCurve(default, 1)
      case Err(e) => Err(e)
      case Ok(green) =>
        match ComponentCurve(default, 2)
        case Err(e) => Err(e)
        case Ok(blue) => Ok([red, green, blue])
  }

  /** The kind and the starting curves, once the curves are built from the default. */
  function BuildCurves(extra: Additional, default: Yaml): (r: Result<(DayKind, seq<CurveInit>), PyError>)
    ensures r.Ok? ==> (r.value.0.ScalarKind? <==> extra.ScalarKeys?)
    ensures r.Ok? && extra.ScalarKeys? ==> |r.value.1| == 1
    ensures r.Ok? && extra.ColorKeys? ==> |r.value.1| == 3 && ColorCurves(default).Ok?
  {
    match extra
    case ColorKeys => (match ColorCurves(default) case Err(e) => Err(e) case Ok(cs) => Ok((ColorKind, cs)))
    case ScalarKeys(low, high, unit, factor) =>
      match ScalarCurve(low, high, default)
      case Err(e) => Err(e)
      case Ok((min, max, curve)) => Ok((ScalarKind(min, max, unit, factor), [curve]))
  }

  /** Whether a colour component is a number within 0..255. */
  predicate InByteRange(c: Yaml)
  {
    IsNumber(c) && 0.0 <= NumValue(c) <= 255.0
  }

  /** The first component that is not a number within 0..255, if any. */
  function FirstBad(cs: seq<Yaml>): (r: Option<nat>)
    ensures r.None? <==> forall i :: 0 <= i < |cs| ==> InByteRange(cs[i])
    ensures r.Some? ==> r.value < |cs| && !InByteRange(cs[r.value]) && forall i :: 0 <= i < r.value ==> InByteRange(cs[i])
  {
    if cs == [] then None
    else if !InByteRange(cs[0]) then Some(0)
    else match FirstBad(cs[1..])
      case None => None
      case Some(k) => Some(k + 1)
  }

  /**
   * The colour default check as the source writes it: comparing a component
   * that is not a number raises a type error, and so does building the message
   * for a component out of range, which concatenates a string and a number.
   */
  function ColorDefaultAsWritten(val: Yaml): Result<Yaml, DefaultError>
  {
    if !val.YList? then Err(NotAList)
    else if |val.items| != 3 then Err(ComponentCount(|val.items|))
    else match FirstBad(val.items)
      case Some(k) => if IsNumber(val.items[k]) then Err(MessageTypeError) else Err(Conversion(TypeError))
      case None => Ok(val)
  }

  /** The colour default check as intended: a component out of range is reported as such. */
  function ColorDefault(val: Yaml): (r: Result<Yaml, DefaultError>)
    ensures r.Ok? <==> val.YList? && |val.items| == 3 && forall i :: 0 <= i < 3 ==> InByteRange(val.items[i])
    ensures r.Ok? ==> r.value == val
    ensures r.Err? && r.error.ComponentOutOfRange? ==>
              && val.YList? && |val.items| == 3
              && exists i :: 0 <= i < 3 && val.items[i] == r.error.component && IsNumber(val.items[i])
  {
    if !val.YList? then Err(NotAList)
    else if |val.items| != 3 then Err(ComponentCount(|val.items|))
    else match FirstBad(val.items)
      case Some(k) => if IsNumber(val.items[k]) then Err(ComponentOutOfRange(val.items[k])) else Err(Conversion(TypeError))
      case None => Ok(val)
  }

  /** The red component 300 makes the check as written raise a type error, where a bad-setting error naming it is intended. */
  lemma ColorMessageFails()
    ensures ColorDefaultAsWritten(YList([YInt(300), YInt(0), YInt(0)])) == Err(MessageTypeError)
    ensures ColorDefault(YList([YInt(300), YInt(0), YInt(0)])) == Err(ComponentOutOfRange(YInt(300)))
  {
    assert !InByteRange(YInt(300));
  }

  /** The two checks accept the same defaults and differ only in the error for a component out of range. */
  lemma ColorDefaultAgrees(val: Yaml)
    ensures ColorDefaultAsWritten(val).Ok? <==> ColorDefault(val).Ok?
    ensures ColorDefault(val).Ok? ==> ColorDefaultAsWritten(val) == ColorDefault(val)
    ensures ColorDefault(val).Err? && !ColorDefault(val).error.ComponentOutOfRange? ==>
              ColorDefaultAsWritten(val) == ColorDefault(val)
    ensures ColorDefault(val).Err? && ColorDefault(val).error.ComponentOutOfRange? ==>
              ColorDefaultAsWritten(val) == Err(MessageTypeError)
  {
  }

  /**
   * `set_default_value`: a scalar converts the default to a float and requires
   * it within the range; a colour requires a list of three components in 0..255.
   * The colour check is the corrected `ColorDefault`: a component out of range
   * is refused by name, where the code as written raises a type error.
   */
  function SetDefault(kind: DayKind, val: Yaml): (r: Result<Yaml, DefaultError>)
    ensures r.Ok? && kind.ScalarKind? ==> r.value.YReal? && kind.min <= r.value.r <= kind.max
    ensures r.Ok? && kind.ColorKind? ==> r.value == val
  {
    match kind
    case ScalarKind(min, max, _, _) =>
      (match ToReal(val)
       case Err(e) => Err(Conversion(e))
       case Ok(x) => if x < min || x > max then Err(DefaultOutOfRange(x)) else Ok(YReal(x)))
    case ColorKind => ColorDefault(val)
  }

  /** A scalar default is accepted iff it converts to a float within the range. */
  lemma ScalarDefaultRange(kind: DayKind, val: Yaml)
    requires kind.ScalarKind?
    ensures SetDefault(kind, val).Ok? <==> ToReal(val).Ok? && kind.min <= ToReal(val).value <= kind.max
    ensures ToReal(val).Ok? && !(kind.min <= ToReal(val).value <= kind.max) ==>
              SetDefault(kind, val) == Err(DefaultOutOfRange(ToReal(val).value))
  {
  }

  /** A scalar range whose ends are equal numbers makes building the curve divide by zero. */
  lemma ScalarEmptyRange(low: Yaml, high: Yaml, default: Yaml)
    requires IsNumber(low) && IsNumber(high) && NumValue(low) == NumValue(high)
    requires ToReal(default).Ok?
    ensures ScalarCurve(low, high, default) == Err(ZeroDivisionError)
  {
  }

  /** Loading an entry: the base keys, then the type name, label and description. */
  function Load(y: Dict): Result<DayView, LoadError>
  {
    match FirstMissing(y, BaseKeys)
    case Some(key) => Err(MissingKey(key))
    case None => BaseKeysPresent(y); LoadNamed(y)
  }

  /** Loading an entry that has every base key: type, label and description must be strings, and the type known. */
  function LoadNamed(y: Dict): Result<DayView, LoadError>
    requires HasBaseKeys(y)
  {
    if !y["type"].YStr? then Err(NotAString("type"))
    else
      var name := TypeNameOf(y["type"].s);
      if name !in TypeNames then Err(UnknownType(name))
      else if !y["label"].YStr? then Err(NotAString("label"))
      else if !y["description"].YStr? then Err(NotAString("description"))
      else LoadTyped(y, name)
  }

  /** The mapping without the base keys. */
  function Remaining(y: Dict): Dict
  {
    y - {"type", "label", "description", "default"}
  }

  /** Loading an entry of a known type: its own keys and its curves, failures of either wrapped. */
  function LoadTyped(y: Dict, name: string): Result<DayView, LoadError>
    requires HasBaseKeys(y) && y["label"].YStr? && y["description"].YStr? && name in TypeNames
  {
    match LoadAdditional(name, Remaining(y))
    case Err(e) => Err(InitFailed(e))
    case Ok((extra, rest)) =>
      match BuildCurves(extra, y["default"])
      case Err(e) => Err(InitFailed(Raised(e)))
      case Ok((kind, curves)) => LoadDefault(y, name, kind, curves, rest)
  }

  /** The last steps of loading: the default must pass its check, and no key may be left. */
  function LoadDefault(y: Dict, name: string, kind: DayKind, curves: seq<CurveInit>, rest: Dict): Result<DayView, LoadError>
    requires HasBaseKeys(y) && y["label"].YStr? && y["description"].YStr?
  {
    match SetDefault(kind, y["default"])
    case Err(e) => Err(BadDefault(e))
    case Ok(v) =>
      if rest != map[] then Err(UnrecognizedKeys(rest.Keys))
      else Ok(DayView(kind, YStr(name), YStr(Strip(y["label"].s)), YStr(Strip(y["description"].s)), v, curves))
  }

  // ---------------------------------------------------------------- properties of loading

  /** An entry lacking a base key fails with the first key missing in the order type, label, description, default. */
  lemma LoadMissingKey(y: Dict)
    ensures !HasBaseKeys(y) <==> Load(y).Err? && Load(y).error.MissingKey?
    ensures !HasBaseKeys(y) ==> FirstMissing(y, BaseKeys) == Some(Load(y).error.key)
  {
    BaseKeysPresent(y);
  }

  /** A type string that names no setting class is refused, after stripping and upper-casing it. */
  lemma LoadUnknownType(y: Dict)
    requires HasBaseKeys(y)
    requires y["type"].YStr? && TypeNameOf(y["type"].s) !in TypeNames
    ensures Load(y) == Err(UnknownType(TypeNameOf(y["type"].s)))
  {
    BaseKeysPresent(y);
  }

  /** A type string that is blank names the base class, which cannot load its type-specific keys. */
  lemma LoadBlankType(y: Dict)
    requires HasBaseKeys(y) && y["type"].YStr? && TypeNameOf(y["type"].s) == ""
    requires y["label"].YStr? && y["description"].YStr?
    ensures Load(y) == Err(InitFailed(Raised(AttributeError)))
  {
    BaseKeysPresent(y);
  }

  /** A loaded entry had every base key, string names, and a known type, and is what its type's loading gives. */
  lemma LoadedEntry(y: Dict)
    requires Load(y).Ok?
    ensures HasBaseKeys(y) && y["type"].YStr? && y["label"].YStr? && y["description"].YStr?
    ensures TypeNameOf(y["type"].s) in TypeNames - {""}
    ensures Load(y) == LoadTyped(y, TypeNameOf(y["type"].s))
  {
    BaseKeysPresent(y);
  }

  /** A loaded entry has no key its type does not read. */
  lemma LoadTypedNoLeftover(y: Dict, name: string)
    requires HasBaseKeys(y) && y["label"].YStr? && y["description"].YStr? && name in TypeNames
    requires LoadTyped(y, name).Ok?
    ensures forall k :: k in y ==> k in KnownKeys(name)
  {
    var rest := LoadAdditional(name, Remaining(y)).value.1;
    assert rest == map[];
    forall k | k in y
      ensures k in KnownKeys(name)
    {
      if k in Remaining(y) {
        assert k !in rest;
      }
    }
  }

  /** A loaded entry has no key its type does not read. */
  lemma LoadNoLeftover(y: Dict)
    requires Load(y).Ok?
    ensures Load(y).value.typeName.YStr?
    ensures forall k :: k in y ==> k in KnownKeys(Load(y).value.typeName.s)
  {
    LoadedEntry(y);
    LoadTypedNoLeftover(y, TypeNameOf(y["type"].s));
  }

  /** An entry with a key no setting type reads never loads. */
  lemma LoadRejectsStrangeKey(y: Dict, key: string)
    requires key in y && key !in KnownKeys("SCALAR")
    ensures !Load(y).Ok?
  {
    if Load(y).Ok? {
      LoadNoLeftover(y);
    }
  }

  /** A loaded setting records its type name, label and description stripped. */
  lemma LoadFields(y: Dict)
    requires Load(y).Ok?
    ensures HasBaseKeys(y) && y["type"].YStr? && y["label"].YStr? && y["description"].YStr?
    ensures Load(y).value.typeName == YStr(TypeNameOf(y["type"].s))
    ensures Load(y).value.labelText == YStr(Strip(y["label"].s))
    ensures Load(y).value.description == YStr(Strip(y["description"].s))
  {
    LoadedEntry(y);
  }

  /**
   * A loaded scalar setting has a known unit, a factor of 1.0 or within its
   * bounds, a float default within a non-empty range, and one curve starting at
   * the default's position in the range.
   */
  lemma LoadScalar(y: Dict)
    requires Load(y).Ok? && Load(y).value.kind.ScalarKind?
    ensures var l := Load(y).value;
      && Contains(Units, l.kind.unit)
      && (l.kind.expFactor == 1.0 || MinFactor <= l.kind.expFactor <= MaxFactor)
      && l.kind.min < l.kind.max
      && l.default.YReal? && l.kind.min <= l.default.r <= l.kind.max
      && l.curves == [CurveInit(None, ToLinearSpace(l.default.r, l.kind.min, l.kind.max))]
  {
    LoadedEntry(y);
    LoadTypedScalar(y, TypeNameOf(y["type"].s));
  }

  /** `LoadScalar`, for the loading of an entry whose type is already known. */
  lemma LoadTypedScalar(y: Dict, name: string)
    requires HasBaseKeys(y) && y["label"].YStr? && y["description"].YStr? && name in TypeNames
    requires LoadTyped(y, name).Ok? && LoadTyped(y, name).value.kind.ScalarKind?
    ensures var l := LoadTyped(y, name).value;
      && Contains(Units, l.kind.unit)
      && (l.kind.expFactor == 1.0 || MinFactor <= l.kind.expFactor <= MaxFactor)
      && l.kind.min < l.kind.max
      && l.default.YReal? && l.kind.min <= l.default.r <= l.kind.max
      && l.curves == [CurveInit(None, ToLinearSpace(l.default.r, l.kind.min, l.kind.max))]
  {
    var extra := LoadAdditional(name, Remaining(y)).value.0;
    assert extra.ScalarKeys?;
  }

  /**
   * A loaded colour setting has a list of three numbers within 0..255 as its
   * default, and red, green and blue curves starting at each component over 255.
   */
  lemma LoadColor(y: Dict)
    requires Load(y).Ok? && Load(y).value.kind.ColorKind?
    ensures var l := Load(y).value;
      && l.default.YList? && |l.default.items| == 3
      && (forall i :: 0 <= i < 3 ==> InByteRange(l.default.items[i]))
      && |l.curves| == 3
      && forall i :: 0 <= i < 3 ==>
           l.curves[i] == CurveInit(Some(ColorOf[i]), NumValue(l.default.items[i]) / 255.0) &&
           0.0 <= l.curves[i].value <= 1.0
  {
    LoadedEntry(y);
  }

  // ---------------------------------------------------------------- the setting object

  /** The starting colour and value of each curve. */
  function Starts(cs: seq<Curve>): (r: seq<CurveInit>)
    reads set c | c in cs
    ensures |r| == |cs| && forall i :: 0 <= i < |cs| ==> r[i] == cs[i].Start()
  {
    if cs == [] then [] else Starts(cs[..|cs| - 1]) + [cs[|cs| - 1].Start()]
  }

  /** The serialisations of the curves, in order. */
  function Texts(cs: seq<Curve>): (r: seq<string>)
    reads set c | c in cs
    ensures |r| == |cs| && forall i :: 0 <= i < |cs| ==> r[i] == cs[i].text
  {
    if cs == [] then [] else Texts(cs[..|cs| - 1]) + [cs[|cs| - 1].text]
  }

  /** A day-time setting object: its kind, names, default and curves. */
  class DayTimeSetting {
    var kind: DayKind
    var typeName: Yaml
    var labelText: Yaml
    var description: Yaml
    var default: Yaml
    var curves: seq<Curve>

    /** The curves are distinct objects. */
    ghost predicate Valid()
      reads this
    {
      forall i, j :: 0 <= i < j < |curves| ==> curves[i] != curves[j]
    }

    /** A fresh setting of a kind: no names, no default, no curves. */
    constructor(kind: DayKind)
      ensures this.kind == kind && curves == []
      ensures typeName == YNone && labelText == YNone && description == YNone && default == YNone
    {
      this.kind := kind;
      typeName := YNone;
      labelText := YNone;
      description := YNone;
      default := YNone;
      curves := [];
    }

    function View(): DayView
      reads this, set c | c in curves
    {
      DayView(kind, typeName, labelText, description, default, Starts(curves))
    }

    /** Whether some curve reports itself modified. */
    function WasModified(): (r: bool)
      reads this, set c | c in curves
      ensures r <==> exists i :: 0 <= i < |curves| && curves[i].modified
    {
      AnyModifiedExists(curves, 0);
      AnyModified(curves, 0)
    }

    /** The bracketed, comma-separated serialisations of the curves. */
    function Serialize(): (r: string)
      reads this, set c | c in curves
      ensures |r| >= 2 && r[0] == '[' && r[|r| - 1] == ']'
    {
      BracketedShape(Texts(curves));
      Bracketed(Texts(curves))
    }

    /**
     * Gives point set `i` to curve `i`, in order; more point sets than curves
     * raise an index error once every curve has its set.
     */
    method SetCvPoints(points: seq<Yaml>) returns (err: Option<PyError>)
      requires Valid()
      modifies (set c | c in curves)`cvPoints
      ensures err == (if |points| > |curves| then Some(IndexError) else None)
      ensures forall i :: 0 <= i < |curves| && i < |points| ==> curves[i].cvPoints == Some(points[i])
      ensures forall i :: 0 <= i < |curves| && i >= |points| ==> curves[i].cvPoints == old(curves[i].cvPoints)
    {
      var i := 0;
      while i < |points|
        invariant 0 <= i <= |points| && i <= |curves|
        invariant forall k :: 0 <= k < i ==> curves[k].cvPoints == Some(points[k])
        invariant forall k :: i <= k < |curves| ==> curves[k].cvPoints == old(curves[k].cvPoints)
      {
        if i == |curves| {
          return Some(IndexError);
        }
        curves[i].SetCvPoints(points[i]);
        i := i + 1;
      }
      err := None;
    }

    /** Creates one fresh curve per starting value, in order. */
    method InitCurves(inits: seq<CurveInit>)
      modifies this`curves
      ensures Valid() && Starts(curves) == inits
      ensures forall i :: 0 <= i < |curves| ==> fresh(curves[i]) && curves[i].cvPoints == None
    {
      var cs: seq<Curve> := [];
      var i := 0;
      while i < |inits|
        invariant 0 <= i <= |inits| && |cs| == i
        invariant forall k :: 0 <= k < i ==> fresh(cs[k]) && cs[k].Start() == inits[k] && cs[k].cvPoints == None
        invariant forall k, j :: 0 <= k < j < i ==> cs[k] != cs[j]
      {
        var c := new Curve(inits[i]);
        cs := cs + [c];
        i := i + 1;
      }
      curves := cs;
    }

    /** Stores the checked default, or reports why it is refused and keeps the old one; a colour goes through the corrected check. */
    method SetDefaultValue(val: Yaml) returns (err: Option<DefaultError>)
      modifies this`default
      ensures SetDefault(kind, val).Ok? ==> err == None && default == SetDefault(kind, val).value
      ensures SetDefault(kind, val).Err? ==> err == Some(SetDefault(kind, val).error) && default == old(default)
    {
      match SetDefault(kind, val)
      case Ok(v) =>
        default := v;
        err := None;
      case Err(e) =>
        err := Some(e);
    }

    /** Loads one day-time entry, consuming its keys; the result is what `Load` describes. */
    static method LoadFromYaml(yaml: Dict) returns (r: Result<DayTimeSetting, LoadError>)
      ensures r.Ok? ==> fresh(r.value) && r.value.Valid() && Load(yaml) == Ok(r.value.View())
      ensures r.Err? ==> Load(yaml) == Err(r.error)
    {
      var i := 0;
      while i < |BaseKeys|
        invariant 0 <= i <= |BaseKeys|
        invariant forall j :: 0 <= j < i ==> BaseKeys[j] in yaml
      {
        if BaseKeys[i] !in yaml {
          FirstMissingAt(yaml, BaseKeys, i);
          return Err(MissingKey(BaseKeys[i]));
        }
        i := i + 1;
      }
      BaseKeysPresent(yaml);
      var t := yaml["type"];
      if !t.YStr? {
        return Err(NotAString("type"));
      }
      var name := TypeNameOf(t.s);
      if name !in TypeNames {
        return Err(UnknownType(name));
      }
      if !yaml["label"].YStr? {
        return Err(NotAString("label"));
      }
      if !yaml["description"].YStr? {
        return Err(NotAString("description"));
      }
      r := LoadTypedFromYaml(yaml, name);
    }

    /** Reads the type's own keys and builds the curves from the default; either failing is wrapped. */
    static method LoadTypedFromYaml(yaml: Dict, name: string) returns (r: Result<DayTimeSetting, LoadError>)
      requires HasBaseKeys(yaml) && yaml["label"].YStr? && yaml["description"].YStr? && name in TypeNames
      ensures r.Ok? ==> fresh(r.value) && r.value.Valid() && LoadTyped(yaml, name) == Ok(r.value.View())
      ensures r.Err? ==> LoadTyped(yaml, name) == Err(r.error)
    {
      var additional := LoadAdditional(name, Remaining(yaml));
      if additional.Err? {
        return Err(InitFailed(additional.error));
      }
      var (extra, rest) := additional.value;
      var built := BuildCurves(extra, yaml["default"]);
      if built.Err? {
        return Err(InitFailed(Raised(built.error)));
      }
      var (kind, inits) := built.value;
      r := LoadDefaultFromYaml(yaml, name, kind, inits, rest);
    }

    /** A fresh setting holding the given names and default, with one fresh curve per starting value. */
    static method Create(kind: DayKind, typeName: Yaml, labelText: Yaml, description: Yaml, default: Yaml, inits: seq<CurveInit>)
      returns (s: DayTimeSetting)
      ensures fresh(s) && s.Valid()
      ensures s.View() == DayView(kind, typeName, labelText, description, default, inits)
    {
      s := new DayTimeSetting(kind);
      s.typeName := typeName;
      s.labelText := labelText;
      s.description := description;
      s.default := default;
      s.InitCurves(inits);
    }

    /** Builds the setting and its curves, checks the default through `SetDefaultValue`, and refuses leftover keys. */
    static method LoadDefaultFromYaml(yaml: Dict, name: string, kind: DayKind, inits: seq<CurveInit>, rest: Dict)
      returns (r: Result<DayTimeSetting, LoadError>)
      requires HasBaseKeys(yaml) && yaml["label"].YStr? && yaml["description"].YStr?
      ensures r.Ok? ==> fresh(r.value) && r.value.Valid() && LoadDefault(yaml, name, kind, inits, rest) == Ok(r.value.View())
      ensures r.Err? ==> LoadDefault(yaml, name, kind, inits, rest) == Err(r.error)
    {
      var s := Create(kind, YStr(name), YStr(Strip(yaml["label"].s)), YStr(Strip(yaml["description"].s)), yaml["default"], inits);
      var err := s.SetDefaultValue(s.default);
      if err.Some? {
        return Err(BadDefault(err.value));
      }
      if rest != map[] {
        return Err(UnrecognizedKeys(rest.Keys));
      }
      r := Ok(s);
    }
  }
}
