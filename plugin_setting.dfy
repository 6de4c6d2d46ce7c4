/**
 * Plugin settings: one entry of a plugin's settings file names a label, a
 * description, a type and a default, and may mark the setting as changeable at
 * runtime. Integer and float settings carry a range, enumerations a list of
 * values. Loading consumes the known keys, validates the default through the
 * same check later values go through, and refuses any key left over.
 */
module PluginSettings {
  import opened Wrappers
  import opened PyValues

  /** The type-specific part of a setting. */
  datatype Kind =
    | IntKind(min: int, max: int)
    | FloatKind(low: real, high: real)
    | BoolKind
    | EnumKind(values: seq<Yaml>)

  /** Why a value is refused: its conversion raised, or it is out of range, not a flag, or not enumerated. */
  datatype SetError = Conversion(cause: PyError) | OutOfRange(converted: Yaml) | NotBool | NotInEnum

  /** Why reading the type-specific keys failed; the loader reports each as a failed type initialisation. */
  datatype InitError = Raised(cause: PyError) | ValuesNotAList

  /** Why a settings entry does not load. */
  datatype LoadError =
    | MissingKey(key: string)
    | NotAString(key: string)
    | UnknownType(name: string)
    | InitFailed(init: InitError)
    | BadDefault(reason: SetError)
    | UnrecognizedKeys(keys: set<string>)

  /** A loaded setting: its kind, type name, label, description, runtime flags, value and default. */
  datatype Loaded = Loaded(
    kind: Kind, typeName: Yaml, labelText: Yaml, description: Yaml,
    runtime: bool, shaderRuntime: bool, value: Yaml, default: Yaml)

  /** The keys every entry must have, in the order they are checked. */
  const BaseKeys: seq<string> := ["label", "description", "type", "default"]

  /** The type names with a setting class. */
  const TypeNames: set<string> := {"INT", "FLOAT", "BOOL", "ENUM"}

  /** The keys only a setting of the given type reads. */
  function KindKeys(typeName: string): set<string>
  {
    if typeName == "INT" || typeName == "FLOAT" then {"range"}
    else if typeName == "ENUM" then {"values"}
    else {}
  }

  /** The keys a setting of the given type reads. */
  function KnownKeys(typeName: string): set<string>
  {
    {"label", "description", "type", "default", "runtime", "shader_runtime"} + KindKeys(typeName)
  }

  /** The values a setting of the given kind can hold. */
  predicate Admissible(kind: Kind, v: Yaml)
  {
    match kind
    case IntKind(min, max) => v.YInt? && min <= v.i <= max
    case FloatKind(low, high) => v.YReal? && low <= v.r <= high
    case BoolKind => v.YBool?
    case EnumKind(values) => Contains(values, v)
  }

  /**
   * What `set_value` stores for a value, or why it refuses it: integers and
   * floats are converted and then range-checked, flags accept integers and
   * booleans and store their truth, enumerations accept listed values as given.
   */
  function Accept(kind: Kind, val: Yaml): (r: Result<Yaml, SetError>)
    ensures r.Ok? ==> Admissible(kind, r.value)
  {
    match kind
    case IntKind(min, max) =>
      (match ToInt(val)
       case Err(e) => Err(Conversion(e))
       case Ok(n) => if n < min || n > max then Err(OutOfRange(YInt(n))) else Ok(YInt(n)))
    case FloatKind(low, high) =>
      (match ToReal(val)
       case Err(e) => Err(Conversion(e))
       case Ok(x) => if x < low || x > high then Err(OutOfRange(YReal(x))) else Ok(YReal(x)))
    case BoolKind =>
      if val.YInt? || val.YBool? then Ok(YBool(Truthy(val))) else Err(NotBool)
    case EnumKind(values) =>
      if Contains(values, val) then Ok(val) else Err(NotInEnum)
  }

  /** A value the setting can hold is accepted unchanged, so storing the accepted default again is a no-op. */
  lemma AcceptAdmissible(kind: Kind, v: Yaml)
    requires Admissible(kind, v)
    ensures Accept(kind, v) == Ok(v)
  {
  }

  /** An integer setting accepts a value iff its integer conversion lies in the range, and stores that integer. */
  lemma IntAccept(min: int, max: int, v: Yaml)
    ensures Accept(IntKind(min, max), v).Ok? <==> ToInt(v).Ok? && min <= ToInt(v).value <= max
    ensures Accept(IntKind(min, max), v).Ok? ==> Accept(IntKind(min, max), v).value == YInt(ToInt(v).value)
  {
  }

  /** A flag refuses everything but integers and booleans, and stores exactly true or false. */
  lemma BoolAccept(v: Yaml)
    ensures Accept(BoolKind, v).Ok? <==> v.YInt? || v.YBool?
    ensures Accept(BoolKind, v).Ok? ==> Accept(BoolKind, v).value == YBool(Truthy(v))
  {
  }

  /** An enumeration refuses exactly the values that are not listed, and accepts every listed one. */
  lemma EnumAccept(values: seq<Yaml>, v: Yaml)
    ensures Accept(EnumKind(values), v).Err? <==> !Contains(values, v)
    ensures forall k :: 0 <= k < |values| ==> Accept(EnumKind(values), values[k]) == Ok(values[k])
  {
    forall k | 0 <= k < |values|
      ensures Accept(EnumKind(values), values[k]) == Ok(values[k])
    {
      ContainsElement(values, k);
    }
  }

  /** The number at a position of a range, converted by the given conversion. */
  function RangeBound<T>(range: Yaml, i: nat, convert: Yaml -> Result<T, PyError>): Result<T, InitError>
  {
    match Subscript(range, i)
    case Err(e) => Err(Raised(e))
    case Ok(x) => (match convert(x) case Err(e) => Err(Raised(e)) case Ok(n) => Ok(n))
  }

  /** Reading the type-specific keys: the kind and what is left of the mapping. */
  function LoadAdditional(typeName: string, d: Dict): (r: Result<(Kind, Dict), InitError>)
    requires typeName in TypeNames
    ensures r.Ok? ==> r.value.1 == d - KindKeys(typeName)
  {
    if typeName == "BOOL" then Ok((BoolKind, d))
    else if typeName == "ENUM" then
      (match Pop(d, "values")
       case Err(e) => Err(Raised(e))
       case Ok((values, rest)) => if values.YList? then Ok((EnumKind(values.items), rest)) else Err(ValuesNotAList))
    else
      match Pop(d, "range")
      case Err(e) => Err(Raised(e))
      case Ok((range, rest)) =>
        if typeName == "INT" then
          (match RangeBound(range, 0, ToInt)
           case Err(e) => Err(e)
           case Ok(min) =>
             match RangeBound(range, 1, ToInt)
             case Err(e) => Err(e)
             case Ok(max) => Ok((IntKind(min, max), rest)))
        else
          (match RangeBound(range, 0, ToReal)
           case Err(e) => Err(e)
           case Ok(low) =>
             match RangeBound(range, 1, ToReal)
             case Err(e) => Err(e)
             case Ok(high) => Ok((FloatKind(low, high), rest)))
  }

  /** The mapping without the base keys and the runtime flags. */
  function Remaining(y: Dict): Dict
  {
    y - {"label", "description", "type", "default", "runtime", "shader_runtime"}
  }

  /** Whether the entry asks for a flag: the key is present and its value is truthy. */
  predicate Flag(y: Dict, key: string)
  {
    key in y && Truthy(y[key])
  }

  /** Whether the entry has every base key. */
  predicate HasBaseKeys(y: Dict)
  {
    "label" in y && "description" in y && "type" in y && "default" in y
  }

  /** No base key is missing exactly when the entry has them all. */
  lemma BaseKeysPresent(y: Dict)
    ensures FirstMissing(y, BaseKeys).None? <==> HasBaseKeys(y)
  {
    assert BaseKeys[0] == "label" && BaseKeys[1] == "description" && BaseKeys[2] == "type" && BaseKeys[3] == "default";
  }

  /**
   * Loading one settings entry: every base key must be present; the type must be
   * a string naming a setting class; label and description must be strings; the
   * type-specific keys must load; the default must be accepted; and no key may
   * be left over.
   */
  function Load(y: Dict): Result<Loaded, LoadError>
  {
    match FirstMissing(y, BaseKeys)
    case Some(key) => Err(MissingKey(key))
    case None => BaseKeysPresent(y); LoadNamed(y)
  }

  /** Loading an entry that has every base key: the type, label and description must be strings. */
  function LoadNamed(y: Dict): Result<Loaded, LoadError>
    requires HasBaseKeys(y)
  {
    if !y["type"].YStr? then Err(NotAString("type"))
    else
      var name := TypeNameOf(y["type"].s);
      if name !in TypeNames then Err(UnknownType(name))
      else if !y["label"].YStr? then Err(NotAString("label"))
      else if !y["description"].YStr? then Err(NotAString("description"))
      else LoadTyped(y, name)
  }

  /** Loading an entry of a known type once its names are checked: the type's keys, the default, no leftovers. */
  function LoadTyped(y: Dict, name: string): Result<Loaded, LoadError>
    requires HasBaseKeys(y) && y["label"].YStr? && y["description"].YStr? && name in TypeNames
  {
    match LoadAdditional(name, Remaining(y))
    case Err(e) => Err(InitFailed(e))
    case Ok((kind, rest)) => LoadDefault(y, name, kind, rest)
  }

  /** The last steps of loading: the default must be accepted, and no key may be left. */
  function LoadDefault(y: Dict, name: string, kind: Kind, rest: Dict): Result<Loaded, LoadError>
    requires HasBaseKeys(y) && y["label"].YStr? && y["description"].YStr?
  {
    match Accept(kind, y["default"])
    case Err(e) => Err(BadDefault(e))
    case Ok(v) =>
      if rest != map[] then Err(UnrecognizedKeys(rest.Keys))
      else Ok(Loaded(kind, YStr(name), YStr(Strip(y["label"].s)), YStr(Strip(y["description"].s)),
                     Flag(y, "runtime"), Flag(y, "shader_runtime"), v, v))
  }

  // ---------------------------------------------------------------- properties of loading

  /** An entry lacking a base key fails with the first key missing in the order label, description, type, default. */
  lemma LoadMissingKey(y: Dict)
    ensures !HasBaseKeys(y) <==> Load(y).Err? && Load(y).error.MissingKey?
    ensures !HasBaseKeys(y) ==> FirstMissing(y, BaseKeys) == Some(Load(y).error.key)
  {
    BaseKeysPresent(y);
  }

  /** A type string that names no setting class is refused, after stripping and upper-casing it. */
  lemma LoadUnknownType(y: Dict)
    requires HasBaseKeys(y)
    requires y["type"].YStr? && TypeNameOf(y["type"].s) !in TypeNames
    ensures Load(y) == Err(UnknownType(TypeNameOf(y["type"].s)))
  {
    BaseKeysPresent(y);
  }

  /** A loaded entry had every base key, string names, and a known type, and is what its type's loading gives. */
  lemma LoadedEntry(y: Dict)
    requires Load(y).Ok?
    ensures HasBaseKeys(y) && y["type"].YStr? && y["label"].YStr? && y["description"].YStr?
    ensures TypeNameOf(y["type"].s) in TypeNames
    ensures Load(y) == LoadTyped(y, TypeNameOf(y["type"].s))
  {
    BaseKeysPresent(y);
  }

  /**
   * What loading an entry of a known type establishes: the setting records the
   * type name and the stripped label and description; its default is its value
   * and a value its kind accepts unchanged; the runtime flags are on exactly when
   * their key is present and truthy; and the entry has no key the type does not read.
   */
  lemma LoadTypedOk(y: Dict, name: string)
    requires HasBaseKeys(y) && y["label"].YStr? && y["description"].YStr? && name in TypeNames
    requires LoadTyped(y, name).Ok?
    ensures var l := LoadTyped(y, name).value;
      && l.typeName == YStr(name)
      && l.labelText == YStr(Strip(y["label"].s))
      && l.description == YStr(Strip(y["description"].s))
      && l.default == l.value
      && Accept(l.kind, y["default"]) == Ok(l.default)
      && Admissible(l.kind, l.default)
      && (l.runtime <==> "runtime" in y && Truthy(y["runtime"]))
      && (l.shaderRuntime <==> "shader_runtime" in y && Truthy(y["shader_runtime"]))
    ensures forall k :: k in y ==> k in KnownKeys(name)
  {
    var rest := LoadAdditional(name, Remaining(y)).value.1;
    assert rest == map[];
    forall k | k in y
      ensures k in KnownKeys(name)
    {
      if k in Remaining(y) {
        assert k !in rest;
      }
    }
  }

  /**
   * Loading an entry of a known type succeeds exactly when the type's extra
   * keys load, the default is accepted by the resulting kind, and no key is
   * left over.
   */
  lemma LoadTypedSucceeds(y: Dict, name: string)
    requires HasBaseKeys(y) && y["label"].YStr? && y["description"].YStr? && name in TypeNames
    ensures LoadTyped(y, name).Ok? <==>
      LoadAdditional(name, Remaining(y)).Ok? &&
      Accept(LoadAdditional(name, Remaining(y)).value.0, y["default"]).Ok? &&
      LoadAdditional(name, Remaining(y)).value.1 == map[]
  {
  }

  /** A loaded setting holds its default, and the default is the accepted form of the entry's default. */
  lemma LoadedDefault(y: Dict)
    requires Load(y).Ok?
    ensures "default" in y
    ensures Load(y).value.default == Load(y).value.value
    ensures Admissible(Load(y).value.kind, Load(y).value.default)
    ensures Accept(Load(y).value.kind, y["default"]) == Ok(Load(y).value.default)
  {
    LoadedEntry(y);
    LoadTypedOk(y, TypeNameOf(y["type"].s));
  }

  /** A loaded entry has no key its type does not read. */
  lemma LoadNoLeftover(y: Dict)
    requires Load(y).Ok?
    ensures Load(y).value.typeName.YStr?
    ensures forall k :: k in y ==> k in KnownKeys(Load(y).value.typeName.s)
  {
    LoadedEntry(y);
    LoadTypedOk(y, TypeNameOf(y["type"].s));
  }

  /** An entry with a key no setting type reads never loads. */
  lemma LoadRejectsStrangeKey(y: Dict, key: string)
    requires key in y && key !in KnownKeys("INT") + KnownKeys("ENUM")
    ensures !Load(y).Ok?
  {
    if Load(y).Ok? {
      LoadNoLeftover(y);
    }
  }

  /** The runtime flags are set exactly when their key is present with a truthy value, and are off otherwise. */
  lemma LoadRuntimeFlags(y: Dict)
    requires Load(y).Ok?
    ensures Load(y).value.runtime <==> "runtime" in y && Truthy(y["runtime"])
    ensures Load(y).value.shaderRuntime <==> "shader_runtime" in y && Truthy(y["shader_runtime"])
  {
    LoadedEntry(y);
    LoadTypedOk(y, TypeNameOf(y["type"].s));
  }

  /** A loaded setting records its type name, label and description stripped. */
  lemma LoadFields(y: Dict)
    requires Load(y).Ok?
    ensures HasBaseKeys(y) && y["type"].YStr? && y["label"].YStr? && y["description"].YStr?
    ensures Load(y).value.typeName == YStr(TypeNameOf(y["type"].s))
    ensures Load(y).value.labelText == YStr(Strip(y["label"].s))
    ensures Load(y).value.description == YStr(Strip(y["description"].s))
  {
    LoadedEntry(y);
    LoadTypedOk(y, TypeNameOf(y["type"].s));
  }

  /** An integer setting's range is the integer conversion of the first two items of its range value. */
  lemma LoadIntRange(y: Dict)
    requires Load(y).Ok? && Load(y).value.kind.IntKind?
    ensures "range" in y
    ensures Load(y).value.kind == IntKind(RangeBound(y["range"], 0, ToInt).value, RangeBound(y["range"], 1, ToInt).value)
  {
    LoadedEntry(y);
  }

  /** A setting object: its kind, the base properties, the runtime flags, its current value and its default. */
  class PluginSetting {
    var kind: Kind
    var typeName: Yaml
    var labelText: Yaml
    var description: Yaml
    var runtime: bool
    var shaderRuntime: bool
    var value: Yaml
    var default: Yaml

    /** A fresh setting of a kind: no value, no default, no names, not changeable at runtime. */
    constructor(kind: Kind)
      ensures this.kind == kind
      ensures value == YNone && default == YNone
      ensures typeName == YNone && labelText == YNone && description == YNone
      ensures !runtime && !shaderRuntime
    {
      this.kind := kind;
      value := YNone;
      default := YNone;
      typeName := YNone;
      labelText := YNone;
      description := YNone;
      runtime := false;
      shaderRuntime := false;
    }

    function View(): Loaded
      reads this
    {
      Loaded(kind, typeName, labelText, description, runtime, shaderRuntime, value, default)
    }

    /** Stores the value the kind makes of `val`, or reports why it refuses it and keeps the old value. */
    method SetValue(val: Yaml) returns (err: Option<SetError>)
      modifies this`value
      ensures Accept(kind, val).Ok? ==> err == None && value == Accept(kind, val).value
      ensures Accept(kind, val).Err? ==> err == Some(Accept(kind, val).error) && value == old(value)
    {
      match Accept(kind, val)
      case Ok(v) =>
        value := v;
        err := None;
      case Err(e) =>
        err := Some(e);
    }

    /** Loads one settings entry, consuming its keys; the result is what `Load` describes. */
    static method LoadFromYaml(yaml: Dict) returns (r: Result<PluginSetting, LoadError>)
      ensures r.Ok? ==> fresh(r.value) && Load(yaml) == Ok(r.value.View())
      ensures r.Err? ==> Load(yaml) == Err(r.error)
    {
      var i := 0;
      while i < |BaseKeys|
        invariant 0 <= i <= |BaseKeys|
        invariant forall j :: 0 <= j < i ==> BaseKeys[j] in yaml
      {
        if BaseKeys[i] !in yaml {
          FirstMissingAt(yaml, BaseKeys, i);
          return Err(MissingKey(BaseKeys[i]));
        }
        i := i + 1;
      }
      BaseKeysPresent(yaml);
      var t := yaml["type"];
      if !t.YStr? {
        return Err(NotAString("type"));
      }
      var name := TypeNameOf(t.s);
      if name !in TypeNames {
        return Err(UnknownType(name));
      }
      if !yaml["label"].YStr? {
        return Err(NotAString("label"));
      }
      if !yaml["description"].YStr? {
        return Err(NotAString("description"));
      }
      r := LoadTypedFromYaml(yaml, name);
    }

    /** The rest of loading once the names are checked: the type's own keys are read from what the base keys and runtime flags leave. */
    static method LoadTypedFromYaml(yaml: Dict, name: string) returns (r: Result<PluginSetting, LoadError>)
      requires HasBaseKeys(yaml) && yaml["label"].YStr? && yaml["description"].YStr? && name in TypeNames
      ensures r.Ok? ==> fresh(r.value) && LoadTyped(yaml, name) == Ok(r.value.View())
      ensures r.Err? ==> LoadTyped(yaml, name) == Err(r.error)
    {
      var d := Remaining(yaml);
      var additional := LoadAdditional(name, d);
      if additional.Err? {
        return Err(InitFailed(additional.error));
      }
      var (kind, rest) := additional.value;
      r := LoadDefaultFromYaml(yaml, name, kind, rest);
    }

    /** Builds the setting, sets its default through `SetValue`, and refuses leftover keys. */
    static method LoadDefaultFromYaml(yaml: Dict, name: string, kind: Kind, rest: Dict) returns (r: Result<PluginSetting, LoadError>)
      requires HasBaseKeys(yaml) && yaml["label"].YStr? && yaml["description"].YStr?
      ensures r.Ok? ==> fresh(r.value) && LoadDefault(yaml, name, kind, rest) == Ok(r.value.View())
      ensures r.Err? ==> LoadDefault(yaml, name, kind, rest) == Err(r.error)
    {
      var s := new PluginSetting(kind);
      s.default := yaml["default"];
      s.typeName := YStr(name);
      s.labelText := YStr(Strip(yaml["label"].s));
      s.description := YStr(Strip(yaml["description"].s));
      s.runtime := Flag(yaml, "runtime");
      s.shaderRuntime := Flag(yaml, "shader_runtime");
      var err := s.SetValue(s.default);
      if err.Some? {
        return Err(BadDefault(err.value));
      }
      s.default := s.value;
      if rest != map[] {
        return Err(UnrecognizedKeys(rest.Keys));
      }
      r := Ok(s);
    }
  }
}
