/**
  The declarative part of the configuration reader: the kinds of setting, the
  four settings records, and the four tables that describe, per section, every
  key with its kind, allowed values, default, required flag and target field.

  Where the C++ stores a raw pointer to the target field, each table entry here
  names the field with a `FieldId`, and `Assign` writes a value to the field it
  names.
*/
module SettingsSchema {
  import opened Strings

  /** How a setting's text is converted and checked. */
  datatype SettingType =
    | Integer | PositiveInteger | NegativeInteger
    | Float | PositiveFloat | NegativeFloat
    | Text

  /** One selector per field of the four settings records. */
  datatype FieldId =
    // DiamondSettings
    | NumElements | Depth | TipPressure | InitialProfile
    // RamanSettings
    | NumSamplePoints | MaxFreq | MinFreq
    // LaserSettings
    | Intensity
    // GeneralSettings
    | MaxIter | SignalOutputFile | SignalInputFile | PressureOutputFile
    | FittedSignalFile | FittedPressureFile

  /** The four settings records, which are also the four sections of the file. */
  datatype StructId = DiamondStruct | RamanStruct | LaserStruct | GeneralStruct

  function StructOf(f: FieldId): StructId {
    match f
    case NumElements | Depth | TipPressure | InitialProfile => DiamondStruct
    case NumSamplePoints | MaxFreq | MinFreq => RamanStruct
    case Intensity => LaserStruct
    case _ => GeneralStruct
  }

  /** The C++ type of a field or of a converted value: int, double or std::string. */
  datatype ValueType = IntType | RealType | StringType

  function FieldType(f: FieldId): ValueType {
    match f
    case NumElements | NumSamplePoints | MaxIter => IntType
    case Depth | TipPressure | MaxFreq | MinFreq | Intensity => RealType
    case _ => StringType
  }

  /** The type a setting kind converts its text to. */
  function KindType(t: SettingType): ValueType {
    match t
    case Integer | PositiveInteger | NegativeInteger => IntType
    case Float | PositiveFloat | NegativeFloat => RealType
    case Text => StringType
  }

  /** A converted setting value; doubles are modelled as exact reals. */
  datatype Value = IntValue(i: int) | RealValue(r: real) | TextValue(s: string)

  function TypeOf(v: Value): ValueType {
    match v
    case IntValue(_) => IntType
    case RealValue(_) => RealType
    case TextValue(_) => StringType
  }

  datatype SettingInfo = SettingInfo(
    settingType: SettingType,
    allowedValues: set<string>,
    defaultValue: string,
    required: bool,
    field: FieldId)

  /** The kind of an entry converts to the type of the field it writes. */
  predicate WellTyped(info: SettingInfo) {
    KindType(info.settingType) == FieldType(info.field)
  }

  datatype SchemaEntry = SchemaEntry(key: string, info: SettingInfo)

  predicate AllWellTyped(entries: seq<SchemaEntry>) {
    forall i :: 0 <= i < |entries| ==> WellTyped(entries[i].info)
  }

  /** A section's table, listed in the order a std::map visits it: by increasing key. */
  type Schema = seq<SchemaEntry>

  function Keys(schema: Schema): set<string> {
    set e | e in schema :: e.key
  }

  /** Keys strictly increase along the table, as they do in a std::map. */
  predicate Sorted(schema: Schema) {
    forall i :: 0 < i < |schema| ==> LexLess(schema[i - 1].key, schema[i].key)
  }

  datatype DiamondSettings = DiamondSettings(numElements: int, depth: real, tipPressure: real, initialProfile: string)
  datatype RamanSettings = RamanSettings(numSamplePoints: int, maxFreq: real, minFreq: real)
  datatype LaserSettings = LaserSettings(intensity: real)
  datatype GeneralSettings = GeneralSettings(
    maxIter: int,
    signalOutputFile: string,
    signalInputFile: string,
    pressureOutputFile: string,
    fittedSignalFile: string,
    fittedPressureFile: string)

  /** The four records a Settings object holds. */
  datatype Config = Config(diamond: DiamondSettings, raman: RamanSettings, laser: LaserSettings, general: GeneralSettings)

  /** The current value of a field. */
  function Read(cfg: Config, f: FieldId): (v: Value)
    ensures TypeOf(v) == FieldType(f)
  {
    match f
    case NumElements => IntValue(cfg.diamond.numElements)
    case Depth => RealValue(cfg.diamond.depth)
    case TipPressure => RealValue(cfg.diamond.tipPressure)
    case InitialProfile => TextValue(cfg.diamond.initialProfile)
    case NumSamplePoints => IntValue(cfg.raman.numSamplePoints)
    case MaxFreq => RealValue(cfg.raman.maxFreq)
    case MinFreq => RealValue(cfg.raman.minFreq)
    case Intensity => RealValue(cfg.laser.intensity)
    case MaxIter => IntValue(cfg.general.maxIter)
    case SignalOutputFile => TextValue(cfg.general.signalOutputFile)
    case SignalInputFile => TextValue(cfg.general.signalInputFile)
    case PressureOutputFile => TextValue(cfg.general.pressureOutputFile)
    case FittedSignalFile => TextValue(cfg.general.fittedSignalFile)
    case FittedPressureFile => TextValue(cfg.general.fittedPressureFile)
  }

  /** The write through the entry's target: `v` is stored in field `f`, of matching type. */
  function Assign(cfg: Config, f: FieldId, v: Value): (r: Config)
    requires TypeOf(v) == FieldType(f)
    ensures Read(r, f) == v
    ensures forall g :: g != f ==> Read(r, g) == Read(cfg, g)
  {
    match f
    case NumElements => cfg.(diamond := cfg.diamond.(numElements := v.i))
    case Depth => cfg.(diamond := cfg.diamond.(depth := v.r))
    case TipPressure => cfg.(diamond := cfg.diamond.(tipPressure := v.r))
    case InitialProfile => cfg.(diamond := cfg.diamond.(initialProfile := v.s))
    case NumSamplePoints => cfg.(raman := cfg.raman.(numSamplePoints := v.i))
    case MaxFreq => cfg.(raman := cfg.raman.(maxFreq := v.r))
    case MinFreq => cfg.(raman := cfg.raman.(minFreq := v.r))
    case Intensity => cfg.(laser := cfg.laser.(intensity := v.r))
    case MaxIter => cfg.(general := cfg.general.(maxIter := v.i))
    case SignalOutputFile => cfg.(general := cfg.general.(signalOutputFile := v.s))
    case SignalInputFile => cfg.(general := cfg.general.(signalInputFile := v.s))
    case PressureOutputFile => cfg.(general := cfg.general.(pressureOutputFile := v.s))
    case FittedSignalFile => cfg.(general := cfg.general.(fittedSignalFile := v.s))
    case FittedPressureFile => cfg.(general := cfg.general.(fittedPressureFile := v.s))
  }

  lemma DiamondExtensional(a: Config, b: Config)
    requires Read(a, NumElements) == Read(b, NumElements) && Read(a, Depth) == Read(b, Depth)
    requires Read(a, TipPressure) == Read(b, TipPressure) && Read(a, InitialProfile) == Read(b, InitialProfile)
    ensures a.diamond == b.diamond
  {
  }

  lemma RamanExtensional(a: Config, b: Config)
    requires Read(a, NumSamplePoints) == Read(b, NumSamplePoints)
    requires Read(a, MaxFreq) == Read(b, MaxFreq) && Read(a, MinFreq) == Read(b, MinFreq)
    ensures a.raman == b.raman
  {
  }

  lemma GeneralExtensional(a: Config, b: Config)
    requires Read(a, MaxIter) == Read(b, MaxIter) && Read(a, SignalOutputFile) == Read(b, SignalOutputFile)
    requires Read(a, SignalInputFile) == Read(b, SignalInputFile)
    requires Read(a, PressureOutputFile) == Read(b, PressureOutputFile)
    requires Read(a, FittedSignalFile) == Read(b, FittedSignalFile)
    requires Read(a, FittedPressureFile) == Read(b, FittedPressureFile)
    ensures a.general == b.general
  {
  }

  /** Two configurations that agree on every field are the same configuration. */
  lemma ConfigExtensional(a: Config, b: Config)
    requires forall f :: Read(a, f) == Read(b, f)
    ensures a == b
  {
    DiamondExtensional(a, b);
    RamanExtensional(a, b);
    assert Read(a, Intensity) == Read(b, Intensity);
    GeneralExtensional(a, b);
  }

  // ---------------------------------------------------------------------
  // The four tables
  // ---------------------------------------------------------------------

  const DiamondSettingsInfo: Schema := [
    SchemaEntry("DEPTH", SettingInfo(PositiveFloat, {}, "0", true, Depth)),
    SchemaEntry("INITIAL_PROFILE", SettingInfo(Text, {"LINEAR", "QUADRATIC"}, "LINEAR", false, InitialProfile)),
    SchemaEntry("NELEM", SettingInfo(PositiveInteger, {}, "100", false, NumElements)),
    SchemaEntry("TIP_PRESSURE", SettingInfo(PositiveFloat, {}, "0", false, TipPressure))
  ]

  const RamanSettingsInfo: Schema := [
    SchemaEntry("MAX_FREQ", SettingInfo(PositiveFloat, {}, "1500", false, MaxFreq)),
    SchemaEntry("MIN_FREQ", SettingInfo(PositiveFloat, {}, "1000", false, MinFreq)),
    SchemaEntry("NFREQ", SettingInfo(PositiveInteger, {}, "1000", false, NumSamplePoints))
  ]

  const LaserSettingsInfo: Schema := [
    SchemaEntry("INTENSITY", SettingInfo(PositiveFloat, {}, "100", false, Intensity))
  ]

  const GeneralSettingsInfo: Schema := [
    SchemaEntry("FIT_PRESS_OUT", SettingInfo(Text, {}, "fitted_pressure.out", false, FittedPressureFile)),
    SchemaEntry("FIT_SIG_OUT", SettingInfo(Text, {}, "fitted_signal.out", false, FittedSignalFile)),
    SchemaEntry("MAX_ITER", SettingInfo(PositiveInteger, {}, "100", false, MaxIter)),
    SchemaEntry("PRESS_OUT", SettingInfo(Text, {}, "pressure.out", false, PressureOutputFile)),
    SchemaEntry("SIG_IN", SettingInfo(Text, {}, "signal.in", false, SignalInputFile)),
    SchemaEntry("SIG_OUT", SettingInfo(Text, {}, "signal.out", false, SignalOutputFile))
  ]

  /** The table of the section that fills record `s`. */
  function SchemaOf(s: StructId): (r: Schema)
    ensures AllWellTyped(r)
  {
    match s
    case DiamondStruct => DiamondWellTyped(); DiamondSettingsInfo
    case RamanStruct => RamanWellTyped(); RamanSettingsInfo
    case LaserStruct => LaserWellTyped(); LaserSettingsInfo
    case GeneralStruct => GeneralWellTyped(); GeneralSettingsInfo
  }

  /** Each of the four tables sends every key to a field of its kind's type. */
  lemma DiamondWellTyped()
    ensures AllWellTyped(DiamondSettingsInfo)
  {
  }

  lemma RamanWellTyped()
    ensures AllWellTyped(RamanSettingsInfo)
  {
  }

  lemma LaserWellTyped()
    ensures AllWellTyped(LaserSettingsInfo)
  {
  }

  lemma GeneralWellTyped()
    ensures AllWellTyped(GeneralSettingsInfo)
  {
  }

  /** The section name, after `&`, that selects record `s`. */
  function SectionName(s: StructId): string {
    match s
    case DiamondStruct => "DIAMOND"
    case RamanStruct => "RAMAN"
    case LaserStruct => "LASER"
    case GeneralStruct => "GENERAL"
  }
}
