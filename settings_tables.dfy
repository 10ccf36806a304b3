/**
  Facts about the four settings tables of settings.h: what each key is for,
  its default, and what reading a section made of defaults yields.
*/
module SettingsTables {
  import opened Wrappers
  import opened Strings
  import opened SettingsSchema
  import opened SettingsReader
  import opened SettingsProperties

  /** Strings that agree up to position `k` and differ there are ordered by that character. */
  lemma {:induction false} LexLessAt(a: string, b: string, k: nat)
    requires k < |a| && k < |b| && a[..k] == b[..k] && a[k] < b[k]
    ensures LexLess(a, b)
  {
    if k > 0 {
      assert a[0] == a[..k][0] == b[..k][0] == b[0];
      assert a[1..][..k - 1] == a[..k][1..] == b[..k][1..] == b[1..][..k - 1];
      LexLessAt(a[1..], b[1..], k - 1);
    }
  }

  lemma DiamondSortedAt(i: nat)
    requires 0 < i < |DiamondSettingsInfo|
    ensures LexLess(DiamondSettingsInfo[i - 1].key, DiamondSettingsInfo[i].key)
  {
    if i == 1 {
      LexLessAt("DEPTH", "INITIAL_PROFILE", 0);
    } else if i == 2 {
      LexLessAt("INITIAL_PROFILE", "NELEM", 0);
    } else {
      LexLessAt("NELEM", "TIP_PRESSURE", 0);
    }
  }

  lemma RamanSortedAt(i: nat)
    requires 0 < i < |RamanSettingsInfo|
    ensures LexLess(RamanSettingsInfo[i - 1].key, RamanSettingsInfo[i].key)
  {
    if i == 1 {
      assert "MAX_FREQ"[..1] == "MIN_FREQ"[..1];
      LexLessAt("MAX_FREQ", "MIN_FREQ", 1);
    } else {
      LexLessAt("MIN_FREQ", "NFREQ", 0);
    }
  }

  lemma GeneralSortedAt(i: nat)
    requires 0 < i < |GeneralSettingsInfo|
    ensures LexLess(GeneralSettingsInfo[i - 1].key, GeneralSettingsInfo[i].key)
  {
    if i == 1 {
      assert "FIT_PRESS_OUT"[..4] == "FIT_SIG_OUT"[..4];
      LexLessAt("FIT_PRESS_OUT", "FIT_SIG_OUT", 4);
    } else if i == 2 {
      LexLessAt("FIT_SIG_OUT", "MAX_ITER", 0);
    } else if i == 3 {
      LexLessAt("MAX_ITER", "PRESS_OUT", 0);
    } else if i == 4 {
      LexLessAt("PRESS_OUT", "SIG_IN", 0);
    } else {
      assert "SIG_IN"[..4] == "SIG_OUT"[..4];
      LexLessAt("SIG_IN", "SIG_OUT", 4);
    }
  }

  /** Each table lists its keys in std::map order. */
  lemma TablesSorted(s: StructId)
    ensures Sorted(SchemaOf(s))
  {
    match s
    case DiamondStruct =>
      forall i | 0 < i < |DiamondSettingsInfo|
        ensures LexLess(DiamondSettingsInfo[i - 1].key, DiamondSettingsInfo[i].key)
      {
        DiamondSortedAt(i);
      }
    case RamanStruct =>
      forall i | 0 < i < |RamanSettingsInfo|
        ensures LexLess(RamanSettingsInfo[i - 1].key, RamanSettingsInfo[i].key)
      {
        RamanSortedAt(i);
      }
    case LaserStruct =>
    case GeneralStruct =>
      forall i | 0 < i < |GeneralSettingsInfo|
        ensures LexLess(GeneralSettingsInfo[i - 1].key, GeneralSettingsInfo[i].key)
      {
        GeneralSortedAt(i);
      }
  }

  /** The position, in its record's table, of the entry that writes field `f`. */
  function EntryIndex(f: FieldId): nat {
    match f
    case Depth => 0
    case InitialProfile => 1
    case NumElements => 2
    case TipPressure => 3
    case MaxFreq => 0
    case MinFreq => 1
    case NumSamplePoints => 2
    case Intensity => 0
    case FittedPressureFile => 0
    case FittedSignalFile => 1
    case MaxIter => 2
    case PressureOutputFile => 3
    case SignalInputFile => 4
    case SignalOutputFile => 5
  }

  /** Every field of a record is written by the entry at EntryIndex of that record's table. */
  lemma FieldHasEntry(f: FieldId)
    ensures EntryIndex(f) < |SchemaOf(StructOf(f))|
    ensures SchemaOf(StructOf(f))[EntryIndex(f)].info.field == f
  {
    match f
    case NumElements | Depth | TipPressure | InitialProfile =>
    case NumSamplePoints | MaxFreq | MinFreq =>
    case Intensity =>
    case _ =>
  }

  /** The entry at position `i` writes a field of the table's own record, and EntryIndex finds it there. */
  lemma EntryHasField(s: StructId, i: nat)
    requires i < |SchemaOf(s)|
    ensures StructOf(SchemaOf(s)[i].info.field) == s
    ensures EntryIndex(SchemaOf(s)[i].info.field) == i
  {
    match s
    case DiamondStruct =>
    case RamanStruct =>
    case LaserStruct =>
    case GeneralStruct =>
  }

  /**
    Every table writes only fields of its own record, never the same field
    twice, and every field of the record is written by some entry.
  */
  lemma TablesCoverTheirRecord(s: StructId)
    ensures DistinctFields(SchemaOf(s))
    ensures forall i :: 0 <= i < |SchemaOf(s)| ==> StructOf(SchemaOf(s)[i].info.field) == s
    ensures forall f :: StructOf(f) == s ==>
      EntryIndex(f) < |SchemaOf(s)| && SchemaOf(s)[EntryIndex(f)].info.field == f
  {
    forall i | 0 <= i < |SchemaOf(s)|
      ensures StructOf(SchemaOf(s)[i].info.field) == s && EntryIndex(SchemaOf(s)[i].info.field) == i
    {
      EntryHasField(s, i);
    }
    forall f | StructOf(f) == s
      ensures EntryIndex(f) < |SchemaOf(s)| && SchemaOf(s)[EntryIndex(f)].info.field == f
    {
      FieldHasEntry(f);
    }
  }

  /** The DIAMOND section knows exactly the keys NELEM, DEPTH, INITIAL_PROFILE and TIP_PRESSURE. */
  lemma DiamondKeys()
    ensures Keys(SchemaOf(DiamondStruct)) == {"NELEM", "DEPTH", "INITIAL_PROFILE", "TIP_PRESSURE"}
  {
    var t := DiamondSettingsInfo;
    assert t[0] in t && t[1] in t && t[2] in t && t[3] in t;
  }

  /** DEPTH of DIAMOND is the only required setting. */
  lemma OnlyDepthRequired(s: StructId, i: nat)
    requires i < |SchemaOf(s)|
    ensures SchemaOf(s)[i].info.required <==> s == DiamondStruct && SchemaOf(s)[i].key == "DEPTH"
  {
  }

  /**
    INITIAL_PROFILE is the only setting with allowed values, LINEAR and
    QUADRATIC, and its default is one of them.
  */
  lemma OnlyInitialProfileRestricted(s: StructId, i: nat)
    requires i < |SchemaOf(s)|
    ensures SchemaOf(s)[i].info.allowedValues != {} <==> SchemaOf(s)[i].key == "INITIAL_PROFILE"
    ensures SchemaOf(s)[i].key == "INITIAL_PROFILE" ==>
      SchemaOf(s)[i].info.allowedValues == {"LINEAR", "QUADRATIC"} &&
      SchemaOf(s)[i].info.defaultValue in SchemaOf(s)[i].info.allowedValues
  {
  }

  /** Every numeric setting refuses negative values; the rest are text. */
  lemma NumericSettingsNonNegative(s: StructId, i: nat)
    requires i < |SchemaOf(s)|
    ensures SchemaOf(s)[i].info.settingType in {PositiveInteger, PositiveFloat, Text}
  {
  }

  /** The value each table entry's default validates to. */
  function DefaultValue(f: FieldId): Value {
    match f
    case NumElements => IntValue(100)
    case Depth => RealValue(0.0)
    case TipPressure => RealValue(0.0)
    case InitialProfile => TextValue("LINEAR")
    case NumSamplePoints => IntValue(1000)
    case MaxFreq => RealValue(1500.0)
    case MinFreq => RealValue(1000.0)
    case Intensity => RealValue(100.0)
    case MaxIter => IntValue(100)
    case SignalOutputFile => TextValue("signal.out")
    case SignalInputFile => TextValue("signal.in")
    case PressureOutputFile => TextValue("pressure.out")
    case FittedSignalFile => TextValue("fitted_signal.out")
    case FittedPressureFile => TextValue("fitted_pressure.out")
  }

  /** The numbers the numeric defaults denote. */
  lemma DefaultNumbers()
    ensures DecimalValue("0") == 0 && DecimalValue("100") == 100
    ensures DecimalValue("1000") == 1000 && DecimalValue("1500") == 1500
  {
    assert "10"[..1] == "1" && "15"[..1] == "1";
    assert "100"[..2] == "10" && "150"[..2] == "15";
    assert "1000"[..3] == "100" && "1500"[..3] == "150";
    assert "1"[..0] == "" && "0"[..0] == "";
  }

  /** The default of one table entry validates to the value DefaultValue lists for its field. */
  predicate DefaultValidates(e: SchemaEntry) {
    Validate(e.info.defaultValue, e.info) == Success(DefaultValue(e.info.field))
  }

  /**
    The shape of a default that makes it validate: plain digits denoting the
    listed value for the numeric kinds, an allowed text for TEXT.
  */
  predicate DefaultWellFormed(e: SchemaEntry) {
    var d := e.info.defaultValue;
    match e.info.settingType
    case PositiveInteger =>
      e.info.allowedValues == {} && d != [] && AllDigits(d) && DecimalValue(d) <= IntMax &&
      DefaultValue(e.info.field) == IntValue(DecimalValue(d))
    case PositiveFloat =>
      e.info.allowedValues == {} && d != [] && AllDigits(d) &&
      DefaultValue(e.info.field) == RealValue(DecimalValue(d) as real)
    case Text =>
      (e.info.allowedValues == {} || d in e.info.allowedValues) && DefaultValue(e.info.field) == TextValue(d)
    case _ => false
  }

  /** A well-formed default validates to the value DefaultValue lists. */
  lemma WellFormedDefaultValidates(e: SchemaEntry)
    requires DefaultWellFormed(e)
    ensures DefaultValidates(e)
  {
    var d := e.info.defaultValue;
    if e.info.settingType == PositiveInteger {
      StoIReadsDigits(d, []);
      assert d + [] == d;
    } else if e.info.settingType == PositiveFloat {
      StoFOfDigits(d);
    }
  }

  lemma DiamondDefaultsWellFormed()
    ensures forall i :: 0 <= i < |DiamondSettingsInfo| ==> DefaultWellFormed(DiamondSettingsInfo[i])
  {
    DefaultNumbers();
  }

  lemma RamanDefaultsWellFormed()
    ensures forall i :: 0 <= i < |RamanSettingsInfo| ==> DefaultWellFormed(RamanSettingsInfo[i])
  {
    DefaultNumbers();
  }

  lemma LaserDefaultsWellFormed()
    ensures forall i :: 0 <= i < |LaserSettingsInfo| ==> DefaultWellFormed(LaserSettingsInfo[i])
  {
    DefaultNumbers();
  }

  lemma GeneralDefaultsWellFormed()
    ensures forall i :: 0 <= i < |GeneralSettingsInfo| ==> DefaultWellFormed(GeneralSettingsInfo[i])
  {
    DefaultNumbers();
  }

  /** Every default in the four tables is well formed. */
  lemma TableDefaultsWellFormed(s: StructId, i: nat)
    requires i < |SchemaOf(s)|
    ensures DefaultWellFormed(SchemaOf(s)[i])
  {
    match s
    case DiamondStruct => DiamondDefaultsWellFormed();
    case RamanStruct => RamanDefaultsWellFormed();
    case LaserStruct => LaserDefaultsWellFormed();
    case GeneralStruct => GeneralDefaultsWellFormed();
  }

  /** Every default passes its own entry's checks, and gives the value listed in DefaultValue. */
  lemma DefaultsValidate(s: StructId, i: nat)
    requires i < |SchemaOf(s)|
    ensures DefaultValidates(SchemaOf(s)[i])
  {
    TableDefaultsWellFormed(s, i);
    WellFormedDefaultValidates(SchemaOf(s)[i]);
  }

  /** `out` is `cfg` with every field of record `s` set to its default and nothing else changed. */
  ghost predicate HoldsDefaults(out: Config, cfg: Config, s: StructId) {
    && (forall f :: StructOf(f) == s ==> Read(out, f) == DefaultValue(f))
    && (forall f :: StructOf(f) != s ==> Read(out, f) == Read(cfg, f))
  }

  /**
    A section made only of defaults: when no entry is required and every
    default validates, the section succeeds, each entry's field holds its
    default's value and every other field is unchanged.
  */
  lemma DefaultsOnly(cfg: Config, section: string, schema: Schema)
    requires AllWellTyped(schema) && DistinctFields(schema)
    requires forall i :: 0 <= i < |schema| ==> !schema[i].info.required && DefaultValidates(schema[i])
    ensures ProcessWithSchema(cfg, section, schema, map[]).Success?
    ensures var out := ProcessWithSchema(cfg, section, schema, map[]).value;
      && (forall i :: 0 <= i < |schema| ==> Read(out, schema[i].info.field) == DefaultValue(schema[i].info.field))
      && (forall f :: (forall i :: 0 <= i < |schema| ==> schema[i].info.field != f) ==> Read(out, f) == Read(cfg, f))
  {
    var user: map<string, string> := map[];
    assert forall i :: 0 <= i < |schema| ==> ValueFor(schema[i], user) == schema[i].info.defaultValue;
    AssignEntriesSucceeds(cfg, section, schema, user);
    AssignEntriesWrites(cfg, section, schema, user);
    InvalidKeyReportedLast(cfg, section, schema, user);
  }

  /**
    A RAMAN, LASER or GENERAL section with no lines sets every field of its
    record to the default settings.h lists, and changes nothing else.
  */
  lemma EmptySectionGivesDefaults(cfg: Config, s: StructId)
    requires s != DiamondStruct
    ensures ProcessSectionSpec(cfg, SectionName(s), []).Success?
    ensures HoldsDefaults(ProcessSectionSpec(cfg, SectionName(s), []).value, cfg, s)
  {
    var schema := SchemaOf(s);
    assert SchemaFor(SectionName(s)) == Some(schema);
    assert UserSettings([]) == map[];
    TablesCoverTheirRecord(s);
    forall i | 0 <= i < |schema|
      ensures !schema[i].info.required && DefaultValidates(schema[i])
    {
      OnlyDepthRequired(s, i);
      DefaultsValidate(s, i);
    }
    DefaultsOnly(cfg, SectionName(s), schema);
    var out := ProcessSectionSpec(cfg, SectionName(s), []).value;
    forall f | StructOf(f) == s
      ensures Read(out, f) == DefaultValue(f)
    {
      var i := EntryIndex(f);
    }
  }

  /** The user's map of a section made of the single line `DEPTH=d`. */
  lemma DepthLineSettings(d: string)
    requires AllDigits(d)
    ensures UserSettings(["DEPTH=" + d]) == map["DEPTH" := d]
  {
    var line := "DEPTH=" + d;
    assert line == "DEPTH" + "=" + d;
    SplitKeyValueRoundTrip("DEPTH", d);
    assert [line][..0] == [];
  }

  /** DEPTH given as plain digits validates to their value. */
  lemma DepthEntryValidates(d: string)
    requires d != [] && AllDigits(d) && DecimalValue(d) as real < FloatOverflow
    ensures Validate(d, DiamondSettingsInfo[0].info) == Success(RealValue(DecimalValue(d) as real))
  {
    StoFOfDigits(d);
  }

  /** With only DEPTH given, every DIAMOND entry passes. */
  lemma DepthOnlyEntries(d: string)
    requires d != [] && AllDigits(d) && DecimalValue(d) as real < FloatOverflow
    ensures var schema := DiamondSettingsInfo;
      var user := map["DEPTH" := d];
      forall i :: 0 <= i < |schema| ==>
        && (!schema[i].info.required || schema[i].key in user)
        && Validate(ValueFor(schema[i], user), schema[i].info)
           == Success(if i == 0 then RealValue(DecimalValue(d) as real) else DefaultValue(schema[i].info.field))
  {
    var schema := DiamondSettingsInfo;
    var user := map["DEPTH" := d];
    forall i | 0 <= i < |schema|
      ensures (!schema[i].info.required || schema[i].key in user)
      ensures Validate(ValueFor(schema[i], user), schema[i].info)
           == Success(if i == 0 then RealValue(DecimalValue(d) as real) else DefaultValue(schema[i].info.field))
    {
      if i == 0 {
        assert ValueFor(schema[0], user) == d;
        DepthEntryValidates(d);
      } else {
        DiamondOtherEntry(i);
        assert ValueFor(schema[i], user) == schema[i].info.defaultValue;
      }
    }
  }

  /** The DIAMOND entries after DEPTH: not DEPTH, not required, and their defaults validate. */
  lemma DiamondOtherEntry(i: nat)
    requires 1 <= i < |DiamondSettingsInfo|
    ensures DiamondSettingsInfo[i].key != "DEPTH" && !DiamondSettingsInfo[i].info.required
    ensures DefaultValidates(DiamondSettingsInfo[i])
  {
    DiamondDefaultsWellFormed();
    WellFormedDefaultValidates(DiamondSettingsInfo[i]);
  }

  /** The table loop of a DIAMOND section that gives only DEPTH succeeds. */
  lemma DiamondDepthSucceeds(cfg: Config, d: string)
    requires d != [] && AllDigits(d) && DecimalValue(d) as real < FloatOverflow
    ensures AssignEntries(cfg, "DIAMOND", SchemaOf(DiamondStruct), map["DEPTH" := d]).Success?
  {
    DepthOnlyEntries(d);
    AssignEntriesSucceeds(cfg, "DIAMOND", SchemaOf(DiamondStruct), map["DEPTH" := d]);
  }

  /** After that loop, DEPTH holds the given number and the other DIAMOND fields their defaults. */
  lemma DiamondDepthReads(cfg: Config, d: string)
    requires d != [] && AllDigits(d) && DecimalValue(d) as real < FloatOverflow
    ensures AssignEntries(cfg, "DIAMOND", SchemaOf(DiamondStruct), map["DEPTH" := d]).Success?
    ensures var out := AssignEntries(cfg, "DIAMOND", SchemaOf(DiamondStruct), map["DEPTH" := d]).value;
      forall i :: 0 <= i < |DiamondSettingsInfo| ==>
        Read(out, DiamondSettingsInfo[i].info.field)
          == if i == 0 then RealValue(DecimalValue(d) as real) else DefaultValue(DiamondSettingsInfo[i].info.field)
  {
    DiamondDepthSucceeds(cfg, d);
    TablesCoverTheirRecord(DiamondStruct);
    AssignEntriesWrites(cfg, "DIAMOND", SchemaOf(DiamondStruct), map["DEPTH" := d]);
    DepthOnlyEntries(d);
  }

  /** That loop leaves every field outside the DIAMOND record as it was. */
  lemma DiamondDepthKeepsOthers(cfg: Config, d: string)
    requires d != [] && AllDigits(d) && DecimalValue(d) as real < FloatOverflow
    ensures AssignEntries(cfg, "DIAMOND", SchemaOf(DiamondStruct), map["DEPTH" := d]).Success?
    ensures var out := AssignEntries(cfg, "DIAMOND", SchemaOf(DiamondStruct), map["DEPTH" := d]).value;
      forall f :: StructOf(f) != DiamondStruct ==> Read(out, f) == Read(cfg, f)
  {
    var schema := SchemaOf(DiamondStruct);
    DiamondDepthSucceeds(cfg, d);
    TablesCoverTheirRecord(DiamondStruct);
    AssignEntriesWrites(cfg, "DIAMOND", schema, map["DEPTH" := d]);
    var out := AssignEntries(cfg, "DIAMOND", schema, map["DEPTH" := d]).value;
    forall f | StructOf(f) != DiamondStruct
      ensures Read(out, f) == Read(cfg, f)
    {
      assert forall i :: 0 <= i < |schema| ==> schema[i].info.field != f;
    }
  }

  /** The table loop of a DIAMOND section that gives only DEPTH: the DIAMOND record is replaced. */
  lemma DiamondDepthAssigned(cfg: Config, d: string)
    requires d != [] && AllDigits(d) && DecimalValue(d) as real < FloatOverflow
    ensures var r := AssignEntries(cfg, "DIAMOND", SchemaOf(DiamondStruct), map["DEPTH" := d]);
      && r.Success?
      && r.value == cfg.(diamond := DiamondSettings(100, DecimalValue(d) as real, 0.0, "LINEAR"))
  {
    DiamondDepthReads(cfg, d);
    DiamondDepthKeepsOthers(cfg, d);
    DiamondOutcome(cfg, d, AssignEntries(cfg, "DIAMOND", SchemaOf(DiamondStruct), map["DEPTH" := d]).value);
  }

  /**
    A configuration whose DIAMOND fields hold the given depth and the defaults,
    and whose other fields are those of `cfg`, is `cfg` with that DIAMOND record.
  */
  lemma DiamondOutcome(cfg: Config, d: string, out: Config)
    requires AllDigits(d)
    requires forall i :: 0 <= i < |DiamondSettingsInfo| ==>
      Read(out, DiamondSettingsInfo[i].info.field)
        == if i == 0 then RealValue(DecimalValue(d) as real) else DefaultValue(DiamondSettingsInfo[i].info.field)
    requires forall f :: StructOf(f) != DiamondStruct ==> Read(out, f) == Read(cfg, f)
    ensures out == cfg.(diamond := DiamondSettings(100, DecimalValue(d) as real, 0.0, "LINEAR"))
  {
    var wanted := cfg.(diamond := DiamondSettings(100, DecimalValue(d) as real, 0.0, "LINEAR"));
    assert Read(out, DiamondSettingsInfo[0].info.field) == Read(wanted, Depth);
    assert Read(out, DiamondSettingsInfo[1].info.field) == Read(wanted, InitialProfile);
    assert Read(out, DiamondSettingsInfo[2].info.field) == Read(wanted, NumElements);
    assert Read(out, DiamondSettingsInfo[3].info.field) == Read(wanted, TipPressure);
    forall f ensures Read(out, f) == Read(wanted, f) {
    }
    ConfigExtensional(out, wanted);
  }

  /**
    A DIAMOND section that gives only DEPTH, as plain digits: the depth is
    their value and the other three fields take their defaults.
  */
  lemma DiamondWithDepth(cfg: Config, d: string)
    requires d != [] && AllDigits(d) && DecimalValue(d) as real < FloatOverflow
    ensures ProcessSectionSpec(cfg, "DIAMOND", ["DEPTH=" + d])
         == Success(cfg.(diamond := DiamondSettings(100, DecimalValue(d) as real, 0.0, "LINEAR")))
  {
    var schema := DiamondSettingsInfo;
    var user := map["DEPTH" := d];
    DepthLineSettings(d);
    DiamondDepthAssigned(cfg, d);
    assert SchemaFor("DIAMOND") == Some(schema);
    assert user.Keys - Keys(schema) == {} by {
      assert schema[0] in schema;
    }
  }

  /** The table loop stops at its first entry when that entry's value fails validation. */
  lemma FirstEntryFails(cfg: Config, section: string, entries: Schema, user: map<string, string>, err: SettingsError)
    requires AllWellTyped(entries) && entries != []
    requires !entries[0].info.required || entries[0].key in user
    requires Validate(ValueFor(entries[0], user), entries[0].info) == Failure(err)
    ensures AssignEntries(cfg, section, entries, user) == Failure(err)
  {
  }

  /**
    A DIAMOND section whose DEPTH is too large for a float: std::stof throws
    out_of_range on the first entry of the table, so the section fails with it.
  */
  lemma DiamondDepthOverflow(cfg: Config, d: string)
    requires d != [] && AllDigits(d) && DecimalValue(d) as real >= FloatOverflow
    ensures ProcessSectionSpec(cfg, "DIAMOND", ["DEPTH=" + d]) == Failure(ConversionFailed(d, OutOfRange))
  {
    var schema := SchemaOf(DiamondStruct);
    var user := map["DEPTH" := d];
    DepthLineSettings(d);
    FloatOverflowRefused(d, DiamondSettingsInfo[0].info);
    assert ValueFor(schema[0], user) == d;
    FirstEntryFails(cfg, "DIAMOND", schema, user, ConversionFailed(d, OutOfRange));
    assert SchemaFor("DIAMOND") == Some(schema);
  }
}
