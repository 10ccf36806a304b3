/**
  What the configuration reader guarantees, stated over the functions that
  specify its stages: cleaning, sectioning, key/value splitting, section
  processing and value validation.
*/
module SettingsProperties {
  import opened Wrappers
  import opened Strings
  import opened SettingsSchema
  import opened SettingsReader

  // ---------------------------------------------------------------------
  // (a) Cleaning
  // ---------------------------------------------------------------------

  /** After cleaning, no line is empty, holds a `#` or holds whitespace. */
  lemma {:induction false} CleanWellFormed(lines: seq<string>)
    ensures forall j :: 0 <= j < |Clean(lines)| ==> WellCleaned(Clean(lines)[j])
  {
    if lines != [] {
      CleanWellFormed(lines[..|lines| - 1]);
    }
  }

  /** A line with no `#` keeps all its non-space text, in order. */
  lemma CleanLineWithoutComment(line: string, c: char)
    requires '#' !in line
    ensures CleanLine(line) == RemoveSpaces(line)
    ensures c in CleanLine(line) <==> c in line && !IsSpace(c)
  {
    RemoveSpacesKeeps(line, c);
  }

  /** A line that is already clean is left as it is. */
  lemma CleanLineOfCleanLine(line: string)
    requires WellCleaned(line)
    ensures CleanLine(line) == line
  {
    assert FindFirst(line, '#') == |line|;
    assert line[..|line|] == line;
    RemoveSpacesNoSpace(line);
  }

  /** Cleaning is idempotent. */
  lemma {:induction false} CleanIdempotent(lines: seq<string>)
    ensures Clean(Clean(lines)) == Clean(lines)
  {
    if lines != [] {
      var prefix := lines[..|lines| - 1];
      var last := CleanLine(lines[|lines| - 1]);
      CleanIdempotent(prefix);
      if last != [] {
        CleanAppend(Clean(prefix), [last]);
        CleanLineOfCleanLine(last);
        assert [last][..0] == [];
      }
    }
  }

  // ---------------------------------------------------------------------
  // (b) Sectioning
  // ---------------------------------------------------------------------

  /** Neither a section start nor a section end. */
  predicate Plain(line: string) {
    !IsSectionStart(line) && line != "/"
  }

  predicate AllPlain(lines: seq<string>) {
    forall i :: 0 <= i < |lines| ==> Plain(lines[i])
  }

  /** Ordinary lines are gathered, in order, under the current section. */
  lemma {:induction false} ScanGathers(body: seq<string>, rest: seq<string>, current: string, buffer: seq<string>)
    requires AllPlain(body)
    ensures Scan(body + rest, current, buffer) == Scan(rest, current, buffer + body)
    decreases |body|
  {
    if body == [] {
      assert body + rest == rest && buffer + body == buffer;
    } else {
      assert (body + rest)[0] == body[0];
      assert (body + rest)[1..] == body[1..] + rest;
      ScanGathers(body[1..], rest, current, buffer + [body[0]]);
      assert buffer + [body[0]] + body[1..] == buffer + body;
    }
  }

  /**
    `&NAME`, ordinary lines, then `/`: process_section is called once, with NAME
    and every line gathered since the last reset; then both are cleared.
  */
  lemma ScanSection(name: string, body: seq<string>, rest: seq<string>, current: string, buffer: seq<string>)
    requires AllPlain(body)
    ensures Scan(["&" + name] + body + ["/"] + rest, current, buffer)
         == [SectionCall(name, buffer + body)] + Scan(rest, "", [])
  {
    var lines := ["&" + name] + body + ["/"] + rest;
    assert lines[1..] == body + (["/"] + rest);
    assert ("&" + name)[1..] == name;
    ScanGathers(body, ["/"] + rest, name, buffer);
  }

  /**
    A second `&` line before the `/` renames the section but keeps the lines
    already gathered under the first name.
  */
  lemma ScanRenameKeepsLines(first: string, second: string, body1: seq<string>, body2: seq<string>, rest: seq<string>)
    requires AllPlain(body1) && AllPlain(body2)
    ensures Scan(["&" + first] + body1 + ["&" + second] + body2 + ["/"] + rest, "", [])
         == [SectionCall(second, body1 + body2)] + Scan(rest, "", [])
  {
    var lines := ["&" + first] + body1 + ["&" + second] + body2 + ["/"] + rest;
    assert lines[1..] == body1 + (["&" + second] + body2 + ["/"] + rest);
    assert ("&" + first)[1..] == first;
    ScanGathers(body1, ["&" + second] + body2 + ["/"] + rest, first, []);
    assert [] + body1 == body1;
    ScanSection(second, body2, rest, first, body1);
  }

  /** Lines after the last `/` never reach process_section. */
  lemma {:induction false} ScanIgnoresUnfinished(lines: seq<string>, tail: seq<string>, current: string, buffer: seq<string>)
    requires forall i :: 0 <= i < |tail| ==> tail[i] != "/"
    ensures Scan(lines + tail, current, buffer) == Scan(lines, current, buffer)
    decreases |lines| + |tail|
  {
    if lines == [] {
      assert lines + tail == tail;
      if tail != [] {
        ScanIgnoresUnfinished([], tail[1..], if IsSectionStart(tail[0]) then tail[0][1..] else current,
          if IsSectionStart(tail[0]) then buffer else buffer + [tail[0]]);
        assert [] + tail[1..] == tail[1..];
      }
    } else {
      assert (lines + tail)[0] == lines[0];
      assert (lines + tail)[1..] == lines[1..] + tail;
      if IsSectionStart(lines[0]) {
        ScanIgnoresUnfinished(lines[1..], tail, lines[0][1..], buffer);
      } else if lines[0] == "/" {
        ScanIgnoresUnfinished(lines[1..], tail, "", []);
      } else {
        ScanIgnoresUnfinished(lines[1..], tail, current, buffer + [lines[0]]);
      }
    }
  }

  /** The number of `/` lines. */
  function CountEnds(lines: seq<string>): nat {
    if lines == [] then 0 else (if lines[0] == "/" then 1 else 0) + CountEnds(lines[1..])
  }

  /** process_section is called exactly once per `/` line. */
  lemma {:induction false} ScanCallsPerEnd(lines: seq<string>, current: string, buffer: seq<string>)
    ensures |Scan(lines, current, buffer)| == CountEnds(lines)
    decreases |lines|
  {
    if lines != [] {
      if IsSectionStart(lines[0]) {
        ScanCallsPerEnd(lines[1..], lines[0][1..], buffer);
      } else if lines[0] == "/" {
        ScanCallsPerEnd(lines[1..], "", []);
      } else {
        ScanCallsPerEnd(lines[1..], current, buffer + [lines[0]]);
      }
    }
  }

  /**
    Lines followed by a `/` before any `&` are processed under the empty name,
    which no table has.
  */
  lemma OrphanLinesRejected(cfg: Config, body: seq<string>, rest: seq<string>)
    requires AllPlain(body)
    ensures ProcessInput(cfg, body + ["/"] + rest) == Failure(SectionNotRecognised(""))
  {
    ScanGathers(body, ["/"] + rest, "", []);
    assert body + ["/"] + rest == body + (["/"] + rest);
    assert [] + body == body;
    var calls := Scan(body + ["/"] + rest, "", []);
    assert calls[0] == SectionCall("", body);
  }

  /**
    Lines that come before an `&NAME` with no `/` in between (at the start of
    the file, or after the previous `/`) are not dropped: the `&` line does not
    clear the gathered lines, so they are handed to NAME's section with its own.
  */
  lemma StrayLinesJoinNextSection(stray: seq<string>, name: string, body: seq<string>, rest: seq<string>)
    requires AllPlain(stray) && AllPlain(body)
    ensures Scan(stray + ["&" + name] + body + ["/"] + rest, "", [])
         == [SectionCall(name, stray + body)] + Scan(rest, "", [])
  {
    var after := ["&" + name] + body + ["/"] + rest;
    assert stray + ["&" + name] + body + ["/"] + rest == stray + after;
    ScanGathers(stray, after, "", []);
    assert [] + stray == stray;
    ScanSection(name, body, rest, "", stray);
  }

  // ---------------------------------------------------------------------
  // (c) One section
  // ---------------------------------------------------------------------

  function KeyOf(line: string): string {
    SplitKeyValue(line).0
  }

  /** A `KEY=VALUE` line splits back into its key and value when the key has no `=`. */
  lemma SplitKeyValueRoundTrip(key: string, value: string)
    requires '=' !in key
    ensures SplitKeyValue(key + "=" + value) == (key, value)
  {
    var line := key + "=" + value;
    assert line[|key|] == '=';
    var kv := SplitKeyValue(line);
    assert kv.0 == line[..|key|] == key;
    assert kv.1 == line[|key| + 1..] == value;
  }

  /** For a repeated key the last line wins. */
  lemma {:induction false} UserSettingsLastWins(lines: seq<string>, i: nat)
    requires i < |lines|
    requires forall j :: i < j < |lines| ==> KeyOf(lines[j]) != KeyOf(lines[i])
    ensures KeyOf(lines[i]) in UserSettings(lines)
    ensures UserSettings(lines)[KeyOf(lines[i])] == SplitKeyValue(lines[i]).1
  {
    if i < |lines| - 1 {
      var prefix := lines[..|lines| - 1];
      assert prefix[i] == lines[i];
      assert forall j :: i < j < |prefix| ==> prefix[j] == lines[j];
      UserSettingsLastWins(prefix, i);
    }
  }

  /** Only the four section names have a table. */
  lemma SchemaForKnownSections(section: string)
    ensures SchemaFor(section).Some? <==> section in {"DIAMOND", "RAMAN", "LASER", "GENERAL"}
    ensures SchemaFor(section).Some? ==> exists s :: SectionName(s) == section && SchemaFor(section).value == SchemaOf(s)
  {
    if section == "DIAMOND" { assert SectionName(DiamondStruct) == section; }
    if section == "RAMAN" { assert SectionName(RamanStruct) == section; }
    if section == "LASER" { assert SectionName(LaserStruct) == section; }
    if section == "GENERAL" { assert SectionName(GeneralStruct) == section; }
  }

  /** The table loop fails only on a missing required key, a refused value or a failed conversion. */
  lemma {:induction false} AssignEntriesErrors(cfg: Config, section: string, entries: Schema, user: map<string, string>)
    requires AllWellTyped(entries)
    ensures AssignEntries(cfg, section, entries, user).Failure? ==>
      var e := AssignEntries(cfg, section, entries, user).error;
      e.RequiredSettingNotFound? || e.InvalidValue? || e.ConversionFailed?
    decreases |entries|
  {
    if entries != [] {
      var e := entries[0];
      if !(e.info.required && e.key !in user) {
        match Validate(ValueFor(e, user), e.info)
        case Failure(_) =>
        case Success(v) =>
          AssignEntriesErrors(Assign(cfg, e.info.field, v), section, entries[1..], user);
      }
    }
  }

  /**
    A section is refused as unrecognised exactly when its name is none of
    DIAMOND, RAMAN, LASER and GENERAL.
  */
  lemma UnknownSectionRejected(cfg: Config, section: string, contents: seq<string>)
    ensures ProcessSectionSpec(cfg, section, contents) == Failure(SectionNotRecognised(section))
        <==> section !in {"DIAMOND", "RAMAN", "LASER", "GENERAL"}
  {
    SchemaForKnownSections(section);
    var user := UserSettings(contents);
    if SchemaFor(section).Some? {
      AssignEntriesErrors(cfg, section, SchemaFor(section).value, user);
    }
  }

  /** No two entries of a list write the same field. */
  predicate DistinctFields(entries: seq<SchemaEntry>) {
    forall i, j :: 0 <= i < j < |entries| ==> entries[i].info.field != entries[j].info.field
  }

  /**
    The table loop succeeds exactly when every required key is given and
    every entry's value (the user's, else the default) validates.
  */
  lemma {:induction false} AssignEntriesSucceeds(cfg: Config, section: string, entries: Schema, user: map<string, string>)
    requires AllWellTyped(entries)
    ensures AssignEntries(cfg, section, entries, user).Success? <==>
      forall i :: 0 <= i < |entries| ==>
        (!entries[i].info.required || entries[i].key in user) && Validate(ValueFor(entries[i], user), entries[i].info).Success?
    decreases |entries|
  {
    if entries != [] {
      var e := entries[0];
      if !(e.info.required && e.key !in user) && Validate(ValueFor(e, user), e.info).Success? {
        var v := Validate(ValueFor(e, user), e.info).value;
        AssignEntriesSucceeds(Assign(cfg, e.info.field, v), section, entries[1..], user);
        assert forall i :: 1 <= i < |entries| ==> entries[i] == entries[1..][i - 1];
      }
    }
  }

  /**
    When the table loop succeeds, each entry's field holds its validated value
    and every field no entry names is unchanged.
  */
  lemma {:induction false} AssignEntriesWrites(cfg: Config, section: string, entries: Schema, user: map<string, string>)
    requires AllWellTyped(entries) && DistinctFields(entries)
    requires AssignEntries(cfg, section, entries, user).Success?
    ensures var out := AssignEntries(cfg, section, entries, user).value;
      && (forall i :: 0 <= i < |entries| ==>
            Validate(ValueFor(entries[i], user), entries[i].info).Success? &&
            Read(out, entries[i].info.field) == Validate(ValueFor(entries[i], user), entries[i].info).value)
      && (forall f :: (forall i :: 0 <= i < |entries| ==> entries[i].info.field != f) ==> Read(out, f) == Read(cfg, f))
    decreases |entries|
  {
    if entries != [] {
      var e := entries[0];
      var v := Validate(ValueFor(e, user), e.info).value;
      var next := Assign(cfg, e.info.field, v);
      AssignEntriesWrites(next, section, entries[1..], user);
      assert forall i :: 1 <= i < |entries| ==> entries[i] == entries[1..][i - 1];
      var out := AssignEntries(next, section, entries[1..], user).value;
      assert forall i :: 0 < i < |entries| ==> entries[i].info.field != e.info.field;
      assert Read(out, e.info.field) == v;
    }
  }

  /** A DIAMOND section without DEPTH fails on that key, the first in table order. */
  lemma DiamondRequiresDepth(cfg: Config, contents: seq<string>)
    requires "DEPTH" !in UserSettings(contents)
    ensures ProcessSectionSpec(cfg, "DIAMOND", contents) == Failure(RequiredSettingNotFound("DEPTH", "DIAMOND"))
  {
  }

  /**
    Once the section has a table, an unknown user key is reported exactly when
    every table key was assigned and the user gave a key the table lacks; the
    key reported is the least such key. A section that succeeds has no unknown
    key and holds what the table loop assigned.
  */
  lemma InvalidKeyReportedLast(cfg: Config, section: string, schema: Schema, user: map<string, string>)
    requires AllWellTyped(schema)
    ensures var r := ProcessWithSchema(cfg, section, schema, user);
      && ((r.Failure? && r.error.InvalidKey?) <==>
           AssignEntries(cfg, section, schema, user).Success? && !(user.Keys <= Keys(schema)))
      && (r.Failure? && r.error.InvalidKey? ==> IsLeast(r.error.key, user.Keys - Keys(schema)))
      && (r.Success? <==> AssignEntries(cfg, section, schema, user).Success? && user.Keys <= Keys(schema))
      && (r.Success? ==> r == AssignEntries(cfg, section, schema, user))
  {
    AssignEntriesErrors(cfg, section, schema, user);
    if !(user.Keys <= Keys(schema)) {
      var k :| k in user.Keys && k !in Keys(schema);
      assert k in user.Keys - Keys(schema);
    }
  }

  // ---------------------------------------------------------------------
  // (d) Validation
  // ---------------------------------------------------------------------

  /** The digit prefix of digits followed by a non-digit is those digits. */
  lemma {:induction false} DigitPrefixOf(d: string, rest: string)
    requires AllDigits(d)
    requires rest == [] || !IsDigit(rest[0])
    ensures DigitPrefix(d + rest) == d
  {
    if d != [] {
      assert (d + rest)[1..] == d[1..] + rest;
      DigitPrefixOf(d[1..], rest);
      assert [d[0]] + d[1..] == d;
    } else {
      assert d + rest == rest;
    }
  }

  /** The digit prefix of a string of digits is the whole string. */
  lemma DigitPrefixWhole(d: string)
    requires AllDigits(d)
    ensures DigitPrefix(d) == d
  {
    assert |DigitPrefix(d)| == |d|;
  }

  /** Text that starts with a digit has no leading whitespace and no sign. */
  lemma DigitFirst(t: string)
    requires t != [] && IsDigit(t[0])
    ensures SkipSpaces(t) == t && SplitSign(t) == (false, t)
  {
  }

  /** std::stoi reads the leading digits and ignores what follows them. */
  lemma StoIReadsDigits(d: string, rest: string)
    requires d != [] && AllDigits(d) && DecimalValue(d) <= IntMax
    requires rest == [] || !IsDigit(rest[0])
    ensures StoI(d + rest) == Success(DecimalValue(d) as int)
  {
    assert (d + rest)[0] == d[0];
    DigitFirst(d + rest);
    DigitPrefixOf(d, rest);
  }

  /** The magnitude strtod reads from plain digits is the number they denote. */
  lemma MagnitudeOfDigits(d: string)
    requires d != [] && AllDigits(d)
    ensures Magnitude(d) == Some(DecimalValue(d) as real)
  {
    DigitPrefixWhole(d);
    assert d + [] == d;
    assert d[|d|..] == [];
    assert ExponentOf([]) == 0;
  }

  /** A whole number below the overflow bound is inside float's range: zero, or at least 1. */
  lemma DigitsInFloatRange(d: string)
    requires AllDigits(d) && DecimalValue(d) as real < FloatOverflow
    ensures !OutOfFloatRange(DecimalValue(d) as real)
  {
    var n := DecimalValue(d);
    if n > 0 {
      assert n as real >= 1.0;
    }
  }

  /** std::stof of plain digits that do not overflow a float is the number they denote. */
  lemma StoFOfDigits(d: string)
    requires d != [] && AllDigits(d) && DecimalValue(d) as real < FloatOverflow
    ensures StoF(d) == Success(DecimalValue(d) as real)
  {
    DigitFirst(d);
    MagnitudeOfDigits(d);
    DigitsInFloatRange(d);
  }

  /**
    Plain digits too large for a float make std::stof throw out_of_range, so a
    setting of a floating kind given them is refused with that conversion error.
  */
  lemma FloatOverflowRefused(d: string, info: SettingInfo)
    requires d != [] && AllDigits(d) && DecimalValue(d) as real >= FloatOverflow
    requires info.allowedValues == {} && KindType(info.settingType) == RealType
    ensures StoF(d) == Failure(OutOfRange)
    ensures Validate(d, info) == Failure(ConversionFailed(d, OutOfRange))
  {
    DigitFirst(d);
    MagnitudeOfDigits(d);
  }

  /** A minus sign followed by digits: no whitespace to skip, and the sign is negative. */
  lemma MinusFirst(d: string)
    ensures SkipSpaces("-" + d) == "-" + d && SplitSign("-" + d) == (true, d)
  {
    assert ("-" + d)[1..] == d;
  }

  /** std::stoi of a minus sign followed by digits is minus their value. */
  lemma StoIOfNegated(d: string)
    requires d != [] && AllDigits(d) && DecimalValue(d) <= IntMax
    ensures StoI("-" + d) == Success(0 - DecimalValue(d))
  {
    MinusFirst(d);
    assert SplitSign(SkipSpaces("-" + d)) == (true, d);
    DigitPrefixWhole(d);
    assert IntMin <= 0 - DecimalValue(d) <= IntMax;
  }

  /** std::stof of a minus sign followed by digits is minus their value. */
  lemma StoFOfNegated(d: string)
    requires d != [] && AllDigits(d) && DecimalValue(d) as real < FloatOverflow
    ensures StoF("-" + d) == Success(0.0 - DecimalValue(d) as real)
  {
    MinusFirst(d);
    assert SplitSign(SkipSpaces("-" + d)) == (true, d);
    MagnitudeOfDigits(d);
    DigitsInFloatRange(d);
  }

  /**
    Without allowed values, a setting of a signed kind is accepted exactly when
    its text converts and the result has the kind's sign (zero is both).
  */
  lemma SignRule(valueString: string, info: SettingInfo)
    requires info.allowedValues == {}
    ensures info.settingType == PositiveInteger ==>
      (Validate(valueString, info).Success? <==> StoI(valueString).Success? && StoI(valueString).value >= 0)
    ensures info.settingType == NegativeInteger ==>
      (Validate(valueString, info).Success? <==> StoI(valueString).Success? && StoI(valueString).value <= 0)
    ensures info.settingType == Integer ==>
      (Validate(valueString, info).Success? <==> StoI(valueString).Success?)
    ensures info.settingType == PositiveFloat ==>
      (Validate(valueString, info).Success? <==> StoF(valueString).Success? && StoF(valueString).value >= 0.0)
    ensures info.settingType == NegativeFloat ==>
      (Validate(valueString, info).Success? <==> StoF(valueString).Success? && StoF(valueString).value <= 0.0)
    ensures info.settingType == Float ==>
      (Validate(valueString, info).Success? <==> StoF(valueString).Success?)
    ensures info.settingType != Text && Validate(valueString, info).Failure? &&
            Validate(valueString, info).error.InvalidValue? ==>
      Validate(valueString, info).error.value == valueString
  {
  }

  /** POSITIVE kinds refuse a negative number, whether integer or floating. */
  lemma PositiveKindsRefuseNegative(d: string, info: SettingInfo)
    requires d != [] && AllDigits(d) && 0 < DecimalValue(d) <= IntMax
    requires info.allowedValues == {} && info.settingType in {PositiveInteger, PositiveFloat}
    ensures Validate("-" + d, info) == Failure(InvalidValue("-" + d))
  {
    if info.settingType == PositiveInteger {
      StoIOfNegated(d);
      assert StoI("-" + d).value < 0;
    } else {
      StoFOfNegated(d);
      assert StoF("-" + d).value < 0.0;
    }
  }

  /** NEGATIVE kinds refuse a positive number, whether integer or floating. */
  lemma NegativeKindsRefusePositive(d: string, info: SettingInfo)
    requires d != [] && AllDigits(d) && 0 < DecimalValue(d) <= IntMax
    requires info.allowedValues == {} && info.settingType in {NegativeInteger, NegativeFloat}
    ensures Validate(d, info) == Failure(InvalidValue(d))
  {
    if info.settingType == NegativeInteger {
      StoIReadsDigits(d, []);
      assert d + [] == d;
      assert StoI(d).value > 0;
    } else {
      StoFOfDigits(d);
      assert StoF(d).value > 0.0;
    }
  }

  /** Zero is both non-negative and non-positive: every numeric kind accepts it. */
  lemma NumericKindsAcceptZero(d: string, info: SettingInfo)
    requires d != [] && AllDigits(d) && DecimalValue(d) == 0
    requires info.allowedValues == {} && info.settingType != Text
    ensures KindType(info.settingType) == IntType ==> Validate(d, info) == Success(IntValue(0))
    ensures KindType(info.settingType) == RealType ==> Validate(d, info) == Success(RealValue(0.0))
  {
    if KindType(info.settingType) == IntType {
      StoIReadsDigits(d, []);
      assert d + [] == d;
    } else {
      StoFOfDigits(d);
    }
  }
}
