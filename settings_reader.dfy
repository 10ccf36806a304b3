/**
  The configuration reader of settings.cpp. A configuration file, given here as
  its lines, goes through four stages:
    (a) cleaning: comments and whitespace are removed and empty lines dropped;
    (b) sectioning: `&NAME` opens a section, `/` hands it on, other lines accumulate;
    (c) per section: `KEY=VALUE` lines become a map, the section's table is
        looked up, and every key of the table is given the user's value or its default;
    (d) every value is checked against its allowed values and its kind, converted,
        and written to the field the table names.
  Each stage is specified by a function, and the `Settings` class carries out
  the stages as the C++ does, step by step, proved against those functions.
  C++ exceptions become `Outcome`/`Result` failures.
*/
module SettingsReader {
  import opened Wrappers
  import opened Strings
  import opened SettingsSchema

  /** The runtime_error (or conversion exception) that stops reading. */
  datatype SettingsError =
    | SectionNotRecognised(section: string)
    | RequiredSettingNotFound(key: string, section: string)
    | InvalidValue(value: string)
    | InvalidKey(key: string)
    | ConversionFailed(value: string, reason: ConversionError)

  // ---------------------------------------------------------------------
  // (a) Cleaning
  // ---------------------------------------------------------------------

  /** A line as cleaning leaves it: the text before its first `#`, without whitespace. */
  function CleanLine(line: string): (r: string)
    ensures '#' !in r && NoSpace(r)
    ensures '#' !in line ==> r == RemoveSpaces(line)
  {
    var k := FindFirst(line, '#');
    assert '#' !in line[..k];
    RemoveSpacesKeeps(line[..k], '#');
    assert '#' !in line ==> line[..k] == line;
    RemoveSpaces(line[..k])
  }

  /** What every surviving line looks like: non-empty, no comment, no whitespace. */
  predicate WellCleaned(line: string) {
    line != [] && '#' !in line && NoSpace(line)
  }

  /** The file contents after cleaning: each line cleaned, empty ones dropped, order kept. */
  function Clean(lines: seq<string>): (r: seq<string>)
    ensures |r| <= |lines|
  {
    if lines == [] then []
    else
      var rest := Clean(lines[..|lines| - 1]);
      var last := CleanLine(lines[|lines| - 1]);
      if last == [] then rest else rest + [last]
  }

  // ---------------------------------------------------------------------
  // (b) Sectioning
  // ---------------------------------------------------------------------

  /** One call of process_section: the section name and the lines gathered for it. */
  datatype SectionCall = SectionCall(section: string, contents: seq<string>)

  /** `line[0] == '&'`; on an empty line C++ reads the terminating '\0', which is not '&'. */
  predicate IsSectionStart(line: string) {
    line != [] && line[0] == '&'
  }

  /**
    The calls of process_section that scanning `lines` makes, starting with the
    section name `current` and the gathered lines `buffer`.
  */
  function Scan(lines: seq<string>, current: string, buffer: seq<string>): seq<SectionCall>
    decreases |lines|
  {
    if lines == [] then []
    else if IsSectionStart(lines[0]) then Scan(lines[1..], lines[0][1..], buffer)
    else if lines[0] == "/" then [SectionCall(current, buffer)] + Scan(lines[1..], "", [])
    else Scan(lines[1..], current, buffer + [lines[0]])
  }

  // ---------------------------------------------------------------------
  // (c) One section
  // ---------------------------------------------------------------------

  /**
    A line's key and value: the text before and after its first `=`. Without an
    `=`, both are the whole line (find gives npos, and npos + 1 wraps to 0).
  */
  function SplitKeyValue(line: string): (kv: (string, string))
    ensures '=' in line ==> '=' !in kv.0 && kv.0 + "=" + kv.1 == line
    ensures '=' !in line ==> kv.0 == line && kv.1 == line
  {
    var k := FindFirst(line, '=');
    if k == |line| then (line, line)
    else
      assert '=' !in line[..k];
      assert line[..k] + "=" + line[k + 1..] == line;
      (line[..k], line[k + 1..])
  }

  /** The user's settings of a section; a later line with the same key overrides an earlier one. */
  function UserSettings(lines: seq<string>): (m: map<string, string>)
    ensures m.Keys == set i | 0 <= i < |lines| :: SplitKeyValue(lines[i]).0
  {
    if lines == [] then map[]
    else
      var prefix := lines[..|lines| - 1];
      var kv := SplitKeyValue(lines[|lines| - 1]);
      var r := UserSettings(prefix)[kv.0 := kv.1];
      assert r.Keys == (set i | 0 <= i < |prefix| :: SplitKeyValue(prefix[i]).0) + {kv.0};
      assert forall i :: 0 <= i < |prefix| ==> prefix[i] == lines[i];
      r
  }

  /** The table of a section name; only DIAMOND, RAMAN, LASER and GENERAL have one. */
  function SchemaFor(section: string): (r: Option<Schema>)
    ensures r.Some? ==> AllWellTyped(r.value)
  {
    if section == "DIAMOND" then Some(SchemaOf(DiamondStruct))
    else if section == "RAMAN" then Some(SchemaOf(RamanStruct))
    else if section == "LASER" then Some(SchemaOf(LaserStruct))
    else if section == "GENERAL" then Some(SchemaOf(GeneralStruct))
    else None
  }

  // ---------------------------------------------------------------------
  // (d) Checking and converting one value
  // ---------------------------------------------------------------------

  /** check_allowed_values: an empty set allows anything, otherwise the value must be in it. */
  function CheckAllowedValues(valueString: string, allowedValues: set<string>): (r: Outcome<SettingsError>)
    ensures r == Pass <==> allowedValues == {} || valueString in allowedValues
    ensures r != Pass ==> r == Fail(InvalidValue(valueString))
  {
    if allowedValues != {} && valueString !in allowedValues then Fail(InvalidValue(valueString)) else Pass
  }

  /**
    The value validate_and_assign stores for `valueString`, or the error it throws.
    The allowed-value check comes before any conversion; the POSITIVE kinds
    refuse values below zero, the NEGATIVE kinds values above zero; TEXT keeps
    the string as it is.
  */
  function Validate(valueString: string, info: SettingInfo): (r: Result<Value, SettingsError>)
    ensures r.Success? ==> TypeOf(r.value) == KindType(info.settingType)
    ensures CheckAllowedValues(valueString, info.allowedValues) != Pass ==> r == Failure(InvalidValue(valueString))
    ensures r.Success? && info.settingType == PositiveInteger ==> r.value.i >= 0
    ensures r.Success? && info.settingType == NegativeInteger ==> r.value.i <= 0
    ensures r.Success? && info.settingType == PositiveFloat ==> r.value.r >= 0.0
    ensures r.Success? && info.settingType == NegativeFloat ==> r.value.r <= 0.0
    ensures info.settingType == Text ==>
      (r.Success? <==> CheckAllowedValues(valueString, info.allowedValues) == Pass)
    ensures info.settingType == Text && r.Success? ==> r.value == TextValue(valueString)
  {
    if CheckAllowedValues(valueString, info.allowedValues) != Pass then Failure(InvalidValue(valueString))
    else
      match info.settingType
      case Integer | PositiveInteger | NegativeInteger =>
        (match StoI(valueString)
         case Failure(reason) => Failure(ConversionFailed(valueString, reason))
         case Success(n) =>
           if (info.settingType == PositiveInteger && n < 0) || (info.settingType == NegativeInteger && n > 0)
           then Failure(InvalidValue(valueString))
           else Success(IntValue(n)))
      case Float | PositiveFloat | NegativeFloat =>
        (match StoF(valueString)
         case Failure(reason) => Failure(ConversionFailed(valueString, reason))
         case Success(x) =>
           if (info.settingType == PositiveFloat && x < 0.0) || (info.settingType == NegativeFloat && x > 0.0)
           then Failure(InvalidValue(valueString))
           else Success(RealValue(x)))
      case Text => Success(TextValue(valueString))
  }

  /** The text a table entry is given: the user's value when there is one, else its default. */
  function ValueFor(entry: SchemaEntry, user: map<string, string>): string {
    if entry.key in user then user[entry.key] else entry.info.defaultValue
  }

  /**
    The loop over a section's table: in table order, a required key the user
    did not give is an error; otherwise the entry's value is validated and
    written, and the first failure stops the loop.
  */
  function AssignEntries(cfg: Config, section: string, entries: Schema, user: map<string, string>): Result<Config, SettingsError>
    requires AllWellTyped(entries)
    decreases |entries|
  {
    if entries == [] then Success(cfg)
    else
      var e := entries[0];
      if e.info.required && e.key !in user then Failure(RequiredSettingNotFound(e.key, section))
      else
        match Validate(ValueFor(e, user), e.info)
        case Failure(err) => Failure(err)
        case Success(v) => AssignEntries(Assign(cfg, e.info.field, v), section, entries[1..], user)
  }

  /** `k` comes first, in std::map order, among the keys `s`. */
  ghost predicate IsLeast(k: string, s: set<string>) {
    k in s && forall o :: o in s ==> !LexLess(o, k)
  }

  lemma {:induction false} LeastExists(s: set<string>)
    requires s != {}
    ensures exists k :: IsLeast(k, s)
    decreases |s|
  {
    var x :| x in s;
    if s != {x} {
      LeastExists(s - {x});
      var m :| IsLeast(m, s - {x});
      if LexLess(x, m) {
        forall o | o in s ensures !LexLess(o, x) {
          LexLessIrreflexive(x);
          if o != x && LexLess(o, x) {
            LexLessTransitive(o, x, m);
          }
        }
        assert IsLeast(x, s);
      } else {
        if LexLess(m, x) {
          LexLessAsymmetric(m, x);
        }
        assert IsLeast(m, s);
      }
    } else {
      LexLessIrreflexive(x);
      assert IsLeast(x, s);
    }
  }

  lemma LeastUnique(a: string, b: string, s: set<string>)
    requires IsLeast(a, s) && IsLeast(b, s)
    ensures a == b
  {
    if a != b {
      LexLessTotal(a, b);
    }
  }

  /** The lexicographically least key of `s`: the first a std::map visits. */
  ghost function LeastKey(s: set<string>): (k: string)
    requires s != {}
    ensures IsLeast(k, s)
  {
    LeastExists(s);
    var k :| IsLeast(k, s);
    k
  }

  /**
    What process_section does to the settings `cfg`: the section's name must
    have a table; every table key is assigned; and only then is a user key that
    the table lacks reported, the least one first.
  */
  ghost function ProcessSectionSpec(cfg: Config, section: string, contents: seq<string>): Result<Config, SettingsError> {
    match SchemaFor(section)
    case None => Failure(SectionNotRecognised(section))
    case Some(schema) => ProcessWithSchema(cfg, section, schema, UserSettings(contents))
  }

  /** process_section once the section's table `schema` is known and the user's map is `user`. */
  ghost function ProcessWithSchema(cfg: Config, section: string, schema: Schema, user: map<string, string>): Result<Config, SettingsError>
    requires AllWellTyped(schema)
  {
    match AssignEntries(cfg, section, schema, user)
    case Failure(e) => Failure(e)
    case Success(filled) =>
      var invalid := user.Keys - Keys(schema);
      if invalid == {} then Success(filled) else Failure(InvalidKey(LeastKey(invalid)))
  }

  /** The section calls carried out in order; the first failure stops the rest. */
  ghost function Run(cfg: Config, calls: seq<SectionCall>): Result<Config, SettingsError>
    decreases |calls|
  {
    if calls == [] then Success(cfg)
    else
      match ProcessSectionSpec(cfg, calls[0].section, calls[0].contents)
      case Failure(e) => Failure(e)
      case Success(next) => Run(next, calls[1..])
  }

  /** process_input_file on (already cleaned) lines. */
  ghost function ProcessInput(cfg: Config, lines: seq<string>): Result<Config, SettingsError> {
    Run(cfg, Scan(lines, "", []))
  }

  /** The whole reader on the raw lines of a file: clean, then process. */
  ghost function ReadSettings(cfg: Config, fileContents: seq<string>): Result<Config, SettingsError> {
    ProcessInput(cfg, Clean(fileContents))
  }

  /** An outcome reports `wanted`: success with exactly the state `now`, or the same error. */
  ghost predicate Reports(outcome: Outcome<SettingsError>, wanted: Result<Config, SettingsError>, now: Config) {
    match wanted
    case Success(c) => outcome == Pass && now == c
    case Failure(e) => outcome == Fail(e)
  }

  /** Cleaning works line by line: cleaning a concatenation concatenates the cleanings. */
  lemma {:induction false} CleanAppend(a: seq<string>, b: seq<string>)
    ensures Clean(a + b) == Clean(a) + Clean(b)
    decreases |b|
  {
    if b == [] {
      assert a + b == a;
    } else {
      var b' := b[..|b| - 1];
      assert (a + b)[..|a + b| - 1] == a + b';
      CleanAppend(a, b');
    }
  }

  /**
    clean_file_contents, run on a copy of the lines: each line is cut at its
    first `#` and stripped of whitespace in place, and erased when that leaves it empty.
  */
  method CleanFileContents(fileContents: seq<string>) returns (cleaned: seq<string>)
    ensures cleaned == Clean(fileContents)
  {
    cleaned := fileContents;
    var it := 0;
    assert cleaned[..0] + Clean(cleaned[0..]) == Clean(fileContents);
    while it != |cleaned|
      invariant it <= |cleaned|
      invariant cleaned[..it] + Clean(cleaned[it..]) == Clean(fileContents)
      decreases |cleaned| - it
    {
      var line := StripLine(cleaned[it]);
      if line == [] {
        EraseStep(cleaned, it, Clean(fileContents));
        cleaned := cleaned[..it] + cleaned[it + 1..];
      } else {
        KeepStep(cleaned, it, Clean(fileContents));
        cleaned := cleaned[it := line];
        it := it + 1;
      }
    }
    assert cleaned[..it] == cleaned;
  }

  /**
    The two in-place edits of one line: the line is cut at its first `#`, then
    its whitespace is removed.
  */
  method StripLine(line: string) returns (stripped: string)
    ensures stripped == CleanLine(line)
  {
    var cut := FindFirstOf(line, '#');
    var chars := new char[cut](i => if 0 <= i < |line| then line[i] else ' ');
    assert chars[..] == line[..cut];
    var kept := RemoveSpacesInPlace(chars);
    stripped := chars[..kept];
  }

  /** std::string::find_first_of for one character: a scan from the front. */
  method FindFirstOf(line: string, c: char) returns (k: nat)
    ensures k == FindFirst(line, c)
  {
    k := 0;
    while k < |line| && line[k] != c
      invariant k <= |line|
      invariant forall i :: 0 <= i < k ==> line[i] != c
    {
      k := k + 1;
    }
  }

  /**
    remove_if with isspace followed by erase: the characters that are not
    whitespace are moved, in order, to the front of the buffer, and their
    number is returned; the rest is what erase drops.
  */
  method RemoveSpacesInPlace(chars: array<char>) returns (kept: nat)
    modifies chars
    ensures kept <= chars.Length
    ensures chars[..kept] == RemoveSpaces(old(chars[..]))
  {
    ghost var original := chars[..];
    kept := 0;
    for next := 0 to chars.Length
      invariant kept <= next
      invariant chars[..kept] == RemoveSpaces(original[..next])
      invariant chars[next..] == original[next..]
    {
      var c := chars[next];
      CompactStep(chars[..], original, kept, next);
      if !IsSpace(c) {
        chars[kept] := c;
        kept := kept + 1;
      }
    }
    assert original[..chars.Length] == original;
  }

  /**
    One turn of the compaction loop, on the buffer's contents `buffer`: the
    character at `next` is copied to `kept` unless it is whitespace.
  */
  lemma CompactStep(buffer: seq<char>, original: seq<char>, kept: nat, next: nat)
    requires |buffer| == |original| && kept <= next < |original|
    requires buffer[..kept] == RemoveSpaces(original[..next]) && buffer[next..] == original[next..]
    ensures buffer[next] == original[next]
    ensures IsSpace(original[next]) ==>
      buffer[..kept] == RemoveSpaces(original[..next + 1]) && buffer[next + 1..] == original[next + 1..]
    ensures !IsSpace(original[next]) ==>
      var after := buffer[kept := original[next]];
      after[..kept + 1] == RemoveSpaces(original[..next + 1]) && after[next + 1..] == original[next + 1..]
  {
    assert buffer[next..][0] == original[next..][0];
    RemoveSpacesSnoc(original, next);
    var after := buffer[kept := original[next]];
    assert after[..kept + 1] == buffer[..kept] + [original[next]];
  }

  /** Removing whitespace from one more character of `s` appends it unless it is whitespace. */
  lemma RemoveSpacesSnoc(s: string, i: nat)
    requires i < |s|
    ensures RemoveSpaces(s[..i + 1]) == RemoveSpaces(s[..i]) + if IsSpace(s[i]) then [] else [s[i]]
  {
    assert s[..i + 1] == s[..i] + [s[i]];
    RemoveSpacesAppend(s[..i], [s[i]]);
    assert [s[i]][1..] == [];
  }

  /** A single line cleans to its cleaned form, or to nothing when that is empty. */
  lemma CleanSingle(x: string)
    ensures Clean([x]) == if CleanLine(x) == [] then [] else [CleanLine(x)]
  {
    assert [x][..0] == [];
  }

  /** Erasing element `i` keeps the elements before it and shifts the rest down. */
  lemma EraseAt<T>(s: seq<T>, i: nat, rest: seq<T>, target: seq<T>)
    requires i < |s| && s[..i] + rest == target
    ensures var next := s[..i] + s[i + 1..];
      i <= |next| && next[i..] == s[i + 1..] && next[..i] + rest == target
  {
    assert (s[..i] + s[i + 1..])[..i] == s[..i];
  }

  /**
    Replacing element `i` by `y`, when the prefix before `i`, then `y`, then
    `rest` already makes up `target`.
  */
  lemma ReplaceAt<T>(s: seq<T>, i: nat, y: T, rest: seq<T>, target: seq<T>)
    requires i < |s| && s[..i] + ([y] + rest) == target
    ensures var next := s[i := y];
      next[i + 1..] == s[i + 1..] && next[..i + 1] + rest == target
  {
    assert s[i := y][..i + 1] == s[..i] + [y];
  }

  /** Cleaning from position `i` on: the line at `i`, cleaned, then the lines after it. */
  lemma CleanAt(s: seq<string>, i: nat)
    requires i < |s|
    ensures Clean(s[i..]) == Clean([s[i]]) + Clean(s[i + 1..])
  {
    assert s[i..] == [s[i]] + s[i + 1..];
    CleanAppend([s[i]], s[i + 1..]);
  }

  /**
    A turn of the cleaning loop, with the lines before the iterator already
    clean, on a line that cleaning leaves empty: erasing it keeps the invariant.
  */
  lemma EraseStep(cleaned: seq<string>, it: nat, target: seq<string>)
    requires it < |cleaned| && cleaned[..it] + Clean(cleaned[it..]) == target
    requires CleanLine(cleaned[it]) == []
    ensures var next := cleaned[..it] + cleaned[it + 1..];
      it <= |next| && next[..it] + Clean(next[it..]) == target
  {
    CleanAt(cleaned, it);
    CleanSingle(cleaned[it]);
    assert Clean(cleaned[it..]) == [] + Clean(cleaned[it + 1..]) == Clean(cleaned[it + 1..]);
    EraseAt(cleaned, it, Clean(cleaned[it + 1..]), target);
  }

  /**
    A turn of the cleaning loop on a line that keeps some text: replacing it
    by its cleaned form and moving past it keeps the invariant.
  */
  lemma KeepStep(cleaned: seq<string>, it: nat, target: seq<string>)
    requires it < |cleaned| && cleaned[..it] + Clean(cleaned[it..]) == target
    requires CleanLine(cleaned[it]) != []
    ensures var next := cleaned[it := CleanLine(cleaned[it])];
      next[..it + 1] + Clean(next[it + 1..]) == target
  {
    var line := CleanLine(cleaned[it]);
    CleanAt(cleaned, it);
    CleanSingle(cleaned[it]);
    ReplaceAt(cleaned, it, line, Clean(cleaned[it + 1..]), target);
  }

  /** The first loop of process_section: each line's key and value go into the map, the last one winning. */
  method BuildUserSettings(sectionContents: seq<string>) returns (userSettings: map<string, string>)
    ensures userSettings == UserSettings(sectionContents)
  {
    userSettings := map[];
    for i := 0 to |sectionContents|
      invariant userSettings == UserSettings(sectionContents[..i])
    {
      assert sectionContents[..i + 1][..i] == sectionContents[..i];
      var kv := SplitKeyValue(sectionContents[i]);
      userSettings := userSettings[kv.0 := kv.1];
    }
    assert sectionContents[..|sectionContents|] == sectionContents;
  }

  /**
    The last loop of process_section: the user's keys are visited in increasing
    order and the first one the table does not know is reported.
  */
  method FindInvalidKey(userSettings: map<string, string>, known: set<string>) returns (invalid: Option<string>)
    ensures invalid.None? <==> userSettings.Keys <= known
    ensures invalid.Some? ==> IsLeast(invalid.value, userSettings.Keys - known)
  {
    var remaining := userSettings.Keys;
    while remaining != {}
      invariant remaining <= userSettings.Keys
      invariant userSettings.Keys - remaining <= known
      invariant forall v, r :: v in userSettings.Keys - remaining && r in remaining ==> LexLess(v, r)
      decreases remaining
    {
      LeastExists(remaining);
      var key :| key in remaining && forall o :: o in remaining ==> !LexLess(o, key);
      if key !in known {
        assert IsLeast(key, userSettings.Keys - known);
        return Some(key);
      }
      forall v, r | v in userSettings.Keys - (remaining - {key}) && r in remaining - {key}
        ensures LexLess(v, r)
      {
        if v == key {
          LexLessTotal(key, r);
        }
      }
      remaining := remaining - {key};
    }
    return None;
  }

  /** The Settings object: the four records that reading the file fills in. */
  class Settings {
    var diamond: DiamondSettings
    var raman: RamanSettings
    var laser: LaserSettings
    var general: GeneralSettings

    function Snapshot(): Config
      reads this
    {
      Config(diamond, raman, laser, general)
    }

    /**
      A Settings object before any section is read: the std::string fields are
      empty and the int and double fields hold indeterminate values.
    */
    constructor ()
      ensures diamond.initialProfile == ""
      ensures general.signalOutputFile == "" && general.signalInputFile == ""
      ensures general.pressureOutputFile == ""
      ensures general.fittedSignalFile == "" && general.fittedPressureFile == ""
    {
      var numElements: int := *;
      var depth: real := *;
      var tipPressure: real := *;
      var numSamplePoints: int := *;
      var maxFreq: real := *;
      var minFreq: real := *;
      var intensity: real := *;
      var maxIter: int := *;
      diamond := DiamondSettings(numElements, depth, tipPressure, "");
      raman := RamanSettings(numSamplePoints, maxFreq, minFreq);
      laser := LaserSettings(intensity);
      general := GeneralSettings(maxIter, "", "", "", "", "");
    }

    /** Reading a file's lines into the object: clean them, then process them. */
    method Load(fileContents: seq<string>) returns (outcome: Outcome<SettingsError>)
      modifies this
      ensures Reports(outcome, ReadSettings(old(Snapshot()), fileContents), Snapshot())
    {
      var lines := CleanFileContents(fileContents);
      outcome := ProcessInputFile(lines);
    }

    /**
      process_input_file: `&NAME` sets the current section name, `/` processes
      the lines gathered so far under that name and then clears both, and any
      other line is gathered.
    */
    method ProcessInputFile(fileContents: seq<string>) returns (outcome: Outcome<SettingsError>)
      modifies this
      ensures Reports(outcome, ProcessInput(old(Snapshot()), fileContents), Snapshot())
    {
      var currentSection: string := "";
      var sectionContents: seq<string> := [];
      var i := 0;
      while i != |fileContents|
        invariant 0 <= i <= |fileContents|
        invariant ProcessInput(old(Snapshot()), fileContents)
               == Run(Snapshot(), Scan(fileContents[i..], currentSection, sectionContents))
      {
        assert fileContents[i..][1..] == fileContents[i + 1..];
        var line := fileContents[i];
        if IsSectionStart(line) {
          currentSection := line[1..];
        } else if line == "/" {
          outcome := ProcessSection(currentSection, sectionContents);
          if outcome.Fail? {
            return;
          }
          sectionContents := [];
          currentSection := "";
        } else {
          sectionContents := sectionContents + [line];
        }
        i := i + 1;
      }
      outcome := Pass;
    }

    /**
      process_section: build the user's map, pick the section's table, assign
      every table key in table order, then look for a user key the table lacks.
    */
    method ProcessSection(section: string, sectionContents: seq<string>) returns (outcome: Outcome<SettingsError>)
      modifies this
      ensures Reports(outcome, ProcessSectionSpec(old(Snapshot()), section, sectionContents), Snapshot())
      ensures SchemaFor(section).None? ==>
        outcome == Fail(SectionNotRecognised(section)) && Snapshot() == old(Snapshot())
    {
      var userSettings := BuildUserSettings(sectionContents);
      var schema := SchemaFor(section);
      if schema.None? {
        return Fail(SectionNotRecognised(section));
      }
      var settingsMap := schema.value;

      for j := 0 to |settingsMap|
        invariant AssignEntries(old(Snapshot()), section, settingsMap, userSettings)
               == AssignEntries(Snapshot(), section, settingsMap[j..], userSettings)
      {
        assert settingsMap[j..][1..] == settingsMap[j + 1..];
        var key := settingsMap[j].key;
        var info := settingsMap[j].info;
        if info.required && key !in userSettings {
          return Fail(RequiredSettingNotFound(key, section));
        }
        var valueString := if key in userSettings then userSettings[key] else info.defaultValue;
        outcome := ValidateAndAssign(valueString, info);
        if outcome.Fail? {
          return;
        }
      }

      var invalid := FindInvalidKey(userSettings, Keys(settingsMap));
      if invalid.Some? {
        LeastUnique(invalid.value, LeastKey(userSettings.Keys - Keys(settingsMap)), userSettings.Keys - Keys(settingsMap));
        return Fail(InvalidKey(invalid.value));
      }
      outcome := Pass;
    }

    /**
      validate_and_assign: check the allowed values, convert according to the
      kind, apply the sign check, and write the value to the entry's field.
    */
    method ValidateAndAssign(valueString: string, info: SettingInfo) returns (outcome: Outcome<SettingsError>)
      requires WellTyped(info)
      modifies this
      ensures Validate(valueString, info).Failure? ==> Snapshot() == old(Snapshot())
      ensures Reports(outcome,
        (match Validate(valueString, info)
         case Success(v) => Success(Assign(old(Snapshot()), info.field, v))
         case Failure(e) => Failure(e)),
        Snapshot())
    {
      outcome := CheckAllowedValues(valueString, info.allowedValues);
      if outcome.Fail? {
        return;
      }
      var value: Value;
      var kind := info.settingType;
      if kind == Integer || kind == PositiveInteger || kind == NegativeInteger {
        var parsed := StoI(valueString);
        if parsed.Failure? {
          return Fail(ConversionFailed(valueString, parsed.error));
        }
        if (kind == PositiveInteger && parsed.value < 0) || (kind == NegativeInteger && parsed.value > 0) {
          return Fail(InvalidValue(valueString));
        }
        value := IntValue(parsed.value);
      } else if kind == Float || kind == PositiveFloat || kind == NegativeFloat {
        var parsed := StoF(valueString);
        if parsed.Failure? {
          return Fail(ConversionFailed(valueString, parsed.error));
        }
        if (kind == PositiveFloat && parsed.value < 0.0) || (kind == NegativeFloat && parsed.value > 0.0) {
          return Fail(InvalidValue(valueString));
        }
        value := RealValue(parsed.value);
      } else {
        value := TextValue(valueString);
      }
      Store(info.field, value);
    }

    /** The write through the entry's pointer: field `f` of the right record becomes `v`. */
    method Store(f: FieldId, v: Value)
      requires TypeOf(v) == FieldType(f)
      modifies this
      ensures Snapshot() == Assign(old(Snapshot()), f, v)
    {
      match f
      case NumElements => diamond := diamond.(numElements := v.i);
      case Depth => diamond := diamond.(depth := v.r);
      case TipPressure => diamond := diamond.(tipPressure := v.r);
      case InitialProfile => diamond := diamond.(initialProfile := v.s);
      case NumSamplePoints => raman := raman.(numSamplePoints := v.i);
      case MaxFreq => raman := raman.(maxFreq := v.r);
      case MinFreq => raman := raman.(minFreq := v.r);
      case Intensity => laser := laser.(intensity := v.r);
      case MaxIter => general := general.(maxIter := v.i);
      case SignalOutputFile => general := general.(signalOutputFile := v.s);
      case SignalInputFile => general := general.(signalInputFile := v.s);
      case PressureOutputFile => general := general.(pressureOutputFile := v.s);
      case FittedSignalFile => general := general.(fittedSignalFile := v.s);
      case FittedPressureFile => general := general.(fittedPressureFile := v.s);
    }
  }
}
