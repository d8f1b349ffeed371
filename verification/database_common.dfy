/** `DatabaseCommon`: the shared settings of mission generation, resolved from
    four settings documents into tables indexed by enumeration ordinals.

    `Load` is a pure function of the documents (`Sources`) and of the member
    lists of the enumerations the tables are indexed by (`Catalogue`). It
    performs the reads of the source in the source's order and stops at the
    first read that delivers no value; the advisory warnings about missing Ogg
    files come out beside the settings.
 */
module DatabaseCommon {
  import opened Results
  import opened Sequences
  import opened Amounts
  import opened Enumerations
  import opened Settings

  /** `MISSION_NAMES_PART_COUNT`. */
  const MissionNamesPartCount: nat := 4

  const IncludeSection := "Include"
  const CapSection := "EnemyCombatAirPatrols"
  const RangeSection := "EnemyAirDefenseRange"
  const MissionSection := "Mission"
  const UnitBriefingSection := "UnitBriefing"
  const UnitGroupSection := "UnitGroup"
  const WaypointsSection := "Waypoints"
  const ObjectiveSection := "DistanceToObjective"

  const DistanceFromObjectives := "DistanceFromObjectives"
  const MinDistanceFromTakeOffLocation := "MinDistanceFromTakeOffLocation"
  const DistanceBetweenObjectives := "DistanceBetweenObjectives"
  const DistanceFromTakeOffLocation := "DistanceFromTakeOffLocation"

  /** `$"RelativePower.{level}"`. */
  function RelativePowerKey(level: AmountN): string {
    PrefixedKey("RelativePower", Name(level))
  }

  /** `$"Part{i + 1}"`. */
  function PartKey(i: nat): string {
    "Part" + DecimalString(i + 1)
  }

  /** The decimal representation of n, as C# string interpolation writes an int. */
  function DecimalString(n: nat): (s: string)
    ensures |s| > 0
    ensures forall k :: 0 <= k < |s| ==> '0' <= s[k] <= '9'
    decreases n
  {
    if n < 10 then [DigitChar(n)] else DecimalString(n / 10) + [DigitChar(n % 10)]
  }

  /** The number a string of decimal digits denotes. */
  function DecimalValue(s: string): nat
    requires forall k :: 0 <= k < |s| ==> '0' <= s[k] <= '9'
  {
    if |s| == 0 then 0 else DecimalValue(s[..|s| - 1]) * 10 + (s[|s| - 1] as int - '0' as int)
  }

  /** Reading back the digits of n gives n. */
  lemma {:induction false} DecimalRoundTrip(n: nat)
    ensures DecimalValue(DecimalString(n)) == n
    decreases n
  {
    var s := DecimalString(n);
    if n >= 10 {
      DecimalRoundTrip(n / 10);
      assert s[..|s| - 1] == DecimalString(n / 10);
    }
  }

  /** Distinct part indices give distinct keys. */
  lemma PartKeyInjective(i: nat, j: nat)
    ensures PartKey(i) == PartKey(j) ==> i == j
  {
    if PartKey(i) == PartKey(j) {
      assert DecimalString(i + 1) == PartKey(i)[4..];
      assert DecimalString(j + 1) == PartKey(j)[4..];
      DecimalRoundTrip(i + 1);
      DecimalRoundTrip(j + 1);
    }
  }

  function DigitChar(d: nat): (c: char)
    requires d < 10
    ensures '0' <= c <= '9' && c as int - '0' as int == d
  {
    ('0' as int + d) as char
  }

  // ---------------------------------------------------------------- the tables

  /** What the `EnemyAirDefense.ini` block assigns. */
  datatype AirDefenseSettings = AirDefenseSettings(
    capDistanceFromObjectives: Interval,          // EnemyCAPDistanceFromObjectives
    capMinDistanceFromTakeOffLocation: int,       // EnemyCAPMinDistanceFromTakeOffLocation
    enemyAirDefense: seq<AirDefenseInfo>,         // EnemyAirDefense, by AmountN
    capRelativePower: seq<real>,                  // EnemyCAPRelativePower, by AmountN
    distanceFromTakeOffLocation: seq<int>,        // EnemyAirDefenseDistanceFromTakeOffLocation, by AirDefenseRange
    distanceFromObjectives: seq<Interval>)        // EnemyAirDefenseDistanceFromObjectives, by AirDefenseRange

  /** What the `Names.ini` block assigns. A `None` briefing name is a null slot. */
  datatype NameSettings = NameSettings(
    missionNameTemplate: string,
    missionNameParts: seq<seq<string>>,           // by part, MISSION_NAMES_PART_COUNT of them
    unitBriefingNames: seq<seq<Option<string>>>,  // by UnitFamily: singular, plural
    unitGroupNames: seq<string>,                  // by UnitFamily
    wpNameFinal: string,
    wpNameInitial: string,
    wpNameNavigation: string,
    wpNamesObjectives: seq<string>)

  /** What the `Objectives.ini` block assigns, by Amount. */
  datatype ObjectiveSettings = ObjectiveSettings(
    distanceBetweenObjectives: seq<int>,
    distanceFromTakeOffLocation: seq<int>)

  datatype CommonSettings = CommonSettings(
    commonOgg: seq<string>,
    airDefense: AirDefenseSettings,
    names: NameSettings,
    objectives: ObjectiveSettings)

  /** The array lengths the constructor and the field initializers allocate. */
  datatype Layout = Layout(amount: nat, amountN: nat, airDefenseRange: nat, missionNameParts: nat, unitFamily: nat)

  function ConstructorLayout(e: Catalogue): (l: Layout)
    ensures forall a: AmountN :: Ordinal(a) < l.amountN
    ensures l.amountN == |AllAmountN|
    ensures l.amount == |e.amount.members| && l.airDefenseRange == |e.airDefenseRange.members|
    ensures l.unitFamily == |e.unitFamily.members|
    ensures l.missionNameParts == MissionNamesPartCount
  {
    Layout(e.amount.Count(), AmountNCount, e.airDefenseRange.Count(), MissionNamesPartCount, e.unitFamily.Count())
  }

  /** Every enumeration-indexed table of t has the length allocated for it. */
  predicate FillsLayout(t: CommonSettings, layout: Layout) {
    && |t.objectives.distanceBetweenObjectives| == layout.amount
    && |t.objectives.distanceFromTakeOffLocation| == layout.amount
    && |t.airDefense.enemyAirDefense| == layout.amountN
    && |t.airDefense.capRelativePower| == layout.amountN
    && |t.airDefense.distanceFromObjectives| == layout.airDefenseRange
    && |t.airDefense.distanceFromTakeOffLocation| == layout.airDefenseRange
    && |t.names.missionNameParts| == layout.missionNameParts
    && |t.names.unitBriefingNames| == layout.unitFamily
    && |t.names.unitGroupNames| == layout.unitFamily
  }

  /** The warning logged for an Ogg include that has no file. */
  datatype Warning = MissingOggFile(name: string)

  datatype LoadOutcome = LoadOutcome(settings: Result<CommonSettings, LoadError>, warnings: seq<Warning>)

  // ---------------------------------------------------------- numeric rules

  /** `Math.Max(0, x)`. */
  function NonNegative(x: int): (r: int)
    ensures r >= 0
    ensures x >= 0 ==> r == x
    ensures x < 0 ==> r == 0
  {
    if x < 0 then 0 else x
  }

  /** `Toolbox.Clamp(x, lo, hi)` on an ordered range. */
  function Clamp(x: int, lo: int, hi: int): (r: int)
    requires lo <= hi
    ensures lo <= r <= hi
    ensures lo <= x <= hi ==> r == x
    ensures x < lo ==> r == lo
    ensures hi < x ==> r == hi
  {
    if x < lo then lo else if hi < x then hi else x
  }

  /** `Toolbox.Clamp(raw, 0, 100) / 100.0`: a percentage as a fraction of one. */
  function Percentage(raw: int): (p: real)
    ensures 0.0 <= p <= 1.0
    ensures raw >= 100 ==> p == 1.0
    ensures raw <= 0 ==> p == 0.0
    ensures 0 <= raw <= 100 ==> p * 100.0 == raw as real
  {
    Clamp(raw, 0, 100) as real / 100.0
  }

  /** `Array.Resize(ref names, 2)` on the briefing names read for one unit family. */
  function BriefingNames(read: seq<string>): (r: seq<Option<string>>)
    ensures |r| == 2
    ensures forall k :: 0 <= k < 2 ==> r[k] == if k < |read| then Some(read[k]) else Option.None
  {
    Resize(seq(|read|, (k: int) requires 0 <= k < |read| => Some(read[k])), 2, Option.None)
  }

  // ------------------------------------------------------- the Ogg includes

  /** The file name checked for an Ogg include, relative to the Ogg include directory. */
  function OggFileName(name: string): string {
    name + ".ogg"
  }

  /** One warning per Ogg include whose file does not exist, in list order. */
  function MissingOggWarnings(names: seq<string>, fileExists: string -> bool): (ws: seq<Warning>)
    ensures |ws| <= |names|
    ensures forall k :: 0 <= k < |ws| ==> ws[k].name in names && !fileExists(OggFileName(ws[k].name))
    ensures forall x :: Count(ws, MissingOggFile(x)) == if fileExists(OggFileName(x)) then 0 else Count(names, x)
  {
    if |names| == 0 then []
    else
      var head := if fileExists(OggFileName(names[0])) then [] else [MissingOggFile(names[0])];
      var tail := MissingOggWarnings(names[1..], fileExists);
      CountAppend(head, tail);
      assert names == [names[0]] + names[1..];
      CountAppend([names[0]], names[1..]);
      head + tail
  }

  // ------------------------------------------------ EnemyAirDefense.ini

  /** The reads of the `AmountN` loop at ordinal i. */
  function LevelReads(i: nat): seq<Read>
    requires i < AmountNCount
  {
    [AirDefenseInfoRead(FromOrdinal(i))]
      + if i == 0 then [] else [KeyRead(EnemyAirDefenseIni, CapSection, RelativePowerKey(FromOrdinal(i)), IntValue)]
  }

  /** `EnemyCAPRelativePower[i]`: zero at ordinal 0, read for no key; otherwise the
      clamped percentage under `RelativePower.{level}`. */
  function CapRelativePowerAt(src: Sources, i: nat): (r: Result<real, LoadError>)
    requires i < AmountNCount
    ensures i == 0 ==> r == Success(0.0)
    ensures i > 0 ==> Agrees(r, FirstFailure(src, [KeyRead(EnemyAirDefenseIni, CapSection, RelativePowerKey(FromOrdinal(i)), IntValue)]))
    ensures i > 0 && r.Success? ==>
      var raw := src.enemyAirDefense.ints(CapSection, RelativePowerKey(FromOrdinal(i)));
      raw.Some? && r.value == Percentage(raw.value)
  {
    if i == 0 then Success(0.0)
    else
      var raw :- ReadInt(src, EnemyAirDefenseIni, CapSection, RelativePowerKey(FromOrdinal(i)));
      Success(Percentage(raw))
  }

  /** Iteration i of the `AmountN` loop. */
  function LevelAt(src: Sources, i: nat): (r: Result<(AirDefenseInfo, real), LoadError>)
    requires i < AmountNCount
    ensures Agrees(r, FirstFailure(src, LevelReads(i)))
    ensures r.Success? ==> src.airDefenseInfo(src.enemyAirDefense, FromOrdinal(i)) == Some(r.value.0)
    ensures r.Success? && i == 0 ==> r.value.1 == 0.0
    ensures r.Success? && i > 0 ==>
      var raw := src.enemyAirDefense.ints(CapSection, RelativePowerKey(FromOrdinal(i)));
      raw.Some? && r.value.1 == Percentage(raw.value)
  {
    FirstFailureAppend(src, [AirDefenseInfoRead(FromOrdinal(i))], LevelReads(i)[1..]);
    assert LevelReads(i) == [AirDefenseInfoRead(FromOrdinal(i))] + LevelReads(i)[1..];
    var info :- ReadAirDefenseInfo(src, FromOrdinal(i));
    var power :- CapRelativePowerAt(src, i);
    Success((info, power))
  }

  /** The reads of the `AirDefenseRange` loop at ordinal i. */
  function RangeReads(ranges: Enumeration, i: nat): seq<Read>
    requires i < ranges.Count()
  {
    [ KeyRead(EnemyAirDefenseIni, RangeSection, MemberKey(ranges.members[i], MinDistanceFromTakeOffLocation), IntValue),
      KeyRead(EnemyAirDefenseIni, RangeSection, MemberKey(ranges.members[i], DistanceFromObjectives), IntervalValue) ]
  }

  /** Iteration i of the `AirDefenseRange` loop: both values stored as read. */
  function RangeAt(src: Sources, ranges: Enumeration, i: nat): (r: Result<(int, Interval), LoadError>)
    requires i < ranges.Count()
    ensures Agrees(r, FirstFailure(src, RangeReads(ranges, i)))
    ensures r.Success? ==>
      && src.enemyAirDefense.ints(RangeSection, MemberKey(ranges.members[i], MinDistanceFromTakeOffLocation)) == Some(r.value.0)
      && src.enemyAirDefense.intervals(RangeSection, MemberKey(ranges.members[i], DistanceFromObjectives)) == Some(r.value.1)
  {
    var m := ranges.members[i];
    FirstFailureAppend(src, RangeReads(ranges, i)[..1], RangeReads(ranges, i)[1..]);
    assert RangeReads(ranges, i) == RangeReads(ranges, i)[..1] + RangeReads(ranges, i)[1..];
    var minDistance :- ReadInt(src, EnemyAirDefenseIni, RangeSection, MemberKey(m, MinDistanceFromTakeOffLocation));
    var fromObjectives :- ReadInterval(src, EnemyAirDefenseIni, RangeSection, MemberKey(m, DistanceFromObjectives));
    Success((minDistance, fromObjectives))
  }

  /** The body of the `AmountN` loop. */
  function LevelLoop(src: Sources): nat --> Result<(AirDefenseInfo, real), LoadError> {
    (i: nat) requires i < AmountNCount => LevelAt(src, i)
  }

  /** The body of the `AirDefenseRange` loop, and its reads. */
  function RangeLoop(src: Sources, ranges: Enumeration): nat --> Result<(int, Interval), LoadError> {
    (i: nat) requires i < ranges.Count() => RangeAt(src, ranges, i)
  }

  function RangeReadsOf(ranges: Enumeration): nat --> seq<Read> {
    (i: nat) requires i < ranges.Count() => RangeReads(ranges, i)
  }

  /** The reads of the `AmountN` loop. */
  function LevelsPlan(): seq<Read> {
    FlattenFrom(0, AmountNCount, LevelReads)
  }

  /** The reads of the `AirDefenseRange` loop. */
  function RangesPlan(ranges: Enumeration): seq<Read> {
    FlattenFrom(0, ranges.Count(), RangeReadsOf(ranges))
  }

  const CapDistanceRead := KeyRead(EnemyAirDefenseIni, CapSection, DistanceFromObjectives, IntervalValue)
  const CapMinDistanceRead := KeyRead(EnemyAirDefenseIni, CapSection, MinDistanceFromTakeOffLocation, IntValue)

  /** The reads of the `EnemyAirDefense.ini` block, in order. */
  function AirDefensePlan(ranges: Enumeration): seq<Read> {
    [CapDistanceRead] + ([CapMinDistanceRead] + (LevelsPlan() + RangesPlan(ranges)))
  }

  /** Slot by slot, what the `AmountN` loop assigns. */
  predicate LevelsResolved(src: Sources, infos: seq<AirDefenseInfo>, powers: seq<real>) {
    var doc := src.enemyAirDefense;
    && |infos| == AmountNCount
    && |powers| == AmountNCount
    && (forall i :: 0 <= i < AmountNCount ==> src.airDefenseInfo(doc, FromOrdinal(i)) == Some(infos[i]))
    && powers[0] == 0.0
    && (forall i :: 0 < i < AmountNCount ==>
          var raw := doc.ints(CapSection, RelativePowerKey(FromOrdinal(i)));
          raw.Some? && powers[i] == Percentage(raw.value))
  }

  /** Slot by slot, what the `AirDefenseRange` loop assigns. */
  predicate RangesResolved(src: Sources, ranges: Enumeration, minDistances: seq<int>, fromObjectives: seq<Interval>) {
    var doc := src.enemyAirDefense;
    && |minDistances| == ranges.Count()
    && |fromObjectives| == ranges.Count()
    && (forall i :: 0 <= i < ranges.Count() ==>
          doc.ints(RangeSection, MemberKey(ranges.members[i], MinDistanceFromTakeOffLocation)) == Some(minDistances[i]))
    && (forall i :: 0 <= i < ranges.Count() ==>
          doc.intervals(RangeSection, MemberKey(ranges.members[i], DistanceFromObjectives)) == Some(fromObjectives[i]))
  }

  /** Slot by slot, what the `EnemyAirDefense.ini` block assigns. */
  predicate AirDefenseResolved(src: Sources, ranges: Enumeration, a: AirDefenseSettings) {
    && src.enemyAirDefense.intervals(CapSection, DistanceFromObjectives) == Some(a.capDistanceFromObjectives)
    && src.enemyAirDefense.ints(CapSection, MinDistanceFromTakeOffLocation) == Some(a.capMinDistanceFromTakeOffLocation)
    && LevelsResolved(src, a.enemyAirDefense, a.capRelativePower)
    && RangesResolved(src, ranges, a.distanceFromTakeOffLocation, a.distanceFromObjectives)
  }

  /** The `AmountN` loop: air-defense info and CAP relative power per level. */
  function LoadLevels(src: Sources): (r: Result<(seq<AirDefenseInfo>, seq<real>), LoadError>)
    ensures Agrees(r, FirstFailure(src, LevelsPlan()))
    ensures r.Success? ==> LevelsResolved(src, r.value.0, r.value.1)
  {
    CollectFollowsPlan(src, 0, AmountNCount, LevelLoop(src), LevelReads);
    var levels :- Collect(AmountNCount, LevelLoop(src));
    LevelSlotsResolved(src, levels);
    Success((Firsts(levels), Seconds(levels)))
  }

  lemma LevelSlotsResolved(src: Sources, levels: seq<(AirDefenseInfo, real)>)
    requires |levels| == AmountNCount
    requires forall i :: 0 <= i < AmountNCount ==> LevelAt(src, i) == Success(levels[i])
    ensures LevelsResolved(src, Firsts(levels), Seconds(levels))
  {
    assert LevelAt(src, 0).Success?;
    forall i | 0 < i < AmountNCount
      ensures src.enemyAirDefense.ints(CapSection, RelativePowerKey(FromOrdinal(i))).Some?
    {
      assert LevelAt(src, i).Success?;
    }
  }

  /** The `AirDefenseRange` loop: both values stored as read. */
  function LoadRanges(src: Sources, ranges: Enumeration): (r: Result<(seq<int>, seq<Interval>), LoadError>)
    ensures Agrees(r, FirstFailure(src, RangesPlan(ranges)))
    ensures r.Success? ==> RangesResolved(src, ranges, r.value.0, r.value.1)
  {
    CollectFollowsPlan(src, 0, ranges.Count(), RangeLoop(src, ranges), RangeReadsOf(ranges));
    var rangeValues :- Collect(ranges.Count(), RangeLoop(src, ranges));
    Success((Firsts(rangeValues), Seconds(rangeValues)))
  }

  /** The `EnemyAirDefense.ini` block of `Load`. */
  function LoadAirDefense(src: Sources, ranges: Enumeration): (r: Result<AirDefenseSettings, LoadError>)
    ensures Agrees(r, FirstFailure(src, AirDefensePlan(ranges)))
    ensures r.Success? ==> AirDefenseResolved(src, ranges, r.value)
  {
    FirstFailureAppend(src, [CapDistanceRead], [CapMinDistanceRead] + (LevelsPlan() + RangesPlan(ranges)));
    FirstFailureAppend(src, [CapMinDistanceRead], LevelsPlan() + RangesPlan(ranges));
    FirstFailureAppend(src, LevelsPlan(), RangesPlan(ranges));
    var capDistance :- ReadInterval(src, EnemyAirDefenseIni, CapSection, DistanceFromObjectives);
    var capMinDistance :- ReadInt(src, EnemyAirDefenseIni, CapSection, MinDistanceFromTakeOffLocation);
    var levels :- LoadLevels(src);
    var rangeValues :- LoadRanges(src, ranges);
    Success(AirDefenseSettings(capDistance, capMinDistance, levels.0, levels.1, rangeValues.0, rangeValues.1))
  }

  // ------------------------------------------------------------ Names.ini

  function PartReads(i: nat): seq<Read> {
    [KeyRead(NamesIni, MissionSection, PartKey(i), StringArrayValue)]
  }

  /** The reads of the `UnitFamily` loop at ordinal i. */
  function FamilyReads(families: Enumeration, i: nat): seq<Read>
    requires i < families.Count()
  {
    [ KeyRead(NamesIni, UnitBriefingSection, families.members[i], StringArrayValue),
      KeyRead(NamesIni, UnitGroupSection, families.members[i], StringValue) ]
  }

  /** Iteration i of the `UnitFamily` loop. */
  function FamilyAt(src: Sources, families: Enumeration, i: nat): (r: Result<(seq<Option<string>>, string), LoadError>)
    requires i < families.Count()
    ensures Agrees(r, FirstFailure(src, FamilyReads(families, i)))
    ensures r.Success? ==>
      var read := src.names.stringArrays(UnitBriefingSection, families.members[i]);
      && read.Some? && r.value.0 == BriefingNames(read.value)
      && src.names.strings(UnitGroupSection, families.members[i]) == Some(r.value.1)
  {
    var m := families.members[i];
    FirstFailureAppend(src, FamilyReads(families, i)[..1], FamilyReads(families, i)[1..]);
    assert FamilyReads(families, i) == FamilyReads(families, i)[..1] + FamilyReads(families, i)[1..];
    var briefing :- ReadStrings(src, NamesIni, UnitBriefingSection, m);
    var group :- ReadString(src, NamesIni, UnitGroupSection, m);
    Success((BriefingNames(briefing), group))
  }

  /** The body of the mission-name part loop. */
  function PartLoop(src: Sources): nat -> Result<seq<string>, LoadError> {
    (i: nat) => ReadStrings(src, NamesIni, MissionSection, PartKey(i))
  }

  /** The body of the `UnitFamily` loop, and its reads. */
  function FamilyLoop(src: Sources, families: Enumeration): nat --> Result<(seq<Option<string>>, string), LoadError> {
    (i: nat) requires i < families.Count() => FamilyAt(src, families, i)
  }

  function FamilyReadsOf(families: Enumeration): nat --> seq<Read> {
    (i: nat) requires i < families.Count() => FamilyReads(families, i)
  }

  /** The reads of the mission-name part of the `Names.ini` block. */
  function MissionNamesPlan(): seq<Read> {
    [TemplateRead] + PartsPlan()
  }

  const TemplateRead := KeyRead(NamesIni, MissionSection, "Template", StringValue)

  /** The reads of the mission-name part loop. */
  function PartsPlan(): seq<Read> {
    FlattenFrom(0, MissionNamesPartCount, PartReads)
  }

  /** The reads of the `UnitFamily` loop. */
  function UnitNamesPlan(families: Enumeration): seq<Read> {
    FlattenFrom(0, families.Count(), FamilyReadsOf(families))
  }

  /** The reads of the waypoint part of the `Names.ini` block. */
  function WaypointsPlan(): seq<Read> {
    [WaypointRead("Final", StringValue)]
      + ([WaypointRead("Initial", StringValue)]
      + ([WaypointRead("Navigation", StringValue)]
      + [WaypointRead("Objectives", StringArrayValue)]))
  }

  function WaypointRead(key: string, kind: ValueKind): Read {
    KeyRead(NamesIni, WaypointsSection, key, kind)
  }

  /** The reads of the `Names.ini` block, in order. */
  function NamesPlan(families: Enumeration): seq<Read> {
    MissionNamesPlan() + (UnitNamesPlan(families) + WaypointsPlan())
  }

  predicate MissionNamesResolved(src: Sources, template: string, parts: seq<seq<string>>) {
    && src.names.strings(MissionSection, "Template") == Some(template)
    && |parts| == MissionNamesPartCount
    && (forall i :: 0 <= i < MissionNamesPartCount ==>
          src.names.stringArrays(MissionSection, PartKey(i)) == Some(parts[i]))
  }

  predicate UnitNamesResolved(src: Sources, families: Enumeration,
                              briefing: seq<seq<Option<string>>>, groups: seq<string>) {
    && |briefing| == families.Count()
    && |groups| == families.Count()
    && (forall i :: 0 <= i < families.Count() ==>
          && src.names.stringArrays(UnitBriefingSection, families.members[i]).Some?
          && briefing[i] == BriefingNames(src.names.stringArrays(UnitBriefingSection, families.members[i]).value))
    && (forall i :: 0 <= i < families.Count() ==>
          src.names.strings(UnitGroupSection, families.members[i]) == Some(groups[i]))
  }

  /** Slot by slot, what the `Names.ini` block assigns. */
  predicate NamesResolved(src: Sources, families: Enumeration, n: NameSettings) {
    var doc := src.names;
    && MissionNamesResolved(src, n.missionNameTemplate, n.missionNameParts)
    && UnitNamesResolved(src, families, n.unitBriefingNames, n.unitGroupNames)
    && doc.strings(WaypointsSection, "Final") == Some(n.wpNameFinal)
    && doc.strings(WaypointsSection, "Initial") == Some(n.wpNameInitial)
    && doc.strings(WaypointsSection, "Navigation") == Some(n.wpNameNavigation)
    && doc.stringArrays(WaypointsSection, "Objectives") == Some(n.wpNamesObjectives)
  }

  /** The template and the `MISSION_NAMES_PART_COUNT` part lists. */
  function LoadMissionNames(src: Sources): (r: Result<(string, seq<seq<string>>), LoadError>)
    ensures Agrees(r, FirstFailure(src, MissionNamesPlan()))
    ensures r.Success? ==> MissionNamesResolved(src, r.value.0, r.value.1)
  {
    CollectFollowsPlan(src, 0, MissionNamesPartCount, PartLoop(src), PartReads);
    FirstFailureAppend(src, [TemplateRead], PartsPlan());
    var template :- ReadString(src, NamesIni, MissionSection, "Template");
    var parts :- Collect(MissionNamesPartCount, PartLoop(src));
    PartSlotsResolved(src, template, parts);
    Success((template, parts))
  }

  lemma PartSlotsResolved(src: Sources, template: string, parts: seq<seq<string>>)
    requires src.names.strings(MissionSection, "Template") == Some(template)
    requires |parts| == MissionNamesPartCount
    requires forall i :: 0 <= i < MissionNamesPartCount ==> PartLoop(src)(i) == Success(parts[i])
    ensures MissionNamesResolved(src, template, parts)
  {
    forall i | 0 <= i < MissionNamesPartCount
      ensures src.names.stringArrays(MissionSection, PartKey(i)) == Some(parts[i])
    {
      assert ReadStrings(src, NamesIni, MissionSection, PartKey(i)) == Success(parts[i]);
    }
  }

  /** The `UnitFamily` loop: briefing names resized to two, group-name patterns as read. */
  function LoadUnitNames(src: Sources, families: Enumeration): (r: Result<(seq<seq<Option<string>>>, seq<string>), LoadError>)
    ensures Agrees(r, FirstFailure(src, UnitNamesPlan(families)))
    ensures r.Success? ==> UnitNamesResolved(src, families, r.value.0, r.value.1)
  {
    CollectFollowsPlan(src, 0, families.Count(), FamilyLoop(src, families), FamilyReadsOf(families));
    var familyValues :- Collect(families.Count(), FamilyLoop(src, families));
    FamilySlotsResolved(src, families, familyValues);
    Success((Firsts(familyValues), Seconds(familyValues)))
  }

  lemma FamilySlotsResolved(src: Sources, families: Enumeration, values: seq<(seq<Option<string>>, string)>)
    requires |values| == families.Count()
    requires forall i :: 0 <= i < families.Count() ==> FamilyAt(src, families, i) == Success(values[i])
    ensures UnitNamesResolved(src, families, Firsts(values), Seconds(values))
  {
    forall i | 0 <= i < families.Count()
      ensures src.names.stringArrays(UnitBriefingSection, families.members[i]).Some?
    {
      assert FamilyAt(src, families, i).Success?;
    }
  }

  /** The `Names.ini` block of `Load`. */
  function LoadNames(src: Sources, families: Enumeration): (r: Result<NameSettings, LoadError>)
    ensures Agrees(r, FirstFailure(src, NamesPlan(families)))
    ensures r.Success? ==> NamesResolved(src, families, r.value)
  {
    FirstFailureAppend(src, MissionNamesPlan(), UnitNamesPlan(families) + WaypointsPlan());
    FirstFailureAppend(src, UnitNamesPlan(families), WaypointsPlan());
    var mission :- LoadMissionNames(src);
    var units :- LoadUnitNames(src, families);
    var w :- LoadWaypoints(src);
    Success(NameSettings(mission.0, mission.1, units.0, units.1, w.0, w.1, w.2, w.3))
  }

  /** The waypoint names: final, initial, navigation, and the objective list. */
  function LoadWaypoints(src: Sources): (r: Result<(string, string, string, seq<string>), LoadError>)
    ensures Agrees(r, FirstFailure(src, WaypointsPlan()))
    ensures r.Success? ==>
      && src.names.strings(WaypointsSection, "Final") == Some(r.value.0)
      && src.names.strings(WaypointsSection, "Initial") == Some(r.value.1)
      && src.names.strings(WaypointsSection, "Navigation") == Some(r.value.2)
      && src.names.stringArrays(WaypointsSection, "Objectives") == Some(r.value.3)
  {
    FirstFailureAppend(src, [WaypointRead("Final", StringValue)],
      [WaypointRead("Initial", StringValue)] + ([WaypointRead("Navigation", StringValue)] + [WaypointRead("Objectives", StringArrayValue)]));
    FirstFailureAppend(src, [WaypointRead("Initial", StringValue)],
      [WaypointRead("Navigation", StringValue)] + [WaypointRead("Objectives", StringArrayValue)]);
    FirstFailureAppend(src, [WaypointRead("Navigation", StringValue)], [WaypointRead("Objectives", StringArrayValue)]);
    var final :- ReadString(src, NamesIni, WaypointsSection, "Final");
    var initial :- ReadString(src, NamesIni, WaypointsSection, "Initial");
    var navigation :- ReadString(src, NamesIni, WaypointsSection, "Navigation");
    var objectives :- ReadStrings(src, NamesIni, WaypointsSection, "Objectives");
    Success((final, initial, navigation, objectives))
  }

  // ------------------------------------------------------- Objectives.ini

  /** The reads of the `Amount` loop at ordinal i. */
  function DistanceReads(amount: Enumeration, i: nat): seq<Read>
    requires i < amount.Count()
  {
    [ KeyRead(ObjectivesIni, ObjectiveSection, MemberKey(amount.members[i], DistanceBetweenObjectives), IntValue),
      KeyRead(ObjectivesIni, ObjectiveSection, MemberKey(amount.members[i], DistanceFromTakeOffLocation), IntValue) ]
  }

  /** Iteration i of the `Amount` loop: both distances clamped to at least zero. */
  function DistancesAt(src: Sources, amount: Enumeration, i: nat): (r: Result<(int, int), LoadError>)
    requires i < amount.Count()
    ensures Agrees(r, FirstFailure(src, DistanceReads(amount, i)))
    ensures r.Success? ==>
      var between := src.objectives.ints(ObjectiveSection, MemberKey(amount.members[i], DistanceBetweenObjectives));
      var takeOff := src.objectives.ints(ObjectiveSection, MemberKey(amount.members[i], DistanceFromTakeOffLocation));
      && between.Some? && r.value.0 == NonNegative(between.value)
      && takeOff.Some? && r.value.1 == NonNegative(takeOff.value)
  {
    var m := amount.members[i];
    FirstFailureAppend(src, DistanceReads(amount, i)[..1], DistanceReads(amount, i)[1..]);
    assert DistanceReads(amount, i) == DistanceReads(amount, i)[..1] + DistanceReads(amount, i)[1..];
    var between :- ReadInt(src, ObjectivesIni, ObjectiveSection, MemberKey(m, DistanceBetweenObjectives));
    var takeOff :- ReadInt(src, ObjectivesIni, ObjectiveSection, MemberKey(m, DistanceFromTakeOffLocation));
    Success((NonNegative(between), NonNegative(takeOff)))
  }

  /** The body of the `Amount` loop, and its reads. */
  function DistanceLoop(src: Sources, amount: Enumeration): nat --> Result<(int, int), LoadError> {
    (i: nat) requires i < amount.Count() => DistancesAt(src, amount, i)
  }

  function DistanceReadsOf(amount: Enumeration): nat --> seq<Read> {
    (i: nat) requires i < amount.Count() => DistanceReads(amount, i)
  }

  /** The reads of the `Objectives.ini` block, in order. */
  function ObjectivesPlan(amount: Enumeration): seq<Read> {
    FlattenFrom(0, amount.Count(), DistanceReadsOf(amount))
  }

  /** Slot by slot, what the `Objectives.ini` block assigns. */
  predicate ObjectivesResolved(src: Sources, amount: Enumeration, o: ObjectiveSettings) {
    var doc := src.objectives;
    && |o.distanceBetweenObjectives| == amount.Count()
    && |o.distanceFromTakeOffLocation| == amount.Count()
    && (forall i :: 0 <= i < amount.Count() ==>
          && doc.ints(ObjectiveSection, MemberKey(amount.members[i], DistanceBetweenObjectives)).Some?
          && o.distanceBetweenObjectives[i]
               == NonNegative(doc.ints(ObjectiveSection, MemberKey(amount.members[i], DistanceBetweenObjectives)).value))
    && (forall i :: 0 <= i < amount.Count() ==>
          && doc.ints(ObjectiveSection, MemberKey(amount.members[i], DistanceFromTakeOffLocation)).Some?
          && o.distanceFromTakeOffLocation[i]
               == NonNegative(doc.ints(ObjectiveSection, MemberKey(amount.members[i], DistanceFromTakeOffLocation)).value))
  }

  /** The `Objectives.ini` block of `Load`. */
  function LoadObjectives(src: Sources, amount: Enumeration): (r: Result<ObjectiveSettings, LoadError>)
    ensures Agrees(r, FirstFailure(src, ObjectivesPlan(amount)))
    ensures r.Success? ==> ObjectivesResolved(src, amount, r.value)
  {
    CollectFollowsPlan(src, 0, amount.Count(), DistanceLoop(src, amount), DistanceReadsOf(amount));
    var distances :- Collect(amount.Count(), DistanceLoop(src, amount));
    DistanceSlotsResolved(src, amount, distances);
    Success(ObjectiveSettings(Firsts(distances), Seconds(distances)))
  }

  lemma DistanceSlotsResolved(src: Sources, amount: Enumeration, distances: seq<(int, int)>)
    requires |distances| == amount.Count()
    requires forall i :: 0 <= i < amount.Count() ==> DistancesAt(src, amount, i) == Success(distances[i])
    ensures ObjectivesResolved(src, amount, ObjectiveSettings(Firsts(distances), Seconds(distances)))
  {
    forall i | 0 <= i < amount.Count()
      ensures src.objectives.ints(ObjectiveSection, MemberKey(amount.members[i], DistanceBetweenObjectives)).Some?
      ensures src.objectives.ints(ObjectiveSection, MemberKey(amount.members[i], DistanceFromTakeOffLocation)).Some?
    {
      assert DistancesAt(src, amount, i).Success?;
    }
  }

  // ------------------------------------------------------------------ Load

  const CommonOggRead := KeyRead(CommonIni, IncludeSection, "CommonOgg", StringArrayValue)

  /** Every read of `Load`, in the order the source performs them. */
  function LoadPlan(e: Catalogue): seq<Read> {
    [CommonOggRead] + TablesPlan(e)
  }

  /** The reads after `Common.ini`. */
  function TablesPlan(e: Catalogue): seq<Read> {
    AirDefensePlan(e.airDefenseRange) + (NamesPlan(e.unitFamily) + ObjectivesPlan(e.amount))
  }

  /** Slot by slot, what `Load` assigns. */
  predicate Resolved(src: Sources, e: Catalogue, t: CommonSettings) {
    && src.common.stringArrays(IncludeSection, "CommonOgg") == Some(t.commonOgg)
    && AirDefenseResolved(src, e.airDefenseRange, t.airDefense)
    && NamesResolved(src, e.unitFamily, t.names)
    && ObjectivesResolved(src, e.amount, t.objectives)
  }

  /** The blocks after `Common.ini`, each in its own document. */
  function LoadTables(src: Sources, e: Catalogue, commonOgg: seq<string>): (r: Result<CommonSettings, LoadError>)
    ensures Agrees(r, FirstFailure(src, TablesPlan(e)))
    ensures r.Success? ==> r.value.commonOgg == commonOgg
    ensures r.Success? ==>
      && AirDefenseResolved(src, e.airDefenseRange, r.value.airDefense)
      && NamesResolved(src, e.unitFamily, r.value.names)
      && ObjectivesResolved(src, e.amount, r.value.objectives)
  {
    var a, n, o := AirDefensePlan(e.airDefenseRange), NamesPlan(e.unitFamily), ObjectivesPlan(e.amount);
    FirstFailureAppend(src, a, n + o);
    FirstFailureAppend(src, n, o);
    var airDefense :- LoadAirDefense(src, e.airDefenseRange);
    var names :- LoadNames(src, e.unitFamily);
    var objectives :- LoadObjectives(src, e.amount);
    Success(CommonSettings(commonOgg, airDefense, names, objectives))
  }

  /** `DatabaseCommon.Load`. */
  function Load(src: Sources, e: Catalogue): (r: LoadOutcome)
    ensures Agrees(r.settings, FirstFailure(src, LoadPlan(e)))
    ensures r.settings.Success? ==> Resolved(src, e, r.settings.value)
    ensures r.settings.Success? ==> FillsLayout(r.settings.value, ConstructorLayout(e))
  {
    FirstFailureAppend(src, [CommonOggRead], TablesPlan(e));
    match ReadStrings(src, CommonIni, IncludeSection, "CommonOgg")
    case Failure(err) => LoadOutcome(Failure(err), [])
    case Success(commonOgg) =>
      LoadOutcome(LoadTables(src, e, commonOgg), MissingOggWarnings(commonOgg, src.oggFileExists))
  }
}
