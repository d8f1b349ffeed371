/** What `DatabaseCommon.Load` guarantees: the reads it performs and their order,
    the rules each table slot obeys, what it does not check, and that the
    Ogg warnings are advisory. */
module LoadProperties {
  import opened Results
  import opened Sequences
  import opened Amounts
  import opened Enumerations
  import opened Settings
  import opened DatabaseCommon

  // ------------------------------------------------------- fail-fast order

  /** `Load` performs the reads of `LoadPlan` in order and stops at the first one
      that delivers no value: it succeeds exactly when every read succeeds, and
      otherwise fails with the error of the first read that fails. */
  lemma LoadIsFailFast(src: Sources, e: Catalogue)
    ensures Agrees(Load(src, e).settings, FirstFailure(src, LoadPlan(e)))
    ensures Load(src, e).settings.Success? <==> forall j :: 0 <= j < |LoadPlan(e)| ==> Succeeds(src, LoadPlan(e)[j])
    ensures Load(src, e).settings.Failure? ==>
      exists j :: 0 <= j < |LoadPlan(e)| && !Succeeds(src, LoadPlan(e)[j])
        && ErrorOf(LoadPlan(e)[j]) == Load(src, e).settings.error
        && forall i :: 0 <= i < j ==> Succeeds(src, LoadPlan(e)[i])
  {
    FirstFailureMeaning(src, LoadPlan(e));
  }

  /** The first read is `CommonOgg` in `Common.ini`: when it delivers nothing, the
      load fails with that key and no file is checked. */
  lemma MissingCommonOggAbortsFirst(src: Sources, e: Catalogue)
    requires src.common.stringArrays(IncludeSection, "CommonOgg").None?
    ensures Load(src, e).settings == Failure(ValueUnavailable(CommonIni, IncludeSection, "CommonOgg"))
    ensures Load(src, e).warnings == []
  {
  }

  // ---------------------------------------------- the result is determined

  /** Two sources with the same documents and the same air-defense info constructor;
      they may differ in which Ogg files exist. */
  ghost predicate SameDocuments(s1: Sources, s2: Sources) {
    && s1.common == s2.common
    && s1.enemyAirDefense == s2.enemyAirDefense
    && s1.names == s2.names
    && s1.objectives == s2.objectives
    && s1.airDefenseInfo == s2.airDefenseInfo
  }

  lemma {:induction false} FirstFailureReadsOnlyDocuments(s1: Sources, s2: Sources, plan: seq<Read>)
    requires SameDocuments(s1, s2)
    ensures FirstFailure(s1, plan) == FirstFailure(s2, plan)
  {
    if |plan| > 0 {
      assert Succeeds(s1, plan[0]) == Succeeds(s2, plan[0]) by {
        if plan[0].KeyRead? {
          assert s1.DocumentOf(plan[0].file) == s2.DocumentOf(plan[0].file);
        }
      }
      FirstFailureReadsOnlyDocuments(s1, s2, plan[1..]);
    }
  }

  lemma LevelsDetermined(s1: Sources, s2: Sources, i1: seq<AirDefenseInfo>, p1: seq<real>, i2: seq<AirDefenseInfo>, p2: seq<real>)
    requires SameDocuments(s1, s2)
    requires LevelsResolved(s1, i1, p1) && LevelsResolved(s2, i2, p2)
    ensures i1 == i2 && p1 == p2
  {
    assert forall i :: 0 <= i < AmountNCount ==> i1[i] == i2[i];
    assert forall i :: 0 <= i < AmountNCount ==> p1[i] == p2[i];
  }

  lemma AirDefenseDetermined(s1: Sources, s2: Sources, ranges: Enumeration, a1: AirDefenseSettings, a2: AirDefenseSettings)
    requires SameDocuments(s1, s2)
    requires AirDefenseResolved(s1, ranges, a1) && AirDefenseResolved(s2, ranges, a2)
    ensures a1 == a2
  {
    LevelsDetermined(s1, s2, a1.enemyAirDefense, a1.capRelativePower, a2.enemyAirDefense, a2.capRelativePower);
    assert forall i :: 0 <= i < ranges.Count() ==> a1.distanceFromTakeOffLocation[i] == a2.distanceFromTakeOffLocation[i];
    assert forall i :: 0 <= i < ranges.Count() ==> a1.distanceFromObjectives[i] == a2.distanceFromObjectives[i];
  }

  lemma NamesDetermined(s1: Sources, s2: Sources, families: Enumeration, n1: NameSettings, n2: NameSettings)
    requires SameDocuments(s1, s2)
    requires NamesResolved(s1, families, n1) && NamesResolved(s2, families, n2)
    ensures n1 == n2
  {
    assert forall i :: 0 <= i < MissionNamesPartCount ==> n1.missionNameParts[i] == n2.missionNameParts[i];
    assert forall i :: 0 <= i < families.Count() ==> n1.unitBriefingNames[i] == n2.unitBriefingNames[i];
    assert forall i :: 0 <= i < families.Count() ==> n1.unitGroupNames[i] == n2.unitGroupNames[i];
  }

  lemma ObjectivesDetermined(s1: Sources, s2: Sources, amount: Enumeration, o1: ObjectiveSettings, o2: ObjectiveSettings)
    requires SameDocuments(s1, s2)
    requires ObjectivesResolved(s1, amount, o1) && ObjectivesResolved(s2, amount, o2)
    ensures o1 == o2
  {
    assert forall i :: 0 <= i < amount.Count() ==> o1.distanceBetweenObjectives[i] == o2.distanceBetweenObjectives[i];
    assert forall i :: 0 <= i < amount.Count() ==> o1.distanceFromTakeOffLocation[i] == o2.distanceFromTakeOffLocation[i];
  }

  /** The slot-by-slot rules leave no freedom: two results that both follow them
      from the same documents are the same settings. */
  lemma ResolvedDeterminesSettings(s1: Sources, s2: Sources, e: Catalogue, t1: CommonSettings, t2: CommonSettings)
    requires SameDocuments(s1, s2)
    requires Resolved(s1, e, t1) && Resolved(s2, e, t2)
    ensures t1 == t2
  {
    AirDefenseDetermined(s1, s2, e.airDefenseRange, t1.airDefense, t2.airDefense);
    NamesDetermined(s1, s2, e.unitFamily, t1.names, t2.names);
    ObjectivesDetermined(s1, s2, e.amount, t1.objectives, t2.objectives);
  }

  /** The settings depend on the documents alone: in particular, whether the Ogg
      files exist changes nothing but the warnings. */
  lemma SettingsDependOnlyOnDocuments(s1: Sources, s2: Sources, e: Catalogue)
    requires SameDocuments(s1, s2)
    ensures Load(s1, e).settings == Load(s2, e).settings
  {
    FirstFailureReadsOnlyDocuments(s1, s2, LoadPlan(e));
    var r1, r2 := Load(s1, e).settings, Load(s2, e).settings;
    if r1.Success? && r2.Success? {
      ResolvedDeterminesSettings(s1, s2, e, r1.value, r2.value);
    }
  }

  // ------------------------------------------------------- the Ogg includes

  /** A missing Ogg file is only reported: the settings are those of a load in which
      every file exists, `CommonOgg` is kept as read, each listed name whose file is
      missing gets one warning per listing and no other name gets any, and the
      warnings come out even when a later read aborts the load. */
  lemma OggWarningsAreAdvisory(src: Sources, e: Catalogue, names: seq<string>)
    requires src.common.stringArrays(IncludeSection, "CommonOgg") == Some(names)
    ensures Load(src, e).settings == Load(src.(oggFileExists := (_ => true)), e).settings
    ensures Load(src.(oggFileExists := (_ => true)), e).warnings == []
    ensures Load(src, e).settings.Success? ==> Load(src, e).settings.value.commonOgg == names
    ensures forall x :: Count(Load(src, e).warnings, MissingOggFile(x))
                          == if src.oggFileExists(OggFileName(x)) then 0 else Count(names, x)
    ensures forall k :: 0 <= k < |Load(src, e).warnings| ==>
              Load(src, e).warnings[k].name in names && !src.oggFileExists(OggFileName(Load(src, e).warnings[k].name))
  {
    SettingsDependOnlyOnDocuments(src, src.(oggFileExists := (_ => true)), e);
  }

  // ----------------------------------------------------- CAP relative power

  /** The level `None` gets relative power exactly zero. */
  lemma CapPowerAtNoneIsZero(src: Sources, e: Catalogue)
    ensures Load(src, e).settings.Success? ==> Load(src, e).settings.value.airDefense.capRelativePower[Ordinal(AmountN.None)] == 0.0
  {
  }

  predicate ReadsKey(rd: Read, f: SettingsFile, section: string, key: string) {
    rd.KeyRead? && rd.file == f && rd.section == section && rd.key == key
  }

  lemma NoneKeyNotInLevel(i: nat, x: Read)
    requires i < AmountNCount && x in LevelReads(i)
    ensures !ReadsKey(x, EnemyAirDefenseIni, CapSection, RelativePowerKey(AmountN.None))
  {
    if i > 0 && x.KeyRead? {
      assert x.key == RelativePowerKey(FromOrdinal(i));
      DistinctLevelsDistinctKeys("RelativePower", FromOrdinal(i), AmountN.None);
    }
  }

  lemma NoneKeyNotInLevels(x: Read)
    ensures x in LevelsPlan() ==> !ReadsKey(x, EnemyAirDefenseIni, CapSection, RelativePowerKey(AmountN.None))
  {
    if x in LevelsPlan() {
      InFlattenFrom(0, AmountNCount, LevelReads, x);
      var i :| 0 <= i < AmountNCount && x in LevelReads(i);
      NoneKeyNotInLevel(i, x);
    }
  }

  lemma NoneKeyNotInAirDefense(ranges: Enumeration, x: Read)
    requires x in AirDefensePlan(ranges)
    ensures !ReadsKey(x, EnemyAirDefenseIni, CapSection, RelativePowerKey(AmountN.None))
  {
    if x in LevelsPlan() {
      NoneKeyNotInLevels(x);
    } else if x in RangesPlan(ranges) {
      NoneKeyNotInRanges(ranges, x);
    } else {
      assert |RelativePowerKey(AmountN.None)| == 18;
    }
  }

  lemma NoneKeyNotInRanges(ranges: Enumeration, x: Read)
    requires x in RangesPlan(ranges)
    ensures x.KeyRead? && x.section == RangeSection
  {
    InFlattenFrom(0, ranges.Count(), RangeReadsOf(ranges), x);
    var i :| 0 <= i < ranges.Count() && x in RangeReads(ranges, i);
  }

  lemma NoneKeyNotInNames(families: Enumeration, x: Read)
    requires x in NamesPlan(families)
    ensures x.KeyRead? && x.file == NamesIni
  {
    if x in PartsPlan() {
      InFlattenFrom(0, MissionNamesPartCount, PartReads, x);
    } else if x in UnitNamesPlan(families) {
      InFlattenFrom(0, families.Count(), FamilyReadsOf(families), x);
      var i :| 0 <= i < families.Count() && x in FamilyReads(families, i);
    }
  }

  lemma NoneKeyNotInObjectives(amount: Enumeration, x: Read)
    requires x in ObjectivesPlan(amount)
    ensures x.KeyRead? && x.file == ObjectivesIni
  {
    InFlattenFrom(0, amount.Count(), DistanceReadsOf(amount), x);
    var i :| 0 <= i < amount.Count() && x in DistanceReads(amount, i);
  }

  /** No read of `Load` consults `RelativePower.None`: the zero at `None` is not a
      value from the document. */
  lemma NoneRelativePowerNeverRead(e: Catalogue)
    ensures forall k :: 0 <= k < |LoadPlan(e)| ==>
              !ReadsKey(LoadPlan(e)[k], EnemyAirDefenseIni, CapSection, RelativePowerKey(AmountN.None))
  {
    forall k | 0 <= k < |LoadPlan(e)|
      ensures !ReadsKey(LoadPlan(e)[k], EnemyAirDefenseIni, CapSection, RelativePowerKey(AmountN.None))
    {
      var x := LoadPlan(e)[k];
      assert x in LoadPlan(e);
      if x in AirDefensePlan(e.airDefenseRange) {
        NoneKeyNotInAirDefense(e.airDefenseRange, x);
      } else if x in NamesPlan(e.unitFamily) {
        NoneKeyNotInNames(e.unitFamily, x);
      } else if x in ObjectivesPlan(e.amount) {
        NoneKeyNotInObjectives(e.amount, x);
      }
    }
  }

  /** Every other level gets the integer under `RelativePower.{level}`, clamped to
      [0, 100] and divided by 100: a fraction in [0, 1] that is exactly 1 from 100 up
      and exactly 0 from 0 down. */
  lemma CapPowersAreFractions(src: Sources, e: Catalogue)
    ensures Load(src, e).settings.Success? ==> forall a: AmountN :: 0.0 <= Load(src, e).settings.value.airDefense.capRelativePower[Ordinal(a)] <= 1.0
    ensures Load(src, e).settings.Success? ==> forall a: AmountN :: a != AmountN.None ==>
              var raw := src.enemyAirDefense.ints(CapSection, RelativePowerKey(a));
              var p := Load(src, e).settings.value.airDefense.capRelativePower[Ordinal(a)];
              && raw.Some?
              && (raw.value >= 100 ==> p == 1.0)
              && (raw.value <= 0 ==> p == 0.0)
              && (0 <= raw.value <= 100 ==> p * 100.0 == raw.value as real)
  {
    if Load(src, e).settings.Success? {
      var p := Load(src, e).settings.value.airDefense.capRelativePower;
      forall a: AmountN ensures 0.0 <= p[Ordinal(a)] <= 1.0 {
        assert FromOrdinal(Ordinal(a)) == a;
      }
      forall a: AmountN | a != AmountN.None
        ensures src.enemyAirDefense.ints(CapSection, RelativePowerKey(a)).Some?
        ensures p[Ordinal(a)] == Percentage(src.enemyAirDefense.ints(CapSection, RelativePowerKey(a)).value)
      {
        assert FromOrdinal(Ordinal(a)) == a;
      }
    }
  }

  /** With `RelativePower.Low = 150` and `RelativePower.VeryHigh = 80`, the powers
      at `Low`, `VeryHigh` and `None` are 1.0, 0.8 and 0.0. */
  lemma CapPowerExample(src: Sources, e: Catalogue)
    requires src.enemyAirDefense.ints(CapSection, RelativePowerKey(Low)) == Some(150)
    requires src.enemyAirDefense.ints(CapSection, RelativePowerKey(VeryHigh)) == Some(80)
    ensures Load(src, e).settings.Success? ==> Load(src, e).settings.value.airDefense.capRelativePower[Ordinal(Low)] == 1.0
    ensures Load(src, e).settings.Success? ==> Load(src, e).settings.value.airDefense.capRelativePower[Ordinal(VeryHigh)] == 0.8
    ensures Load(src, e).settings.Success? ==> Load(src, e).settings.value.airDefense.capRelativePower[Ordinal(AmountN.None)] == 0.0
  {
    assert FromOrdinal(2) == Low && FromOrdinal(5) == VeryHigh;
  }

  // ------------------------------------------------------------- distances

  /** Both objective distances of each `Amount` member are `max(0, raw)`: never
      negative, and the raw value itself whenever that is not negative. */
  lemma ObjectiveDistancesAreClamped(src: Sources, e: Catalogue)
    ensures Load(src, e).settings.Success? ==> forall i :: 0 <= i < e.amount.Count() ==>
              var raw := src.objectives.ints(ObjectiveSection, MemberKey(e.amount.members[i], DistanceBetweenObjectives));
              var d := Load(src, e).settings.value.objectives.distanceBetweenObjectives[i];
              raw.Some? && d >= 0 && (raw.value >= 0 ==> d == raw.value) && (raw.value < 0 ==> d == 0)
    ensures Load(src, e).settings.Success? ==> forall i :: 0 <= i < e.amount.Count() ==>
              var raw := src.objectives.ints(ObjectiveSection, MemberKey(e.amount.members[i], DistanceFromTakeOffLocation));
              var d := Load(src, e).settings.value.objectives.distanceFromTakeOffLocation[i];
              raw.Some? && d >= 0 && (raw.value >= 0 ==> d == raw.value) && (raw.value < 0 ==> d == 0)
  {
  }

  /** The CAP distances and the per-range air-defense distances are stored exactly
      as read. */
  lemma AirDefenseDistancesAsRead(src: Sources, e: Catalogue)
    ensures Load(src, e).settings.Success? ==> var a := Load(src, e).settings.value.airDefense;
      && src.enemyAirDefense.intervals(CapSection, DistanceFromObjectives) == Some(a.capDistanceFromObjectives)
      && src.enemyAirDefense.ints(CapSection, MinDistanceFromTakeOffLocation) == Some(a.capMinDistanceFromTakeOffLocation)
    ensures Load(src, e).settings.Success? ==> forall i :: 0 <= i < e.airDefenseRange.Count() ==>
              src.enemyAirDefense.ints(RangeSection, MemberKey(e.airDefenseRange.members[i], MinDistanceFromTakeOffLocation))
                == Some(Load(src, e).settings.value.airDefense.distanceFromTakeOffLocation[i])
    ensures Load(src, e).settings.Success? ==> forall i :: 0 <= i < e.airDefenseRange.Count() ==>
              src.enemyAirDefense.intervals(RangeSection, MemberKey(e.airDefenseRange.members[i], DistanceFromObjectives))
                == Some(Load(src, e).settings.value.airDefense.distanceFromObjectives[i])
  {
  }

  /** A document that answers every key with the same value. */
  function UniformDocument(n: int, interval: Interval): Document {
    Document((_, _) => Some(n), (_, _) => Some(interval), (_, _) => Some(""), (_, _) => Some([]))
  }

  /** Sources in which every read delivers: every integer is n, every interval is
      `interval`, and every level gets `info`. */
  function UniformSources(n: int, interval: Interval, info: AirDefenseInfo): (src: Sources)
    ensures forall rd :: Succeeds(src, rd)
  {
    var doc := UniformDocument(n, interval);
    Sources(doc, doc, doc, doc, (_, _) => Some(info), _ => true)
  }

  /** Nothing checks min <= max or the sign of an air-defense distance: with every
      interval inverted and every integer -5, the load succeeds, keeps the inverted
      intervals and the negative distances, and only the objective distances are
      raised to 0. */
  lemma InvertedIntervalsAreAccepted(e: Catalogue, info: AirDefenseInfo)
    ensures var r := Load(UniformSources(-5, Interval(10.0, 1.0), info), e).settings;
      && r.Success?
      && r.value.airDefense.capDistanceFromObjectives == Interval(10.0, 1.0)
      && r.value.airDefense.capMinDistanceFromTakeOffLocation == -5
      && (forall i :: 0 <= i < e.airDefenseRange.Count() ==>
            r.value.airDefense.distanceFromObjectives[i] == Interval(10.0, 1.0)
            && r.value.airDefense.distanceFromTakeOffLocation[i] == -5)
      && (forall i :: 0 <= i < e.amount.Count() ==>
            r.value.objectives.distanceBetweenObjectives[i] == 0
            && r.value.objectives.distanceFromTakeOffLocation[i] == 0)
  {
    var src := UniformSources(-5, Interval(10.0, 1.0), info);
    LoadIsFailFast(src, e);
  }

  // ------------------------------------------------------------------ names

  /** `Array.Resize(ref names, 2)`: two entries read are kept, extra ones dropped,
      and missing ones are null. */
  lemma BriefingNamesCases(read: seq<string>)
    ensures |read| >= 2 ==> BriefingNames(read) == [Some(read[0]), Some(read[1])]
    ensures |read| == 1 ==> BriefingNames(read) == [Some(read[0]), Option.None]
    ensures |read| == 0 ==> BriefingNames(read) == [Option.None, Option.None]
  {
  }

  /** Every unit family gets exactly two briefing names, the first entries read
      under its name in `UnitBriefing`, padded with null. */
  lemma UnitBriefingNamesHaveTwoSlots(src: Sources, e: Catalogue)
    ensures Load(src, e).settings.Success? ==> forall i :: 0 <= i < e.unitFamily.Count() ==>
              var read := src.names.stringArrays(UnitBriefingSection, e.unitFamily.members[i]);
              var b := Load(src, e).settings.value.names.unitBriefingNames[i];
              && read.Some? && |b| == 2
              && forall k :: 0 <= k < 2 ==> b[k] == if k < |read.value| then Some(read.value[k]) else Option.None
  {
  }

  /** The part keys are `Part1` to `Part4`, and no two parts share a key. */
  lemma PartKeysAreOneBased()
    ensures PartKey(0) == "Part1" && PartKey(1) == "Part2" && PartKey(2) == "Part3" && PartKey(3) == "Part4"
    ensures forall i: nat, j: nat :: i != j ==> PartKey(i) != PartKey(j)
  {
    forall i: nat, j: nat | i != j ensures PartKey(i) != PartKey(j) {
      PartKeyInjective(i, j);
    }
  }

  /** There are `MISSION_NAMES_PART_COUNT` = 4 mission-name parts, part i being the
      list under `Part{i + 1}` in section `Mission`. */
  lemma MissionNamePartsFromKeys(src: Sources, e: Catalogue)
    ensures Load(src, e).settings.Success? ==> |Load(src, e).settings.value.names.missionNameParts| == MissionNamesPartCount == 4
    ensures Load(src, e).settings.Success? ==> forall i :: 0 <= i < 4 ==>
              src.names.stringArrays(MissionSection, "Part" + DecimalString(i + 1))
                == Some(Load(src, e).settings.value.names.missionNameParts[i])
  {
  }

  // ---------------------------------------------------------------- totality

  /** Every enumeration-indexed table has one slot per member of its enumeration. */
  lemma TablesHaveOneSlotPerMember(src: Sources, e: Catalogue)
    ensures Load(src, e).settings.Success? ==> var t := Load(src, e).settings.value;
      && |t.objectives.distanceBetweenObjectives| == |t.objectives.distanceFromTakeOffLocation| == e.amount.Count()
      && |t.airDefense.enemyAirDefense| == |t.airDefense.capRelativePower| == AmountNCount
      && |t.airDefense.distanceFromObjectives| == |t.airDefense.distanceFromTakeOffLocation| == e.airDefenseRange.Count()
      && |t.names.unitBriefingNames| == |t.names.unitGroupNames| == e.unitFamily.Count()
  {
  }

  /** No two reads, of the same ordinal or of two different ones, are the same read. */
  predicate Disjoint(a: seq<Read>, b: seq<Read>) {
    forall k, l :: 0 <= k < |a| && 0 <= l < |b| ==> a[k] != b[l]
  }

  /** Iterations of the `Amount` loop for distinct members read distinct keys. */
  lemma ObjectiveReadsDisjoint(amount: Enumeration, i: nat, j: nat)
    requires amount.WellFormed()
    requires i < amount.Count() && j < amount.Count() && i != j
    ensures Disjoint(DistanceReads(amount, i), DistanceReads(amount, j))
  {
    var a, b := amount.members[i], amount.members[j];
    DistinctMembersDistinctKeys(amount, i, j, DistanceBetweenObjectives);
    DistinctMembersDistinctKeys(amount, i, j, DistanceFromTakeOffLocation);
    MemberKeysOfDistinctSuffixesDiffer(a, b, DistanceBetweenObjectives, DistanceFromTakeOffLocation);
    MemberKeysOfDistinctSuffixesDiffer(a, b, DistanceFromTakeOffLocation, DistanceBetweenObjectives);
  }

  /** Iterations of the `AirDefenseRange` loop for distinct members read distinct keys. */
  lemma RangeReadsDisjoint(ranges: Enumeration, i: nat, j: nat)
    requires ranges.WellFormed()
    requires i < ranges.Count() && j < ranges.Count() && i != j
    ensures Disjoint(RangeReads(ranges, i), RangeReads(ranges, j))
  {
    DistinctMembersDistinctKeys(ranges, i, j, MinDistanceFromTakeOffLocation);
    DistinctMembersDistinctKeys(ranges, i, j, DistanceFromObjectives);
  }

  /** Iterations of the `UnitFamily` loop for distinct members read distinct keys. */
  lemma FamilyReadsDisjoint(families: Enumeration, i: nat, j: nat)
    requires families.WellFormed()
    requires i < families.Count() && j < families.Count() && i != j
    ensures Disjoint(FamilyReads(families, i), FamilyReads(families, j))
  {
  }

  /** Iterations of the `AmountN` loop for distinct levels read distinct keys. */
  lemma LevelReadsDisjoint(i: nat, j: nat)
    requires i < AmountNCount && j < AmountNCount && i != j
    ensures Disjoint(LevelReads(i), LevelReads(j))
  {
    DistinctLevelsDistinctKeys("RelativePower", FromOrdinal(i), FromOrdinal(j));
  }
}
