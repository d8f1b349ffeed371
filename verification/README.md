# DatabaseCommon settings resolution, modelled in Dafny

This project models the step of BriefingRoom for DCS World that turns the
common settings files into the tables the mission generator reads.
`DatabaseCommon.Load` reads four INI documents in a fixed order:

- `Common.ini` supplies the Ogg includes, each checked for an existing file;
- `EnemyAirDefense.ini` supplies the CAP distances, the per-`AmountN`
  air-defense info and CAP relative power, and the per-`AirDefenseRange`
  distances;
- `Names.ini` supplies the mission name template and parts, the per-`UnitFamily`
  briefing and group names, and the waypoint names;
- `Objectives.ini` supplies the per-`Amount` objective distances.

The model makes `Load` a pure function:

- **Inputs.** `Sources` holds the four documents, the air-defense info
  constructor and a file-existence predicate. `Catalogue` holds the member
  lists of `Amount`, `AirDefenseRange` and `UnitFamily`.
- **Output.** A `LoadOutcome` carries the settings (or the error of the read
  that aborted the load) and the list of missing-Ogg warnings.
- **Documents.** Each document is an abstract lookup from (section, key) to an
  optional value. `None` means the typed getter delivered no value, which in
  C# is an exception that `Load` does not catch. The model does not say when
  an `INIFile` getter throws.

Modules:

- `Amounts`: the `AmountN` enumeration and its ordinals.
- `Enumerations`: the enumerations whose members are not part of this model,
  and the keys built from member names.
- `Results`, `Sequences`: `Option`/`Result`, the table loops (`Collect`),
  `Array.Resize`, and counting.
- `Settings`: documents, reads, and the first failure of a sequence of reads.
- `DatabaseCommon`: the constructor's array sizes, the loaders of the four
  blocks, and `Load`.
- `LoadProperties`: what `Load` guarantees.

Every block loader states its result in two ways:

- **The read order.** Its result agrees with performing the block's reads in
  source order and stopping at the first that fails. The reads form a *plan*,
  a sequence of `Read` values.
- **The slot rules.** On success every slot follows a rule of its own. The
  `...Resolved` predicates give these rules as an independent reference.
  `ResolvedDeterminesSettings` shows that the rules fix the result.

## Model

| member | source | states |
|---|---|---|
| Amounts.Ordinal | Source/AmountN.cs:26-52 | the integer value of a member is below six and picks that member out of the declared order |
| Amounts.FromOrdinal | Source/AmountN.cs:26-52 | the cast `(AmountN)i` for i in [0, 6) gives the member whose ordinal is i |
| Amounts.Name | Source/AmountN.cs:31-51 | a member's `ToString()` is its declared name, which is non-empty and contains no dot |
| Amounts.ExactlySixMembers | Source/AmountN.cs:26-52 | there are exactly six members, each listed once, in the order None, VeryLow, Low, Average, High, VeryHigh |
| Amounts.OrdinalBijection | Source/AmountN.cs:26-52 | the ordinal and the cast are inverse bijections between the members and [0, 6) |
| Amounts.NoneIsOrdinalZero | Source/AmountN.cs:28-31 | ordinal 0 is `None` and no other member, so testing an index for 0 tests for `None` |
| Amounts.OrdinalOrderIsMagnitudeOrder | Source/AmountN.cs:24-51 | ordinal order runs from None through very low up to very high, and None is below every other member |
| Amounts.NamesDistinct | Source/AmountN.cs:31-51 | distinct members have distinct names |
| Enumerations.MemberKeyInjective | Source/DB/DatabaseCommon.cs:167-168 | with a fixed suffix, a key `{member}.{suffix}` determines the member |
| Enumerations.PrefixedKeyInjective | Source/DB/DatabaseCommon.cs:162 | with a fixed prefix, a key `{prefix}.{member}` determines the member |
| Enumerations.MemberKeysOfDistinctSuffixesDiffer | Source/DB/DatabaseCommon.cs:197-198 | keys of two members under two different suffixes never coincide, since the first dot ends the member name |
| Enumerations.DistinctMembersDistinctKeys | Source/DB/DatabaseCommon.cs:167-168 | in an enumeration whose names are non-empty, dot-free and pairwise distinct, distinct members give distinct keys under one suffix |
| Enumerations.DistinctLevelsDistinctKeys | Source/DB/DatabaseCommon.cs:162 | distinct `AmountN` levels give distinct `RelativePower.{level}` keys |
| Sequences.CollectFrom | Source/DB/DatabaseCommon.cs:157-163 | a table loop from `start` succeeds exactly when every iteration does, filling slot i with iteration i; otherwise it fails with the error of the first failing iteration |
| Sequences.Collect | Source/DB/DatabaseCommon.cs:195-199 | the loop over all ordinals 0..n-1: n slots, slot i from iteration i, or the first iteration's failure |
| Sequences.InFlattenFrom | Source/DB/DatabaseCommon.cs:157-163 | every read of a loop's reads belongs to the reads of one iteration |
| Sequences.Resize | Source/DB/DatabaseCommon.cs:182 | `Array.Resize(ref s, n)` has length n, keeps the first min(\|s\|, n) entries in order and fills the rest with the default |
| Results.Option.OrFail | Source/DB/DatabaseCommon.cs:145 | a getter's value becomes a success, and a missing value becomes a failure with the given error |
| Settings.FirstFailureMeaning | Source/DB/DatabaseCommon.cs:138-201 | performing a sequence of reads fails exactly when some read fails, and then with the error of the first failing read, all earlier reads having succeeded |
| Settings.FirstFailureAppend | Source/DB/DatabaseCommon.cs:138-201 | performing a + b fails first where a does, or else where b does |
| Settings.CollectFollowsPlan | Source/DB/DatabaseCommon.cs:157-163 | a table loop aborts exactly as performing each iteration's reads in turn does |
| Settings.ReadInt | Source/DB/DatabaseCommon.cs:155 | `GetValue<int>` delivers the document's value or aborts with the file, section and key read |
| Settings.ReadInterval | Source/DB/DatabaseCommon.cs:154 | `GetValue<MinMaxD>` delivers the document's interval as it stands or aborts with the key read |
| Settings.ReadString | Source/DB/DatabaseCommon.cs:175 | `GetValue<string>` delivers the document's string or aborts with the key read |
| Settings.ReadStrings | Source/DB/DatabaseCommon.cs:145 | `GetValueArray<string>` delivers the document's list or aborts with the key read |
| Settings.ReadAirDefenseInfo | Source/DB/DatabaseCommon.cs:159 | the air-defense info for a level is the constructor's value or aborts naming the level |
| DatabaseCommon.DecimalString | Source/DB/DatabaseCommon.cs:177 | the interpolated decimal form of a number is a non-empty string of digits |
| DatabaseCommon.DecimalRoundTrip | Source/DB/DatabaseCommon.cs:177 | reading the decimal digits of n back gives n |
| DatabaseCommon.PartKeyInjective | Source/DB/DatabaseCommon.cs:176-177 | distinct part indices give distinct `Part{i + 1}` keys |
| DatabaseCommon.NonNegative | Source/DB/DatabaseCommon.cs:197-198 | `Math.Max(0, x)` is never negative and is x whenever x is not negative |
| DatabaseCommon.Clamp | Source/DB/DatabaseCommon.cs:162 | `Toolbox.Clamp(x, lo, hi)` lies in [lo, hi], is x inside the range and the nearer bound outside it |
| DatabaseCommon.Percentage | Source/DB/DatabaseCommon.cs:162 | clamp(raw, 0, 100) / 100 lies in [0, 1], is 1 from 100 up, 0 from 0 down, and raw / 100 between |
| DatabaseCommon.BriefingNames | Source/DB/DatabaseCommon.cs:181-182 | the briefing names of a family have exactly two slots: the first two names read, in order, and null where fewer were read |
| DatabaseCommon.MissingOggWarnings | Source/DB/DatabaseCommon.cs:146-148 | each Ogg include whose file does not exist yields one warning per listing, and a name whose file exists or that is not listed yields none |
| DatabaseCommon.CapRelativePowerAt | Source/DB/DatabaseCommon.cs:161-162 | the CAP relative power is 0.0 at ordinal 0 without any read; at any other ordinal it is the percentage of the integer under `RelativePower.{level}`, or that read's failure |
| DatabaseCommon.LevelAt | Source/DB/DatabaseCommon.cs:157-163 | iteration i of the `AmountN` loop constructs the air-defense info of level i, then reads its CAP power, aborting at the first failing read |
| DatabaseCommon.RangeAt | Source/DB/DatabaseCommon.cs:165-169 | iteration i of the `AirDefenseRange` loop stores both distances exactly as read, aborting at the first failing read |
| DatabaseCommon.LoadLevels | Source/DB/DatabaseCommon.cs:157-163 | the `AmountN` loop fills six slots by the level rules, or fails as its reads do |
| DatabaseCommon.LoadRanges | Source/DB/DatabaseCommon.cs:165-169 | the `AirDefenseRange` loop fills one slot per member with the values as read, or fails as its reads do |
| DatabaseCommon.LoadAirDefense | Source/DB/DatabaseCommon.cs:152-170 | the `EnemyAirDefense.ini` block keeps the CAP interval and minimum distance as read, then runs both loops, in source order |
| DatabaseCommon.FamilyAt | Source/DB/DatabaseCommon.cs:179-184 | iteration i of the `UnitFamily` loop gives the resized briefing names and the group name read under the member's name |
| DatabaseCommon.LoadMissionNames | Source/DB/DatabaseCommon.cs:175-177 | the template, then four part lists, part i read under `Part{i + 1}` in `Mission` |
| DatabaseCommon.LoadUnitNames | Source/DB/DatabaseCommon.cs:179-184 | the `UnitFamily` loop fills one briefing-name pair and one group name per member, or fails as its reads do |
| DatabaseCommon.LoadWaypoints | Source/DB/DatabaseCommon.cs:186-189 | the four waypoint names, read in the order final, initial, navigation, objectives |
| DatabaseCommon.LoadNames | Source/DB/DatabaseCommon.cs:173-190 | the `Names.ini` block: mission names, then unit-family names, then waypoint names, each by its rules |
| DatabaseCommon.DistancesAt | Source/DB/DatabaseCommon.cs:195-199 | iteration i of the `Amount` loop gives both objective distances as `max(0, raw)` |
| DatabaseCommon.LoadObjectives | Source/DB/DatabaseCommon.cs:193-200 | the `Objectives.ini` block fills one pair of clamped distances per `Amount` member, or fails as its reads do |
| DatabaseCommon.LoadTables | Source/DB/DatabaseCommon.cs:151-200 | the three blocks after `Common.ini`, in order, each filling its tables by its rules |
| DatabaseCommon.ConstructorLayout | Source/DB/DatabaseCommon.cs:125-133 | the constructor allocates one slot per member for each enumeration-indexed table, so every `AmountN` ordinal indexes the two `AmountN` tables, and four mission-name parts |
| DatabaseCommon.Load | Source/DB/DatabaseCommon.cs:125-201 | `Load` fails exactly as its reads do, in source order; on success every slot follows its rule and every table has the length the constructor allocates |
| LoadProperties.LoadIsFailFast | Source/DB/DatabaseCommon.cs:138-201 | `Load` succeeds exactly when every read delivers a value; otherwise it fails with the error of the first read that does not, all earlier reads having succeeded |
| LoadProperties.MissingCommonOggAbortsFirst | Source/DB/DatabaseCommon.cs:145-148 | without `CommonOgg` the load fails on that key and no file is checked |
| LoadProperties.FirstFailureReadsOnlyDocuments | Source/DB/DatabaseCommon.cs:138-201 | whether and where a sequence of reads fails depends only on the documents and the air-defense info constructor |
| LoadProperties.ResolvedDeterminesSettings | Source/DB/DatabaseCommon.cs:145-199 | the slot rules leave no freedom: two results that follow them from the same documents are equal |
| LoadProperties.SettingsDependOnlyOnDocuments | Source/DB/DatabaseCommon.cs:138-201 | the settings depend on the documents alone and not on which files exist |
| LoadProperties.OggWarningsAreAdvisory | Source/DB/DatabaseCommon.cs:145-148 | a missing Ogg file only adds a warning: the settings equal those of a load where every file exists, `CommonOgg` is kept as read, and each missing file gets exactly one warning per listing |
| LoadProperties.CapPowerAtNoneIsZero | Source/DB/DatabaseCommon.cs:161 | the CAP relative power at `None` is exactly 0.0 |
| LoadProperties.NoneRelativePowerNeverRead | Source/DB/DatabaseCommon.cs:161 | none of `Load`'s own key reads is `RelativePower.None` in `EnemyCombatAirPatrols`; the air-defense info constructor, which receives the whole document, is opaque and not covered |
| LoadProperties.CapPowersAreFractions | Source/DB/DatabaseCommon.cs:161-162 | every CAP relative power lies in [0, 1]; for each level other than `None` it is 1 from raw 100 up, 0 from raw 0 down, and raw / 100 between |
| LoadProperties.CapPowerExample | Source/DB/DatabaseCommon.cs:161-162 | with `RelativePower.Low = 150` and `RelativePower.VeryHigh = 80` the powers at Low, VeryHigh and None are 1.0, 0.8 and 0.0 |
| LoadProperties.ObjectiveDistancesAreClamped | Source/DB/DatabaseCommon.cs:195-199 | both objective distances of each `Amount` member are never negative, equal raw when raw is not negative, and 0 otherwise |
| LoadProperties.AirDefenseDistancesAsRead | Source/DB/DatabaseCommon.cs:154-155 | the CAP interval, the CAP minimum distance and the per-range distances are stored exactly as read |
| LoadProperties.InvertedIntervalsAreAccepted | Source/DB/DatabaseCommon.cs:165-169 | nothing checks min <= max or the sign of an air-defense distance: inverted intervals and negative distances load and are kept, while the objective distances become 0 |
| LoadProperties.BriefingNamesCases | Source/DB/DatabaseCommon.cs:182 | two or more names read keep the first two, one name read is padded with one null, none read gives two nulls |
| LoadProperties.UnitBriefingNamesHaveTwoSlots | Source/DB/DatabaseCommon.cs:93-95 | after a load every unit family has exactly two briefing names, the first entries read for it, padded with null |
| LoadProperties.PartKeysAreOneBased | Source/DB/DatabaseCommon.cs:176-177 | the part keys are `Part1` to `Part4` and no two indices share a key |
| LoadProperties.MissionNamePartsFromKeys | Source/DB/DatabaseCommon.cs:85 | there are `MISSION_NAMES_PART_COUNT` = 4 mission-name parts, part i being the list under `Part{i + 1}` in `Mission` |
| LoadProperties.TablesHaveOneSlotPerMember | Source/DB/DatabaseCommon.cs:125-133 | every enumeration-indexed table has one slot per member of its enumeration |
| LoadProperties.ObjectiveReadsDisjoint | Source/DB/DatabaseCommon.cs:197-198 | iterations for two distinct `Amount` members read no common key |
| LoadProperties.RangeReadsDisjoint | Source/DB/DatabaseCommon.cs:167-168 | iterations for two distinct `AirDefenseRange` members read no common key |
| LoadProperties.FamilyReadsDisjoint | Source/DB/DatabaseCommon.cs:181-183 | iterations for two distinct `UnitFamily` members read no common key |
| LoadProperties.LevelReadsDisjoint | Source/DB/DatabaseCommon.cs:159-162 | iterations for two distinct `AmountN` levels perform no common read |

## Left out

- `INIFile` parsing is not part of this model: what its getters deliver, and when they throw, is an abstract parameter.
- The directory prefixes from `BRPaths` (`DATABASE`, `INCLUDE_OGG`) are left out. Files are named relative to their directory. Source/BRPaths.cs is not part of this model.
- `File.Exists` is an abstract predicate on the Ogg file name.
- `DebugLog` is left out. The progress messages are dropped, and each warning is an element of the outcome's warning list.
- The `DatabaseCommonAirDefenseInfo` constructor is not part of this model. It is an opaque function of (document, level) whose value type has no visible contents.
- `Toolbox.EnumCount` and `Toolbox.Clamp` are not part of this model. The count is the length of the member list; the clamp is the usual one.
- The WinForms front end (Source/Forms/MainForm.cs) has no settings logic and is not part of this model.
- `Dispose` is left out: it does nothing. The `using` scopes of the documents are left out: they only release file handles.
- `Load` does not validate anything beyond its two clamps. It does not check min <= max on intervals, placeholder syntax in the templates, or non-empty group-name patterns. The model performs none of these checks either. Missing briefing names are null, not empty strings.
- Load: when a read throws, the C# object keeps the fields it has already assigned. The model returns a failure with no partial table, but it keeps the Ogg warnings already logged.
- `MinMaxD` is a pair of exact reals, so NaN and infinities cannot be represented. The intervals are only stored, never computed with.
- Percentage: computes in exact reals. The rounding of the IEEE double division by 100.0 is not modelled.
- Clamp: requires lo <= hi. The only call uses 0 and 100.
- C# `int` is modelled as an unbounded integer. `Math.Max(0, x)` and `Clamp(x, 0, 100)` cannot overflow, so the two agree.
