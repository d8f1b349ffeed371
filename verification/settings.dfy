/** The settings documents `DatabaseCommon.Load` reads, as abstract lookups.

    An `INIFile` is seen only through what its typed getters deliver for a
    (section, key) pair: `GetValue<int>`, `GetValue<MinMaxD>`, `GetValue<string>`
    and `GetValueArray<string>`. `None` means the getter did not deliver a value
    (the C# getter throws); which inputs make it do so is not part of this model.
 */
module Settings {
  import opened Results
  import opened Sequences
  import Amounts

  /** `MinMaxD`: a (min, max) pair of doubles, kept exactly as read. */
  datatype Interval = Interval(min: real, max: real)

  /** `DatabaseCommonAirDefenseInfo`, whose contents are not part of this model. */
  type AirDefenseInfo(==)

  /** The four settings files under the database directory. */
  datatype SettingsFile = CommonIni | EnemyAirDefenseIni | NamesIni | ObjectivesIni

  /** One parsed settings document. */
  datatype Document = Document(
    ints: (string, string) -> Option<int>,
    intervals: (string, string) -> Option<Interval>,
    strings: (string, string) -> Option<string>,
    stringArrays: (string, string) -> Option<seq<string>>)

  /** Everything `Load` depends on: the four documents, the air-defense info
      constructor applied to a document and a level, and whether a file exists
      in the Ogg include directory (given its file name). */
  datatype Sources = Sources(
    common: Document,
    enemyAirDefense: Document,
    names: Document,
    objectives: Document,
    airDefenseInfo: (Document, Amounts.AmountN) -> Option<AirDefenseInfo>,
    oggFileExists: string -> bool)
  {
    function DocumentOf(f: SettingsFile): Document {
      match f
      case CommonIni => common
      case EnemyAirDefenseIni => enemyAirDefense
      case NamesIni => names
      case ObjectivesIni => objectives
    }
  }

  /** Why a load was aborted: the read that did not deliver a value. */
  datatype LoadError =
    | ValueUnavailable(file: SettingsFile, section: string, key: string)
    | AirDefenseInfoUnavailable(level: Amounts.AmountN)

  datatype ValueKind = IntValue | IntervalValue | StringValue | StringArrayValue

  /** One read `Load` performs. */
  datatype Read =
    | KeyRead(file: SettingsFile, section: string, key: string, kind: ValueKind)
    | AirDefenseInfoRead(level: Amounts.AmountN)

  /** The read delivers a value. */
  predicate Succeeds(src: Sources, rd: Read) {
    match rd
    case KeyRead(f, section, key, kind) =>
      var doc := src.DocumentOf(f);
      (match kind
       case IntValue => doc.ints(section, key).Some?
       case IntervalValue => doc.intervals(section, key).Some?
       case StringValue => doc.strings(section, key).Some?
       case StringArrayValue => doc.stringArrays(section, key).Some?)
    case AirDefenseInfoRead(level) => src.airDefenseInfo(src.enemyAirDefense, level).Some?
  }

  /** The error reported when the read does not deliver a value. */
  function ErrorOf(rd: Read): LoadError {
    match rd
    case KeyRead(f, section, key, _) => ValueUnavailable(f, section, key)
    case AirDefenseInfoRead(level) => AirDefenseInfoUnavailable(level)
  }

  /** Performing the reads of `plan` in order, the error of the first one that
      fails, if any. */
  function FirstFailure(src: Sources, plan: seq<Read>): Option<LoadError>
  {
    if |plan| == 0 then None
    else if !Succeeds(src, plan[0]) then Some(ErrorOf(plan[0]))
    else FirstFailure(src, plan[1..])
  }

  /** No failure means every read succeeds; a failure is the error of a failing
      read preceded only by successful ones. */
  lemma {:induction false} FirstFailureMeaning(src: Sources, plan: seq<Read>)
    ensures FirstFailure(src, plan).None? <==> forall j :: 0 <= j < |plan| ==> Succeeds(src, plan[j])
    ensures FirstFailure(src, plan).Some? ==>
      exists j :: 0 <= j < |plan| && !Succeeds(src, plan[j]) && ErrorOf(plan[j]) == FirstFailure(src, plan).value
        && forall i :: 0 <= i < j ==> Succeeds(src, plan[i])
  {
    if |plan| > 0 && Succeeds(src, plan[0]) {
      FirstFailureMeaning(src, plan[1..]);
      assert forall j :: 1 <= j < |plan| ==> plan[j] == plan[1..][j - 1];
      if FirstFailure(src, plan).Some? {
        var j :| 0 <= j < |plan[1..]| && !Succeeds(src, plan[1..][j]) && ErrorOf(plan[1..][j]) == FirstFailure(src, plan).value
          && forall i :: 0 <= i < j ==> Succeeds(src, plan[1..][i]);
        assert plan[j + 1] == plan[1..][j];
      }
    }
  }

  /** A computation that may abort agrees with performing `plan`: it aborts
      exactly when a read of the plan fails, with that first failure's error. */
  predicate Agrees<T>(r: Result<T, LoadError>, ff: Option<LoadError>) {
    && (r.Failure? <==> ff.Some?)
    && (r.Failure? ==> r.error == ff.value)
  }

  function ReadInt(src: Sources, f: SettingsFile, section: string, key: string): (r: Result<int, LoadError>)
    ensures Agrees(r, FirstFailure(src, [KeyRead(f, section, key, IntValue)]))
    ensures r.Success? ==> src.DocumentOf(f).ints(section, key) == Some(r.value)
  {
    src.DocumentOf(f).ints(section, key).OrFail(ValueUnavailable(f, section, key))
  }

  function ReadInterval(src: Sources, f: SettingsFile, section: string, key: string): (r: Result<Interval, LoadError>)
    ensures Agrees(r, FirstFailure(src, [KeyRead(f, section, key, IntervalValue)]))
    ensures r.Success? ==> src.DocumentOf(f).intervals(section, key) == Some(r.value)
  {
    src.DocumentOf(f).intervals(section, key).OrFail(ValueUnavailable(f, section, key))
  }

  function ReadString(src: Sources, f: SettingsFile, section: string, key: string): (r: Result<string, LoadError>)
    ensures Agrees(r, FirstFailure(src, [KeyRead(f, section, key, StringValue)]))
    ensures r.Success? ==> src.DocumentOf(f).strings(section, key) == Some(r.value)
  {
    src.DocumentOf(f).strings(section, key).OrFail(ValueUnavailable(f, section, key))
  }

  function ReadStrings(src: Sources, f: SettingsFile, section: string, key: string): (r: Result<seq<string>, LoadError>)
    ensures Agrees(r, FirstFailure(src, [KeyRead(f, section, key, StringArrayValue)]))
    ensures r.Success? ==> src.DocumentOf(f).stringArrays(section, key) == Some(r.value)
  {
    src.DocumentOf(f).stringArrays(section, key).OrFail(ValueUnavailable(f, section, key))
  }

  function ReadAirDefenseInfo(src: Sources, level: Amounts.AmountN): (r: Result<AirDefenseInfo, LoadError>)
    ensures Agrees(r, FirstFailure(src, [AirDefenseInfoRead(level)]))
    ensures r.Success? ==> src.airDefenseInfo(src.enemyAirDefense, level) == Some(r.value)
  {
    src.airDefenseInfo(src.enemyAirDefense, level).OrFail(AirDefenseInfoUnavailable(level))
  }

  /** Performing a + b fails first where a fails first, or else where b does. */
  lemma {:induction false} FirstFailureAppend(src: Sources, a: seq<Read>, b: seq<Read>)
    ensures FirstFailure(src, a + b) == if FirstFailure(src, a).Some? then FirstFailure(src, a) else FirstFailure(src, b)
  {
    if |a| == 0 {
      assert a + b == b;
    } else {
      assert (a + b)[1..] == a[1..] + b;
      FirstFailureAppend(src, a[1..], b);
    }
  }

  /** A table loop agrees with performing, for each index in turn, the reads of that index. */
  lemma {:induction false} CollectFollowsPlan<T>(src: Sources, start: nat, n: nat,
                                                 f: nat --> Result<T, LoadError>, g: nat --> seq<Read>)
    requires start <= n
    requires forall i :: start <= i < n ==> f.requires(i) && g.requires(i)
    requires forall i :: start <= i < n ==> Agrees(f(i), FirstFailure(src, g(i)))
    ensures Agrees(CollectFrom(start, n, f), FirstFailure(src, FlattenFrom(start, n, g)))
    decreases n - start
  {
    if start < n {
      CollectFollowsPlan(src, start + 1, n, f, g);
      FirstFailureAppend(src, g(start), FlattenFrom(start + 1, n, g));
    }
  }
}
