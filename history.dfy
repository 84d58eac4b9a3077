/**
 * What a build is compared against: the errors it resolved with respect to
 * the previous build, the per-test timing statistics carried from the
 * previous build to this one, and the error/test difference summary.
 */
module History {
  import opened BuildRow

  // ---------------------------------------------------------------------
  // Errors saved with a build
  // ---------------------------------------------------------------------

  /** A row of the builderror table: a build, an error type (0 error, 1 warning) and a checksum. */
  datatype ErrorRow = ErrorRow(buildid: int, errtype: int, crc32: int, text: string)

  /** How many of the errors have type 0; every other type counts as a warning. */
  function ErrorCount(es: seq<ErrorRow>): (n: nat)
    ensures n <= |es|
    ensures n == |es| ==> forall i :: 0 <= i < |es| ==> es[i].errtype == 0
  {
    if es == [] then 0
    else ErrorCount(es[..|es| - 1]) + (if es[|es| - 1].errtype == 0 then 1 else 0)
  }

  /** The count is zero exactly when no error has type 0. */
  lemma {:induction false} NoErrorsMeansNoTypeZero(es: seq<ErrorRow>)
    ensures ErrorCount(es) == 0 <==> forall i :: 0 <= i < |es| ==> es[i].errtype != 0
  {
    if es != [] {
      NoErrorsMeansNoTypeZero(es[..|es| - 1]);
      assert forall i :: 0 <= i < |es| - 1 ==> es[..|es| - 1][i] == es[i];
    }
  }

  /** The errors as Save inserts them: each one given the build's id. */
  function Stamped(es: seq<ErrorRow>, b: int): (r: seq<ErrorRow>)
    ensures |r| == |es|
    ensures forall i :: 0 <= i < |r| ==> r[i].buildid == b && r[i].(buildid := es[i].buildid) == es[i]
  {
    seq(|es|, i requires 0 <= i < |es| => es[i].(buildid := b))
  }

  /** Stamping keeps the count of errors: it changes only the build id. */
  lemma {:induction false} StampedKeepsCount(es: seq<ErrorRow>, b: int)
    ensures ErrorCount(Stamped(es, b)) == ErrorCount(es)
  {
    if es != [] {
      StampedKeepsCount(es[..|es| - 1], b);
      assert Stamped(es, b)[..|es| - 1] == Stamped(es[..|es| - 1], b);
    }
  }

  /** Once saved, each of the build's errors of type t contributes its checksum to the build's set. */
  lemma SavedErrorsHaveTheirCrcs(errors: seq<ErrorRow>, es: seq<ErrorRow>, b: int, t: int)
    ensures forall i :: 0 <= i < |es| && es[i].errtype == t ==> es[i].crc32 in Crcs(errors + Stamped(es, b), b, t)
  {
    forall i | 0 <= i < |es| && es[i].errtype == t
      ensures es[i].crc32 in Crcs(errors + Stamped(es, b), b, t)
    {
      var e := Stamped(es, b)[i];
      assert e in errors + Stamped(es, b);
    }
  }

  // ---------------------------------------------------------------------
  // Resolved build errors
  // ---------------------------------------------------------------------

  /** The checksums of build b's errors of type t. */
  function Crcs(errors: seq<ErrorRow>, b: int, t: int): (s: set<int>)
    ensures forall c :: c in s <==> exists e :: e in errors && e.buildid == b && e.errtype == t && e.crc32 == c
  {
    set e | e in errors && e.buildid == b && e.errtype == t :: e.crc32
  }

  /** The rows of prev's type-t errors whose checksum is not in `current`, in table order. */
  function ResolvedFrom(errors: seq<ErrorRow>, prev: int, t: int, current: set<int>): (r: seq<ErrorRow>)
    ensures |r| <= |errors|
    ensures forall e :: e in r <==> e in errors && e.buildid == prev && e.errtype == t && e.crc32 !in current
  {
    if errors == [] then []
    else
      var rest := ResolvedFrom(errors[1..], prev, t, current);
      var e := errors[0];
      if e.buildid == prev && e.errtype == t && e.crc32 !in current then [e] + rest else rest
  }

  /**
   * GetResolvedBuildErrors: the previous build's errors of type t that no
   * error of the current build of the same type matches by checksum.
   */
  function ResolvedErrors(errors: seq<ErrorRow>, prev: int, cur: int, t: int): (r: seq<ErrorRow>)
    ensures forall e :: e in r <==>
      && e in errors && e.buildid == prev && e.errtype == t
      && (forall f :: f in errors && f.buildid == cur && f.errtype == t ==> f.crc32 != e.crc32)
  {
    ResolvedFrom(errors, prev, t, Crcs(errors, cur, t))
  }

  /** A concrete pair: with previous errors {e1, e2} and current errors {e2, e3}, only e1 is resolved. */
  lemma ResolvedExample()
    ensures ResolvedErrors([ErrorRow(1, 0, 11, "e1"), ErrorRow(1, 0, 22, "e2"),
                            ErrorRow(2, 0, 22, "e2"), ErrorRow(2, 0, 33, "e3")], 1, 2, 0)
            == [ErrorRow(1, 0, 11, "e1")]
  {
    var errors := [ErrorRow(1, 0, 11, "e1"), ErrorRow(1, 0, 22, "e2"),
                   ErrorRow(2, 0, 22, "e2"), ErrorRow(2, 0, 33, "e3")];
    assert Crcs(errors, 2, 0) == {22, 33} by {
      assert errors[2].crc32 == 22 && errors[3].crc32 == 33;
    }
  }

  // ---------------------------------------------------------------------
  // Test timing
  // ---------------------------------------------------------------------

  /** The project's timing parameters: testtimestd, testtimestdthreshold, testtimemaxstatus. */
  datatype TimingConfig = TimingConfig(stdMultiplier: real, stdThreshold: real, maxStatus: int)

  /** A row of build2test joined with the test's name. */
  datatype TestRun = TestRun(testid: int, name: string, status: string, time: real,
                             timemean: real, timestd: real, timestatus: int)

  /** The statistics written back for one test. */
  datatype Timing = Timing(mean: real, std: real, status: int)

  /** The weight of the current run against the previous mean and deviation. */
  const Weight: real := 0.3

  /** The previous deviation as the passed branch uses it: raised to the threshold. */
  function BandStd(prevStd: real, cfg: TimingConfig): (s: real)
    ensures s >= prevStd && s >= cfg.stdThreshold
    ensures s == prevStd || s == cfg.stdThreshold
  {
    if prevStd < cfg.stdThreshold then cfg.stdThreshold else prevStd
  }

  /** The weighted deviation update: the square root of the weighted variance around the new mean. */
  function Deviation(prevStd: real, time: real, mean: real, sqrt: real -> real): real {
    sqrt((1.0 - Weight) * prevStd * prevStd + Weight * (time - mean) * (time - mean))
  }

  /**
   * The timing of one test given the matching test of the previous build:
   * no match starts a new series; a non-passing run carries the previous
   * statistics over; a passing run slower than mean + k * std extends the
   * anomaly streak and, while the streak is within the maximum, freezes mean
   * and (raised) deviation; otherwise the exponentially weighted update.
   */
  function TimingStep(t: TestRun, previous: Option<TestRun>, cfg: TimingConfig, sqrt: real -> real): (r: Timing)
    ensures previous.None? ==> r == Timing(t.time, 0.0, 0)
    ensures r.status == 0 || (previous.Some? && t.status == "passed" && r.status == previous.value.timestatus + 1)
  {
    match previous
    case None => Timing(t.time, 0.0, 0)
    case Some(p) =>
      if t.status == "passed" then
        var std := BandStd(p.timestd, cfg);
        var status := if t.time > p.timemean + cfg.stdMultiplier * std then p.timestatus + 1 else 0;
        if status > 0 && status <= cfg.maxStatus then Timing(p.timemean, std, status)
        else
          var mean := (1.0 - Weight) * p.timemean + Weight * t.time;
          Timing(mean, Deviation(std, t.time, mean, sqrt), status)
      else
        Timing(p.timemean, p.timestd, 0)
  }

  /**
   * The streak rule: with a previous run, a passing run's status is 0 when
   * the time is within the band and the previous status plus one when it is
   * above; a non-passing run resets the status and keeps the statistics; a
   * test seen for the first time starts at its own time.
   */
  lemma StreakRule(t: TestRun, p: TestRun, cfg: TimingConfig, sqrt: real -> real)
    ensures var r := TimingStep(t, Some(p), cfg, sqrt);
      var above := t.time > p.timemean + cfg.stdMultiplier * BandStd(p.timestd, cfg);
      && (t.status == "passed" && above ==> r.status == p.timestatus + 1)
      && (t.status == "passed" && !above ==> r.status == 0)
      && (t.status == "passed" && above && 0 < p.timestatus + 1 <= cfg.maxStatus ==>
            r.mean == p.timemean && r.std == BandStd(p.timestd, cfg))
      && (t.status != "passed" ==> r == Timing(p.timemean, p.timestd, 0))
    ensures TimingStep(t, None, cfg, sqrt) == Timing(t.time, 0.0, 0)
  {
  }

  /** A recompute (status 0 or beyond the maximum) moves the mean 30% of the way to the new time. */
  lemma RecomputedMeanBetween(t: TestRun, p: TestRun, cfg: TimingConfig, sqrt: real -> real)
    requires t.status == "passed"
    requires var r := TimingStep(t, Some(p), cfg, sqrt); !(r.status > 0 && r.status <= cfg.maxStatus)
    ensures var r := TimingStep(t, Some(p), cfg, sqrt);
      && r.mean - p.timemean == Weight * (t.time - p.timemean)
      && (p.timemean <= t.time ==> p.timemean <= r.mean <= t.time)
      && (t.time <= p.timemean ==> t.time <= r.mean <= p.timemean)
  {
  }

  /**
   * The worked example: mean 10, deviation 1, threshold 0.5, multiplier 2,
   * maximum 3; a passing run of 13 is above 12, so the status becomes 1 and
   * mean and deviation stay frozen at 10 and 1.
   */
  lemma FreezeExample(sqrt: real -> real)
    ensures TimingStep(TestRun(7, "t", "passed", 13.0, 0.0, 0.0, 0),
                       Some(TestRun(5, "t", "passed", 12.0, 10.0, 1.0, 0)),
                       TimingConfig(2.0, 0.5, 3), sqrt) == Timing(10.0, 1.0, 1)
  {
  }

  /** The previous run carried into the next build's step: a run with the computed statistics. */
  function Carry(t: TestRun, r: Timing): TestRun {
    t.(timemean := r.mean, timestd := r.std, timestatus := r.status)
  }

  /** The statistics after a series of passing runs of the given times, starting from `start`. */
  function Series(start: TestRun, times: seq<real>, cfg: TimingConfig, sqrt: real -> real): TestRun
    decreases |times|
  {
    if times == [] then start
    else
      var t := start.(status := "passed", time := times[0]);
      Series(Carry(t, TimingStep(t, Some(start), cfg, sqrt)), times[1..], cfg, sqrt)
  }

  /**
   * A test whose duration never changes is never flagged: from mean d and
   * status 0, any number of passing runs of duration d keep the mean at d
   * and the status at 0 (for a non-negative multiplier and threshold).
   */
  lemma {:induction false} ConstantDurationNeverFlagged(start: TestRun, d: real, times: seq<real>, cfg: TimingConfig, sqrt: real -> real)
    requires cfg.stdMultiplier >= 0.0 && cfg.stdThreshold >= 0.0
    requires start.timemean == d && start.timestatus == 0
    requires forall i :: 0 <= i < |times| ==> times[i] == d
    ensures Series(start, times, cfg, sqrt).timemean == d
    ensures Series(start, times, cfg, sqrt).timestatus == 0
    decreases |times|
  {
    if times != [] {
      var t := start.(status := "passed", time := times[0]);
      var std := BandStd(start.timestd, cfg);
      assert cfg.stdMultiplier * std >= 0.0;
      var next := Carry(t, TimingStep(t, Some(start), cfg, sqrt));
      assert next.timemean == d && next.timestatus == 0;
      ConstantDurationNeverFlagged(next, d, times[1..], cfg, sqrt);
    }
  }

  /**
   * A streak of slow runs: starting from status s, n passing runs each above
   * the frozen band raise the status to s + n while it stays within the
   * maximum, and mean and deviation stay frozen at the band's values.
   */
  lemma {:induction false} StreakCountsUp(start: TestRun, times: seq<real>, cfg: TimingConfig, sqrt: real -> real)
    requires start.timestatus >= 0 && start.timestatus + |times| <= cfg.maxStatus
    requires start.timestd >= cfg.stdThreshold
    requires forall i :: 0 <= i < |times| ==> times[i] > start.timemean + cfg.stdMultiplier * start.timestd
    ensures Series(start, times, cfg, sqrt).timestatus == start.timestatus + |times|
    ensures Series(start, times, cfg, sqrt).timemean == start.timemean
    ensures Series(start, times, cfg, sqrt).timestd == start.timestd
    decreases |times|
  {
    if times != [] {
      var t := start.(status := "passed", time := times[0]);
      assert BandStd(start.timestd, cfg) == start.timestd;
      var next := Carry(t, TimingStep(t, Some(start), cfg, sqrt));
      assert next.timestatus == start.timestatus + 1;
      assert next.timemean == start.timemean && next.timestd == start.timestd;
      forall i | 0 <= i < |times[1..]| ensures times[1..][i] > next.timemean + cfg.stdMultiplier * next.timestd {
        assert times[1..][i] == times[i + 1];
      }
      StreakCountsUp(next, times[1..], cfg, sqrt);
    }
  }

  /** What a previous test is looked up by: its name, or its test id. */
  datatype TestKey = NameKey(name: string) | IdKey(testid: int)

  predicate Matches(t: TestRun, key: TestKey) {
    match key
    case NameKey(name) => t.name == name
    case IdKey(testid) => t.testid == testid
  }

  /**
   * The first row matching the key, if any: the name lookup among the
   * previous build's tests, and the statistics query by test id.
   */
  function FirstMatch(ts: seq<TestRun>, key: TestKey): (r: Option<TestRun>)
    ensures r.Some? ==> r.value in ts && Matches(r.value, key)
    ensures r.None? <==> forall p :: p in ts ==> !Matches(p, key)
    ensures r.Some? ==> exists i :: 0 <= i < |ts| && ts[i] == r.value
                                    && forall j :: 0 <= j < i ==> !Matches(ts[j], key)
  {
    if ts == [] then None
    else if Matches(ts[0], key) then Some(ts[0])
    else
      var r := FirstMatch(ts[1..], key);
      if r.Some? then
        var i :| 0 <= i < |ts[1..]| && ts[1..][i] == r.value
                 && forall j :: 0 <= j < i ==> !Matches(ts[1..][j], key);
        assert ts[i + 1] == r.value;
        assert forall j :: 0 <= j < i + 1 ==> !Matches(ts[j], key) by {
          forall j | 0 <= j < i + 1 ensures !Matches(ts[j], key) {
            if j > 0 { assert ts[j] == ts[1..][j - 1]; }
          }
        }
        r
      else r
  }

  /**
   * The previous run the step uses: the id of the first previous test with
   * the same name, when positive, and then the first row of the previous
   * build with that id.
   */
  function PreviousFor(prevTests: seq<TestRun>, name: string): (r: Option<TestRun>)
    ensures r.Some? ==> r.value in prevTests && r.value.testid > 0
    ensures var m := FirstMatch(prevTests, NameKey(name));
      r.Some? <==> m.Some? && m.value.testid > 0
    ensures var m := FirstMatch(prevTests, NameKey(name));
      r.Some? ==> r.value.testid == m.value.testid
  {
    var m := FirstMatch(prevTests, NameKey(name));
    if m.Some? && m.value.testid > 0 then FirstMatch(prevTests, IdKey(m.value.testid)) else None
  }

  /** The statistics of every test of the build, in order, against the previous build's tests. */
  function TimeAll(tests: seq<TestRun>, prevTests: seq<TestRun>, cfg: TimingConfig, sqrt: real -> real): (r: seq<Timing>)
    ensures |r| == |tests|
    ensures forall i :: 0 <= i < |tests| ==> r[i] == TimingStep(tests[i], PreviousFor(prevTests, tests[i].name), cfg, sqrt)
  {
    if tests == [] then []
    else [TimingStep(tests[0], PreviousFor(prevTests, tests[0].name), cfg, sqrt)] + TimeAll(tests[1..], prevTests, cfg, sqrt)
  }

  /** testtimestatusfailed: how many tests have a status at or above the maximum. */
  function CountFlagged(r: seq<Timing>, maxStatus: int): (n: nat)
    ensures n <= |r|
    ensures n == 0 <==> forall i :: 0 <= i < |r| ==> r[i].status < maxStatus
    ensures n == |r| <==> forall i :: 0 <= i < |r| ==> r[i].status >= maxStatus
    decreases |r|
  {
    if r == [] then 0
    else
      var front := r[..|r| - 1];
      assert forall i :: 0 <= i < |front| ==> front[i] == r[i];
      CountFlagged(front, maxStatus) + (if r[|r| - 1].status >= maxStatus then 1 else 0)
  }

  /** The statistics written over every row of a build that has a given test id. */
  function SetTiming(ts: seq<TestRun>, testid: int, r: Timing): (ts': seq<TestRun>)
    ensures |ts'| == |ts|
    ensures forall i :: 0 <= i < |ts| ==> ts'[i] == if ts[i].testid == testid then Carry(ts[i], r) else ts[i]
  {
    seq(|ts|, i requires 0 <= i < |ts| => if ts[i].testid == testid then Carry(ts[i], r) else ts[i])
  }

  /**
   * The build's rows after the writes of ComputeTestTiming for the tests
   * `done`, in order, starting from `rows`: each test's statistics go to
   * every row with its test id.
   */
  function TimingWrites(done: seq<TestRun>, rows: seq<TestRun>, prevTests: seq<TestRun>, cfg: TimingConfig, sqrt: real -> real): (rows': seq<TestRun>)
    ensures |rows'| == |rows|
    decreases |done|
  {
    if done == [] then rows
    else
      var t := done[|done| - 1];
      SetTiming(TimingWrites(done[..|done| - 1], rows, prevTests, cfg, sqrt), t.testid, TimingStep(t, PreviousFor(prevTests, t.name), cfg, sqrt))
  }

  /** The tally ComputeTestTiming keeps over the tests `done`, in order: one per status at or above the maximum. */
  function Flagged(done: seq<TestRun>, prevTests: seq<TestRun>, cfg: TimingConfig, sqrt: real -> real): nat
    decreases |done|
  {
    if done == [] then 0
    else
      var t := done[|done| - 1];
      Flagged(done[..|done| - 1], prevTests, cfg, sqrt)
        + (if TimingStep(t, PreviousFor(prevTests, t.name), cfg, sqrt).status >= cfg.maxStatus then 1 else 0)
  }

  /** The running tally is testtimestatusfailed: the number of flagged statistics among all the tests. */
  lemma {:induction false} FlaggedIsCount(done: seq<TestRun>, prevTests: seq<TestRun>, cfg: TimingConfig, sqrt: real -> real)
    ensures Flagged(done, prevTests, cfg, sqrt) == CountFlagged(TimeAll(done, prevTests, cfg, sqrt), cfg.maxStatus)
    decreases |done|
  {
    if done != [] {
      var front := done[..|done| - 1];
      FlaggedIsCount(front, prevTests, cfg, sqrt);
      TimeAllLast(done, prevTests, cfg, sqrt);
      CountFlaggedLast(TimeAll(done, prevTests, cfg, sqrt), cfg.maxStatus);
    }
  }

  /** The statistics of all tests but the last, followed by the last test's. */
  lemma TimeAllLast(done: seq<TestRun>, prevTests: seq<TestRun>, cfg: TimingConfig, sqrt: real -> real)
    requires done != []
    ensures var all := TimeAll(done, prevTests, cfg, sqrt);
      && all[..|all| - 1] == TimeAll(done[..|done| - 1], prevTests, cfg, sqrt)
      && all[|all| - 1] == TimingStep(done[|done| - 1], PreviousFor(prevTests, done[|done| - 1].name), cfg, sqrt)
  {
    var all := TimeAll(done, prevTests, cfg, sqrt);
    assert all[..|all| - 1] == TimeAll(done[..|done| - 1], prevTests, cfg, sqrt);
  }

  /** The tally of a non-empty series: the tally without the last statistics, plus its flag. */
  lemma CountFlaggedLast(r: seq<Timing>, maxStatus: int)
    requires r != []
    ensures CountFlagged(r, maxStatus) == CountFlagged(r[..|r| - 1], maxStatus) + (if r[|r| - 1].status >= maxStatus then 1 else 0)
  {
  }

  /** One more test done: its write comes last, and the tally grows by its flag. */
  lemma StepDone(cur: seq<TestRun>, i: nat, rows: seq<TestRun>, prevTests: seq<TestRun>, cfg: TimingConfig, sqrt: real -> real)
    requires i < |cur|
    ensures var r := TimingStep(cur[i], PreviousFor(prevTests, cur[i].name), cfg, sqrt);
      && TimingWrites(cur[..i + 1], rows, prevTests, cfg, sqrt) == SetTiming(TimingWrites(cur[..i], rows, prevTests, cfg, sqrt), cur[i].testid, r)
      && Flagged(cur[..i + 1], prevTests, cfg, sqrt) == Flagged(cur[..i], prevTests, cfg, sqrt) + (if r.status >= cfg.maxStatus then 1 else 0)
  {
    assert cur[..i + 1][..i] == cur[..i];
  }

  /** StepDone without a previous build: the test starts at its own time, deviation and status 0. */
  lemma FirstStepDone(cur: seq<TestRun>, i: nat, rows: seq<TestRun>, cfg: TimingConfig, sqrt: real -> real)
    requires i < |cur|
    ensures TimingWrites(cur[..i + 1], rows, [], cfg, sqrt) == SetTiming(TimingWrites(cur[..i], rows, [], cfg, sqrt), cur[i].testid, Timing(cur[i].time, 0.0, 0))
    ensures Flagged(cur[..i + 1], [], cfg, sqrt) == Flagged(cur[..i], [], cfg, sqrt) + (if 0 >= cfg.maxStatus then 1 else 0)
  {
    StepDone(cur, i, rows, [], cfg, sqrt);
    assert PreviousFor([], cur[i].name) == None;
  }

  /** No two rows of the build share a test id. */
  predicate DistinctIds(ts: seq<TestRun>) {
    forall i, j :: 0 <= i < |ts| && 0 <= j < |ts| && i != j ==> ts[i].testid != ts[j].testid
  }

  /**
   * When the build's test ids are distinct, the writes give each row exactly
   * its own step: row i ends with the statistics TimeAll computes for it.
   */
  lemma AllTimed(tests: seq<TestRun>, prevTests: seq<TestRun>, cfg: TimingConfig, sqrt: real -> real)
    requires DistinctIds(tests)
    ensures forall i :: 0 <= i < |tests| ==>
      TimingWrites(tests, tests, prevTests, cfg, sqrt)[i] == Carry(tests[i], TimeAll(tests, prevTests, cfg, sqrt)[i])
  {
    PrefixTimed(tests, |tests|, prevTests, cfg, sqrt);
    assert tests[..|tests|] == tests;
  }

  lemma {:induction false} PrefixTimed(tests: seq<TestRun>, n: nat, prevTests: seq<TestRun>, cfg: TimingConfig, sqrt: real -> real)
    requires DistinctIds(tests) && n <= |tests|
    ensures forall i :: 0 <= i < |tests| ==>
      TimingWrites(tests[..n], tests, prevTests, cfg, sqrt)[i]
        == if i < n then Carry(tests[i], TimingStep(tests[i], PreviousFor(prevTests, tests[i].name), cfg, sqrt)) else tests[i]
  {
    if n > 0 {
      PrefixTimed(tests, n - 1, prevTests, cfg, sqrt);
      assert tests[..n][..n - 1] == tests[..n - 1];
      assert tests[..n][n - 1] == tests[n - 1];
    }
  }

  /**
   * A build's first ever run of the tests (no previous build): every test
   * starts at its own time with deviation 0 and status 0, exactly what the
   * no-match case gives, so the first-build branch equals timing against an
   * empty previous build.
   */
  lemma FirstBuildTiming(tests: seq<TestRun>, cfg: TimingConfig, sqrt: real -> real)
    ensures forall i :: 0 <= i < |tests| ==> TimeAll(tests, [], cfg, sqrt)[i] == Timing(tests[i].time, 0.0, 0)
    ensures cfg.maxStatus > 0 ==> CountFlagged(TimeAll(tests, [], cfg, sqrt), cfg.maxStatus) == 0
  {
  }

  // ---------------------------------------------------------------------
  // Error differences
  // ---------------------------------------------------------------------

  /** The twelve keys of the difference summary. */
  datatype DiffKey =
    | BuildErrorsPositive | BuildErrorsNegative | BuildWarningsPositive | BuildWarningsNegative
    | ConfigureErrors | ConfigureWarnings
    | TestPassedPositive | TestPassedNegative | TestFailedPositive | TestFailedNegative
    | TestNotRunPositive | TestNotRunNegative

  const AllKeys: seq<DiffKey> := [BuildErrorsPositive, BuildErrorsNegative, BuildWarningsPositive, BuildWarningsNegative,
                                  ConfigureErrors, ConfigureWarnings,
                                  TestPassedPositive, TestPassedNegative, TestFailedPositive, TestFailedNegative,
                                  TestNotRunPositive, TestNotRunNegative]

  lemma AllKeysComplete(k: DiffKey)
    ensures k in AllKeys
  {
  }

  /** One row of the left join of build with its three difference tables; None is SQL NULL. */
  datatype DiffJoinRow = DiffJoinRow(
    builderrortype: Option<int>, builderrorspositive: Option<int>, builderrorsnegative: Option<int>,
    configureerrortype: Option<int>, configureerrors: Option<int>,
    testerrortype: Option<int>, testerrorspositive: Option<int>, testerrorsnegative: Option<int>)

  /**
   * Rows of builderrordiff and testdiff (a type with a positive and a
   * negative difference), and of configureerrordiff (a type with one
   * difference).
   */
  datatype CountDiff = CountDiff(buildid: int, difftype: int, positive: int, negative: int)
  datatype ConfigureErrorDiff = ConfigureErrorDiff(buildid: int, difftype: int, difference: int)

  /** A difference table's columns as a left join yields them: NULLs when none. */
  datatype Cols = Cols(kind: Option<int>, positive: Option<int>, negative: Option<int>)

  const NullCols := Cols(None, None, None)

  /** The columns one builderrordiff or testdiff row contributes to the join. */
  function CountCols(d: CountDiff): Cols {
    Cols(Some(d.difftype), Some(d.positive), Some(d.negative))
  }

  /** The columns one configureerrordiff row contributes to the join. */
  function ConfigureCols(d: ConfigureErrorDiff): Cols {
    Cols(Some(d.difftype), Some(d.difference), None)
  }

  /**
   * The builderrordiff or testdiff side of the left join for build b: the
   * columns of each row of b, in table order, or one row of NULLs when b has
   * none.
   */
  function CountDiffCols(ds: seq<CountDiff>, b: int): (c: seq<Cols>)
    ensures |c| >= 1
    ensures (forall d :: d in ds ==> d.buildid != b) ==> c == [NullCols]
    ensures (exists d :: d in ds && d.buildid == b) ==>
              forall x :: x in c <==> exists d :: d in ds && d.buildid == b && x == CountCols(d)
  {
    var s := seq(|ds|, i requires 0 <= i < |ds| => if ds[i].buildid == b then Some(CountCols(ds[i])) else None);
    var mine := Keep(s);
    assert forall x :: Some(x) in s <==> exists d :: d in ds && d.buildid == b && x == CountCols(d) by {
      forall x ensures Some(x) in s <==> exists d :: d in ds && d.buildid == b && x == CountCols(d) {
        if Some(x) in s {
          var i :| 0 <= i < |s| && s[i] == Some(x);
          assert ds[i] in ds;
        }
        if exists d :: d in ds && d.buildid == b && x == CountCols(d) {
          var d :| d in ds && d.buildid == b && x == CountCols(d);
          var i :| 0 <= i < |ds| && ds[i] == d;
          assert s[i] == Some(x);
        }
      }
    }
    assert (exists d :: d in ds && d.buildid == b) ==> mine != [] by {
      if exists d :: d in ds && d.buildid == b {
        var d :| d in ds && d.buildid == b;
        assert CountCols(d) in mine;
      }
    }
    if mine == [] then [NullCols] else mine
  }

  /** The configureerrordiff side of the left join for build b, likewise. */
  function ConfigureDiffCols(ds: seq<ConfigureErrorDiff>, b: int): (c: seq<Cols>)
    ensures |c| >= 1
    ensures (forall d :: d in ds ==> d.buildid != b) ==> c == [NullCols]
    ensures (exists d :: d in ds && d.buildid == b) ==>
              forall x :: x in c <==> exists d :: d in ds && d.buildid == b && x == ConfigureCols(d)
  {
    var s := seq(|ds|, i requires 0 <= i < |ds| => if ds[i].buildid == b then Some(ConfigureCols(ds[i])) else None);
    var mine := Keep(s);
    assert forall x :: Some(x) in s <==> exists d :: d in ds && d.buildid == b && x == ConfigureCols(d) by {
      forall x ensures Some(x) in s <==> exists d :: d in ds && d.buildid == b && x == ConfigureCols(d) {
        if Some(x) in s {
          var i :| 0 <= i < |s| && s[i] == Some(x);
          assert ds[i] in ds;
        }
        if exists d :: d in ds && d.buildid == b && x == ConfigureCols(d) {
          var d :| d in ds && d.buildid == b && x == ConfigureCols(d);
          var i :| 0 <= i < |ds| && ds[i] == d;
          assert s[i] == Some(x);
        }
      }
    }
    assert (exists d :: d in ds && d.buildid == b) ==> mine != [] by {
      if exists d :: d in ds && d.buildid == b {
        var d :| d in ds && d.buildid == b;
        assert ConfigureCols(d) in mine;
      }
    }
    if mine == [] then [NullCols] else mine
  }

  /** The present elements, in order. */
  function Keep(s: seq<Option<Cols>>): (r: seq<Cols>)
    ensures |r| <= |s|
    ensures (forall i :: 0 <= i < |s| ==> s[i].None?) <==> r == []
    ensures forall x :: x in r <==> Some(x) in s
  {
    if s == [] then []
    else
      assert s == [s[0]] + s[1..];
      if s[0].Some? then [s[0].value] + Keep(s[1..])
      else
        assert forall i :: 0 < i < |s| ==> s[i] == s[1..][i - 1];
        Keep(s[1..])
  }

  function JoinRow(b: Cols, c: Cols, t: Cols): DiffJoinRow {
    DiffJoinRow(b.kind, b.positive, b.negative, c.kind, c.positive, t.kind, t.positive, t.negative)
  }

  /** The left join's rows: every combination, builderrordiff outermost and testdiff innermost. */
  function Product(bs: seq<Cols>, cs: seq<Cols>, ts: seq<Cols>): (r: seq<DiffJoinRow>)
    ensures |r| == |bs| * |cs| * |ts|
    ensures forall row :: row in r <==> exists b, c, t :: b in bs && c in cs && t in ts && row == JoinRow(b, c, t)
  {
    if bs == [] then []
    else
      var more := Product(bs[1..], cs, ts);
      var first := JoinedWith(bs[0], cs, ts);
      ProductStep(|bs|, |cs| * |ts|);
      assert |bs| * |cs| * |ts| == |bs| * (|cs| * |ts|);
      assert bs == [bs[0]] + bs[1..];
      first + more
  }

  /** The rows of the join for one builderrordiff row b. */
  function JoinedWith(b: Cols, cs: seq<Cols>, ts: seq<Cols>): (r: seq<DiffJoinRow>)
    ensures |r| == |cs| * |ts|
    ensures forall row :: row in r <==> exists c, t :: c in cs && t in ts && row == JoinRow(b, c, t)
  {
    if cs == [] then []
    else
      var rest := JoinedWith(b, cs[1..], ts);
      var first := seq(|ts|, i requires 0 <= i < |ts| => JoinRow(b, cs[0], ts[i]));
      ProductStep(|cs|, |ts|);
      assert cs == [cs[0]] + cs[1..];
      assert forall row :: row in first <==> exists t :: t in ts && row == JoinRow(b, cs[0], t) by {
        forall row ensures row in first <==> exists t :: t in ts && row == JoinRow(b, cs[0], t) {
          if exists t :: t in ts && row == JoinRow(b, cs[0], t) {
            var t :| t in ts && row == JoinRow(b, cs[0], t);
            var i :| 0 <= i < |ts| && ts[i] == t;
            assert first[i] == row;
          }
        }
      }
      first + rest
  }

  /** One more row of a product: m + (n - 1) * m == n * m. */
  lemma ProductStep(n: nat, m: nat)
    requires n >= 1
    ensures m + (n - 1) * m == n * m
  {
  }

  /** The rows GetErrorDifferences reads for build b: none when there is no such build. */
  function DiffJoin(buildExists: bool, bd: seq<CountDiff>, cd: seq<ConfigureErrorDiff>, td: seq<CountDiff>, b: int): (r: seq<DiffJoinRow>)
    ensures buildExists <==> |r| >= 1
  {
    if buildExists then Product(CountDiffCols(bd, b), ConfigureDiffCols(cd, b), CountDiffCols(td, b)) else []
  }

  /** A build with no recorded difference joins to exactly one row of NULLs. */
  lemma NoDiffsJoinToNullRow(bd: seq<CountDiff>, cd: seq<ConfigureErrorDiff>, td: seq<CountDiff>, b: int)
    requires forall d :: d in bd ==> d.buildid != b
    requires forall d :: d in cd ==> d.buildid != b
    requires forall d :: d in td ==> d.buildid != b
    ensures DiffJoin(true, bd, cd, td, b) == [DiffJoinRow(None, None, None, None, None, None, None, None)]
  {
  }
  /** PHP's loose comparison of a column with an integer: NULL equals 0. */
  function LooseEq(v: Option<int>, n: int): (eq: bool)
    ensures eq <==> (if v.Some? then v.value else 0) == n
  {
    match v
    case None => n == 0
    case Some(x) => x == n
  }

  /**
   * The value one row of the join assigns to key k, if it assigns k: the
   * build-difference columns go to the error keys for type 0 and to the
   * warning keys otherwise, the configure difference likewise, and the test
   * differences to passed, failed or not-run keys for types 2, 1 and 0 (any
   * other type assigns none of them).
   */
  function AssignedBy(r: DiffJoinRow, k: DiffKey): Option<Option<int>> {
    var buildErrors := LooseEq(r.builderrortype, 0);
    var configureErrors := LooseEq(r.configureerrortype, 0);
    var passed := LooseEq(r.testerrortype, 2);
    var failed := !passed && LooseEq(r.testerrortype, 1);
    var notRun := !passed && !failed && LooseEq(r.testerrortype, 0);
    match k
    case BuildErrorsPositive => if buildErrors then Some(r.builderrorspositive) else None
    case BuildErrorsNegative => if buildErrors then Some(r.builderrorsnegative) else None
    case BuildWarningsPositive => if !buildErrors then Some(r.builderrorspositive) else None
    case BuildWarningsNegative => if !buildErrors then Some(r.builderrorsnegative) else None
    case ConfigureErrors => if configureErrors then Some(r.configureerrors) else None
    case ConfigureWarnings => if !configureErrors then Some(r.configureerrors) else None
    case TestPassedPositive => if passed then Some(r.testerrorspositive) else None
    case TestPassedNegative => if passed then Some(r.testerrorsnegative) else None
    case TestFailedPositive => if failed then Some(r.testerrorspositive) else None
    case TestFailedNegative => if failed then Some(r.testerrorsnegative) else None
    case TestNotRunPositive => if notRun then Some(r.testerrorspositive) else None
    case TestNotRunNegative => if notRun then Some(r.testerrorsnegative) else None
  }

  /** The value last assigned to k over the rows, if any row assigns it. */
  function LastAssigned(rows: seq<DiffJoinRow>, k: DiffKey): (a: Option<Option<int>>)
    ensures a.None? <==> forall i :: 0 <= i < |rows| ==> AssignedBy(rows[i], k).None?
    ensures a.Some? ==> exists i :: 0 <= i < |rows| && a == AssignedBy(rows[i], k)
                                    && forall j :: i < j < |rows| ==> AssignedBy(rows[j], k).None?
    decreases |rows|
  {
    if rows == [] then None
    else
      var front := rows[..|rows| - 1];
      assert forall i :: 0 <= i < |front| ==> front[i] == rows[i];
      var last := AssignedBy(rows[|rows| - 1], k);
      if last.Some? then last else LastAssigned(front, k)
  }

  /** The summary's value for k: the last assigned value, or 0 when none or NULL was assigned. */
  function DiffValue(rows: seq<DiffJoinRow>, k: DiffKey): (v: int)
    ensures v != 0 ==> exists i :: 0 <= i < |rows| && AssignedBy(rows[i], k) == Some(Some(v))
  {
    match LastAssigned(rows, k)
    case Some(Some(v)) => v
    case _ => 0
  }

  /**
   * A build with none of the three differences recorded joins to one row of
   * NULLs; NULL compares equal to 0, so the error, configure-error and
   * not-run keys receive NULL, and every value of the summary is 0.
   */
  lemma NoDifferencesGiveZeros(k: DiffKey)
    ensures DiffValue([DiffJoinRow(None, None, None, None, None, None, None, None)], k) == 0
    ensures AssignedBy(DiffJoinRow(None, None, None, None, None, None, None, None), BuildErrorsPositive) == Some(None)
    ensures AssignedBy(DiffJoinRow(None, None, None, None, None, None, None, None), TestNotRunPositive) == Some(None)
  {
  }

  /**
   * Each row assigns either the build-error keys or the build-warning keys,
   * either the configure-error or the configure-warning key, and at most one
   * of the passed, failed and not-run pairs (none for another test type).
   */
  lemma OneSideAssigned(r: DiffJoinRow)
    ensures AssignedBy(r, BuildErrorsPositive).Some? != AssignedBy(r, BuildWarningsPositive).Some?
    ensures AssignedBy(r, BuildErrorsNegative).Some? == AssignedBy(r, BuildErrorsPositive).Some?
    ensures AssignedBy(r, ConfigureErrors).Some? != AssignedBy(r, ConfigureWarnings).Some?
    ensures !(AssignedBy(r, TestPassedPositive).Some? && AssignedBy(r, TestFailedPositive).Some?)
    ensures !(AssignedBy(r, TestPassedPositive).Some? && AssignedBy(r, TestNotRunPositive).Some?)
    ensures !(AssignedBy(r, TestFailedPositive).Some? && AssignedBy(r, TestNotRunPositive).Some?)
    ensures (r.testerrortype.Some? && r.testerrortype.value !in {0, 1, 2}) ==>
              AssignedBy(r, TestPassedPositive).None? && AssignedBy(r, TestFailedPositive).None?
              && AssignedBy(r, TestNotRunPositive).None?
  {
  }

  /** A warning row (type 1) goes to the warning keys and never to the error keys. */
  lemma WarningRowGoesToWarnings(r: DiffJoinRow)
    requires r.builderrortype == Some(1)
    ensures AssignedBy(r, BuildWarningsPositive) == Some(r.builderrorspositive)
    ensures AssignedBy(r, BuildWarningsNegative) == Some(r.builderrorsnegative)
    ensures AssignedBy(r, BuildErrorsPositive) == None
    ensures AssignedBy(r, BuildErrorsNegative) == None
  {
  }

  /** A key no row assigns, or only assigns NULL, is 0 in the summary. */
  lemma {:induction false} UnassignedIsZero(rows: seq<DiffJoinRow>, k: DiffKey)
    requires forall i :: 0 <= i < |rows| ==> AssignedBy(rows[i], k) in {None, Some(None)}
    ensures DiffValue(rows, k) == 0
    ensures LastAssigned(rows, k) in {None, Some(None)}
  {
    if rows != [] {
      var front := rows[..|rows| - 1];
      assert forall i :: 0 <= i < |front| ==> front[i] == rows[i];
      UnassignedIsZero(front, k);
    }
  }

  /** A later row that assigns k overrides every earlier one. */
  lemma {:induction false} LastRowWins(rows: seq<DiffJoinRow>, r: DiffJoinRow, k: DiffKey)
    ensures AssignedBy(r, k).Some? ==> LastAssigned(rows + [r], k) == AssignedBy(r, k)
    ensures AssignedBy(r, k).None? ==> LastAssigned(rows + [r], k) == LastAssigned(rows, k)
  {
    assert (rows + [r])[|rows + [r]| - 1] == r;
    assert (rows + [r])[..|rows + [r]| - 1] == rows;
  }
}
