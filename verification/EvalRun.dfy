/** Eval runs: an executor that may be cut at any commit, and the exact retry of failed pairs. */
module EvalRun {
  import opened Wrappers

  datatype Score = Score(run: nat, trace: string, metric: string, failed: bool)

  datatype Status = Pending | Running | Completed | Failed

  /** One run row together with the score table, as committed. */
  datatype Store = Store(scores: seq<Score>, evaluated: nat, failedCount: nat, status: Status)

  /** What one attempt meets: which traces exist, and which metric executions raise. */
  datatype Circumstances = Circumstances(found: set<string>, raises: set<(string, string)>)

  /** The arguments of a job; without an override map every trace gets the run's metrics. */
  datatype Job = Job(run: nat, targets: seq<string>, metrics: seq<string>, overrides: map<string, seq<string>>)

  function MetricsFor(job: Job, trace: string): seq<string> {
    if job.overrides != map[] && trace in job.overrides then job.overrides[trace] else job.metrics
  }

  function Others(scores: seq<Score>, run: nat): seq<Score> {
    if scores == [] then []
    else Others(scores[..|scores| - 1], run) + if scores[|scores| - 1].run == run then [] else [scores[|scores| - 1]]
  }

  /** The transaction that starts an attempt. */
  function Started(s: Store, job: Job): Store {
    Store(Others(s.scores, job.run), 0, 0, Running)
  }

  function WithScore(s: Store, job: Job, trace: string, metric: string, c: Circumstances): Store {
    var failed := (trace, metric) in c.raises;
    s.(scores := s.scores + [Score(job.run, trace, metric, failed)],
       failedCount := s.failedCount + if failed then 1 else 0)
  }

  function WithMetrics(s: Store, job: Job, trace: string, metrics: seq<string>, c: Circumstances): Store {
    if metrics == [] then s
    else WithScore(WithMetrics(s, job, trace, metrics[..|metrics| - 1], c), job, trace, metrics[|metrics| - 1], c)
  }

  /** The transaction of one trace. */
  function WithTrace(s: Store, job: Job, trace: string, c: Circumstances): Store {
    var scored := if trace in c.found then WithMetrics(s, job, trace, MetricsFor(job, trace), c) else s;
    scored.(evaluated := scored.evaluated + 1)
  }

  function WithTraces(s: Store, job: Job, n: nat, c: Circumstances): Store
    requires n <= |job.targets|
  {
    if n == 0 then s else WithTrace(WithTraces(s, job, n - 1, c), job, job.targets[n - 1], c)
  }

  /** The committed state after the first `commits` commits of an attempt. */
  function Cut(s: Store, job: Job, c: Circumstances, commits: nat): Store {
    if commits == 0 then s
    else if commits - 1 <= |job.targets| then WithTraces(Started(s, job), job, commits - 1, c)
    else WithTraces(Started(s, job), job, |job.targets|, c).(status := Completed)
  }

  function RunToEnd(s: Store, job: Job, c: Circumstances): Store {
    Cut(s, job, c, |job.targets| + 2)
  }

  /** The error handler marks a cut attempt as failed before the job is retried. */
  datatype Attempt = Attempt(circumstances: Circumstances, commits: nat, markedFailed: bool)

  function AfterAttempts(s: Store, job: Job, attempts: seq<Attempt>): Store
    decreases |attempts|
  {
    if attempts == [] then s
    else
      var a := attempts[0];
      var cut := Cut(s, job, a.circumstances, a.commits);
      AfterAttempts(if a.markedFailed then cut.(status := Failed) else cut, job, attempts[1..])
  }

  // ------------------------------------------------------------------ counting

  function CountPair(scores: seq<Score>, run: nat, trace: string, metric: string): nat {
    if scores == [] then 0
    else
      var last := scores[|scores| - 1];
      CountPair(scores[..|scores| - 1], run, trace, metric)
        + if last.run == run && last.trace == trace && last.metric == metric then 1 else 0
  }

  function CountFailed(scores: seq<Score>, run: nat): nat {
    if scores == [] then 0
    else
      CountFailed(scores[..|scores| - 1], run)
        + if scores[|scores| - 1].run == run && scores[|scores| - 1].failed then 1 else 0
  }

  function Occurrences(s: seq<string>, x: string): nat {
    if s == [] then 0 else Occurrences(s[..|s| - 1], x) + if s[|s| - 1] == x then 1 else 0
  }

  /** How often the job lists a (found trace, metric) pair among its first `n` targets. */
  function Listed(job: Job, n: nat, c: Circumstances, trace: string, metric: string): nat
    requires n <= |job.targets|
  {
    if n == 0 then 0
    else
      Listed(job, n - 1, c, trace, metric)
        + if job.targets[n - 1] == trace && trace in c.found then Occurrences(MetricsFor(job, trace), metric) else 0
  }

  lemma AppendScore(scores: seq<Score>, x: Score, run: nat, trace: string, metric: string)
    ensures CountPair(scores + [x], run, trace, metric)
         == CountPair(scores, run, trace, metric) + if x.run == run && x.trace == trace && x.metric == metric then 1 else 0
    ensures CountFailed(scores + [x], run) == CountFailed(scores, run) + if x.run == run && x.failed then 1 else 0
    ensures Others(scores + [x], run) == Others(scores, run) + if x.run == run then [] else [x]
  {
    assert (scores + [x])[..|scores|] == scores;
  }

  lemma {:induction false} OthersOnly(scores: seq<Score>, run: nat)
    ensures Others(Others(scores, run), run) == Others(scores, run)
    ensures CountFailed(Others(scores, run), run) == 0
    ensures forall i :: 0 <= i < |Others(scores, run)| ==> Others(scores, run)[i].run != run
  {
    if scores != [] {
      var n := |scores| - 1;
      OthersOnly(scores[..n], run);
      var front := Others(scores[..n], run);
      if scores[n].run == run {
        assert front + [] == front;
      } else {
        AppendScore(front, scores[n], run, "", "");
      }
    }
  }

  lemma {:induction false} NoPairs(scores: seq<Score>, run: nat, trace: string, metric: string)
    requires forall i :: 0 <= i < |scores| ==> scores[i].run != run
    ensures CountPair(scores, run, trace, metric) == 0
  {
    if scores != [] {
      NoPairs(scores[..|scores| - 1], run, trace, metric);
    }
  }

  /** Bookkeeping of one attempt: other runs untouched, the failure counter exact. */
  ghost predicate Exact(s: Store, job: Job, base: seq<Score>) {
    Others(s.scores, job.run) == base && s.failedCount == CountFailed(s.scores, job.run)
  }

  lemma {:induction false} MetricsExact(s: Store, job: Job, t: string, metrics: seq<string>, c: Circumstances,
                                        base: seq<Score>, trace: string, metric: string)
    requires Exact(s, job, base)
    ensures var r := WithMetrics(s, job, t, metrics, c);
      && Exact(r, job, base) && r.evaluated == s.evaluated && r.status == s.status
      && CountPair(r.scores, job.run, trace, metric)
           == CountPair(s.scores, job.run, trace, metric) + if t == trace then Occurrences(metrics, metric) else 0
  {
    if metrics != [] {
      var n := |metrics| - 1;
      MetricsExact(s, job, t, metrics[..n], c, base, trace, metric);
      var r := WithMetrics(s, job, t, metrics[..n], c);
      AppendScore(r.scores, Score(job.run, t, metrics[n], (t, metrics[n]) in c.raises), job.run, trace, metric);
    }
  }

  lemma {:induction false} TracesExact(s: Store, job: Job, n: nat, c: Circumstances, base: seq<Score>, trace: string, metric: string)
    requires n <= |job.targets| && Exact(s, job, base)
    ensures var r := WithTraces(s, job, n, c);
      && Exact(r, job, base) && r.evaluated == s.evaluated + n && r.status == s.status
      && CountPair(r.scores, job.run, trace, metric)
           == CountPair(s.scores, job.run, trace, metric) + Listed(job, n, c, trace, metric)
  {
    if n > 0 {
      TracesExact(s, job, n - 1, c, base, trace, metric);
      var t := job.targets[n - 1];
      MetricsExact(WithTraces(s, job, n - 1, c), job, t, MetricsFor(job, t), c, base, trace, metric);
    }
  }

  lemma {:induction false} AttemptsKeepOthers(s: Store, job: Job, attempts: seq<Attempt>)
    ensures Others(AfterAttempts(s, job, attempts).scores, job.run) == Others(s.scores, job.run)
    decreases |attempts|
  {
    if attempts != [] {
      var a := attempts[0];
      var cut := Cut(s, job, a.circumstances, a.commits);
      OthersOnly(s.scores, job.run);
      if a.commits > 0 {
        var n := if a.commits - 1 <= |job.targets| then a.commits - 1 else |job.targets|;
        TracesExact(Started(s, job), job, n, a.circumstances, Others(s.scores, job.run), "", "");
      }
      AttemptsKeepOthers(if a.markedFailed then cut.(status := Failed) else cut, job, attempts[1..]);
    }
  }

  // ------------------------------------------------------------------ which scores are failures

  /** A score of the run is a failure exactly when its metric raised on its trace. */
  ghost predicate Flagged(scores: seq<Score>, run: nat, c: Circumstances) {
    forall i :: 0 <= i < |scores| && scores[i].run == run ==>
      (scores[i].failed <==> (scores[i].trace, scores[i].metric) in c.raises)
  }

  /** How many of the listed metrics raise on a trace. */
  function Raising(metrics: seq<string>, trace: string, c: Circumstances): nat {
    if metrics == [] then 0
    else Raising(metrics[..|metrics| - 1], trace, c) + if (trace, metrics[|metrics| - 1]) in c.raises then 1 else 0
  }

  /** How many (found trace, metric) occurrences of the first `n` targets raise. */
  function ListedFailures(job: Job, n: nat, c: Circumstances): nat
    requires n <= |job.targets|
  {
    if n == 0 then 0
    else
      var t := job.targets[n - 1];
      ListedFailures(job, n - 1, c) + if t in c.found then Raising(MetricsFor(job, t), t, c) else 0
  }

  lemma {:induction false} MetricsFlagged(s: Store, job: Job, t: string, metrics: seq<string>, c: Circumstances)
    requires Flagged(s.scores, job.run, c)
    ensures var r := WithMetrics(s, job, t, metrics, c);
      Flagged(r.scores, job.run, c) && r.failedCount == s.failedCount + Raising(metrics, t, c)
  {
    if metrics != [] {
      MetricsFlagged(s, job, t, metrics[..|metrics| - 1], c);
    }
  }

  lemma {:induction false} TracesFlagged(s: Store, job: Job, n: nat, c: Circumstances)
    requires n <= |job.targets| && Flagged(s.scores, job.run, c)
    ensures var r := WithTraces(s, job, n, c);
      Flagged(r.scores, job.run, c) && r.failedCount == s.failedCount + ListedFailures(job, n, c)
  {
    if n > 0 {
      TracesFlagged(s, job, n - 1, c);
      var t := job.targets[n - 1];
      MetricsFlagged(WithTraces(s, job, n - 1, c), job, t, MetricsFor(job, t), c);
    }
  }

  lemma CompletedFlagged(before: Store, job: Job, c: Circumstances)
    ensures var r := RunToEnd(before, job, c);
      Flagged(r.scores, job.run, c) && r.failedCount == ListedFailures(job, |job.targets|, c)
  {
    OthersOnly(before.scores, job.run);
    TracesFlagged(Started(before, job), job, |job.targets|, c);
  }

  /** Without overrides every target is scored on the run's metrics, found or not as it may be. */
  lemma {:induction false} PlainJobLists(job: Job, n: nat, c: Circumstances, trace: string, metric: string)
    requires n <= |job.targets| && job.overrides == map[]
    ensures Listed(job, n, c, trace, metric)
      == if trace in c.found then Occurrences(job.targets[..n], trace) * Occurrences(job.metrics, metric) else 0
  {
    if n > 0 {
      PlainJobLists(job, n - 1, c, trace, metric);
      assert job.targets[..n][..n - 1] == job.targets[..n - 1];
      OneMoreTime(Occurrences(job.targets[..n - 1], trace), Occurrences(job.metrics, metric));
    }
  }

  lemma OneMoreTime(k: nat, m: nat)
    ensures (k + 1) * m == k * m + m
  {
  }

  /**
   * Restarts converge: whatever earlier attempts left behind, a completed one leaves exactly
   * one score per listed (found trace, metric) occurrence, flagged as a failure exactly when the
   * metric raised, exact counters, and no other run's score is touched.
   */
  lemma RestartConverges(s: Store, job: Job, attempts: seq<Attempt>, c: Circumstances, trace: string, metric: string)
    ensures var r := RunToEnd(AfterAttempts(s, job, attempts), job, c);
      && CountPair(r.scores, job.run, trace, metric) == Listed(job, |job.targets|, c, trace, metric)
      && r.evaluated == |job.targets| && r.failedCount == CountFailed(r.scores, job.run) && r.status == Completed
      && Others(r.scores, job.run) == Others(s.scores, job.run)
      && Flagged(r.scores, job.run, c) && r.failedCount == ListedFailures(job, |job.targets|, c)
  {
    var before := AfterAttempts(s, job, attempts);
    AttemptsKeepOthers(s, job, attempts);
    CompletedExact(before, job, c, trace, metric);
    CompletedFlagged(before, job, c);
  }

  /** The scores of an ordinary run: each found target on each of its metrics, as often as listed. */
  lemma PlainRunScores(s: Store, job: Job, attempts: seq<Attempt>, c: Circumstances, trace: string, metric: string)
    requires job.overrides == map[]
    ensures CountPair(RunToEnd(AfterAttempts(s, job, attempts), job, c).scores, job.run, trace, metric)
      == if trace in c.found then Occurrences(job.targets, trace) * Occurrences(job.metrics, metric) else 0
  {
    RestartConverges(s, job, attempts, c, trace, metric);
    PlainJobLists(job, |job.targets|, c, trace, metric);
    assert job.targets[..|job.targets|] == job.targets;
  }

  lemma CompletedExact(before: Store, job: Job, c: Circumstances, trace: string, metric: string)
    ensures var r := RunToEnd(before, job, c);
      && CountPair(r.scores, job.run, trace, metric) == Listed(job, |job.targets|, c, trace, metric)
      && r.evaluated == |job.targets| && r.failedCount == CountFailed(r.scores, job.run) && r.status == Completed
      && Others(r.scores, job.run) == Others(before.scores, job.run)
  {
    var base := Others(before.scores, job.run);
    OthersOnly(before.scores, job.run);
    NoPairs(base, job.run, trace, metric);
    TracesExact(Started(before, job), job, |job.targets|, c, base, trace, metric);
  }

  // ------------------------------------------------------------------ the executor

  class Worker {
    /** What is committed, and the session's uncommitted view of it. */
    var db: Store
    var session: Store

    constructor (s: Store)
      ensures db == s && session == s
    {
      db, session := s, s;
    }

    method Commit()
      modifies this`db
      ensures db == session
    {
      db := session;
    }

    method DeleteScores(run: nat)
      modifies this`session
      ensures session == old(session).(scores := Others(old(session).scores, run))
    {
      var kept: seq<Score> := [];
      for i := 0 to |session.scores|
        invariant session == old(session) && kept == Others(session.scores[..i], run)
      {
        assert session.scores[..i + 1][..i] == session.scores[..i];
        if session.scores[i].run != run {
          kept := kept + [session.scores[i]];
        }
      }
      assert session.scores[..|session.scores|] == session.scores;
      session := session.(scores := kept);
    }

    method EvaluateTrace(job: Job, trace: string, c: Circumstances)
      modifies this`session
      ensures session == WithMetrics(old(session), job, trace, MetricsFor(job, trace), c)
    {
      var metrics := MetricsFor(job, trace);
      for i := 0 to |metrics|
        invariant session == WithMetrics(old(session), job, trace, metrics[..i], c)
      {
        assert metrics[..i + 1][..i] == metrics[..i];
        var failed := (trace, metrics[i]) in c.raises;
        session := session.(scores := session.scores + [Score(job.run, trace, metrics[i], failed)]);
        if failed {
          session := session.(failedCount := session.failedCount + 1);
        }
      }
      assert metrics[..|metrics|] == metrics;
    }

    /**
     * One attempt that dies after `budget` commits. Work since the last commit is lost, so what
     * is committed is always one of the cuts.
     */
    method RunEvalRun(job: Job, c: Circumstances, budget: nat) returns (done: bool)
      requires session == db
      modifies this
      ensures db == Cut(old(db), job, c, if budget < |job.targets| + 2 then budget else |job.targets| + 2)
      ensures done <==> budget >= |job.targets| + 2
      ensures done ==> Flagged(db.scores, job.run, c) && db.failedCount == ListedFailures(job, |job.targets|, c)
    {
      hide Flagged, ListedFailures, WithMetrics, Others;
      DeleteScores(job.run);
      session := session.(evaluated := 0, failedCount := 0);
      session := session.(status := Running);
      if budget == 0 {
        return false;
      }
      Commit();
      for i := 0 to |job.targets|
        invariant session == db && i < budget
        invariant db == WithTraces(Started(old(db), job), job, i, c)
      {
        var trace := job.targets[i];
        if trace in c.found {
          EvaluateTrace(job, trace, c);
        }
        session := session.(evaluated := session.evaluated + 1);
        if budget == i + 1 {
          return false;
        }
        Commit();
      }
      session := session.(status := Completed);
      if budget == |job.targets| + 1 {
        return false;
      }
      Commit();
      CompletedFlagged(old(db), job, c);
      done := true;
    }
  }

  // ------------------------------------------------------------------ retrying failed pairs

  /** The failed rows of one run, in table order. */
  function FailedRows(scores: seq<Score>, run: nat): seq<Score> {
    if scores == [] then []
    else
      var last := scores[|scores| - 1];
      FailedRows(scores[..|scores| - 1], run) + if last.run == run && last.failed then [last] else []
  }

  ghost predicate Distinct(s: seq<string>) {
    forall i, j :: 0 <= i < j < |s| ==> s[i] != s[j]
  }

  ghost predicate FailedPair(rows: seq<Score>, trace: string, metric: string) {
    exists i :: 0 <= i < |rows| && rows[i].trace == trace && rows[i].metric == metric
  }

  ghost predicate PairAgrees(rows: seq<Score>, byTrace: map<string, seq<string>>, trace: string, metric: string) {
    FailedPair(rows, trace, metric) <==> trace in byTrace && metric in byTrace[trace]
  }

  /** A retry's targets and per-trace metrics describe exactly the distinct pairs of `rows`. */
  ghost predicate Groups(rows: seq<Score>, targets: seq<string>, byTrace: map<string, seq<string>>) {
    && Distinct(targets)
    && (forall t :: t in targets <==> t in byTrace)
    && (forall t :: t in byTrace ==> Distinct(byTrace[t]))
    && (forall t, m :: PairAgrees(rows, byTrace, t, m))
  }

  /** Group the failed scores by trace, first seen first; `None` when there is nothing to retry. */
  method PrepareRetry(rows: seq<Score>, retryRun: nat, metrics: seq<string>) returns (job: Option<Job>)
    ensures job.None? <==> rows == []
    ensures job.Some? ==> job.value.run == retryRun && job.value.overrides != map[]
    ensures job.Some? ==> Groups(rows, job.value.targets, job.value.overrides)
  {
    if rows == [] {
      return None;
    }
    var targets: seq<string> := [];
    var byTrace: map<string, seq<string>> := map[];
    for i := 0 to |rows|
      invariant Groups(rows[..i], targets, byTrace)
      invariant i > 0 ==> byTrace != map[]
    {
      var s := rows[i];
      ghost var targets0, byTrace0 := targets, byTrace;
      if s.trace !in byTrace {
        targets := targets + [s.trace];
        byTrace := byTrace[s.trace := [s.metric]];
      } else if s.metric !in byTrace[s.trace] {
        byTrace := byTrace[s.trace := byTrace[s.trace] + [s.metric]];
      }
      OneMoreRow(rows, i, targets0, byTrace0, targets, byTrace);
    }
    assert rows[..|rows|] == rows;
    job := Some(Job(retryRun, targets, metrics, byTrace));
  }

  lemma FailedPairStep(rows: seq<Score>, i: nat, t: string, m: string)
    requires i < |rows|
    ensures FailedPair(rows[..i + 1], t, m) <==>
      FailedPair(rows[..i], t, m) || (t == rows[i].trace && m == rows[i].metric)
  {
    if FailedPair(rows[..i + 1], t, m) {
      var j :| 0 <= j < i + 1 && rows[..i + 1][j].trace == t && rows[..i + 1][j].metric == m;
      assert j < i ==> rows[..i][j] == rows[j];
    }
    if FailedPair(rows[..i], t, m) {
      var j :| 0 <= j < i && rows[..i][j].trace == t && rows[..i][j].metric == m;
      assert rows[..i + 1][j] == rows[j];
    }
    assert rows[..i + 1][i] == rows[i];
  }

  lemma OneMoreRow(rows: seq<Score>, i: nat, targets0: seq<string>, byTrace0: map<string, seq<string>>,
                   targets: seq<string>, byTrace: map<string, seq<string>>)
    requires i < |rows| && Groups(rows[..i], targets0, byTrace0)
    requires var s := rows[i];
      if s.trace !in byTrace0 then targets == targets0 + [s.trace] && byTrace == byTrace0[s.trace := [s.metric]]
      else if s.metric !in byTrace0[s.trace] then
        targets == targets0 && byTrace == byTrace0[s.trace := byTrace0[s.trace] + [s.metric]]
      else targets == targets0 && byTrace == byTrace0
    ensures Groups(rows[..i + 1], targets, byTrace) && byTrace != map[]
  {
    var s := rows[i];
    assert s.trace in byTrace;
    forall t ensures t in targets <==> t in byTrace {
      assert t in targets0 <==> t in byTrace0;
    }
    forall t | t in byTrace ensures Distinct(byTrace[t]) {
      if t in byTrace0 {
        assert Distinct(byTrace0[t]);
      }
    }
    var upTo := rows[..i + 1];
    forall t, m ensures PairAgrees(upTo, byTrace, t, m) {
      FailedPairStep(rows, i, t, m);
      assert PairAgrees(rows[..i], byTrace0, t, m);
    }
  }

  lemma {:induction false} DistinctOccursOnce(s: seq<string>, x: string)
    requires Distinct(s)
    ensures Occurrences(s, x) == if x in s then 1 else 0
  {
    if s != [] {
      var n := |s| - 1;
      DistinctOccursOnce(s[..n], x);
      assert x in s <==> x in s[..n] || x == s[n];
      assert s[n] !in s[..n];
    }
  }

  lemma {:induction false} ListedOnce(job: Job, n: nat, c: Circumstances, trace: string, metric: string)
    requires n <= |job.targets| && Distinct(job.targets)
    ensures Listed(job, n, c, trace, metric)
      == if trace in job.targets[..n] && trace in c.found then Occurrences(MetricsFor(job, trace), metric) else 0
  {
    if n > 0 {
      ListedOnce(job, n - 1, c, trace, metric);
      assert job.targets[..n] == job.targets[..n - 1] + [job.targets[n - 1]];
      assert job.targets[n - 1] !in job.targets[..n - 1];
    }
  }

  /**
   * A completed retry scores exactly the failed pairs of the original run whose trace still
   * exists, each once, and nothing else.
   */
  lemma RetryIsPrecise(s: Store, job: Job, rows: seq<Score>, c: Circumstances, trace: string, metric: string)
    requires job.overrides != map[] && Groups(rows, job.targets, job.overrides)
    ensures CountPair(RunToEnd(s, job, c).scores, job.run, trace, metric)
         == if FailedPair(rows, trace, metric) && trace in c.found then 1 else 0
  {
    RestartConverges(s, job, [], c, trace, metric);
    ListedOnce(job, |job.targets|, c, trace, metric);
    assert job.targets[..|job.targets|] == job.targets;
    if trace in job.overrides {
      DistinctOccursOnce(job.overrides[trace], metric);
    }
    assert PairAgrees(rows, job.overrides, trace, metric);
  }

  /** The rows handed to the retry are the run's failed pairs. */
  lemma {:induction false} FailedRowsMeaning(scores: seq<Score>, run: nat, trace: string, metric: string)
    ensures FailedPair(FailedRows(scores, run), trace, metric)
      <==> exists i :: 0 <= i < |scores| && scores[i] == Score(run, trace, metric, true)
  {
    if scores != [] {
      var n := |scores| - 1;
      FailedRowsMeaning(scores[..n], run, trace, metric);
      var front, last := FailedRows(scores[..n], run), scores[n];
      var rows := FailedRows(scores, run);
      if FailedPair(rows, trace, metric) {
        var i :| 0 <= i < |rows| && rows[i].trace == trace && rows[i].metric == metric;
        if i < |front| {
          assert front[i] == rows[i];
          var j :| 0 <= j < n && scores[..n][j] == Score(run, trace, metric, true);
          assert scores[j] == Score(run, trace, metric, true);
        } else {
          assert scores[n] == Score(run, trace, metric, true);
        }
      }
      if i :| 0 <= i < |scores| && scores[i] == Score(run, trace, metric, true) {
        if i < n {
          assert scores[..n][i] == scores[i];
          var j :| 0 <= j < |front| && front[j].trace == trace && front[j].metric == metric;
          assert rows[j] == front[j];
        } else {
          assert rows[|front|] == last;
        }
      }
    }
  }

  ghost predicate FailedIn(scores: seq<Score>, run: nat, trace: string, metric: string) {
    exists i :: 0 <= i < |scores| && scores[i] == Score(run, trace, metric, true)
  }

  /**
   * Whatever store a retry starts from and however often it is cut, its completed attempt
   * scores a pair once if it failed in the original run and its trace still exists, else not
   * at all, flags and counts exactly what raised again, and touches no other run.
   */
  ghost predicate Retried(scores: seq<Score>, original: nat, job: Job, s: Store, attempts: seq<Attempt>,
                          c: Circumstances, trace: string, metric: string) {
    var r := RunToEnd(AfterAttempts(s, job, attempts), job, c);
    && CountPair(r.scores, job.run, trace, metric)
         == (if FailedIn(scores, original, trace, metric) && trace in c.found then 1 else 0)
    && Flagged(r.scores, job.run, c) && r.failedCount == CountFailed(r.scores, job.run)
    && Others(r.scores, job.run) == Others(s.scores, job.run)
  }

  lemma GroupedIsRetried(scores: seq<Score>, original: nat, job: Job, s: Store, attempts: seq<Attempt>,
                         c: Circumstances, trace: string, metric: string)
    requires job.overrides != map[] && Groups(FailedRows(scores, original), job.targets, job.overrides)
    ensures Retried(scores, original, job, s, attempts, c, trace, metric)
  {
    RestartConverges(s, job, attempts, c, trace, metric);
    RetryIsPrecise(AfterAttempts(s, job, attempts), job, FailedRows(scores, original), c, trace, metric);
    FailedRowsMeaning(scores, original, trace, metric);
  }

  lemma {:induction false} NoFailedRows(scores: seq<Score>, run: nat)
    ensures FailedRows(scores, run) == [] <==> forall trace, metric :: !FailedIn(scores, run, trace, metric)
  {
    var rows := FailedRows(scores, run);
    forall trace, metric ensures FailedPair(rows, trace, metric) <==> FailedIn(scores, run, trace, metric) {
      FailedRowsMeaning(scores, run, trace, metric);
    }
    if rows != [] {
      assert FailedPair(rows, rows[0].trace, rows[0].metric);
    }
  }

  /**
   * From the committed scores of the original run to the scores its retry leaves: the retry is
   * refused exactly when nothing failed, and otherwise scores exactly what failed.
   */
  method PrepareRetryFailedRun(scores: seq<Score>, original: nat, retryRun: nat, metrics: seq<string>) returns (job: Option<Job>)
    ensures job.None? <==> forall trace, metric :: !FailedIn(scores, original, trace, metric)
    ensures job.Some? ==> job.value.run == retryRun
    ensures job.Some? ==> forall s, attempts, c, trace, metric :: Retried(scores, original, job.value, s, attempts, c, trace, metric)
  {
    NoFailedRows(scores, original);
    job := PrepareRetry(FailedRows(scores, original), retryRun, metrics);
    if job.Some? {
      forall s, attempts, c, trace, metric ensures Retried(scores, original, job.value, s, attempts, c, trace, metric) {
        GroupedIsRetried(scores, original, job.value, s, attempts, c, trace, metric);
      }
    }
  }
}
