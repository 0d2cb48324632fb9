/** Why delivery ends: a per-category rank that no step raises and every commit lowers. */
module Progress {
  import opened Wrappers
  import opened Billing
  import opened Reservation
  import opened Protocol
  import opened Delivery
  import opened Books

  /** Commits a category may still need: 4 with an invoice, 2 without, one less once attempted. */
  function RankOf(row: Report, c: Category): nat {
    if c !in row.requests || c in row.items then 0
    else (if row.requests[c].invoice.Some? then 4 else 2) - (if c in row.attempted then 1 else 0)
  }

  function Rank(row: Report): nat {
    RankOf(row, Traces) + RankOf(row, TraceEvals) + RankOf(row, SessionEvals)
  }

  function Has(s: set<Category>, c: Category): nat {
    if c in s then 1 else 0
  }

  lemma RemoveOne(s: set<Category>, c: Category)
    ensures |s| == |s - {c}| + Has(s, c)
  {
    assert c !in s ==> s - {c} == s;
  }

  lemma CategoryCount(s: set<Category>)
    ensures |s| == Has(s, Traces) + Has(s, TraceEvals) + Has(s, SessionEvals)
  {
    var t := s - {Traces};
    var e := t - {TraceEvals};
    RemoveOne(s, Traces);
    RemoveOne(t, TraceEvals);
    RemoveOne(e, SessionEvals);
    if c :| c in e - {SessionEvals} {
      match c case Traces => case TraceEvals => case SessionEvals =>
    }
    assert e - {SessionEvals} == {};
  }

  /** At most four commits per requested category are ever needed. */
  lemma RankBound(row: Report)
    ensures Rank(row) <= 4 * |row.requests|
  {
    CategoryCount(row.requests.Keys);
    assert |row.requests| == |row.requests.Keys|;
  }

  lemma RankFromCategories(a: Report, b: Report, c: Category)
    requires forall d: Category :: RankOf(b, d) <= RankOf(a, d)
    ensures Rank(b) <= Rank(a)
    ensures RankOf(b, c) < RankOf(a, c) ==> Rank(b) < Rank(a)
  {
    match c case Traces => case TraceEvals => case SessionEvals =>
  }

  lemma FrozenRank(row: Report, c: Category, clock: int, sawDraft: bool, continuing: bool)
    requires c in row.requests && c !in row.items && c !in row.attempted
    ensures var new_ := Frozen(row, c, clock, sawDraft, continuing);
      Rank(new_) <= Rank(row) && (new_.status == row.status && row.status.Pending? ==> Rank(new_) < Rank(row))
  {
    RankFromCategories(row, Frozen(row, c, clock, sawDraft, continuing), c);
  }

  lemma RecordedRank(row: Report, c: Category, item: nat)
    requires c in row.requests && c !in row.items
    ensures Rank(Recorded(row, c, item)) < Rank(row)
  {
    RankFromCategories(row, Recorded(row, c, item), c);
  }

  lemma CarriedRank(row: Report, c: Category)
    requires c in row.requests && c !in row.items && c in row.attempted && row.requests[c].invoice.Some?
    ensures Rank(CarriedOver(row, c)) < Rank(row)
  {
    RankFromCategories(row, CarriedOver(row, c), c);
  }

  lemma ReplyLowersRank(W: World, s: Step)
    requires (s.RecordCreated? || s.CarryOver?) && Enabled(W, s)
    requires var h := W.holds[s.w]; h.category in W.rows[h.report].attempted && h.category !in W.rows[h.report].items
    ensures Rank(RowAfter(W, s)) < Rank(W.rows[W.holds[s.w].report])
  {
    var h := W.holds[s.w];
    if s.RecordCreated? {
      RecordedRank(W.rows[h.report], h.category, s.item);
    } else {
      CarriedRank(W.rows[h.report], h.category);
    }
  }

  lemma OwnCommitLowersRank(W: World, s: Step)
    requires (s.FinishReport? || s.FreezeIntent? || s.Recover?) && Enabled(W, s)
    requires W.rows[W.holds[s.w].report].status.Pending?
    ensures var row, new_ := W.rows[W.holds[s.w].report], RowAfter(W, s);
      Rank(new_) <= Rank(row) && (new_.status.Pending? ==> Rank(new_) < Rank(row))
  {
    var h := W.holds[s.w];
    var row := W.rows[h.report];
    NextIsMissing(row);
    match s {
      case FinishReport(_, _) =>
      case FreezeIntent(_, sawDraft, continuing) => FrozenRank(row, Next(row).value, h.clock, sawDraft, continuing);
      case Recover(_, listing) =>
        match FindExisting(W.items, row, h.report, Next(row).value, Bounded(listing)) {
          case Found(item) => RecordedRank(row, Next(row).value, item);
          case _ =>
        }
    }
  }

  /** A commit that leaves the report pending lowers its rank. */
  lemma CommitLowersRank(W: World, s: Step)
    requires HoldsOk(W) && ChangesRow(s) && Enabled(W, s)
    ensures var row, new_ := W.rows[W.holds[s.w].report], RowAfter(W, s);
      Rank(new_) <= Rank(row) && (new_.status.Pending? ==> Rank(new_) < Rank(row))
  {
    assert HoldOk(W, W.holds[s.w]);
    if s.RecordCreated? || s.CarryOver? {
      ReplyLowersRank(W, s);
    } else {
      OwnCommitLowersRank(W, s);
    }
  }

  /** Whoever steps, no report's rank rises. */
  lemma RankNeverRises(W: World, s: Step, id: nat)
    requires HoldsOk(W) && Enabled(W, s) && id < |W.rows|
    ensures id < |Apply(W, s).rows| && Rank(Apply(W, s).rows[id]) <= Rank(W.rows[id])
  {
    RowFrame(W, s, id);
    if ChangesRow(s) && W.holds[s.w].report == id {
      CommitLowersRank(W, s);
    }
  }

  lemma {:induction false} RankNeverRisesInRun(W: World, run: seq<Step>, id: nat)
    requires Inv(W) && Valid(W, run) && id < |W.rows|
    ensures id < |Exec(W, run).rows| && Rank(Exec(W, run).rows[id]) <= Rank(W.rows[id])
    decreases |run|
  {
    if run != [] {
      RankNeverRises(W, run[0], id);
      StepKeeps(W, run[0]);
      RankNeverRisesInRun(Apply(W, run[0]), run[1..], id);
    }
  }

  // ------------------------------------------------------------------ interference

  predicate StepOf(s: Step, w: nat) {
    (ChangesRow(s) || s.Lock? || s.SendCreate? || s.Release?) && s.w == w
  }

  ghost predicate NoneOf(run: seq<Step>, w: nat) {
    forall s :: s in run ==> !StepOf(s, w)
  }

  lemma {:induction false} RunsCompose(W: World, a: seq<Step>, b: seq<Step>)
    requires Valid(W, a) && Valid(Exec(W, a), b)
    ensures Valid(W, a + b) && Exec(W, a + b) == Exec(Exec(W, a), b)
    decreases |a|
  {
    if a == [] {
      assert a + b == b;
    } else {
      assert (a + b)[0] == a[0] && (a + b)[1..] == a[1..] + b;
      RunsCompose(Apply(W, a[0]), a[1..], b);
    }
  }

  lemma OneStepRun(W: World, s: Step)
    requires Enabled(W, s)
    ensures Valid(W, [s]) && Exec(W, [s]) == Apply(W, s)
  {
    assert Valid(Apply(W, s), [s][1..]);
  }

  lemma ReachableOn(W: World, run: seq<Step>)
    requires Reachable(W) && Valid(W, run)
    ensures Reachable(Exec(W, run))
  {
    var V, past :| Initial(V) && Valid(V, past) && Exec(V, past) == W;
    RunsCompose(V, past, run);
  }

  lemma OthersKeepMembership(W: World, s: Step, w: nat)
    requires Enabled(W, s) && !StepOf(s, w)
    ensures w in W.holds <==> w in Apply(W, s).holds
    ensures w in W.holds ==> Apply(W, s).holds[w] == W.holds[w]
  {
  }

  lemma OthersKeepRow(W: World, s: Step, w: nat)
    requires HoldsOk(W) && Enabled(W, s) && !StepOf(s, w) && w in W.holds
    ensures W.holds[w].report < |W.rows| && W.holds[w].report < |Apply(W, s).rows|
    ensures Apply(W, s).rows[W.holds[w].report] == W.rows[W.holds[w].report]
  {
    assert HoldOk(W, W.holds[w]);
    RowFrame(W, s, W.holds[w].report);
    if ChangesRow(s) {
      assert s.w in W.holds && s.w != w;
    }
  }

  lemma StepGrows(W: World, s: Step)
    requires Enabled(W, s)
    ensures var V := Apply(W, s);
      W.now <= V.now && W.finalized <= V.finalized && W.replies <= V.replies && W.items <= V.items
  {
  }

  ghost predicate HoldKept(W: World, V: World, w: nat) {
    && (w in W.holds <==> w in V.holds)
    && (w in W.holds ==>
          V.holds[w] == W.holds[w] && W.holds[w].report < |W.rows| && W.holds[w].report < |V.rows|
          && V.rows[W.holds[w].report] == W.rows[W.holds[w].report])
  }

  /** What one worker did in a run. */
  function Own(run: seq<Step>, w: nat): seq<Step> {
    if run == [] then []
    else Own(run[..|run| - 1], w) + if StepOf(run[|run| - 1], w) then [run[|run| - 1]] else []
  }

  lemma OwnStep(run: seq<Step>, s: Step, w: nat)
    requires StepOf(s, w)
    ensures Own(run + [s], w) == Own(run, w) + [s]
  {
    assert (run + [s])[..|run|] == run;
  }

  lemma {:induction false} OwnConcat(a: seq<Step>, b: seq<Step>, w: nat)
    ensures Own(a + b, w) == Own(a, w) + Own(b, w)
    decreases |b|
  {
    if b == [] {
      assert a + b == a;
    } else {
      var n := |b| - 1;
      assert (a + b)[..|a| + n] == a + b[..n];
      OwnConcat(a, b[..n], w);
    }
  }

  lemma {:induction false} OthersAddNothing(run: seq<Step>, others: seq<Step>, w: nat)
    requires NoneOf(others, w)
    ensures Own(run + others, w) == Own(run, w)
    decreases |others|
  {
    if others == [] {
      assert run + others == run;
    } else {
      var n := |others| - 1;
      assert (run + others)[..|run| + n] == run + others[..n] && others[n] in others;
      OthersAddNothing(run, others[..n], w);
    }
  }

  /** A row lock keeps everyone else off the row, and nobody moves another worker. */
  lemma {:induction false} OthersKeepHold(W: World, run: seq<Step>, w: nat)
    requires Inv(W) && Valid(W, run) && NoneOf(run, w)
    ensures var V := Exec(W, run);
      && HoldKept(W, V, w)
      && W.now <= V.now && W.finalized <= V.finalized && W.replies <= V.replies && W.items <= V.items
    decreases |run|
  {
    if run == [] {
      if w in W.holds { assert HoldOk(W, W.holds[w]); }
    } else {
      var V := Apply(W, run[0]);
      StepKeeps(W, run[0]);
      StepGrows(W, run[0]);
      OthersKeepMembership(W, run[0], w);
      if w in W.holds { OthersKeepRow(W, run[0], w); }
      OthersKeepHold(V, run[1..], w);
    }
  }
}
