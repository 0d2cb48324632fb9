/** Closing a billing period: complete, replay-safe, and open to late counters exactly once. */
module Closing {
  import opened Wrappers
  import opened Billing
  import opened Reservation
  import opened Protocol
  import opened Delivery
  import opened Books

  /** A record whose closing report exists is billed. */
  ghost predicate ClosedOk(W: World) {
    forall id :: 0 <= id < |W.rows| && W.rows[id].closing.Some? && W.rows[id].usage in W.usages ==>
      W.usages[W.rows[id].usage].billed
  }

  lemma BilledStep(W: World, s: Step, u: nat)
    requires Enabled(W, s) && u in W.usages && W.usages[u].billed
    ensures u in Apply(W, s).usages && Apply(W, s).usages[u].billed
  {
  }

  /** No step reopens a closed period. */
  lemma {:induction false} NeverUnbilled(W: World, run: seq<Step>, u: nat)
    requires Valid(W, run) && u in W.usages && W.usages[u].billed
    ensures u in Exec(W, run).usages && Exec(W, run).usages[u].billed
    decreases |run|
  {
    if run != [] {
      BilledStep(W, run[0], u);
      NeverUnbilled(Apply(W, run[0]), run[1..], u);
    }
  }

  lemma SameClosing(W: World, s: Step, id: nat)
    requires Enabled(W, s) && id < |W.rows|
    ensures id < |Apply(W, s).rows| && Apply(W, s).rows[id].closing == W.rows[id].closing
    ensures Apply(W, s).rows[id].usage == W.rows[id].usage
  {
  }

  lemma ClosedStep(W: World, s: Step)
    requires BooksOk(W) && ClosedOk(W) && Enabled(W, s)
    ensures ClosedOk(Apply(W, s))
  {
    var V := Apply(W, s);
    forall id | 0 <= id < |V.rows| && V.rows[id].closing.Some? && V.rows[id].usage in V.usages
      ensures V.usages[V.rows[id].usage].billed
    {
      if id < |W.rows| {
        SameClosing(W, s, id);
        assert Intents(W.rows)[id].usage in W.usages;
        BilledStep(W, s, W.rows[id].usage);
      } else {
        assert s.ClosePeriod?;
      }
    }
  }

  lemma {:induction false} ClosedRun(W: World, run: seq<Step>)
    requires Inv(W) && BooksOk(W) && ClosedOk(W) && Valid(W, run)
    ensures ClosedOk(Exec(W, run))
    decreases |run|
  {
    if run != [] {
      ClosedStep(W, run[0]);
      StepKeeps(W, run[0]);
      BooksStep(W, run[0]);
      ClosedRun(Apply(W, run[0]), run[1..]);
    }
  }

  lemma ReachableIsSound(W: World)
    requires Reachable(W)
    ensures Inv(W) && BooksOk(W) && ClosedOk(W)
  {
    var V, run :| Initial(V) && Valid(V, run) && Exec(V, run) == W;
    InitialBooks(V);
    BooksRun(V, run);
    ClosedRun(V, run);
  }

  // ------------------------------------------------------------------ what one staging covers

  function ClosingOf(s: Step): Option<string>
    requires s.StageReport? || s.ClosePeriod?
  {
    if s.ClosePeriod? then Some(s.closingInvoice) else None
  }

  /** The guards a staging call must pass before it reserves anything. */
  predicate Eligible(W: World, s: Step)
    requires s.StageReport? || s.ClosePeriod?
  {
    var previous := Previous(W.rows, s.u);
    && s.u in W.usages
    && (!W.usages[s.u].billed || (s.StageReport? && s.allowClosed))
    && (ClosingOf(s).Some? ==> ByClosing(previous, ClosingOf(s).value).None?)
    && (PayAsYouGo(s.sub.plan) || previous != [])
    && TermsFor(s.sub, previous).Some?
  }

  /** The report an eligible staging builds. */
  function StagedReport(W: World, s: Step): Report
    requires (s.StageReport? || s.ClosePeriod?) && Eligible(W, s)
  {
    var previous := Previous(W.rows, s.u);
    NewReport(s.sub, W.usages[s.u], s.u, previous, TermsFor(s.sub, previous).value, |W.rows|,
              if s.StageReport? then s.invoice else None, ClosingOf(s))
  }

  lemma EligibleOutcome(W: World, s: Step)
    requires (s.StageReport? || s.ClosePeriod?) && Eligible(W, s)
    ensures var r := StagedReport(W, s);
      StageIn(W, s) == if r.requests == map[] && ClosingOf(s).None? then Nothing else Fresh(r)
  {
  }

  lemma UnitsSoFar(W: World, u: nat, terms: Terms, sub: Subscription, c: Category)
    requires BooksOk(W) && u in W.usages && TermsFor(sub, Previous(W.rows, u)) == Some(terms)
    ensures var base, opening := terms.pricing.base.Get(c), W.usages[u].opening.Get(c);
      TotalUnits(Intents(W.rows), u, c) == Over(base, Mark(Intents(W.rows), u, opening, c)) - Over(base, opening)
  {
    forall k | 0 <= k < |W.rows| && W.rows[k].usage == u ensures Intents(W.rows)[k].terms == terms {
      FreshTerms(sub, W.usages, u, W.rows, terms, k);
    }
    Telescopes(Intents(W.rows), W.usages, u, c, terms.pricing.base.Get(c));
  }

  lemma UnitsAppended(rows: seq<Report>, r: Report, c: Category)
    ensures TotalUnits(Intents(rows + [r]), r.usage, c)
         == TotalUnits(Intents(rows), r.usage, c) + UnitsOf(IntentOf(r), c)
  {
    AppendIntents(rows, r);
    assert (Intents(rows) + [IntentOf(r)])[..|rows|] == Intents(rows);
  }

  lemma StagedUnits(W: World, s: Step, c: Category)
    requires BooksOk(W) && (s.StageReport? || s.ClosePeriod?) && Eligible(W, s)
    ensures var r, usage := StagedReport(W, s), W.usages[s.u];
      var mark := Mark(Intents(W.rows), s.u, usage.opening.Get(c), c);
      UnitsOf(IntentOf(r), c) == UnitsBetween(r.terms, c, mark, Max(mark, usage.counters.Get(c)))
  {
    var previous, usage := Previous(W.rows, s.u), W.usages[s.u];
    FreshStart(W.usages, s.u, W.rows, c);
    FreshLink(usage, s.u, previous, TermsFor(s.sub, previous).value, s.sub, |W.rows|,
              if s.StageReport? then s.invoice else None, ClosingOf(s), c);
    assert Snapshots(usage, previous).Get(c) == SnapshotOf(usage, previous, c);
  }

  /** An eligible staging leaves the record's reserved units covering its counters. */
  lemma StagingCovers(W: World, s: Step, c: Category)
    requires BooksOk(W) && (s.StageReport? || s.ClosePeriod?) && Eligible(W, s)
    ensures
      var terms, usage := TermsFor(s.sub, Previous(W.rows, s.u)).value, W.usages[s.u];
      var base, opening := terms.pricing.base.Get(c), usage.opening.Get(c);
      var mark := Mark(Intents(W.rows), s.u, opening, c);
      TotalUnits(Intents(AfterStage(W, StageIn(W, s)).rows), s.u, c)
        == Over(base, Max(mark, usage.counters.Get(c))) - Over(base, opening)
  {
    var r := StagedReport(W, s);
    EligibleOutcome(W, s);
    UnitsSoFar(W, s.u, r.terms, s.sub, c);
    StagedUnits(W, s, c);
    UnitsAppended(W.rows, r, c);
    assert StageIn(W, s).Nothing? ==> c !in r.requests;
  }

  lemma NothingNewAfter(usage: Usage, u: nat, previous: seq<Report>, terms: Terms, sub: Subscription, id: nat,
                        invoice: Option<string>, closing: Option<string>, c: Category)
    ensures var r := NewReport(sub, usage, u, previous, terms, id, invoice, closing);
      NewUnits(usage, previous + [r], terms, c) == 0
  {
    var r := NewReport(sub, usage, u, previous, terms, id, invoice, closing);
    assert (previous + [r])[..|previous|] == previous;
    assert r.snapshot.Get(c) == SnapshotOf(usage, previous, c);
  }

  lemma NoRequestsAfter(usage: Usage, u: nat, previous: seq<Report>, terms: Terms, sub: Subscription, id: nat, next: nat,
                        invoice: Option<string>, closing: Option<string>)
    ensures var r := NewReport(sub, usage, u, previous, terms, id, invoice, closing);
      Requests(usage, previous + [r], terms, next, invoice) == map[]
  {
    forall c: Category
      ensures NewUnits(usage, previous + [NewReport(sub, usage, u, previous, terms, id, invoice, closing)], terms, c) == 0
    {
      NothingNewAfter(usage, u, previous, terms, sub, id, invoice, closing, c);
    }
  }

  lemma PreviousAppended(rows: seq<Report>, r: Report)
    ensures Previous(rows + [r], r.usage) == Previous(rows, r.usage) + [r]
  {
    assert (rows + [r])[..|rows|] == rows;
  }

  /** Staging again with unchanged counters reserves nothing: a repeated check bills once. */
  lemma StagingAgainReservesNothing(W: World, s: Step)
    requires s.StageReport?
    ensures Apply(Apply(W, s), s) == Apply(W, s)
  {
    if StageIn(W, s).Fresh? {
      var V := Apply(W, s);
      var r := StagedReport(W, s);
      EligibleOutcome(W, s);
      PreviousAppended(W.rows, r);
      var previous := Previous(W.rows, s.u);
      NoRequestsAfter(W.usages[s.u], s.u, previous, r.terms, s.sub, |W.rows|, |V.rows|, s.invoice, None);
      assert TermsFor(s.sub, Previous(V.rows, s.u)) == Some(r.terms);
      assert Eligible(V, s);
      EligibleOutcome(V, s);
    }
  }

  // ------------------------------------------------------------------ closing

  /** The closing invoice reserves everything the synced counters show, and bills the record. */
  lemma ClosingIsComplete(W: World, s: Step, c: Category)
    requires Reachable(W) && s.ClosePeriod? && Enabled(W, s) && !W.usages[s.u].billed
    requires PayAsYouGo(s.sub.plan) || Previous(W.rows, s.u) != []
    requires TermsFor(s.sub, Previous(W.rows, s.u)).Some?
    ensures var V := Apply(W, s);
      var terms, opening := TermsFor(s.sub, Previous(W.rows, s.u)).value, W.usages[s.u].opening.Get(c);
      var base, mark := terms.pricing.base.Get(c), Mark(Intents(W.rows), s.u, opening, c);
      && V.usages[s.u].billed && |V.rows| == |W.rows| + 1
      && TotalUnits(Intents(V.rows), s.u, c) == Over(base, Max(mark, s.counters.Get(c))) - Over(base, opening)
  {
    var synced := WithCounters(W, s.u, s.counters);
    ClosingIsEligible(W, s);
    StagingCovers(synced, s, c);
    ClosingOutcome(W, s);
  }

  lemma ClosingIsEligible(W: World, s: Step)
    requires Reachable(W) && s.ClosePeriod? && Enabled(W, s) && !W.usages[s.u].billed
    requires PayAsYouGo(s.sub.plan) || Previous(W.rows, s.u) != []
    requires TermsFor(s.sub, Previous(W.rows, s.u)).Some?
    ensures var synced := WithCounters(W, s.u, s.counters); BooksOk(synced) && Eligible(synced, s)
  {
    ReachableIsSound(W);
    ProgressKeeps(W, WithCounters(W, s.u, s.counters));
    NoEarlierClosing(W, s.u, s.closingInvoice);
  }

  lemma ClosingOutcome(W: World, s: Step)
    requires s.ClosePeriod? && Enabled(W, s) && !W.usages[s.u].billed
    requires Eligible(WithCounters(W, s.u, s.counters), s)
    ensures var synced, V := WithCounters(W, s.u, s.counters), Apply(W, s);
      V.rows == AfterStage(synced, StageIn(synced, s)).rows && |V.rows| == |W.rows| + 1 && V.usages[s.u].billed
  {
    EligibleOutcome(WithCounters(W, s.u, s.counters), s);
  }

  lemma NoEarlierClosing(W: World, u: nat, closing: string)
    requires ClosedOk(W) && u in W.usages && !W.usages[u].billed
    ensures ByClosing(Previous(W.rows, u), closing).None?
  {
    PreviousByIndex(W.rows, u);
    ByClosingMeaning(Previous(W.rows, u), closing);
  }

  /** A replayed or further renewal invoice for a billed record changes nothing at all. */
  lemma ClosingReplayed(W: World, s: Step)
    requires Enabled(W, s) && (s.ClosePeriod? || (s.StageReport? && !s.allowClosed))
    requires s.u in W.usages && W.usages[s.u].billed
    ensures Apply(W, s) == W
  {
    if s.ClosePeriod? {
      assert W.usages[s.u := W.usages[s.u].(billed := true)] == W.usages;
    }
  }

  // ------------------------------------------------------------------ the usage preview

  /** `calculate_unreported_overages` for one category, on the plan's current base. */
  function UnreportedOverage(plan: Plan, usage: Usage, c: Category): int {
    if !PayAsYouGo(plan) || usage.billed then 0
    else Max(0, Over(BaseUnits(plan).Get(c), usage.counters.Get(c)) - Over(BaseUnits(plan).Get(c), usage.reported.Get(c)))
  }

  /**
   * The preview never shows less than the next staging would reserve, and exactly that once all
   * earlier reports are reported, unless those were frozen on another plan's base.
   */
  lemma PreviewAgreesWithStaging(W: World, u: nat, sub: Subscription, c: Category)
    requires Reachable(W) && u in W.usages && !W.usages[u].billed && PayAsYouGo(sub.plan)
    requires HasReport(W.rows, u) || (sub.customer.Some? && sub.customer.value != "")
    requires forall i :: 0 <= i < |W.rows| && W.rows[i].usage == u ==> W.rows[i].terms.pricing.base == BaseUnits(sub.plan)
    ensures TermsFor(sub, Previous(W.rows, u)).Some?
    ensures var units := NewUnits(W.usages[u], Previous(W.rows, u), TermsFor(sub, Previous(W.rows, u)).value, c);
      && 0 <= units <= UnreportedOverage(sub.plan, W.usages[u], c)
      && (AllReported(W.rows, u) ==> units == UnreportedOverage(sub.plan, W.usages[u], c))
  {
    ReachableIsSound(W);
    TermsForMeaning(sub, W.rows, u);
    PreviewOnTerms(W, u, sub, TermsFor(sub, Previous(W.rows, u)).value, c);
  }

  lemma PreviewOnTerms(W: World, u: nat, sub: Subscription, terms: Terms, c: Category)
    requires BooksOk(W) && u in W.usages && !W.usages[u].billed && PayAsYouGo(sub.plan)
    requires TermsFor(sub, Previous(W.rows, u)) == Some(terms) && terms.pricing.base == BaseUnits(sub.plan)
    ensures var units := NewUnits(W.usages[u], Previous(W.rows, u), terms, c);
      && 0 <= units <= UnreportedOverage(sub.plan, W.usages[u], c)
      && (AllReported(W.rows, u) ==> units == UnreportedOverage(sub.plan, W.usages[u], c))
  {
    var ledger, usage := Intents(W.rows), W.usages[u];
    FreshStart(W.usages, u, W.rows, c);
    assert usage.reported.Get(c) <= Mark(ledger, u, usage.opening.Get(c), c);
    if AllReported(W.rows, u) {
      forall k | 0 <= k < |ledger| && ledger[k].usage == u
        ensures ledger[k].terms.pricing.base.Get(c) == terms.pricing.base.Get(c)
      {
        FreshTerms(sub, W.usages, u, W.rows, terms, k);
      }
      assert SettledAt(ledger, usage, u, c);
      assert BaseIs(ledger, u, c, terms.pricing.base.Get(c));
    }
  }

  /** What the preview shows, spelled out for a record that was never reserved. */
  lemma PreviewSpelledOut(plan: Plan, usage: Usage, c: Category)
    ensures var base, n, reported := BaseUnits(plan).Get(c), usage.counters.Get(c), usage.reported.Get(c);
      UnreportedOverage(plan, usage, c)
        == if plan.Hobby? || plan.Development? || usage.billed || n <= base || n <= reported then 0
           else n - (if reported < base then base else reported)
  {
  }
}
