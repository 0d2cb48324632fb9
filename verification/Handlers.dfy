/** The billing webhooks and the late-counter check, as callers of the reporting service. */
module Handlers {
  import opened Wrappers
  import opened Billing
  import R = Reservation
  import opened Protocol
  import opened Delivery
  import opened Books
  import opened Progress
  import opened Reporting
  import Closing

  datatype Handling = Handled | Failed

  /** What Redis says about a period: no answer, no counters, or counters. */
  datatype Snapshot = Unreachable | Empty | Read(counters: Counts)

  /**
   * An invoice event and what its handler meets: whether the subscription is known and Stripe's
   * lookup of it answers, whether it is a renewal, whether the overage lock was obtained, and
   * whether the invoice's period is valid and agrees with a record that exists.
   */
  datatype InvoiceEvent = InvoiceEvent(known: bool, looksUp: bool, renewal: bool, locked: bool, matches: bool,
                                       snapshot: Snapshot, u: nat, sub: Subscription, invoice: string)

  // ------------------------------------------------------------------ syncing counters

  /** The steps of a sync; counters of a record that does not exist yet create it. */
  function SyncRun(W: World, u: nat, snapshot: Snapshot): seq<Step> {
    match snapshot
    case Read(counters) => (if u in W.usages then [] else [OpenUsage(u)]) + [SyncCounters(u, counters)]
    case _ => []
  }

  function Synced(W: World, u: nat, snapshot: Snapshot): World {
    match snapshot
    case Read(counters) =>
      W.(usages := W.usages[u := (if u in W.usages then W.usages[u] else Usage(ZERO, ZERO, false, ZERO)).(counters := counters)])
    case _ => W
  }

  lemma SyncIsRun(W: World, u: nat, snapshot: Snapshot)
    ensures Valid(W, SyncRun(W, u, snapshot)) && Exec(W, SyncRun(W, u, snapshot)) == Synced(W, u, snapshot)
  {
    if snapshot.Read? {
      var s := SyncCounters(u, snapshot.counters);
      if u in W.usages {
        OneStepRun(W, s);
        assert [] + [s] == [s];
      } else {
        OneStepRun(W, OpenUsage(u));
        OneStepRun(Apply(W, OpenUsage(u)), s);
        RunsCompose(W, [OpenUsage(u)], [s]);
        assert Apply(Apply(W, OpenUsage(u)), s).usages == Synced(W, u, snapshot).usages;
      }
    }
  }

  lemma SyncOn(W: World, u: nat, snapshot: Snapshot)
    requires Reachable(W)
    ensures Valid(W, SyncRun(W, u, snapshot)) && Exec(W, SyncRun(W, u, snapshot)) == Synced(W, u, snapshot)
    ensures Reachable(Synced(W, u, snapshot))
  {
    SyncIsRun(W, u, snapshot);
    ReachableOn(W, SyncRun(W, u, snapshot));
  }

  /** The ending period's record is found: it is billed already, or its counters could be synced. */
  predicate FindsRecord(W: World, e: InvoiceEvent) {
    e.matches &&
    ((e.u in W.usages && W.usages[e.u].billed)
     || (!e.snapshot.Unreachable? && e.u in Synced(W, e.u, e.snapshot).usages))
  }

  /** A billed record is not synced again. */
  function SnapshotFor(W: World, e: InvoiceEvent): Snapshot {
    if e.u in W.usages && W.usages[e.u].billed then Empty else e.snapshot
  }

  // ------------------------------------------------------------------ closing with an invoice

  /** The step that closes the invoice's record, with the counters just synced. */
  function Close(synced: World, e: InvoiceEvent): Step
    requires e.u in synced.usages
  {
    ClosePeriod(e.u, synced.usages[e.u].counters, e.sub, e.invoice)
  }

  lemma CloseIsRun(W: World, e: InvoiceEvent)
    requires e.u in Synced(W, e.u, SnapshotFor(W, e)).usages
    ensures var synced := Synced(W, e.u, SnapshotFor(W, e));
      var run := SyncRun(W, e.u, SnapshotFor(W, e)) + [Close(synced, e)];
      Valid(W, run) && Exec(W, run) == Apply(synced, Close(synced, e))
  {
    var synced := Synced(W, e.u, SnapshotFor(W, e));
    SyncIsRun(W, e.u, SnapshotFor(W, e));
    OneStepRun(synced, Close(synced, e));
    RunsCompose(W, SyncRun(W, e.u, SnapshotFor(W, e)), [Close(synced, e)]);
  }

  /** The included units of a record: its reports' base, or the plan's when it has none yet. */
  ghost predicate ChargedOn(rows: seq<Report>, u: nat, plan: Plan, c: Category, base: int) {
    && (!R.HasReport(rows, u) ==> base == BaseUnits(plan).Get(c))
    && forall i :: 0 <= i < |rows| && rows[i].usage == u ==> rows[i].terms.pricing.base.Get(c) == base
  }

  /** The record's reserved units reach from its opening to `n` or to its earlier mark. */
  ghost predicate CoversCount(before: World, after: World, u: nat, c: Category, base: int, n: int) {
    var opening := OpeningOf(before, u, c);
    R.TotalUnits(R.Intents(after.rows), u, c)
      == Over(base, Max(R.Mark(R.Intents(before.rows), u, opening, c), n)) - Over(base, opening)
  }

  function OpeningOf(W: World, u: nat, c: Category): int {
    if u in W.usages then W.usages[u].opening.Get(c) else 0
  }

  /** What was counted for a record: what Redis holds, else what was synced before. */
  function Counted(W: World, u: nat, snapshot: Snapshot, c: Category): int {
    match snapshot
    case Read(counters) => counters.Get(c)
    case _ => if u in W.usages then W.usages[u].counters.Get(c) else 0
  }

  lemma SyncedCounts(W: World, u: nat, snapshot: Snapshot, c: Category)
    requires u in Synced(W, u, snapshot).usages
    ensures var V := Synced(W, u, snapshot);
      && V.usages[u].counters.Get(c) == Counted(W, u, snapshot, c) && OpeningOf(V, u, c) == OpeningOf(W, u, c)
      && V.rows == W.rows && V.usages[u].billed == (u in W.usages && W.usages[u].billed)
  {
  }

  lemma SyncedAgain(W: World, u: nat)
    requires u in W.usages
    ensures WithCounters(W, u, W.usages[u].counters) == W
  {
    assert W.usages[u := W.usages[u]] == W.usages;
  }

  lemma ClosedHasTerms(W: World, e: InvoiceEvent, c: Category, base: int)
    requires Reachable(W) && e.u in W.usages && !W.usages[e.u].billed
    requires PayAsYouGo(e.sub.plan) || R.HasReport(W.rows, e.u)
    requires Apply(W, Close(W, e)).usages[e.u].billed && ChargedOn(W.rows, e.u, e.sub.plan, c, base)
    ensures var terms := R.TermsFor(e.sub, R.Previous(W.rows, e.u)); terms.Some? && terms.value.pricing.base.Get(c) == base
  {
    Closing.ReachableIsSound(W);
    SyncedAgain(W, e.u);
    Closing.NoEarlierClosing(W, e.u, e.invoice);
    R.TermsForMeaning(e.sub, W.rows, e.u);
  }

  /** A record that an invoice closes is covered: nothing that was counted goes unreserved. */
  lemma ClosedIsCovered(W: World, e: InvoiceEvent, c: Category, base: int)
    requires Reachable(W) && e.u in W.usages && !W.usages[e.u].billed
    requires PayAsYouGo(e.sub.plan) || R.HasReport(W.rows, e.u)
    requires Apply(W, Close(W, e)).usages[e.u].billed && ChargedOn(W.rows, e.u, e.sub.plan, c, base)
    ensures CoversCount(W, Apply(W, Close(W, e)), e.u, c, base, W.usages[e.u].counters.Get(c))
  {
    ClosedHasTerms(W, e, c, base);
    R.PreviousIsEmpty(W.rows, e.u);
    Closing.ClosingIsComplete(W, Close(W, e), c);
  }

  /** The closing report carries the invoice that closed the record. */
  lemma ClosedByInvoice(W: World, e: InvoiceEvent)
    requires e.u in W.usages && !W.usages[e.u].billed && (PayAsYouGo(e.sub.plan) || R.HasReport(W.rows, e.u))
    requires Apply(W, Close(W, e)).usages[e.u].billed
    ensures R.HasClosing(Apply(W, Close(W, e)).rows, e.u, e.invoice)
  {
    SyncedAgain(W, e.u);
    var staged, V := StageIn(W, Close(W, e)), Apply(W, Close(W, e));
    R.StageGuards(e.sub, W.usages, e.u, W.rows, None, Some(e.invoice), false);
    if staged.Fresh? {
      R.FreshReportAsks(e.sub, W.usages, e.u, W.rows, None, Some(e.invoice), false, Traces);
      assert V.rows[|W.rows|] == staged.report;
    } else {
      var i :| 0 <= i < |W.rows| && W.rows[i].usage == e.u && W.rows[i].closing == Some(e.invoice);
      assert V.rows[i] == W.rows[i];
    }
  }

  /** An open record that an invoice event closes, from the event's own data. */
  lemma EventIsCovered(before: World, e: InvoiceEvent, c: Category, base: int)
    requires Reachable(before) && FindsRecord(before, e) && PayAsYouGo(e.sub.plan)
    requires !(e.u in before.usages && before.usages[e.u].billed) && e.u in Synced(before, e.u, e.snapshot).usages
    requires ChargedOn(before.rows, e.u, e.sub.plan, c, base)
    requires var synced := Synced(before, e.u, e.snapshot); Apply(synced, Close(synced, e)).usages[e.u].billed
    ensures var synced := Synced(before, e.u, e.snapshot);
      CoversCount(before, Apply(synced, Close(synced, e)), e.u, c, base, Counted(before, e.u, e.snapshot, c))
  {
    SyncOn(before, e.u, e.snapshot);
    SyncedCounts(before, e.u, e.snapshot, c);
    ClosedIsCovered(Synced(before, e.u, e.snapshot), e, c, base);
  }

  // ------------------------------------------------------------------ staging, then delivering

  /** Some worker locked the report. */
  ghost predicate LockedBySomebody(run: seq<Step>, id: nat) {
    exists w :: Lock(w, id) in run
  }

  /**
   * A delivery was attempted: the report is reported, in review or held by somebody, or the
   * attempt raised over an outage or a call without usable answer.
   */
  ghost predicate Attempted(V: World, own: seq<Step>, id: nat, w: nat, weather: nat -> Weather) {
    id < |V.rows| &&
    (!V.rows[id].status.Pending? || !Free(V, id) || exists k: nat :: RaisedIn(V, own, id, w, weather(k)))
  }

  lemma AttemptedAfter(V: World, first: seq<Step>, then_: seq<Step>, id: nat, w: nat, weather: nat -> Weather)
    requires Attempted(V, Own(then_, w), id, w, weather)
    ensures Attempted(V, Own(first + then_, w), id, w, weather)
  {
    OwnConcat(first, then_, w);
    var own := Own(then_, w);
    if k: nat :| RaisedIn(V, own, id, w, weather(k)) {
      EndsLater(Own(first, w), own, [Lock(w, id), Release(w)]);
      EndsLater(Own(first, w), own, [SendCreate(w), Release(w)]);
      assert RaisedIn(V, Own(first, w) + own, id, w, weather(k));
    }
  }

  lemma LockedAfter(first: seq<Step>, then_: seq<Step>, id: nat)
    requires LockedBySomebody(then_, id)
    ensures LockedBySomebody(first + then_, id)
  {
    var w :| Lock(w, id) in then_;
    assert Lock(w, id) in first + then_;
  }

  lemma EndsLater(first: seq<Step>, s: seq<Step>, tail: seq<Step>)
    ensures EndsWith(s, tail) ==> EndsWith(first + s, tail)
  {
    if EndsWith(s, tail) {
      assert (first + s)[|first + s| - |tail|..] == s[|s| - |tail|..];
    }
  }

  lemma {:induction false} OwnIsPart(run: seq<Step>, w: nat, s: Step)
    requires s in Own(run, w)
    ensures s in run
  {
    var n := |run| - 1;
    if s in Own(run[..n], w) {
      OwnIsPart(run[..n], w, s);
    }
  }

  lemma UnlockedStep(W: World, s: Step, id: nat)
    requires Enabled(W, s) && id < |W.rows| && W.rows[id].status.Pending? && Free(W, id)
    requires !(s.Lock? && s.report == id)
    ensures var V := Apply(W, s); id < |V.rows| && V.rows[id].status.Pending? && Free(V, id)
  {
    RowFrame(W, s, id);
  }

  /** A pending report that nobody holds stays so until somebody locks it. */
  lemma {:induction false} UnlockedUntilLocked(W: World, run: seq<Step>, id: nat)
    requires Valid(W, run) && id < |W.rows| && W.rows[id].status.Pending? && Free(W, id)
    ensures var V := Exec(W, run); id < |V.rows| && ((V.rows[id].status.Pending? && Free(V, id)) || LockedBySomebody(run, id))
    decreases |run|
  {
    if run != [] {
      if run[0].Lock? && run[0].report == id {
        assert Lock(run[0].w, id) in run;
        RowsStay(W, run, id);
      } else {
        UnlockedStep(W, run[0], id);
        UnlockedUntilLocked(Apply(W, run[0]), run[1..], id);
      }
    }
  }

  lemma {:induction false} RowsStay(W: World, run: seq<Step>, id: nat)
    requires Valid(W, run) && id < |W.rows|
    ensures id < |Exec(W, run).rows|
    decreases |run|
  {
    if run != [] {
      RowFrame(W, run[0], id);
      RowsStay(Apply(W, run[0]), run[1..], id);
    }
  }

  /** A report reserved for an invoice is pending and nobody holds it. */
  lemma FreshIsDeliverable(W: World, s: Step)
    requires Reachable(W) && s.StageReport? && StageIn(W, s).Fresh?
    ensures var V, id := Apply(W, s), |W.rows|;
      V.holds == W.holds && |V.rows| == id + 1 && V.rows[id].status.Pending? && Free(V, id)
  {
    ReachableBooks(W);
    forall w | w in W.holds ensures W.holds[w].report != |W.rows| {
      assert HoldOk(W, W.holds[w]);
    }
  }

  lemma StageOn(W: World, u: nat, snapshot: Snapshot, s: Step)
    requires Reachable(W) && s.StageReport?
    ensures var run, V := SyncRun(W, u, snapshot) + [s], Apply(Synced(W, u, snapshot), s);
      Valid(W, run) && Exec(W, run) == V && Reachable(V)
  {
    SyncOn(W, u, snapshot);
    StepOn(W, SyncRun(W, u, snapshot), Synced(W, u, snapshot), s);
  }

  class BillingService {
    const reporting: BillingReporting

    constructor (r: BillingReporting)
      ensures reporting == r
    {
      reporting := r;
    }

    /** Write the counters that Redis holds. */
    method Sync(u: nat, snapshot: Snapshot)
      modifies reporting
      ensures reporting.world == Synced(old(reporting.world), u, snapshot)
    {
      if snapshot.Read? {
        var usages := reporting.world.usages;
        var usage := if u in usages then usages[u] else Usage(ZERO, ZERO, false, ZERO);
        reporting.world := reporting.world.(usages := usages[u := usage.(counters := snapshot.counters)]);
      }
    }

    /** Find and sync the record of the ending period, or raise. */
    method SyncInvoicePeriod(e: InvoiceEvent) returns (found: bool)
      modifies reporting
      ensures found == FindsRecord(old(reporting.world), e)
      ensures found ==> reporting.world == Synced(old(reporting.world), e.u, SnapshotFor(old(reporting.world), e))
      ensures found ==> e.u in reporting.world.usages
    {
      if !e.matches {
        return false;
      }
      if e.u in reporting.world.usages && reporting.world.usages[e.u].billed {
        return true;
      }
      if e.snapshot.Unreachable? {
        return false;
      }
      Sync(e.u, e.snapshot);
      found := e.u in reporting.world.usages;
    }

    /**
     * `invoice.paid`: a renewal closes its record, in one transaction with the sync of its
     * counters, or raises and changes nothing. What it closes is covered by reservations up to
     * the counters that were read.
     */
    method HandleInvoicePaid(e: InvoiceEvent) returns (handling: Handling, ghost run: seq<Step>)
      modifies reporting
      ensures Valid(old(reporting.world), run) && reporting.world == Exec(old(reporting.world), run)
      ensures var before := old(reporting.world);
        if !e.known then handling.Handled? && run == []
        else if !e.looksUp then handling.Failed? && run == []
        else if !e.renewal then handling.Handled? && run == []
        else if !e.locked || !FindsRecord(before, e) then handling.Failed? && run == []
        else
          var snapshot := SnapshotFor(before, e);
          var synced := Synced(before, e.u, snapshot);
          if Apply(synced, Close(synced, e)).usages[e.u].billed
          then handling.Handled? && run == SyncRun(before, e.u, snapshot) + [Close(synced, e)]
          else handling.Failed? && run == []
      ensures var before := old(reporting.world);
        Reachable(before) && run != [] && !(e.u in before.usages && before.usages[e.u].billed) && PayAsYouGo(e.sub.plan) ==>
          && R.HasClosing(reporting.world.rows, e.u, e.invoice)
          && forall c, base :: ChargedOn(before.rows, e.u, e.sub.plan, c, base) ==>
               CoversCount(before, reporting.world, e.u, c, base, Counted(before, e.u, e.snapshot, c))
    {
      var before := reporting.world;
      run := [];
      if !e.known {
        return Handled, run;
      }
      if !e.looksUp {
        return Failed, run;
      }
      if !e.renewal {
        return Handled, run;
      }
      if !e.locked {
        return Failed, run;
      }
      var found := SyncInvoicePeriod(e);
      if !found {
        reporting.world := before;
        return Failed, run;
      }
      handling := ClosePeriodOf(e, before);
      if handling.Handled? {
        ghost var synced := Synced(before, e.u, SnapshotFor(before, e));
        run := SyncRun(before, e.u, SnapshotFor(before, e)) + [Close(synced, e)];
        CloseIsRun(before, e);
        if Reachable(before) && !(e.u in before.usages && before.usages[e.u].billed) && PayAsYouGo(e.sub.plan) {
          SyncedCounts(before, e.u, e.snapshot, Traces);
          ClosedByInvoice(synced, e);
          forall c, base | ChargedOn(before.rows, e.u, e.sub.plan, c, base)
            ensures CoversCount(before, reporting.world, e.u, c, base, Counted(before, e.u, e.snapshot, c))
          {
            EventIsCovered(before, e, c, base);
          }
        }
      }
    }

    /** Stage the closing report and bill the record, or roll back to `before`. */
    method ClosePeriodOf(e: InvoiceEvent, before: World) returns (handling: Handling)
      requires e.u in reporting.world.usages
      modifies reporting
      ensures var synced := old(reporting.world); var closed := Apply(synced, Close(synced, e));
        if closed.usages[e.u].billed then handling.Handled? && reporting.world == closed
        else handling.Failed? && reporting.world == before
    {
      SyncedAgain(reporting.world, e.u);
      ghost var synced := reporting.world;
      if !reporting.world.usages[e.u].billed {
        var staged := reporting.Stage(e.sub, e.u, None, Some(e.invoice), false);
        if staged.MissingCustomer? {
          reporting.world := before;
          return Failed;
        }
        var usages := reporting.world.usages;
        reporting.world := reporting.world.(usages := usages[e.u := usages[e.u].(billed := true)]);
      } else {
        assert synced.usages[e.u := synced.usages[e.u].(billed := true)] == synced.usages;
      }
      handling := Handled;
    }

    /**
     * The closed-period check, unless its marker is gone or being delivered: sync, then reserve
     * what came late. Every record stays as billed as it was.
     */
    method CheckClosedPeriod(marker: nat, u: nat, snapshot: Snapshot, sub: Option<Subscription>)
      returns (handling: Handling, ghost run: seq<Step>)
      requires Reachable(reporting.world)
      modifies reporting
      ensures Valid(old(reporting.world), run) && reporting.world == Exec(old(reporting.world), run)
      ensures var before := old(reporting.world);
        if marker >= |before.rows| || !Free(before, marker) || sub.None? then handling.Handled? && run == []
        else
          var s := StageReport(u, sub.value, None, true);
          if snapshot.Unreachable? || StageIn(Synced(before, u, snapshot), s).MissingCustomer? then
            handling.Failed? && run == []
          else handling.Handled? && run == SyncRun(before, u, snapshot) + [s]
      ensures forall v :: v in old(reporting.world).usages ==>
        v in reporting.world.usages && reporting.world.usages[v].billed == old(reporting.world).usages[v].billed
    {
      run := [];
      if marker >= |reporting.world.rows| || !Free(reporting.world, marker) || sub.None? {
        return Handled, run;
      }
      if snapshot.Unreachable? {
        return Failed, run;
      }
      var before := reporting.world;
      Sync(u, snapshot);
      var staged := reporting.Stage(sub.value, u, None, None, true);
      if staged.MissingCustomer? {
        reporting.world := before;
        return Failed, run;
      }
      StageOn(before, u, snapshot, StageReport(u, sub.value, None, true));
      return Handled, SyncRun(before, u, snapshot) + [StageReport(u, sub.value, None, true)];
    }

    /**
     * `invoice.created`: reserve the record's usage against the draft, commit, then try to
     * deliver it. Failures before the commit change nothing; whatever is reserved has been
     * locked for delivery at the end, by this worker or by one that came first.
     */
    method HandleInvoiceCreated(e: InvoiceEvent, weather: nat -> Weather) returns (handling: Handling, ghost run: seq<Step>)
      requires Reachable(reporting.world) && reporting.me !in reporting.world.holds
      modifies reporting
      ensures Valid(old(reporting.world), run) && reporting.world == Exec(old(reporting.world), run)
      ensures Reachable(reporting.world)
      ensures var before := old(reporting.world);
        if !e.known || !e.renewal || !PayAsYouGo(e.sub.plan) then handling.Handled? && run == []
        else if !e.locked || !FindsRecord(before, e) then handling.Failed? && run == []
        else if e.u in before.usages && before.usages[e.u].billed then handling.Handled? && run == []
        else Captures(before, reporting.world, e, handling, run, reporting.me, weather)
    {
      if !e.known || !e.renewal || !PayAsYouGo(e.sub.plan) {
        return Handled, [];
      }
      if !e.locked {
        return Failed, [];
      }
      var before := reporting.world;
      var found := SyncInvoicePeriod(e);
      if !found {
        reporting.world := before;
        return Failed, [];
      }
      if reporting.world.usages[e.u].billed {
        return Handled, [];
      }
      handling, run := Capture(e, before, weather);
    }

    /**
     * What becomes of an open record: synced, reserved and committed, then locked by somebody,
     * with one attempt at delivery made.
     */
    static ghost predicate Captures(before: World, after: World, e: InvoiceEvent, handling: Handling, run: seq<Step>,
                                    w: nat, weather: nat -> Weather)
    {
      var s := StageReport(e.u, e.sub, Some(e.invoice), false);
      var sync, staged := SyncRun(before, e.u, e.snapshot), StageIn(Synced(before, e.u, e.snapshot), s);
      if e.sub.customer.None? then handling.Handled? && run == sync
      else if staged.MissingCustomer? then handling.Failed? && run == []
      else
        && handling.Handled? && sync + [s] <= run
        && if staged.Fresh?
           then LockedBySomebody(run, |before.rows|) && Attempted(after, Own(run, w), |before.rows|, w, weather)
           else run == sync + [s]
    }

    /** Reserve and commit, with the synced counters; then attempt delivery of what was reserved. */
    method Capture(e: InvoiceEvent, before: World, weather: nat -> Weather)
      returns (handling: Handling, ghost run: seq<Step>)
      requires Reachable(before) && reporting.me !in before.holds
      requires reporting.world == Synced(before, e.u, e.snapshot)
      modifies reporting
      ensures Valid(before, run) && reporting.world == Exec(before, run)
      ensures Reachable(reporting.world)
      ensures Captures(before, reporting.world, e, handling, run, reporting.me, weather)
    {
      hide Reachable, Valid, Exec, Attempted, LockedBySomebody, Own;
      ghost var s := StageReport(e.u, e.sub, Some(e.invoice), false);
      SyncOn(before, e.u, e.snapshot);
      NothingDone(before, reporting.me);
      if e.sub.customer.None? {
        return Handled, SyncRun(before, e.u, e.snapshot);
      }
      var staged := reporting.Stage(e.sub, e.u, Some(e.invoice), None, false);
      if staged.MissingCustomer? {
        reporting.world := before;
        return Failed, [];
      }
      StageOn(before, e.u, e.snapshot, s);
      run := SyncRun(before, e.u, e.snapshot) + [s];
      if staged.Fresh? {
        FreshIsDeliverable(Synced(before, e.u, e.snapshot), s);
        ghost var delivery := Attempt(|reporting.world.rows| - 1, weather);
        RunsCompose(before, run, delivery);
        LockedAfter(run, delivery, |before.rows|);
        AttemptedAfter(reporting.world, run, delivery, |before.rows|, reporting.me, weather);
        run := run + delivery;
      }
      handling := Handled;
    }

    /** Between the commit and the attempt others may step, and may take the report first. */
    method Attempt(id: nat, weather: nat -> Weather) returns (ghost delivery: seq<Step>)
      requires Reachable(reporting.world) && reporting.me !in reporting.world.holds
      requires id < |reporting.world.rows| && reporting.world.rows[id].status.Pending? && Free(reporting.world, id)
      modifies reporting
      ensures Valid(old(reporting.world), delivery) && reporting.world == Exec(old(reporting.world), delivery)
      ensures Reachable(reporting.world) && LockedBySomebody(delivery, id)
      ensures Attempted(reporting.world, Own(delivery, reporting.me), id, reporting.me, weather)
    {
      hide Reachable, Valid, Exec;
      ghost var before := reporting.world;
      NothingDone(before, reporting.me);
      ghost var others := reporting.Interfere();
      OthersOn(before, [], before, others, reporting.me, id);
      UnlockedUntilLocked(before, others, id);
      ghost var met := reporting.world;
      var ok;
      ghost var attempt, rounds;
      ok, attempt, rounds := reporting.DeliverSafely(id, weather);
      RunsCompose(before, others, attempt);
      RowsStay(met, attempt, id);
      assert Attempted(reporting.world, Own(attempt, reporting.me), id, reporting.me, weather);
      AttemptedAfter(reporting.world, others, attempt, id, reporting.me, weather);
      delivery := others + attempt;
      if met.rows[id].status.Pending? && Free(met, id) {
        OwnIsPart(attempt, reporting.me, Lock(reporting.me, id));
        assert Lock(reporting.me, id) in delivery;
      } else {
        ghost var w :| Lock(w, id) in others;
        assert Lock(w, id) in delivery;
      }
    }
  }
}
