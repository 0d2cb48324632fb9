/**
 * The reporting service itself: `stage` with its two loops and the `deliver` loop, run by one
 * worker against the shared world while everyone else keeps stepping.
 */
module Reporting {
  import opened Wrappers
  import opened Billing
  import R = Reservation
  import opened Protocol
  import opened Delivery
  import opened Books
  import opened Progress
  import opened Settlement

  datatype Outcome = Delivered | NotDelivered | Raised

  /** `max([first] + [r.snapshot for r in previous])`. */
  method MaxSnapshot(first: int, previous: seq<Report>, c: Category) returns (m: int)
    ensures m == R.HighMark(first, previous, c)
    ensures first <= m && forall r :: r in previous ==> r.snapshot.Get(c) <= m
    ensures m == first || exists r :: r in previous && r.snapshot.Get(c) == m
  {
    m := first;
    for i := 0 to |previous|
      invariant m == R.HighMark(first, previous[..i], c)
      invariant first <= m && forall r :: r in previous[..i] ==> r.snapshot.Get(c) <= m
      invariant m == first || exists r :: r in previous[..i] && r.snapshot.Get(c) == m
    {
      assert previous[..i + 1][..i] == previous[..i];
      assert previous[i] in previous[..i + 1];
      m := Max(m, previous[i].snapshot.Get(c));
    }
    assert previous[..|previous|] == previous;
  }

  /** The bounded scan for an earlier success. */
  method ScanFor(items: seq<Item>, row: Report, id: nat, c: Category, listing: seq<Listed>) returns (r: Search)
    requires c in row.requests
    requires forall l :: l in listing && l.Ours? ==> l.item < |items|
    ensures forall l :: l in Bounded(listing) && l.Ours? ==> l.item < |items|
    ensures r == FindExisting(items, row, id, c, Bounded(listing))
  {
    var i := 0;
    assert Bounded(listing)[0..] == Bounded(listing);
    while i < |listing| && i < SCAN_LIMIT
      invariant 0 <= i <= |Bounded(listing)|
      invariant FindExisting(items, row, id, c, Bounded(listing)[i..]) == FindExisting(items, row, id, c, Bounded(listing))
    {
      var l := listing[i];
      assert Bounded(listing)[i..][0] == l && Bounded(listing)[i..][1..] == Bounded(listing)[i + 1..];
      if l.Ours? && items[l.item].request.charge.report == id && items[l.item].request.charge.category == c {
        return if items[l.item].request.charge.amount != row.requests[c].charge.amount then Mismatch else Found(l.item);
      }
      i := i + 1;
    }
    r := NotFound;
  }

  function RequestFor(usage: Usage, previous: seq<Report>, terms: Terms, id: nat, invoice: Option<string>, c: Category): Request {
    Request(R.MakeCharge(terms, id, c, R.HighMark(usage.reported.Get(c), previous, c), R.SnapshotOf(usage, previous, c)),
            invoice, Key(id, c, 0))
  }

  ghost predicate FilledUpTo(usage: Usage, previous: seq<Report>, terms: Terms, id: nat, invoice: Option<string>,
                             requests: map<Category, Request>, snapshots: Counts, k: nat)
    requires k <= |COUNTERS|
  {
    && (forall c :: c in requests <==> c in COUNTERS[..k] && R.NewUnits(usage, previous, terms, c) > 0)
    && (forall c :: c in requests ==> requests[c] == RequestFor(usage, previous, terms, id, invoice, c))
    && (forall c :: c in COUNTERS[..k] ==> snapshots.Get(c) == R.SnapshotOf(usage, previous, c))
  }

  lemma FilledAll(usage: Usage, previous: seq<Report>, terms: Terms, id: nat, invoice: Option<string>,
                  requests: map<Category, Request>, snapshots: Counts)
    requires FilledUpTo(usage, previous, terms, id, invoice, requests, snapshots, |COUNTERS|)
    ensures requests == R.Requests(usage, previous, terms, id, invoice)
    ensures snapshots == R.Snapshots(usage, previous)
  {
    assert COUNTERS[..|COUNTERS|] == COUNTERS;
    R.CountersCoverAll(Traces);
    R.CountersCoverAll(TraceEvals);
    R.CountersCoverAll(SessionEvals);
    assert snapshots.Get(Traces) == R.SnapshotOf(usage, previous, Traces);
    assert snapshots.Get(TraceEvals) == R.SnapshotOf(usage, previous, TraceEvals);
    assert snapshots.Get(SessionEvals) == R.SnapshotOf(usage, previous, SessionEvals);
  }

  lemma FilledStep(usage: Usage, previous: seq<Report>, terms: Terms, id: nat, invoice: Option<string>,
                   requests: map<Category, Request>, snapshots: Counts, k: nat)
    requires k < |COUNTERS| && FilledUpTo(usage, previous, terms, id, invoice, requests, snapshots, k)
    ensures var c := COUNTERS[k];
      FilledUpTo(usage, previous, terms, id, invoice,
                 if R.NewUnits(usage, previous, terms, c) > 0
                 then requests[c := RequestFor(usage, previous, terms, id, invoice, c)] else requests,
                 snapshots.With(c, R.SnapshotOf(usage, previous, c)), k + 1)
  {
    assert COUNTERS[..k + 1] == COUNTERS[..k] + [COUNTERS[k]];
  }

  /** The loop of `stage`: per counter, its snapshot and, for new overage, one request. */
  method FillRequests(usage: Usage, previous: seq<Report>, terms: Terms, id: nat, invoice: Option<string>)
    returns (requests: map<Category, Request>, snapshots: Counts)
    ensures requests == R.Requests(usage, previous, terms, id, invoice)
    ensures snapshots == R.Snapshots(usage, previous)
  {
    requests, snapshots := map[], ZERO;
    for k := 0 to |COUNTERS|
      invariant FilledUpTo(usage, previous, terms, id, invoice, requests, snapshots, k)
    {
      FilledStep(usage, previous, terms, id, invoice, requests, snapshots, k);
      hide FilledUpTo;
      var c := COUNTERS[k];
      var reserved := MaxSnapshot(usage.reported.Get(c), previous, c);
      var snapshot := Max(reserved, usage.counters.Get(c));
      snapshots := snapshots.With(c, snapshot);
      var units := Over(terms.pricing.base.Get(c), snapshot) - Over(terms.pricing.base.Get(c), reserved);
      if units > 0 {
        var amount := Cents(terms.pricing.unitPrice, units);
        var charge := Charge(terms.customer, terms.subscription, amount, units, reserved, snapshot, id, c);
        requests := requests[c := Request(charge, invoice, Key(id, c, 0))];
      }
    }
    FilledAll(usage, previous, terms, id, invoice, requests, snapshots);
  }

  // ------------------------------------------------------------------ one turn of the loop

  /**
   * What the outside world does to one turn: whether its transaction can commit, whether
   * Stripe's lookups answer, whether the reply to a create call gets through, and whether the
   * report's subscription continues.
   */
  datatype Weather = Weather(commits: bool, looksUp: bool, replies: bool, continuing: bool)

  /** The branch that needs no answer to a create call ends with its commit, or raises. */
  predicate Commits(w: nat, calm: bool, done: seq<Step>) {
    |done| == 1 && (if calm then ChangesRow(done[0]) && done[0].w == w else done[0] == Release(w))
  }

  /** A call is of no use: its turn cannot commit, or no answer to it can be acted on. */
  ghost predicate NoUsableAnswer(V: World, msg: Message, sky: Weather) {
    !sky.commits || !sky.replies || forall r :: (msg, r) in V.replies ==> r.Rejected? && !sky.looksUp
  }

  /** The one step that fits what Stripe said: record, carry over, or else raise. */
  ghost predicate Reacts(V: World, w: nat, msg: Message, sky: Weather, taken: Step) {
    match taken
    case RecordCreated(v, item) => v == w && (msg, Created(item)) in V.replies && !NoUsableAnswer(V, msg, sky)
    case CarryOver(v) =>
      v == w && (msg, Rejected) in V.replies && AimsAtFinalized(V, msg.request) && !NoUsableAnswer(V, msg, sky)
    case Release(v) => v == w && NoUsableAnswer(V, msg, sky)
    case _ => false
  }

  /**
   * The row that a freeze leaves, given whether the invoice was seen final: a draft stays the
   * destination; without one, a subscription has to continue, or the report goes to review.
   */
  ghost predicate FrozenRow(row: Report, c: Category, clock: int, final: bool, continuing: bool, new_: Report)
    requires c in row.requests
  {
    var request := row.requests[c];
    var destination := if final then None else request.invoice;
    if destination.None? && row.terms.subscription.Some? && !continuing then new_ == row.(status := NeedsReview)
    else
      new_ == row.(requests := row.requests[c := Request(request.charge, destination, request.key)],
                   attempted := row.attempted[c := clock])
  }

  /**
   * The row that recovery leaves, from the items Stripe `held` when listed and those at commit:
   * an item held is recorded, and without any the report goes to review.
   */
  ghost predicate RecoveredRow(held: seq<Item>, items: seq<Item>, id: nat, c: Category, row: Report, listing: seq<Listed>, new_: Report) {
    && (|listing| <= 1000 && Charged(held, id, c) ==> RecordsCharge(items, id, c, row, new_))
    && (!Charged(items, id, c) ==> new_ == row.(status := NeedsReview))
    && (RecordsCharge(items, id, c, row, new_) || new_ == row.(status := NeedsReview))
  }

  ghost predicate RecordsCharge(items: seq<Item>, id: nat, c: Category, row: Report, new_: Report) {
    exists i: nat :: i < |items| && ChargesFor(items[i], id, c) && new_ == row.(items := row.items[c := i])
  }

  /** The row that a reaction leaves. */
  ghost predicate ReactedRow(row: Report, id: nat, c: Category, taken: Step, new_: Report)
    requires c in row.requests
  {
    match taken
    case RecordCreated(_, item) => new_ == row.(items := row.items[c := item])
    case CarryOver(_) =>
      new_ == row.(requests := row.requests[c := Request(row.requests[c].charge, None, Key(id, c, 1))],
                   attempted := row.attempted - {c})
    case _ => new_ == row
  }

  /**
   * What a worker does to a row it has just locked: the branches of the loop body, from the
   * world `W` it met to the world `V` it leaves. A turn that raises leaves the row alone.
   */
  ghost predicate IsBranch(W: World, V: World, id: nat, w: nat, sky: Weather, done: seq<Step>)
    requires id < |W.rows|
  {
    var row := W.rows[id];
    && done != [] && id < |V.rows| && (done[|done| - 1].Release? ==> V.rows[id] == row)
    && match Next(row)
       case None =>
         && Commits(w, sky.commits, done)
         && (sky.commits ==> done[0].FinishReport? && V.rows[id] == row.(status := Reported))
       case Some(c) =>
         && c in row.requests
         && if c !in row.attempted then
              var request := row.requests[c];
              var calm := sky.commits && (sky.looksUp || request.invoice.None?);
              && Commits(w, calm, done)
              && (calm ==>
                    && done[0].FreezeIntent? && done[0].continuing == sky.continuing
                    && (AimsAtFinalized(W, request) ==> !done[0].sawDraft)
                    && (!done[0].sawDraft ==> AimsAtFinalized(V, request))
                    && FrozenRow(row, c, W.now, !done[0].sawDraft, sky.continuing, V.rows[id]))
            else if W.now - row.attempted[c] >= 23 * 3600 then
              var calm := sky.commits && sky.looksUp;
              && Commits(w, calm, done)
              && (calm ==>
                    && done[0].Recover? && Complete(W, row, row.attempted[c], done[0].listing)
                    && RecoveredRow(W.items, V.items, id, c, row, done[0].listing, V.rows[id]))
            else
              var msg := Message(row.requests[c], W.now);
              && |done| == 2 && done[0] == SendCreate(w) && msg in V.sent && Reacts(V, w, msg, sky, done[1])
              && ReactedRow(row, id, c, done[1], V.rows[id])
  }

  /** A turn that meets `W`: nothing without the lock, else lock and one branch. */
  ghost predicate IsTurn(W: World, V: World, id: nat, w: nat, sky: Weather, turn: seq<Step>) {
    && id < |W.rows|
    && if W.rows[id].status.Pending? && Free(W, id)
       then turn != [] && turn[0] == Lock(w, id) && IsBranch(W, V, id, w, sky, turn[1..])
       else turn == []
  }

  predicate EndsWith(s: seq<Step>, tail: seq<Step>) {
    |tail| <= |s| && s[|s| - |tail|..] == tail
  }

  /** The report's current request was sent, without a usable answer. */
  ghost predicate CallFailed(V: World, id: nat, sky: Weather) {
    && id < |V.rows| && Next(V.rows[id]).Some? && Next(V.rows[id]).value in V.rows[id].requests
    && exists msg :: msg in V.sent && msg.request == V.rows[id].requests[Next(V.rows[id]).value] && NoUsableAnswer(V, msg, sky)
  }

  /** How a delivery that raised ended: over a failed lookup or commit, or over a failed call. */
  ghost predicate RaisedIn(V: World, own: seq<Step>, id: nat, w: nat, sky: Weather) {
    || (EndsWith(own, [Lock(w, id), Release(w)]) && !(sky.commits && sky.looksUp))
    || (EndsWith(own, [SendCreate(w), Release(w)]) && CallFailed(V, id, sky))
  }

  /**
   * How the service takes an answer, or its absence; after a rejection `final` is what a lookup
   * of the invoice says, if it answers.
   */
  function Taking(w: nat, commits: bool, reply: Option<Reply>, final: Option<bool>): Step {
    if !commits then Release(w)
    else
      match reply
      case Some(Created(item)) => RecordCreated(w, item)
      case Some(Rejected) => if final == Some(true) then CarryOver(w) else Release(w)
      case _ => Release(w)
  }

  lemma {:induction false} SearchSeesPrefix(items: seq<Item>, more: seq<Item>, row: Report, id: nat, c: Category, listing: seq<Listed>)
    requires c in row.requests && items <= more
    requires forall l :: l in listing && l.Ours? ==> l.item < |items|
    ensures FindExisting(items, row, id, c, listing) == FindExisting(more, row, id, c, listing)
  {
    if listing != [] {
      assert listing[0] in listing;
      SearchSeesPrefix(items, more, row, id, c, listing[1..]);
    }
  }

  // ------------------------------------------------------------------ facts of reachable states

  lemma StepOn(before: World, run: seq<Step>, W: World, s: Step)
    requires Valid(before, run) && Exec(before, run) == W && Reachable(W) && Enabled(W, s)
    ensures Valid(before, run + [s]) && Exec(before, run + [s]) == Apply(W, s) && Reachable(Apply(W, s))
  {
    OneStepRun(W, s);
    RunsCompose(before, run, [s]);
    ReachableOn(W, [s]);
  }

  lemma NothingDone(W: World, w: nat)
    ensures Valid(W, []) && Exec(W, []) == W && Own([], w) == []
  {
  }

  lemma OthersOn(before: World, run: seq<Step>, W: World, others: seq<Step>, w: nat, id: nat)
    requires Valid(before, run) && Exec(before, run) == W && Reachable(W) && Valid(W, others) && NoneOf(others, w)
    ensures var V := Exec(W, others);
      && Valid(before, run + others) && Exec(before, run + others) == V && Reachable(V)
      && Own(run + others, w) == Own(run, w) && HoldKept(W, V, w)
      && W.now <= V.now && W.finalized <= V.finalized && W.replies <= V.replies && W.items <= V.items
      && (id < |W.rows| ==> id < |V.rows| && Rank(V.rows[id]) <= Rank(W.rows[id]))
  {
    ReachableBooks(W);
    ReachableOn(W, others);
    OthersKeepHold(W, others, w);
    OthersAddNothing(run, others, w);
    RunsCompose(before, run, others);
    if id < |W.rows| { RankNeverRisesInRun(W, others, id); }
  }

  lemma CommitOn(W: World, s: Step)
    requires Reachable(W) && ChangesRow(s) && Enabled(W, s)
    ensures var id := W.holds[s.w].report;
      && id < |Apply(W, s).rows| && Apply(W, s).rows[id] == RowAfter(W, s) && s.w !in Apply(W, s).holds
      && Apply(W, s).items == W.items
      && (RowAfter(W, s).status.Pending? ==> Rank(RowAfter(W, s)) < Rank(W.rows[id]))
  {
    ReachableBooks(W);
    CommitLowersRank(W, s);
    RowFrame(W, s, W.holds[s.w].report);
  }

  lemma LockOn(W: World, id: nat, w: nat)
    requires Enabled(W, Lock(w, id))
    ensures var V := Apply(W, Lock(w, id));
      V.rows == W.rows && HoldsRow(V, w) && V.holds[w].report == id && V.holds[w].clock == W.now
  {
  }

  lemma SendOn(W: World, w: nat, c: Category)
    requires Enabled(W, SendCreate(w)) && Next(W.rows[W.holds[w].report]) == Some(c)
    ensures var h, V := W.holds[w], Apply(W, SendCreate(w));
      && V.rows == W.rows && AwaitsReply(V, w)
      && V.holds[w] == Awaiting(h.report, c, Message(W.rows[h.report].requests[c], h.clock))
  {
  }

  lemma ReleaseOn(W: World, w: nat)
    requires Enabled(W, Release(w))
    ensures var V := Apply(W, Release(w)); V.rows == W.rows && w !in V.holds && V.finalized == W.finalized
  {
  }

  lemma TurnOn(W: World, V: World, id: nat, w: nat, sky: Weather, done: seq<Step>, own: seq<Step>)
    requires id < |W.rows| && W.rows[id].status.Pending? && Free(W, id) && Enabled(W, Lock(w, id))
    requires IsBranch(Apply(W, Lock(w, id)), V, id, w, sky, done)
    ensures var turn := [Lock(w, id)] + done;
      && IsTurn(W, V, id, w, sky, turn) && turn[|turn| - 1] == done[|done| - 1]
      && own + [Lock(w, id)] + done == own + turn
  {
    assert ([Lock(w, id)] + done)[1..] == done;
  }

  lemma FinishBranch(W: World, V: World, id: nat, w: nat, sky: Weather, taken: Step)
    requires id < |W.rows| && id < |V.rows| && Next(W.rows[id]).None?
    requires if sky.commits then taken.FinishReport? && taken.w == w && V.rows[id] == W.rows[id].(status := Reported)
             else taken == Release(w) && V.rows[id] == W.rows[id]
    ensures IsBranch(W, V, id, w, sky, [taken])
  {
  }

  /** `M` is the world in which the invoice was looked up. */
  lemma FreezeBranch(W: World, M: World, V: World, id: nat, w: nat, c: Category, sky: Weather, raised: bool, taken: Step)
    requires id < |W.rows| && id < |V.rows|
    requires Next(W.rows[id]) == Some(c) && c in W.rows[id].requests && c !in W.rows[id].attempted
    requires W.finalized <= M.finalized <= V.finalized
    requires raised <==> !(sky.commits && (sky.looksUp || W.rows[id].requests[c].invoice.None?))
    requires raised ==> taken == Release(w) && V.rows[id] == W.rows[id]
    requires !raised ==> taken == FreezeIntent(w, !AimsAtFinalized(M, W.rows[id].requests[c]), sky.continuing)
    requires !raised ==>
      FrozenRow(W.rows[id], c, W.now, AimsAtFinalized(M, W.rows[id].requests[c]), sky.continuing, V.rows[id])
    ensures IsBranch(W, V, id, w, sky, [taken])
  {
  }

  /** `M` is the world that was listed. */
  lemma RecoverBranch(W: World, M: World, V: World, id: nat, w: nat, c: Category, sky: Weather, raised: bool, taken: Step)
    requires id < |W.rows| && id < |V.rows|
    requires Next(W.rows[id]) == Some(c) && c in W.rows[id].requests && c in W.rows[id].attempted
    requires W.now - W.rows[id].attempted[c] >= SAFE_RETRY_AGE && W.items <= M.items
    requires raised <==> !(sky.looksUp && sky.commits)
    requires raised ==> taken == Release(w) && V.rows[id] == W.rows[id]
    requires !raised ==> taken.Recover? && taken.w == w && Complete(M, W.rows[id], W.rows[id].attempted[c], taken.listing)
    requires !raised ==> RecoveredRow(M.items, V.items, id, c, W.rows[id], taken.listing, V.rows[id])
    ensures IsBranch(W, V, id, w, sky, [taken])
  {
    if !raised {
      forall i | 0 <= i < |W.items| && Listable(W.items[i], W.rows[id], W.rows[id].attempted[c]) ensures Ours(i) in taken.listing {
        assert M.items[i] == W.items[i];
      }
      ChargedLater(W.items, M.items, id, c);
    }
  }

  lemma ChargedLater(items: seq<Item>, more: seq<Item>, id: nat, c: Category)
    requires items <= more
    ensures Charged(items, id, c) ==> Charged(more, id, c)
  {
    if i :| 0 <= i < |items| && ChargesFor(items[i], id, c) {
      assert more[i] == items[i];
    }
  }

  lemma SendBranch(W: World, V: World, id: nat, w: nat, c: Category, sky: Weather, taken: Step)
    requires id < |W.rows| && id < |V.rows|
    requires Next(W.rows[id]) == Some(c) && c in W.rows[id].requests && c in W.rows[id].attempted
    requires W.now - W.rows[id].attempted[c] < SAFE_RETRY_AGE
    requires var msg := Message(W.rows[id].requests[c], W.now); msg in V.sent && Reacts(V, w, msg, sky, taken)
    requires ReactedRow(W.rows[id], id, c, taken, V.rows[id])
    ensures IsBranch(W, V, id, w, sky, [SendCreate(w), taken])
    ensures !taken.FinishReport?
  {
  }

  /** What a recovery over a listing of `M` writes when it commits in `W`. */
  lemma RecoverOn(M: World, W: World, w: nat, id: nat, c: Category, listing: seq<Listed>)
    requires Reachable(M) && Reachable(W) && Enabled(W, Recover(w, listing)) && W.holds[w].report == id
    requires id < |M.rows| && M.rows[id] == W.rows[id] && Next(W.rows[id]) == Some(c) && M.items <= W.items
    requires c in W.rows[id].requests && c in W.rows[id].attempted
    requires ListingOk(M, M.rows[id], M.rows[id].attempted[c], listing) && Complete(M, M.rows[id], M.rows[id].attempted[c], listing)
    ensures RecoveredRow(M.items, W.items, id, c, W.rows[id], listing, RowAfter(W, Recover(w, listing)))
  {
    ReachableBooks(M);
    ReachableBooks(W);
    SearchMeaning(W, id, c, Bounded(listing));
    SearchSeesPrefix(M.items, W.items, W.rows[id], id, c, Bounded(listing));
    ListingShowsCharge(M, id, c, listing);
    var found := FindExisting(W.items, W.rows[id], id, c, Bounded(listing));
    assert RequestOk(W.rows[id].requests[c], id, c) by { assert RowOk(W.rows[id], id); }
    if found.Found? {
      assert ChargesFor(W.items[found.item], id, c);
      assert RowAfter(W, Recover(w, listing)) == W.rows[id].(items := W.rows[id].items[c := found.item]);
    }
  }

  /** The commit acts on the search result that was computed before others stepped. */
  lemma SearchDecides(M: World, W: World, w: nat, id: nat, c: Category, listing: seq<Listed>, search: Search)
    requires Enabled(W, Recover(w, listing)) && W.holds[w].report == id && Next(W.rows[id]) == Some(c)
    requires c in W.rows[id].requests && M.items <= W.items
    requires forall l :: l in Bounded(listing) && l.Ours? ==> l.item < |M.items|
    requires search == FindExisting(M.items, W.rows[id], id, c, Bounded(listing))
    ensures RowAfter(W, Recover(w, listing))
      == match search case Found(item) => Recorded(W.rows[id], c, item) case _ => Reviewed(W.rows[id])
  {
    SearchSeesPrefix(M.items, W.items, W.rows[id], id, c, Bounded(listing));
  }

  lemma FreezeOn(W: World, w: nat, c: Category, sawDraft: bool, continuing: bool)
    requires Enabled(W, FreezeIntent(w, sawDraft, continuing)) && Next(W.rows[W.holds[w].report]) == Some(c)
    ensures var h := W.holds[w];
      FrozenRow(W.rows[h.report], c, h.clock, !sawDraft, continuing, RowAfter(W, FreezeIntent(w, sawDraft, continuing)))
  {
  }

  lemma ReactOn(W: World, w: nat, taken: Step)
    requires Reachable(W) && AwaitsReply(W, w) && Enabled(W, taken)
    requires (taken.RecordCreated? || taken.CarryOver? || taken.Release?) && taken.w == w
    ensures var h, V := W.holds[w], Apply(W, taken);
      h.report < |V.rows| && ReactedRow(W.rows[h.report], h.report, h.category, taken, V.rows[h.report])
  {
    hide Reachable, Apply;
    var h := W.holds[w];
    RowFrame(W, taken, h.report);
    if taken.CarryOver? {
      FirstKey(W, h.report, h.category);
    }
  }

  /** A request that names an invoice still has its first key. */
  lemma FirstKey(W: World, id: nat, c: Category)
    requires Reachable(W) && id < |W.rows| && c in W.rows[id].requests && W.rows[id].requests[c].invoice.Some?
    ensures W.rows[id].requests[c].key == Key(id, c, 0)
  {
    ReachableBooks(W);
    assert RowOk(W.rows[id], id);
    assert RequestOk(W.rows[id].requests[c], id, c);
  }

  lemma FinishOn(W: World, w: nat, unseen: set<(nat, Category)>)
    requires Enabled(W, FinishReport(w, unseen))
    ensures var id, V := W.holds[w].report, Apply(W, FinishReport(w, unseen));
      var u := W.rows[id].usage;
      && V.rows == W.rows[id := W.rows[id].(status := Reported)]
      && V.usages == W.usages[u := W.usages[u].(reported := V.usages[u].reported)]
      && forall c: Category :: IsWatermark(W.rows, u, id, c, unseen, W.usages[u].reported.Get(c), V.usages[u].reported.Get(c))
  {
    var id := W.holds[w].report;
    var u := W.rows[id].usage;
    forall c: Category
      ensures IsWatermark(W.rows, u, id, c, unseen, W.usages[u].reported.Get(c), Apply(W, FinishReport(w, unseen)).usages[u].reported.Get(c))
    {
      WatermarksGet(W.rows, u, id, unseen, W.usages[u].reported, c);
      WatermarkIsGreatest(W.rows, u, id, c, unseen, W.usages[u].reported.Get(c));
    }
  }

  lemma BranchEnds(W: World, V: World, id: nat, w: nat, sky: Weather, done: seq<Step>)
    requires id < |W.rows| && IsBranch(W, V, id, w, sky, done) && done[|done| - 1].Release?
    ensures || (done == [Release(w)] && !(sky.commits && sky.looksUp))
            || (done == [SendCreate(w), Release(w)] && CallFailed(V, id, sky))
  {
  }

  lemma TurnEnds(W: World, V: World, id: nat, w: nat, sky: Weather, turn: seq<Step>, own: seq<Step>)
    requires IsTurn(W, V, id, w, sky, turn)
    ensures turn != [] ==> turn[0] == Lock(w, id)
    ensures turn == [] <==> !(W.rows[id].status.Pending? && Free(W, id))
    ensures turn != [] && turn[|turn| - 1].Release? ==> RaisedIn(V, own + turn, id, w, sky)
  {
    if turn != [] && turn[|turn| - 1].Release? {
      var done := turn[1..];
      assert turn == [Lock(w, id)] + done;
      assert done[|done| - 1] == turn[|turn| - 1];
      BranchEnds(W, V, id, w, sky, done);
      if done == [Release(w)] {
        assert own + turn == own + [Lock(w, id), Release(w)];
      } else {
        assert own + turn == own + [Lock(w, id)] + [SendCreate(w), Release(w)];
      }
    }
  }

  /** What Stripe may have said to an awaited call: created or rejected, and never both. */
  lemma AnswersOn(W: World, w: nat)
    requires Reachable(W) && AwaitsReply(W, w)
    ensures var msg := W.holds[w].msg;
      && msg in W.sent && msg.request == W.rows[W.holds[w].report].requests[W.holds[w].category]
      && (forall r :: (msg, r) in W.replies ==> r.Created? || (r.Rejected? && AimsAtFinalized(W, msg.request)))
      && ((msg, Rejected) in W.replies ==> forall i: nat :: (msg, Created(i)) !in W.replies)
  {
    ReachableBooks(W);
    var msg := W.holds[w].msg;
    assert HoldOk(W, W.holds[w]);
    forall r | (msg, r) in W.replies ensures r.Created? || (r.Rejected? && AimsAtFinalized(W, msg.request)) {
      assert ReplyOk(W, msg, r);
    }
    if (msg, Rejected) in W.replies {
      assert ReplyOk(W, msg, Rejected);
      forall i: nat ensures (msg, Created(i)) !in W.replies {
        assert (msg, Created(i)) in W.replies ==> ReplyOk(W, msg, Created(i));
      }
    }
  }

  lemma UsageKnown(W: World, id: nat)
    requires Reachable(W) && id < |W.rows|
    ensures W.rows[id].usage in W.usages
  {
    ReachableBooks(W);
    assert R.Intents(W.rows)[id].usage in W.usages;
  }

  class BillingReporting {
    var world: World
    const me: nat

    constructor (w: World, worker: nat)
      ensures world == w && me == worker
    {
      world, me := w, worker;
    }

    /** Reserve the usage that no earlier report covers; the new report is the only change. */
    method Stage(sub: Subscription, u: nat, invoice: Option<string>, closing: Option<string>, allowClosed: bool)
      returns (staged: R.Staged)
      modifies this
      ensures staged == R.Stage(sub, old(world).usages, u, old(world).rows, invoice, closing, allowClosed)
      ensures world == AfterStage(old(world), staged)
    {
      if u !in world.usages || (world.usages[u].billed && !allowClosed) {
        return R.Nothing;
      }
      var usage := world.usages[u];
      var previous := R.Previous(world.rows, u);
      if closing.Some? {
        var existing := R.ByClosing(previous, closing.value);
        if existing.Some? {
          return R.Existing(existing.value);
        }
      }
      if !PayAsYouGo(sub.plan) && previous == [] {
        return R.Nothing;
      }
      var found := R.TermsFor(sub, previous);
      if found.None? {
        return R.MissingCustomer;
      }
      var terms, id := found.value, |world.rows|;
      var requests, snapshots := FillRequests(usage, previous, terms, id, invoice);
      if requests == map[] && closing.None? {
        return R.Nothing;
      }
      var report := Report(u, terms, closing, snapshots, requests, map[], map[],
                           if requests == map[] then Reported else Pending);
      world := world.(rows := world.rows + [report]);
      return R.Fresh(report);
    }

    /** Everyone else: any run in which this worker does not step. The body only witnesses the frame. */
    method Interfere() returns (ghost run: seq<Step>)
      modifies this
      ensures NoneOf(run, me) && Valid(old(world), run) && world == Exec(old(world), run)
    {
      run := [];
    }

    /** Take one step of this worker. */
    method Do(s: Step, ghost before: World, ghost run: seq<Step>) returns (ghost longer: seq<Step>)
      requires Enabled(world, s) && Valid(before, run) && Exec(before, run) == world
      requires Reachable(world)
      modifies this
      ensures world == Apply(old(world), s)
      ensures longer == run + [s] && Valid(before, longer) && Exec(before, longer) == world
      ensures Reachable(world)
    {
      StepOn(before, run, world, s);
      world := Apply(world, s);
      longer := run + [s];
    }

    /** Let the others run, keeping this worker's lock and row. */
    method Await(id: nat, ghost before: World, ghost run: seq<Step>) returns (ghost longer: seq<Step>)
      requires Valid(before, run) && Exec(before, run) == world && Reachable(world)
      modifies this
      ensures Valid(before, longer) && Exec(before, longer) == world && Own(longer, me) == Own(run, me)
      ensures Reachable(world) && HoldKept(old(world), world, me)
      ensures old(world).now <= world.now && old(world).finalized <= world.finalized
      ensures old(world).replies <= world.replies && old(world).items <= world.items
      ensures id < |old(world).rows| ==> id < |world.rows| && Rank(world.rows[id]) <= Rank(old(world).rows[id])
    {
      ghost var others := Interfere();
      OthersOn(before, run, old(world), others, me, id);
      longer := run + others;
    }

    /** A reply to the awaited call, if Stripe gave one and it gets through. */
    method Response(getsThrough: bool) returns (reply: Option<Reply>)
      requires AwaitsReply(world, me)
      ensures reply.Some? ==> getsThrough && (world.holds[me].msg, reply.value) in world.replies
      ensures reply.None? && getsThrough ==> forall r :: (world.holds[me].msg, r) !in world.replies
    {
      var arrived := set p | p in world.replies && p.0 == world.holds[me].msg;
      if !getsThrough || arrived == {} {
        assert getsThrough ==> forall r :: (world.holds[me].msg, r) in world.replies ==>
          (world.holds[me].msg, r) in arrived;
        return None;
      }
      var p :| p in arrived;
      return Some(p.1);
    }

    /** Items of the customer that other integrations made. */
    method ForeignItems() returns (foreign: seq<Listed>)
      ensures forall l :: l in foreign ==> l.Foreign?
    {
      var count: int := *;
      foreign := if count <= 0 then [] else seq(count, _ => Foreign);
    }

    /**
     * Stripe's list of the customer's items that are not too old, newest first: the service's
     * own among any number of others.
     */
    method ListItems(row: Report, attempted: int) returns (listing: seq<Listed>)
      ensures ListingOk(world, row, attempted, listing)
      ensures Complete(world, row, attempted, listing)
    {
      listing := ForeignItems();
      for i := 0 to |world.items|
        invariant ListingOk(world, row, attempted, listing)
        invariant forall j :: 0 <= j < i && Listable(world.items[j], row, attempted) ==> Ours(j) in listing
      {
        if Listable(world.items[i], row, attempted) {
          listing := [Ours(i)] + listing;
        }
        var foreign := ForeignItems();
        listing := foreign + listing;
      }
    }

    /** Items of other pending reports that were recorded after `finish` read their rows. */
    method NotSeenYet(id: nat) returns (unseen: set<(nat, Category)>)
      ensures forall p :: p in unseen ==> p.0 < |world.rows| && p.0 != id && !world.rows[p.0].status.Reported?
    {
      unseen := {};
      for i := 0 to |world.rows|
        invariant forall p :: p in unseen ==> p.0 < |world.rows| && p.0 != id && !world.rows[p.0].status.Reported?
      {
        if i != id && !world.rows[i].status.Reported? {
          for k := 0 to |COUNTERS|
            invariant forall p :: p in unseen ==> p.0 < |world.rows| && p.0 != id && !world.rows[p.0].status.Reported?
          {
            var late: bool := *;
            if late {
              unseen := unseen + {(i, COUNTERS[k])};
            }
          }
        }
      }
    }

    /** The transaction raises: everything it wrote is rolled back and the row lock is gone. */
    method Fail(id: nat, ghost before: World, ghost run: seq<Step>) returns (ghost longer: seq<Step>)
      requires Valid(before, run) && Exec(before, run) == world && Reachable(world)
      requires me in world.holds && id < |world.rows|
      modifies this
      ensures Valid(before, longer) && Exec(before, longer) == world && Reachable(world)
      ensures me !in world.holds && world.rows == old(world).rows
      ensures Own(longer, me) == Own(run, me) + [Release(me)] && world.finalized == old(world).finalized
    {
      hide Reachable, Valid, Exec;
      ReleaseOn(world, me);
      OwnStep(run, Release(me), me);
      longer := Do(Release(me), before, run);
    }

    /**
     * The delivery loop. Whatever happens around it, what it does to the world is a run of the
     * protocol; it ends after at most 4n + 1 rounds for n requests; it reports success only
     * when the report is reported, and raises only over a failed lookup or commit, which leave
     * nothing but a lock and its release, or over a call to which there is no usable answer.
     */
    method Deliver(id: nat, weather: nat -> Weather) returns (outcome: Outcome, ghost run: seq<Step>, ghost rounds: nat)
      requires Reachable(world) && me !in world.holds
      modifies this
      ensures Valid(old(world), run) && world == Exec(old(world), run)
      ensures Reachable(world) && me !in world.holds
      ensures outcome.Delivered? ==> id < |world.rows| && world.rows[id].status.Reported?
      ensures outcome.NotDelivered? ==>
        id >= |world.rows| || !world.rows[id].status.Pending? || !Free(world, id)
      ensures outcome.Raised? ==> rounds > 0 && RaisedIn(world, Own(run, me), id, me, weather(rounds - 1))
      ensures id < |old(world).rows| ==> rounds <= 4 * |old(world).rows[id].requests| + 1
      ensures id < |old(world).rows| && old(world).rows[id].status.Pending? && Free(old(world), id) ==>
        Own(run, me) != [] && Own(run, me)[0] == Lock(me, id)
    {
      hide Reachable, Valid, Exec, Rank, IsTurn, RaisedIn;
      NothingDone(world, me);
      run, rounds := [], 0;
      var turns: nat := 0;
      if id >= |world.rows| {
        return NotDelivered, run, rounds;
      }
      RankBound(world.rows[id]);
      while true
        invariant Reachable(world) && me !in world.holds
        invariant Valid(old(world), run) && Exec(old(world), run) == world
        invariant id < |world.rows| && turns == rounds
        invariant rounds + Rank(world.rows[id]) <= Rank(old(world).rows[id])
        invariant if Own(run, me) == [] then world == old(world) else Own(run, me)[0] == Lock(me, id)
        decreases Rank(world.rows[id])
      {
        var sky := weather(turns);
        turns := turns + 1;
        rounds := rounds + 1;
        var verdict;
        ghost var turn;
        ghost var own, met := Own(run, me), world;
        verdict, run, turn := Round(id, sky, old(world), run);
        TurnEnds(met, world, id, me, sky, turn, own);
        if verdict.Some? {
          return verdict.value, run, rounds;
        }
        run := Await(id, old(world), run);
      }
    }

    /**
     * One turn of the loop: it locks the row if it can and takes the loop's branch for what
     * it read, whatever the others do meanwhile. No verdict means that another turn is due.
     */
    method Round(id: nat, sky: Weather, ghost before: World, ghost run: seq<Step>)
      returns (verdict: Option<Outcome>, ghost longer: seq<Step>, ghost turn: seq<Step>)
      requires Valid(before, run) && Exec(before, run) == world && Reachable(world)
      requires me !in world.holds && id < |world.rows|
      modifies this
      ensures Valid(before, longer) && Exec(before, longer) == world && Reachable(world)
      ensures me !in world.holds && id < |world.rows|
      ensures Own(longer, me) == Own(run, me) + turn && IsTurn(old(world), world, id, me, sky, turn)
      ensures verdict == Some(Delivered) <==> turn != [] && turn[|turn| - 1].FinishReport?
      ensures verdict == Some(Raised) <==> turn != [] && turn[|turn| - 1].Release?
      ensures verdict == Some(Delivered) ==> world.rows[id].status.Reported?
      ensures verdict == Some(NotDelivered) ==> !world.rows[id].status.Pending? || !Free(world, id)
      ensures verdict.None? ==> turn != [] && Rank(world.rows[id]) < Rank(old(world).rows[id])
    {
      hide Reachable, Valid, Exec;
      longer, turn := run, [];
      if !world.rows[id].status.Pending? || !Free(world, id) {
        return Some(NotDelivered), longer, turn;
      }
      LockOn(world, id, me);
      OwnStep(run, Lock(me, id), me);
      longer := Do(Lock(me, id), before, longer);
      ghost var done;
      verdict, longer, done := Locked(id, sky, before, longer);
      TurnOn(old(world), world, id, me, sky, done, Own(run, me));
      turn := [Lock(me, id)] + done;
    }

    /** The loop body under the row lock. */
    method Locked(id: nat, sky: Weather, ghost before: World, ghost run: seq<Step>)
      returns (verdict: Option<Outcome>, ghost longer: seq<Step>, ghost done: seq<Step>)
      requires Valid(before, run) && Exec(before, run) == world && Reachable(world)
      requires HoldsRow(world, me) && world.holds[me].report == id && world.rows[id].status.Pending?
      requires world.holds[me].clock == world.now
      modifies this
      ensures Valid(before, longer) && Exec(before, longer) == world && Reachable(world)
      ensures me !in world.holds && id < |world.rows|
      ensures Own(longer, me) == Own(run, me) + done
      ensures IsBranch(old(world), world, id, me, sky, done)
      ensures verdict == Some(Delivered) <==> done[|done| - 1].FinishReport?
      ensures verdict == Some(Raised) <==> done[|done| - 1].Release?
      ensures verdict == Some(Delivered) ==> world.rows[id].status.Reported?
      ensures verdict == Some(NotDelivered) ==> !world.rows[id].status.Pending?
      ensures verdict.None? ==> Rank(world.rows[id]) < Rank(old(world).rows[id])
    {
      hide Reachable, Valid, Exec, Rank, Own, IsBranch, Reacts, Complete, RecoveredRow, FrozenRow, ReactedRow, IsWatermark;
      var now := world.holds[me].clock;
      var row := world.rows[id];
      var next := Next(row);
      NextIsMissing(row);
      longer := Await(id, before, run);
      ghost var taken, read := Release(me), world;
      if next.None? {
        verdict, longer, taken := Finish(id, sky, before, longer);
        FinishBranch(old(world), world, id, me, sky, taken);
        return verdict, longer, [taken];
      }
      var c := next.value;
      var raised;
      if c !in row.attempted {
        raised, longer, taken := FreezeNext(id, c, row, sky, before, longer);
        FreezeBranch(old(world), read, world, id, me, c, sky, raised, taken);
        done := [taken];
      } else if now - row.attempted[c] >= SAFE_RETRY_AGE {
        raised, longer, taken := RecoverNext(id, c, row, sky, before, longer);
        RecoverBranch(old(world), read, world, id, me, c, sky, raised, taken);
        done := [taken];
      } else {
        raised, longer, taken := SendNext(id, c, row, sky, before, longer);
        SendBranch(old(world), world, id, me, c, sky, taken);
        done := [SendCreate(me), taken];
      }
      verdict := if raised then Some(Raised)
                 else if world.rows[id].status.Pending? then None
                 else Some(NotDelivered);
    }

    /** Every item is recorded: mark the report and move the confirmed counts. */
    method Finish(id: nat, sky: Weather, ghost before: World, ghost run: seq<Step>)
      returns (verdict: Option<Outcome>, ghost longer: seq<Step>, ghost taken: Step)
      requires Valid(before, run) && Exec(before, run) == world && Reachable(world)
      requires HoldsRow(world, me) && world.holds[me].report == id && Next(world.rows[id]).None?
      modifies this
      ensures Valid(before, longer) && Exec(before, longer) == world && Reachable(world)
      ensures me !in world.holds && id < |world.rows|
      ensures Own(longer, me) == Own(run, me) + [taken]
      ensures if sky.commits then taken.FinishReport? && taken.w == me && verdict == Some(Delivered)
              else taken == Release(me) && verdict == Some(Raised) && world.rows == old(world).rows
      ensures sky.commits ==>
        var rows, usages, u := old(world).rows, old(world).usages, old(world).rows[id].usage;
        && u in usages && u in world.usages && world.rows == rows[id := rows[id].(status := Reported)]
        && world.usages == usages[u := usages[u].(reported := world.usages[u].reported)]
        && forall c: Category ::
             IsWatermark(rows, u, id, c, taken.unseen, usages[u].reported.Get(c), world.usages[u].reported.Get(c))
    {
      if !sky.commits {
        longer := Fail(id, before, run);
        return Some(Raised), longer, Release(me);
      }
      UsageKnown(world, id);
      var unseen := NotSeenYet(id);
      var s := FinishReport(me, unseen);
      CommitOn(world, s);
      FinishOn(world, me, unseen);
      longer := Do(s, before, run);
      OwnStep(run, s, me);
      return Some(Delivered), longer, s;
    }

    /**
     * Past the retry window only look for an earlier success: record what a complete, bounded
     * listing shows, else ask for review; a listing that fails raises.
     */
    method RecoverNext(id: nat, c: Category, row: Report, sky: Weather, ghost before: World, ghost run: seq<Step>)
      returns (raised: bool, ghost longer: seq<Step>, ghost taken: Step)
      requires Valid(before, run) && Exec(before, run) == world && Reachable(world)
      requires HoldsRow(world, me) && world.holds[me].report == id && world.rows[id] == row
      requires row.status.Pending? && Next(row) == Some(c) && c in row.requests && c in row.attempted
      requires world.holds[me].clock - row.attempted[c] >= SAFE_RETRY_AGE
      modifies this
      ensures Valid(before, longer) && Exec(before, longer) == world && Reachable(world)
      ensures me !in world.holds && id < |world.rows|
      ensures Own(longer, me) == Own(run, me) + [taken]
      ensures raised <==> !(sky.looksUp && sky.commits)
      ensures raised ==> taken == Release(me) && world.rows[id] == row
      ensures !raised ==> taken.Recover? && taken.w == me
      ensures !raised ==> Complete(old(world), row, row.attempted[c], taken.listing)
      ensures !raised ==> RecoveredRow(old(world).items, world.items, id, c, row, taken.listing, world.rows[id])
      ensures !raised && world.rows[id].status.Pending? ==> Rank(world.rows[id]) < Rank(row)
    {
      hide Reachable, Valid, Exec, Rank, Own, RowAfter, RecoveredRow, Complete, FindExisting;
      if !sky.looksUp {
        longer := Fail(id, before, run);
        return true, longer, Release(me);
      }
      var found := ListItems(row, row.attempted[c]);
      var search := ScanFor(world.items, row, id, c, found);
      longer := Await(id, before, run);
      if !sky.commits {
        longer := Fail(id, before, longer);
        return true, longer, Release(me);
      }
      var s := Recover(me, found);
      SearchDecides(old(world), world, me, id, c, found, search);
      RecoverOn(old(world), world, me, id, c, found);
      CommitOn(world, s);
      OwnStep(longer, s, me);
      longer := Do(s, before, longer);
      return false, longer, s;
    }

    /** The status of an invoice, if Stripe answers: whether it has left draft. */
    method RetrieveFinal(request: Request, answers: bool) returns (final: Option<bool>)
      ensures final == if answers then Some(AimsAtFinalized(world, request)) else None
    {
      final := if answers then Some(AimsAtFinalized(world, request)) else None;
    }

    /**
     * Persist the intent to send, or ask for review when nothing would collect the charge. The
     * destination is looked up first, and a lookup that fails raises.
     */
    method FreezeNext(id: nat, c: Category, row: Report, sky: Weather, ghost before: World, ghost run: seq<Step>)
      returns (raised: bool, ghost longer: seq<Step>, ghost taken: Step)
      requires Valid(before, run) && Exec(before, run) == world && Reachable(world)
      requires HoldsRow(world, me) && world.holds[me].report == id && world.rows[id] == row
      requires row.status.Pending? && Next(row) == Some(c) && c in row.requests && c !in row.attempted
      modifies this
      ensures Valid(before, longer) && Exec(before, longer) == world && Reachable(world)
      ensures me !in world.holds && id < |world.rows|
      ensures Own(longer, me) == Own(run, me) + [taken]
      ensures old(world).finalized <= world.finalized
      ensures raised <==> !(sky.commits && (sky.looksUp || row.requests[c].invoice.None?))
      ensures raised ==> taken == Release(me) && world.rows[id] == row
      ensures !raised ==>
        && taken == FreezeIntent(me, !AimsAtFinalized(old(world), row.requests[c]), sky.continuing)
        && FrozenRow(row, c, old(world).holds[me].clock, AimsAtFinalized(old(world), row.requests[c]), sky.continuing, world.rows[id])
      ensures !raised && world.rows[id].status.Pending? ==> Rank(world.rows[id]) < Rank(row)
    {
      hide Reachable, Valid, Exec, Rank, Own;
      longer := run;
      var sawDraft := true;
      if row.requests[c].invoice.Some? {
        var final := RetrieveFinal(row.requests[c], sky.looksUp);
        longer := Await(id, before, longer);
        if final.None? {
          longer := Fail(id, before, longer);
          return true, longer, Release(me);
        }
        sawDraft := !final.value;
      }
      if !sky.commits {
        longer := Fail(id, before, longer);
        return true, longer, Release(me);
      }
      var s := FreezeIntent(me, sawDraft, sky.continuing);
      CommitOn(world, s);
      FreezeOn(world, me, c, sawDraft, sky.continuing);
      OwnStep(longer, s, me);
      longer := Do(s, before, longer);
      return false, longer, s;
    }

    /** Send the frozen request and act on the answer, if there is one. */
    method SendNext(id: nat, c: Category, row: Report, sky: Weather, ghost before: World, ghost run: seq<Step>)
      returns (raised: bool, ghost longer: seq<Step>, ghost taken: Step)
      requires Valid(before, run) && Exec(before, run) == world && Reachable(world)
      requires HoldsRow(world, me) && world.holds[me].report == id && world.rows[id] == row
      requires row.status.Pending? && Next(row) == Some(c) && c in row.requests && c in row.attempted
      requires world.holds[me].clock - row.attempted[c] < SAFE_RETRY_AGE
      modifies this
      ensures Valid(before, longer) && Exec(before, longer) == world && Reachable(world)
      ensures me !in world.holds && id < |world.rows|
      ensures Own(longer, me) == Own(run, me) + [SendCreate(me), taken]
      ensures var msg := Message(row.requests[c], old(world).holds[me].clock);
        msg in world.sent && Reacts(world, me, msg, sky, taken) && raised == taken.Release?
      ensures ReactedRow(row, id, c, taken, world.rows[id])
      ensures !raised && world.rows[id].status.Pending? ==> Rank(world.rows[id]) < Rank(row)
    {
      hide Reachable, Valid, Exec, Rank, Own;
      SendOn(world, me, c);
      OwnStep(run, SendCreate(me), me);
      longer := Do(SendCreate(me), before, run);
      longer := Await(id, before, longer);
      raised, longer, taken := React(id, c, row, sky, before, longer);
      assert Own(run, me) + [SendCreate(me)] + [taken] == Own(run, me) + [SendCreate(me), taken];
    }

    /**
     * Wait for the answer and, after a rejection, ask about the invoice; then act on what was
     * heard. It raises exactly when, at that moment, there is no answer it can use.
     */
    method React(id: nat, c: Category, row: Report, sky: Weather, ghost before: World, ghost run: seq<Step>)
      returns (raised: bool, ghost longer: seq<Step>, ghost taken: Step)
      requires Valid(before, run) && Exec(before, run) == world && Reachable(world)
      requires AwaitsReply(world, me) && world.holds[me].report == id && world.holds[me].category == c
      requires world.rows[id] == row
      modifies this
      ensures Valid(before, longer) && Exec(before, longer) == world && Reachable(world)
      ensures me !in world.holds && id < |world.rows|
      ensures Own(longer, me) == Own(run, me) + [taken]
      ensures var msg := old(world).holds[me].msg;
        msg in world.sent && Reacts(world, me, msg, sky, taken) && raised == taken.Release?
      ensures ReactedRow(row, id, c, taken, world.rows[id])
      ensures !raised && world.rows[id].status.Pending? ==> Rank(world.rows[id]) < Rank(row)
    {
      hide Reachable, Valid, Exec, Rank, Own;
      AnswersOn(world, me);
      longer := run;
      var reply := Response(sky.replies);
      var final := None;
      if reply == Some(Rejected) && row.requests[c].invoice.Some? {
        final := RetrieveFinal(row.requests[c], sky.looksUp);
        longer := Await(id, before, longer);
        AnswersOn(world, me);
      }
      raised, longer, taken := TakeReply(id, c, row, sky.commits, reply, final, before, longer);
    }

    /**
     * Record a created item, or carry a rejected charge over when its invoice proved final;
     * anything else, a silent lookup included, raises.
     */
    method TakeReply(id: nat, c: Category, row: Report, commits: bool, reply: Option<Reply>, final: Option<bool>,
                     ghost before: World, ghost run: seq<Step>)
      returns (raised: bool, ghost longer: seq<Step>, ghost taken: Step)
      requires Valid(before, run) && Exec(before, run) == world && Reachable(world)
      requires AwaitsReply(world, me) && world.holds[me].report == id && world.holds[me].category == c
      requires world.rows[id] == row && (reply.Some? ==> (world.holds[me].msg, reply.value) in world.replies)
      requires final == Some(true) ==> AimsAtFinalized(world, row.requests[c])
      modifies this
      ensures Valid(before, longer) && Exec(before, longer) == world && Reachable(world)
      ensures me !in world.holds && id < |world.rows|
      ensures taken == Taking(me, commits, reply, final) && raised == taken.Release?
      ensures Enabled(old(world), taken) && world == Apply(old(world), taken)
      ensures ReactedRow(row, id, c, taken, world.rows[id])
      ensures Own(longer, me) == Own(run, me) + [taken]
      ensures !raised && world.rows[id].status.Pending? ==> Rank(world.rows[id]) < Rank(row)
    {
      var s: Step := Release(me);
      if reply.Some? && reply.value.Created? {
        s := RecordCreated(me, reply.value.item);
      } else if reply.Some? && reply.value.Rejected? && final.Some? && final.value {
        s := CarryOver(me);
      }
      if !commits {
        s := Release(me);
      }
      raised, taken := s.Release?, s;
      if !raised {
        CommitOn(world, s);
      }
      ReactOn(world, me, s);
      longer := Do(s, before, run);
      OwnStep(run, s, me);
    }

    /** Failures stay retryable: an exception is only a report that is not delivered yet. */
    method DeliverSafely(id: nat, weather: nat -> Weather) returns (ok: bool, ghost run: seq<Step>, ghost rounds: nat)
      requires Reachable(world) && me !in world.holds
      modifies this
      ensures Valid(old(world), run) && world == Exec(old(world), run)
      ensures Reachable(world) && me !in world.holds
      ensures ok ==> id < |world.rows| && world.rows[id].status.Reported?
      ensures !ok ==>
        || id >= |world.rows| || !world.rows[id].status.Pending? || !Free(world, id)
        || (rounds > 0 && RaisedIn(world, Own(run, me), id, me, weather(rounds - 1)))
      ensures id < |old(world).rows| && old(world).rows[id].status.Pending? && Free(old(world), id) ==>
        Own(run, me) != [] && Own(run, me)[0] == Lock(me, id)
    {
      var outcome;
      outcome, run, rounds := Deliver(id, weather);
      ok := outcome.Delivered?;
    }
  }
}
