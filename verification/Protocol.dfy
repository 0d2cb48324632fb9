/**
 * The delivery protocol as a state machine: database rows under row locks, workers that
 * may crash anywhere, a network that may delay, repeat or lose calls and replies, and
 * Stripe with its idempotency window. Every step is one atomic transaction or event.
 */
module Protocol {
  import opened Wrappers
  import opened Billing
  import opened Reservation

  const HOUR := 3600
  const SAFE_RETRY_AGE := 23 * HOUR
  /** Stripe replays a stored success for at least this long. */
  const KEY_LIFETIME := 24 * HOUR
  /** A create call reaches Stripe within this time of the clock read that allowed it. */
  const CALL_WINDOW := HOUR
  const SCAN_LIMIT := 1000
  const LIST_SLACK := 60

  /** A create call on its way; `clock` is what its sender's clock read. */
  datatype Message = Message(request: Request, clock: int)

  datatype Reply = Created(item: nat) | Rejected | KeyConflict

  datatype Item = Item(request: Request, created: int)

  /** An entry of Stripe's item list: one of ours, or some other item of the customer. */
  datatype Listed = Ours(item: nat) | Foreign

  /** A worker inside a transaction that holds the row lock of `report`. */
  datatype Hold =
    | Holding(report: nat, clock: int)
    | Awaiting(report: nat, category: Category, msg: Message)

  datatype World = World(now: int, usages: map<nat, Usage>, rows: seq<Report>, holds: map<nat, Hold>,
                         sent: set<Message>, replies: set<(Message, Reply)>,
                         items: seq<Item>, finalized: set<string>)

  datatype Step =
    // usage rows
    | OpenUsage(u: nat)
    | SyncCounters(u: nat, counters: Counts)
    | StageReport(u: nat, sub: Subscription, invoice: Option<string>, allowClosed: bool)
    | ClosePeriod(u: nat, counters: Counts, sub: Subscription, closingInvoice: string)
    // one worker's delivery loop
    | Lock(w: nat, report: nat)
    | FinishReport(w: nat, unseen: set<(nat, Category)>)
    | FreezeIntent(w: nat, sawDraft: bool, continuing: bool)
    | SendCreate(w: nat)
    | RecordCreated(w: nat, item: nat)
    | CarryOver(w: nat)
    | Recover(w: nat, listing: seq<Listed>)
    | Release(w: nat)
    // Stripe, the operator and time
    | StripeHandles(msg: Message, keyKept: bool)
    | FinalizeInvoice(draft: string)
    | Requeue(report: nat)
    | Tick(seconds: nat)

  // ------------------------------------------------------------------ reading a row

  function NextIn(row: Report, order: seq<Category>): Option<Category> {
    if order == [] then None
    else if order[0] in row.requests && order[0] !in row.items then Some(order[0])
    else NextIn(row, order[1..])
  }

  /** The first requested category whose Stripe item is not recorded yet. */
  function Next(row: Report): Option<Category> {
    NextIn(row, COUNTERS)
  }

  predicate Free(W: World, report: nat) {
    forall w :: w in W.holds ==> W.holds[w].report != report
  }

  /** The highest snapshot of record `u` that is confirmed once report `done` is. */
  function Confirmed(rows: seq<Report>, u: nat, done: nat, c: Category, start: int): int {
    if rows == [] then start
    else
      var n := |rows| - 1;
      var rest := Confirmed(rows[..n], u, done, c, start);
      if rows[n].usage == u && (rows[n].status.Reported? || n == done) then Max(rest, rows[n].snapshot.Get(c)) else rest
  }

  predicate Unresolved(row: Report, id: nat, c: Category, unseen: set<(nat, Category)>) {
    c in row.requests && (c !in row.items || (id, c) in unseen)
  }

  function LowestUnresolved(rows: seq<Report>, u: nat, c: Category, unseen: set<(nat, Category)>, cap: int): int {
    if rows == [] then cap
    else
      var n := |rows| - 1;
      var rest := LowestUnresolved(rows[..n], u, c, unseen, cap);
      if rows[n].usage == u && Unresolved(rows[n], n, c, unseen) then Min(rest, rows[n].requests[c].charge.from) else rest
  }

  /** The confirmed count `finish` writes: forward only, and not past an unresolved charge. */
  function Watermark(rows: seq<Report>, u: nat, done: nat, c: Category, unseen: set<(nat, Category)>, reported: int): int {
    Max(reported, LowestUnresolved(rows, u, c, unseen, Confirmed(rows, u, done, c, reported)))
  }

  function Watermarks(rows: seq<Report>, u: nat, done: nat, unseen: set<(nat, Category)>, reported: Counts): Counts {
    Counts(Watermark(rows, u, done, Traces, unseen, reported.traces),
           Watermark(rows, u, done, TraceEvals, unseen, reported.traceEvals),
           Watermark(rows, u, done, SessionEvals, unseen, reported.sessionEvals))
  }

  // ------------------------------------------------------------------ Stripe

  /** The newest item made under a key. */
  function ItemFor(items: seq<Item>, key: Key): (r: Option<nat>)
    ensures r.Some? ==> r.value < |items| && items[r.value].request.key == key
    ensures r.None? ==> forall i :: 0 <= i < |items| ==> items[i].request.key != key
  {
    if items == [] then None
    else if items[|items| - 1].request.key == key then Some(|items| - 1)
    else ItemFor(items[..|items| - 1], key)
  }

  predicate AimsAtFinalized(W: World, request: Request) {
    request.invoice.Some? && request.invoice.value in W.finalized
  }

  /** What Stripe does with a create call; a key past its lifetime is kept or forgotten. */
  function StripeOutcome(W: World, msg: Message, keyKept: bool): World {
    var known := ItemFor(W.items, msg.request.key);
    if known.Some? && (W.now < W.items[known.value].created + KEY_LIFETIME || keyKept) then
      var answer := if W.items[known.value].request == msg.request then Created(known.value) else KeyConflict;
      W.(replies := W.replies + {(msg, answer)})
    else if AimsAtFinalized(W, msg.request) then
      W.(replies := W.replies + {(msg, Rejected)})
    else
      W.(items := W.items + [Item(msg.request, W.now)], replies := W.replies + {(msg, Created(|W.items|))})
  }

  datatype Search = Found(item: nat) | Mismatch | NotFound

  /** Scan a listing for the item of one charge. */
  function FindExisting(items: seq<Item>, row: Report, id: nat, c: Category, listing: seq<Listed>): Search
    requires c in row.requests
    requires forall l :: l in listing && l.Ours? ==> l.item < |items|
  {
    if listing == [] then NotFound
    else if listing[0].Ours? && items[listing[0].item].request.charge.report == id
            && items[listing[0].item].request.charge.category == c then
      if items[listing[0].item].request.charge.amount != row.requests[c].charge.amount then Mismatch
      else Found(listing[0].item)
    else FindExisting(items, row, id, c, listing[1..])
  }

  predicate Listable(item: Item, row: Report, attempted: int) {
    item.request.charge.customer == row.terms.customer && item.created >= attempted - LIST_SLACK
  }

  /** A listing holds real items of the customer, none older than the slack before `attempted`. */
  predicate ListingOk(W: World, row: Report, attempted: int, listing: seq<Listed>) {
    forall l :: l in listing && l.Ours? ==> l.item < |W.items| && Listable(W.items[l.item], row, attempted)
  }

  /** The listing misses none of the service's own items. */
  ghost predicate Complete(W: World, row: Report, attempted: int, listing: seq<Listed>) {
    forall i :: 0 <= i < |W.items| && Listable(W.items[i], row, attempted) ==> Ours(i) in listing
  }

  function Bounded(listing: seq<Listed>): seq<Listed> {
    if |listing| <= SCAN_LIMIT then listing else listing[..SCAN_LIMIT]
  }

  // ------------------------------------------------------------------ row updates

  function SetRow(W: World, w: nat, row: Report): World
    requires w in W.holds && W.holds[w].report < |W.rows|
  {
    W.(rows := W.rows[W.holds[w].report := row], holds := W.holds - {w})
  }

  function Recorded(row: Report, c: Category, item: nat): Report {
    row.(items := row.items[c := item])
  }

  function Reviewed(row: Report): Report {
    row.(status := NeedsReview)
  }

  function CarriedOver(row: Report, c: Category): Report
    requires c in row.requests
  {
    var request := row.requests[c];
    row.(requests := row.requests[c := request.(invoice := None, key := request.key.(carryovers := request.key.carryovers + 1))],
         attempted := row.attempted - {c})
  }

  /** Choose the destination, then freeze the request; without a collector, ask for review. */
  function Frozen(row: Report, c: Category, clock: int, sawDraft: bool, continuing: bool): Report
    requires c in row.requests
  {
    var request := row.requests[c].(invoice := if sawDraft then row.requests[c].invoice else None);
    if request.invoice.None? && row.terms.subscription.Some? && !continuing then Reviewed(row)
    else row.(requests := row.requests[c := request], attempted := row.attempted[c := clock])
  }

  function AfterStage(W: World, staged: Staged): World {
    if staged.Fresh? then W.(rows := W.rows + [staged.report]) else W
  }

  function WithCounters(W: World, u: nat, counters: Counts): World
    requires u in W.usages
  {
    W.(usages := W.usages[u := W.usages[u].(counters := counters)])
  }

  function StageIn(W: World, s: Step): Staged
    requires s.StageReport? || s.ClosePeriod?
  {
    match s
    case StageReport(u, sub, invoice, allowClosed) => Stage(sub, W.usages, u, W.rows, invoice, None, allowClosed)
    case ClosePeriod(u, _, sub, closing) => Stage(sub, W.usages, u, W.rows, None, Some(closing), false)
  }

  // ------------------------------------------------------------------ steps and runs

  predicate HoldsRow(W: World, w: nat) {
    w in W.holds && W.holds[w].Holding? && W.holds[w].report < |W.rows|
  }

  predicate AwaitsReply(W: World, w: nat) {
    w in W.holds && W.holds[w].Awaiting? && W.holds[w].report < |W.rows|
    && W.holds[w].category in W.rows[W.holds[w].report].requests
  }

  predicate Enabled(W: World, s: Step) {
    match s
    case OpenUsage(u) => u !in W.usages
    case SyncCounters(u, _) => u in W.usages
    case StageReport(_, _, _, _) => true
    case ClosePeriod(u, _, _, _) => u in W.usages
    case Lock(w, report) =>
      w !in W.holds && report < |W.rows| && W.rows[report].status.Pending? && Free(W, report)
    case FinishReport(w, unseen) =>
      HoldsRow(W, w) &&
      var id := W.holds[w].report;
      && Next(W.rows[id]).None?
      && W.rows[id].usage in W.usages
      && forall p :: p in unseen ==> p.0 < |W.rows| && p.0 != id && !W.rows[p.0].status.Reported?
    case FreezeIntent(w, sawDraft, _) =>
      HoldsRow(W, w) &&
      var row := W.rows[W.holds[w].report];
      && Next(row).Some? && Next(row).value in row.requests && Next(row).value !in row.attempted
      && (sawDraft || row.requests[Next(row).value].invoice.None?
          || row.requests[Next(row).value].invoice.value in W.finalized)
    case SendCreate(w) =>
      HoldsRow(W, w) &&
      var row := W.rows[W.holds[w].report];
      && Next(row).Some? && Next(row).value in row.requests && Next(row).value in row.attempted
      && W.holds[w].clock - row.attempted[Next(row).value] < SAFE_RETRY_AGE
    case RecordCreated(w, item) =>
      AwaitsReply(W, w) && (W.holds[w].msg, Created(item)) in W.replies
    case CarryOver(w) =>
      AwaitsReply(W, w) && (W.holds[w].msg, Rejected) in W.replies
      && AimsAtFinalized(W, W.rows[W.holds[w].report].requests[W.holds[w].category])
    case Recover(w, listing) =>
      HoldsRow(W, w) &&
      var row := W.rows[W.holds[w].report];
      && Next(row).Some? && Next(row).value in row.requests && Next(row).value in row.attempted
      && W.holds[w].clock - row.attempted[Next(row).value] >= SAFE_RETRY_AGE
      && ListingOk(W, row, row.attempted[Next(row).value], listing)
    case Release(w) => w in W.holds
    case StripeHandles(msg, _) => msg in W.sent && W.now <= msg.clock + CALL_WINDOW
    case FinalizeInvoice(_) => true
    case Requeue(report) => report < |W.rows| && W.rows[report].status.NeedsReview?
    case Tick(_) => true
  }

  predicate ChangesRow(s: Step) {
    s.FinishReport? || s.FreezeIntent? || s.RecordCreated? || s.CarryOver? || s.Recover?
  }

  /** What a committing delivery transaction writes to the row it holds. */
  function RowAfter(W: World, s: Step): Report
    requires ChangesRow(s) && Enabled(W, s)
  {
    var h := W.holds[s.w];
    var row := W.rows[h.report];
    match s
    case FinishReport(_, _) => row.(status := Reported)
    case FreezeIntent(_, sawDraft, continuing) => Frozen(row, Next(row).value, h.clock, sawDraft, continuing)
    case RecordCreated(_, item) => Recorded(row, h.category, item)
    case CarryOver(_) => CarriedOver(row, h.category)
    case Recover(_, listing) =>
      match FindExisting(W.items, row, h.report, Next(row).value, Bounded(listing))
      case Found(item) => Recorded(row, Next(row).value, item)
      case _ => Reviewed(row)
  }

  function Apply(W: World, s: Step): World
    requires Enabled(W, s)
  {
    match s
    case OpenUsage(u) => W.(usages := W.usages[u := Usage(ZERO, ZERO, false, ZERO)])
    case SyncCounters(u, counters) => WithCounters(W, u, counters)
    case StageReport(_, _, _, _) => AfterStage(W, StageIn(W, s))
    case ClosePeriod(u, counters, _, _) =>
      // The handler syncs counters unless the record is billed; a raise rolls everything back.
      var synced := if W.usages[u].billed then W else WithCounters(W, u, counters);
      var staged := StageIn(synced, s);
      if staged.MissingCustomer? then W
      else
        var V := AfterStage(synced, staged);
        V.(usages := V.usages[u := V.usages[u].(billed := true)])
    case Lock(w, report) => W.(holds := W.holds[w := Holding(report, W.now)])
    case FinishReport(w, unseen) =>
      var id := W.holds[w].report;
      var u := W.rows[id].usage;
      var usage := W.usages[u];
      SetRow(W, w, RowAfter(W, s)).(usages := W.usages[u :=
          usage.(reported := Watermarks(W.rows, u, id, unseen, usage.reported))])
    case FreezeIntent(w, _, _) => SetRow(W, w, RowAfter(W, s))
    case SendCreate(w) =>
      var h := W.holds[w];
      var c := Next(W.rows[h.report]).value;
      var msg := Message(W.rows[h.report].requests[c], h.clock);
      W.(sent := W.sent + {msg}, holds := W.holds[w := Awaiting(h.report, c, msg)])
    case RecordCreated(w, _) => SetRow(W, w, RowAfter(W, s))
    case CarryOver(w) => SetRow(W, w, RowAfter(W, s))
    case Recover(w, _) => SetRow(W, w, RowAfter(W, s))
    case Release(w) => W.(holds := W.holds - {w})
    case StripeHandles(msg, keyKept) => StripeOutcome(W, msg, keyKept)
    case FinalizeInvoice(draft) => W.(finalized := W.finalized + {draft})
    case Requeue(report) => W.(rows := W.rows[report := W.rows[report].(status := Pending)])
    case Tick(seconds) => W.(now := W.now + seconds)
  }

  predicate Valid(W: World, run: seq<Step>)
    decreases |run|
  {
    run == [] || (Enabled(W, run[0]) && Valid(Apply(W, run[0]), run[1..]))
  }

  function Exec(W: World, run: seq<Step>): World
    requires Valid(W, run)
    decreases |run|
  {
    if run == [] then W else Exec(Apply(W, run[0]), run[1..])
  }

  /** Nothing reserved, sent or charged yet; usage records may carry earlier history. */
  predicate Initial(W: World) {
    && W.rows == [] && W.holds == map[] && W.sent == {} && W.replies == {} && W.items == []
    && forall u :: u in W.usages ==> W.usages[u].opening == W.usages[u].reported
  }
}
