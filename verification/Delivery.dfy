/** Safety of delivery: the invariant every step keeps, and what it means over whole runs. */
module Delivery {
  import opened Wrappers
  import opened Billing
  import opened Reservation
  import opened Protocol

  // ------------------------------------------------------------------ the invariant

  ghost predicate RequestOk(request: Request, id: nat, c: Category) {
    && request.key.report == id && request.key.category == c
    && request.charge.report == id && request.charge.category == c
    && (request.key.carryovers == 0 || (request.key.carryovers == 1 && request.invoice.None?))
  }

  ghost predicate RowOk(row: Report, id: nat) {
    && (forall c :: c in row.requests ==> RequestOk(row.requests[c], id, c))
    && (forall c :: c in row.requests ==> row.requests[c].charge.customer == row.terms.customer)
    && row.items.Keys <= row.attempted.Keys <= row.requests.Keys
    && (row.status.Reported? ==> row.items.Keys == row.requests.Keys)
  }

  ghost predicate RowsOk(W: World) {
    forall id :: 0 <= id < |W.rows| ==> RowOk(W.rows[id], id)
  }

  ghost predicate TimesOk(W: World) {
    forall id, c :: 0 <= id < |W.rows| && c in W.rows[id].attempted ==> W.rows[id].attempted[c] <= W.now
  }

  /** The row still asks for exactly this request and has declared the intent to send it. */
  ghost predicate Current(W: World, p: Request) {
    var id, c := p.key.report, p.key.category;
    id < |W.rows| && c in W.rows[id].requests && W.rows[id].requests[c] == p && c in W.rows[id].attempted
  }

  /** The row moved on to a carryover key; this request can only be rejected from now on. */
  ghost predicate Superseded(W: World, p: Request) {
    var id, c := p.key.report, p.key.category;
    && id < |W.rows| && c in W.rows[id].requests
    && p.key.carryovers < W.rows[id].requests[c].key.carryovers
    && p.charge == W.rows[id].requests[c].charge
    && AimsAtFinalized(W, p)
  }

  ghost predicate SentOk(W: World) {
    forall m :: m in W.sent ==>
      || Superseded(W, m.request)
      || (Current(W, m.request)
          && m.clock - W.rows[m.request.key.report].attempted[m.request.key.category] < SAFE_RETRY_AGE)
  }

  ghost predicate OneRequestPerKey(W: World) {
    forall m, n :: m in W.sent && n in W.sent && m.request.key == n.request.key ==> m.request == n.request
  }

  ghost predicate ItemsOk(W: World) {
    forall i :: 0 <= i < |W.items| ==>
      && Current(W, W.items[i].request)
      && W.rows[W.items[i].request.key.report].attempted[W.items[i].request.key.category] <= W.items[i].created
  }

  ghost predicate OneItemPerKey(W: World) {
    forall i, j :: 0 <= i < |W.items| && 0 <= j < |W.items| && W.items[i].request.key == W.items[j].request.key ==> i == j
  }

  ghost predicate NoItemFor(W: World, key: Key) {
    forall i :: 0 <= i < |W.items| ==> W.items[i].request.key != key
  }

  ghost predicate ReplyOk(W: World, m: Message, reply: Reply) {
    m in W.sent &&
    match reply
    case Created(i) => i < |W.items| && W.items[i].request == m.request
    case Rejected => AimsAtFinalized(W, m.request) && NoItemFor(W, m.request.key)
    case KeyConflict => false
  }

  ghost predicate RepliesOk(W: World) {
    forall m, reply :: (m, reply) in W.replies ==> ReplyOk(W, m, reply)
  }

  ghost predicate RecordedOk(W: World) {
    forall id, c :: 0 <= id < |W.rows| && c in W.rows[id].items ==>
      && W.rows[id].items[c] < |W.items| && c in W.rows[id].requests
      && W.items[W.rows[id].items[c]].request == W.rows[id].requests[c]
  }

  ghost predicate HoldOk(W: World, h: Hold) {
    && h.report < |W.rows| && W.rows[h.report].status.Pending?
    && match h
       case Holding(id, clock) =>
         clock <= W.now
       case Awaiting(id, c, msg) =>
         && msg in W.sent && c in W.rows[id].requests && msg.request == W.rows[id].requests[c]
         && c in W.rows[id].attempted && c !in W.rows[id].items
  }

  ghost predicate HoldsOk(W: World) {
    && (forall w :: w in W.holds ==> HoldOk(W, W.holds[w]))
    && (forall v, w :: v in W.holds && w in W.holds && W.holds[v].report == W.holds[w].report ==> v == w)
  }

  ghost predicate Inv(W: World) {
    && RowsOk(W) && TimesOk(W) && SentOk(W) && OneRequestPerKey(W)
    && ItemsOk(W) && OneItemPerKey(W) && RepliesOk(W) && RecordedOk(W) && HoldsOk(W)
  }

  // ------------------------------------------------------------------ small facts

  lemma {:induction false} NextMeaning(row: Report, order: seq<Category>)
    ensures NextIn(row, order).Some? ==>
      NextIn(row, order).value in row.requests && NextIn(row, order).value !in row.items
    ensures NextIn(row, order).None? ==> forall c :: c in order && c in row.requests ==> c in row.items
  {
    if order != [] {
      NextMeaning(row, order[1..]);
    }
  }

  lemma NextIsMissing(row: Report)
    ensures Next(row).Some? ==> Next(row).value in row.requests && Next(row).value !in row.items
    ensures Next(row).None? ==> forall c :: c in row.requests ==> c in row.items
  {
    NextMeaning(row, COUNTERS);
    forall c: Category ensures c in COUNTERS {
      CountersCoverAll(c);
    }
  }

  /** Who may change a row: its holder's commit, or an operator's requeue. */
  lemma RowFrame(W: World, s: Step, id: nat)
    requires Enabled(W, s) && id < |W.rows|
    ensures id < |Apply(W, s).rows|
    ensures ChangesRow(s) && W.holds[s.w].report == id ==> Apply(W, s).rows[id] == RowAfter(W, s)
    ensures s == Requeue(id) ==> Apply(W, s).rows[id] == W.rows[id].(status := Pending)
    ensures !(ChangesRow(s) && W.holds[s.w].report == id) && s != Requeue(id) ==> Apply(W, s).rows[id] == W.rows[id]
  {
  }

  /** Rows keep their requests, intents and recorded items; new rows have not started. */
  ghost predicate QuietRows(W: World, V: World) {
    && |W.rows| <= |V.rows| && W.now <= V.now && W.finalized <= V.finalized
    && (forall id :: 0 <= id < |W.rows| ==>
          && V.rows[id].requests == W.rows[id].requests && V.rows[id].attempted == W.rows[id].attempted
          && V.rows[id].items == W.rows[id].items)
    && (forall id :: |W.rows| <= id < |V.rows| ==> V.rows[id].attempted == map[] && V.rows[id].items == map[])
  }

  lemma QuietCurrent(W: World, V: World, p: Request)
    requires QuietRows(W, V)
    ensures Current(W, p) ==> Current(V, p)
    ensures Superseded(W, p) ==> Superseded(V, p)
  {
  }

  lemma QuietSent(W: World, V: World)
    requires SentOk(W) && QuietRows(W, V) && V.sent == W.sent
    ensures SentOk(V)
  {
    forall m | m in V.sent
      ensures Superseded(V, m.request)
        || (Current(V, m.request)
            && m.clock - V.rows[m.request.key.report].attempted[m.request.key.category] < SAFE_RETRY_AGE)
    {
      QuietCurrent(W, V, m.request);
    }
  }

  lemma QuietItems(W: World, V: World)
    requires ItemsOk(W) && QuietRows(W, V) && V.items == W.items
    ensures ItemsOk(V)
  {
    forall i | 0 <= i < |V.items|
      ensures Current(V, V.items[i].request)
      ensures V.rows[V.items[i].request.key.report].attempted[V.items[i].request.key.category] <= V.items[i].created
    {
      QuietCurrent(W, V, W.items[i].request);
    }
  }

  lemma QuietReplies(W: World, V: World)
    requires RepliesOk(W) && W.finalized <= V.finalized && W.sent <= V.sent && V.items == W.items && V.replies == W.replies
    ensures RepliesOk(V)
  {
    forall m, reply | (m, reply) in V.replies ensures ReplyOk(V, m, reply) {
      assert ReplyOk(W, m, reply);
    }
  }

  lemma QuietRecorded(W: World, V: World)
    requires RecordedOk(W) && QuietRows(W, V) && W.items <= V.items
    ensures RecordedOk(V)
  {
    forall id, c | 0 <= id < |V.rows| && c in V.rows[id].items
      ensures V.rows[id].items[c] < |V.items| && c in V.rows[id].requests
        && V.items[V.rows[id].items[c]].request == V.rows[id].requests[c]
    {
      assert id < |W.rows|;
    }
  }

  lemma QuietTimes(W: World, V: World)
    requires TimesOk(W) && QuietRows(W, V)
    ensures TimesOk(V)
  {
    forall id, c | 0 <= id < |V.rows| && c in V.rows[id].attempted ensures V.rows[id].attempted[c] <= V.now {
      assert id < |W.rows|;
    }
  }

  lemma QuietHold(W: World, V: World, h: Hold)
    requires HoldOk(W, h) && QuietRows(W, V) && W.sent <= V.sent && V.rows[h.report].status.Pending?
    ensures HoldOk(V, h)
  {
  }

  /** Locks stay sound as long as the locked rows stay pending. */
  lemma QuietHolds(W: World, V: World)
    requires HoldsOk(W) && QuietRows(W, V) && W.sent <= V.sent
    requires V.holds.Keys <= W.holds.Keys && forall w :: w in V.holds ==> V.holds[w] == W.holds[w]
    requires forall w :: w in V.holds ==> V.rows[W.holds[w].report].status.Pending?
    ensures HoldsOk(V)
  {
    forall w | w in V.holds ensures HoldOk(V, V.holds[w]) {
      QuietHold(W, V, W.holds[w]);
    }
  }

  /** A step that sends nothing, leaves Stripe alone and keeps all rows' delivery state. */
  lemma QuietKeeps(W: World, V: World)
    requires Inv(W) && QuietRows(W, V)
    requires V.sent == W.sent && V.replies == W.replies && V.items == W.items
    requires RowsOk(V) && HoldsOk(V)
    ensures Inv(V)
  {
    QuietSent(W, V);
    QuietItems(W, V);
    QuietReplies(W, V);
    QuietRecorded(W, V);
    QuietTimes(W, V);
  }

  /** Steps that only touch the clock, usage rows, locks or the set of finalized invoices. */
  lemma BystanderKeeps(W: World, V: World)
    requires Inv(W)
    requires V.rows == W.rows && V.sent == W.sent && V.replies == W.replies && V.items == W.items
    requires V.now >= W.now && V.finalized >= W.finalized
    requires V.holds.Keys <= W.holds.Keys && forall w :: w in V.holds ==> V.holds[w] == W.holds[w]
    ensures Inv(V)
  {
    QuietHolds(W, V);
    QuietKeeps(W, V);
  }

  lemma FreshRowOk(W: World, s: Step, V: World)
    requires s.StageReport? || s.ClosePeriod?
    requires V.rows == W.rows && StageIn(V, s).Fresh?
    ensures RowOk(StageIn(V, s).report, |W.rows|)
    ensures StageIn(V, s).report.attempted == map[]
  {
  }

  lemma AppendRowOk(W: World, row: Report)
    requires RowsOk(W) && RowOk(row, |W.rows|)
    ensures RowsOk(W.(rows := W.rows + [row]))
  {
  }

  lemma AppendQuiet(W: World, row: Report)
    requires row.attempted == map[] && row.items == map[]
    ensures QuietRows(W, W.(rows := W.rows + [row]))
  {
  }

  lemma AppendHolds(W: World, row: Report)
    requires HoldsOk(W) && row.attempted == map[] && row.items == map[]
    ensures HoldsOk(W.(rows := W.rows + [row]))
  {
    var V := W.(rows := W.rows + [row]);
    AppendQuiet(W, row);
    forall w | w in V.holds ensures V.rows[W.holds[w].report].status.Pending? {
      assert HoldOk(W, W.holds[w]);
    }
    QuietHolds(W, V);
  }

  lemma AppendRowKeeps(W: World, row: Report)
    requires Inv(W) && RowOk(row, |W.rows|) && row.attempted == map[]
    ensures Inv(W.(rows := W.rows + [row]))
  {
    assert row.items == map[] by { assert row.items.Keys == {}; }
    AppendRowOk(W, row);
    AppendQuiet(W, row);
    AppendHolds(W, row);
    QuietKeeps(W, W.(rows := W.rows + [row]));
  }

  lemma LockKeeps(W: World, s: Step)
    requires Inv(W) && s.Lock? && Enabled(W, s)
    ensures Inv(Apply(W, s))
  {
    var V := Apply(W, s);
    forall w | w in V.holds ensures HoldOk(V, V.holds[w]) {
      if w != s.w {
        QuietHold(W, V, W.holds[w]);
      }
    }
    QuietKeeps(W, V);
  }

  lemma UnfinishedRowOk(row: Report, id: nat, status: Status)
    requires RowOk(row, id) && !status.Reported?
    ensures RowOk(row.(status := status), id)
  {
  }

  lemma ReplacedRowOk(W: World, V: World, id: nat, row: Report)
    requires RowsOk(W) && id < |W.rows| && RowOk(row, id) && V.rows == W.rows[id := row]
    ensures RowsOk(V)
  {
  }

  lemma RequeueRows(W: World, report: nat)
    requires RowsOk(W) && report < |W.rows| && W.rows[report].status.NeedsReview?
    ensures RowsOk(Apply(W, Requeue(report)))
  {
    UnfinishedRowOk(W.rows[report], report, Pending);
    ReplacedRowOk(W, Apply(W, Requeue(report)), report, W.rows[report].(status := Pending));
  }

  lemma RequeueQuiet(W: World, report: nat)
    requires report < |W.rows| && W.rows[report].status.NeedsReview?
    ensures QuietRows(W, Apply(W, Requeue(report)))
  {
  }

  lemma RequeueHolds(W: World, report: nat)
    requires HoldsOk(W) && report < |W.rows| && W.rows[report].status.NeedsReview?
    ensures HoldsOk(Apply(W, Requeue(report)))
  {
    var V := Apply(W, Requeue(report));
    forall w | w in V.holds ensures HoldOk(V, V.holds[w]) {
      assert HoldOk(W, W.holds[w]);
    }
  }

  lemma RequeueKeeps(W: World, s: Step)
    requires Inv(W) && s.Requeue? && Enabled(W, s)
    ensures Inv(Apply(W, s))
  {
    RequeueRows(W, s.report);
    RequeueQuiet(W, s.report);
    RequeueHolds(W, s.report);
    QuietKeeps(W, Apply(W, s));
  }

  // ------------------------------------------------------------------ updating a held row

  ghost predicate Untouched(old_: Report, new_: Report, c: Category)
    requires c in old_.requests && c in new_.requests
  {
    && new_.requests[c] == old_.requests[c]
    && (c in old_.attempted ==> c in new_.attempted && new_.attempted[c] == old_.attempted[c])
  }

  ghost predicate NeverSent(old_: Report, new_: Report, c: Category)
    requires c in old_.requests && c in new_.requests
  {
    && c !in old_.attempted && new_.requests[c].key == old_.requests[c].key
    && new_.requests[c].charge == old_.requests[c].charge
  }

  ghost predicate ReKeyed(W: World, old_: Report, new_: Report, c: Category)
    requires c in old_.requests && c in new_.requests
  {
    && AimsAtFinalized(W, old_.requests[c]) && NoItemFor(W, old_.requests[c].key)
    && old_.requests[c].key.carryovers < new_.requests[c].key.carryovers
    && new_.requests[c].charge == old_.requests[c].charge
  }

  /** The three ways in which a delivery transaction may change a category of its row. */
  ghost predicate RowStep(W: World, id: nat, new_: Report)
    requires id < |W.rows|
  {
    var old_ := W.rows[id];
    && RowOk(new_, id) && new_.requests.Keys == old_.requests.Keys
    && (forall c :: c in old_.requests ==>
          Untouched(old_, new_, c) || NeverSent(old_, new_, c) || ReKeyed(W, old_, new_, c))
    && (forall c :: c in new_.attempted ==> new_.attempted[c] <= W.now)
    && (forall c :: c in new_.items ==>
          new_.items[c] < |W.items| && W.items[new_.items[c]].request == new_.requests[c])
  }

  /** What a row step may do to one category, read off the row itself. */
  lemma RowStepAt(W: World, id: nat, new_: Report, c: Category)
    requires id < |W.rows| && RowStep(W, id, new_) && c in W.rows[id].requests
    ensures c in new_.requests
    ensures Untouched(W.rows[id], new_, c) || NeverSent(W.rows[id], new_, c) || ReKeyed(W, W.rows[id], new_, c)
  {
    assert c in new_.requests.Keys;
  }

  lemma RowStepSupersedes(W: World, w: nat, new_: Report, p: Request)
    requires w in W.holds && W.holds[w].report < |W.rows| && RowStep(W, W.holds[w].report, new_)
    requires Superseded(W, p)
    ensures Superseded(SetRow(W, w, new_), p)
  {
    if p.key.report == W.holds[w].report {
      RowStepAt(W, p.key.report, new_, p.key.category);
    }
  }

  lemma RowStepCurrent(W: World, w: nat, new_: Report, p: Request)
    requires w in W.holds && W.holds[w].report < |W.rows| && RowStep(W, W.holds[w].report, new_)
    requires Current(W, p)
    ensures var V := SetRow(W, w, new_);
      || (Current(V, p) && V.rows[p.key.report].attempted[p.key.category]
                           == W.rows[p.key.report].attempted[p.key.category])
      || (Superseded(V, p) && NoItemFor(W, p.key))
  {
    if p.key.report == W.holds[w].report {
      RowStepAt(W, p.key.report, new_, p.key.category);
    }
  }

  lemma SetRowSent(W: World, w: nat, new_: Report)
    requires w in W.holds && W.holds[w].report < |W.rows| && RowStep(W, W.holds[w].report, new_)
    requires SentOk(W)
    ensures SentOk(SetRow(W, w, new_))
  {
    var V := SetRow(W, w, new_);
    forall m | m in V.sent
      ensures Superseded(V, m.request)
        || (Current(V, m.request)
            && m.clock - V.rows[m.request.key.report].attempted[m.request.key.category] < SAFE_RETRY_AGE)
    {
      if Superseded(W, m.request) {
        RowStepSupersedes(W, w, new_, m.request);
      } else {
        RowStepCurrent(W, w, new_, m.request);
      }
    }
  }

  lemma SetRowItems(W: World, w: nat, new_: Report)
    requires w in W.holds && W.holds[w].report < |W.rows| && RowStep(W, W.holds[w].report, new_)
    requires ItemsOk(W)
    ensures ItemsOk(SetRow(W, w, new_))
  {
    var V := SetRow(W, w, new_);
    forall i | 0 <= i < |V.items|
      ensures Current(V, V.items[i].request)
      ensures V.rows[V.items[i].request.key.report].attempted[V.items[i].request.key.category] <= V.items[i].created
    {
      RowStepCurrent(W, w, new_, W.items[i].request);
    }
  }

  lemma SetRowRecorded(W: World, w: nat, new_: Report)
    requires w in W.holds && W.holds[w].report < |W.rows| && RowStep(W, W.holds[w].report, new_)
    requires RecordedOk(W)
    ensures RecordedOk(SetRow(W, w, new_))
  {
    var V := SetRow(W, w, new_);
    forall id, c | 0 <= id < |V.rows| && c in V.rows[id].items
      ensures V.rows[id].items[c] < |V.items| && c in V.rows[id].requests
        && V.items[V.rows[id].items[c]].request == V.rows[id].requests[c]
    {
      if id == W.holds[w].report {
        assert c in new_.items.Keys;
      }
    }
  }

  lemma SetRowTimes(W: World, w: nat, new_: Report)
    requires w in W.holds && W.holds[w].report < |W.rows| && RowStep(W, W.holds[w].report, new_)
    requires RowsOk(W) && TimesOk(W)
    ensures RowsOk(SetRow(W, w, new_)) && TimesOk(SetRow(W, w, new_))
  {
    ReplacedRowOk(W, SetRow(W, w, new_), W.holds[w].report, new_);
  }

  lemma SetRowHolds(W: World, w: nat, new_: Report)
    requires HoldsOk(W) && w in W.holds && W.holds[w].report < |W.rows|
    ensures HoldsOk(SetRow(W, w, new_))
  {
    var V := SetRow(W, w, new_);
    forall v | v in V.holds ensures HoldOk(V, V.holds[v]) {
      assert HoldOk(W, W.holds[v]) && W.holds[v].report != W.holds[w].report;
    }
  }

  lemma SetRowKeeps(W: World, w: nat, new_: Report)
    requires Inv(W) && w in W.holds && W.holds[w].report < |W.rows| && RowStep(W, W.holds[w].report, new_)
    ensures Inv(SetRow(W, w, new_))
  {
    SetRowTimes(W, w, new_);
    SetRowSent(W, w, new_);
    SetRowItems(W, w, new_);
    SetRowRecorded(W, w, new_);
    SetRowHolds(W, w, new_);
    QuietReplies(W, SetRow(W, w, new_));
  }

  lemma FinishRow(W: World, s: Step)
    requires Inv(W) && s.FinishReport? && Enabled(W, s)
    ensures var id := W.holds[s.w].report; RowStep(W, id, W.rows[id].(status := Reported))
  {
    var id := W.holds[s.w].report;
    NextIsMissing(W.rows[id]);
    assert RowOk(W.rows[id], id);
  }

  lemma FreezeRow(W: World, s: Step)
    requires Inv(W) && s.FreezeIntent? && Enabled(W, s)
    ensures var id := W.holds[s.w].report; var row := W.rows[id];
      RowStep(W, id, Frozen(row, Next(row).value, W.holds[s.w].clock, s.sawDraft, s.continuing))
  {
    var id := W.holds[s.w].report;
    var row := W.rows[id];
    var c := Next(row).value;
    var new_ := Frozen(row, c, W.holds[s.w].clock, s.sawDraft, s.continuing);
    assert HoldOk(W, W.holds[s.w]);
    if new_ == Reviewed(row) {
      ReviewRow(W, id);
    } else {
      assert RowOk(row, id);
      assert RequestOk(row.requests[c], id, c);
      OneCategoryChanged(W, id, c, new_);
    }
  }

  /** A row step may be checked at the one category it changes. */
  lemma OneCategoryChanged(W: World, id: nat, c: Category, new_: Report)
    requires RowsOk(W) && TimesOk(W) && RecordedOk(W)
    requires id < |W.rows| && c in W.rows[id].requests && c !in W.rows[id].items
    requires var old_ := W.rows[id];
      && !old_.status.Reported?
      && new_.requests.Keys == old_.requests.Keys && c in new_.requests && RequestOk(new_.requests[c], id, c)
      && new_.requests[c].charge == old_.requests[c].charge
      && new_ == old_.(requests := old_.requests[c := new_.requests[c]], attempted := new_.attempted)
      && new_.attempted.Keys <= old_.attempted.Keys + {c}
      && (forall d :: d in old_.attempted && d != c ==> d in new_.attempted && new_.attempted[d] == old_.attempted[d])
      && (c in new_.attempted ==> new_.attempted[c] <= W.now)
      && (NeverSent(old_, new_, c) || ReKeyed(W, old_, new_, c))
    ensures RowStep(W, id, new_)
  {
    var old_ := W.rows[id];
    ChangedRowOk(old_, new_, id, c) by { assert RowOk(old_, id); }
    ChangedTimes(W, id, c, new_);
    forall d | d in old_.requests ensures Untouched(old_, new_, d) || NeverSent(old_, new_, d) || ReKeyed(W, old_, new_, d) {
      if d != c {
        OtherUntouched(old_, new_, c, d);
      }
    }
  }

  lemma OtherUntouched(old_: Report, new_: Report, c: Category, d: Category)
    requires d in old_.requests && d != c && c in new_.requests
    requires new_.requests == old_.requests[c := new_.requests[c]]
    requires d in old_.attempted ==> d in new_.attempted && new_.attempted[d] == old_.attempted[d]
    ensures Untouched(old_, new_, d)
  {
  }

  lemma ChangedTimes(W: World, id: nat, c: Category, new_: Report)
    requires TimesOk(W) && RecordedOk(W) && id < |W.rows| && c !in W.rows[id].items
    requires new_.items == W.rows[id].items
    requires forall d :: d in W.rows[id].requests && d != c ==> d in new_.requests && new_.requests[d] == W.rows[id].requests[d]
    requires forall d :: d in new_.attempted && d != c ==>
      d in W.rows[id].attempted && new_.attempted[d] == W.rows[id].attempted[d]
    requires c in new_.attempted ==> new_.attempted[c] <= W.now
    ensures forall d :: d in new_.attempted ==> new_.attempted[d] <= W.now
    ensures forall d :: d in new_.items ==>
      d in new_.requests && new_.items[d] < |W.items| && W.items[new_.items[d]].request == new_.requests[d]
  {
    forall d | d in new_.items
      ensures d in new_.requests && new_.items[d] < |W.items| && W.items[new_.items[d]].request == new_.requests[d]
    {
      assert d in W.rows[id].items;
    }
  }

  lemma ChangedRowOk(old_: Report, new_: Report, id: nat, c: Category)
    requires RowOk(old_, id) && !old_.status.Reported? && c in old_.requests && c !in old_.items
    requires c in new_.requests && RequestOk(new_.requests[c], id, c)
    requires new_.requests == old_.requests[c := new_.requests[c]] && new_.requests[c].charge == old_.requests[c].charge
    requires new_.items == old_.items && new_.status == old_.status && new_.terms == old_.terms
    requires new_.attempted.Keys <= old_.attempted.Keys + {c}
    requires forall d :: d in old_.attempted && d != c ==> d in new_.attempted
    ensures RowOk(new_, id)
  {
    forall d | d in new_.requests
      ensures RequestOk(new_.requests[d], id, d) && new_.requests[d].charge.customer == new_.terms.customer
    {
      assert d != c ==> new_.requests[d] == old_.requests[d] && RequestOk(old_.requests[d], id, d);
    }
    forall d | d in new_.items.Keys ensures d in new_.attempted.Keys {
      assert d in old_.attempted.Keys && d != c;
    }
  }

  lemma RecordRow(W: World, w: nat, c: Category, item: nat)
    requires Inv(W) && w in W.holds && W.holds[w].report < |W.rows|
    requires var row := W.rows[W.holds[w].report];
      c in row.requests && c in row.attempted && item < |W.items| && W.items[item].request == row.requests[c]
      && !row.status.Reported?
    ensures RowStep(W, W.holds[w].report, Recorded(W.rows[W.holds[w].report], c, item))
  {
    var id := W.holds[w].report;
    assert RowOk(W.rows[id], id);
    assert forall d :: d in W.rows[id].requests ==> Untouched(W.rows[id], Recorded(W.rows[id], c, item), d);
  }

  lemma CarryOverRow(W: World, s: Step)
    requires Inv(W) && s.CarryOver? && Enabled(W, s)
    ensures var id := W.holds[s.w].report; RowStep(W, id, CarriedOver(W.rows[id], W.holds[s.w].category))
  {
    var h := W.holds[s.w];
    var row := W.rows[h.report];
    assert HoldOk(W, h);
    assert ReplyOk(W, h.msg, Rejected);
    assert RowOk(row, h.report);
    assert RequestOk(row.requests[h.category], h.report, h.category);
    OneCategoryChanged(W, h.report, h.category, CarriedOver(row, h.category));
  }

  lemma ReviewRow(W: World, id: nat)
    requires Inv(W) && id < |W.rows|
    ensures RowStep(W, id, Reviewed(W.rows[id]))
  {
    assert RowOk(W.rows[id], id);
    assert forall c :: c in W.rows[id].requests ==> Untouched(W.rows[id], Reviewed(W.rows[id]), c);
  }

  lemma {:induction false} SearchMeaning(W: World, id: nat, c: Category, listing: seq<Listed>)
    requires Inv(W) && id < |W.rows| && c in W.rows[id].requests
    requires forall l :: l in listing && l.Ours? ==> l.item < |W.items|
    ensures var r := FindExisting(W.items, W.rows[id], id, c, listing);
      && !r.Mismatch?
      && (r.Found? ==> r.item < |W.items| && W.items[r.item].request == W.rows[id].requests[c])
      && (r.NotFound? <==> forall l :: l in listing && l.Ours? ==> W.items[l.item].request != W.rows[id].requests[c])
  {
    if listing != [] {
      var l := listing[0];
      assert RequestOk(W.rows[id].requests[c], id, c) by { assert RowOk(W.rows[id], id); }
      if l.Ours? && W.items[l.item].request.charge.report == id && W.items[l.item].request.charge.category == c {
        ItemIsCurrent(W, l.item);
      } else {
        SearchMeaning(W, id, c, listing[1..]);
        assert forall k :: k in listing <==> k == l || k in listing[1..];
      }
    }
  }

  /** A charge that reached Stripe is the one its row asks for. */
  lemma ItemIsCurrent(W: World, i: nat)
    requires Inv(W) && i < |W.items|
    ensures var charge := W.items[i].request.charge;
      && charge.report < |W.rows| && charge.category in W.rows[charge.report].requests
      && W.rows[charge.report].requests[charge.category] == W.items[i].request
      && charge.category in W.rows[charge.report].attempted
  {
    var p := W.items[i].request;
    assert Current(W, p);
    assert RowOk(W.rows[p.key.report], p.key.report);
    assert RequestOk(p, p.key.report, p.key.category);
  }

  lemma RecoverKeeps(W: World, s: Step)
    requires Inv(W) && s.Recover? && Enabled(W, s)
    ensures Inv(Apply(W, s))
  {
    var id := W.holds[s.w].report;
    var row := W.rows[id];
    var c := Next(row).value;
    assert HoldOk(W, W.holds[s.w]);
    SearchMeaning(W, id, c, Bounded(s.listing));
    match FindExisting(W.items, row, id, c, Bounded(s.listing)) {
      case Found(item) =>
        RecordRow(W, s.w, c, item);
        SetRowKeeps(W, s.w, Recorded(row, c, item));
      case NotFound =>
        ReviewRow(W, id);
        SetRowKeeps(W, s.w, Reviewed(row));
    }
  }

  // ------------------------------------------------------------------ calls to Stripe

  /** The call a worker is about to make is the one its row asks for. */
  lemma SendsCurrent(W: World, s: Step)
    requires RowsOk(W) && s.SendCreate? && Enabled(W, s)
    ensures var h := W.holds[s.w]; var c := Next(W.rows[h.report]).value;
      var p := W.rows[h.report].requests[c];
      && c in W.rows[h.report].attempted && c !in W.rows[h.report].items
      && p.key.report == h.report && p.key.category == c && Current(W, p)
  {
    var h := W.holds[s.w];
    NextIsMissing(W.rows[h.report]);
    assert RowOk(W.rows[h.report], h.report);
    assert RequestOk(W.rows[h.report].requests[Next(W.rows[h.report]).value], h.report, Next(W.rows[h.report]).value);
  }

  lemma SendHolds(W: World, s: Step)
    requires RowsOk(W) && HoldsOk(W) && s.SendCreate? && Enabled(W, s)
    ensures HoldsOk(Apply(W, s))
  {
    var V := Apply(W, s);
    SendsCurrent(W, s);
    forall w | w in V.holds ensures HoldOk(V, V.holds[w]) {
      assert HoldOk(W, W.holds[w]);
      if w != s.w {
        QuietHold(W, V, W.holds[w]);
      }
    }
  }

  lemma SendKeeps(W: World, s: Step)
    requires Inv(W) && s.SendCreate? && Enabled(W, s)
    ensures Inv(Apply(W, s))
  {
    var V := Apply(W, s);
    var h := W.holds[s.w];
    SendsCurrent(W, s);
    SendRecords(W, V, Message(W.rows[h.report].requests[Next(W.rows[h.report]).value], h.clock));
    SendHolds(W, s);
    QuietItems(W, V);
    QuietReplies(W, V);
    QuietRecorded(W, V);
    QuietTimes(W, V);
  }

  lemma SendRecords(W: World, V: World, msg: Message)
    requires SentOk(W) && OneRequestPerKey(W) && Current(W, msg.request)
    requires msg.clock - W.rows[msg.request.key.report].attempted[msg.request.key.category] < SAFE_RETRY_AGE
    requires V == W.(sent := W.sent + {msg}, holds := V.holds)
    ensures SentOk(V) && OneRequestPerKey(V)
  {
    QuietSent(W, V.(sent := W.sent));
    forall m | m in V.sent
      ensures Superseded(V, m.request)
        || (Current(V, m.request)
            && m.clock - V.rows[m.request.key.report].attempted[m.request.key.category] < SAFE_RETRY_AGE)
    {
      if m == msg {
        QuietCurrent(W, V, msg.request);
      } else {
        QuietCurrent(W, V, m.request);
      }
    }
    forall m | m in W.sent && m.request.key == msg.request.key ensures m.request == msg.request {
      assert Superseded(W, m.request) || Current(W, m.request);
    }
  }

  /** Inside the call window Stripe still remembers any success under the same key. */
  lemma KeyStillLive(W: World, s: Step, i: nat)
    requires Inv(W) && s.StripeHandles? && Enabled(W, s)
    requires i < |W.items| && W.items[i].request.key == s.msg.request.key
    ensures W.items[i].request == s.msg.request && W.now < W.items[i].created + KEY_LIFETIME
  {
    assert Current(W, W.items[i].request);
    assert Superseded(W, s.msg.request) || Current(W, s.msg.request);
  }

  lemma StripeReplays(W: World, s: Step)
    requires Inv(W) && s.StripeHandles? && Enabled(W, s) && ItemFor(W.items, s.msg.request.key).Some?
    ensures var i := ItemFor(W.items, s.msg.request.key).value;
      ReplyOk(W, s.msg, Created(i)) && Apply(W, s) == W.(replies := W.replies + {(s.msg, Created(i))})
  {
    KeyStillLive(W, s, ItemFor(W.items, s.msg.request.key).value);
  }

  lemma StripeKeeps(W: World, s: Step)
    requires Inv(W) && s.StripeHandles? && Enabled(W, s)
    ensures Inv(Apply(W, s))
  {
    var p := s.msg.request;
    var known := ItemFor(W.items, p.key);
    if known.Some? {
      StripeReplays(W, s);
      ReplyKeeps(W, s.msg, Created(known.value));
    } else if AimsAtFinalized(W, p) {
      ReplyKeeps(W, s.msg, Rejected);
    } else {
      CreateKeeps(W, s.msg);
    }
  }

  lemma ReplyKeeps(W: World, m: Message, reply: Reply)
    requires Inv(W) && ReplyOk(W, m, reply)
    ensures Inv(W.(replies := W.replies + {(m, reply)}))
  {
    var V := W.(replies := W.replies + {(m, reply)});
    forall n, r | (n, r) in V.replies ensures ReplyOk(V, n, r) {
      assert ReplyOk(W, n, r);
    }
    QuietHolds(W, V);
    QuietSent(W, V);
    QuietItems(W, V);
    QuietRecorded(W, V);
    QuietTimes(W, V);
  }

  lemma CreateKeeps(W: World, m: Message)
    requires Inv(W) && m in W.sent && !AimsAtFinalized(W, m.request)
    requires NoItemFor(W, m.request.key)
    ensures Inv(W.(items := W.items + [Item(m.request, W.now)], replies := W.replies + {(m, Created(|W.items|))}))
  {
    var V := W.(items := W.items + [Item(m.request, W.now)], replies := W.replies + {(m, Created(|W.items|))});
    forall n, r | (n, r) in V.replies ensures ReplyOk(V, n, r) {
      if !(n == m && r == Created(|W.items|)) {
        assert ReplyOk(W, n, r);
        if r.Rejected? {
          assert n.request.key != m.request.key;
        }
      }
    }
    QuietHolds(W, V);
    QuietSent(W, V);
    QuietRecorded(W, V);
    QuietTimes(W, V);
    assert Superseded(W, m.request) || Current(W, m.request);
    NewItem(W, V, m);
  }

  lemma NewItem(W: World, V: World, m: Message)
    requires ItemsOk(W) && OneItemPerKey(W) && TimesOk(W) && Current(W, m.request) && NoItemFor(W, m.request.key)
    requires V == W.(items := W.items + [Item(m.request, W.now)], replies := V.replies)
    ensures ItemsOk(V) && OneItemPerKey(V)
  {
    QuietItems(W, V.(items := W.items));
    forall i | 0 <= i < |V.items|
      ensures Current(V, V.items[i].request)
      ensures V.rows[V.items[i].request.key.report].attempted[V.items[i].request.key.category] <= V.items[i].created
    {
      if i < |W.items| {
        QuietCurrent(W, V, W.items[i].request);
      } else {
        QuietCurrent(W, V, m.request);
      }
    }
  }

  // ------------------------------------------------------------------ every step, every run

  lemma StageKeeps(W: World, s: Step)
    requires Inv(W) && s.StageReport? && Enabled(W, s)
    ensures Inv(Apply(W, s))
  {
    var staged := StageIn(W, s);
    if staged.Fresh? {
      FreshRowOk(W, s, W);
      AppendRowKeeps(W, staged.report);
    }
  }

  lemma CloseKeeps(W: World, s: Step)
    requires Inv(W) && s.ClosePeriod? && Enabled(W, s)
    ensures Inv(Apply(W, s))
  {
    var synced := if W.usages[s.u].billed then W else WithCounters(W, s.u, s.counters);
    BystanderKeeps(W, synced);
    var staged := StageIn(synced, s);
    if staged.Fresh? {
      FreshRowOk(W, s, synced);
      AppendRowKeeps(synced, staged.report);
    }
    BystanderKeeps(AfterStage(synced, staged), Apply(W, s));
  }

  lemma FinishKeeps(W: World, s: Step)
    requires Inv(W) && s.FinishReport? && Enabled(W, s)
    ensures Inv(Apply(W, s))
  {
    FinishRow(W, s);
    var row := W.rows[W.holds[s.w].report].(status := Reported);
    SetRowKeeps(W, s.w, row);
    BystanderKeeps(SetRow(W, s.w, row), Apply(W, s));
  }

  lemma FreezeKeeps(W: World, s: Step)
    requires Inv(W) && s.FreezeIntent? && Enabled(W, s)
    ensures Inv(Apply(W, s))
  {
    FreezeRow(W, s);
    var row := W.rows[W.holds[s.w].report];
    SetRowKeeps(W, s.w, Frozen(row, Next(row).value, W.holds[s.w].clock, s.sawDraft, s.continuing));
  }

  lemma ReplyTakenKeeps(W: World, s: Step)
    requires Inv(W) && (s.RecordCreated? || s.CarryOver?) && Enabled(W, s)
    ensures Inv(Apply(W, s))
  {
    var h := W.holds[s.w];
    if s.RecordCreated? {
      assert HoldOk(W, h);
      assert ReplyOk(W, h.msg, Created(s.item));
      RecordRow(W, s.w, h.category, s.item);
      SetRowKeeps(W, s.w, Recorded(W.rows[h.report], h.category, s.item));
    } else {
      CarryOverRow(W, s);
      SetRowKeeps(W, s.w, CarriedOver(W.rows[h.report], h.category));
    }
  }

  lemma StepKeeps(W: World, s: Step)
    requires Inv(W) && Enabled(W, s)
    ensures Inv(Apply(W, s))
  {
    match s
    case StageReport(_, _, _, _) => StageKeeps(W, s);
    case ClosePeriod(_, _, _, _) => CloseKeeps(W, s);
    case Lock(_, _) => LockKeeps(W, s);
    case FinishReport(_, _) => FinishKeeps(W, s);
    case FreezeIntent(_, _, _) => FreezeKeeps(W, s);
    case SendCreate(_) => SendKeeps(W, s);
    case RecordCreated(_, _) => ReplyTakenKeeps(W, s);
    case CarryOver(_) => ReplyTakenKeeps(W, s);
    case Recover(_, _) => RecoverKeeps(W, s);
    case StripeHandles(_, _) => StripeKeeps(W, s);
    case Requeue(_) => RequeueKeeps(W, s);
    case OpenUsage(_) => BystanderKeeps(W, Apply(W, s));
    case SyncCounters(_, _) => BystanderKeeps(W, Apply(W, s));
    case Release(_) => BystanderKeeps(W, Apply(W, s));
    case FinalizeInvoice(_) => BystanderKeeps(W, Apply(W, s));
    case Tick(_) => BystanderKeeps(W, Apply(W, s));
  }

  lemma {:induction false} RunKeeps(W: World, run: seq<Step>)
    requires Inv(W) && Valid(W, run)
    ensures Inv(Exec(W, run))
    decreases |run|
  {
    if run != [] {
      StepKeeps(W, run[0]);
      RunKeeps(Apply(W, run[0]), run[1..]);
    }
  }
}
