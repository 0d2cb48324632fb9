/** The protocol is never stuck: a pending report can always be driven to its end. */
module Completion {
  import opened Wrappers
  import opened Billing
  import opened Reservation
  import opened Protocol
  import opened Delivery
  import opened Books
  import opened Progress

  /** A pending, unlocked report, an idle worker, and every open attempt inside its window. */
  ghost predicate Deliverable(W: World, id: nat, w: nat) {
    && Inv(W) && BooksOk(W) && w !in W.holds
    && id < |W.rows| && W.rows[id].status.Pending? && Free(W, id)
    && WindowsOpen(W, W.rows[id])
  }

  predicate WindowsOpen(W: World, row: Report) {
    forall c :: c in row.attempted && c !in row.items ==> W.now - row.attempted[c] < SAFE_RETRY_AGE
  }

  lemma Taken(W: World, s: Step)
    requires Inv(W) && BooksOk(W) && Enabled(W, s)
    ensures Inv(Apply(W, s)) && BooksOk(Apply(W, s))
    ensures Valid(W, [s]) && Exec(W, [s]) == Apply(W, s)
  {
    StepKeeps(W, s);
    BooksStep(W, s);
    OneStepRun(W, s);
  }

  /** The worker holds the row it read, with the clock it read. */
  ghost predicate Reading(W: World, id: nat, w: nat, row: Report) {
    && Inv(W) && BooksOk(W) && HoldsRow(W, w) && W.holds[w] == Holding(id, W.now)
    && W.rows[id] == row && row.status.Pending? && WindowsOpen(W, row)
  }

  lemma TakeLock(W: World, id: nat, w: nat)
    requires Deliverable(W, id, w)
    ensures Enabled(W, Lock(w, id)) && Reading(Apply(W, Lock(w, id)), id, w, W.rows[id])
    ensures Apply(W, Lock(w, id)).now == W.now
  {
    Taken(W, Lock(w, id));
  }

  /** After a commit of the holder the row is free again. */
  lemma Committed(W: World, s: Step, id: nat)
    requires Inv(W) && BooksOk(W) && ChangesRow(s) && Enabled(W, s) && W.holds[s.w].report == id
    requires RowAfter(W, s).status.Pending? && WindowsOpen(W, RowAfter(W, s))
    ensures Deliverable(Apply(W, s), id, s.w)
    ensures Rank(Apply(W, s).rows[id]) < Rank(W.rows[id])
  {
    Taken(W, s);
    CommitLowersRank(W, s);
    RowFrame(W, s, id);
    CommitFrees(W, s, id);
  }

  lemma CommitFrees(W: World, s: Step, id: nat)
    requires HoldsOk(W) && ChangesRow(s) && Enabled(W, s) && W.holds[s.w].report == id
    ensures var V := Apply(W, s); s.w !in V.holds && Free(V, id) && V.now == W.now
  {
    var V := Apply(W, s);
    assert V.holds == W.holds - {s.w};
    forall v | v in V.holds ensures V.holds[v].report != id {
      assert v in W.holds && W.holds[v] == V.holds[v];
    }
  }

  lemma FreezeTurn(W: World, id: nat, w: nat, row: Report, c: Category) returns (s: Step)
    requires Reading(W, id, w, row) && Next(row) == Some(c) && c in row.requests && c !in row.attempted
    ensures Enabled(W, s) && s.FreezeIntent? && s.w == w
    ensures Deliverable(Apply(W, s), id, w) && Rank(Apply(W, s).rows[id]) < Rank(row)
  {
    hide Inv, BooksOk;
    var sawDraft := row.requests[c].invoice.None? || row.requests[c].invoice.value !in W.finalized;
    s := FreezeIntent(w, sawDraft, true);
    Committed(W, s, id);
  }

  lemma SendTurn(W: World, id: nat, w: nat, row: Report, c: Category)
    requires Reading(W, id, w, row) && Next(row) == Some(c) && c in row.requests && c in row.attempted && c !in row.items
    ensures Enabled(W, SendCreate(w))
    ensures var V := Apply(W, SendCreate(w)); var msg := Message(row.requests[c], W.now);
      && Inv(V) && BooksOk(V) && V.holds == W.holds[w := Awaiting(id, c, msg)] && msg in V.sent
      && V.rows == W.rows && V.now == W.now
      && Enabled(V, StripeHandles(msg, true)) && Waiting(V, id, w, row, c, msg)
  {
    Taken(W, SendCreate(w));
  }

  /** The worker waits for this call about its row. */
  ghost predicate Waiting(W: World, id: nat, w: nat, row: Report, c: Category, msg: Message) {
    && w in W.holds && W.holds[w] == Awaiting(id, c, msg)
    && id < |W.rows| && W.rows[id] == row && row.status.Pending? && WindowsOpen(W, row)
    && c in row.requests && msg.request == row.requests[c]
  }

  lemma ReplyTurn(W: World, id: nat, w: nat, row: Report, c: Category, msg: Message, reply: Reply) returns (s: Step)
    requires Inv(W) && BooksOk(W) && Waiting(W, id, w, row, c, msg) && (msg, reply) in W.replies
    ensures Enabled(W, s) && (s.RecordCreated? || s.CarryOver?) && s.w == w
    ensures Deliverable(Apply(W, s), id, w) && Rank(Apply(W, s).rows[id]) < Rank(row)
  {
    assert ReplyOk(W, msg, reply);
    s := if reply.Created? then RecordCreated(w, reply.item) else CarryOver(w);
    Committed(W, s, id);
  }

  lemma StillWaiting(W: World, id: nat, w: nat, row: Report, c: Category, msg: Message)
    requires Waiting(W, id, w, row, c, msg) && Enabled(W, StripeHandles(msg, true))
    ensures Waiting(Apply(W, StripeHandles(msg, true)), id, w, row, c, msg)
  {
    var V := Apply(W, StripeHandles(msg, true));
    assert V.rows == W.rows && V.holds == W.holds && V.now == W.now;
  }

  lemma StripeAnswers(W: World, msg: Message) returns (reply: Reply)
    requires Enabled(W, StripeHandles(msg, true))
    ensures (msg, reply) in Apply(W, StripeHandles(msg, true)).replies
  {
    var known := ItemFor(W.items, msg.request.key);
    reply := if known.Some? then (if W.items[known.value].request == msg.request then Created(known.value) else KeyConflict)
             else if AimsAtFinalized(W, msg.request) then Rejected
             else Created(|W.items|);
  }

  /** One undisturbed turn of the loop brings the report closer to its end. */
  lemma Turn(W: World, id: nat, w: nat) returns (run: seq<Step>)
    requires Deliverable(W, id, w) && Next(W.rows[id]).Some?
    ensures Valid(W, run) && Deliverable(Exec(W, run), id, w)
    ensures Rank(Exec(W, run).rows[id]) < Rank(W.rows[id])
  {
    var row := W.rows[id];
    var c := Next(row).value;
    NextIsMissing(row);
    TakeLock(W, id, w);
    var L := Apply(W, Lock(w, id));
    OneStepRun(W, Lock(w, id));
    if c !in row.attempted {
      var s := FreezeTurn(L, id, w, row, c);
      OneStepRun(L, s);
      RunsCompose(W, [Lock(w, id)], [s]);
      run := [Lock(w, id)] + [s];
    } else {
      var sent, _ := SendAndReply(L, id, w, row, c);
      RunsCompose(W, [Lock(w, id)], sent);
      run := [Lock(w, id)] + sent;
    }
  }

  lemma SendAndReply(L: World, id: nat, w: nat, row: Report, c: Category) returns (run: seq<Step>, s: Step)
    requires Reading(L, id, w, row) && Next(row) == Some(c) && c in row.requests && c in row.attempted && c !in row.items
    ensures Valid(L, run) && Deliverable(Exec(L, run), id, w) && Rank(Exec(L, run).rows[id]) < Rank(row)
  {
    var msg := Message(row.requests[c], L.now);
    SendTurn(L, id, w, row, c);
    var S := Apply(L, SendCreate(w));
    StillWaiting(S, id, w, row, c, msg);
    Taken(S, StripeHandles(msg, true));
    var H := Apply(S, StripeHandles(msg, true));
    var reply := StripeAnswers(S, msg);
    s := ReplyTurn(H, id, w, row, c, msg, reply);
    OneStepRun(L, SendCreate(w));
    OneStepRun(S, StripeHandles(msg, true));
    OneStepRun(H, s);
    RunsCompose(S, [StripeHandles(msg, true)], [s]);
    RunsCompose(L, [SendCreate(w)], [StripeHandles(msg, true)] + [s]);
    run := [SendCreate(w)] + ([StripeHandles(msg, true)] + [s]);
  }

  /** From every such state some run of one worker and Stripe alone ends with the report reported. */
  lemma {:induction false} NeverStuck(W: World, id: nat, w: nat) returns (run: seq<Step>)
    requires Deliverable(W, id, w)
    ensures Valid(W, run) && id < |Exec(W, run).rows| && Exec(W, run).rows[id].status.Reported?
    ensures Inv(Exec(W, run)) && BooksOk(Exec(W, run))
    decreases Rank(W.rows[id])
  {
    if Next(W.rows[id]).Some? {
      var turn := Turn(W, id, w);
      var rest := NeverStuck(Exec(W, turn), id, w);
      RunsCompose(W, turn, rest);
      run := turn + rest;
    } else {
      TakeLock(W, id, w);
      var L := Apply(W, Lock(w, id));
      assert Intents(L.rows)[id].usage in L.usages;
      Taken(L, FinishReport(w, {}));
      OneStepRun(W, Lock(w, id));
      RunsCompose(W, [Lock(w, id)], [FinishReport(w, {})]);
      run := [Lock(w, id)] + [FinishReport(w, {})];
    }
  }
}
