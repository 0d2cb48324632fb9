/** The reservation ledger and the confirmed counts under every step of the protocol. */
module Books {
  import opened Wrappers
  import opened Billing
  import opened Reservation
  import opened Protocol
  import opened Delivery

  /** No confirmed count has moved past a charge that is not recorded yet. */
  ghost predicate NoSkip(W: World) {
    forall id, c :: 0 <= id < |W.rows| && c in W.rows[id].requests && c !in W.rows[id].items && W.rows[id].usage in W.usages ==>
      W.usages[W.rows[id].usage].reported.Get(c) <= W.rows[id].requests[c].charge.from
  }

  ghost predicate AllReported(rows: seq<Report>, u: nat) {
    forall id :: 0 <= id < |rows| && rows[id].usage == u ==> rows[id].status.Reported?
  }

  ghost predicate BaseIs(ledger: seq<Intent>, u: nat, c: Category, base: int) {
    forall k :: 0 <= k < |ledger| && ledger[k].usage == u ==> ledger[k].terms.pricing.base.Get(c) == base
  }

  ghost predicate SettledAt(ledger: seq<Intent>, usage: Usage, u: nat, c: Category) {
    forall base :: BaseIs(ledger, u, c, base) ==>
      Over(base, usage.reported.Get(c)) == Over(base, Mark(ledger, u, usage.opening.Get(c), c))
  }

  /** Once every report of a record is reported, its confirmed overage is all that was reserved. */
  ghost predicate Settled(W: World) {
    forall u, c: Category :: u in W.usages && AllReported(W.rows, u) ==> SettledAt(Intents(W.rows), W.usages[u], u, c)
  }

  ghost predicate BooksOk(W: World) {
    && LedgerOk(Intents(W.rows), W.usages) && ReportedOk(Intents(W.rows), W.usages)
    && NoSkip(W) && Settled(W)
  }

  // ------------------------------------------------------------------ frames

  ghost predicate SameAccount(a: Usage, b: Usage) {
    a.opening == b.opening && a.reported == b.reported
  }

  lemma LedgerFrame(ledger: seq<Intent>, old_: map<nat, Usage>, new_: map<nat, Usage>)
    requires LedgerOk(ledger, old_)
    requires forall u :: u in old_ ==> u in new_ && new_[u].opening == old_[u].opening
    ensures LedgerOk(ledger, new_)
  {
    forall k | 0 <= k < |ledger|
      ensures ledger[k].usage in new_ && Continues(ledger[..k], k, ledger[k], new_[ledger[k].usage].opening)
    {
    }
  }

  lemma {:induction false} MarkOfUnused(ledger: seq<Intent>, u: nat, s: int, c: Category)
    requires forall k :: 0 <= k < |ledger| ==> ledger[k].usage != u
    ensures Mark(ledger, u, s, c) == s
  {
    if ledger != [] {
      MarkOfUnused(ledger[..|ledger| - 1], u, s, c);
    }
  }

  ghost predicate OnlyProgress(W: World, V: World) {
    && Intents(V.rows) == Intents(W.rows) && |V.rows| == |W.rows|
    && (forall id :: 0 <= id < |W.rows| ==> W.rows[id].items.Keys <= V.rows[id].items.Keys)
    && (forall id :: 0 <= id < |W.rows| && V.rows[id].status.Reported? ==> W.rows[id].status.Reported?)
    && (forall u :: u in W.usages ==> u in V.usages && SameAccount(W.usages[u], V.usages[u]))
    && (forall u :: u in V.usages && u !in W.usages ==> V.usages[u].opening == V.usages[u].reported)
  }

  lemma IntentsAgree(W: World, V: World, id: nat, c: Category)
    requires OnlyProgress(W, V) && id < |W.rows|
    ensures W.rows[id].usage == V.rows[id].usage
    ensures W.rows[id].terms == V.rows[id].terms
    ensures c in W.rows[id].requests <==> c in V.rows[id].requests
    ensures c in W.rows[id].requests ==> W.rows[id].requests[c].charge == V.rows[id].requests[c].charge
  {
    assert Intents(W.rows)[id] == IntentOf(W.rows[id]) && Intents(V.rows)[id] == IntentOf(V.rows[id]);
    assert c in W.rows[id].requests <==> c in IntentOf(W.rows[id]).charges;
    assert c in V.rows[id].requests <==> c in IntentOf(V.rows[id]).charges;
  }

  lemma ProgressReported(W: World, V: World)
    requires BooksOk(W) && OnlyProgress(W, V)
    ensures ReportedOk(Intents(V.rows), V.usages)
  {
    forall u, c: Category | u in V.usages
      ensures V.usages[u].opening.Get(c) <= V.usages[u].reported.Get(c)
                <= Mark(Intents(V.rows), u, V.usages[u].opening.Get(c), c)
    {
      if u in W.usages {
        assert SameAccount(W.usages[u], V.usages[u]);
      } else {
        MarkIsUpperBound(Intents(V.rows), u, V.usages[u].opening.Get(c), c);
      }
    }
  }

  lemma ProgressNoSkip(W: World, V: World)
    requires BooksOk(W) && OnlyProgress(W, V)
    ensures NoSkip(V)
  {
    forall id, c | 0 <= id < |V.rows| && c in V.rows[id].requests && c !in V.rows[id].items && V.rows[id].usage in V.usages
      ensures V.usages[V.rows[id].usage].reported.Get(c) <= V.rows[id].requests[c].charge.from
    {
      IntentsAgree(W, V, id, c);
      assert Intents(W.rows)[id].usage in W.usages;
      assert SameAccount(W.usages[W.rows[id].usage], V.usages[W.rows[id].usage]);
      assert c !in W.rows[id].items.Keys;
    }
  }

  lemma ProgressSettled(W: World, V: World)
    requires BooksOk(W) && OnlyProgress(W, V)
    ensures Settled(V)
  {
    forall u, c: Category | u in V.usages && AllReported(V.rows, u)
      ensures SettledAt(Intents(V.rows), V.usages[u], u, c)
    {
      if u in W.usages {
        forall id | 0 <= id < |W.rows| && W.rows[id].usage == u ensures W.rows[id].status.Reported? {
          IntentsAgree(W, V, id, c);
        }
        assert AllReported(W.rows, u);
        assert SettledAt(Intents(W.rows), W.usages[u], u, c);
        assert SameAccount(W.usages[u], V.usages[u]);
      } else {
        forall k | 0 <= k < |V.rows| ensures Intents(V.rows)[k].usage != u {
          assert Intents(W.rows)[k].usage in W.usages;
        }
        MarkOfUnused(Intents(V.rows), u, V.usages[u].opening.Get(c), c);
      }
    }
  }

  lemma ProgressKeeps(W: World, V: World)
    requires BooksOk(W) && OnlyProgress(W, V)
    ensures BooksOk(V)
  {
    LedgerFrame(Intents(W.rows), W.usages, V.usages) by {
      forall u | u in W.usages ensures u in V.usages && V.usages[u].opening == W.usages[u].opening {
        assert SameAccount(W.usages[u], V.usages[u]);
      }
    }
    ProgressReported(W, V);
    ProgressNoSkip(W, V);
    ProgressSettled(W, V);
  }

  // ------------------------------------------------------------------ row updates keep the intent

  lemma UpdatedRowIntents(rows: seq<Report>, id: nat, row: Report)
    requires id < |rows| && IntentOf(row) == IntentOf(rows[id])
    ensures Intents(rows[id := row]) == Intents(rows)
  {
  }

  lemma RowChangesKeepIntent(row: Report, c: Category, clock: int, sawDraft: bool, continuing: bool, item: nat, status: Status)
    requires c in row.requests
    ensures IntentOf(Frozen(row, c, clock, sawDraft, continuing)) == IntentOf(row)
    ensures IntentOf(CarriedOver(row, c)) == IntentOf(row)
    ensures IntentOf(Recorded(row, c, item)) == IntentOf(row)
    ensures IntentOf(row.(status := status)) == IntentOf(row)
  {
    ReplacedRequestKeepsCharges(row, c, CarriedOver(row, c).requests[c]);
    ReplacedRequestKeepsCharges(row, c,
      row.requests[c].(invoice := if sawDraft then row.requests[c].invoice else None));
  }

  lemma ReplacedRequestKeepsCharges(row: Report, c: Category, request: Request)
    requires c in row.requests && request.charge == row.requests[c].charge
    ensures IntentOf(row.(requests := row.requests[c := request])).charges == IntentOf(row).charges
  {
    var new_ := row.(requests := row.requests[c := request]);
    assert new_.requests.Keys == row.requests.Keys;
    assert IntentOf(new_).charges.Keys == IntentOf(row).charges.Keys;
  }

  /** A delivery step never alters what a report promised, and never forgets an item. */
  lemma RowAfterProgress(W: World, s: Step)
    requires ChangesRow(s) && Enabled(W, s) && W.rows[W.holds[s.w].report].status.Pending?
    ensures var row := W.rows[W.holds[s.w].report];
      && IntentOf(RowAfter(W, s)) == IntentOf(row)
      && row.items.Keys <= RowAfter(W, s).items.Keys
      && (RowAfter(W, s).status.Reported? ==> s.FinishReport?)
  {
    var h := W.holds[s.w];
    var row := W.rows[h.report];
    match s {
      case FinishReport(_, _) =>
      case FreezeIntent(_, sawDraft, continuing) =>
        RowChangesKeepIntent(row, Next(row).value, h.clock, sawDraft, continuing, 0, Pending);
      case RecordCreated(_, item) =>
        RowChangesKeepIntent(row, h.category, 0, true, true, item, Pending);
      case CarryOver(_) =>
        RowChangesKeepIntent(row, h.category, 0, true, true, 0, Pending);
      case Recover(_, listing) =>
        var c := Next(row).value;
        match FindExisting(W.items, row, h.report, c, Bounded(listing)) {
          case Found(item) => RowChangesKeepIntent(row, c, 0, true, true, item, NeedsReview);
          case _ =>
        }
    }
  }

  lemma DeliveryKeepsIntents(W: World, s: Step)
    requires Inv(W) && ChangesRow(s) && Enabled(W, s)
    ensures Intents(Apply(W, s).rows) == Intents(W.rows)
  {
    assert HoldOk(W, W.holds[s.w]);
    RowAfterProgress(W, s);
    UpdatedRowIntents(W.rows, W.holds[s.w].report, RowAfter(W, s));
  }

  // ------------------------------------------------------------------ finishing a report

  lemma {:induction false} ConfirmedBounds(rows: seq<Report>, u: nat, done: nat, c: Category, start: int)
    ensures start <= Confirmed(rows, u, done, c, start) <= Mark(Intents(rows), u, start, c)
    ensures (forall id :: 0 <= id < |rows| && rows[id].usage == u ==> rows[id].status.Reported? || id == done)
              ==> Confirmed(rows, u, done, c, start) == Mark(Intents(rows), u, start, c)
  {
    if rows != [] {
      var n := |rows| - 1;
      ConfirmedBounds(rows[..n], u, done, c, start);
      assert Intents(rows)[..n] == Intents(rows[..n]);
      assert Intents(rows)[n].snapshot == rows[n].snapshot && Intents(rows)[n].usage == rows[n].usage;
    }
  }

  lemma {:induction false} LowestBounds(rows: seq<Report>, u: nat, c: Category, unseen: set<(nat, Category)>, cap: int)
    ensures var low := LowestUnresolved(rows, u, c, unseen, cap);
      && low <= cap
      && (forall id :: 0 <= id < |rows| && rows[id].usage == u && Unresolved(rows[id], id, c, unseen) ==>
            low <= rows[id].requests[c].charge.from)
      && ((forall id :: 0 <= id < |rows| && rows[id].usage == u ==> !Unresolved(rows[id], id, c, unseen)) ==> low == cap)
  {
    if rows != [] {
      var n := |rows| - 1;
      LowestBounds(rows[..n], u, c, unseen, cap);
      assert forall id :: 0 <= id < n ==> rows[..n][id] == rows[id];
    }
  }

  ghost predicate IsConfirmed(rows: seq<Report>, u: nat, done: nat, i: nat)
    requires i < |rows|
  {
    rows[i].usage == u && (rows[i].status.Reported? || i == done)
  }

  /** A count that finishing report `done` may confirm: some snapshot reaches it, no open charge starts below. */
  ghost predicate MayConfirm(rows: seq<Report>, u: nat, done: nat, c: Category, unseen: set<(nat, Category)>, reported: int, m: int) {
    && (m <= reported || exists i: nat :: i < |rows| && IsConfirmed(rows, u, done, i) && m <= rows[i].snapshot.Get(c))
    && forall i: nat :: i < |rows| && rows[i].usage == u && c in rows[i].requests && (c !in rows[i].items || (i, c) in unseen) ==>
         m <= rows[i].requests[c].charge.from
  }

  /** The new confirmed count: never lower than the old one, and otherwise the greatest that may be confirmed. */
  ghost predicate IsWatermark(rows: seq<Report>, u: nat, done: nat, c: Category, unseen: set<(nat, Category)>, reported: int, n: int) {
    && reported <= n && (n == reported || MayConfirm(rows, u, done, c, unseen, reported, n))
    && forall m :: MayConfirm(rows, u, done, c, unseen, reported, m) ==> m <= n
  }

  lemma {:induction false} ConfirmedIsHighest(rows: seq<Report>, u: nat, done: nat, c: Category, start: int)
    ensures var high := Confirmed(rows, u, done, c, start);
      && start <= high && (forall i: nat :: i < |rows| && IsConfirmed(rows, u, done, i) ==> rows[i].snapshot.Get(c) <= high)
      && (high == start || exists i: nat :: i < |rows| && IsConfirmed(rows, u, done, i) && rows[i].snapshot.Get(c) == high)
  {
    if rows != [] {
      var n := |rows| - 1;
      var front, rest := rows[..n], Confirmed(rows[..n], u, done, c, start);
      ConfirmedIsHighest(front, u, done, c, start);
      forall i: nat | i < n ensures IsConfirmed(front, u, done, i) <==> IsConfirmed(rows, u, done, i) {
      }
      if rest != start {
        var i: nat :| i < n && IsConfirmed(front, u, done, i) && front[i].snapshot.Get(c) == rest;
        assert IsConfirmed(rows, u, done, i) && rows[i].snapshot.Get(c) == rest;
      }
      assert IsConfirmed(rows, u, done, n) <==> rows[n].usage == u && (rows[n].status.Reported? || n == done);
    }
  }

  lemma {:induction false} LowestIsAttained(rows: seq<Report>, u: nat, c: Category, unseen: set<(nat, Category)>, cap: int, m: int)
    requires m <= cap
    requires forall i: nat :: i < |rows| && rows[i].usage == u && c in rows[i].requests && (c !in rows[i].items || (i, c) in unseen) ==>
      m <= rows[i].requests[c].charge.from
    ensures m <= LowestUnresolved(rows, u, c, unseen, cap)
  {
    if rows != [] {
      var n := |rows| - 1;
      forall i: nat | i < n && rows[..n][i].usage == u && c in rows[..n][i].requests && (c !in rows[..n][i].items || (i, c) in unseen)
        ensures m <= rows[..n][i].requests[c].charge.from
      {
        assert rows[..n][i] == rows[i];
      }
      LowestIsAttained(rows[..n], u, c, unseen, cap, m);
    }
  }

  lemma WatermarkIsGreatest(rows: seq<Report>, u: nat, done: nat, c: Category, unseen: set<(nat, Category)>, reported: int)
    ensures IsWatermark(rows, u, done, c, unseen, reported, Watermark(rows, u, done, c, unseen, reported))
  {
    var high := Confirmed(rows, u, done, c, reported);
    var low := LowestUnresolved(rows, u, c, unseen, high);
    var n := Watermark(rows, u, done, c, unseen, reported);
    ConfirmedIsHighest(rows, u, done, c, reported);
    LowestBounds(rows, u, c, unseen, high);
    if low > reported {
      assert MayConfirm(rows, u, done, c, unseen, reported, n);
    }
    forall m | MayConfirm(rows, u, done, c, unseen, reported, m) ensures m <= n {
      LowestIsAttained(rows, u, c, unseen, high, m);
    }
  }

  lemma WatermarksGet(rows: seq<Report>, u: nat, done: nat, unseen: set<(nat, Category)>, reported: Counts, c: Category)
    ensures Watermarks(rows, u, done, unseen, reported).Get(c) == Watermark(rows, u, done, c, unseen, reported.Get(c))
  {
  }

  /** The confirmed counts only move forward, and stay at or below every unresolved charge. */
  lemma WatermarkBounds(W: World, s: Step, c: Category)
    requires BooksOk(W) && s.FinishReport? && Enabled(W, s)
    ensures var u := W.rows[W.holds[s.w].report].usage;
      var new_ := Apply(W, s).usages[u].reported.Get(c);
      && W.usages[u].reported.Get(c) <= new_ <= Mark(Intents(W.rows), u, W.usages[u].opening.Get(c), c)
      && forall id :: 0 <= id < |W.rows| && W.rows[id].usage == u && c in W.rows[id].requests && c !in W.rows[id].items ==>
           new_ <= W.rows[id].requests[c].charge.from
  {
    var id := W.holds[s.w].report;
    var u := W.rows[id].usage;
    var reported := W.usages[u].reported.Get(c);
    WatermarksGet(W.rows, u, id, s.unseen, W.usages[u].reported, c);
    ConfirmedBounds(W.rows, u, id, c, reported);
    LowestBounds(W.rows, u, c, s.unseen, Confirmed(W.rows, u, id, c, reported));
    MarkFromHigherStart(Intents(W.rows), u, W.usages[u].opening.Get(c), reported, c);
  }

  lemma NothingUnresolved(W: World, s: Step, c: Category)
    requires Inv(W) && s.FinishReport? && Enabled(W, s)
    requires AllReported(Apply(W, s).rows, W.rows[W.holds[s.w].report].usage)
    ensures var done := W.holds[s.w].report;
      forall id :: 0 <= id < |W.rows| && W.rows[id].usage == W.rows[done].usage ==>
        (W.rows[id].status.Reported? || id == done) && !Unresolved(W.rows[id], id, c, s.unseen)
  {
    var done := W.holds[s.w].report;
    var V := Apply(W, s);
    forall id | 0 <= id < |W.rows| && W.rows[id].usage == W.rows[done].usage
      ensures W.rows[id].status.Reported? || id == done
      ensures !Unresolved(W.rows[id], id, c, s.unseen)
    {
      if id == done {
        NextIsMissing(W.rows[id]);
      } else {
        assert V.rows[id] == W.rows[id];
        assert RowOk(W.rows[id], id);
        assert c in W.rows[id].requests.Keys ==> c in W.rows[id].items.Keys;
      }
    }
  }

  lemma FinishSettles(W: World, s: Step, c: Category)
    requires Inv(W) && BooksOk(W) && s.FinishReport? && Enabled(W, s)
    requires AllReported(Apply(W, s).rows, W.rows[W.holds[s.w].report].usage)
    ensures var u := W.rows[W.holds[s.w].report].usage;
      Apply(W, s).usages[u].reported.Get(c) == Mark(Intents(W.rows), u, W.usages[u].opening.Get(c), c)
  {
    var done := W.holds[s.w].report;
    var u := W.rows[done].usage;
    var reported := W.usages[u].reported.Get(c);
    NothingUnresolved(W, s, c);
    UnobstructedWatermark(W.rows, u, done, s.unseen, reported, c);
    WatermarksGet(W.rows, u, done, s.unseen, W.usages[u].reported, c);
    MarkFromHigherStart(Intents(W.rows), u, W.usages[u].opening.Get(c), reported, c);
  }

  lemma UnobstructedWatermark(rows: seq<Report>, u: nat, done: nat, unseen: set<(nat, Category)>, reported: int, c: Category)
    requires forall id :: 0 <= id < |rows| && rows[id].usage == u ==>
      (rows[id].status.Reported? || id == done) && !Unresolved(rows[id], id, c, unseen)
    ensures Watermark(rows, u, done, c, unseen, reported) == Mark(Intents(rows), u, reported, c)
  {
    ConfirmedBounds(rows, u, done, c, reported);
    LowestBounds(rows, u, c, unseen, Confirmed(rows, u, done, c, reported));
  }

  lemma FinishReportedOk(W: World, s: Step)
    requires BooksOk(W) && s.FinishReport? && Enabled(W, s)
    ensures ReportedOk(Intents(W.rows), Apply(W, s).usages)
  {
    var V := Apply(W, s);
    forall u, c: Category | u in V.usages
      ensures V.usages[u].opening.Get(c) <= V.usages[u].reported.Get(c)
                <= Mark(Intents(W.rows), u, V.usages[u].opening.Get(c), c)
    {
      WatermarkBounds(W, s, c);
    }
  }

  lemma FinishLedger(W: World, s: Step)
    requires Inv(W) && BooksOk(W) && s.FinishReport? && Enabled(W, s)
    ensures var V := Apply(W, s);
      Intents(V.rows) == Intents(W.rows) && LedgerOk(Intents(V.rows), V.usages) && ReportedOk(Intents(V.rows), V.usages)
  {
    DeliveryKeepsIntents(W, s);
    LedgerFrame(Intents(W.rows), W.usages, Apply(W, s).usages);
    FinishReportedOk(W, s);
  }

  lemma FinishNoSkip(W: World, s: Step)
    requires Inv(W) && BooksOk(W) && s.FinishReport? && Enabled(W, s)
    ensures NoSkip(Apply(W, s))
  {
    var V := Apply(W, s);
    var done := W.holds[s.w].report;
    forall id, c | 0 <= id < |V.rows| && c in V.rows[id].requests && c !in V.rows[id].items && V.rows[id].usage in V.usages
      ensures V.usages[V.rows[id].usage].reported.Get(c) <= V.rows[id].requests[c].charge.from
    {
      assert V.rows[id].(status := Pending) == W.rows[id].(status := Pending);
      WatermarkBounds(W, s, c);
    }
  }

  lemma FinishSettled(W: World, s: Step)
    requires Inv(W) && BooksOk(W) && s.FinishReport? && Enabled(W, s)
    ensures Settled(Apply(W, s))
  {
    var V := Apply(W, s);
    var done := W.holds[s.w].report;
    var v := W.rows[done].usage;
    DeliveryKeepsIntents(W, s);
    forall u, c: Category | u in V.usages && AllReported(V.rows, u)
      ensures SettledAt(Intents(V.rows), V.usages[u], u, c)
    {
      if u == v {
        FinishSettles(W, s, c);
      } else {
        forall id | 0 <= id < |W.rows| && W.rows[id].usage == u ensures W.rows[id].status.Reported? {
          assert V.rows[id] == W.rows[id];
        }
        assert AllReported(W.rows, u);
        assert SettledAt(Intents(W.rows), W.usages[u], u, c);
        assert V.usages[u] == W.usages[u];
      }
    }
  }

  // ------------------------------------------------------------------ staging a report

  lemma AppendIntents(rows: seq<Report>, row: Report)
    ensures Intents(rows + [row]) == Intents(rows) + [IntentOf(row)]
  {
  }

  lemma StageNoSkip(W: World, row: Report)
    requires BooksOk(W) && row.usage in W.usages
    requires Continues(Intents(W.rows), |W.rows|, IntentOf(row), W.usages[row.usage].opening)
    ensures NoSkip(W.(rows := W.rows + [row]))
  {
    var V := W.(rows := W.rows + [row]);
    forall id, c | 0 <= id < |V.rows| && c in V.rows[id].requests && c !in V.rows[id].items && V.rows[id].usage in V.usages
      ensures V.usages[V.rows[id].usage].reported.Get(c) <= V.rows[id].requests[c].charge.from
    {
      if id < |W.rows| {
        assert V.rows[id] == W.rows[id];
      } else {
        assert c in IntentOf(row).charges;
      }
    }
  }

  /** A report without requests is reported at birth, and changes no overage. */
  lemma MarkerChangesNoOverage(earlier: seq<Intent>, id: nat, it: Intent, opening: Counts, c: Category)
    requires Continues(earlier, id, it, opening) && it.charges == map[]
    ensures var base := it.terms.pricing.base.Get(c);
      Over(base, Max(Mark(earlier, it.usage, opening.Get(c), c), it.snapshot.Get(c)))
        == Over(base, Mark(earlier, it.usage, opening.Get(c), c))
  {
    assert c !in it.charges;
  }

  lemma StageSettled(W: World, row: Report)
    requires BooksOk(W) && row.usage in W.usages && (row.status.Reported? ==> row.requests == map[])
    requires Continues(Intents(W.rows), |W.rows|, IntentOf(row), W.usages[row.usage].opening)
    ensures Settled(W.(rows := W.rows + [row]))
  {
    var V := W.(rows := W.rows + [row]);
    var ledger, grown := Intents(W.rows), Intents(V.rows);
    AppendIntents(W.rows, row);
    assert grown[..|grown| - 1] == ledger;
    forall u, c: Category | u in V.usages && AllReported(V.rows, u)
      ensures SettledAt(grown, V.usages[u], u, c)
    {
      forall id | 0 <= id < |W.rows| && W.rows[id].usage == u ensures W.rows[id].status.Reported? {
        assert V.rows[id] == W.rows[id];
      }
      assert AllReported(W.rows, u);
      assert SettledAt(ledger, W.usages[u], u, c);
      forall base | BaseIs(grown, u, c, base)
        ensures Over(base, V.usages[u].reported.Get(c)) == Over(base, Mark(grown, u, V.usages[u].opening.Get(c), c))
      {
        forall k | 0 <= k < |ledger| && ledger[k].usage == u ensures ledger[k].terms.pricing.base.Get(c) == base {
          assert grown[k] == ledger[k];
        }
        assert BaseIs(ledger, u, c, base);
        if row.usage == u {
          assert V.rows[|W.rows|] == row;
          assert IntentOf(row).charges == map[];
          assert grown[|ledger|].terms.pricing.base.Get(c) == base;
          MarkerChangesNoOverage(ledger, |ledger|, IntentOf(row), W.usages[u].opening, c);
        }
      }
    }
  }

  lemma StagingKeeps(W: World, s: Step)
    requires BooksOk(W) && (s.StageReport? || s.ClosePeriod?) && StageIn(W, s).Fresh?
    ensures BooksOk(AfterStage(W, StageIn(W, s)))
  {
    var row := StageIn(W, s).report;
    var invoice := if s.StageReport? then s.invoice else None;
    var closing := if s.StageReport? then None else Some(s.closingInvoice);
    var allowClosed := s.StageReport? && s.allowClosed;
    StageExtends(s.sub, W.usages, s.u, W.rows, invoice, closing, allowClosed);
    FreshContinues(s.sub, W.usages, s.u, W.rows, invoice, closing, allowClosed);
    StageNoSkip(W, row);
    StageSettled(W, row);
  }

  // ------------------------------------------------------------------ every step, every run

  lemma CloseBooks(W: World, s: Step)
    requires Inv(W) && BooksOk(W) && s.ClosePeriod? && Enabled(W, s)
    ensures BooksOk(Apply(W, s))
  {
    var synced := if W.usages[s.u].billed then W else WithCounters(W, s.u, s.counters);
    ProgressKeeps(W, synced);
    var staged := StageIn(synced, s);
    if !staged.MissingCustomer? {
      if staged.Fresh? { StagingKeeps(synced, s); }
      ProgressKeeps(AfterStage(synced, staged), Apply(W, s));
    }
  }

  lemma DeliveryProgress(W: World, s: Step)
    requires Inv(W) && Enabled(W, s) && ChangesRow(s) && !s.FinishReport?
    ensures OnlyProgress(W, Apply(W, s))
  {
    assert HoldOk(W, W.holds[s.w]);
    RowAfterProgress(W, s);
    DeliveryKeepsIntents(W, s);
    RowReplaced(W, W.holds[s.w].report, RowAfter(W, s), Apply(W, s));
  }

  lemma RowReplaced(W: World, id: nat, row: Report, V: World)
    requires id < |W.rows| && V.rows == W.rows[id := row] && V.usages == W.usages && Intents(V.rows) == Intents(W.rows)
    requires W.rows[id].items.Keys <= row.items.Keys && (row.status.Reported? ==> W.rows[id].status.Reported?)
    ensures OnlyProgress(W, V)
  {
  }

  lemma RequeueProgress(W: World, s: Step)
    requires s.Requeue? && Enabled(W, s)
    ensures OnlyProgress(W, Apply(W, s))
  {
    assert IntentOf(W.rows[s.report].(status := Pending)) == IntentOf(W.rows[s.report]);
    UpdatedRowIntents(W.rows, s.report, W.rows[s.report].(status := Pending));
  }

  lemma QuietProgress(W: World, s: Step)
    requires Enabled(W, s)
    requires s.OpenUsage? || s.SyncCounters? || s.Lock? || s.SendCreate? || s.Release? || s.StripeHandles?
          || s.FinalizeInvoice? || s.Tick?
    ensures OnlyProgress(W, Apply(W, s))
  {
  }

  lemma BooksStep(W: World, s: Step)
    requires Inv(W) && BooksOk(W) && Enabled(W, s)
    ensures BooksOk(Apply(W, s))
  {
    if s.StageReport? {
      if StageIn(W, s).Fresh? { StagingKeeps(W, s); }
    } else if s.ClosePeriod? {
      CloseBooks(W, s);
    } else if s.FinishReport? {
      FinishLedger(W, s);
      FinishNoSkip(W, s);
      FinishSettled(W, s);
    } else {
      if s.Requeue? { RequeueProgress(W, s); }
      else if ChangesRow(s) { DeliveryProgress(W, s); }
      else { QuietProgress(W, s); }
      ProgressKeeps(W, Apply(W, s));
    }
  }

  lemma {:induction false} BooksRun(W: World, run: seq<Step>)
    requires Inv(W) && BooksOk(W) && Valid(W, run)
    ensures Inv(Exec(W, run)) && BooksOk(Exec(W, run))
    decreases |run|
  {
    if run != [] {
      StepKeeps(W, run[0]);
      BooksStep(W, run[0]);
      BooksRun(Apply(W, run[0]), run[1..]);
    }
  }

  lemma InitialBooks(W: World)
    requires Initial(W)
    ensures Inv(W) && BooksOk(W)
  {
    assert Intents(W.rows) == [];
  }

  /** A state that some run from an empty protocol reaches. */
  ghost predicate Reachable(W: World) {
    exists V, run :: Initial(V) && Valid(V, run) && Exec(V, run) == W
  }

  lemma ReachableBooks(W: World)
    requires Reachable(W)
    ensures Inv(W) && BooksOk(W)
  {
    var V, run :| Initial(V) && Valid(V, run) && Exec(V, run) == W;
    InitialBooks(V);
    BooksRun(V, run);
  }
}
