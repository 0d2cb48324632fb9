/** What the protocol promises over whole runs: exactly-once charges and conserved money. */
module Settlement {
  import opened Wrappers
  import opened Billing
  import opened Reservation
  import opened Protocol
  import opened Delivery
  import opened Books

  ghost predicate ChargesFor(item: Item, id: nat, c: Category) {
    item.request.charge.report == id && item.request.charge.category == c
  }

  /** Stripe holds an item for this report and category. */
  ghost predicate Charged(items: seq<Item>, id: nat, c: Category) {
    exists i :: 0 <= i < |items| && ChargesFor(items[i], id, c)
  }

  // ------------------------------------------------------------------ exactly once

  lemma AtMostOneItem(W: World, i: nat, j: nat)
    requires Inv(W) && i < |W.items| && j < |W.items|
    requires W.items[i].request.charge.report == W.items[j].request.charge.report
    requires W.items[i].request.charge.category == W.items[j].request.charge.category
    ensures i == j
  {
    ItemIsCurrent(W, i);
    ItemIsCurrent(W, j);
    assert OneItemPerKey(W);
  }

  /** In every run each (report, category) has at most one Stripe item. */
  lemma ChargedAtMostOnce(W: World, run: seq<Step>, i: nat, j: nat)
    requires Initial(W) && Valid(W, run)
    requires var V := Exec(W, run);
      && i < |V.items| && j < |V.items|
      && V.items[i].request.charge.report == V.items[j].request.charge.report
      && V.items[i].request.charge.category == V.items[j].request.charge.category
    ensures i == j
  {
    InitialBooks(W);
    RunKeeps(W, run);
    AtMostOneItem(Exec(W, run), i, j);
  }

  /** A reported report has, per requested category, exactly the recorded item, for the reserved charge. */
  lemma ReportedMeansChargedOnce(W: World, run: seq<Step>, id: nat, c: Category)
    requires Initial(W) && Valid(W, run)
    requires id < |Exec(W, run).rows| && Exec(W, run).rows[id].status.Reported?
    ensures var V := Exec(W, run); var row := V.rows[id];
      && (c in row.requests ==>
            && c in row.items && row.items[c] < |V.items|
            && V.items[row.items[c]].request.charge == row.requests[c].charge
            && forall i :: 0 <= i < |V.items| ==> (ChargesFor(V.items[i], id, c) <==> i == row.items[c]))
      && (c !in row.requests ==> forall i :: 0 <= i < |V.items| ==> !ChargesFor(V.items[i], id, c))
  {
    InitialBooks(W);
    RunKeeps(W, run);
    var V := Exec(W, run);
    ReportedRow(V, id, c);
  }

  lemma ReportedRow(V: World, id: nat, c: Category)
    requires Inv(V) && id < |V.rows| && V.rows[id].status.Reported?
    ensures var row := V.rows[id];
      && (c in row.requests ==>
            && c in row.items && row.items[c] < |V.items|
            && V.items[row.items[c]].request.charge == row.requests[c].charge
            && forall i :: 0 <= i < |V.items| ==> (ChargesFor(V.items[i], id, c) <==> i == row.items[c]))
      && (c !in row.requests ==> forall i :: 0 <= i < |V.items| ==> !ChargesFor(V.items[i], id, c))
  {
    var row := V.rows[id];
    assert RowOk(row, id);
    if c in row.requests {
      assert c in row.items.Keys;
      assert RequestOk(row.requests[c], id, c);
      forall i | 0 <= i < |V.items| && ChargesFor(V.items[i], id, c) ensures i == row.items[c] {
        AtMostOneItem(V, i, row.items[c]);
      }
    } else {
      forall i | 0 <= i < |V.items| ensures !ChargesFor(V.items[i], id, c) {
        ItemIsCurrent(V, i);
      }
    }
  }

  /**
   * No idempotency key is ever sent with two different parameter sets; all calls for one
   * (report, category) carry the same charge, under at most one carryover key.
   */
  lemma FrozenRequests(W: World, run: seq<Step>, m: Message, n: Message)
    requires Initial(W) && Valid(W, run) && m in Exec(W, run).sent && n in Exec(W, run).sent
    ensures m.request.key == n.request.key ==> m.request == n.request
    ensures m.request.key.report == n.request.key.report && m.request.key.category == n.request.key.category ==>
      m.request.charge == n.request.charge
    ensures m.request.key.report == m.request.charge.report && m.request.key.category == m.request.charge.category
    ensures m.request.key.carryovers <= 1 && (m.request.key.carryovers == 1 ==> m.request.invoice.None?)
  {
    InitialBooks(W);
    RunKeeps(W, run);
    SentRequest(Exec(W, run), m);
    SentRequest(Exec(W, run), n);
  }

  lemma SentRequest(V: World, m: Message)
    requires Inv(V) && m in V.sent
    ensures var id, c := m.request.key.report, m.request.key.category;
      && id < |V.rows| && c in V.rows[id].requests
      && m.request.charge == V.rows[id].requests[c].charge
      && m.request.charge.report == id && m.request.charge.category == c
      && (m.request == V.rows[id].requests[c] || m.request.key.carryovers == 0)
      && m.request.key.carryovers <= 1 && (m.request.key.carryovers == 1 ==> m.request.invoice.None?)
  {
    var id, c := m.request.key.report, m.request.key.category;
    assert Superseded(V, m.request) || Current(V, m.request);
    assert RowOk(V.rows[id], id);
    assert RequestOk(V.rows[id].requests[c], id, c);
  }

  /** Messages are never forgotten, so the previous lemma speaks of everything ever sent. */
  lemma {:induction false} SentOnlyGrows(W: World, run: seq<Step>)
    requires Valid(W, run)
    ensures W.sent <= Exec(W, run).sent && W.items <= Exec(W, run).items
    decreases |run|
  {
    if run != [] {
      SentOnlyGrows(Apply(W, run[0]), run[1..]);
    }
  }

  /** While no intent is recorded for a category, Stripe has no item for it under any key. */
  lemma UnattemptedMeansUncharged(W: World, run: seq<Step>, id: nat, c: Category, i: nat)
    requires Initial(W) && Valid(W, run)
    requires id < |Exec(W, run).rows| && c !in Exec(W, run).rows[id].attempted && i < |Exec(W, run).items|
    ensures !ChargesFor(Exec(W, run).items[i], id, c)
  {
    InitialBooks(W);
    RunKeeps(W, run);
    ItemIsCurrent(Exec(W, run), i);
  }

  /** The mismatch that recovery guards against cannot arise, and a listed item is found. */
  lemma RecoveryFindsTheCharge(W: World, run: seq<Step>, id: nat, c: Category, listing: seq<Listed>)
    requires Initial(W) && Valid(W, run)
    requires id < |Exec(W, run).rows| && c in Exec(W, run).rows[id].requests
    requires forall l :: l in listing && l.Ours? ==> l.item < |Exec(W, run).items|
    ensures var V := Exec(W, run);
      var r := FindExisting(V.items, V.rows[id], id, c, Bounded(listing));
      && !r.Mismatch?
      && (r.Found? <==> exists l :: l in Bounded(listing) && l.Ours? && V.items[l.item].request == V.rows[id].requests[c])
      && (r.Found? ==> r.item < |V.items| && V.items[r.item].request == V.rows[id].requests[c])
  {
    InitialBooks(W);
    RunKeeps(W, run);
    SearchMeaning(Exec(W, run), id, c, Bounded(listing));
  }

  /**
   * Recovery is conclusive: a complete listing within the scan limit yields the item if and
   * only if Stripe holds one for this report and category, although it only reaches back to
   * shortly before the attempt.
   */
  lemma RecoveryIsConclusive(W: World, run: seq<Step>, id: nat, c: Category, listing: seq<Listed>)
    requires Initial(W) && Valid(W, run)
    requires id < |Exec(W, run).rows| && c in Exec(W, run).rows[id].requests && c in Exec(W, run).rows[id].attempted
    requires var V := Exec(W, run); var row := V.rows[id];
      ListingOk(V, row, row.attempted[c], listing) && Complete(V, row, row.attempted[c], listing)
    requires |listing| <= SCAN_LIMIT
    ensures var V := Exec(W, run);
      FindExisting(V.items, V.rows[id], id, c, Bounded(listing)).Found? <==> Charged(V.items, id, c)
  {
    InitialBooks(W);
    RunKeeps(W, run);
    ListingShowsCharge(Exec(W, run), id, c, listing);
  }

  lemma ListingShowsCharge(V: World, id: nat, c: Category, listing: seq<Listed>)
    requires Inv(V) && id < |V.rows| && c in V.rows[id].requests && c in V.rows[id].attempted
    requires ListingOk(V, V.rows[id], V.rows[id].attempted[c], listing)
    requires Complete(V, V.rows[id], V.rows[id].attempted[c], listing)
    ensures FindExisting(V.items, V.rows[id], id, c, listing).Found? <==> Charged(V.items, id, c)
  {
    SearchMeaning(V, id, c, listing);
    var r := FindExisting(V.items, V.rows[id], id, c, listing);
    assert RowOk(V.rows[id], id);
    assert RequestOk(V.rows[id].requests[c], id, c);
    if r.Found? {
      assert ChargesFor(V.items[r.item], id, c);
    }
    forall i | 0 <= i < |V.items| && ChargesFor(V.items[i], id, c) ensures r.Found? {
      ChargeIsListable(V, i);
      assert Ours(i) in listing;
      assert V.items[Ours(i).item].request == V.rows[id].requests[c];
    }
  }

  /** Stripe's item is the customer's and not older than the recorded attempt. */
  lemma ChargeIsListable(V: World, i: nat)
    requires Inv(V) && i < |V.items|
    ensures var charge := V.items[i].request.charge; var id, c := charge.report, charge.category;
      && id < |V.rows| && c in V.rows[id].requests && c in V.rows[id].attempted
      && V.items[i].request == V.rows[id].requests[c] && Listable(V.items[i], V.rows[id], V.rows[id].attempted[c])
  {
    ItemIsCurrent(V, i);
    var p := V.items[i].request;
    assert Current(V, p);
    assert RowOk(V.rows[p.key.report], p.key.report);
    assert RequestOk(p, p.key.report, p.key.category);
  }

  // ------------------------------------------------------------------ what never changes

  lemma StepKeepsIntents(W: World, s: Step)
    requires Inv(W) && Enabled(W, s)
    ensures Intents(W.rows) <= Intents(Apply(W, s).rows)
  {
    if ChangesRow(s) {
      DeliveryKeepsIntents(W, s);
    } else if s.Requeue? {
      RequeueProgress(W, s);
    } else if s.StageReport? {
      if StageIn(W, s).Fresh? { AppendIntents(W.rows, StageIn(W, s).report); }
    } else if s.ClosePeriod? {
      var synced := if W.usages[s.u].billed then W else WithCounters(W, s.u, s.counters);
      if StageIn(synced, s).Fresh? { AppendIntents(W.rows, StageIn(synced, s).report); }
    }
  }

  /** What a report reserved is never altered and no report disappears. */
  lemma {:induction false} IntentsArePermanent(W: World, run: seq<Step>)
    requires Inv(W) && Valid(W, run)
    ensures Intents(W.rows) <= Intents(Exec(W, run).rows)
    decreases |run|
  {
    if run != [] {
      StepKeepsIntents(W, run[0]);
      StepKeeps(W, run[0]);
      IntentsArePermanent(Apply(W, run[0]), run[1..]);
    }
  }

  /** Only a pending report is sent or changed; review ends only by an operator's requeue. */
  lemma EndsAreAbsorbing(W: World, s: Step, id: nat)
    requires Inv(W) && Enabled(W, s) && id < |W.rows| && !W.rows[id].status.Pending?
    requires s != Requeue(id)
    ensures id < |Apply(W, s).rows| && Apply(W, s).rows[id] == W.rows[id]
    ensures s.SendCreate? ==> W.holds[s.w].report != id
  {
    RowFrame(W, s, id);
    if ChangesRow(s) || s.SendCreate? {
      assert HoldOk(W, W.holds[s.w]);
    }
  }

  /** No step of the run sends a call for this report. */
  ghost predicate NeverSends(W: World, run: seq<Step>, id: nat)
    requires Valid(W, run)
    decreases |run|
  {
    run == [] ||
    ((run[0].SendCreate? ==> W.holds[run[0].w].report != id) && NeverSends(Apply(W, run[0]), run[1..], id))
  }

  /**
   * Both ends last: a reported report, and one in review that no operator requeues, is never
   * changed again and no call is ever sent for it.
   */
  lemma {:induction false} EndsLast(W: World, run: seq<Step>, id: nat)
    requires Inv(W) && Valid(W, run) && id < |W.rows| && !W.rows[id].status.Pending?
    requires W.rows[id].status.Reported? || Requeue(id) !in run
    ensures id < |Exec(W, run).rows| && Exec(W, run).rows[id] == W.rows[id] && NeverSends(W, run, id)
    decreases |run|
  {
    if run != [] {
      assert run[0] in run && forall s :: s in run[1..] ==> s in run;
      EndsAreAbsorbing(W, run[0], id);
      StepKeeps(W, run[0]);
      EndsLast(Apply(W, run[0]), run[1..], id);
    }
  }

  // ------------------------------------------------------------------ a final invoice is dropped

  /** The row asks for this category without naming an invoice. */
  ghost predicate NamesNoInvoice(rows: seq<Report>, id: nat, c: Category) {
    id < |rows| && c in rows[id].requests && rows[id].requests[c].invoice.None?
  }

  lemma NoInvoiceRow(W: World, s: Step, c: Category)
    requires ChangesRow(s) && Enabled(W, s)
    requires NamesNoInvoice(W.rows, W.holds[s.w].report, c)
    ensures c in RowAfter(W, s).requests && RowAfter(W, s).requests[c].invoice.None?
  {
  }

  lemma NoInvoiceKept(W: World, s: Step, id: nat, c: Category)
    requires Enabled(W, s) && NamesNoInvoice(W.rows, id, c)
    ensures NamesNoInvoice(Apply(W, s).rows, id, c)
  {
    hide RowAfter, Apply;
    RowFrame(W, s, id);
    if ChangesRow(s) && W.holds[s.w].report == id {
      NoInvoiceRow(W, s, c);
    }
  }

  /** A new call is the one its sender's row asks for. */
  lemma NewCall(W: World, s: Step, m: Message)
    requires RowsOk(W) && Enabled(W, s) && m in Apply(W, s).sent && m !in W.sent
    ensures var id, c := m.request.key.report, m.request.key.category;
      id < |W.rows| && c in W.rows[id].requests && m.request == W.rows[id].requests[c]
  {
    assert s.SendCreate?;
    SendsCurrent(W, s);
  }

  lemma {:induction false} NoInvoiceForever(W: World, run: seq<Step>, id: nat, c: Category, m: Message)
    requires Inv(W) && Valid(W, run) && NamesNoInvoice(W.rows, id, c)
    requires m in Exec(W, run).sent && m !in W.sent && m.request.key.report == id && m.request.key.category == c
    ensures m.request.invoice.None?
    decreases |run|
  {
    hide RowAfter, Apply, Enabled, RowsOk;
    NoInvoiceKept(W, run[0], id, c);
    StepKeeps(W, run[0]);
    if m in Apply(W, run[0]).sent {
      NewCall(W, run[0], m);
    } else {
      NoInvoiceForever(Apply(W, run[0]), run[1..], id, c, m);
    }
  }

  lemma FrozenWithoutInvoice(W: World, s: Step)
    requires s.FreezeIntent? && !s.sawDraft && Enabled(W, s) && RowAfter(W, s).status.Pending?
    ensures var id := W.holds[s.w].report;
      NamesNoInvoice(Apply(W, s).rows, id, Next(W.rows[id]).value) && Apply(W, s).sent == W.sent
  {
    RowFrame(W, s, W.holds[s.w].report);
  }

  /**
   * Once freezing has seen the invoice of a category final, no call sent for that category at
   * any later time names an invoice.
   */
  lemma FinalInvoiceNeverNamed(W: World, s: Step, run: seq<Step>, m: Message)
    requires Inv(W) && s.FreezeIntent? && !s.sawDraft && Enabled(W, s) && Valid(Apply(W, s), run)
    requires RowAfter(W, s).status.Pending?
    requires m in Exec(Apply(W, s), run).sent && m !in W.sent
    requires m.request.key.report == W.holds[s.w].report
    requires m.request.key.category == Next(W.rows[W.holds[s.w].report]).value
    ensures m.request.invoice.None?
  {
    var id := W.holds[s.w].report;
    FrozenWithoutInvoice(W, s);
    StepKeeps(W, s);
    NoInvoiceForever(Apply(W, s), run, id, Next(W.rows[id]).value, m);
  }

  // ------------------------------------------------------------------ a draft invoice is named

  /** The row asks for this category on invoice `x`, unless that has left draft. */
  ghost predicate NamesUnlessFinal(W: World, id: nat, c: Category, x: string) {
    id < |W.rows| && c in W.rows[id].requests && (W.rows[id].requests[c].invoice == Some(x) || x in W.finalized)
  }

  lemma NamedRow(W: World, s: Step, c: Category, x: string)
    requires ChangesRow(s) && Enabled(W, s) && NamesUnlessFinal(W, W.holds[s.w].report, c, x)
    ensures c in RowAfter(W, s).requests && (RowAfter(W, s).requests[c].invoice == Some(x) || x in W.finalized)
  {
  }

  lemma FinalizedGrows(W: World, s: Step)
    requires Enabled(W, s)
    ensures W.finalized <= Apply(W, s).finalized
  {
  }

  lemma NamedKept(W: World, s: Step, id: nat, c: Category, x: string)
    requires Enabled(W, s) && NamesUnlessFinal(W, id, c, x)
    ensures NamesUnlessFinal(Apply(W, s), id, c, x)
  {
    hide RowAfter, Apply;
    RowFrame(W, s, id);
    FinalizedGrows(W, s);
    if ChangesRow(s) && W.holds[s.w].report == id {
      NamedRow(W, s, c, x);
    }
  }

  lemma {:induction false} FinalizedGrowsInRun(W: World, run: seq<Step>)
    requires Valid(W, run)
    ensures W.finalized <= Exec(W, run).finalized
    decreases |run|
  {
    if run != [] {
      FinalizedGrows(W, run[0]);
      FinalizedGrowsInRun(Apply(W, run[0]), run[1..]);
    }
  }

  lemma {:induction false} NamedForever(W: World, run: seq<Step>, id: nat, c: Category, x: string, m: Message)
    requires Inv(W) && Valid(W, run) && NamesUnlessFinal(W, id, c, x)
    requires m in Exec(W, run).sent && m !in W.sent && m.request.key.report == id && m.request.key.category == c
    ensures m.request.invoice == Some(x) || x in Exec(W, run).finalized
    decreases |run|
  {
    hide RowAfter, Apply, Enabled, RowsOk;
    NamedKept(W, run[0], id, c, x);
    StepKeeps(W, run[0]);
    if m in Apply(W, run[0]).sent {
      NewCall(W, run[0], m);
      FinalizedGrowsInRun(W, run);
    } else {
      NamedForever(Apply(W, run[0]), run[1..], id, c, x, m);
    }
  }

  lemma StagedNames(W: World, s: Step, c: Category, x: string)
    requires s.StageReport? && s.invoice == Some(x) && StageIn(W, s).Fresh? && c in StageIn(W, s).report.requests
    ensures NamesUnlessFinal(Apply(W, s), |W.rows|, c, x) && Apply(W, s).sent == W.sent
  {
    FreshReportAsks(s.sub, W.usages, s.u, W.rows, s.invoice, None, s.allowClosed, c);
  }

  lemma SentConcernsRequests(W: World, m: Message)
    requires SentOk(W) && m in W.sent
    ensures m.request.key.report < |W.rows| && m.request.key.category in W.rows[m.request.key.report].requests
  {
    assert Superseded(W, m.request) || Current(W, m.request);
  }

  /**
   * What was staged against an invoice is charged on it: as long as that invoice has not left
   * draft, every call ever sent for the report names it.
   */
  lemma StagedInvoiceIsNamed(W: World, s: Step, run: seq<Step>, x: string, m: Message)
    requires Inv(W) && s.StageReport? && s.invoice == Some(x) && StageIn(W, s).Fresh? && Valid(Apply(W, s), run)
    requires m in Exec(Apply(W, s), run).sent && m.request.key.report == |W.rows|
    requires m.request.key.category in StageIn(W, s).report.requests
    ensures m.request.invoice == Some(x) || x in Exec(Apply(W, s), run).finalized
  {
    StagedNames(W, s, m.request.key.category, x);
    StepKeeps(W, s);
    if m in W.sent {
      SentConcernsRequests(W, m);
      assert false;
    }
    NamedForever(Apply(W, s), run, |W.rows|, m.request.key.category, x, m);
  }

  // ------------------------------------------------------------------ sums over Stripe's items

  /** Cents charged for one category of one report. */
  function ReportTotal(items: seq<Item>, id: nat, c: Category): int {
    if items == [] then 0
    else
      var last := items[|items| - 1].request.charge;
      ReportTotal(items[..|items| - 1], id, c) + if last.report == id && last.category == c then last.amount else 0
  }

  /** Cents in Stripe for one category of usage record `u`. */
  function StripeTotal(items: seq<Item>, rows: seq<Report>, u: nat, c: Category): int {
    if items == [] then 0
    else
      var last := items[|items| - 1].request.charge;
      StripeTotal(items[..|items| - 1], rows, u, c)
        + if last.report < |rows| && rows[last.report].usage == u && last.category == c then last.amount else 0
  }

  function AmountOf(it: Intent, c: Category): int {
    if c in it.charges then it.charges[c].amount else 0
  }

  /** Cents reserved for one category of usage record `u`. */
  function ReservedTotal(ledger: seq<Intent>, u: nat, c: Category): int {
    if ledger == [] then 0
    else
      var last := ledger[|ledger| - 1];
      ReservedTotal(ledger[..|ledger| - 1], u, c) + if last.usage == u then AmountOf(last, c) else 0
  }

  function ChargeCount(ledger: seq<Intent>, u: nat, c: Category): nat {
    if ledger == [] then 0
    else
      var last := ledger[|ledger| - 1];
      ChargeCount(ledger[..|ledger| - 1], u, c) + if last.usage == u && c in last.charges then 1 else 0
  }

  lemma {:induction false} TotalByReport(items: seq<Item>, rows: seq<Report>, u: nat, c: Category)
    requires rows != []
    ensures var n := |rows| - 1;
      StripeTotal(items, rows, u, c)
        == StripeTotal(items, rows[..n], u, c) + if rows[n].usage == u then ReportTotal(items, n, c) else 0
  {
    if items != [] {
      TotalByReport(items[..|items| - 1], rows, u, c);
    }
  }

  lemma {:induction false} TotalWithoutRows(items: seq<Item>, u: nat, c: Category)
    ensures StripeTotal(items, [], u, c) == 0
  {
    if items != [] {
      TotalWithoutRows(items[..|items| - 1], u, c);
    }
  }

  lemma {:induction false} NoItemNoTotal(items: seq<Item>, id: nat, c: Category)
    requires forall i :: 0 <= i < |items| ==> !ChargesFor(items[i], id, c)
    ensures ReportTotal(items, id, c) == 0
  {
    if items != [] {
      assert !ChargesFor(items[|items| - 1], id, c);
      NoItemNoTotal(items[..|items| - 1], id, c);
    }
  }

  lemma {:induction false} OneItemTotal(items: seq<Item>, id: nat, c: Category, k: nat)
    requires k < |items| && forall i :: 0 <= i < |items| ==> (ChargesFor(items[i], id, c) <==> i == k)
    ensures ReportTotal(items, id, c) == items[k].request.charge.amount
  {
    var n := |items| - 1;
    assert ChargesFor(items[n], id, c) <==> n == k;
    if k == n {
      NoItemNoTotal(items[..n], id, c);
    } else {
      OneItemTotal(items[..n], id, c, k);
    }
  }

  lemma ReportedTotal(W: World, id: nat, c: Category)
    requires Inv(W) && id < |W.rows| && W.rows[id].status.Reported?
    ensures ReportTotal(W.items, id, c) == AmountOf(IntentOf(W.rows[id]), c)
  {
    ReportedRow(W, id, c);
    if c in W.rows[id].requests {
      OneItemTotal(W.items, id, c, W.rows[id].items[c]);
    } else {
      NoItemNoTotal(W.items, id, c);
    }
  }

  /** Where every report of record `u` has its reserved cents in Stripe, so has the record. */
  lemma {:induction false} TotalsAddUp(items: seq<Item>, rows: seq<Report>, u: nat, c: Category)
    requires forall id :: 0 <= id < |rows| && rows[id].usage == u ==> ReportTotal(items, id, c) == AmountOf(IntentOf(rows[id]), c)
    ensures StripeTotal(items, rows, u, c) == ReservedTotal(Intents(rows), u, c)
  {
    if rows == [] {
      TotalWithoutRows(items, u, c);
    } else {
      var n := |rows| - 1;
      TotalsAddUp(items, rows[..n], u, c);
      TotalByReport(items, rows, u, c);
      assert Intents(rows)[..n] == Intents(rows[..n]) && Intents(rows)[n] == IntentOf(rows[n]);
    }
  }

  /** When a record's reports are all reported, Stripe holds exactly the reserved cents. */
  lemma StripeHoldsTheReserve(W: World, u: nat, c: Category)
    requires Inv(W) && AllReported(W.rows, u)
    ensures StripeTotal(W.items, W.rows, u, c) == ReservedTotal(Intents(W.rows), u, c)
  {
    forall id | 0 <= id < |W.rows| && W.rows[id].usage == u
      ensures ReportTotal(W.items, id, c) == AmountOf(IntentOf(W.rows[id]), c)
    {
      ReportedTotal(W, id, c);
    }
    TotalsAddUp(W.items, W.rows, u, c);
  }

  // ------------------------------------------------------------------ rounding over many charges

  /** `cents` is the price of `units`, up to `slack` for each of `count` roundings. */
  ghost predicate PricedWithin(cents: int, units: int, price: real, slack: real, count: nat) {
    Abs(cents as real - price * units as real * 100.0) <= slack * count as real
  }

  ghost predicate RoundsWithin(price: real, slack: real) {
    forall n: int :: PricedWithin(Cents(price, n), n, price, slack, 1)
  }

  lemma AddPriced(a: int, m: int, i: nat, b: int, n: int, j: nat, price: real, slack: real)
    requires PricedWithin(a, m, price, slack, i) && PricedWithin(b, n, price, slack, j)
    ensures PricedWithin(a + b, m + n, price, slack, i + j)
  {
    assert price * (m + n) as real * 100.0 == price * m as real * 100.0 + price * n as real * 100.0;
    assert slack * (i + j) as real == slack * i as real + slack * j as real;
  }

  lemma PriceRounds()
    ensures RoundsWithin(OVERAGE_UNIT_PRICE, 0.4)
    ensures forall price :: RoundsWithin(price, 0.5)
  {
    forall n: int ensures PricedWithin(Cents(OVERAGE_UNIT_PRICE, n), n, OVERAGE_UNIT_PRICE, 0.4, 1) {
      ChargeWithinFourTenths(n);
    }
    forall price, n: int ensures PricedWithin(Cents(price, n), n, price, 0.5, 1) {
      ChargeWithinHalfCent(price, n);
    }
  }

  /** Each charge of record `u` in one category is the price of its units, up to the slack. */
  ghost predicate EachPriced(ledger: seq<Intent>, u: nat, c: Category, price: real, slack: real) {
    forall k :: 0 <= k < |ledger| && ledger[k].usage == u && c in ledger[k].charges ==>
      PricedWithin(ledger[k].charges[c].amount, ledger[k].charges[c].units, price, slack, 1)
  }

  lemma ChargesArePriced(ledger: seq<Intent>, usages: map<nat, Usage>, u: nat, c: Category, price: real, slack: real)
    requires LedgerOk(ledger, usages) && RoundsWithin(price, slack)
    requires forall k :: 0 <= k < |ledger| && ledger[k].usage == u ==> ledger[k].terms.pricing.unitPrice == price
    ensures EachPriced(ledger, u, c, price, slack)
  {
    forall k | 0 <= k < |ledger| && ledger[k].usage == u && c in ledger[k].charges
      ensures PricedWithin(ledger[k].charges[c].amount, ledger[k].charges[c].units, price, slack, 1)
    {
      AmountIsCents(ledger, usages, k, c);
      assert PricedWithin(Cents(price, ledger[k].charges[c].units), ledger[k].charges[c].units, price, slack, 1);
    }
  }

  lemma AmountIsCents(ledger: seq<Intent>, usages: map<nat, Usage>, k: nat, c: Category)
    requires LedgerOk(ledger, usages) && k < |ledger| && c in ledger[k].charges
    ensures ledger[k].charges[c].amount == Cents(ledger[k].terms.pricing.unitPrice, ledger[k].charges[c].units)
  {
  }

  /** The rounding errors of a record's charges add up to at most one slack per charge. */
  lemma {:induction false} RoundingAddsUp(ledger: seq<Intent>, u: nat, c: Category, price: real, slack: real)
    requires EachPriced(ledger, u, c, price, slack)
    ensures PricedWithin(ReservedTotal(ledger, u, c), TotalUnits(ledger, u, c), price, slack, ChargeCount(ledger, u, c))
  {
    if ledger == [] {
      NothingPriced(price, slack);
    } else {
      var front, last := ledger[..|ledger| - 1], ledger[|ledger| - 1];
      assert EachPriced(front, u, c, price, slack);
      RoundingAddsUp(front, u, c, price, slack);
      LastOfTotals(ledger, u, c);
      if last.usage == u && c in last.charges {
        AddPriced(ReservedTotal(front, u, c), TotalUnits(front, u, c), ChargeCount(front, u, c),
                  last.charges[c].amount, last.charges[c].units, 1, price, slack);
      }
    }
  }

  lemma NothingPriced(price: real, slack: real)
    ensures PricedWithin(0, 0, price, slack, 0)
  {
  }

  lemma LastOfTotals(ledger: seq<Intent>, u: nat, c: Category)
    requires ledger != []
    ensures var front, last := ledger[..|ledger| - 1], ledger[|ledger| - 1];
      if last.usage == u && c in last.charges then
        && ReservedTotal(ledger, u, c) == ReservedTotal(front, u, c) + last.charges[c].amount
        && TotalUnits(ledger, u, c) == TotalUnits(front, u, c) + last.charges[c].units
        && ChargeCount(ledger, u, c) == ChargeCount(front, u, c) + 1
      else
        && ReservedTotal(ledger, u, c) == ReservedTotal(front, u, c)
        && TotalUnits(ledger, u, c) == TotalUnits(front, u, c)
        && ChargeCount(ledger, u, c) == ChargeCount(front, u, c)
  {
  }

  ghost predicate StandardPrice(rows: seq<Report>) {
    forall r :: r in rows ==> r.terms.pricing.unitPrice == OVERAGE_UNIT_PRICE
  }

  lemma StagedPrice(W: World, s: Step)
    requires StandardPrice(W.rows) && (s.StageReport? || s.ClosePeriod?)
    ensures StandardPrice(AfterStage(W, StageIn(W, s)).rows)
  {
    PreviousByIndex(W.rows, s.u);
    var staged := StageIn(W, s);
    if staged.Fresh? && Previous(W.rows, s.u) != [] {
      assert Previous(W.rows, s.u)[0] in W.rows;
    }
  }

  lemma RowKeepsPrice(W: World, s: Step)
    requires Inv(W) && StandardPrice(W.rows) && Enabled(W, s) && ChangesRow(s)
    ensures RowAfter(W, s).terms.pricing.unitPrice == OVERAGE_UNIT_PRICE
  {
    assert HoldOk(W, W.holds[s.w]);
    RowAfterProgress(W, s);
    assert IntentOf(RowAfter(W, s)).terms == IntentOf(W.rows[W.holds[s.w].report]).terms;
    assert W.rows[W.holds[s.w].report] in W.rows;
  }

  lemma ReplacedPrice(rows: seq<Report>, id: nat, row: Report)
    requires StandardPrice(rows) && id < |rows| && row.terms.pricing.unitPrice == OVERAGE_UNIT_PRICE
    ensures StandardPrice(rows[id := row])
  {
  }

  lemma PriceStep(W: World, s: Step)
    requires Inv(W) && StandardPrice(W.rows) && Enabled(W, s)
    ensures StandardPrice(Apply(W, s).rows)
  {
    if ChangesRow(s) {
      RowKeepsPrice(W, s);
      ReplacedPrice(W.rows, W.holds[s.w].report, RowAfter(W, s));
    } else if s.StageReport? {
      StagedPrice(W, s);
    } else if s.ClosePeriod? {
      StagedPrice(if W.usages[s.u].billed then W else WithCounters(W, s.u, s.counters), s);
    } else if s.Requeue? {
      assert W.rows[s.report] in W.rows;
      ReplacedPrice(W.rows, s.report, W.rows[s.report].(status := Pending));
    }
  }

  lemma {:induction false} PriceRun(W: World, run: seq<Step>)
    requires Inv(W) && StandardPrice(W.rows) && Valid(W, run)
    ensures StandardPrice(Exec(W, run).rows)
    decreases |run|
  {
    if run != [] {
      PriceStep(W, run[0]);
      StepKeeps(W, run[0]);
      PriceRun(Apply(W, run[0]), run[1..]);
    }
  }

  lemma TermsOfRecord(V: World, u: nat, k: nat, j: nat)
    requires BooksOk(V) && StandardPrice(V.rows) && k < |V.rows| && V.rows[k].usage == u
    requires j < |V.rows| && V.rows[j].usage == u
    ensures u in V.usages && Intents(V.rows)[j].terms == V.rows[k].terms
    ensures V.rows[k].terms.pricing.unitPrice == OVERAGE_UNIT_PRICE
  {
    assert Intents(V.rows)[k].usage == u && Intents(V.rows)[j].usage == u;
    SameTerms(Intents(V.rows), V.usages, j, k);
    assert V.rows[k] in V.rows;
  }

  /**
   * Money is conserved end to end: once every report of record `u` is reported, the cents in
   * Stripe are the price of the overage between opening and highest reserved count, up to
   * two fifths of a cent per charge. `k` is any report of the record.
   */
  lemma MoneyIsConserved(W: World, run: seq<Step>, u: nat, c: Category, k: nat)
    requires Initial(W) && Valid(W, run) && k < |Exec(W, run).rows| && Exec(W, run).rows[k].usage == u
    requires AllReported(Exec(W, run).rows, u)
    ensures var V := Exec(W, run);
      u in V.usages &&
      var ledger, base, opening := Intents(V.rows), V.rows[k].terms.pricing.base.Get(c), V.usages[u].opening.Get(c);
      PricedWithin(StripeTotal(V.items, V.rows, u, c), Over(base, Mark(ledger, u, opening, c)) - Over(base, opening),
                   OVERAGE_UNIT_PRICE, 0.4, ChargeCount(ledger, u, c))
  {
    InitialBooks(W);
    BooksRun(W, run);
    PriceRun(W, run);
    SettledRecord(Exec(W, run), u, c, k);
  }

  lemma SettledRecord(V: World, u: nat, c: Category, k: nat)
    requires Inv(V) && BooksOk(V) && StandardPrice(V.rows) && AllReported(V.rows, u)
    requires k < |V.rows| && V.rows[k].usage == u
    ensures u in V.usages &&
      var ledger, base, opening := Intents(V.rows), V.rows[k].terms.pricing.base.Get(c), V.usages[u].opening.Get(c);
      PricedWithin(StripeTotal(V.items, V.rows, u, c), Over(base, Mark(ledger, u, opening, c)) - Over(base, opening),
                   OVERAGE_UNIT_PRICE, 0.4, ChargeCount(ledger, u, c))
  {
    var ledger, terms := Intents(V.rows), V.rows[k].terms;
    forall j | 0 <= j < |ledger| && ledger[j].usage == u
      ensures u in V.usages && ledger[j].terms == terms && terms.pricing.unitPrice == OVERAGE_UNIT_PRICE
    {
      TermsOfRecord(V, u, k, j);
    }
    assert ledger[k].usage == u;
    Telescopes(ledger, V.usages, u, c, terms.pricing.base.Get(c));
    PriceRounds();
    ChargesArePriced(ledger, V.usages, u, c, OVERAGE_UNIT_PRICE, 0.4);
    RoundingAddsUp(ledger, u, c, OVERAGE_UNIT_PRICE, 0.4);
    StripeHoldsTheReserve(V, u, c);
  }
}
