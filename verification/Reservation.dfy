/** What `stage` reserves, and the ledger of reservations it builds up. */
module Reservation {
  import opened Wrappers
  import opened Billing

  /** The earlier reports of a usage record, in the order they were reserved. */
  function Previous(rows: seq<Report>, u: nat): seq<Report> {
    if rows == [] then []
    else
      var last := rows[|rows| - 1];
      Previous(rows[..|rows| - 1], u) + if last.usage == u then [last] else []
  }

  function ByClosing(previous: seq<Report>, closing: string): Option<Report> {
    if previous == [] then None
    else if previous[0].closing == Some(closing) then Some(previous[0])
    else ByClosing(previous[1..], closing)
  }

  /** The maximum of the confirmed count and every earlier snapshot. */
  function HighMark(reported: int, previous: seq<Report>, c: Category): int {
    if previous == [] then reported
    else Max(HighMark(reported, previous[..|previous| - 1], c), previous[|previous| - 1].snapshot.Get(c))
  }

  function SnapshotOf(usage: Usage, previous: seq<Report>, c: Category): int {
    Max(HighMark(usage.reported.Get(c), previous, c), usage.counters.Get(c))
  }

  function Snapshots(usage: Usage, previous: seq<Report>): Counts {
    Counts(SnapshotOf(usage, previous, Traces), SnapshotOf(usage, previous, TraceEvals),
           SnapshotOf(usage, previous, SessionEvals))
  }

  function UnitsBetween(terms: Terms, c: Category, from: int, to: int): int {
    Over(terms.pricing.base.Get(c), to) - Over(terms.pricing.base.Get(c), from)
  }

  function MakeCharge(terms: Terms, id: nat, c: Category, from: int, to: int): Charge {
    var units := UnitsBetween(terms, c, from, to);
    Charge(terms.customer, terms.subscription, Cents(terms.pricing.unitPrice, units), units, from, to, id, c)
  }

  function NewUnits(usage: Usage, previous: seq<Report>, terms: Terms, c: Category): int {
    UnitsBetween(terms, c, HighMark(usage.reported.Get(c), previous, c), SnapshotOf(usage, previous, c))
  }

  /** One first request per category with new overage, aimed at `invoice` when there is one. */
  function Requests(usage: Usage, previous: seq<Report>, terms: Terms, id: nat, invoice: Option<string>)
    : map<Category, Request>
  {
    map c: Category | c in COUNTERS && NewUnits(usage, previous, terms, c) > 0 ::
      Request(MakeCharge(terms, id, c, HighMark(usage.reported.Get(c), previous, c), SnapshotOf(usage, previous, c)),
              invoice, Key(id, c, 0))
  }

  /** Terms are fixed by the first report of a record; `None` means that no customer is known. */
  function TermsFor(sub: Subscription, previous: seq<Report>): Option<Terms> {
    if previous != [] then Some(previous[0].terms)
    else if sub.customer.None? || sub.customer.value == "" then None
    else Some(Terms(Pricing(OVERAGE_UNIT_PRICE, BaseUnits(sub.plan)), sub.customer.value, sub.stripeSubscription))
  }

  datatype Staged = Nothing | Existing(report: Report) | MissingCustomer | Fresh(report: Report)

  function NewReport(sub: Subscription, usage: Usage, u: nat, previous: seq<Report>, terms: Terms, id: nat,
                     invoice: Option<string>, closing: Option<string>): Report
  {
    var requests := Requests(usage, previous, terms, id, invoice);
    Report(u, terms, closing, Snapshots(usage, previous), requests, map[], map[],
           if requests == map[] then Reported else Pending)
  }

  /** The outcome of staging usage record `u` under its row lock; `id` is the fresh report id. */
  function Stage(sub: Subscription, usages: map<nat, Usage>, u: nat, rows: seq<Report>,
                 invoice: Option<string>, closing: Option<string>, allowClosed: bool): Staged
  {
    var previous := Previous(rows, u);
    if u !in usages || (usages[u].billed && !allowClosed) then Nothing
    else if closing.Some? && ByClosing(previous, closing.value).Some? then
      Existing(ByClosing(previous, closing.value).value)
    else if !PayAsYouGo(sub.plan) && previous == [] then Nothing
    else
      match TermsFor(sub, previous)
      case None => MissingCustomer
      case Some(terms) =>
        var report := NewReport(sub, usages[u], u, previous, terms, |rows|, invoice, closing);
        if report.requests == map[] && closing.None? then Nothing else Fresh(report)
  }

  // ------------------------------------------------------------------ the ledger

  /** What a report promised when it was reserved. */
  datatype Intent = Intent(usage: nat, terms: Terms, snapshot: Counts, charges: map<Category, Charge>)

  function IntentOf(r: Report): Intent {
    Intent(r.usage, r.terms, r.snapshot, map c | c in r.requests :: r.requests[c].charge)
  }

  function Intents(rows: seq<Report>): seq<Intent> {
    seq(|rows|, i requires 0 <= i < |rows| => IntentOf(rows[i]))
  }

  /** Highest snapshot of record `u`, or `start` when nothing is reserved above it. */
  function Mark(ledger: seq<Intent>, u: nat, start: int, c: Category): int {
    if ledger == [] then start
    else
      var below := Mark(ledger[..|ledger| - 1], u, start, c);
      var last := ledger[|ledger| - 1];
      if last.usage == u then Max(below, last.snapshot.Get(c)) else below
  }

  function UnitsOf(intent: Intent, c: Category): int {
    if c in intent.charges then intent.charges[c].units else 0
  }

  /** All units ever reserved for record `u` in one category. */
  function TotalUnits(ledger: seq<Intent>, u: nat, c: Category): int {
    if ledger == [] then 0
    else
      var last := ledger[|ledger| - 1];
      TotalUnits(ledger[..|ledger| - 1], u, c) + if last.usage == u then UnitsOf(last, c) else 0
  }

  /** A report continues its record where the earlier ones stopped, on their terms. */
  ghost predicate Continues(earlier: seq<Intent>, id: nat, it: Intent, opening: Counts) {
    && (forall j :: 0 <= j < |earlier| && earlier[j].usage == it.usage ==> earlier[j].terms == it.terms)
    && forall c: Category ::
         var from := Mark(earlier, it.usage, opening.Get(c), c);
         && from <= it.snapshot.Get(c)
         && (c in it.charges <==> UnitsBetween(it.terms, c, from, it.snapshot.Get(c)) > 0)
         && (c in it.charges ==> it.charges[c] == MakeCharge(it.terms, id, c, from, it.snapshot.Get(c)))
  }

  ghost predicate LedgerOk(ledger: seq<Intent>, usages: map<nat, Usage>) {
    forall k :: 0 <= k < |ledger| ==>
      ledger[k].usage in usages && Continues(ledger[..k], k, ledger[k], usages[ledger[k].usage].opening)
  }

  /** The confirmed counts of a record lie between its opening and its highest snapshot. */
  ghost predicate ReportedOk(ledger: seq<Intent>, usages: map<nat, Usage>) {
    forall u, c: Category :: u in usages ==>
      usages[u].opening.Get(c) <= usages[u].reported.Get(c) <= Mark(ledger, u, usages[u].opening.Get(c), c)
  }

  lemma {:induction false} MarkFromHigherStart(ledger: seq<Intent>, u: nat, s: int, t: int, c: Category)
    requires s <= t
    ensures Mark(ledger, u, t, c) == Max(t, Mark(ledger, u, s, c))
  {
    if ledger != [] {
      MarkFromHigherStart(ledger[..|ledger| - 1], u, s, t, c);
    }
  }

  lemma {:induction false} MarkIsUpperBound(ledger: seq<Intent>, u: nat, s: int, c: Category)
    ensures s <= Mark(ledger, u, s, c)
    ensures forall j :: 0 <= j < |ledger| && ledger[j].usage == u ==> ledger[j].snapshot.Get(c) <= Mark(ledger, u, s, c)
  {
    if ledger != [] {
      MarkIsUpperBound(ledger[..|ledger| - 1], u, s, c);
    }
  }

  lemma {:induction false} PreviousByIndex(rows: seq<Report>, u: nat)
    ensures forall r :: r in Previous(rows, u) <==> exists i :: 0 <= i < |rows| && rows[i] == r && r.usage == u
  {
    if rows != [] {
      var front, last := rows[..|rows| - 1], rows[|rows| - 1];
      PreviousByIndex(front, u);
      assert rows == front + [last];
      forall r ensures r in Previous(rows, u) <==> exists i :: 0 <= i < |rows| && rows[i] == r && r.usage == u {
        if r in Previous(front, u) {
          var i :| 0 <= i < |front| && front[i] == r && r.usage == u;
          assert rows[i] == r;
        }
        if i :| 0 <= i < |rows| && rows[i] == r && r.usage == u {
          assert i < |front| ==> front[i] == r;
        }
      }
    }
  }

  lemma HighMarkAppend(start: int, previous: seq<Report>, r: Report, c: Category)
    ensures HighMark(start, previous + [r], c) == Max(HighMark(start, previous, c), r.snapshot.Get(c))
  {
    assert (previous + [r])[..|previous|] == previous;
  }

  lemma MarkOfLast(rows: seq<Report>, u: nat, start: int, c: Category)
    requires rows != []
    ensures var n := |rows| - 1; var below := Mark(Intents(rows[..n]), u, start, c);
      Mark(Intents(rows), u, start, c) == if rows[n].usage == u then Max(below, rows[n].snapshot.Get(c)) else below
  {
    assert Intents(rows)[..|rows| - 1] == Intents(rows[..|rows| - 1]);
  }

  /** The maximum that `stage` computes over its query is the ledger's high-water mark. */
  lemma {:induction false} HighMarkIsMark(rows: seq<Report>, u: nat, start: int, c: Category)
    ensures HighMark(start, Previous(rows, u), c) == Mark(Intents(rows), u, start, c)
  {
    if rows != [] {
      var front, last := rows[..|rows| - 1], rows[|rows| - 1];
      HighMarkIsMark(front, u, start, c);
      MarkOfLast(rows, u, start, c);
      HighMarkAppend(start, Previous(front, u), last, c);
      assert Previous(front, u) + [] == Previous(front, u);
    }
  }

  lemma LedgerExtends(ledger: seq<Intent>, it: Intent, usages: map<nat, Usage>)
    requires LedgerOk(ledger, usages) && it.usage in usages
    requires Continues(ledger, |ledger|, it, usages[it.usage].opening)
    ensures LedgerOk(ledger + [it], usages)
  {
    var grown := ledger + [it];
    forall k | 0 <= k < |grown|
      ensures grown[k].usage in usages && Continues(grown[..k], k, grown[k], usages[grown[k].usage].opening)
    {
      if k < |ledger| {
        assert grown[..k] == ledger[..k];
      } else {
        assert grown[..k] == ledger;
      }
    }
  }

  lemma ReportedExtends(ledger: seq<Intent>, it: Intent, usages: map<nat, Usage>)
    requires ReportedOk(ledger, usages)
    ensures ReportedOk(ledger + [it], usages)
  {
    assert (ledger + [it])[..|ledger|] == ledger;
  }

  /** Reserving never repeats or skips a unit: a fresh report extends the ledger. */
  lemma StageExtends(sub: Subscription, usages: map<nat, Usage>, u: nat, rows: seq<Report>,
                     invoice: Option<string>, closing: Option<string>, allowClosed: bool)
    requires LedgerOk(Intents(rows), usages) && ReportedOk(Intents(rows), usages)
    requires Stage(sub, usages, u, rows, invoice, closing, allowClosed).Fresh?
    ensures var r := Stage(sub, usages, u, rows, invoice, closing, allowClosed).report;
      LedgerOk(Intents(rows + [r]), usages) && ReportedOk(Intents(rows + [r]), usages)
  {
    var r := Stage(sub, usages, u, rows, invoice, closing, allowClosed).report;
    assert Intents(rows + [r]) == Intents(rows) + [IntentOf(r)];
    FreshContinues(sub, usages, u, rows, invoice, closing, allowClosed);
    LedgerExtends(Intents(rows), IntentOf(r), usages);
    ReportedExtends(Intents(rows), IntentOf(r), usages);
  }

  lemma CountersCoverAll(c: Category)
    ensures c in COUNTERS
  {
    match c
    case Traces => assert COUNTERS[0] == c;
    case TraceEvals => assert COUNTERS[1] == c;
    case SessionEvals => assert COUNTERS[2] == c;
  }

  lemma FreshTerms(sub: Subscription, usages: map<nat, Usage>, u: nat, rows: seq<Report>, terms: Terms, j: nat)
    requires LedgerOk(Intents(rows), usages)
    requires TermsFor(sub, Previous(rows, u)) == Some(terms)
    requires j < |rows| && rows[j].usage == u
    ensures rows[j].terms == terms
  {
    var ledger, previous := Intents(rows), Previous(rows, u);
    PreviousByIndex(rows, u);
    assert rows[j] in previous;
    assert previous[0] in previous;
    var i :| 0 <= i < |rows| && rows[i] == previous[0] && rows[i].usage == u;
    assert ledger[i].usage == u && ledger[j].usage == u;
    SameTerms(ledger, usages, i, j);
    assert ledger[i].terms == rows[i].terms && ledger[j].terms == rows[j].terms;
  }

  lemma FreshStart(usages: map<nat, Usage>, u: nat, rows: seq<Report>, c: Category)
    requires ReportedOk(Intents(rows), usages) && u in usages
    ensures HighMark(usages[u].reported.Get(c), Previous(rows, u), c)
         == Mark(Intents(rows), u, usages[u].opening.Get(c), c)
  {
    var usage := usages[u];
    HighMarkIsMark(rows, u, usage.reported.Get(c), c);
    MarkFromHigherStart(Intents(rows), u, usage.opening.Get(c), usage.reported.Get(c), c);
  }

  lemma FreshLink(usage: Usage, u: nat, previous: seq<Report>, terms: Terms, sub: Subscription, id: nat,
                  invoice: Option<string>, closing: Option<string>, c: Category)
    ensures
      var it := IntentOf(NewReport(sub, usage, u, previous, terms, id, invoice, closing));
      var from := HighMark(usage.reported.Get(c), previous, c);
      && from <= it.snapshot.Get(c)
      && (c in it.charges <==> UnitsBetween(terms, c, from, it.snapshot.Get(c)) > 0)
      && (c in it.charges ==> it.charges[c] == MakeCharge(terms, id, c, from, it.snapshot.Get(c)))
  {
    CountersCoverAll(c);
    assert Snapshots(usage, previous).Get(c) == SnapshotOf(usage, previous, c);
  }

  lemma FreshContinues(sub: Subscription, usages: map<nat, Usage>, u: nat, rows: seq<Report>,
                       invoice: Option<string>, closing: Option<string>, allowClosed: bool)
    requires LedgerOk(Intents(rows), usages) && ReportedOk(Intents(rows), usages)
    requires Stage(sub, usages, u, rows, invoice, closing, allowClosed).Fresh?
    ensures var r := Stage(sub, usages, u, rows, invoice, closing, allowClosed).report;
      Continues(Intents(rows), |rows|, IntentOf(r), usages[u].opening)
  {
    var previous, usage := Previous(rows, u), usages[u];
    var r := Stage(sub, usages, u, rows, invoice, closing, allowClosed).report;
    forall j | 0 <= j < |rows| && Intents(rows)[j].usage == u ensures Intents(rows)[j].terms == r.terms {
      FreshTerms(sub, usages, u, rows, r.terms, j);
    }
    forall c: Category
      ensures var from := Mark(Intents(rows), u, usage.opening.Get(c), c);
        && from <= r.snapshot.Get(c)
        && (c in IntentOf(r).charges <==> UnitsBetween(r.terms, c, from, r.snapshot.Get(c)) > 0)
        && (c in IntentOf(r).charges ==>
              IntentOf(r).charges[c] == MakeCharge(r.terms, |rows|, c, from, r.snapshot.Get(c)))
    {
      FreshStart(usages, u, rows, c);
      FreshLink(usage, u, previous, r.terms, sub, |rows|, invoice, closing, c);
    }
  }

  /**
   * A fresh report asks for exactly the categories with new overage, each once, aimed at the
   * given invoice under its first key, and is born reported only when there is nothing to ask.
   */
  lemma FreshReportAsks(sub: Subscription, usages: map<nat, Usage>, u: nat, rows: seq<Report>,
                        invoice: Option<string>, closing: Option<string>, allowClosed: bool, c: Category)
    requires Stage(sub, usages, u, rows, invoice, closing, allowClosed).Fresh?
    ensures var r := Stage(sub, usages, u, rows, invoice, closing, allowClosed).report;
      && (c in r.requests <==> Over(r.terms.pricing.base.Get(c), usages[u].counters.Get(c))
                                 > Over(r.terms.pricing.base.Get(c), HighMark(usages[u].reported.Get(c), Previous(rows, u), c)))
      && (c in r.requests ==> r.requests[c].invoice == invoice && r.requests[c].key == Key(|rows|, c, 0))
      && r.usage == u && r.closing == closing && r.attempted == map[] && r.items == map[]
      && (r.status.Reported? <==> r.requests == map[]) && (r.requests == map[] ==> closing.Some?)
  {
    CountersCoverAll(c);
  }

  /** Every report of a record shares one pricing, customer and subscription. */
  lemma SameTerms(ledger: seq<Intent>, usages: map<nat, Usage>, i: nat, j: nat)
    requires LedgerOk(ledger, usages) && i < |ledger| && j < |ledger| && ledger[i].usage == ledger[j].usage
    ensures ledger[i].terms == ledger[j].terms
  {
    if i < j {
      assert ledger[..j][i] == ledger[i];
    } else if j < i {
      assert ledger[..i][j] == ledger[j];
    }
  }

  /** The units over all reports of a record telescope to the overage between opening and mark. */
  lemma {:induction false} Telescopes(ledger: seq<Intent>, usages: map<nat, Usage>, u: nat, c: Category, base: int)
    requires LedgerOk(ledger, usages) && u in usages
    requires forall k :: 0 <= k < |ledger| && ledger[k].usage == u ==> ledger[k].terms.pricing.base.Get(c) == base
    ensures var opening := usages[u].opening.Get(c);
      TotalUnits(ledger, u, c) == Over(base, Mark(ledger, u, opening, c)) - Over(base, opening)
  {
    if ledger != [] {
      var n := |ledger| - 1;
      var front, last := ledger[..n], ledger[n];
      LedgerPrefix(ledger, usages, n);
      Telescopes(front, usages, u, c, base) by {
        assert forall k :: 0 <= k < n ==> front[k] == ledger[k];
      }
      if last.usage == u {
        assert Continues(front, n, last, usages[u].opening);
        OneMoreLink(front, n, last, usages[u].opening, c);
      }
    }
  }

  lemma OneMoreLink(earlier: seq<Intent>, id: nat, it: Intent, opening: Counts, c: Category)
    requires Continues(earlier, id, it, opening)
    ensures var from := Mark(earlier, it.usage, opening.Get(c), c);
      from <= it.snapshot.Get(c) && UnitsOf(it, c) == UnitsBetween(it.terms, c, from, it.snapshot.Get(c))
  {
  }

  lemma LedgerPrefix(ledger: seq<Intent>, usages: map<nat, Usage>, n: nat)
    requires LedgerOk(ledger, usages) && n <= |ledger|
    ensures LedgerOk(ledger[..n], usages)
  {
    forall k | 0 <= k < n
      ensures Continues(ledger[..n][..k], k, ledger[..n][k], usages[ledger[..n][k].usage].opening)
    {
      assert ledger[..n][..k] == ledger[..k];
    }
  }

  /** Two charges of one record and category never cover a common unit. */
  lemma ChargesDisjoint(ledger: seq<Intent>, usages: map<nat, Usage>, i: nat, j: nat, c: Category)
    requires LedgerOk(ledger, usages) && i < j < |ledger| && ledger[i].usage == ledger[j].usage
    requires c in ledger[i].charges && c in ledger[j].charges
    ensures ledger[i].charges[c].from < ledger[i].charges[c].to <= ledger[j].charges[c].from
  {
    assert ledger[..j][i] == ledger[i];
    MarkIsUpperBound(ledger[..j], ledger[j].usage, usages[ledger[j].usage].opening.Get(c), c);
  }

  /** Each charge bills a positive number of units at the shared price, in half-up cents. */
  lemma ChargeIsPriced(ledger: seq<Intent>, usages: map<nat, Usage>, k: nat, c: Category)
    requires LedgerOk(ledger, usages) && k < |ledger| && c in ledger[k].charges
    ensures var ch, price := ledger[k].charges[c], ledger[k].terms.pricing.unitPrice;
      && 0 < ch.units <= ch.to - ch.from
      && ch.report == k && ch.category == c && ch.customer == ledger[k].terms.customer
      && Abs(ch.amount as real - price * ch.units as real * 100.0) <= 0.5
  {
    ChargeWithinHalfCent(ledger[k].terms.pricing.unitPrice, ledger[k].charges[c].units);
  }

  // ------------------------------------------------------------------ who is charged, and on which terms

  /** Some earlier report reserves usage of record `u`. */
  ghost predicate HasReport(rows: seq<Report>, u: nat) {
    exists i :: 0 <= i < |rows| && rows[i].usage == u
  }

  /** Record `u` was already closed by this invoice. */
  ghost predicate HasClosing(rows: seq<Report>, u: nat, closing: string) {
    exists i :: 0 <= i < |rows| && rows[i].usage == u && rows[i].closing == Some(closing)
  }

  lemma PreviousIsEmpty(rows: seq<Report>, u: nat)
    ensures Previous(rows, u) == [] <==> !HasReport(rows, u)
  {
    PreviousByIndex(rows, u);
    if Previous(rows, u) != [] {
      assert Previous(rows, u)[0] in Previous(rows, u);
    }
    if i :| 0 <= i < |rows| && rows[i].usage == u {
      assert rows[i] in Previous(rows, u);
    }
  }

  lemma {:induction false} ByClosingMeaning(previous: seq<Report>, closing: string)
    ensures var r := ByClosing(previous, closing);
      && (r.Some? ==> r.value in previous && r.value.closing == Some(closing))
      && (r.None? ==> forall p :: p in previous ==> p.closing != Some(closing))
  {
    if previous != [] && previous[0].closing != Some(closing) {
      ByClosingMeaning(previous[1..], closing);
    }
  }

  lemma ByClosingOfRecord(rows: seq<Report>, u: nat, closing: string)
    ensures ByClosing(Previous(rows, u), closing).Some? <==> HasClosing(rows, u, closing)
  {
    PreviousByIndex(rows, u);
    ByClosingMeaning(Previous(rows, u), closing);
    if i :| 0 <= i < |rows| && rows[i].usage == u && rows[i].closing == Some(closing) {
      assert rows[i] in Previous(rows, u);
    }
  }

  /** The guards of staging, in the order in which they are tried. */
  lemma StageGuards(sub: Subscription, usages: map<nat, Usage>, u: nat, rows: seq<Report>,
                    invoice: Option<string>, closing: Option<string>, allowClosed: bool)
    ensures var staged := Stage(sub, usages, u, rows, invoice, closing, allowClosed);
      if u !in usages || (usages[u].billed && !allowClosed) then staged.Nothing?
      else if closing.Some? && HasClosing(rows, u, closing.value) then
        staged.Existing? && staged.report.closing == closing && staged.report in Previous(rows, u)
      else if !HasReport(rows, u) && (sub.plan.Hobby? || sub.plan.Development?) then staged.Nothing?
      else if !HasReport(rows, u) && (sub.customer.None? || sub.customer.value == "") then staged.MissingCustomer?
      else staged.Fresh? || (staged.Nothing? && closing.None?)
  {
    PreviousIsEmpty(rows, u);
    if closing.Some? {
      ByClosingOfRecord(rows, u, closing.value);
      ByClosingMeaning(Previous(rows, u), closing.value);
    }
  }

  lemma TermsForMeaning(sub: Subscription, rows: seq<Report>, u: nat)
    ensures var found := TermsFor(sub, Previous(rows, u));
      if HasReport(rows, u) then found.Some? && exists i :: 0 <= i < |rows| && rows[i].usage == u && rows[i].terms == found.value
      else if sub.customer.None? || sub.customer.value == "" then found.None?
      else found == Some(Terms(Pricing(0.004, BaseUnits(sub.plan)), sub.customer.value, sub.stripeSubscription))
  {
    PreviousIsEmpty(rows, u);
    PreviousByIndex(rows, u);
    if Previous(rows, u) != [] {
      assert Previous(rows, u)[0] in Previous(rows, u);
    }
  }

  /** A first report is charged on the subscription's plan; later ones on the terms of the first. */
  lemma TermsAreFixed(sub: Subscription, usages: map<nat, Usage>, u: nat, rows: seq<Report>,
                      invoice: Option<string>, closing: Option<string>, allowClosed: bool)
    requires LedgerOk(Intents(rows), usages)
    requires Stage(sub, usages, u, rows, invoice, closing, allowClosed).Fresh?
    ensures var terms := Stage(sub, usages, u, rows, invoice, closing, allowClosed).report.terms;
      && (!HasReport(rows, u) ==>
            sub.customer.Some? && terms == Terms(Pricing(0.004, BaseUnits(sub.plan)), sub.customer.value, sub.stripeSubscription))
      && forall i :: 0 <= i < |rows| && rows[i].usage == u ==> rows[i].terms == terms
  {
    PreviousIsEmpty(rows, u);
    var terms := Stage(sub, usages, u, rows, invoice, closing, allowClosed).report.terms;
    forall i | 0 <= i < |rows| && rows[i].usage == u ensures rows[i].terms == terms {
      FreshTerms(sub, usages, u, rows, terms, i);
    }
  }

  /** Units beyond `base` between two counts, spelled out. */
  lemma UnitsSpelledOut(terms: Terms, c: Category, from: int, to: int)
    requires from <= to
    ensures var base := terms.pricing.base.Get(c);
      UnitsBetween(terms, c, from, to) == if to <= base then 0 else if from <= base then to - base else to - from
  {
  }

  lemma NewReportCharges(usage: Usage, u: nat, previous: seq<Report>, terms: Terms, sub: Subscription, id: nat,
                         invoice: Option<string>, closing: Option<string>, c: Category)
    ensures
      var r := NewReport(sub, usage, u, previous, terms, id, invoice, closing);
      var base, n, before := terms.pricing.base.Get(c), usage.counters.Get(c), HighMark(usage.reported.Get(c), previous, c);
      && r.snapshot.Get(c) == (if before < n then n else before)
      && (c in r.requests <==> n > before && n > base)
      && (c in r.requests ==> r.requests[c].charge == MakeCharge(terms, id, c, before, n))
      && (c in r.requests ==> r.requests[c].charge.units == n - (if before < base then base else before))
  {
    hide Cents;
    CountersCoverAll(c);
    UnitsSpelledOut(terms, c, HighMark(usage.reported.Get(c), previous, c), SnapshotOf(usage, previous, c));
  }

  lemma ChargeSpelledOut(terms: Terms, id: nat, c: Category, from: int, to: int)
    ensures var charge := MakeCharge(terms, id, c, from, to);
      && charge.from == from && charge.to == to && charge.report == id && charge.category == c
      && charge.customer == terms.customer && charge.subscription == terms.subscription
      && Abs(charge.amount as real - terms.pricing.unitPrice * charge.units as real * 100.0) <= 0.5
  {
    ChargeWithinHalfCent(terms.pricing.unitPrice, UnitsBetween(terms, c, from, to));
  }

  /**
   * What one report reserves: per category the highest count of the record so far, in counters,
   * confirmed count and snapshots, and a charge exactly for what lies beyond both the included
   * base and everything reserved or confirmed before.
   */
  lemma FreshReportReserves(sub: Subscription, usages: map<nat, Usage>, u: nat, rows: seq<Report>,
                            invoice: Option<string>, closing: Option<string>, allowClosed: bool, c: Category)
    requires Stage(sub, usages, u, rows, invoice, closing, allowClosed).Fresh?
    ensures var r := Stage(sub, usages, u, rows, invoice, closing, allowClosed).report;
      var base, n, before := r.terms.pricing.base.Get(c), usages[u].counters.Get(c), Mark(Intents(rows), u, usages[u].reported.Get(c), c);
      && r.snapshot.Get(c) == (if before < n then n else before)
      && (c in r.requests <==> n > before && n > base)
      && (c in r.requests ==>
            var charge := r.requests[c].charge;
            && charge.units == n - (if before < base then base else before) && charge.from == before && charge.to == n
            && charge.customer == r.terms.customer && charge.subscription == r.terms.subscription
            && charge.report == |rows| && charge.category == c
            && Abs(charge.amount as real - r.terms.pricing.unitPrice * charge.units as real * 100.0) <= 0.5)
  {
    hide NewReport, MakeCharge, Mark, HighMark, Cents, Abs;
    var r := Stage(sub, usages, u, rows, invoice, closing, allowClosed).report;
    var previous, usage := Previous(rows, u), usages[u];
    assert r == NewReport(sub, usage, u, previous, TermsFor(sub, previous).value, |rows|, invoice, closing);
    HighMarkIsMark(rows, u, usage.reported.Get(c), c);
    NewReportCharges(usage, u, previous, TermsFor(sub, previous).value, sub, |rows|, invoice, closing, c);
    NewReportTerms(usage, u, previous, TermsFor(sub, previous).value, sub, |rows|, invoice, closing);
    ChargeSpelledOut(r.terms, |rows|, c, HighMark(usage.reported.Get(c), previous, c), usage.counters.Get(c));
  }

  lemma NewReportTerms(usage: Usage, u: nat, previous: seq<Report>, terms: Terms, sub: Subscription, id: nat,
                       invoice: Option<string>, closing: Option<string>)
    ensures NewReport(sub, usage, u, previous, terms, id, invoice, closing).terms == terms
  {
  }

  /** Units that the plan includes are never charged on a record's first report. */
  lemma IncludedUnitsAreFree(sub: Subscription, usages: map<nat, Usage>, u: nat, rows: seq<Report>,
                             invoice: Option<string>, closing: Option<string>, allowClosed: bool, c: Category)
    requires LedgerOk(Intents(rows), usages) && !HasReport(rows, u)
    requires Stage(sub, usages, u, rows, invoice, closing, allowClosed).Fresh?
    ensures var r := Stage(sub, usages, u, rows, invoice, closing, allowClosed).report;
      var base, n, reported := BaseUnits(sub.plan).Get(c), usages[u].counters.Get(c), usages[u].reported.Get(c);
      && (c in r.requests <==> n > base && n > reported)
      && (c in r.requests ==> r.requests[c].charge.units == n - (if reported < base then base else reported))
  {
    TermsAreFixed(sub, usages, u, rows, invoice, closing, allowClosed);
    FreshReportReserves(sub, usages, u, rows, invoice, closing, allowClosed, c);
    PreviousIsEmpty(rows, u);
    HighMarkIsMark(rows, u, usages[u].reported.Get(c), c);
  }

  /** Without a closing invoice a report is made exactly when some category has something to charge. */
  lemma FreshOnlyForOverage(sub: Subscription, usages: map<nat, Usage>, u: nat, rows: seq<Report>,
                            invoice: Option<string>, allowClosed: bool, terms: Terms)
    requires u in usages && (!usages[u].billed || allowClosed)
    requires HasReport(rows, u) || (!sub.plan.Hobby? && !sub.plan.Development?)
    requires TermsFor(sub, Previous(rows, u)) == Some(terms)
    ensures Stage(sub, usages, u, rows, invoice, None, allowClosed).Fresh? <==>
      exists c: Category :: usages[u].counters.Get(c) > Mark(Intents(rows), u, usages[u].reported.Get(c), c)
                            && usages[u].counters.Get(c) > terms.pricing.base.Get(c)
  {
    PreviousIsEmpty(rows, u);
    var previous, usage := Previous(rows, u), usages[u];
    forall c: Category
      ensures NewUnits(usage, previous, terms, c) > 0 <==>
        usage.counters.Get(c) > Mark(Intents(rows), u, usage.reported.Get(c), c) && usage.counters.Get(c) > terms.pricing.base.Get(c)
    {
      HighMarkIsMark(rows, u, usage.reported.Get(c), c);
      UnitsSpelledOut(terms, c, HighMark(usage.reported.Get(c), previous, c), SnapshotOf(usage, previous, c));
    }
    RequestsEmpty(usage, previous, terms, |rows|, invoice);
  }

  lemma RequestsEmpty(usage: Usage, previous: seq<Report>, terms: Terms, id: nat, invoice: Option<string>)
    ensures Requests(usage, previous, terms, id, invoice) == map[] <==> forall c: Category :: NewUnits(usage, previous, terms, c) <= 0
  {
    var requests := Requests(usage, previous, terms, id, invoice);
    forall c: Category ensures c in requests <==> NewUnits(usage, previous, terms, c) > 0 {
      CountersCoverAll(c);
    }
    if requests != map[] {
      var c :| c in requests.Keys;
    }
  }
}
