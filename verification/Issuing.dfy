/** Finalizing inspections: one invoice each, numbered from per-year sequences that other invoices share. */
module Issuing {
  import opened Wrappers
  import opened Runs
  import opened Rounding
  import opened Numbering

  type Id = string

  datatype Cargo = Dry | Liquid(jetty: string, category: string)

  datatype Rates = Rates(dry: real, international: real, government: real, private: real,
                         commission: real, exchange: real)

  datatype CallStatus = Expected | InProgress | Completed | Cancelled

  datatype Call = Call(nrt: real, status: CallStatus, berthed: Option<nat>, version: nat)

  datatype Inspection = Inspection(call: Id, cargo: Cargo, completed: Option<nat>, version: nat)

  /** An issued invoice; an invoice without inspection was raised for a measured disparity. */
  datatype Invoice = Invoice(number: string, inspection: Option<Id>, dues: real, rate: real,
                             usd: real, ngn: real, exchange: real)

  /** Which sequence a number comes from. */
  datatype Series = Series(kind: string, year: nat)

  /** One number drawn from a series. */
  datatype Ticket = Ticket(series: Series, n: nat)

  /** One organization's tables; `issued` records every number drawn, in order. */
  datatype Firm = Firm(rates: Rates, calls: map<Id, Call>, inspections: map<Id, Inspection>,
                       invoices: seq<Invoice>, counters: map<Series, nat>, issued: seq<Ticket>, revision: nat)

  /** `rate_for_inspection`. */
  function RateFor(cargo: Cargo, rates: Rates): real {
    match cargo
    case Dry => rates.dry
    case Liquid(jetty, category) =>
      if jetty == "International" then rates.international
      else if jetty == "Local" && category == "Government" then rates.government
      else if jetty == "Local" && category == "Private" then rates.private
      else 0.0
  }

  function ValueOf(counters: map<Series, nat>, s: Series): nat {
    if s in counters then counters[s] else 0
  }

  /** `next_number`: raise the counter and print it. */
  function Drawn(f: Firm, s: Series): Firm {
    f.(counters := f.counters[s := ValueOf(f.counters, s) + 1],
       issued := f.issued + [Ticket(s, ValueOf(f.counters, s) + 1)])
  }

  function NumberOf(f: Firm, s: Series, prefix: string): string {
    Printed(prefix, s.year, ValueOf(f.counters, s) + 1)
  }

  /** The place of an inspection's invoice. */
  function InvoiceAt(invoices: seq<Invoice>, i: Id): (r: Option<nat>)
    ensures r.Some? ==> r.value < |invoices| && invoices[r.value].inspection == Some(i)
    ensures r.None? ==> forall k :: 0 <= k < |invoices| ==> invoices[k].inspection != Some(i)
  {
    if invoices == [] then None
    else
      var n := |invoices| - 1;
      if invoices[n].inspection == Some(i) then Some(n)
      else
        var r := InvoiceAt(invoices[..n], i);
        assert r.None? ==> forall k :: 0 <= k < n ==> invoices[..n][k] == invoices[k];
        r
  }

  const INVOICE := "invoice"
  const INSPECTION := "inspection"

  function NewInvoice(f: Firm, i: Id, year: nat): Invoice
    requires i in f.inspections && f.inspections[i].call in f.calls
  {
    var rate := RateFor(f.inspections[i].cargo, f.rates);
    var dues := Dues(f.calls[f.inspections[i].call].nrt, rate);
    var usd := CommissionUsd(dues, f.rates.commission);
    Invoice(NumberOf(f, Series(INVOICE, year), "INV"), Some(i), dues, rate, usd,
            CommissionNgn(usd, f.rates.exchange), f.rates.exchange)
  }

  function Closed(c: Call, today: nat): Call {
    c.(status := Completed, berthed := if c.berthed.Some? then c.berthed else Some(today), version := c.version + 1)
  }

  datatype Result = Missing | Existing(place: nat) | Issued(place: nat)

  datatype Out = Out(firm: Firm, result: Result)

  /** `finalize_inspection`; the revision rises once more in the endpoint, not here. */
  function AfterFinalize(f: Firm, i: Id, year: nat, today: nat): Out {
    if i !in f.inspections || f.inspections[i].call !in f.calls then Out(f, Missing)
    else
      var at := InvoiceAt(f.invoices, i);
      if at.Some? then Out(f, Existing(at.value))
      else
        var insp := f.inspections[i];
        var done := Drawn(f, Series(INVOICE, year));
        Out(done.(inspections := f.inspections[i := insp.(completed := Some(today), version := insp.version + 1)],
                  calls := f.calls[insp.call := Closed(f.calls[insp.call], today)],
                  invoices := f.invoices + [NewInvoice(f, i, year)],
                  revision := f.revision + 1),
            Issued(|f.invoices|))
  }

  datatype Act =
    | Finalize(i: Id, year: nat, today: nat)
    | RaiseDisparity(amount: real, year: nat)
    | Inspect(i: Id, call: Id, cargo: Cargo, year: nat)
    | Register(c: Id, nrt: real)
    | SetRates(rates: Rates)

  function Next(f: Firm, a: Act): Firm {
    match a
    case Finalize(i, year, today) => AfterFinalize(f, i, year, today).firm
    case RaiseDisparity(amount, year) =>
      Drawn(f, Series(INVOICE, year)).(
        invoices := f.invoices + [Invoice(NumberOf(f, Series(INVOICE, year), "INV"), None, Money(amount), 0.0, 0.0, 0.0,
                                          f.rates.exchange)],
        revision := f.revision + 1)
    case Inspect(i, call, cargo, year) =>
      if i in f.inspections || call !in f.calls || f.calls[call].status == Cancelled then f
      else
        var row := f.calls[call];
        Drawn(f, Series(INSPECTION, year)).(
          inspections := f.inspections[i := Inspection(call, cargo, None, 1)],
          calls := f.calls[call := row.(status := InProgress, version := row.version + 1)],
          revision := f.revision + 1)
    case Register(c, nrt) =>
      if c in f.calls then f else f.(calls := f.calls[c := Call(nrt, Expected, None, 1)], revision := f.revision + 1)
    case SetRates(rates) => f.(rates := rates, revision := f.revision + 1)
  }

  // ---- the invariant ----

  /** The numbers drawn from a series are exactly 1..value, each once. */
  ghost predicate TicketsOk(counters: map<Series, nat>, issued: seq<Ticket>) {
    && (forall k :: 0 <= k < |issued| ==> 1 <= issued[k].n <= ValueOf(counters, issued[k].series))
    && (forall s, n: nat :: 1 <= n <= ValueOf(counters, s) ==> Ticket(s, n) in issued)
    && Distinct(issued)
  }

  /** The tickets drawn for invoices, in order. */
  function InvoiceTickets(issued: seq<Ticket>): seq<Ticket> {
    if issued == [] then []
    else
      var n := |issued| - 1;
      InvoiceTickets(issued[..n]) + (if issued[n].series.kind == INVOICE then [issued[n]] else [])
  }

  /** The invoices carry, in order, exactly the invoice tickets. */
  ghost predicate NumbersOk(invoices: seq<Invoice>, issued: seq<Ticket>) {
    && |invoices| == |InvoiceTickets(issued)|
    && forall k :: 0 <= k < |invoices| ==>
         invoices[k].number == Printed("INV", InvoiceTickets(issued)[k].series.year, InvoiceTickets(issued)[k].n)
  }

  /** No inspection has two invoices, and an invoiced inspection is completed. */
  ghost predicate OneInvoiceEach(invoices: seq<Invoice>, inspections: map<Id, Inspection>) {
    && (forall j, k :: 0 <= j < k < |invoices| && invoices[j].inspection.Some? ==>
          invoices[j].inspection != invoices[k].inspection)
    && (forall k :: 0 <= k < |invoices| && invoices[k].inspection.Some? ==>
          invoices[k].inspection.value in inspections && inspections[invoices[k].inspection.value].completed.Some?)
  }

  ghost predicate Ok(f: Firm) {
    TicketsOk(f.counters, f.issued) && NumbersOk(f.invoices, f.issued) && OneInvoiceEach(f.invoices, f.inspections)
  }

  lemma DrawKeepsTickets(f: Firm, s: Series)
    requires TicketsOk(f.counters, f.issued)
    ensures TicketsOk(Drawn(f, s).counters, Drawn(f, s).issued)
  {
  }

  lemma AddInvoiceKeepsNumbers(invoices: seq<Invoice>, issued: seq<Ticket>, invoice: Invoice, t: Ticket)
    requires NumbersOk(invoices, issued) && t.series.kind == INVOICE
    requires invoice.number == Printed("INV", t.series.year, t.n)
    ensures NumbersOk(invoices + [invoice], issued + [t])
  {
  }

  lemma OtherTicketKeepsNumbers(invoices: seq<Invoice>, issued: seq<Ticket>, t: Ticket)
    requires NumbersOk(invoices, issued) && t.series.kind != INVOICE
    ensures NumbersOk(invoices, issued + [t])
  {
  }

  lemma FirstInvoiceKeepsEach(invoices: seq<Invoice>, inspections: map<Id, Inspection>, invoice: Invoice, i: Id, row: Inspection)
    requires OneInvoiceEach(invoices, inspections) && InvoiceAt(invoices, i).None?
    requires invoice.inspection == Some(i) && row.completed.Some?
    ensures OneInvoiceEach(invoices + [invoice], inspections[i := row])
  {
  }

  lemma NewInvoiceFields(f: Firm, i: Id, year: nat)
    requires i in f.inspections && f.inspections[i].call in f.calls
    ensures NewInvoice(f, i, year).inspection == Some(i)
    ensures NewInvoice(f, i, year).number == NumberOf(f, Series(INVOICE, year), "INV")
  {
  }

  lemma FinalizeKeepsOk(f: Firm, i: Id, year: nat, today: nat)
    requires Ok(f)
    ensures Ok(AfterFinalize(f, i, year, today).firm)
  {
    hide TicketsOk, NumbersOk, OneInvoiceEach, NewInvoice, Printed;
    var out := AfterFinalize(f, i, year, today);
    if out.result.Issued? {
      var s := Series(INVOICE, year);
      NewInvoiceFields(f, i, year);
      DrawKeepsTickets(f, s);
      AddInvoiceKeepsNumbers(f.invoices, f.issued, NewInvoice(f, i, year), Ticket(s, ValueOf(f.counters, s) + 1));
      FirstInvoiceKeepsEach(f.invoices, f.inspections, NewInvoice(f, i, year), i, out.firm.inspections[i]);
    }
  }

  lemma DisparityKeepsOk(f: Firm, amount: real, year: nat)
    requires Ok(f)
    ensures Ok(Next(f, RaiseDisparity(amount, year)))
  {
    hide TicketsOk, NumbersOk, Printed;
    var s := Series(INVOICE, year);
    var after := Next(f, RaiseDisparity(amount, year));
    DrawKeepsTickets(f, s);
    AddInvoiceKeepsNumbers(f.invoices, f.issued, after.invoices[|f.invoices|], Ticket(s, ValueOf(f.counters, s) + 1));
  }

  lemma InspectKeepsOk(f: Firm, i: Id, call: Id, cargo: Cargo, year: nat)
    requires Ok(f)
    ensures Ok(Next(f, Inspect(i, call, cargo, year)))
  {
    hide TicketsOk, NumbersOk;
    var s := Series(INSPECTION, year);
    DrawKeepsTickets(f, s);
    OtherTicketKeepsNumbers(f.invoices, f.issued, Ticket(s, ValueOf(f.counters, s) + 1));
  }

  lemma NextKeepsOk(f: Firm, a: Act)
    requires Ok(f)
    ensures Ok(Next(f, a))
  {
    hide TicketsOk, NumbersOk, OneInvoiceEach;
    match a
    case Finalize(i, year, today) => FinalizeKeepsOk(f, i, year, today);
    case RaiseDisparity(amount, year) => DisparityKeepsOk(f, amount, year);
    case Inspect(i, call, cargo, year) => InspectKeepsOk(f, i, call, cargo, year);
    case Register(_, _) =>
    case SetRates(_) =>
  }

  ghost function Step(): (Firm, Act) -> Firm {
    (f, a) => Next(f, a)
  }

  ghost function Run(f: Firm, acts: seq<Act>): Firm {
    Fold(Step(), f, acts)
  }

  function NewFirm(rates: Rates): Firm {
    Firm(rates, map[], map[], [], map[], [], 0)
  }

  lemma {:induction false} RunKeepsOk(f: Firm, acts: seq<Act>)
    requires Ok(f)
    ensures Ok(Run(f, acts))
  {
    if acts != [] {
      var n := |acts| - 1;
      RunKeepsOk(f, acts[..n]);
      NextKeepsOk(Run(f, acts[..n]), acts[n]);
    }
  }

  /** In every run each series has issued exactly 1..value, each number once. */
  lemma SeriesIssueEverything(rates: Rates, acts: seq<Act>, s: Series, n: nat, j: nat, k: nat)
    ensures var f := Run(NewFirm(rates), acts);
            && (Ticket(s, n) in f.issued <==> 1 <= n <= ValueOf(f.counters, s))
            && (j < k < |f.issued| ==> f.issued[j] != f.issued[k])
  {
    RunKeepsOk(NewFirm(rates), acts);
  }

  lemma {:induction false} TicketPlaces(issued: seq<Ticket>, k: nat) returns (j: nat)
    requires k < |InvoiceTickets(issued)|
    ensures j < |issued| && issued[j] == InvoiceTickets(issued)[k] && issued[j].series.kind == INVOICE
    ensures |InvoiceTickets(issued[..j])| == k
  {
    var n := |issued| - 1;
    if k == |InvoiceTickets(issued[..n])| {
      j := n;
    } else {
      j := TicketPlaces(issued[..n], k);
      assert issued[..n][..j] == issued[..j];
    }
  }

  lemma NumbersDiffer(invoices: seq<Invoice>, issued: seq<Ticket>, j: nat, k: nat)
    requires NumbersOk(invoices, issued) && Distinct(issued) && j < k < |invoices|
    ensures invoices[j].number != invoices[k].number
  {
    var a := TicketPlaces(issued, j);
    var b := TicketPlaces(issued, k);
    if invoices[j].number == invoices[k].number {
      PrintedIsInjective("INV", issued[a].series.year, issued[a].n, issued[b].series.year, issued[b].n);
    }
  }

  /** In every run invoice numbers are pairwise distinct, across inspections and disparities, across
      years and past 9999. */
  lemma InvoiceNumbersDiffer(rates: Rates, acts: seq<Act>, j: nat, k: nat)
    requires j < k < |Run(NewFirm(rates), acts).invoices|
    ensures Run(NewFirm(rates), acts).invoices[j].number != Run(NewFirm(rates), acts).invoices[k].number
  {
    RunKeepsOk(NewFirm(rates), acts);
    hide NumbersOk;
    NumbersDiffer(Run(NewFirm(rates), acts).invoices, Run(NewFirm(rates), acts).issued, j, k);
  }

  /** In every run an inspection has at most one invoice. */
  lemma OneInvoicePerInspection(rates: Rates, acts: seq<Act>, j: nat, k: nat, i: Id)
    requires j < |Run(NewFirm(rates), acts).invoices| && k < |Run(NewFirm(rates), acts).invoices|
    requires Run(NewFirm(rates), acts).invoices[j].inspection == Some(i)
    requires Run(NewFirm(rates), acts).invoices[k].inspection == Some(i)
    ensures j == k
  {
    RunKeepsOk(NewFirm(rates), acts);
  }

  // ---- finalizing again ----

  /** Invoices are only added, a berth date once known is never overwritten, and versions never go back. */
  lemma {:induction false} InvoicesStay(f: Firm, acts: seq<Act>)
    ensures f.invoices <= Run(f, acts).invoices
    ensures f.inspections.Keys <= Run(f, acts).inspections.Keys && f.calls.Keys <= Run(f, acts).calls.Keys
    ensures forall i :: i in f.inspections ==> Run(f, acts).inspections[i].call == f.inspections[i].call
    ensures forall c :: c in f.calls && f.calls[c].berthed.Some? ==> Run(f, acts).calls[c].berthed == f.calls[c].berthed
    ensures forall c :: c in f.calls ==> Run(f, acts).calls[c].version >= f.calls[c].version
  {
    if acts != [] {
      InvoicesStay(f, acts[..|acts| - 1]);
    }
  }

  /** Once an inspection is finalized, finalizing it again, whenever and however much later, changes
      nothing at all, versions, sequences and revision included, and returns the same invoice. */
  lemma FinalizeOnce(f: Firm, i: Id, year: nat, today: nat, acts: seq<Act>, laterYear: nat, later: nat)
    requires Ok(f) && !AfterFinalize(f, i, year, today).result.Missing?
    ensures var first := AfterFinalize(f, i, year, today);
            var now := Run(first.firm, acts);
            AfterFinalize(now, i, laterYear, later) == Out(now, Existing(first.result.place))
  {
    hide TicketsOk, NumbersOk, NewInvoice, Printed;
    var first := AfterFinalize(f, i, year, today);
    FinalizeKeepsOk(f, i, year, today);
    if first.result.Issued? { NewInvoiceFields(f, i, year); }
    InvoicesStay(first.firm, acts);
    RunKeepsOk(first.firm, acts);
    var now := Run(first.firm, acts);
    assert first.firm.invoices[first.result.place].inspection == Some(i);
    assert now.invoices[first.result.place] == first.firm.invoices[first.result.place];
    assert InvoiceAt(now.invoices, i) == Some(first.result.place);
  }

  /** An invoice is its tonnage at the cargo's rate to within half a cent, and its naira commission is
      within half a kobo plus half a cent at the exchange rate of the exact share. */
  ghost predicate AmountsOk(invoice: Invoice, nrt: real, rate: real, percent: real, fx: real) {
    && Abs(invoice.dues - ExactDues(nrt, rate)) <= 0.005
    && Abs(invoice.ngn - ExactNaira(invoice.dues, percent, fx)) <= 0.005 + 0.005 * fx
  }

  lemma IssuedAmounts(f: Firm, i: Id, year: nat, today: nat)
    requires AfterFinalize(f, i, year, today).result.Issued? && f.rates.exchange >= 0.0
    ensures var out := AfterFinalize(f, i, year, today);
            AmountsOk(out.firm.invoices[out.result.place], f.calls[f.inspections[i].call].nrt,
                      RateFor(f.inspections[i].cargo, f.rates), f.rates.commission, f.rates.exchange)
  {
    hide AmountsOk, Printed;
    AmountsAt(NewInvoice(f, i, year), f.calls[f.inspections[i].call].nrt,
              RateFor(f.inspections[i].cargo, f.rates), f.rates.commission, f.rates.exchange);
  }

  lemma AmountsAt(invoice: Invoice, nrt: real, rate: real, percent: real, fx: real)
    requires fx >= 0.0 && invoice.dues == Dues(nrt, rate)
    requires invoice.ngn == CommissionNgn(CommissionUsd(Dues(nrt, rate), percent), fx)
    ensures AmountsOk(invoice, nrt, rate, percent, fx)
  {
    hide Abs, Dues, CommissionNgn, CommissionUsd, ExactNaira, ExactDues;
    DuesAreClose(nrt, rate);
    NairaError(Dues(nrt, rate), percent, fx);
  }

  lemma DuesAreClose(nrt: real, rate: real)
    ensures Abs(Dues(nrt, rate) - ExactDues(nrt, rate)) <= 0.005
  {
  }

  // ---- on the tables ----

  class Office {
    var rates: Rates
    var calls: map<Id, Call>
    var inspections: map<Id, Inspection>
    var invoices: seq<Invoice>
    var counters: map<Series, nat>
    var revision: nat
    ghost var issued: seq<Ticket>

    ghost function View(): Firm
      reads this
    {
      Firm(rates, calls, inspections, invoices, counters, issued, revision)
    }

    constructor (r: Rates)
      ensures View() == NewFirm(r)
    {
      rates, calls, inspections, invoices, counters, revision, issued := r, map[], map[], [], map[], 0, [];
    }

    /** `next_number`: get or create the sequence, raise it, print it. */
    method NextNumber(s: Series, prefix: string) returns (number: string)
      modifies this`counters, this`issued
      ensures View() == Drawn(old(View()), s)
      ensures number == NumberOf(old(View()), s, prefix)
    {
      if s !in counters { counters := counters[s := 0]; }
      counters := counters[s := counters[s] + 1];
      issued := issued + [Ticket(s, counters[s])];
      number := Printed(prefix, s.year, counters[s]);
    }

    /** `finalize_inspection`. */
    method FinalizeInspection(i: Id, year: nat, today: nat) returns (result: Result)
      modifies this
      ensures Out(View(), result) == AfterFinalize(old(View()), i, year, today)
    {
      if i !in inspections || inspections[i].call !in calls { return Missing; }
      var existing := InvoiceAt(invoices, i);
      if existing.Some? { return Existing(existing.value); }
      var inspection := inspections[i];
      var call := calls[inspection.call];
      inspections := inspections[i := inspection.(completed := Some(today), version := inspection.version + 1)];
      calls := calls[inspection.call :=
        call.(status := Completed, berthed := if call.berthed.Some? then call.berthed else Some(today),
              version := call.version + 1)];
      var rate := RateFor(inspection.cargo, rates);
      var dues := Dues(call.nrt, rate);
      var usd := CommissionUsd(dues, rates.commission);
      var number := NextNumber(Series(INVOICE, year), "INV");
      result := Issued(|invoices|);
      invoices := invoices + [Invoice(number, Some(i), dues, rate, usd, CommissionNgn(usd, rates.exchange), rates.exchange)];
      revision := revision + 1;
    }
  }
}
