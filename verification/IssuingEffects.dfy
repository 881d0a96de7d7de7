/** What finalizing, inspecting, registering and raising a disparity leave, on the rows themselves. */
module IssuingEffects {
  import opened Wrappers
  import opened Rounding
  import opened Numbering
  import opened Issuing

  /** The sequence stands `by` higher than before, and no other sequence changed. */
  ghost predicate Raised(a: Firm, b: Firm, s: Series) {
    && s in b.counters && b.counters[s] == (if s in a.counters then a.counters[s] else 0) + 1
    && (forall other :: other != s ==> (other in b.counters <==> other in a.counters))
    && (forall other :: other in a.counters && other != s ==> b.counters[other] == a.counters[other])
    && b.issued == a.issued + [Ticket(s, b.counters[s])]
  }

  /** The invoice is issued at the rate of the cargo and jetty: dry, international, local government or
      local private; any other jetty has none. */
  ghost predicate RatedBy(invoice: Invoice, cargo: Cargo, rates: Rates) {
    match cargo
    case Dry => invoice.rate == rates.dry
    case Liquid(jetty, category) =>
      && (jetty == "International" ==> invoice.rate == rates.international)
      && (jetty == "Local" && category == "Government" ==> invoice.rate == rates.government)
      && (jetty == "Local" && category == "Private" ==> invoice.rate == rates.private)
      && (jetty != "International" && !(jetty == "Local" && category in {"Government", "Private"}) ==> invoice.rate == 0.0)
  }

  /** `amount` in whole cents, the nearest, ties away from zero. */
  ghost predicate NearestCents(amount: real, exact: real) {
    && (exists k: int :: amount == Cents(k))
    && (if exact >= 0.0 then -0.005 < amount - exact <= 0.005 else -0.005 <= amount - exact < 0.005)
  }

  /** Dues are tonnage times rate, the commission its share of them, the naira amount that share in naira,
      each in cents. */
  ghost predicate Billed(invoice: Invoice, nrt: real, cargo: Cargo, rates: Rates) {
    && RatedBy(invoice, cargo, rates)
    && ProductInCents(invoice.dues, nrt, invoice.rate)
    && PercentInCents(invoice.usd, invoice.dues, rates.commission)
    && ProductInCents(invoice.ngn, invoice.usd, rates.exchange)
  }

  ghost predicate ProductInCents(amount: real, a: real, b: real) { NearestCents(amount, a * b) }

  ghost predicate PercentInCents(amount: real, whole: real, percent: real) {
    NearestCents(amount, whole * percent / 100.0)
  }

  lemma MoneyIsNearestCents(v: real)
    ensures NearestCents(Money(v), v)
  {
    assert Money(v) == Cents(HalfUp(v * 100.0));
  }

  /** Finalizing an inspection that has no invoice completes it and its call, and adds one invoice with
      the year's next number: tonnage times rate, the share of it, and that share in naira, each in cents. */
  lemma FinalizeLeaves(f: Firm, i: Id, year: nat, today: nat)
    requires i in f.inspections && f.inspections[i].call in f.calls
    requires forall k :: 0 <= k < |f.invoices| ==> f.invoices[k].inspection != Some(i)
    ensures var out := AfterFinalize(f, i, year, today);
            var c := f.inspections[i].call;
            && out.result == Issued(|f.invoices|)
            && out.firm.rates == f.rates && out.firm.revision == f.revision + 1
            && Raised(f, out.firm, Series("invoice", year))
            && OnlyRow(f.inspections, out.firm.inspections, i) && OnlyRow(f.calls, out.firm.calls, c)
            && out.firm.inspections[i] == f.inspections[i].(completed := Some(today), version := f.inspections[i].version + 1)
            && out.firm.calls[c].status == Completed && out.firm.calls[c].version == f.calls[c].version + 1
            && out.firm.calls[c].nrt == f.calls[c].nrt
            && out.firm.calls[c].berthed == (if f.calls[c].berthed.Some? then f.calls[c].berthed else Some(today))
            && |out.firm.invoices| == |f.invoices| + 1 && f.invoices <= out.firm.invoices
            && var invoice := out.firm.invoices[|f.invoices|];
               && invoice.inspection == Some(i) && invoice.exchange == f.rates.exchange
               && invoice.number == Printed("INV", year, out.firm.counters[Series("invoice", year)])
               && Billed(invoice, f.calls[c].nrt, f.inspections[i].cargo, f.rates)
  {
    assert InvoiceAt(f.invoices, i).None?;
    NewInvoiceIsBilled(f, i, year);
    NewInvoiceFields(f, i, year);
    hide Billed, NewInvoice, Printed, InvoiceAt;
  }

  lemma NewInvoiceIsBilled(f: Firm, i: Id, year: nat)
    requires i in f.inspections && f.inspections[i].call in f.calls
    ensures NewInvoice(f, i, year).exchange == f.rates.exchange
    ensures Billed(NewInvoice(f, i, year), f.calls[f.inspections[i].call].nrt, f.inspections[i].cargo, f.rates)
  {
    var invoice := NewInvoice(f, i, year);
    DuesAreCents(f.calls[f.inspections[i].call].nrt, invoice.rate);
    UsdIsCents(invoice.dues, f.rates.commission);
    NairaIsCents(invoice.usd, f.rates.exchange);
    assert RatedBy(invoice, f.inspections[i].cargo, f.rates);
    hide ProductInCents, PercentInCents, Dues, CommissionUsd, CommissionNgn, Printed, RateFor, RatedBy;
  }

  lemma DuesAreCents(nrt: real, rate: real)
    ensures ProductInCents(Dues(nrt, rate), nrt, rate)
  {
    MoneyIsNearestCents(ExactDues(nrt, rate));
    hide NearestCents, Money;
  }

  lemma UsdIsCents(dues: real, percent: real)
    ensures PercentInCents(CommissionUsd(dues, percent), dues, percent)
  {
    MoneyIsNearestCents(ExactUsd(dues, percent));
    hide NearestCents, Money;
  }

  lemma NairaIsCents(usd: real, fx: real)
    ensures ProductInCents(CommissionNgn(usd, fx), usd, fx)
  {
    MoneyIsNearestCents(usd * fx);
    hide NearestCents, Money;
  }

  /** A second finalize returns the invoice and changes nothing; an unknown inspection is missing. */
  lemma OtherFinalizesLeave(f: Firm, i: Id, year: nat, today: nat)
    requires !(i in f.inspections && f.inspections[i].call in f.calls)
             || exists k :: 0 <= k < |f.invoices| && f.invoices[k].inspection == Some(i)
    ensures var out := AfterFinalize(f, i, year, today);
            && out.firm == f
            && (if i in f.inspections && f.inspections[i].call in f.calls
                then out.result.Existing? && out.result.place < |f.invoices|
                     && f.invoices[out.result.place].inspection == Some(i)
                else out.result == Missing)
  {
  }

  /** An inspection of a call that is not cancelled opens the call and takes the year's next number. */
  lemma InspectLeaves(f: Firm, i: Id, call: Id, cargo: Cargo, year: nat)
    ensures var after := Next(f, Inspect(i, call, cargo, year));
            if i in f.inspections || call !in f.calls || f.calls[call].status == Cancelled then after == f
            else
              && after.rates == f.rates && after.invoices == f.invoices && after.revision == f.revision + 1
              && Raised(f, after, Series("inspection", year))
              && OnlyRow(f.inspections, after.inspections, i) && after.inspections[i] == Inspection(call, cargo, None, 1)
              && OnlyRow(f.calls, after.calls, call)
              && after.calls[call] == f.calls[call].(status := InProgress, version := f.calls[call].version + 1)
  {
  }

  /** A disparity's invoice takes the next number of the same sequence, for the amount in cents. */
  lemma DisparityLeaves(f: Firm, amount: real, year: nat)
    ensures var after := Next(f, RaiseDisparity(amount, year));
            && after.rates == f.rates && after.inspections == f.inspections && after.calls == f.calls
            && after.revision == f.revision + 1 && Raised(f, after, Series("invoice", year))
            && |after.invoices| == |f.invoices| + 1 && f.invoices <= after.invoices
            && var invoice := after.invoices[|f.invoices|];
               && invoice.inspection == None && NearestCents(invoice.dues, amount)
               && invoice.number == Printed("INV", year, after.counters[Series("invoice", year)])
  {
    MoneyIsNearestCents(amount);
    hide NearestCents, Money, Printed;
  }
}
