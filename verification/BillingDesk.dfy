/** The billing endpoints as they run: one object holds the organization's tables, each method is one
    transaction that updates them in place and is proved equal to its value-level step `After...`.
    `BillingRuns.ApplyKeepsSound` therefore says what every sequence of calls keeps. */
module BillingDesk {
  import opened Wrappers
  import opened Reordering
  import opened Workflow
  import opened Billing
  import opened BillingRuns

  class Desk {
    var steps: Steps
    var invoices: map<Id, Invoice>
    var payments: seq<Payment>
    var revision: nat

    ghost function View(): Books
      reads this
    {
      Books(steps, invoices, payments, revision)
    }

    /** The unique constraint every transaction finds in force. */
    ghost predicate Storable()
      reads this
    {
      Injective(PositionColumn(steps))
    }

    /** A new organization, provisioned with the default steps. */
    constructor (newIds: seq<Id>)
      requires |newIds| == 6 && Distinct(newIds)
      ensures View() == NewBooks(newIds) && Storable()
    {
      steps, invoices, payments, revision := map[], map[], [], 0;
      new;
      ProvisioningFromNothing(newIds);
      SoundStepsAreStorable(FirstDefaults(newIds, 6));
      hide Provisioned, FirstDefaults, WorkflowOk, Injective, PositionColumn;
      var ok := EnsureDefaultSteps(newIds);
    }

    /** `ensure_default_steps`: get or create each default; a constraint error undoes all of it. */
    method EnsureDefaultSteps(newIds: seq<Id>) returns (ok: bool)
      requires |newIds| == 6
      modifies this`steps
      ensures ok == Provisioned(old(steps), newIds, 0).Some?
      ensures steps == if ok then Provisioned(old(steps), newIds, 0).value else old(steps)
    {
      var before := steps;
      var i := 0;
      ok := true;
      while i < 6 && ok
        invariant i <= 6
        invariant ok ==> Provisioned(steps, newIds, i) == Provisioned(before, newIds, 0)
        invariant !ok ==> Provisioned(before, newIds, 0).None?
        decreases if ok then 7 - i else 0
      {
        if !HasCode(steps, DefaultCode(i)) {
          if newIds[i] in steps || DefaultStep(i).position in PositionColumn(steps).Values {
            ok := false;
          } else {
            steps := steps[newIds[i] := DefaultStep(i)];
          }
        }
        if ok { i := i + 1; }
      }
      if !ok { steps := before; }
    }

    /** `finalize_inspection`'s invoice: created on the first ordinary step with its first log row. */
    method IssueInvoice(id: Id, dues: nat) returns (reply: Reply)
      requires Storable()
      modifies this
      ensures Outcome(View(), reply) == AfterIssue(old(View()), id, dues)
    {
      var step := ActiveDefaultStep(steps);
      if id in invoices || step.None? { return Broken; }
      invoices := invoices[id := Invoice(dues, Unpaid, step, [])];
      var log := invoices[id].log + [Event(None, step, OnCreation)];
      assert log == [Event(None, step, OnCreation)];
      invoices := invoices[id := invoices[id].(log := log)];
      revision := revision + 1;
      reply := Done;
    }

    /** `transition_invoice`: move the row and append to its log; `moved` tells whether it did. */
    method TransitionInvoice(id: Id, step: Option<Id>, source: Source) returns (ok: bool, moved: bool)
      requires id in invoices && (step.Some? ==> step.value in steps)
      modifies this`invoices
      ensures var move := Transition(steps, old(invoices[id]), step, source);
              && ok == (move != Rejected)
              && moved == move.Moves?
              && invoices == if move.Moves? then old(invoices)[id := move.invoice] else old(invoices)
    {
      if step.Some? && source == OnManualMove && !steps[step.value].active { return false, false; }
      var invoice := invoices[id];
      var previous := invoice.current;
      if previous == step && invoice.status != Voided { return true, false; }
      invoice := invoice.(current := step);
      invoice := invoice.(status := if step.None? then Voided
                                    else if steps[step.value].isPaid then FullyPaid else Unpaid);
      invoice := invoice.(log := invoice.log + [Event(previous, step, source)]);
      invoices := invoices[id := invoice];
      return true, true;
    }

    /** The backward search of `reconcile_payment_status`: the latest logged step still usable. */
    method FindCandidate(log: seq<Event>) returns (candidate: Option<Id>)
      ensures candidate.None? ==> forall i :: 0 <= i < |log| ==> !OrdinaryStep(steps, log[i].toStep)
      ensures candidate.Some? ==> exists i :: LatestAt(steps, log, i) && log[i].toStep == candidate
    {
      candidate := None;
      var i := |log|;
      while i > 0
        invariant 0 <= i <= |log| && candidate == None
        invariant forall j :: i <= j < |log| ==> !OrdinaryStep(steps, log[j].toStep)
      {
        i := i - 1;
        var step := log[i].toStep;
        if step.Some? && step.value in steps && steps[step.value].active
           && !steps[step.value].isPaid && !steps[step.value].isTerminal
        {
          candidate := step;
          assert LatestAt(steps, log, i);
          break;
        }
      }
    }

    /** `reconcile_payment_status`. */
    method ReconcilePaymentStatus(id: Id, source: Source) returns (ok: bool)
      requires id in invoices && Injective(PositionColumn(steps))
      modifies this`invoices
      ensures var move := Reconcile(steps, old(invoices[id]), LivePaid(payments, id), source);
              && ok == (move != Rejected)
              && invoices == if move.Moves? then old(invoices)[id := move.invoice] else old(invoices)
    {
      var invoice := invoices[id];
      if invoice.status == Voided { return true; }
      var total := LivePaid(payments, id);
      var moved;
      if total >= invoice.dues {
        var paid := PaidStep(steps);
        if paid.None? { return false; }
        ok, moved := TransitionInvoice(id, paid, source);
        return;
      }
      if invoice.current.Some? && !OnPaidStep(steps, invoice.current) { return true; }
      var candidate := FindCandidate(invoice.log);
      LatestRestorableMeaning(steps, invoice.log);
      if candidate.None? { candidate := ActiveDefaultStep(steps); }
      if candidate.None? { return false; }
      ok, moved := TransitionInvoice(id, candidate, source);
    }

    /** The checks of `PaymentCreateView.post`, and the amount it settles on. */
    method CheckPayment(r: Request) returns (reply: Reply, amount: nat)
      requires r.Pay?
      ensures reply == PayCheck(View(), r)
      ensures reply == Done ==> amount == NewPayment(View(), r).amount
    {
      amount := 0;
      if r.amount == Some(0) { return Invalid, 0; }
      if r.invoice !in invoices { return NotFound, 0; }
      var invoice := invoices[r.invoice];
      if invoice.status == Voided { return Conflict, 0; }
      var key := KeyOf(r.keyHeader);
      if key != "" && KeyUsed(payments, r.invoice, key) { return Replayed, 0; }
      var currentPaid := LivePaid(payments, r.invoice);
      var balance := if invoice.dues >= currentPaid then invoice.dues - currentPaid else 0;
      if invoice.status == FullyPaid || balance == 0 { return Conflict, 0; }
      amount := if r.amount.Some? then r.amount.value else balance;
      if amount > balance { return Invalid, 0; }
      if PaymentIdUsed(payments, r.payment) || ReferenceUsed(payments, r.invoice, r.reference) {
        return Broken, 0;
      }
      reply := Done;
    }

    /** `PaymentCreateView.post`. */
    method CreatePayment(r: Request) returns (reply: Reply)
      requires Storable() && r.Pay?
      modifies this
      ensures Outcome(View(), reply) == AfterPay(old(View()), r)
    {
      var amount;
      reply, amount := CheckPayment(r);
      if reply != Done { return; }
      var before := payments;
      payments := payments + [Payment(r.payment, r.invoice, amount, r.reference, KeyOf(r.keyHeader), false)];
      var ok := ReconcilePaymentStatus(r.invoice, OnPayment);
      if !ok {
        payments := before;
        return Broken;
      }
      revision := revision + 1;
    }

    /** `PaymentReverseView.post`. */
    method ReversePayment(payment: Id) returns (reply: Reply)
      requires Storable()
      modifies this
      ensures Outcome(View(), reply) == AfterReverse(old(View()), payment)
    {
      var at := PaymentIndex(payments, payment);
      if at.None? { return NotFound; }
      var p := payments[at.value];
      if p.reversed { return Replayed; }
      if p.invoice !in invoices { return Broken; }
      var before := payments;
      payments := payments[at.value := p.(reversed := true)];
      var ok := ReconcilePaymentStatus(p.invoice, OnReversal);
      if !ok {
        payments := before;
        return Broken;
      }
      revision := revision + 1;
      reply := Done;
    }

    /** `InvoiceTransitionView.patch`. */
    method MoveInvoice(id: Id, step: Id) returns (reply: Reply)
      requires Storable()
      modifies this
      ensures Outcome(View(), reply) == AfterMove(old(View()), id, step)
    {
      if id !in invoices { return NotFound; }
      if invoices[id].status == Voided { return Conflict; }
      if invoices[id].status == FullyPaid || OnPaidStep(steps, invoices[id].current) { return Conflict; }
      if step !in steps || !steps[step].active { return Invalid; }
      if steps[step].isPaid { return Invalid; }
      var ok, moved := TransitionInvoice(id, Some(step), OnManualMove);
      if moved { revision := revision + 1; }
      reply := Done;
    }

    /** `InvoiceStatusStepsView.post`. */
    method AddStep(r: Request) returns (reply: Reply)
      requires Storable() && r.CreateStep?
      modifies this
      ensures Outcome(View(), reply) == AfterCreateStep(old(View()), r)
    {
      if r.code == Custom("") || r.code == Paid || r.code == Void { return Invalid; }
      if HasCode(steps, r.code) { return Invalid; }
      var position := MaxPosition(PositionColumn(steps)) + 10;
      if r.step in steps || position > MAX_POSITION { return Broken; }
      steps := steps[r.step := Step(r.code, r.title, position, r.active, r.notify, r.roles, false, false, false)];
      revision := revision + 1;
      reply := Done;
    }

    /** The guards of `InvoiceStatusStepDetailView.patch`. */
    method CheckPatch(r: Request) returns (reply: Reply)
      requires r.EditStep?
      ensures reply == EditStepCheck(View(), r)
    {
      if r.step !in steps { return NotFound; }
      var row := steps[r.step];
      if row.isProtected && (r.newTitle.Some? || r.newActive.Some?) { return Invalid; }
      if row.active && r.newActive == Some(false) && !row.isPaid && !row.isTerminal
         && !OtherOrdinary(steps, r.step) { return Invalid; }
      reply := Done;
    }

    /** `InvoiceStatusStepDetailView.patch`: the submitted fields that differ are written one by one. */
    method PatchStep(r: Request) returns (reply: Reply)
      requires Storable() && r.EditStep?
      modifies this
      ensures Outcome(View(), reply) == AfterEditStep(old(View()), r)
    {
      reply := CheckPatch(r);
      if reply != Done { return; }
      var row, updated := WriteFields(steps[r.step], r);
      if updated {
        steps := steps[r.step := row];
        revision := revision + 1;
      }
    }

    /** "Submit every organization status exactly once", and Paid last among the active ones. */
    method CheckReorder(ids: seq<Id>) returns (ok: bool)
      ensures ok <==> ReorderAdmitted(steps, ids)
    {
      var duplicated := exists i, j :: 0 <= i < j < |ids| && ids[i] == ids[j];
      ListsByKeys(steps, ids);
      if duplicated || (set id | id in ids) != steps.Keys { return false; }
      ok := PaidComesLast(steps, ids);
    }

    /** `InvoiceStatusStepReorderView.post`: shift every row out of the way in the database's own
        order, then assign 10, 20, ... down the requested list; any constraint error undoes it all. */
    method ReorderSteps(ids: seq<Id>, scan: seq<Id>) returns (reply: Reply)
      requires Lists(PositionColumn(steps), scan)
      modifies this
      ensures Outcome(View(), reply) == AfterReorder(old(View()), ids, scan)
    {
      var admitted := CheckReorder(ids);
      if !admitted { return Invalid; }
      var rewritten := RewritePositions(steps, scan, ids);
      if rewritten.None? { return Broken; }
      steps := rewritten.value;
      revision := revision + 1;
      reply := Done;
    }

    /** The totals of `AnalyticsView.get` over its queryset: the invoices that are not void. */
    method Totals(rows: seq<Id>) returns (invoiced: nat, collected: nat, outstanding: nat)
      requires InvoicesOk(View())
      requires forall i :: 0 <= i < |rows| ==> rows[i] in invoices && invoices[rows[i]].status != Voided
      ensures invoiced == DuesOf(View(), rows)
      ensures collected == PaidOf(View(), rows)
      ensures invoiced == collected + outstanding
    {
      invoiced, collected, outstanding := 0, 0, 0;
      for i := 0 to |rows|
        invariant invoiced == DuesOf(View(), rows[..i])
        invariant collected == PaidOf(View(), rows[..i])
        invariant invoiced == collected + outstanding
      {
        var invoice := invoices[rows[i]];
        invoiced := invoiced + invoice.dues;
        var paid;
        if AnyLive(payments, rows[i]) {
          paid := LivePaid(payments, rows[i]);
        } else {
          NoneLiveMeansNothingPaid(payments, rows[i]);
          paid := if invoice.status == FullyPaid then invoice.dues else 0;
        }
        assert InvoiceOk(steps, invoice, LivePaid(payments, rows[i]));
        collected := collected + paid;
        outstanding := outstanding + (if invoice.dues >= paid then invoice.dues - paid else 0);
        assert rows[..i + 1][..i] == rows[..i];
      }
      assert rows[..|rows|] == rows;
    }
  }

  /** A field is written only if it was submitted and differs; `updated` tells whether any was. */
  method WriteFields(was: Step, r: Request) returns (row: Step, updated: bool)
    requires r.EditStep?
    ensures row == EditedRow(was, r)
    ensures updated <==> row != was
  {
    row, updated := was, false;
    if r.newTitle.Some? && row.title != r.newTitle.value {
      row, updated := row.(title := r.newTitle.value), true;
    }
    assert row == was.(title := OrElse(r.newTitle, was.title));
    if r.newActive.Some? && row.active != r.newActive.value {
      row, updated := row.(active := r.newActive.value), true;
    }
    assert row == was.(title := OrElse(r.newTitle, was.title), active := OrElse(r.newActive, was.active));
    if r.newNotify.Some? && row.notify != r.newNotify.value {
      row, updated := row.(notify := r.newNotify.value), true;
    }
    assert row == was.(title := OrElse(r.newTitle, was.title), active := OrElse(r.newActive, was.active),
                       notify := OrElse(r.newNotify, was.notify));
    if r.newRoles.Some? && row.roles != r.newRoles.value {
      row, updated := row.(roles := r.newRoles.value), true;
    }
  }

  lemma SoundStepsAreStorable(steps: Steps)
    requires WorkflowOk(steps)
    ensures Injective(PositionColumn(steps))
  {
  }

  /** The dues of the listed invoices, added up. */
  ghost function DuesOf(books: Books, rows: seq<Id>): nat
    requires forall i :: 0 <= i < |rows| ==> rows[i] in books.invoices
  {
    if rows == [] then 0
    else DuesOf(books, rows[..|rows| - 1]) + books.invoices[rows[|rows| - 1]].dues
  }

  /** The live payments of the listed invoices, added up. */
  ghost function PaidOf(books: Books, rows: seq<Id>): nat {
    if rows == [] then 0
    else PaidOf(books, rows[..|rows| - 1]) + LivePaid(books.payments, rows[|rows| - 1])
  }

  predicate AnyLive(payments: seq<Payment>, invoice: Id) {
    exists i :: 0 <= i < |payments| && payments[i].invoice == invoice && !payments[i].reversed
  }

  lemma {:induction false} NoneLiveMeansNothingPaid(payments: seq<Payment>, invoice: Id)
    requires !AnyLive(payments, invoice)
    ensures LivePaid(payments, invoice) == 0
  {
    if payments != [] {
      var n := |payments| - 1;
      assert forall i :: 0 <= i < n ==> payments[..n][i] == payments[i];
      NoneLiveMeansNothingPaid(payments[..n], invoice);
    }
  }

  /** The row writes of a reorder, one by one; None when a constraint stops them. */
  method RewritePositions(steps: Steps, scan: seq<Id>, ids: seq<Id>) returns (rewritten: Option<Steps>)
    requires Lists(PositionColumn(steps), scan) && Lists(PositionColumn(steps), ids)
    ensures rewritten == Reordered(steps, scan, ids)
  {
    var ok, column := WriteRows(PositionColumn(steps), ReorderWrites(PositionColumn(steps), scan, ids));
    ReorderIsExact(PositionColumn(steps), scan, ids);
    rewritten := if ok then Some(WithPositions(steps, column)) else None;
  }

  lemma ListsByKeys(steps: Steps, ids: seq<Id>)
    ensures Lists(PositionColumn(steps), ids) <==>
              !(exists i, j :: 0 <= i < j < |ids| && ids[i] == ids[j]) && (set id | id in ids) == steps.Keys
  {
  }
}
