/** What holds in every run of billing requests, whatever their order. */
module BillingRuns {
  import opened Wrappers
  import opened Reordering
  import opened Workflow
  import opened Billing
  import opened Runs

  // ---- payments and their sum ----

  lemma LivePaidAppend(payments: seq<Payment>, p: Payment, invoice: Id)
    ensures LivePaid(payments + [p], invoice)
         == LivePaid(payments, invoice) + (if p.invoice == invoice && !p.reversed then p.amount else 0)
  {
  }

  /** Reversing one live payment takes exactly its amount off its own invoice. */
  lemma {:induction false} LivePaidReverse(payments: seq<Payment>, i: nat, invoice: Id)
    requires i < |payments| && !payments[i].reversed
    ensures LivePaid(payments, invoice)
         == LivePaid(payments[i := payments[i].(reversed := true)], invoice)
            + (if payments[i].invoice == invoice then payments[i].amount else 0)
  {
    var n := |payments| - 1;
    var after := payments[i := payments[i].(reversed := true)];
    if i == n {
      assert after[..n] == payments[..n];
    } else {
      LivePaidReverse(payments[..n], i, invoice);
      assert after[..n] == payments[..n][i := payments[i].(reversed := true)];
    }
  }

  // ---- invoices under the engine ----

  lemma ChainAppend(log: seq<Event>, current: Option<Id>, to: Option<Id>, source: Source)
    requires Chain(log, current)
    ensures Chain(log + [Event(current, to, source)], to)
  {
  }

  /** Reconciling after a payment or a reversal leaves the invoice in order, and it never fails. */
  lemma ReconcileKeepsInvoice(steps: Steps, invoice: Invoice, before: nat, paid: nat, source: Source)
    requires WorkflowOk(steps) && Injective(PositionColumn(steps))
    requires InvoiceOk(steps, invoice, before) && paid <= invoice.dues && paid != before
    requires source == OnPayment || source == OnReversal
    ensures var move := Reconcile(steps, invoice, paid, source);
            && move != Rejected
            && (move == Stays ==> InvoiceOk(steps, invoice, paid))
            && (move.Moves? ==> InvoiceOk(steps, move.invoice, paid) && move.invoice.dues == invoice.dues)
  {
    LookupsSucceed(steps);
    var move := Reconcile(steps, invoice, paid, source);
    if move.Moves? {
      ChainAppend(invoice.log, invoice.current, move.invoice.current, source);
    }
  }

  // ---- every request keeps the books sound ----

  lemma IssueKeepsSound(books: Books, id: Id, dues: nat)
    requires Sound(books) && Injective(PositionColumn(books.steps))
    ensures Sound(AfterIssue(books, id, dues).books)
  {
    LookupsSucceed(books.steps);
    var out := AfterIssue(books, id, dues);
    if out.reply == Done {
      NothingPaidYet(books.payments, id);
      var invoice := out.books.invoices[id];
      assert InvoiceOk(books.steps, invoice, 0);
    }
  }

  lemma {:induction false} NothingPaidYet(payments: seq<Payment>, id: Id)
    requires forall i :: 0 <= i < |payments| ==> payments[i].invoice != id
    ensures LivePaid(payments, id) == 0
  {
    if payments != [] {
      NothingPaidYet(payments[..|payments| - 1], id);
    }
  }

  /** Writing back a reconciled invoice, when nothing changed for the other invoices. */
  lemma SettleKeepsSound(books: Books, payments: seq<Payment>, id: Id, move: Move)
    requires Sound(books) && id in books.invoices
    requires PaymentsOk(books.(payments := payments))
    requires forall other :: other != id ==> LivePaid(payments, other) == LivePaid(books.payments, other)
    requires move != Rejected
    requires move == Stays ==> InvoiceOk(books.steps, books.invoices[id], LivePaid(payments, id))
    requires move.Moves? ==> InvoiceOk(books.steps, move.invoice, LivePaid(payments, id))
    ensures Sound(Settle(books, books.(payments := payments), id, move).books)
  {
  }

  lemma PayKeepsSound(books: Books, r: Request)
    requires Sound(books) && Injective(PositionColumn(books.steps)) && r.Pay?
    ensures Sound(AfterPay(books, r).books)
    ensures AfterPay(books, r).reply == PayCheck(books, r)
  {
    if PayCheck(books, r) == Done {
      var payment := NewPayment(books, r);
      var payments := books.payments + [payment];
      forall id ensures LivePaid(payments, id)
                     == LivePaid(books.payments, id) + (if r.invoice == id then payment.amount else 0)
      {
        LivePaidAppend(books.payments, payment, id);
      }
      ReconcileKeepsInvoice(books.steps, books.invoices[r.invoice], LivePaid(books.payments, r.invoice),
                            LivePaid(payments, r.invoice), OnPayment);
      PaymentAddedOk(books, payment, books.(payments := payments));
      SettleKeepsSound(books, payments, r.invoice,
        Reconcile(books.steps, books.invoices[r.invoice], LivePaid(payments, r.invoice), OnPayment));
    }
  }

  lemma PaymentAddedOk(books: Books, p: Payment, after: Books)
    requires PaymentsOk(books) && after.payments == books.payments + [p]
    requires p.invoice in books.invoices && after.invoices.Keys == books.invoices.Keys && p.amount > 0
    requires !PaymentIdUsed(books.payments, p.id)
    requires !ReferenceUsed(books.payments, p.invoice, p.reference)
    requires p.key == "" || !KeyUsed(books.payments, p.invoice, p.key)
    ensures PaymentsOk(after)
  {
  }

  lemma ReverseKeepsSound(books: Books, payment: Id)
    requires Sound(books) && Injective(PositionColumn(books.steps))
    ensures Sound(AfterReverse(books, payment).books)
    ensures AfterReverse(books, payment).reply in {Done, Replayed, NotFound}
  {
    var at := PaymentIndex(books.payments, payment);
    if at.Some? && !books.payments[at.value].reversed {
      var p := books.payments[at.value];
      var payments := books.payments[at.value := p.(reversed := true)];
      forall id ensures LivePaid(books.payments, id)
                     == LivePaid(payments, id) + (if p.invoice == id then p.amount else 0)
      {
        LivePaidReverse(books.payments, at.value, id);
      }
      ReconcileKeepsInvoice(books.steps, books.invoices[p.invoice], LivePaid(books.payments, p.invoice),
                            LivePaid(payments, p.invoice), OnReversal);
      PaymentReversedOk(books, at.value, books.(payments := payments));
      SettleKeepsSound(books, payments, p.invoice,
        Reconcile(books.steps, books.invoices[p.invoice], LivePaid(payments, p.invoice), OnReversal));
    }
  }

  lemma PaymentReversedOk(books: Books, i: nat, after: Books)
    requires PaymentsOk(books) && i < |books.payments|
    requires after.payments == books.payments[i := books.payments[i].(reversed := true)]
    requires after.invoices.Keys == books.invoices.Keys
    ensures PaymentsOk(after)
  {
  }

  lemma MoveKeepsSound(books: Books, id: Id, step: Id)
    requires Sound(books)
    ensures Sound(AfterMove(books, id, step).books)
    ensures AfterMove(books, id, step).reply != Broken
  {
    var out := AfterMove(books, id, step);
    if out.books != books {
      var invoice := books.invoices[id];
      ChainAppend(invoice.log, invoice.current, Some(step), OnManualMove);
      assert InvoiceOk(books.steps, out.books.invoices[id], LivePaid(books.payments, id));
    }
  }

  lemma VoidKeepsSound(books: Books, id: Id)
    requires Sound(books)
    ensures Sound(AfterVoid(books, id).books)
  {
    var out := AfterVoid(books, id);
    if out.books != books {
      var invoice := books.invoices[id];
      ChainAppend(invoice.log, invoice.current, None, OnManualMove);
      assert InvoiceOk(books.steps, out.books.invoices[id], LivePaid(books.payments, id));
    }
  }

  /** Changing only the steps, and no step's Paid flag, leaves invoices and payments in order. */
  lemma StepsKeepInvoices(books: Books, after: Books)
    requires PaymentsOk(books) && InvoicesOk(books)
    requires after.invoices == books.invoices && after.payments == books.payments
    requires books.steps.Keys <= after.steps.Keys
    requires forall id :: id in books.steps ==> after.steps[id].isPaid == books.steps[id].isPaid
    ensures PaymentsOk(after) && InvoicesOk(after)
  {
  }

  lemma CreateStepKeepsWorkflow(books: Books, r: Request)
    requires WorkflowOk(books.steps) && r.CreateStep? && CreateStepCheck(books, r) == Done
    ensures WorkflowOk(books.steps[r.step := CreatedRow(books, r)])
  {
    AddingKeepsWorkflow(books.steps, r.step, CreatedRow(books, r));
  }

  lemma CreateStepKeepsSound(books: Books, r: Request)
    requires Sound(books) && r.CreateStep?
    ensures Sound(AfterCreateStep(books, r).books)
  {
    if CreateStepCheck(books, r) == Done {
      CreateStepKeepsWorkflow(books, r);
      StepsKeepInvoices(books, AfterCreateStep(books, r).books);
    }
  }

  /** The guard on deactivation always leaves an active ordinary step. */
  lemma EditLeavesOrdinary(steps: Steps, id: Id, row: Step)
    requires OrdinaryIds(steps) != {} && id in steps
    requires Ordinary(steps[id]) && !Ordinary(row) ==> OtherOrdinary(steps, id)
    ensures OrdinaryIds(steps[id := row]) != {}
  {
    var after := steps[id := row];
    if Ordinary(row) {
      assert id in OrdinaryIds(after);
    } else if Ordinary(steps[id]) {
      var other :| other in steps && other != id && Ordinary(steps[other]);
      assert other in OrdinaryIds(after);
    } else {
      var other :| other in OrdinaryIds(steps);
      assert other in OrdinaryIds(after);
    }
  }

  lemma EditStepKeepsWorkflow(books: Books, r: Request)
    requires WorkflowOk(books.steps) && r.EditStep?
    ensures WorkflowOk(AfterEditStep(books, r).books.steps)
  {
    if EditStepCheck(books, r) == Done {
      var row := EditedRow(books.steps[r.step], r);
      EditLeavesOrdinary(books.steps, r.step, row);
      EditingKeepsWorkflow(books.steps, r.step, row);
    }
  }

  lemma EditStepKeepsInvoices(books: Books, r: Request)
    requires PaymentsOk(books) && InvoicesOk(books) && r.EditStep?
    ensures PaymentsOk(AfterEditStep(books, r).books) && InvoicesOk(AfterEditStep(books, r).books)
  {
  }

  lemma EditStepKeepsSound(books: Books, r: Request)
    requires Sound(books) && r.EditStep?
    ensures Sound(AfterEditStep(books, r).books)
  {
    EditStepKeepsWorkflow(books, r);
    EditStepKeepsInvoices(books, r);
  }

  lemma ReorderKeepsSound(books: Books, ids: seq<Id>, scan: seq<Id>)
    requires Sound(books) && Lists(PositionColumn(books.steps), scan)
    ensures Sound(AfterReorder(books, ids, scan).books)
  {
    var out := AfterReorder(books, ids, scan);
    if out.books != books {
      ReorderingKeepsWorkflow(books.steps, scan, ids, out.books.steps);
      StepsKeepInvoices(books, out.books);
    }
  }

  lemma SoundIsUsable(books: Books)
    requires Sound(books)
    ensures Injective(PositionColumn(books.steps))
  {
  }

  /** Any admissible request leaves sound books sound. */
  lemma ApplyKeepsSound(books: Books, r: Request)
    requires Sound(books) && Injective(PositionColumn(books.steps)) && Admissible(books, r)
    ensures Sound(Apply(books, r).books)
  {
    match r
    case Issue(id, dues) => IssueKeepsSound(books, id, dues);
    case Pay(_, _, _, _, _) => PayKeepsSound(books, r);
    case Reverse(payment) => ReverseKeepsSound(books, payment);
    case MoveTo(id, step) => MoveKeepsSound(books, id, step);
    case VoidInvoice(id) => VoidKeepsSound(books, id);
    case CreateStep(_, _, _, _, _, _) => CreateStepKeepsSound(books, r);
    case EditStep(_, _, _, _, _) => EditStepKeepsSound(books, r);
    case Reorder(ids, scan) => ReorderKeepsSound(books, ids, scan);
  }

  // ---- runs ----

  /** One step of a run. A reorder whose scan does not cover the table is no request at all. */
  ghost function Next(books: Books, r: Request): Outcome {
    if Injective(PositionColumn(books.steps)) && Admissible(books, r) then Apply(books, r)
    else Outcome(books, Invalid)
  }

  ghost function Step(): (Books, Request) -> Books {
    (books, r) => Next(books, r).books
  }

  ghost function Run(books: Books, rs: seq<Request>): Books {
    Fold(Step(), books, rs)
  }

  /** A new organization: the provisioned steps and nothing else. */
  ghost function NewBooks(stepIds: seq<Id>): Books
    requires |stepIds| == 6
  {
    Books(FirstDefaults(stepIds, 6), map[], [], 0)
  }

  /** In every run payments never exceed dues, an invoice is paid exactly when it is on the Paid step
      and then its live payments equal its positive dues, a settled invoice is on the Paid step, every
      log is a chain ending on the current step, and positions are exactly 10, 20, ..., 10n. */
  lemma {:induction false} RunKeepsSound(books: Books, rs: seq<Request>)
    requires Sound(books)
    ensures Sound(Run(books, rs))
  {
    if rs != [] {
      var before := Run(books, rs[..|rs| - 1]);
      RunKeepsSound(books, rs[..|rs| - 1]);
      SoundIsUsable(before);
      if Admissible(before, rs[|rs| - 1]) {
        ApplyKeepsSound(before, rs[|rs| - 1]);
      }
    }
  }

  lemma NewBooksAreSound(stepIds: seq<Id>)
    requires |stepIds| == 6 && Distinct(stepIds)
    ensures Sound(NewBooks(stepIds))
  {
    ProvisioningFromNothing(stepIds);
  }

  /** What a reader of any reachable invoice can rely on. */
  lemma ReachableInvoice(stepIds: seq<Id>, rs: seq<Request>, id: Id)
    requires |stepIds| == 6 && Distinct(stepIds)
    requires id in Run(NewBooks(stepIds), rs).invoices
    ensures var books := Run(NewBooks(stepIds), rs);
            var invoice := books.invoices[id];
            var paid := LivePaid(books.payments, id);
            && paid <= invoice.dues
            && (invoice.status == FullyPaid <==> OnPaidStep(books.steps, invoice.current))
            && (invoice.status != Voided ==>
                  (invoice.status == FullyPaid <==> paid == invoice.dues && invoice.dues > 0))
            && (invoice.status == Voided <==> invoice.current == None)
            && Chain(invoice.log, invoice.current)
  {
    NewBooksAreSound(stepIds);
    RunKeepsSound(NewBooks(stepIds), rs);
  }

  lemma ReachablePositions(stepIds: seq<Id>, rs: seq<Request>)
    requires |stepIds| == 6 && Distinct(stepIds)
    ensures var column := PositionColumn(Run(NewBooks(stepIds), rs).steps);
            Injective(column) && column.Values == set k: nat | k < |column| :: Nth(k)
  {
    NewBooksAreSound(stepIds);
    RunKeepsSound(NewBooks(stepIds), rs);
    ExactMeaning(PositionColumn(Run(NewBooks(stepIds), rs).steps));
  }

  /** A reversal never fails in a reachable state. */
  lemma ReversalNeverFails(books: Books, payment: Id)
    requires Sound(books)
    ensures Next(books, Reverse(payment)).reply in {Done, Replayed, NotFound}
  {
    SoundIsUsable(books);
    ReverseKeepsSound(books, payment);
  }

  /** A zero-dues invoice is never paid and takes no payment. */
  lemma ZeroDuesTakesNoPayment(books: Books, r: Request)
    requires InvoicesOk(books) && r.Pay?
    requires r.invoice in books.invoices && books.invoices[r.invoice].dues == 0
    ensures books.invoices[r.invoice].status != FullyPaid
    ensures PayCheck(books, r) != Done
  {
  }

  lemma AcceptedPaymentAdds(books: Books, r: Request, id: Id)
    requires Sound(books) && Injective(PositionColumn(books.steps)) && r.Pay? && PayCheck(books, r) == Done
    ensures LivePaid(AfterPay(books, r).books.payments, id)
         == LivePaid(books.payments, id) + (if r.invoice == id then NewPayment(books, r).amount else 0)
    ensures id != r.invoice && id in books.invoices ==>
              id in AfterPay(books, r).books.invoices && AfterPay(books, r).books.invoices[id] == books.invoices[id]
  {
    PayKeepsSound(books, r);
    LivePaidAppend(books.payments, NewPayment(books, r), id);
    hide WorkflowOk, PaymentsOk, InvoiceOk, Reconcile;
    assert AfterPay(books, r).books.payments == books.payments + [NewPayment(books, r)];
  }

  lemma SettledMeansPaid(books: Books, id: Id)
    requires InvoicesOk(books) && id in books.invoices && books.invoices[id].status != Voided
    ensures LivePaid(books.payments, id) <= books.invoices[id].dues
    ensures books.invoices[id].status == FullyPaid <==>
              LivePaid(books.payments, id) == books.invoices[id].dues && books.invoices[id].dues > 0
  {
  }

  lemma PaymentKeepsDues(books: Books, r: Request)
    requires Sound(books) && Injective(PositionColumn(books.steps)) && r.Pay? && PayCheck(books, r) == Done
    ensures r.invoice in AfterPay(books, r).books.invoices
    ensures AfterPay(books, r).books.invoices[r.invoice].dues == books.invoices[r.invoice].dues
    ensures AfterPay(books, r).books.invoices[r.invoice].status != Voided
  {
    LookupsSucceed(books.steps);
  }

  /** What an accepted payment does: it adds its amount, the whole balance when none was given, to the
      invoice's live payments and to no other's, and pays the invoice exactly when that reaches the dues. */
  lemma PaymentEffect(books: Books, r: Request)
    requires Sound(books) && Injective(PositionColumn(books.steps)) && r.Pay? && PayCheck(books, r) == Done
    ensures var after := AfterPay(books, r).books;
            var paid := LivePaid(books.payments, r.invoice) + NewPayment(books, r).amount;
            && r.invoice in after.invoices
            && LivePaid(after.payments, r.invoice) == paid <= books.invoices[r.invoice].dues
            && (after.invoices[r.invoice].status == FullyPaid <==> paid == books.invoices[r.invoice].dues)
            && (r.amount == None ==> after.invoices[r.invoice].status == FullyPaid)
  {
    PaymentKeepsDues(books, r);
    AcceptedPaymentAdds(books, r, r.invoice);
    PayKeepsSound(books, r);
    hide WorkflowOk, PaymentsOk, InvoiceOk, AfterPay;
    SettledMeansPaid(AfterPay(books, r).books, r.invoice);
  }

  /** Two headers name the same key exactly when they agree, or agree on their first 128 characters. */
  lemma KeysAgree(a: string, b: string)
    ensures KeyOf(a) == KeyOf(b) <==> a == b || (|a| >= 128 && |b| >= 128 && a[..128] == b[..128])
  {
  }

  // ---- history ----

  /** Nothing recorded is ever rewritten: steps and invoices stay, dues never change, logs only grow,
      payments only grow and change only by being reversed, and the revision never goes back. */
  ghost predicate Extends(a: Books, b: Books) {
    && a.steps.Keys <= b.steps.Keys
    && (forall id :: id in a.steps ==> b.steps[id].isPaid == a.steps[id].isPaid)
    && a.invoices.Keys <= b.invoices.Keys
    && (forall id :: id in a.invoices ==>
          b.invoices[id].dues == a.invoices[id].dues && a.invoices[id].log <= b.invoices[id].log)
    && |a.payments| <= |b.payments|
    && (forall i :: 0 <= i < |a.payments| ==>
          b.payments[i] == a.payments[i] || b.payments[i] == a.payments[i].(reversed := true))
    && a.revision <= b.revision
  }

  lemma SettleExtends(books: Books, payments: seq<Payment>, id: Id, move: Move)
    requires id in books.invoices
    requires |books.payments| <= |payments|
    requires forall i :: 0 <= i < |books.payments| ==>
               payments[i] == books.payments[i] || payments[i] == books.payments[i].(reversed := true)
    requires move.Moves? ==> move.invoice.dues == books.invoices[id].dues
    requires move.Moves? ==> books.invoices[id].log <= move.invoice.log
    ensures Extends(books, Settle(books, books.(payments := payments), id, move).books)
  {
  }

  lemma PayExtends(books: Books, r: Request)
    requires Injective(PositionColumn(books.steps)) && r.Pay?
    ensures Extends(books, AfterPay(books, r).books)
  {
    if PayCheck(books, r) == Done {
      var payments := books.payments + [NewPayment(books, r)];
      SettleExtends(books, payments, r.invoice,
        Reconcile(books.steps, books.invoices[r.invoice], LivePaid(payments, r.invoice), OnPayment));
    }
  }

  lemma ReverseExtends(books: Books, payment: Id)
    requires Injective(PositionColumn(books.steps))
    ensures Extends(books, AfterReverse(books, payment).books)
  {
    var at := PaymentIndex(books.payments, payment);
    if at.Some? && !books.payments[at.value].reversed && books.payments[at.value].invoice in books.invoices {
      var p := books.payments[at.value];
      var payments := books.payments[at.value := p.(reversed := true)];
      SettleExtends(books, payments, p.invoice,
        Reconcile(books.steps, books.invoices[p.invoice], LivePaid(payments, p.invoice), OnReversal));
    }
  }

  lemma IssueExtends(books: Books, id: Id, dues: nat)
    requires Injective(PositionColumn(books.steps))
    ensures Extends(books, AfterIssue(books, id, dues).books)
  {
  }

  lemma MoveExtends(books: Books, id: Id, step: Id)
    ensures Extends(books, AfterMove(books, id, step).books)
  {
  }

  lemma VoidExtends(books: Books, id: Id)
    ensures Extends(books, AfterVoid(books, id).books)
  {
  }

  lemma CreateStepExtends(books: Books, r: Request)
    requires r.CreateStep?
    ensures Extends(books, AfterCreateStep(books, r).books)
  {
  }

  lemma EditStepExtends(books: Books, r: Request)
    requires r.EditStep?
    ensures Extends(books, AfterEditStep(books, r).books)
  {
  }

  lemma ApplyExtends(books: Books, r: Request)
    requires Injective(PositionColumn(books.steps)) && Admissible(books, r)
    ensures Extends(books, Apply(books, r).books)
  {
    match r
    case Issue(id, dues) => IssueExtends(books, id, dues);
    case Pay(_, _, _, _, _) => PayExtends(books, r);
    case Reverse(payment) => ReverseExtends(books, payment);
    case MoveTo(id, step) => MoveExtends(books, id, step);
    case VoidInvoice(id) => VoidExtends(books, id);
    case CreateStep(_, _, _, _, _, _) => CreateStepExtends(books, r);
    case EditStep(_, _, _, _, _) => EditStepExtends(books, r);
    case Reorder(ids, scan) => ReorderExtends(books, ids, scan);
  }

  lemma ReorderExtends(books: Books, ids: seq<Id>, scan: seq<Id>)
    requires Lists(PositionColumn(books.steps), scan)
    ensures Extends(books, AfterReorder(books, ids, scan).books)
  {
    if Lists(PositionColumn(books.steps), ids) {
      ReorderIsExact(PositionColumn(books.steps), scan, ids);
    }
  }

  lemma ExtendsIsTransitive(a: Books, b: Books, c: Books)
    requires Extends(a, b) && Extends(b, c)
    ensures Extends(a, c)
  {
  }

  lemma {:induction false} RunExtends(books: Books, rs: seq<Request>)
    ensures Extends(books, Run(books, rs))
  {
    if rs != [] {
      var before := Run(books, rs[..|rs| - 1]);
      RunExtends(books, rs[..|rs| - 1]);
      if Injective(PositionColumn(before.steps)) && Admissible(before, rs[|rs| - 1]) {
        ApplyExtends(before, rs[|rs| - 1]);
        ExtendsIsTransitive(books, before, Run(books, rs));
      }
    }
  }

  // ---- retried payments ----

  /** Both requests carry the same non-empty key for the same invoice; the rest may differ. */
  ghost predicate SameKey(a: Request, b: Request) {
    a.Pay? && b.Pay? && a.invoice == b.invoice && KeyOf(a.keyHeader) == KeyOf(b.keyHeader) != ""
  }

  /** Where a request with a used key lands it changes nothing, whatever became of the payment. */
  lemma UsedKeyChangesNothing(books: Books, r: Request)
    requires r.Pay? && KeyOf(r.keyHeader) != "" && KeyUsed(books.payments, r.invoice, KeyOf(r.keyHeader))
    ensures Next(books, r).books == books
  {
  }

  lemma AcceptedKeyIsUsed(books: Books, r: Request)
    requires r.Pay? && Next(books, r).reply == Done
    ensures KeyUsed(Next(books, r).books.payments, r.invoice, KeyOf(r.keyHeader))
  {
  }

  lemma UsedKeyStaysUsed(a: Books, b: Books, invoice: Id, key: string)
    requires Extends(a, b) && KeyUsed(a.payments, invoice, key)
    ensures KeyUsed(b.payments, invoice, key)
  {
  }

  /** Request `i` repeats request `j`, which was carried out when it came. */
  ghost predicate RepeatsAccepted(books: Books, rs: seq<Request>, i: int, j: int)
    requires 0 <= j < i < |rs|
  {
    SameKey(rs[j], rs[i]) && Next(Run(books, rs[..j]), rs[j]).reply == Done
  }

  ghost predicate MarksRepeats(books: Books, rs: seq<Request>, marks: seq<bool>)
    requires |rs| == |marks|
  {
    forall i :: 0 <= i < |rs| && marks[i] ==> exists j :: 0 <= j < i && RepeatsAccepted(books, rs, i, j)
  }

  /** Once a keyed payment is carried out, its key is in use in every later state. */
  lemma UsedKeyReaches(books: Books, rs: seq<Request>, k: nat, i: nat, invoice: Id, key: string)
    requires k <= i <= |rs| && KeyUsed(Run(books, rs[..k]).payments, invoice, key)
    ensures KeyUsed(Run(books, rs[..i]).payments, invoice, key)
  {
    var now := Run(books, rs[..k]);
    FoldMiddle(Step(), books, rs, k, i);
    RunExtends(now, rs[k..i]);
    UsedKeyStaysUsed(now, Run(now, rs[k..i]), invoice, key);
  }

  /** Any number of retries of accepted keyed payments, anywhere later in a run and even after the
      payment was reversed or the invoice settled or voided, leaves exactly the books, logs and
      revision of the run without them. */
  lemma RepeatsAreInvisible(books: Books, rs: seq<Request>, marks: seq<bool>)
    requires |rs| == |marks| && MarksRepeats(books, rs, marks)
    ensures Run(books, rs) == Run(books, Unmarked(rs, marks))
  {
    forall i | 0 <= i < |rs| && marks[i]
      ensures Step()(Fold(Step(), books, rs[..i]), rs[i]) == Fold(Step(), books, rs[..i])
    {
      var j :| 0 <= j < i && RepeatsAccepted(books, rs, i, j);
      FoldStep(Step(), books, rs, j);
      AcceptedKeyIsUsed(Run(books, rs[..j]), rs[j]);
      UsedKeyReaches(books, rs, j + 1, i, rs[i].invoice, KeyOf(rs[i].keyHeader));
      UsedKeyChangesNothing(Run(books, rs[..i]), rs[i]);
    }
    SkipIdle(Step(), books, rs, marks);
  }

  // ---- where a reversal lands ----

  /** `i` is the latest log row whose step an unpaid invoice can still be put on. */
  ghost predicate LatestAt(steps: Steps, log: seq<Event>, i: int) {
    && 0 <= i < |log| && OrdinaryStep(steps, log[i].toStep)
    && forall j :: i < j < |log| ==> !OrdinaryStep(steps, log[j].toStep)
  }

  lemma {:induction false} LatestAtWins(steps: Steps, log: seq<Event>, i: nat)
    requires LatestAt(steps, log, i)
    ensures LatestRestorable(steps, log) == log[i].toStep
  {
    var n := |log| - 1;
    if i < n {
      assert !OrdinaryStep(steps, log[n].toStep);
      LatestAtWins(steps, log[..n], i);
    }
  }

  lemma {:induction false} RestorableIsLogged(steps: Steps, log: seq<Event>) returns (i: nat)
    requires LatestRestorable(steps, log).Some?
    ensures LatestAt(steps, log, i)
  {
    var n := |log| - 1;
    if OrdinaryStep(steps, log[n].toStep) {
      i := n;
    } else {
      i := RestorableIsLogged(steps, log[..n]);
    }
  }

  lemma {:induction false} NothingRestorable(steps: Steps, log: seq<Event>, i: nat)
    requires LatestRestorable(steps, log).None? && i < |log|
    ensures !OrdinaryStep(steps, log[i].toStep)
  {
    var n := |log| - 1;
    if i < n {
      NothingRestorable(steps, log[..n], i);
    }
  }

  /** The backward search finds the latest usable logged step, and fails only if there is none. */
  lemma LatestRestorableMeaning(steps: Steps, log: seq<Event>)
    ensures LatestRestorable(steps, log).None? <==>
              forall i :: 0 <= i < |log| ==> !OrdinaryStep(steps, log[i].toStep)
    ensures forall i :: LatestAt(steps, log, i) ==> LatestRestorable(steps, log) == log[i].toStep
  {
    if LatestRestorable(steps, log).Some? {
      var i := RestorableIsLogged(steps, log);
      assert OrdinaryStep(steps, log[i].toStep);
    } else {
      forall i | 0 <= i < |log| ensures !OrdinaryStep(steps, log[i].toStep) {
        NothingRestorable(steps, log, i);
      }
    }
    forall i | LatestAt(steps, log, i) ensures LatestRestorable(steps, log) == log[i].toStep {
      LatestAtWins(steps, log, i);
    }
  }

  /** Where a reversal out of Paid puts the invoice. */
  function Landing(books: Books, id: Id): Option<Id>
    requires id in books.invoices && Injective(PositionColumn(books.steps))
  {
    var candidate := LatestRestorable(books.steps, books.invoices[id].log);
    if candidate.Some? then candidate else ActiveDefaultStep(books.steps)
  }

  /** `i` is a live payment of the fully paid invoice `id`. */
  predicate LivePaymentOfPaid(books: Books, i: nat, id: Id) {
    && i < |books.payments| && books.payments[i].invoice == id && !books.payments[i].reversed
    && id in books.invoices && books.invoices[id].status == FullyPaid
  }

  lemma ReverseOutOfPaid(books: Books, i: nat, id: Id)
    requires Sound(books) && Injective(PositionColumn(books.steps)) && LivePaymentOfPaid(books, i, id)
    ensures Landing(books, id).Some?
    ensures id in AfterReverse(books, books.payments[i].id).books.invoices
    ensures AfterReverse(books, books.payments[i].id).books.invoices[id]
         == Moved(books.steps, books.invoices[id], Landing(books, id), OnReversal)
    ensures OrdinaryStep(books.steps, Landing(books, id))
  {
    LookupsSucceed(books.steps);
    PaymentFound(books, i);
    LivePaidReverse(books.payments, i, id);
    assert InvoiceOk(books.steps, books.invoices[id], LivePaid(books.payments, id));
  }

  lemma PaymentFound(books: Books, i: nat)
    requires PaymentsOk(books) && i < |books.payments|
    ensures PaymentIndex(books.payments, books.payments[i].id) == Some(i)
  {
  }

  /** Reversing a live payment of a paid invoice puts it back to unpaid, on the latest logged step that
      is still active, unpaid and non-terminal; when there is none, on the first active ordinary step. */
  lemma ReversalLands(books: Books, i: nat, id: Id)
    requires Sound(books) && Injective(PositionColumn(books.steps)) && LivePaymentOfPaid(books, i, id)
    ensures var after := AfterReverse(books, books.payments[i].id).books;
            var log := books.invoices[id].log;
            && id in after.invoices && after.invoices[id].status == Unpaid
            && (forall k :: LatestAt(books.steps, log, k) ==> after.invoices[id].current == log[k].toStep)
            && ((forall k :: 0 <= k < |log| ==> !OrdinaryStep(books.steps, log[k].toStep)) ==>
                  after.invoices[id].current == ActiveDefaultStep(books.steps))
  {
    LatestRestorableMeaning(books.steps, books.invoices[id].log);
    ReverseOutOfPaid(books, i, id);
  }

  // ---- a detour through Paid comes back ----

  /** Since the invoice was last put on step `s` its log shows nothing but the Paid step. */
  ghost predicate OnlyPaidSince(steps: Steps, log: seq<Event>, s: Id) {
    log != [] &&
    (log[|log| - 1].toStep == Some(s)
     || (OnPaidStep(steps, log[|log| - 1].toStep) && OnlyPaidSince(steps, log[..|log| - 1], s)))
  }

  /** The invoice stands on the non-paid step `s`, or has only been paid since it did. */
  ghost predicate Detour(books: Books, id: Id, s: Id) {
    && id in books.invoices && books.invoices[id].status != Voided
    && s in books.steps && !books.steps[s].isPaid
    && OnlyPaidSince(books.steps, books.invoices[id].log, s)
  }

  /** The request takes the invoice off Paid: it reverses a live payment of it while it is fully paid. */
  predicate Reopens(books: Books, r: Request, id: Id) {
    r.Reverse? && exists i :: 0 <= i < |books.payments| && books.payments[i].id == r.payment
                              && LivePaymentOfPaid(books, i, id)
  }

  /** The request, as it comes, neither moves nor voids this invoice by hand, nor reopens it at a moment
      when step `s` is inactive. Steps may be edited freely, `s` included. */
  predicate Undisturbing(books: Books, r: Request, id: Id, s: Id) {
    && !(r.MoveTo? && r.invoice == id && MoveCheck(books, id, r.step) == Done
         && id in books.invoices && books.invoices[id].current != Some(r.step))
    && !(r.VoidInvoice? && r.invoice == id)
    && (Reopens(books, r, id) ==> s in books.steps && books.steps[s].active)
  }

  lemma {:induction false} OnlyPaidSinceRestores(steps: Steps, log: seq<Event>, s: Id)
    requires OnlyPaidSince(steps, log, s) && s in steps && Ordinary(steps[s])
    ensures LatestRestorable(steps, log) == Some(s)
  {
    if log[|log| - 1].toStep != Some(s) {
      OnlyPaidSinceRestores(steps, log[..|log| - 1], s);
    }
  }

  lemma {:induction false} OnlyPaidSinceSurvives(a: Steps, b: Steps, log: seq<Event>, s: Id)
    requires OnlyPaidSince(a, log, s)
    requires a.Keys <= b.Keys && forall id :: id in a ==> b[id].isPaid == a[id].isPaid
    ensures OnlyPaidSince(b, log, s)
  {
    if log[|log| - 1].toStep != Some(s) {
      OnlyPaidSinceSurvives(a, b, log[..|log| - 1], s);
    }
  }

  /** In a sound workflow a non-paid step is ordinary exactly while it is active. */
  lemma ActiveIsOrdinary(steps: Steps, s: Id)
    requires PaidIsSystemOwned(steps) && s in steps && !steps[s].isPaid
    ensures Ordinary(steps[s]) <==> steps[s].active
  {
  }

  lemma ReconcileKeepsDetour(steps: Steps, invoice: Invoice, before: nat, paid: nat, source: Source, s: Id)
    requires WorkflowOk(steps) && Injective(PositionColumn(steps)) && InvoiceOk(steps, invoice, before)
    requires invoice.status != Voided && source != OnManualMove
    requires s in steps && !steps[s].isPaid && OnlyPaidSince(steps, invoice.log, s)
    requires paid < invoice.dues && invoice.status == FullyPaid ==> Ordinary(steps[s])
    ensures var move := Reconcile(steps, invoice, paid, source);
            move.Moves? ==> OnlyPaidSince(steps, move.invoice.log, s) && move.invoice.status != Voided
  {
    LookupsSucceed(steps);
    if Ordinary(steps[s]) { OnlyPaidSinceRestores(steps, invoice.log, s); }
    var move := Reconcile(steps, invoice, paid, source);
    if move.Moves? {
      assert move.invoice.log[..|invoice.log|] == invoice.log;
    }
  }

  lemma PayKeepsDetour(books: Books, r: Request, id: Id, s: Id)
    requires Sound(books) && Injective(PositionColumn(books.steps)) && Detour(books, id, s) && r.Pay?
    ensures Detour(AfterPay(books, r).books, id, s)
  {
    if PayCheck(books, r) == Done && r.invoice == id {
      var payments := books.payments + [NewPayment(books, r)];
      hide WorkflowOk, PaymentsOk, LivePaid, Reconcile;
      ReconcileKeepsDetour(books.steps, books.invoices[id], LivePaid(books.payments, id),
                           LivePaid(payments, id), OnPayment, s);
    }
  }

  lemma ReverseKeepsDetour(books: Books, payment: Id, id: Id, s: Id)
    requires Sound(books) && Injective(PositionColumn(books.steps)) && Detour(books, id, s)
    requires Reopens(books, Reverse(payment), id) ==> books.steps[s].active
    ensures Detour(AfterReverse(books, payment).books, id, s)
  {
    var at := PaymentIndex(books.payments, payment);
    if at.Some? && !books.payments[at.value].reversed && books.payments[at.value].invoice == id {
      var payments := books.payments[at.value := books.payments[at.value].(reversed := true)];
      if books.invoices[id].status == FullyPaid {
        assert LivePaymentOfPaid(books, at.value, id);
        ActiveIsOrdinary(books.steps, s);
      }
      ReconcileKeepsDetour(books.steps, books.invoices[id], LivePaid(books.payments, id),
                           LivePaid(payments, id), OnReversal, s);
    }
  }

  /** Requests that touch neither the invoice's row nor step `s`'s flags. */
  lemma StepsKeepDetour(books: Books, after: Books, id: Id, s: Id)
    requires Detour(books, id, s) && after.invoices == books.invoices
    requires books.steps.Keys <= after.steps.Keys
    requires forall d :: d in books.steps ==> after.steps[d].isPaid == books.steps[d].isPaid
    ensures Detour(after, id, s)
  {
    OnlyPaidSinceSurvives(books.steps, after.steps, books.invoices[id].log, s);
  }

  lemma IssueKeepsDetour(books: Books, other: Id, dues: nat, id: Id, s: Id)
    requires Injective(PositionColumn(books.steps)) && Detour(books, id, s)
    ensures Detour(AfterIssue(books, other, dues).books, id, s)
  {
  }

  lemma MoveKeepsDetour(books: Books, other: Id, step: Id, id: Id, s: Id)
    requires Detour(books, id, s)
    requires other == id && MoveCheck(books, id, step) == Done ==> books.invoices[id].current == Some(step)
    ensures Detour(AfterMove(books, other, step).books, id, s)
  {
  }

  lemma VoidKeepsDetour(books: Books, other: Id, id: Id, s: Id)
    requires Detour(books, id, s) && other != id
    ensures Detour(AfterVoid(books, other).books, id, s)
  {
  }

  lemma CreateKeepsDetour(books: Books, r: Request, id: Id, s: Id)
    requires Detour(books, id, s) && r.CreateStep?
    ensures Detour(AfterCreateStep(books, r).books, id, s)
  {
    if CreateStepCheck(books, r) == Done {
      StepsKeepDetour(books, AfterCreateStep(books, r).books, id, s);
    }
  }

  lemma EditKeepsDetour(books: Books, r: Request, id: Id, s: Id)
    requires Detour(books, id, s) && r.EditStep?
    ensures Detour(AfterEditStep(books, r).books, id, s)
  {
    if EditStepCheck(books, r) == Done {
      StepsKeepDetour(books, AfterEditStep(books, r).books, id, s);
    }
  }

  lemma ReorderKeepsDetour(books: Books, ids: seq<Id>, scan: seq<Id>, id: Id, s: Id)
    requires Lists(PositionColumn(books.steps), scan) && Detour(books, id, s)
    ensures Detour(AfterReorder(books, ids, scan).books, id, s)
  {
    if Lists(PositionColumn(books.steps), ids) {
      ReorderIsExact(PositionColumn(books.steps), scan, ids);
      var after := AfterReorder(books, ids, scan).books;
      if after != books {
        StepsKeepDetour(books, after, id, s);
      }
    }
  }

  lemma NextKeepsDetour(books: Books, r: Request, id: Id, s: Id)
    requires Sound(books) && Detour(books, id, s) && Undisturbing(books, r, id, s)
    ensures Detour(Next(books, r).books, id, s)
  {
    SoundIsUsable(books);
    if Admissible(books, r) {
      match r
      case Issue(other, dues) => IssueKeepsDetour(books, other, dues, id, s);
      case Pay(_, _, _, _, _) => PayKeepsDetour(books, r, id, s);
      case Reverse(payment) => ReverseKeepsDetour(books, payment, id, s);
      case MoveTo(other, step) => MoveKeepsDetour(books, other, step, id, s);
      case VoidInvoice(other) => VoidKeepsDetour(books, other, id, s);
      case CreateStep(_, _, _, _, _, _) => CreateKeepsDetour(books, r, id, s);
      case EditStep(_, _, _, _, _) => EditKeepsDetour(books, r, id, s);
      case Reorder(ids, scan) => ReorderKeepsDetour(books, ids, scan, id, s);
    }
  }

  /** Every request of the run is undisturbing in the state it meets. */
  ghost predicate UndisturbingRun(books: Books, rs: seq<Request>, id: Id, s: Id) {
    forall k :: 0 <= k < |rs| ==> Undisturbing(Run(books, rs[..k]), rs[k], id, s)
  }

  lemma {:induction false} RunKeepsDetour(books: Books, rs: seq<Request>, id: Id, s: Id)
    requires Sound(books) && Detour(books, id, s) && UndisturbingRun(books, rs, id, s)
    ensures Detour(Run(books, rs), id, s)
  {
    hide Sound, Detour, Undisturbing;
    if rs != [] {
      var n := |rs| - 1;
      forall k | 0 <= k < n ensures Undisturbing(Run(books, rs[..n][..k]), rs[..n][k], id, s) {
        assert rs[..n][..k] == rs[..k];
        assert Undisturbing(Run(books, rs[..k]), rs[k], id, s);
      }
      RunKeepsDetour(books, rs[..n], id, s);
      RunKeepsSound(books, rs[..n]);
      NextKeepsDetour(Run(books, rs[..n]), rs[n], id, s);
    }
  }

  lemma DetourStarts(books: Books, id: Id, s: Id)
    requires InvoicesOk(books) && id in books.invoices && books.invoices[id].current == Some(s)
    requires s in books.steps && !books.steps[s].isPaid
    ensures Detour(books, id, s)
  {
  }

  lemma ReversalAfterDetour(now: Books, id: Id, s: Id, i: nat)
    requires Sound(now) && Injective(PositionColumn(now.steps))
    requires Detour(now, id, s) && LivePaymentOfPaid(now, i, id)
    ensures var after := AfterReverse(now, now.payments[i].id).books;
            && id in after.invoices && after.invoices[id].status == Unpaid
            && (after.invoices[id].current == Some(s) <==> now.steps[s].active)
  {
    ActiveIsOrdinary(now.steps, s);
    hide WorkflowOk, PaymentsOk, InvoicesOk;
    ReverseOutOfPaid(now, i, id);
    if Ordinary(now.steps[s]) { OnlyPaidSinceRestores(now.steps, now.invoices[id].log, s); }
  }

  /** From any state where an invoice stands on a non-paid step `s`, let any requests follow that do not
      move or void it by hand: payments in any number of parts, reversals, other invoices, new, edited
      and reordered steps, `s` deactivated and activated again, as long as `s` is active whenever one of
      them reopens the invoice. When it is then fully paid, reversing any live payment puts it back on
      `s` if and only if `s` is active at that moment. */
  lemma DetourRestores(books: Books, rs: seq<Request>, id: Id, s: Id, i: nat)
    requires Sound(books) && id in books.invoices && books.invoices[id].current == Some(s)
    requires s in books.steps && !books.steps[s].isPaid
    requires UndisturbingRun(books, rs, id, s)
    requires LivePaymentOfPaid(Run(books, rs), i, id)
    ensures var now := Run(books, rs);
            var after := Next(now, Reverse(now.payments[i].id)).books;
            && s in now.steps && id in after.invoices && after.invoices[id].status == Unpaid
            && (after.invoices[id].current == Some(s) <==> now.steps[s].active)
  {
    DetourStarts(books, id, s);
    RunKeepsDetour(books, rs, id, s);
    RunKeepsSound(books, rs);
    SoundIsUsable(Run(books, rs));
    hide Sound, AfterReverse;
    ReversalAfterDetour(Run(books, rs), id, s, i);
  }
}
