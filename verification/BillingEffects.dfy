/** What each billing request answers and leaves, on the rows themselves: when it is carried out, every
    field it writes, and that nothing else changes. */
module BillingEffects {
  import opened Wrappers
  import opened Reordering
  import opened Workflow
  import opened Billing
  import opened BillingRuns

  /** Steps, payments and every invoice but `id` are as before. */
  ghost predicate OnlyInvoice(a: Books, b: Books, id: Id) {
    && b.steps == a.steps && b.payments == a.payments && OtherInvoicesStay(a, b, id)
  }

  ghost predicate OtherInvoicesStay(a: Books, b: Books, id: Id) {
    && b.invoices.Keys == a.invoices.Keys + {id}
    && forall other :: other in a.invoices && other != id ==> b.invoices[other] == a.invoices[other]
  }

  /** The row moved to `step` with one more log row; its dues stay. */
  ghost predicate MovedRow(was: Invoice, row: Invoice, step: Option<Id>, status: Status, source: Source) {
    && row.dues == was.dues && row.status == status && row.current == step
    && row.log == was.log + [Event(was.current, step, source)]
  }

  /** Sound books take every request but a reorder that does not cover the table. */
  lemma Routed(books: Books, r: Request)
    requires Sound(books) && !r.Reorder?
    ensures Injective(PositionColumn(books.steps))
    ensures Next(books, r) == match r
                              case Issue(id, dues) => AfterIssue(books, id, dues)
                              case Pay(_, _, _, _, _) => AfterPay(books, r)
                              case Reverse(payment) => AfterReverse(books, payment)
                              case MoveTo(id, step) => AfterMove(books, id, step)
                              case VoidInvoice(id) => AfterVoid(books, id)
                              case CreateStep(_, _, _, _, _, _) => AfterCreateStep(books, r)
                              case EditStep(_, _, _, _, _) => AfterEditStep(books, r)
  {
    SoundIsUsable(books);
    hide Sound, Injective, AfterIssue, AfterPay, AfterReverse, AfterMove, AfterVoid, AfterCreateStep, AfterEditStep;
  }

  // ---- payments ----

  /** A header that is not empty names a payment of the invoice by its first 128 characters. */
  ghost predicate Keyed(books: Books, r: Request)
    requires r.Pay?
  {
    && r.keyHeader != ""
    && (exists i :: 0 <= i < |books.payments| && books.payments[i].invoice == r.invoice
                    && books.payments[i].key == (if |r.keyHeader| <= 128 then r.keyHeader else r.keyHeader[..128]))
  }

  /** The primary key or the reference is taken. */
  ghost predicate Duplicate(books: Books, r: Request)
    requires r.Pay?
  {
    || (exists i :: 0 <= i < |books.payments| && books.payments[i].id == r.payment)
    || (exists i :: 0 <= i < |books.payments| && books.payments[i].invoice == r.invoice
                    && books.payments[i].reference == r.reference)
  }

  /** What is still owed, and what the request pays: all of it when no amount is given. */
  ghost function Owed(books: Books, id: Id): int
    requires id in books.invoices
  {
    books.invoices[id].dues - LivePaid(books.payments, id)
  }

  ghost function Offered(books: Books, r: Request): int
    requires r.Pay? && r.invoice in books.invoices
  {
    if r.amount.Some? then r.amount.value else Owed(books, r.invoice)
  }

  /** The invoice is unpaid, the payment new, and its amount positive and at most what is owed. */
  ghost predicate Payable(books: Books, r: Request)
    requires r.Pay?
  {
    && r.invoice in books.invoices && books.invoices[r.invoice].status == Unpaid
    && !Keyed(books, r) && !Duplicate(books, r)
    && 0 < Offered(books, r) <= Owed(books, r.invoice)
  }

  lemma KeyedIsUsed(books: Books, r: Request)
    requires r.Pay?
    ensures Keyed(books, r) <==> KeyOf(r.keyHeader) != "" && KeyUsed(books.payments, r.invoice, KeyOf(r.keyHeader))
  {
    if Keyed(books, r) {
      var i :| 0 <= i < |books.payments| && books.payments[i].invoice == r.invoice
               && books.payments[i].key == (if |r.keyHeader| <= 128 then r.keyHeader else r.keyHeader[..128]);
      assert PaymentKeyed(books.payments[i], r.invoice, KeyOf(r.keyHeader));
    }
  }

  lemma DuplicateIsUsed(books: Books, r: Request)
    requires r.Pay?
    ensures Duplicate(books, r) <==>
              PaymentIdUsed(books.payments, r.payment) || ReferenceUsed(books.payments, r.invoice, r.reference)
  {
  }

  lemma OwedIsBalance(books: Books, r: Request)
    requires Sound(books) && r.Pay? && r.invoice in books.invoices
    ensures Owed(books, r.invoice) == Balance(books, r.invoice)
    ensures Offered(books, r) == NewPayment(books, r).amount
    ensures books.invoices[r.invoice].status == FullyPaid ==> Owed(books, r.invoice) == 0
    ensures r.amount != Some(0) && Owed(books, r.invoice) > 0 ==> Offered(books, r) > 0
  {
    SoundInvoice(books, r.invoice);
    hide Sound, LivePaid, OnPaidStep, Chain;
  }

  lemma PayReplyIsCheck(books: Books, r: Request)
    requires Sound(books) && r.Pay?
    ensures Next(books, r).reply == PayCheck(books, r)
    ensures PayCheck(books, r) != Done ==> Next(books, r).books == books
  {
    SoundIsUsable(books);
    PayKeepsSound(books, r);
  }

  lemma SoundInvoice(books: Books, id: Id)
    requires Sound(books) && id in books.invoices
    ensures InvoiceOk(books.steps, books.invoices[id], LivePaid(books.payments, id))
  {
    hide WorkflowOk, PaymentsOk;
  }

  /** When a payment is accepted. */
  lemma PaymentAccepted(books: Books, r: Request)
    requires Sound(books) && r.Pay?
    ensures Next(books, r).reply == Done <==> Payable(books, r)
  {
    PayReplyIsCheck(books, r);
    KeyedIsUsed(books, r);
    DuplicateIsUsed(books, r);
    hide Sound, Keyed, KeyOf, LivePaid, Next, KeyUsed, OnPaidStep, Chain, Duplicate, PaymentIdUsed, ReferenceUsed;
    if r.invoice in books.invoices { OwedIsBalance(books, r); }
    hide Balance, NewPayment, Owed, Offered;
  }

  /** What every other payment request is answered; it changes nothing. */
  lemma PaymentRefused(books: Books, r: Request)
    requires Sound(books) && r.Pay?
    ensures var reply := Next(books, r).reply;
            var found := r.amount != Some(0) && r.invoice in books.invoices;
            var live := found && books.invoices[r.invoice].status != Voided;
            && (reply != Done ==> Next(books, r).books == books)
            && (reply == NotFound <==> r.amount != Some(0) && r.invoice !in books.invoices)
            && (reply == Replayed <==> live && Keyed(books, r))
            && (reply == Conflict <==> found && (!live || (!Keyed(books, r) && Owed(books, r.invoice) == 0)))
            && (reply == Broken <==> live && !Keyed(books, r) && 0 < Offered(books, r) <= Owed(books, r.invoice)
                                     && Duplicate(books, r))
  {
    PayReplyIsCheck(books, r);
    KeyedIsUsed(books, r);
    DuplicateIsUsed(books, r);
    hide Sound, Keyed, KeyOf, LivePaid, Next, KeyUsed, OnPaidStep, Chain, Duplicate, PaymentIdUsed, ReferenceUsed;
    if r.invoice in books.invoices { OwedIsBalance(books, r); }
    hide Balance, NewPayment, Owed, Offered;
  }

  /** What an accepted payment leaves: the new payment row, and the invoice where it was, or on the Paid
      step with a log row when nothing is owed any more. */
  lemma PaymentLeaves(books: Books, r: Request)
    requires Sound(books) && r.Pay? && Payable(books, r)
    ensures var after := Next(books, r).books;
            var was := books.invoices[r.invoice];
            && after.steps == books.steps && after.revision == books.revision + 1
            && OtherInvoicesStay(books, after, r.invoice)
            && |after.payments| == |books.payments| + 1 && after.payments[..|books.payments|] == books.payments
            && after.payments[|books.payments|] == Payment(r.payment, r.invoice, Offered(books, r), r.reference,
                 if |r.keyHeader| <= 128 then r.keyHeader else r.keyHeader[..128], false)
            && (if Offered(books, r) < Owed(books, r.invoice) then after.invoices[r.invoice] == was
                else exists p :: p in books.steps && books.steps[p].isPaid
                                 && MovedRow(was, after.invoices[r.invoice], Some(p), FullyPaid, OnPayment))
  {
    PaymentAccepted(books, r);
    PayReplyIsCheck(books, r);
    Routed(books, r);
    SoundInvoice(books, r.invoice);
    LivePaidAppend(books.payments, NewPayment(books, r), r.invoice);
    var payments := books.payments + [NewPayment(books, r)];
    assert payments[..|books.payments|] == books.payments;
    PaymentMoves(books.steps, books.invoices[r.invoice], LivePaid(books.payments, r.invoice), LivePaid(payments, r.invoice));
    hide Sound, Keyed, Duplicate, LivePaid, PayCheck, Next, Reconcile, InvoiceOk, MovedRow, Injective;
  }

  /** Only a payment that reaches the dues moves an unpaid invoice, onto the Paid step. */
  lemma PaymentMoves(steps: Steps, invoice: Invoice, before: nat, paid: nat)
    requires WorkflowOk(steps) && Injective(PositionColumn(steps)) && InvoiceOk(steps, invoice, before)
    requires invoice.status == Unpaid && before < paid <= invoice.dues
    ensures var move := Reconcile(steps, invoice, paid, OnPayment);
            if paid < invoice.dues then move == Stays
            else move.Moves? && exists p :: p in steps && steps[p].isPaid
                                       && MovedRow(invoice, move.invoice, Some(p), FullyPaid, OnPayment)
  {
    LookupsSucceed(steps);
    hide WorkflowOk, Injective, Chain;
  }

  /** A payment of the whole balance settles the invoice. */
  lemma PaymentWithoutAmountSettles(books: Books, r: Request)
    requires Sound(books) && r.Pay? && r.amount.None?
    requires r.invoice in books.invoices && books.invoices[r.invoice].status == Unpaid && books.invoices[r.invoice].dues > 0
    requires !Keyed(books, r) && !Duplicate(books, r)
    ensures Next(books, r).reply == Done && Next(books, r).books.invoices[r.invoice].status == FullyPaid
  {
    assert InvoiceOk(books.steps, books.invoices[r.invoice], LivePaid(books.payments, r.invoice));
    hide WorkflowOk, PaymentsOk, Keyed, Duplicate, LivePaid, Next;
    PaymentAccepted(books, r);
    PaymentLeaves(books, r);
  }

  // ---- reversals ----

  /** With less paid than before, only a paid invoice moves, onto an ordinary step. */
  lemma ReversalMoves(steps: Steps, invoice: Invoice, before: nat, paid: nat)
    requires WorkflowOk(steps) && Injective(PositionColumn(steps)) && InvoiceOk(steps, invoice, before) && paid < before
    ensures var move := Reconcile(steps, invoice, paid, OnReversal);
            if invoice.status != FullyPaid then move == Stays
            else move.Moves? && exists s :: s in steps && Ordinary(steps[s])
                                       && MovedRow(invoice, move.invoice, Some(s), Unpaid, OnReversal)
  {
    LookupsSucceed(steps);
    hide WorkflowOk, Injective;
  }

  lemma ReversalSettles(books: Books, i: nat)
    requires Sound(books) && Injective(PositionColumn(books.steps)) && i < |books.payments| && !books.payments[i].reversed
    ensures var p := books.payments[i];
            var payments := books.payments[i := p.(reversed := true)];
            && p.invoice in books.invoices && p.amount > 0
            && InvoiceOk(books.steps, books.invoices[p.invoice], LivePaid(books.payments, p.invoice))
            && LivePaid(books.payments, p.invoice) == LivePaid(payments, p.invoice) + p.amount
            && Next(books, Reverse(p.id)) ==
                 Settle(books, books.(payments := payments), p.invoice,
                        Reconcile(books.steps, books.invoices[p.invoice], LivePaid(payments, p.invoice), OnReversal))
  {
    IndexIsUnique(books, i);
    LivePaidReverse(books.payments, i, books.payments[i].invoice);
    Routed(books, Reverse(books.payments[i].id));
    hide WorkflowOk, LivePaid, PaymentIndex, Reconcile, Settle, Injective, Next, Apply;
  }

  /** Reversing a live payment, whatever became of its invoice, reverses exactly that payment, takes its
      amount off its invoice and leaves every other row alone; its own invoice's row changes only if it
      was paid, and then it is unpaid on an ordinary step, with a log row. */
  lemma ReversalLeaves(books: Books, i: nat)
    requires Sound(books) && i < |books.payments| && !books.payments[i].reversed
    ensures var p := books.payments[i];
            var out := Next(books, Reverse(p.id));
            && out.reply == Done && out.books.steps == books.steps && out.books.revision == books.revision + 1
            && |out.books.payments| == |books.payments|
            && out.books.payments[i] == Payment(p.id, p.invoice, p.amount, p.reference, p.key, true)
            && (forall k :: 0 <= k < |books.payments| && k != i ==> out.books.payments[k] == books.payments[k])
            && p.invoice in books.invoices && OtherInvoicesStay(books, out.books, p.invoice)
            && (if books.invoices[p.invoice].status != FullyPaid
                then out.books.invoices[p.invoice] == books.invoices[p.invoice]
                else exists s :: s in books.steps && Ordinary(books.steps[s])
                       && MovedRow(books.invoices[p.invoice], out.books.invoices[p.invoice], Some(s), Unpaid, OnReversal))
  {
    SoundIsUsable(books);
    ReversalSettles(books, i);
    var p := books.payments[i];
    var payments := books.payments[i := p.(reversed := true)];
    ReversalMoves(books.steps, books.invoices[p.invoice], LivePaid(books.payments, p.invoice), LivePaid(payments, p.invoice));
    hide Sound, LivePaid, InvoiceOk, Next, Reconcile, MovedRow, Ordinary, Injective;
  }

  lemma IndexIsUnique(books: Books, i: nat)
    requires PaymentsOk(books) && i < |books.payments|
    ensures PaymentIndex(books.payments, books.payments[i].id) == Some(i)
  {
    assert PaymentIdUsed(books.payments, books.payments[i].id);
    hide PaymentIndex;
  }

  lemma ReversalTakesOff(books: Books, i: nat, id: Id)
    requires Sound(books) && i < |books.payments| && !books.payments[i].reversed
    ensures LivePaid(Next(books, Reverse(books.payments[i].id)).books.payments, id)
            == LivePaid(books.payments, id) - (if books.payments[i].invoice == id then books.payments[i].amount else 0)
  {
    ReversalLeaves(books, i);
    LivePaidReverse(books.payments, i, id);
    hide LivePaid, Sound, Next, OtherInvoicesStay, MovedRow;
    var after := Next(books, Reverse(books.payments[i].id)).books.payments;
    assert after == books.payments[i := books.payments[i].(reversed := true)];
  }

  /** Reversing anything else changes nothing. */
  lemma ReversalRefused(books: Books, id: Id)
    requires Sound(books)
    requires forall i :: 0 <= i < |books.payments| && books.payments[i].id == id ==> books.payments[i].reversed
    ensures var known := exists i :: 0 <= i < |books.payments| && books.payments[i].id == id;
            Next(books, Reverse(id)) == Outcome(books, if known then Replayed else NotFound)
  {
    Routed(books, Reverse(id));
    hide PaymentIndex, WorkflowOk, InvoicesOk, Next, Injective, Reconcile;
    assert PaymentIdUsed(books.payments, id) <==> exists i :: 0 <= i < |books.payments| && books.payments[i].id == id;
  }

  // ---- issuing, moving and voiding ----

  /** A new invoice stands unpaid on the least-positioned ordinary step; a used key breaks and changes
      nothing. */
  lemma IssueLeaves(books: Books, id: Id, dues: nat)
    requires Sound(books)
    ensures var out := Next(books, Issue(id, dues));
            if id in books.invoices then out == Outcome(books, Broken)
            else
              && out.reply == Done && OnlyInvoice(books, out.books, id) && out.books.revision == books.revision + 1
              && exists s :: s in books.steps && Ordinary(books.steps[s])
                   && (forall other :: other in books.steps && Ordinary(books.steps[other]) ==>
                         books.steps[s].position <= books.steps[other].position)
                   && out.books.invoices[id] == Invoice(dues, Unpaid, Some(s), [Event(None, Some(s), OnCreation)])
  {
    Routed(books, Issue(id, dues));
    LookupsSucceed(books.steps);
    hide Sound, Injective, Next, Apply;
    if id !in books.invoices {
      var s := ActiveDefaultStep(books.steps).value;
      LeastOrdinary(books.steps, s);
    }
  }

  lemma LeastOrdinary(steps: Steps, s: Id)
    requires Injective(PositionColumn(steps)) && ActiveDefaultStep(steps) == Some(s)
    ensures forall other :: other in steps && Ordinary(steps[other]) ==> steps[s].position <= steps[other].position
  {
    forall other | other in steps && Ordinary(steps[other]) ensures steps[s].position <= steps[other].position {
      assert other in OrdinaryIds(steps);
    }
  }

  /** An unpaid invoice goes to any active step but Paid; choosing the step it is on changes nothing. */
  lemma MoveLeaves(books: Books, id: Id, step: Id)
    requires Sound(books)
    ensures var out := Next(books, MoveTo(id, step));
            if id !in books.invoices then out == Outcome(books, NotFound)
            else if books.invoices[id].status != Unpaid then out == Outcome(books, Conflict)
            else if step !in books.steps || !books.steps[step].active || books.steps[step].isPaid
            then out == Outcome(books, Invalid)
            else if books.invoices[id].current == Some(step) then out == Outcome(books, Done)
            else
              && out.reply == Done && OnlyInvoice(books, out.books, id) && out.books.revision == books.revision + 1
              && MovedRow(books.invoices[id], out.books.invoices[id], Some(step), Unpaid, OnManualMove)
  {
    Routed(books, MoveTo(id, step));
    if id in books.invoices { SoundInvoice(books, id); }
    hide Sound, LivePaid, Injective, Chain, Next, Apply;
  }

  lemma VoidLeaves(books: Books, id: Id)
    requires Sound(books)
    ensures var out := Next(books, VoidInvoice(id));
            if id !in books.invoices then out == Outcome(books, NotFound)
            else
              && out.reply == Done && OnlyInvoice(books, out.books, id)
              && MovedRow(books.invoices[id], out.books.invoices[id], None, Voided, OnManualMove)
  {
    Routed(books, VoidInvoice(id));
    if id in books.invoices { SoundInvoice(books, id); }
    hide Sound, LivePaid, Injective, Chain, Next, Apply;
  }

  // ---- the workflow ----

  /** Invoices, payments and every step but `id` are as before. */
  ghost predicate OnlyStep(a: Books, b: Books, id: Id) {
    && b.invoices == a.invoices && b.payments == a.payments && b.steps.Keys == a.steps.Keys + {id}
    && forall other :: other in a.steps && other != id ==> b.steps[other] == a.steps[other]
  }

  ghost predicate TakenCode(steps: Steps, code: Code) {
    exists s :: s in steps && steps[s].code == code
  }

  /** Some other active step is not Paid. */
  ghost predicate OtherUnpaid(steps: Steps, id: Id) {
    exists s :: s in steps && s != id && steps[s].active && !steps[s].isPaid
  }

  lemma RoutedStep(books: Books, r: Request)
    requires Sound(books) && (r.CreateStep? || r.EditStep?)
    ensures Next(books, r) == if r.CreateStep? then AfterCreateStep(books, r) else AfterEditStep(books, r)
  {
    Routed(books, r);
    hide *;
  }

  /** A step is added exactly for a new code that is not a system one, while the column's range lasts;
      it stands last, and is neither paid, terminal nor protected. */
  lemma CreateStepLeaves(books: Books, r: Request)
    requires Sound(books) && r.CreateStep?
    ensures var out := Next(books, r);
            if r.code == Custom("") || r.code == Paid || r.code == Void || TakenCode(books.steps, r.code)
            then out == Outcome(books, Invalid)
            else if r.step in books.steps || |books.steps| >= 3276 then out == Outcome(books, Broken)
            else
              && out.reply == Done && OnlyStep(books, out.books, r.step) && out.books.revision == books.revision + 1
              && out.books.steps[r.step] == Step(r.code, r.title, 10 * (|books.steps| + 1), r.active, r.notify, r.roles,
                                                 false, false, false)
  {
    RoutedStep(books, r);
    CreatedRowIs(books, r);
    CreateStepAnswer(books, r);
    StepWritten(books, r.step, CreatedRow(books, r));
    hide Sound, Injective, CreatedRow, Next, Apply, CreateStepCheck, TakenCode, OnlyStep;
  }

  lemma StepWritten(books: Books, id: Id, row: Step)
    ensures var after := books.(steps := books.steps[id := row], revision := books.revision + 1);
            OnlyStep(books, after, id) && after.steps[id] == row
  {
  }

  lemma CreateStepAnswer(books: Books, r: Request)
    requires Sound(books) && r.CreateStep?
    ensures CreateStepCheck(books, r) ==
              (if r.code == Custom("") || r.code == Paid || r.code == Void || TakenCode(books.steps, r.code) then Invalid
               else if r.step in books.steps || |books.steps| >= 3276 then Broken else Done)
  {
    CreatedRowIs(books, r);
    assert HasCode(books.steps, r.code) <==> TakenCode(books.steps, r.code);
    hide Sound, CreatedRow, HasCode, TakenCode;
  }

  lemma CreatedRowIs(books: Books, r: Request)
    requires Sound(books) && r.CreateStep?
    ensures CreatedRow(books, r) ==
              Step(r.code, r.title, 10 * (|books.steps| + 1), r.active, r.notify, r.roles, false, false, false)
  {
    NextPosition(books.steps);
    hide Sound, MaxPosition, PositionColumn;
  }

  lemma NextPosition(steps: Steps)
    requires WorkflowOk(steps)
    ensures MaxPosition(PositionColumn(steps)) == 10 * |steps|
  {
    MaxIsLast(PositionColumn(steps));
    assert |PositionColumn(steps).Keys| == |steps.Keys|;
  }

  /** A submitted field is written; the others stay. */
  predicate Written<T(==)>(submitted: Option<T>, was: T, now: T) {
    now == if submitted.Some? then submitted.value else was
  }

  /** A step can be edited, except that Paid keeps its title and stays active, and that the last ordinary
      step cannot be deactivated; an edit that changes nothing leaves the revision alone. */
  lemma EditStepLeaves(books: Books, r: Request)
    requires Sound(books) && r.EditStep?
    ensures var out := Next(books, r);
            if r.step !in books.steps then out == Outcome(books, NotFound)
            else
              var was := books.steps[r.step];
              var last := was.active && !was.isPaid && !OtherUnpaid(books.steps, r.step);
              if (was.isPaid && (r.newTitle.Some? || r.newActive.Some?)) || (last && r.newActive == Some(false))
              then out == Outcome(books, Invalid)
              else
                && out.reply == Done && OnlyStep(books, out.books, r.step)
                && (var row := out.books.steps[r.step];
                    && Written(r.newTitle, was.title, row.title) && Written(r.newActive, was.active, row.active)
                    && Written(r.newNotify, was.notify, row.notify) && Written(r.newRoles, was.roles, row.roles)
                    && row.code == was.code && row.position == was.position && row.isPaid == was.isPaid
                    && row.isTerminal == was.isTerminal && row.isProtected == was.isProtected
                    && out.books.revision == books.revision + (if row == was then 0 else 1))
  {
    RoutedStep(books, r);
    EditStepAnswer(books, r);
    if r.step in books.steps {
      EditedFields(books.steps[r.step], r);
      StepWritten(books, r.step, EditedRow(books.steps[r.step], r));
      StepWritten(books, r.step, books.steps[r.step]);
      assert books.steps[r.step := books.steps[r.step]] == books.steps;
    }
    hide Sound, Injective, Next, Apply, OtherUnpaid, EditStepCheck, EditedRow, Written;
  }

  lemma EditedFields(was: Step, r: Request)
    requires r.EditStep?
    ensures var row := EditedRow(was, r);
            && Written(r.newTitle, was.title, row.title) && Written(r.newActive, was.active, row.active)
            && Written(r.newNotify, was.notify, row.notify) && Written(r.newRoles, was.roles, row.roles)
            && row == was.(title := row.title, active := row.active, notify := row.notify, roles := row.roles)
  {
  }

  lemma EditStepAnswer(books: Books, r: Request)
    requires Sound(books) && r.EditStep?
    ensures EditStepCheck(books, r) ==
              if r.step !in books.steps then NotFound
              else
                var was := books.steps[r.step];
                var last := was.active && !was.isPaid && !OtherUnpaid(books.steps, r.step);
                if (was.isPaid && (r.newTitle.Some? || r.newActive.Some?)) || (last && r.newActive == Some(false))
                then Invalid else Done
  {
    FlagsAgree(books.steps);
    assert OtherUnpaid(books.steps, r.step) <==> OtherOrdinary(books.steps, r.step);
    hide Sound, OtherUnpaid, OtherOrdinary;
  }

  lemma FlagsAgree(steps: Steps)
    requires WorkflowOk(steps)
    ensures forall s :: s in steps ==> (steps[s].isPaid <==> steps[s].isTerminal) && (steps[s].isPaid <==> steps[s].isProtected)
  {
  }

  // ---- reordering ----

  /** Each step is listed once, and some active Paid step has no active step after it and no other active
      Paid step before it. */
  ghost predicate Orderly(steps: Steps, ids: seq<Id>) {
    && (forall i, j :: 0 <= i < j < |ids| ==> ids[i] != ids[j])
    && (forall s :: s in steps <==> s in ids)
    && exists k :: 0 <= k < |ids| && PaidEnds(steps, ids, k)
  }

  ghost predicate PaidEnds(steps: Steps, ids: seq<Id>, k: int) {
    && 0 <= k < |ids| && ids[k] in steps && steps[ids[k]].active && steps[ids[k]].isPaid
    && forall i :: 0 <= i < |ids| && i != k && ids[i] in steps && steps[ids[i]].active ==> i < k && !steps[ids[i]].isPaid
  }

  lemma {:induction false} PaidEndsLast(steps: Steps, ids: seq<Id>, k: int)
    requires forall i :: 0 <= i < |ids| ==> ids[i] in steps
    requires PaidEnds(steps, ids, k)
    ensures PaidComesLast(steps, ids)
  {
    var n := |ids| - 1;
    if k == n {
      var before := ActiveInOrder(steps, ids[..n]);
      assert ActiveInOrder(steps, ids) == before + [ids[n]];
      forall i | 0 <= i < |before| ensures !steps[before[i]].isPaid {
        ActiveAreListed(steps, ids[..n], i);
        var j :| 0 <= j < n && ids[..n][j] == before[i];
        assert ids[j] == before[i];
      }
    } else {
      assert !steps[ids[n]].active;
      assert forall i :: 0 <= i < n ==> ids[..n][i] == ids[i];
      assert PaidEnds(steps, ids[..n], k);
      PaidEndsLast(steps, ids[..n], k);
    }
  }

  lemma OrderlyIsAdmitted(steps: Steps, ids: seq<Id>)
    ensures ReorderAdmitted(steps, ids) <==> Orderly(steps, ids)
  {
    if ReorderAdmitted(steps, ids) {
      PaidListedLast(steps, ids);
      var k :| PaidIsAt(steps, ids, k);
      assert PaidEnds(steps, ids, k);
    }
    if Orderly(steps, ids) {
      var k :| 0 <= k < |ids| && PaidEnds(steps, ids, k);
      assert forall i :: 0 <= i < |ids| ==> ids[i] in ids;
      PaidEndsLast(steps, ids, k);
    }
  }

  lemma ReorderIsRouted(books: Books, ids: seq<Id>, scan: seq<Id>)
    requires Sound(books) && Lists(PositionColumn(books.steps), scan)
    ensures var out := Next(books, Reorder(ids, scan));
            if !Orderly(books.steps, ids) then out == Outcome(books, Invalid)
            else Lists(PositionColumn(books.steps), ids)
                 && (if Reordered(books.steps, scan, ids).None? then out == Outcome(books, Broken)
                     else out == Outcome(books.(steps := Reordered(books.steps, scan, ids).value,
                                                revision := books.revision + 1), Done))
  {
    SoundIsUsable(books);
    OrderlyIsAdmitted(books.steps, ids);
    hide WorkflowOk, PaymentsOk, InvoicesOk, Injective, Orderly, Reordered, PaidComesLast, PositionColumn;
    assert Next(books, Reorder(ids, scan)) == AfterReorder(books, ids, scan);
  }

  /** A request that is not orderly is refused; an orderly one is carried out or stopped by a constraint;
      only a reorder that is carried out changes anything. */
  lemma ReorderAnswers(books: Books, ids: seq<Id>, scan: seq<Id>)
    requires Sound(books) && Lists(PositionColumn(books.steps), scan)
    ensures var out := Next(books, Reorder(ids, scan));
            && (out.reply == Invalid <==> !Orderly(books.steps, ids))
            && out.reply in {Invalid, Broken, Done} && (out.reply != Done ==> out.books == books)
  {
    ReorderIsRouted(books, ids, scan);
    hide Sound, Orderly, Reordered, Next, Lists, PositionColumn;
  }

  /** An orderly reorder is carried out in every row order exactly up to a thousand steps. */
  lemma ReorderAccepted(books: Books, ids: seq<Id>)
    requires Sound(books) && Orderly(books.steps, ids)
    ensures (forall scan :: Lists(PositionColumn(books.steps), scan) ==> Next(books, Reorder(ids, scan)).reply == Done)
            <==> |books.steps| <= 1000
  {
    SoundIsUsable(books);
    OrderlyIsAdmitted(books.steps, ids);
    ThousandStepLimit(books.steps, ids);
    forall scan | Lists(PositionColumn(books.steps), scan)
      ensures Next(books, Reorder(ids, scan)).reply == Done <==> Reordered(books.steps, scan, ids).Some?
    {
      ReorderIsRouted(books, ids, scan);
      hide Next, Reordered, Orderly, Lists, Sound, ReorderAdmitted, PositionColumn;
    }
    hide Next, Reordered, Orderly, Lists, Sound, ReorderAdmitted, PositionColumn;
  }

  predicate PaidAndOther(steps: Steps, p: Id, a: Id)
    requires p in steps && a in steps
  {
    steps[p].isPaid && steps[a].active && a != p
  }

  /** What a reorder leaves in the books: the k-th listed step at 10(k+1), every other column and table as
      before, and Paid after every other active step. */
  lemma ReorderLeaves(books: Books, ids: seq<Id>, scan: seq<Id>)
    requires Sound(books) && Lists(PositionColumn(books.steps), scan)
    requires Next(books, Reorder(ids, scan)).reply == Done
    ensures var after := Next(books, Reorder(ids, scan)).books;
            && after.invoices == books.invoices && after.payments == books.payments
            && after.revision == books.revision + 1 && after.steps.Keys == books.steps.Keys
            && (forall k :: 0 <= k < |ids| ==> ids[k] in after.steps && after.steps[ids[k]].position == 10 * (k + 1))
            && (forall s :: s in books.steps ==> after.steps[s] == books.steps[s].(position := after.steps[s].position))
            && (forall p, a :: p in after.steps && a in after.steps && PaidAndOther(after.steps, p, a) ==>
                  after.steps[a].position < after.steps[p].position)
  {
    ReorderIsRouted(books, ids, scan);
    OrderlyIsAdmitted(books.steps, ids);
    var after := Next(books, Reorder(ids, scan)).books;
    ReorderingKeepsWorkflow(books.steps, scan, ids, after.steps);
    hide WorkflowOk, PaymentsOk, InvoicesOk, Reordered, PaidComesLast, Next, Orderly, PositionColumn;
    forall p, a | p in after.steps && a in after.steps && PaidAndOther(after.steps, p, a)
      ensures after.steps[a].position < after.steps[p].position
    {
      PaidFlags(books.steps);
      PaidStandsLast(books.steps, scan, ids, after.steps, p, a);
    }
  }

  lemma PaidFlags(steps: Steps)
    requires WorkflowOk(steps)
    ensures PaidIsSystemOwned(steps)
  {
  }
}
