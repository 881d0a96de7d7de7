/** Invoices, payments and the status log of one organization, as values: the state every endpoint
    of the billing API reads and the state it leaves. Amounts are in cents. */
module Billing {
  import opened Wrappers
  import opened Reordering
  import opened Workflow

  datatype Status = Unpaid | FullyPaid | Voided

  datatype Source = OnCreation | OnManualMove | OnPayment | OnReversal

  /** One row of the append-only status log; no step stands for void. */
  datatype Event = Event(fromStep: Option<Id>, toStep: Option<Id>, source: Source)

  datatype Invoice = Invoice(dues: nat, status: Status, current: Option<Id>, log: seq<Event>)

  datatype Payment = Payment(id: Id, invoice: Id, amount: nat, reference: string, key: string,
                             reversed: bool)

  datatype Books = Books(steps: Steps, invoices: map<Id, Invoice>, payments: seq<Payment>,
                         revision: nat)

  /** How a request is answered. `Broken` is an unhandled error: the transaction rolls back. */
  datatype Reply = Done | Replayed | NotFound | Conflict | Invalid | Broken

  function OrElse<T>(o: Option<T>, d: T): T { if o.Some? then o.value else d }

  // ---- sums and lookups ----

  /** The unreversed payments of an invoice, summed. */
  function LivePaid(payments: seq<Payment>, invoice: Id): nat {
    if payments == [] then 0
    else
      var p := payments[|payments| - 1];
      LivePaid(payments[..|payments| - 1], invoice)
      + (if p.invoice == invoice && !p.reversed then p.amount else 0)
  }

  predicate PaymentKeyed(p: Payment, invoice: Id, key: string) {
    p.invoice == invoice && p.key == key
  }

  predicate KeyUsed(payments: seq<Payment>, invoice: Id, key: string) {
    exists i :: 0 <= i < |payments| && PaymentKeyed(payments[i], invoice, key)
  }

  predicate ReferenceUsed(payments: seq<Payment>, invoice: Id, reference: string) {
    exists i :: 0 <= i < |payments| && payments[i].invoice == invoice && payments[i].reference == reference
  }

  predicate PaymentIdUsed(payments: seq<Payment>, id: Id) {
    exists i :: 0 <= i < |payments| && payments[i].id == id
  }

  function PaymentIndex(payments: seq<Payment>, id: Id): (r: Option<nat>)
    ensures r.Some? ==> r.value < |payments| && payments[r.value].id == id
    ensures r.Some? <==> PaymentIdUsed(payments, id)
  {
    if payments == [] then None
    else
      var n := |payments| - 1;
      if payments[n].id == id then Some(n)
      else
        var r := PaymentIndex(payments[..n], id);
        assert r.None? ==> forall i :: 0 <= i < n ==> payments[..n][i] == payments[i] && payments[i].id != id;
        r
  }

  // ---- the workflow engine ----

  predicate OnPaidStep(steps: Steps, current: Option<Id>) {
    current.Some? && current.value in steps && steps[current.value].isPaid
  }

  predicate OrdinaryStep(steps: Steps, step: Option<Id>) {
    step.Some? && step.value in steps && Ordinary(steps[step.value])
  }

  /** What a transition does to an invoice: an error, nothing, or a move with its log row. */
  datatype Move = Rejected | Stays | Moves(invoice: Invoice)

  function StatusOn(steps: Steps, step: Option<Id>): Status {
    if step.None? then Voided else if OnPaidStep(steps, step) then FullyPaid else Unpaid
  }

  function Moved(steps: Steps, invoice: Invoice, step: Option<Id>, source: Source): Invoice {
    invoice.(current := step, status := StatusOn(steps, step),
             log := invoice.log + [Event(invoice.current, step, source)])
  }

  /** `transition_invoice`. */
  function Transition(steps: Steps, invoice: Invoice, step: Option<Id>, source: Source): Move
    requires step.Some? ==> step.value in steps
  {
    if step.Some? && source == OnManualMove && !steps[step.value].active then Rejected
    else if invoice.current == step && invoice.status != Voided then Stays
    else Moves(Moved(steps, invoice, step, source))
  }

  /** The step of the latest log row that an unpaid invoice can still be put back on. */
  function LatestRestorable(steps: Steps, log: seq<Event>): (r: Option<Id>)
    ensures r.Some? ==> OrdinaryStep(steps, r)
  {
    if log == [] then None
    else
      var last := log[|log| - 1];
      if OrdinaryStep(steps, last.toStep) then last.toStep
      else LatestRestorable(steps, log[..|log| - 1])
  }

  /** `reconcile_payment_status`. */
  function Reconcile(steps: Steps, invoice: Invoice, paid: nat, source: Source): Move
    requires Injective(PositionColumn(steps))
  {
    if invoice.status == Voided then Stays
    else if paid >= invoice.dues then
      var step := PaidStep(steps);
      if step.None? then Rejected else Transition(steps, invoice, step, source)
    else if invoice.current.Some? && !OnPaidStep(steps, invoice.current) then Stays
    else
      var candidate := LatestRestorable(steps, invoice.log);
      var step := if candidate.Some? then candidate else ActiveDefaultStep(steps);
      if step.None? then Rejected else Transition(steps, invoice, step, source)
  }

  // ---- requests ----

  datatype Request =
    | Issue(invoice: Id, dues: nat)
    | Pay(invoice: Id, amount: Option<nat>, payment: Id, reference: string, keyHeader: string)
    | Reverse(payment: Id)
    | MoveTo(invoice: Id, step: Id)
    | VoidInvoice(invoice: Id)
    | CreateStep(step: Id, code: Code, title: string, active: bool, notify: bool, roles: seq<Role>)
    | EditStep(step: Id, newTitle: Option<string>, newActive: Option<bool>, newNotify: Option<bool>,
               newRoles: Option<seq<Role>>)
    | Reorder(ids: seq<Id>, scan: seq<Id>)

  datatype Outcome = Outcome(books: Books, reply: Reply)

  /** The header is cut to the column's width; the empty key stands for no key. */
  function KeyOf(header: string): string {
    if |header| <= 128 then header else header[..128]
  }

  /** The invoice half of `finalize_inspection`: a new invoice on the first ordinary step. */
  function AfterIssue(books: Books, id: Id, dues: nat): Outcome
    requires Injective(PositionColumn(books.steps))
  {
    var step := ActiveDefaultStep(books.steps);
    if id in books.invoices || step.None? then Outcome(books, Broken)
    else
      var invoice := Invoice(dues, Unpaid, step, [Event(None, step, OnCreation)]);
      Outcome(books.(invoices := books.invoices[id := invoice], revision := books.revision + 1), Done)
  }

  /** Write a reconciliation's result back; an error rolls back to `before`. */
  function Settle(before: Books, books: Books, id: Id, move: Move): Outcome {
    match move
    case Rejected => Outcome(before, Broken)
    case Stays => Outcome(books.(revision := books.revision + 1), Done)
    case Moves(invoice) =>
      Outcome(books.(invoices := books.invoices[id := invoice], revision := books.revision + 1), Done)
  }

  function Balance(books: Books, id: Id): nat
    requires id in books.invoices
  {
    var dues, paid := books.invoices[id].dues, LivePaid(books.payments, id);
    if paid <= dues then dues - paid else 0
  }

  /** The payment a request would insert; without an amount it settles the balance. */
  function NewPayment(books: Books, r: Request): Payment
    requires r.Pay? && r.invoice in books.invoices
  {
    Payment(r.payment, r.invoice, OrElse(r.amount, Balance(books, r.invoice)), r.reference,
            KeyOf(r.keyHeader), false)
  }

  /** The checks of `PaymentCreateView.post` in their order; `Done` lets the payment in. */
  function PayCheck(books: Books, r: Request): Reply
    requires r.Pay?
  {
    var key := KeyOf(r.keyHeader);
    if r.amount == Some(0) then Invalid
    else if r.invoice !in books.invoices then NotFound
    else if books.invoices[r.invoice].status == Voided then Conflict
    else if key != "" && KeyUsed(books.payments, r.invoice, key) then Replayed
    else if books.invoices[r.invoice].status == FullyPaid || Balance(books, r.invoice) == 0 then Conflict
    else if NewPayment(books, r).amount > Balance(books, r.invoice) then Invalid
    else if PaymentIdUsed(books.payments, r.payment) then Broken
    else if ReferenceUsed(books.payments, r.invoice, r.reference) then Broken
    else Done
  }

  /** `PaymentCreateView.post`. */
  function AfterPay(books: Books, r: Request): Outcome
    requires r.Pay? && Injective(PositionColumn(books.steps))
  {
    var check := PayCheck(books, r);
    if check != Done then Outcome(books, check)
    else
      var payments := books.payments + [NewPayment(books, r)];
      var move := Reconcile(books.steps, books.invoices[r.invoice], LivePaid(payments, r.invoice), OnPayment);
      Settle(books, books.(payments := payments), r.invoice, move)
  }

  /** `PaymentReverseView.post`. */
  function AfterReverse(books: Books, payment: Id): Outcome
    requires Injective(PositionColumn(books.steps))
  {
    var at := PaymentIndex(books.payments, payment);
    if at.None? then Outcome(books, NotFound)
    else if books.payments[at.value].reversed then Outcome(books, Replayed)
    else
      var p := books.payments[at.value];
      if p.invoice !in books.invoices then Outcome(books, Broken)
      else
        var payments := books.payments[at.value := p.(reversed := true)];
        var move := Reconcile(books.steps, books.invoices[p.invoice], LivePaid(payments, p.invoice), OnReversal);
        Settle(books, books.(payments := payments), p.invoice, move)
  }

  function MoveCheck(books: Books, id: Id, step: Id): Reply {
    if id !in books.invoices then NotFound
    else if books.invoices[id].status == Voided then Conflict
    else if books.invoices[id].status == FullyPaid || OnPaidStep(books.steps, books.invoices[id].current)
    then Conflict
    else if step !in books.steps || !books.steps[step].active then Invalid
    else if books.steps[step].isPaid then Invalid
    else Done
  }

  /** `InvoiceTransitionView.patch`; choosing the current step again bumps nothing. */
  function AfterMove(books: Books, id: Id, step: Id): Outcome {
    var check := MoveCheck(books, id, step);
    if check != Done then Outcome(books, check)
    else
      match Transition(books.steps, books.invoices[id], Some(step), OnManualMove)
      case Rejected => Outcome(books, Broken)
      case Stays => Outcome(books, Done)
      case Moves(moved) =>
        Outcome(books.(invoices := books.invoices[id := moved], revision := books.revision + 1), Done)
  }

  /** `transition_invoice` with no step, the service's way to void; no endpoint offers it. */
  function AfterVoid(books: Books, id: Id): Outcome {
    if id !in books.invoices then Outcome(books, NotFound)
    else
      match Transition(books.steps, books.invoices[id], None, OnManualMove)
      case Rejected => Outcome(books, Broken)
      case Stays => Outcome(books, Done)
      case Moves(moved) => Outcome(books.(invoices := books.invoices[id := moved]), Done)
  }

  /** The row `InvoiceStatusStepsView.post` would insert. */
  function CreatedRow(books: Books, r: Request): Step
    requires r.CreateStep?
  {
    NewStep(books.steps, r.code, r.title, r.active, r.notify, r.roles)
  }

  function CreateStepCheck(books: Books, r: Request): Reply
    requires r.CreateStep?
  {
    if r.code == Custom("") || r.code == Paid || r.code == Void then Invalid
    else if HasCode(books.steps, r.code) then Invalid
    else if r.step in books.steps || CreatedRow(books, r).position > MAX_POSITION then Broken
    else Done
  }

  /** `InvoiceStatusStepsView.post` on a provisioned organization. */
  function AfterCreateStep(books: Books, r: Request): Outcome
    requires r.CreateStep?
  {
    var check := CreateStepCheck(books, r);
    if check != Done then Outcome(books, check)
    else Outcome(books.(steps := books.steps[r.step := CreatedRow(books, r)], revision := books.revision + 1), Done)
  }

  function EditedRow(row: Step, r: Request): Step
    requires r.EditStep?
  {
    row.(title := OrElse(r.newTitle, row.title), active := OrElse(r.newActive, row.active),
         notify := OrElse(r.newNotify, row.notify), roles := OrElse(r.newRoles, row.roles))
  }

  predicate OtherOrdinary(steps: Steps, id: Id) {
    exists other :: other in steps && other != id && Ordinary(steps[other])
  }

  function EditStepCheck(books: Books, r: Request): Reply
    requires r.EditStep?
  {
    if r.step !in books.steps then NotFound
    else
      var row := books.steps[r.step];
      if row.isProtected && (r.newTitle.Some? || r.newActive.Some?) then Invalid
      else if row.active && r.newActive == Some(false) && !row.isPaid && !row.isTerminal
           && !OtherOrdinary(books.steps, r.step) then Invalid
      else Done
  }

  /** `InvoiceStatusStepDetailView.patch`; a patch that changes nothing bumps nothing. */
  function AfterEditStep(books: Books, r: Request): Outcome
    requires r.EditStep?
  {
    var check := EditStepCheck(books, r);
    if check != Done then Outcome(books, check)
    else
      var edited := EditedRow(books.steps[r.step], r);
      if edited == books.steps[r.step] then Outcome(books, Done)
      else Outcome(books.(steps := books.steps[r.step := edited], revision := books.revision + 1), Done)
  }

  /** Every step is listed once, and Paid is the last of the active ones. */
  ghost predicate ReorderAdmitted(steps: Steps, ids: seq<Id>) {
    Lists(PositionColumn(steps), ids) && PaidComesLast(steps, ids)
  }

  /** `InvoiceStatusStepReorderView.post`; `scan` is the row order of the bulk update. */
  ghost function AfterReorder(books: Books, ids: seq<Id>, scan: seq<Id>): Outcome
    requires Lists(PositionColumn(books.steps), scan)
  {
    if !ReorderAdmitted(books.steps, ids) then Outcome(books, Invalid)
    else
      match Reordered(books.steps, scan, ids)
      case None => Outcome(books, Broken)
      case Some(steps) => Outcome(books.(steps := steps, revision := books.revision + 1), Done)
  }

  /** A reorder's scan is the database's, so it covers the table; every other request is free. */
  ghost predicate Admissible(books: Books, r: Request) {
    r.Reorder? ==> Lists(PositionColumn(books.steps), r.scan)
  }

  /** One request as one atomic step. */
  ghost function Apply(books: Books, r: Request): Outcome
    requires Injective(PositionColumn(books.steps)) && Admissible(books, r)
  {
    match r
    case Issue(id, dues) => AfterIssue(books, id, dues)
    case Pay(_, _, _, _, _) => AfterPay(books, r)
    case Reverse(payment) => AfterReverse(books, payment)
    case MoveTo(id, step) => AfterMove(books, id, step)
    case VoidInvoice(id) => AfterVoid(books, id)
    case CreateStep(_, _, _, _, _, _) => AfterCreateStep(books, r)
    case EditStep(_, _, _, _, _) => AfterEditStep(books, r)
    case Reorder(ids, scan) => AfterReorder(books, ids, scan)
  }

  // ---- the invariant ----

  /** The log starts from nothing and each row leaves from where the previous one arrived. */
  ghost predicate Chain(log: seq<Event>, current: Option<Id>) {
    && log != []
    && log[0].fromStep == None
    && (forall i :: 0 <= i < |log| - 1 ==> log[i + 1].fromStep == log[i].toStep)
    && log[|log| - 1].toStep == current
  }

  ghost predicate InvoiceOk(steps: Steps, invoice: Invoice, paid: nat) {
    && (invoice.current.Some? ==> invoice.current.value in steps)
    && (invoice.status == Voided <==> invoice.current == None)
    && (invoice.status == FullyPaid <==> OnPaidStep(steps, invoice.current))
    && paid <= invoice.dues
    && (invoice.status == FullyPaid ==> paid == invoice.dues && invoice.dues > 0)
    && (invoice.status == Unpaid ==> paid < invoice.dues || invoice.dues == 0)
    && Chain(invoice.log, invoice.current)
  }

  ghost predicate PaymentsOk(books: Books) {
    && (forall i :: 0 <= i < |books.payments| ==>
          books.payments[i].amount > 0 && books.payments[i].invoice in books.invoices)
    && (forall i, j :: 0 <= i < j < |books.payments| ==> books.payments[i].id != books.payments[j].id)
    && (forall i, j :: 0 <= i < j < |books.payments| && books.payments[i].invoice == books.payments[j].invoice ==>
          && books.payments[i].reference != books.payments[j].reference
          && (books.payments[i].key == books.payments[j].key ==> books.payments[i].key == ""))
  }

  ghost predicate InvoicesOk(books: Books) {
    forall id :: id in books.invoices ==>
      InvoiceOk(books.steps, books.invoices[id], LivePaid(books.payments, id))
  }

  ghost predicate Sound(books: Books) {
    && WorkflowOk(books.steps)
    && PaymentsOk(books)
    && InvoicesOk(books)
  }
}
