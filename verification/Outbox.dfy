/** The durable email outbox: rows, the worker's delivery transaction and a provider that deduplicates
    by key, under any interleaving of duplicate tasks, crashes, lost answers and lifecycle changes. */
module Outbox {
  import opened Wrappers
  import opened Runs

  type Id = string

  datatype Access = PendingApproval | Active | Suspended

  datatype Status = Pending | Sending | Sent | Failed

  datatype Head = Head(to: string, subject: string, template: string)

  /** What a row stores of the message: sealed, in the clear (older rows), or wiped after delivery. */
  datatype Context = Sealed(text: string) | Clear(text: string) | Redacted

  datatype Row = Row(key: string, org: Option<Id>, allowSuspended: bool, allowPending: bool,
                     head: Head, context: Context, status: Status, attempts: nat,
                     providerId: string, lastError: string, updated: nat)

  /** An email as the recipient gets it. */
  datatype Mail = Mail(key: string, head: Head, text: string)

  /** One request to the provider, with the organization's access and the row at that moment. */
  datatype Call = Call(access: Access, row: Row)

  /** The table in `(created_at, id)` order, the organizations' access, and what the outside has seen:
      every provider call, every email produced, and each key's message as it was first queued. */
  datatype World = World(rows: map<Id, Row>, order: seq<Id>, access: map<Id, Access>,
                         calls: seq<Call>, mails: seq<Mail>, queued: map<string, Mail>)

  /** How one delivery attempt ends. A crash rolls the transaction back. */
  datatype Fate =
    | NotReached(error: string)   // undecryptable context, no configuration, no connection
    | Accepted(providerId: string)
    | Refused(error: string)
    | LostAnswer(error: string)   // accepted, but the worker sees an exception
    | CrashBefore
    | CrashAfter(accepted: bool)

  datatype Act =
    | Queue(id: Id, org: Option<Id>, mail: Mail, allowSuspended: bool, allowPending: bool, now: nat)
    | Deliver(id: Id, fate: Fate, now: nat)
    | SetAccess(whose: Id, access: Access)

  const MAX_ATTEMPTS: nat := 32_767
  const BATCH: nat := 100
  const STALE_AFTER: nat := 600

  predicate Permitted(access: Access, row: Row) {
    || access == Active
    || (access == PendingApproval && row.allowPending && row.head.template == "verify_email")
    || (access == Suspended && row.allowSuspended)
  }

  function TextOf(context: Context): string {
    if context.Redacted? then "" else context.text
  }

  predicate Known(mails: seq<Mail>, key: string) {
    exists i :: 0 <= i < |mails| && mails[i].key == key
  }

  predicate KeyTaken(rows: map<Id, Row>, key: string) {
    exists id :: id in rows && rows[id].key == key
  }

  function Cut(s: string, n: nat): string { if |s| <= n then s else s[..n] }

  // ---- the operations ----

  /** The arguments `queue_email` accepts; anything else is a ValueError. */
  predicate Acceptable(w: World, a: Act)
    requires a.Queue?
  {
    && a.org.Some? && a.org.value in w.access
    && (a.allowPending ==> a.mail.head.template == "verify_email")
    && !(a.allowPending && a.allowSuspended)
  }

  /** The database takes the new row: its key fits the column and its primary key is new. */
  predicate Storable(w: World, a: Act)
    requires a.Queue?
  {
    a.id !in w.rows && |a.mail.key| <= 128
  }

  function NewRow(a: Act): Row
    requires a.Queue?
  {
    Row(a.mail.key, a.org, a.allowSuspended, a.allowPending, a.mail.head, Sealed(a.mail.text),
        Pending, 0, "", "", a.now)
  }

  /** `queue_email`: get or create by key; a used key keeps the row it has. */
  function AfterQueue(w: World, a: Act): World
    requires a.Queue?
  {
    if !Acceptable(w, a) || KeyTaken(w.rows, a.mail.key) || !Storable(w, a) then w
    else w.(rows := w.rows[a.id := NewRow(a)], order := w.order + [a.id],
            queued := w.queued[a.mail.key := a.mail])
  }

  function FailedRow(row: Row, error: string, now: nat): Row {
    row.(status := Failed, lastError := error, updated := now)
  }

  function SendingRow(row: Row, now: nat): Row {
    row.(status := Sending, attempts := row.attempts + 1, updated := now)
  }

  function SentRow(row: Row, providerId: string, now: nat): Row {
    row.(status := Sent, providerId := providerId, lastError := "", context := Redacted, updated := now)
  }

  /** The attempt's request got to the provider. */
  predicate Reaches(fate: Fate) {
    fate.Accepted? || fate.Refused? || fate.LostAnswer? || fate.CrashAfter?
  }

  /** The provider took the message in, whatever the worker learnt of it. */
  predicate TakenIn(fate: Fate) {
    fate.Accepted? || fate.LostAnswer? || fate == CrashAfter(true)
  }

  /** The provider accepts each key once. */
  function MailsAfter(mails: seq<Mail>, row: Row, fate: Fate): seq<Mail> {
    if TakenIn(fate) && !Known(mails, row.key) then mails + [Mail(row.key, row.head, TextOf(row.context))]
    else mails
  }

  /** The row an attempt commits; a crash commits nothing. */
  function RowAfter(row: Row, fate: Fate, now: nat): Row {
    match fate
    case NotReached(error) => FailedRow(SendingRow(row, now), Cut(error, 2000), now)
    case Accepted(providerId) => SentRow(SendingRow(row, now), providerId, now)
    case Refused(error) => FailedRow(SendingRow(row, now), Cut(error, 2000), now)
    case LostAnswer(error) => FailedRow(SendingRow(row, now), Cut(error, 2000), now)
    case CrashBefore => row
    case CrashAfter(_) => row
  }

  /** The attempt itself. */
  function AfterAttempt(w: World, id: Id, access: Access, fate: Fate, now: nat): World
    requires id in w.rows
  {
    w.(rows := w.rows[id := RowAfter(w.rows[id], fate, now)],
       calls := if Reaches(fate) then w.calls + [Call(access, w.rows[id])] else w.calls,
       mails := MailsAfter(w.mails, w.rows[id], fate))
  }

  const NO_SCOPE := "Delivery suppressed because organization scope is missing"
  const NOT_ACTIVE := "Delivery suppressed because organization access is not active"

  datatype Gate = Ignored | Suppressed(error: string) | Open(access: Access)

  /** The checks of `deliver_outbox_email` before the attempt, in their order. `Ignored` leaves the row
      alone: it is sent, already failed without scope, or an unhandled error rolls back. */
  function GateOf(w: World, id: Id): Gate {
    if id !in w.rows || w.rows[id].status == Sent then Ignored
    else if w.rows[id].org.None? then
      if w.rows[id].status == Failed then Ignored else Suppressed(NO_SCOPE)
    else if w.rows[id].org.value !in w.access then Ignored
    else if !Permitted(w.access[w.rows[id].org.value], w.rows[id]) then Suppressed(NOT_ACTIVE)
    else if w.rows[id].attempts >= MAX_ATTEMPTS then Ignored
    else Open(w.access[w.rows[id].org.value])
  }

  function AfterSuppress(w: World, id: Id, error: string, now: nat): World
    requires id in w.rows
  {
    w.(rows := w.rows[id := FailedRow(w.rows[id], error, now)])
  }

  /** `deliver_outbox_email`, one run of the worker job. */
  function AfterDeliver(w: World, id: Id, fate: Fate, now: nat): World {
    match GateOf(w, id)
    case Ignored => w
    case Suppressed(error) => AfterSuppress(w, id, error, now)
    case Open(access) => AfterAttempt(w, id, access, fate, now)
  }

  function Next(w: World, a: Act): World {
    match a
    case Queue(_, _, _, _, _, _) => AfterQueue(w, a)
    case Deliver(id, fate, now) => AfterDeliver(w, id, fate, now)
    case SetAccess(org, access) => w.(access := w.access[org := access])
  }

  // ---- the invariant ----

  predicate RowOk(row: Row, access: map<Id, Access>, mails: seq<Mail>, queued: map<string, Mail>) {
    && row.status != Sending
    && (row.status == Sent <==> row.context.Redacted?)
    && (row.status == Sent ==> Known(mails, row.key))
    && (row.status == Pending ==> row.attempts == 0)
    && (row.org.Some? ==> row.org.value in access)
    && row.key in queued && queued[row.key].key == row.key && queued[row.key].head == row.head
    && (!row.context.Redacted? ==> queued[row.key].text == TextOf(row.context))
  }

  ghost predicate RowsOk(rows: map<Id, Row>, access: map<Id, Access>, mails: seq<Mail>, queued: map<string, Mail>) {
    forall id :: id in rows ==> RowOk(rows[id], access, mails, queued)
  }

  ghost predicate UniqueKeys(rows: map<Id, Row>) {
    forall a, b :: a in rows && b in rows && a != b ==> rows[a].key != rows[b].key
  }

  /** One email per key, and it is the message first queued under that key. */
  ghost predicate MailsOk(mails: seq<Mail>, queued: map<string, Mail>) {
    && (forall i :: 0 <= i < |mails| ==> mails[i].key in queued && mails[i] == queued[mails[i].key])
    && (forall i, j :: 0 <= i < j < |mails| ==> mails[i].key != mails[j].key)
  }

  ghost predicate TableOk(rows: map<Id, Row>, order: seq<Id>) {
    && Distinct(order)
    && (forall id :: id in rows <==> id in order)
  }

  ghost predicate KeysHaveRows(rows: map<Id, Row>, queued: map<string, Mail>) {
    forall key :: key in queued ==> KeyTaken(rows, key)
  }

  ghost predicate Ok(w: World) {
    && RowsOk(w.rows, w.access, w.mails, w.queued)
    && UniqueKeys(w.rows)
    && MailsOk(w.mails, w.queued)
    && TableOk(w.rows, w.order)
    && KeysHaveRows(w.rows, w.queued)
  }

  // ---- every step keeps it ----

  lemma InsertKeepsRows(w: World, a: Act)
    requires RowsOk(w.rows, w.access, w.mails, w.queued) && MailsOk(w.mails, w.queued)
    requires a.Queue? && Acceptable(w, a) && Storable(w, a)
    requires !KeyTaken(w.rows, a.mail.key) && a.mail.key !in w.queued
    ensures var after := AfterQueue(w, a);
            RowsOk(after.rows, after.access, after.mails, after.queued) && MailsOk(after.mails, after.queued)
  {
  }

  lemma InsertKeepsKeys(rows: map<Id, Row>, id: Id, row: Row, order: seq<Id>, queued: map<string, Mail>, mail: Mail)
    requires TableOk(rows, order) && KeysHaveRows(rows, queued) && id !in rows
    ensures TableOk(rows[id := row], order + [id])
    ensures KeysHaveRows(rows[id := row], queued[row.key := mail])
  {
    var after := rows[id := row];
    forall key | key in queued[row.key := mail] ensures KeyTaken(after, key) {
      if key == row.key {
        assert after[id].key == key;
      } else {
        assert KeyTaken(rows, key);
        var other :| other in rows && rows[other].key == key;
        assert after[other].key == key;
      }
    }
    assert (order + [id])[|order|] == id;
    forall other | other in after ensures other in order + [id] { }
  }

  lemma QueueKeepsOk(w: World, a: Act)
    requires Ok(w) && a.Queue?
    ensures Ok(AfterQueue(w, a))
  {
    if Acceptable(w, a) && Storable(w, a) && !KeyTaken(w.rows, a.mail.key) {
      InsertKeepsRows(w, a);
      InsertKeepsKeys(w.rows, a.id, NewRow(a), w.order, w.queued, a.mail);
    }
  }

  lemma AttemptKeepsMails(mails: seq<Mail>, queued: map<string, Mail>, row: Row, fate: Fate)
    requires MailsOk(mails, queued)
    requires row.key in queued && queued[row.key] == Mail(row.key, row.head, TextOf(row.context))
    ensures MailsOk(MailsAfter(mails, row, fate), queued)
    ensures forall key :: Known(mails, key) ==> Known(MailsAfter(mails, row, fate), key)
    ensures TakenIn(fate) ==> Known(MailsAfter(mails, row, fate), row.key)
  {
    var after := MailsAfter(mails, row, fate);
    forall key | Known(mails, key) ensures Known(after, key) {
      var i :| 0 <= i < |mails| && mails[i].key == key;
      assert after[i].key == key;
    }
    if TakenIn(fate) && !Known(mails, row.key) {
      assert after[|mails|].key == row.key;
    }
  }

  /** Rewriting one row without touching its key keeps the table's keys. */
  lemma RewriteKeepsKeys(rows: map<Id, Row>, id: Id, row: Row, order: seq<Id>, queued: map<string, Mail>)
    requires UniqueKeys(rows) && TableOk(rows, order) && KeysHaveRows(rows, queued)
    requires id in rows && row.key == rows[id].key
    ensures UniqueKeys(rows[id := row]) && TableOk(rows[id := row], order)
    ensures KeysHaveRows(rows[id := row], queued)
  {
  }

  lemma RewriteKeepsRows(rows: map<Id, Row>, id: Id, row: Row, access: map<Id, Access>,
                         mails: seq<Mail>, more: seq<Mail>, queued: map<string, Mail>)
    requires RowsOk(rows, access, mails, queued) && RowOk(row, access, more, queued)
    requires forall key :: Known(mails, key) ==> Known(more, key)
    ensures RowsOk(rows[id := row], access, more, queued)
  {
  }

  lemma AttemptKeepsRow(row: Row, access: map<Id, Access>, mails: seq<Mail>, queued: map<string, Mail>,
                        fate: Fate, now: nat)
    requires RowOk(row, access, mails, queued) && MailsOk(mails, queued) && row.status != Sent
    ensures RowOk(RowAfter(row, fate, now), access, MailsAfter(mails, row, fate), queued)
    ensures MailsOk(MailsAfter(mails, row, fate), queued)
    ensures forall key :: Known(mails, key) ==> Known(MailsAfter(mails, row, fate), key)
  {
    AttemptKeepsMails(mails, queued, row, fate);
  }

  lemma AttemptKeepsOk(w: World, id: Id, access: Access, fate: Fate, now: nat)
    requires Ok(w) && id in w.rows && w.rows[id].status != Sent
    ensures Ok(AfterAttempt(w, id, access, fate, now))
  {
    var row := RowAfter(w.rows[id], fate, now);
    AttemptKeepsRow(w.rows[id], w.access, w.mails, w.queued, fate, now);
    RewriteKeepsRows(w.rows, id, row, w.access, w.mails, MailsAfter(w.mails, w.rows[id], fate), w.queued);
    RewriteKeepsKeys(w.rows, id, row, w.order, w.queued);
  }

  lemma SuppressKeepsOk(w: World, id: Id, error: string, now: nat)
    requires Ok(w) && id in w.rows && w.rows[id].status != Sent
    ensures Ok(AfterSuppress(w, id, error, now))
  {
    var row := FailedRow(w.rows[id], error, now);
    assert RowOk(w.rows[id], w.access, w.mails, w.queued);
    RewriteKeepsRows(w.rows, id, row, w.access, w.mails, w.mails, w.queued);
    RewriteKeepsKeys(w.rows, id, row, w.order, w.queued);
  }

  lemma DeliverKeepsOk(w: World, id: Id, fate: Fate, now: nat)
    requires Ok(w)
    ensures Ok(AfterDeliver(w, id, fate, now))
  {
    hide Ok, AfterSuppress, AfterAttempt;
    match GateOf(w, id)
    case Ignored =>
    case Suppressed(error) => SuppressKeepsOk(w, id, error, now);
    case Open(access) => AttemptKeepsOk(w, id, access, fate, now);
  }

  lemma AccessKeepsOk(w: World, org: Id, access: Access)
    requires Ok(w)
    ensures Ok(w.(access := w.access[org := access]))
  {
  }

  lemma NextKeepsOk(w: World, a: Act)
    requires Ok(w)
    ensures Ok(Next(w, a))
  {
    match a
    case Queue(_, _, _, _, _, _) => QueueKeepsOk(w, a);
    case Deliver(id, fate, now) => DeliverKeepsOk(w, id, fate, now);
    case SetAccess(org, access) => AccessKeepsOk(w, org, access);
  }

  ghost function Step(): (World, Act) -> World {
    (w, a) => Next(w, a)
  }

  ghost function Run(w: World, acts: seq<Act>): World {
    Fold(Step(), w, acts)
  }

  lemma {:induction false} RunKeepsOk(w: World, acts: seq<Act>)
    requires Ok(w)
    ensures Ok(Run(w, acts))
  {
    if acts != [] {
      var n := |acts| - 1;
      RunKeepsOk(w, acts[..n]);
      NextKeepsOk(Run(w, acts[..n]), acts[n]);
    }
  }

  /** In every run a row's key has produced at most one email, which carries exactly the message that
      was first queued; a sent row has produced one and kept nothing of the message; and no
      transaction ever commits a row as sending. */
  lemma EachRowAtMostOneMail(w: World, acts: seq<Act>, id: Id)
    requires Ok(w) && id in Run(w, acts).rows
    ensures var now := Run(w, acts);
            var row := now.rows[id];
            && (forall i, j :: 0 <= i < j < |now.mails| ==> now.mails[i].key != row.key || now.mails[j].key != row.key)
            && row.key in now.queued
            && (forall i :: 0 <= i < |now.mails| && now.mails[i].key == row.key ==>
                  now.mails[i] == now.queued[row.key])
            && (row.status == Sent ==> Known(now.mails, row.key) && row.context == Redacted)
            && row.status != Sending
            && (forall other :: other in now.rows && now.rows[other].key == row.key ==> other == id)
  {
    RunKeepsOk(w, acts);
  }

  // ---- history ----

  /** Nothing sent is undone: what a row is addressed to never changes, a sent row never changes at
      all, a row never becomes pending again, and emails, calls and first messages stay. */
  ghost predicate Extends(a: World, b: World) {
    && a.order <= b.order && a.calls <= b.calls && a.mails <= b.mails
    && a.rows.Keys <= b.rows.Keys
    && (forall id :: id in a.rows ==>
          && b.rows[id].key == a.rows[id].key
          && b.rows[id].org == a.rows[id].org && b.rows[id].head == a.rows[id].head
          && b.rows[id].allowSuspended == a.rows[id].allowSuspended
          && b.rows[id].allowPending == a.rows[id].allowPending
          && (a.rows[id].status == Sent ==> b.rows[id] == a.rows[id])
          && (a.rows[id].status != Pending ==> b.rows[id].status != Pending))
    && (forall key :: key in a.queued && KeyTaken(a.rows, key) ==>
          key in b.queued && b.queued[key] == a.queued[key])
  }

  lemma AttemptExtends(w: World, id: Id, access: Access, fate: Fate, now: nat)
    requires id in w.rows && w.rows[id].status != Sent
    ensures Extends(w, AfterAttempt(w, id, access, fate, now))
  {
  }

  lemma DeliverExtends(w: World, id: Id, fate: Fate, now: nat)
    ensures Extends(w, AfterDeliver(w, id, fate, now))
  {
    match GateOf(w, id)
    case Ignored =>
    case Suppressed(error) =>
    case Open(access) => AttemptExtends(w, id, access, fate, now);
  }

  lemma NextExtends(w: World, a: Act)
    ensures Extends(w, Next(w, a))
  {
    if a.Deliver? {
      DeliverExtends(w, a.id, a.fate, a.now);
    }
  }

  lemma ExtendsIsTransitive(a: World, b: World, c: World)
    requires Extends(a, b) && Extends(b, c)
    ensures Extends(a, c)
  {
  }

  lemma {:induction false} RunExtends(w: World, acts: seq<Act>)
    ensures Extends(w, Run(w, acts))
  {
    if acts != [] {
      var n := |acts| - 1;
      RunExtends(w, acts[..n]);
      NextExtends(Run(w, acts[..n]), acts[n]);
      ExtendsIsTransitive(w, Run(w, acts[..n]), Run(w, acts));
    }
  }

  /** Sent is absorbing: whatever follows, the row stays as it is, and queueing its key again with any
      content creates nothing. */
  lemma SentIsAbsorbing(w: World, acts: seq<Act>, id: Id, again: Act)
    requires id in w.rows && w.rows[id].status == Sent
    requires again.Queue? && again.mail.key == w.rows[id].key
    ensures id in Run(w, acts).rows && Run(w, acts).rows[id] == w.rows[id]
    ensures Next(Run(w, acts), again) == Run(w, acts)
  {
    RunExtends(w, acts);
    assert KeyTaken(Run(w, acts).rows, again.mail.key);
  }

  /** An email whose answer was lost is not sent twice: the next successful attempt marks the row sent
      and produces nothing. */
  lemma RetryAfterLostAnswer(w: World, id: Id, error: string, providerId: string, now: nat, later: nat)
    requires Ok(w) && GateOf(w, id).Open? && w.rows[id].attempts + 1 < MAX_ATTEMPTS
    ensures var lost := AfterDeliver(w, id, LostAnswer(error), now);
            var retried := AfterDeliver(lost, id, Accepted(providerId), later);
            && lost.rows[id].status == Failed && Known(lost.mails, w.rows[id].key)
            && retried.rows[id].status == Sent && retried.mails == lost.mails
  {
    AttemptKeepsMails(w.mails, w.queued, w.rows[id], LostAnswer(error));
  }

  // ---- lifecycle gates ----

  /** A step reaches the provider only through a delivery whose row is unsent and whose organization's
      access, as it stands at that step, lets the row through; it reaches it at most once. */
  lemma CallsArePermitted(w: World, a: Act)
    ensures Next(w, a).calls == w.calls
         || (a.Deliver? && a.id in w.rows && w.rows[a.id].status != Sent
             && w.rows[a.id].org.Some? && w.rows[a.id].org.value in w.access
             && var access, row := w.access[w.rows[a.id].org.value], w.rows[a.id];
                && Next(w, a).calls == w.calls + [Call(access, row)]
                && match access
                   case Active => true
                   case PendingApproval => row.allowPending && row.head.template == "verify_email"
                   case Suspended => row.allowSuspended)
    ensures Next(w, a).mails == w.mails || |Next(w, a).mails| == |w.mails| + 1
    ensures Next(w, a).mails != w.mails ==> Next(w, a).calls != w.calls
  {
  }

  /** No lifecycle change of `org` occurs. */
  predicate Untouched(acts: seq<Act>, org: Id) {
    forall i :: 0 <= i < |acts| ==> !(acts[i].SetAccess? && acts[i].whose == org)
  }

  lemma {:induction false} AccessHolds(w: World, acts: seq<Act>, org: Id)
    requires org in w.access && Untouched(acts, org)
    ensures org in Run(w, acts).access && Run(w, acts).access[org] == w.access[org]
  {
    if acts != [] {
      AccessHolds(w, acts[..|acts| - 1], org);
    }
  }

  /** As long as an organization's access stays what it is, the only calls made for it are those its
      access lets through: none but rows with the bypass for a suspended organization, none but email
      verification with its bypass while approval is pending. */
  lemma {:induction false} GateHolds(w: World, acts: seq<Act>, org: Id, i: nat)
    requires org in w.access && Untouched(acts, org)
    requires |w.calls| <= i < |Run(w, acts).calls| && Run(w, acts).calls[i].row.org == Some(org)
    ensures var row := Run(w, acts).calls[i].row;
            match w.access[org]
            case Active => true
            case PendingApproval => row.allowPending && row.head.template == "verify_email"
            case Suspended => row.allowSuspended
  {
    if acts != [] {
      var n := |acts| - 1;
      var before := Run(w, acts[..n]);
      AccessHolds(w, acts[..n], org);
      CallsArePermitted(before, acts[n]);
      RunExtends(w, acts[..n]);
      if i < |before.calls| {
        GateHolds(w, acts[..n], org, i);
      }
    }
  }
}
