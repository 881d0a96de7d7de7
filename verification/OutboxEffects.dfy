/** What queueing and one delivery attempt leave, on the rows themselves, and which provider calls a run
    of them makes. */
module OutboxEffects {
  import opened Wrappers
  import opened Runs
  import opened Outbox

  /** What `queue_email` accepts creates one pending row with exactly what was given, unless its key has
      a row; anything else, and what the table does not take, changes nothing. */
  lemma QueueLeaves(w: World, a: Act)
    requires a.Queue?
    ensures var after := Next(w, a);
            && after.access == w.access && after.calls == w.calls && after.mails == w.mails
            && (if a.org.Some? && a.org.value in w.access
                   && (a.allowPending ==> a.mail.head.template == "verify_email" && !a.allowSuspended)
                   && (forall id :: id in w.rows ==> w.rows[id].key != a.mail.key)
                   && a.id !in w.rows && |a.mail.key| <= 128
                then
                  && after.rows.Keys == w.rows.Keys + {a.id} && after.order == w.order + [a.id]
                  && (forall id :: id in w.rows ==> after.rows[id] == w.rows[id])
                  && after.rows[a.id] == Row(a.mail.key, a.org, a.allowSuspended, a.allowPending, a.mail.head,
                                             Sealed(a.mail.text), Pending, 0, "", "", a.now)
                  && after.queued == w.queued[a.mail.key := a.mail]
                else after == w)
  {
  }

  // ---- one attempt ----

  /** The organization's access as it stands lets the row through. */
  predicate LetThrough(access: Access, row: Row) {
    match access
    case Active => true
    case PendingApproval => row.allowPending && row.head.template == "verify_email"
    case Suspended => row.allowSuspended
  }

  /** The row is unsent and its organization is known. */
  predicate Due(w: World, id: Id) {
    id in w.rows && w.rows[id].status != Sent && w.rows[id].org.Some? && w.rows[id].org.value in w.access
  }

  /** Only the row `id` changes, and of it neither key, addressing nor bypasses. */
  ghost predicate OnlyRow(a: World, b: World, id: Id)
    requires id in a.rows
  {
    && b.order == a.order && b.access == a.access && b.queued == a.queued && b.rows.Keys == a.rows.Keys
    && (forall other :: other in a.rows && other != id ==> b.rows[other] == a.rows[other])
    && (var was, row := a.rows[id], b.rows[id];
        && row.key == was.key && row.org == was.org && row.head == was.head
        && row.allowSuspended == was.allowSuspended && row.allowPending == was.allowPending)
  }

  /** The provider is asked once, with the row as it stood. */
  ghost predicate CalledOnce(a: World, b: World, id: Id)
    requires Due(a, id)
  {
    b.calls == a.calls + [Call(a.access[a.rows[id].org.value], a.rows[id])]
  }

  /** The email the row stands for is produced, unless one was under its key already. */
  ghost predicate Produced(a: World, b: World, id: Id)
    requires id in a.rows
  {
    var row := a.rows[id];
    b.mails == if exists i :: 0 <= i < |a.mails| && a.mails[i].key == row.key then a.mails
               else a.mails + [Mail(row.key, row.head, if row.context.Redacted? then "" else row.context.text)]
  }

  /** The row failed with at most 2000 characters of the error, one attempt more, and kept its message. */
  ghost predicate FailedWith(a: World, b: World, id: Id, error: string)
    requires id in a.rows
  {
    && id in b.rows && b.rows[id].status == Failed && b.rows[id].attempts == a.rows[id].attempts + 1
    && b.rows[id].lastError == (if |error| <= 2000 then error else error[..2000])
    && b.rows[id].context == a.rows[id].context && b.rows[id].providerId == a.rows[id].providerId
  }

  /** A due row that its organization's access lets through and that has attempts left is attempted: the
      provider is asked exactly on the fates that reach it, it produces the email exactly on those where
      it takes it in, and the row records what the worker learnt. A crash leaves the row as it was. */
  lemma AttemptLeaves(w: World, id: Id, fate: Fate, now: nat)
    requires Due(w, id) && LetThrough(w.access[w.rows[id].org.value], w.rows[id]) && w.rows[id].attempts < 32_767
    ensures var after := Next(w, Deliver(id, fate, now));
            && OnlyRow(w, after, id)
            && match fate
               case NotReached(error) =>
                 after.calls == w.calls && after.mails == w.mails && FailedWith(w, after, id, error)
               case Accepted(providerId) =>
                 && CalledOnce(w, after, id) && Produced(w, after, id)
                 && after.rows[id].status == Sent && after.rows[id].providerId == providerId
                 && after.rows[id].attempts == w.rows[id].attempts + 1
                 && after.rows[id].context == Redacted && after.rows[id].lastError == ""
               case Refused(error) =>
                 CalledOnce(w, after, id) && after.mails == w.mails && FailedWith(w, after, id, error)
               case LostAnswer(error) =>
                 CalledOnce(w, after, id) && Produced(w, after, id) && FailedWith(w, after, id, error)
               case CrashBefore => after == w
               case CrashAfter(accepted) =>
                 && CalledOnce(w, after, id) && after.rows == w.rows
                 && (if accepted then Produced(w, after, id) else after.mails == w.mails)
  {
  }

  /** A due row that is not let through fails without a call, an attempt or its message; one out of
      attempts, a sent one, and one whose organization is unknown stay as they are. */
  lemma NoAttemptLeaves(w: World, id: Id, fate: Fate, now: nat)
    requires !(Due(w, id) && LetThrough(w.access[w.rows[id].org.value], w.rows[id]) && w.rows[id].attempts < 32_767)
    ensures var after := Next(w, Deliver(id, fate, now));
            && after.calls == w.calls && after.mails == w.mails
            && (if Due(w, id) && !LetThrough(w.access[w.rows[id].org.value], w.rows[id])
                then
                  && OnlyRow(w, after, id) && after.rows[id].status == Failed
                  && after.rows[id].lastError == "Delivery suppressed because organization access is not active"
                  && after.rows[id].attempts == w.rows[id].attempts && after.rows[id].context == w.rows[id].context
                else if id in w.rows && w.rows[id].org.None? && w.rows[id].status != Sent && w.rows[id].status != Failed
                then
                  && OnlyRow(w, after, id) && after.rows[id].status == Failed
                  && after.rows[id].lastError == "Delivery suppressed because organization scope is missing"
                  && after.rows[id].attempts == w.rows[id].attempts && after.rows[id].context == w.rows[id].context
                else after == w)
  {
  }

  // ---- the calls of a run ----

  /** Step `k` delivers the row of the run's `i`-th call: unsent, of a known organization whose access at
      that step is the call's and lets the row through. */
  ghost predicate CalledAt(w: World, acts: seq<Act>, i: nat, k: int) {
    && 0 <= k < |acts| && acts[k].Deliver? && i < |Run(w, acts).calls|
    && var before := Run(w, acts[..k]);
       && Due(before, acts[k].id)
       && Run(w, acts).calls[i] == Call(before.access[before.rows[acts[k].id].org.value], before.rows[acts[k].id])
       && LetThrough(Run(w, acts).calls[i].access, Run(w, acts).calls[i].row)
  }

  lemma StepCalls(w: World, a: Act)
    ensures Next(w, a).calls == w.calls
         || (a.Deliver? && Due(w, a.id) && CalledOnce(w, Next(w, a), a.id)
             && LetThrough(w.access[w.rows[a.id].org.value], w.rows[a.id]))
  {
    CallsArePermitted(w, a);
    hide Next;
  }

  lemma CalledEarlier(w: World, acts: seq<Act>, n: nat, i: nat, k: int)
    requires n <= |acts| && CalledAt(w, acts[..n], i, k)
    requires Run(w, acts[..n]).calls <= Run(w, acts).calls
    ensures CalledAt(w, acts, i, k)
  {
    assert acts[..n][..k] == acts[..k];
    hide Run, Due, LetThrough;
  }

  /** In every run, whatever the organizations' lifecycles do meanwhile, each new provider call is made by
      a delivery of an unsent row whose organization's access, as it stood at that step, is active, or is
      pending approval for an email verification with the bypass, or suspended for a row with the bypass. */
  lemma {:induction false} EveryCallWasLetThrough(w: World, acts: seq<Act>, i: nat) returns (k: nat)
    requires |w.calls| <= i < |Run(w, acts).calls|
    ensures CalledAt(w, acts, i, k)
    ensures var call := Run(w, acts).calls[i];
            match call.access
            case Active => true
            case PendingApproval => call.row.allowPending && call.row.head.template == "verify_email"
            case Suspended => call.row.allowSuspended
  {
    k := 0;
    if acts != [] {
      var n := |acts| - 1;
      StepCalls(Run(w, acts[..n]), acts[n]);
      if i < |Run(w, acts[..n]).calls| {
        k := EveryCallWasLetThrough(w, acts[..n], i);
        CalledEarlier(w, acts, n, i, k);
      } else {
        k := n;
      }
    }
  }
}
