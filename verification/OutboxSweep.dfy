/** The outbox as the worker runs it, and the periodic sweep: why a pending row is always reached. */
module OutboxSweep {
  import opened Wrappers
  import opened Runs
  import opened Outbox

  // ---- what a sweep selects ----

  predicate Eligible(row: Row, now: nat) {
    row.status == Pending || (row.status == Sending && row.updated + STALE_AFTER < now)
  }

  /** The eligible rows of a listing, oldest first. */
  function EligibleIds(rows: map<Id, Row>, order: seq<Id>, now: nat): (r: seq<Id>)
    ensures |r| <= |order|
  {
    if order == [] then []
    else
      var last := order[|order| - 1];
      EligibleIds(rows, order[..|order| - 1], now)
      + (if last in rows && Eligible(rows[last], now) then [last] else [])
  }

  /** The sweep's bounded batch. */
  function Batch(rows: map<Id, Row>, order: seq<Id>, now: nat): seq<Id> {
    var ids := EligibleIds(rows, order, now);
    if |ids| <= BATCH then ids else ids[..BATCH]
  }

  class Worker {
    var rows: map<Id, Row>
    var order: seq<Id>
    var access: map<Id, Access>
    ghost var calls: seq<Call>
    ghost var mails: seq<Mail>
    ghost var queued: map<string, Mail>

    ghost function View(): World
      reads this
    {
      World(rows, order, access, calls, mails, queued)
    }

    /** `queue_email`: the row under that key, new or already there; None exactly for a refused call or
        a new row the database does not take. */
    method QueueEmail(a: Act) returns (row: Option<Row>)
      requires a.Queue?
      modifies this
      ensures View() == AfterQueue(old(View()), a)
      ensures row.Some? ==> row.value.key == a.mail.key && exists id :: id in rows && rows[id] == row.value
      ensures row.None? <==>
                !Acceptable(old(View()), a) || (!KeyTaken(old(rows), a.mail.key) && !Outbox.Storable(old(View()), a))
    {
      if a.org.None? { return None; }
      if a.allowPending && a.mail.head.template != "verify_email" { return None; }
      if a.allowPending && a.allowSuspended { return None; }
      if a.org.value !in access { return None; }
      if KeyTaken(rows, a.mail.key) {
        var id :| id in rows && rows[id].key == a.mail.key;
        return Some(rows[id]);
      }
      if a.id in rows || |a.mail.key| > 128 { return None; }
      rows := rows[a.id := NewRow(a)];
      order := order + [a.id];
      queued := queued[a.mail.key := a.mail];
      return Some(rows[a.id]);
    }

    /** `deliver_outbox_email`. The row is marked as sending before the provider is called; only a
        crash lets that go, by rolling the transaction back. */
    method DeliverOutboxEmail(id: Id, fate: Fate, now: nat)
      modifies this
      ensures View() == AfterDeliver(old(View()), id, fate, now)
    {
      if id !in rows { return; }
      var before := rows;
      var row := rows[id];
      if row.status == Sent { return; }
      if row.org.None? {
        if row.status == Failed { return; }
        rows := rows[id := row.(status := Failed, lastError := NO_SCOPE, updated := now)];
        return;
      }
      if row.org.value !in access { return; }
      if !Permitted(access[row.org.value], row) {
        rows := rows[id := row.(status := Failed, lastError := NOT_ACTIVE, updated := now)];
        return;
      }
      if row.attempts >= MAX_ATTEMPTS { return; }
      rows := rows[id := row.(status := Sending, attempts := row.attempts + 1, updated := now)];
      CallProvider(access[row.org.value], row, fate);
      match fate
      case Accepted(providerId) =>
        rows := rows[id := rows[id].(status := Sent, providerId := providerId, lastError := "",
                                     context := Redacted, updated := now)];
      case NotReached(error) => MarkFailed(id, error, now);
      case Refused(error) => MarkFailed(id, error, now);
      case LostAnswer(error) => MarkFailed(id, error, now);
      case CrashBefore => rows := before;
      case CrashAfter(_) => rows := before;
    }

    method MarkFailed(id: Id, error: string, now: nat)
      requires id in rows
      modifies this`rows
      ensures rows == old(rows)[id := FailedRow(old(rows[id]), Cut(error, 2000), now)]
    {
      rows := rows[id := rows[id].(status := Failed, lastError := Cut(error, 2000), updated := now)];
    }

    /** The provider's side of an attempt. */
    ghost method CallProvider(access: Access, row: Row, fate: Fate)
      modifies this`calls, this`mails
      ensures calls == if Reaches(fate) then old(calls) + [Call(access, row)] else old(calls)
      ensures mails == MailsAfter(old(mails), row, fate)
    {
      if Reaches(fate) { calls := calls + [Call(access, row)]; }
      if TakenIn(fate) && !Known(mails, row.key) {
        mails := mails + [Mail(row.key, row.head, TextOf(row.context))];
      }
    }

    /** `dispatch_pending_outbox`: publish the oldest eligible rows one by one, and stop at the first
        the broker does not take; `broker(k)` tells whether it takes the k-th. */
    method DispatchPendingOutbox(now: nat, broker: nat -> bool) returns (published: nat, ids: seq<Id>)
      ensures ids == Batch(rows, order, now)
      ensures published <= |ids| <= BATCH
      ensures forall k: nat :: k < published ==> broker(k)
      ensures published < |ids| ==> !broker(published)
    {
      ids := Batch(rows, order, now);
      published := 0;
      for k := 0 to |ids|
        invariant published == k
        invariant forall j: nat :: j < published ==> broker(j)
      {
        if !broker(k) { break; }
        published := published + 1;
      }
    }
  }

  // ---- progress ----

  predicate IsPending(rows: map<Id, Row>, id: Id) {
    id in rows && rows[id].status == Pending
  }

  /** How many of the first `n` rows of the table are pending. */
  function Ahead(rows: map<Id, Row>, order: seq<Id>, n: nat): nat
    requires n <= |order|
  {
    if n == 0 then 0
    else Ahead(rows, order, n - 1) + (if IsPending(rows, order[n - 1]) then 1 else 0)
  }

  lemma EligibleExtends(rows: map<Id, Row>, order: seq<Id>, n: nat, now: nat)
    requires n < |order|
    ensures EligibleIds(rows, order[..n], now) <= EligibleIds(rows, order[..n + 1], now)
  {
    assert order[..n + 1][..n] == order[..n];
  }

  lemma {:induction false} EligibleIsPrefix(rows: map<Id, Row>, order: seq<Id>, n: nat, now: nat)
    requires n <= |order|
    ensures EligibleIds(rows, order[..n], now) <= EligibleIds(rows, order, now)
    decreases |order| - n
  {
    if n < |order| {
      EligibleExtends(rows, order, n, now);
      EligibleIsPrefix(rows, order, n + 1, now);
    } else {
      assert order[..n] == order;
    }
    hide EligibleIds;
  }

  /** No transaction commits a row as sending, so the stale-lease clause never selects anything. */
  lemma EligibleArePending(w: World, n: nat, now: nat)
    requires Ok(w) && n <= |w.order|
    ensures |EligibleIds(w.rows, w.order[..n], now)| == Ahead(w.rows, w.order, n)
    ensures EligibleIds(w.rows, w.order[..n], now) <= EligibleIds(w.rows, w.order, now)
  {
    CountEligible(w, n, now);
    EligibleIsPrefix(w.rows, w.order, n, now);
    hide *;
  }

  lemma {:induction false} CountEligible(w: World, n: nat, now: nat)
    requires Ok(w) && n <= |w.order|
    ensures |EligibleIds(w.rows, w.order[..n], now)| == Ahead(w.rows, w.order, n)
  {
    if n > 0 {
      CountEligible(w, n - 1, now);
      assert w.order[..n][..n - 1] == w.order[..n - 1];
      assert w.order[n - 1] in w.order;
      assert RowOk(w.rows[w.order[n - 1]], w.access, w.mails, w.queued);
    }
  }

  /** A pending row with fewer than a hundred pending rows before it is in the batch. */
  lemma FrontIsInBatch(w: World, i: nat, now: nat)
    requires Ok(w) && i < |w.order| && IsPending(w.rows, w.order[i])
    requires Ahead(w.rows, w.order, i) < BATCH
    ensures w.order[i] in Batch(w.rows, w.order, now)
  {
    hide Ok;
    var k := Ahead(w.rows, w.order, i);
    EligibleArePending(w, i, now);
    EligibleArePending(w, i + 1, now);
    assert w.order[..i + 1][..i] == w.order[..i];
    var ids := EligibleIds(w.rows, w.order, now);
    assert EligibleIds(w.rows, w.order[..i + 1], now)[k] == w.order[i];
    assert ids[k] == w.order[i];
    assert Batch(w.rows, w.order, now)[k] == w.order[i];
  }

  predicate Finishes(fate: Fate) {
    !fate.CrashBefore? && !fate.CrashAfter?
  }

  /** `acts` lets every task the sweep at `now` published finish once, in any order and among
      whatever else happens: duplicates, new rows, crashes, lifecycle changes. */
  ghost predicate Serves(w: World, now: nat, acts: seq<Act>) {
    forall id :: id in Batch(w.rows, w.order, now) ==> Served(acts, id)
  }

  ghost predicate Served(acts: seq<Act>, id: Id) {
    exists j :: 0 <= j < |acts| && acts[j].Deliver? && acts[j].id == id && Finishes(acts[j].fate)
  }

  /** A finished delivery never leaves its row pending. */
  lemma FinishedIsNotPending(w: World, id: Id, fate: Fate, now: nat)
    requires Ok(w) && Finishes(fate)
    ensures !IsPending(AfterDeliver(w, id, fate, now).rows, id)
  {
    if id in w.rows {
      assert RowOk(w.rows[id], w.access, w.mails, w.queued);
    }
  }

  lemma ServedIsNotPending(w: World, acts: seq<Act>, id: Id)
    requires Ok(w) && id in w.rows && Served(acts, id)
    ensures !IsPending(Run(w, acts).rows, id)
  {
    hide Ok, AfterDeliver;
    var j :| 0 <= j < |acts| && acts[j].Deliver? && acts[j].id == id && Finishes(acts[j].fate);
    RunKeepsOk(w, acts[..j]);
    RunExtends(w, acts[..j + 1]);
    FinishedIsNotPending(Run(w, acts[..j]), id, acts[j].fate, acts[j].now);
    FoldStep(Step(), w, acts, j);
    FoldMiddle(Step(), w, acts, j + 1, |acts|);
    assert acts[..|acts|] == acts;
    RunExtends(Run(w, acts[..j + 1]), acts[j + 1..|acts|]);
  }

  /** If the pending rows among the first hundred are dealt with and none becomes pending again, the
      rows in front of place `n` drop by a hundred. */
  lemma {:induction false} AheadDrops(a: map<Id, Row>, b: map<Id, Row>, order: seq<Id>, longer: seq<Id>, n: nat)
    requires n <= |order| && order <= longer
    requires forall i :: 0 <= i < |order| && IsPending(b, order[i]) ==>
               IsPending(a, order[i]) && Ahead(a, order, i) >= BATCH
    ensures Ahead(b, longer, n) + BATCH <= Ahead(a, order, n) || Ahead(b, longer, n) == 0
  {
    if n > 0 {
      AheadDrops(a, b, order, longer, n - 1);
    }
  }

  /** One sweep, once its tasks have finished, takes a hundred off every row's queue. */
  lemma SweepAdvances(w: World, now: nat, acts: seq<Act>, n: nat)
    requires Ok(w) && Serves(w, now, acts) && n <= |w.order|
    ensures w.order <= Run(w, acts).order
    ensures Ahead(Run(w, acts).rows, Run(w, acts).order, n) + BATCH <= Ahead(w.rows, w.order, n)
         || Ahead(Run(w, acts).rows, Run(w, acts).order, n) == 0
    ensures n < |w.order| && Ahead(w.rows, w.order, n) < BATCH ==> !IsPending(Run(w, acts).rows, w.order[n])
  {
    var after := Run(w, acts);
    RunExtends(w, acts);
    forall i | 0 <= i < |w.order| && IsPending(after.rows, w.order[i])
      ensures IsPending(w.rows, w.order[i]) && Ahead(w.rows, w.order, i) >= BATCH
    {
      assert w.order[i] in w.order && w.order[i] in w.rows;
      if Ahead(w.rows, w.order, i) < BATCH {
        FrontIsInBatch(w, i, now);
        ServedIsNotPending(w, acts, w.order[i]);
      }
    }
    AheadDrops(w.rows, after.rows, w.order, after.order, n);
  }

  /** A sweep at `now` with the broker up, then whatever happens before the next one. */
  datatype Round = Round(now: nat, acts: seq<Act>)

  ghost function AfterRounds(w: World, rounds: seq<Round>): World {
    if rounds == [] then w
    else Run(AfterRounds(w, rounds[..|rounds| - 1]), rounds[|rounds| - 1].acts)
  }

  ghost predicate AllServed(w: World, rounds: seq<Round>) {
    rounds == [] ||
    (AllServed(w, rounds[..|rounds| - 1])
     && Serves(AfterRounds(w, rounds[..|rounds| - 1]), rounds[|rounds| - 1].now, rounds[|rounds| - 1].acts))
  }

  lemma {:induction false} RoundsAdvance(w: World, rounds: seq<Round>, n: nat)
    requires Ok(w) && AllServed(w, rounds) && n <= |w.order|
    ensures Ok(AfterRounds(w, rounds)) && w.order <= AfterRounds(w, rounds).order
    ensures Ahead(AfterRounds(w, rounds).rows, AfterRounds(w, rounds).order, n) + BATCH * |rounds|
            <= Ahead(w.rows, w.order, n)
         || Ahead(AfterRounds(w, rounds).rows, AfterRounds(w, rounds).order, n) == 0
  {
    if rounds != [] {
      var m := |rounds| - 1;
      var before := AfterRounds(w, rounds[..m]);
      RoundsAdvance(w, rounds[..m], n);
      SweepAdvances(before, rounds[m].now, rounds[m].acts, n);
      RunKeepsOk(before, rounds[m].acts);
    }
  }

  /** With the broker up and each sweep's tasks finished before the next, a row with `k` pending rows
      in front of it is attempted within k / 100 + 1 sweeps, however many newer rows arrive. */
  lemma AttemptedInTime(w: World, rounds: seq<Round>, i: nat)
    requires Ok(w) && AllServed(w, rounds) && i < |w.order|
    requires |rounds| == Ahead(w.rows, w.order, i) / BATCH + 1
    ensures !IsPending(AfterRounds(w, rounds).rows, w.order[i])
  {
    var m := |rounds| - 1;
    RoundsAdvance(w, rounds[..m], i);
    SweepAdvances(AfterRounds(w, rounds[..m]), rounds[m].now, rounds[m].acts, i);
  }
}
