/** The console's poll cursor against a server other clients write to: the cursor never claims a
    revision whose state the console does not show. */
module RevisionCursor {
  import opened Wrappers
  import opened Runs

  /** One committed server write; `bump` is by how much it raised the revision, `mine` whether it came
      from this console. */
  datatype Entry<W> = Entry(write: W, bump: nat, mine: bool)

  /** A response under way: the whole state, or the acknowledgement of one own write. `pos` is how many
      writes the server had committed when it answered. */
  datatype Msg = Snapshot(pos: nat) | Ack(pos: nat)

  /** The server's history, the responses in server order, and the console's cursor and lists. `at`,
      `later` and `done` are for the record: the writes the cursor covers, the own writes shown beyond
      it, and the place of the last response processed. */
  datatype Sys<S, W> = Sys(log: seq<Entry<W>>, inbox: seq<Msg>, cursor: nat, view: S,
                           at: nat, later: seq<nat>, done: nat)

  datatype Event<W> =
    | OthersWrite(write: W, bump: nat)
    | IWrite(write: W, bump: nat)
    | Poll(requested: nat)   // the server answers `/api/state?rev=requested`
    | Receive
    | Lose(k: nat)           // a response never arrives

  /** The server's state after its first `n` writes. */
  ghost function StateAt<S, W>(apply: (S, W) -> S, s0: S, log: seq<Entry<W>>, n: nat): S
    requires n <= |log|
  {
    if n == 0 then s0 else apply(StateAt(apply, s0, log, n - 1), log[n - 1].write)
  }

  /** The revision after its first `n` writes. */
  function RevAt<W>(r0: nat, log: seq<Entry<W>>, n: nat): nat
    requires n <= |log|
  {
    if n == 0 then r0 else RevAt(r0, log, n - 1) + log[n - 1].bump
  }

  /** The writes at the given places, applied one by one. */
  ghost function Applied<S, W>(apply: (S, W) -> S, s: S, log: seq<Entry<W>>, places: seq<nat>): S
    requires forall i :: 0 <= i < |places| ==> 0 < places[i] <= |log|
  {
    if places == [] then s
    else
      var n := |places| - 1;
      apply(Applied(apply, s, log, places[..n]), log[places[n] - 1].write)
  }

  function Advanced(cursor: nat, rev: nat): nat {
    if rev != 0 && rev == cursor + 1 then rev else cursor
  }

  ghost function Received<S, W>(apply: (S, W) -> S, s0: S, r0: nat, sys: Sys<S, W>): Sys<S, W>
    requires sys.inbox != [] && 0 <= sys.inbox[0].pos <= |sys.log|
  {
    var m := sys.inbox[0];
    var rev := RevAt(r0, sys.log, m.pos);
    var rest := sys.(inbox := sys.inbox[1..], done := m.pos);
    if m.Snapshot? then
      rest.(cursor := rev, view := StateAt(apply, s0, sys.log, m.pos), at := m.pos, later := [])
    else if m.pos == 0 then rest
    else
      var moved := rest.(cursor := Advanced(sys.cursor, rev), view := apply(sys.view, sys.log[m.pos - 1].write));
      if moved.cursor != sys.cursor then moved.(at := m.pos)
      else moved.(later := sys.later + [m.pos])
  }

  /** What a response carries: the revision with the whole state, or with the write it acknowledges. */
  datatype Answer<S, W> = Full(rev: nat, state: S) | Mutation(rev: nat, write: W)

  ghost predicate Readable<S, W>(sys: Sys<S, W>) {
    && sys.inbox != [] && sys.inbox[0].pos <= |sys.log|
    && (sys.inbox[0].Ack? ==> sys.inbox[0].pos > 0)
  }

  ghost function AnswerOf<S, W>(apply: (S, W) -> S, s0: S, r0: nat, sys: Sys<S, W>): Answer<S, W>
    requires Readable(sys)
  {
    var m := sys.inbox[0];
    if m.Snapshot? then Full(RevAt(r0, sys.log, m.pos), StateAt(apply, s0, sys.log, m.pos))
    else Mutation(RevAt(r0, sys.log, m.pos), sys.log[m.pos - 1].write)
  }

  /** The console's cursor and lists, updated in place as responses arrive. */
  class Console<S, W> {
    var cursor: nat
    var view: S

    constructor (rev: nat, state: S)
      ensures cursor == Loaded<S, W>(state, rev).cursor && view == Loaded<S, W>(state, rev).view
    {
      cursor, view := rev, state;
    }

    /** `advanceRev`: only a contiguous revision moves the cursor. */
    method AdvanceRev(rev: nat)
      modifies this`cursor
      ensures cursor == Advanced(old(cursor), rev)
    {
      if rev != 0 && rev == cursor + 1 { cursor := rev; }
    }

    /** A response arrives: a poll's is taken over whole (`applyServerState`), a mutation's advances the
        cursor if contiguous and is laid over the lists. Cursor and lists end as the response at the
        head of the line, in whatever system this console is part of, makes them. */
    method OnResponse(apply: (S, W) -> S, answer: Answer<S, W>, ghost s0: S, ghost r0: nat, ghost sys: Sys<S, W>)
      requires Readable(sys) && answer == AnswerOf(apply, s0, r0, sys)
      requires cursor == sys.cursor && view == sys.view
      modifies this
      ensures cursor == Received(apply, s0, r0, sys).cursor && view == Received(apply, s0, r0, sys).view
    {
      match answer
      case Full(rev, state) =>
        cursor := rev;
        view := state;
      case Mutation(rev, write) =>
        AdvanceRev(rev);
        view := apply(view, write);
    }
  }

  ghost function Next<S, W>(apply: (S, W) -> S, s0: S, r0: nat, sys: Sys<S, W>, ev: Event<W>): Sys<S, W> {
    match ev
    case OthersWrite(write, bump) =>
      if bump == 0 then sys else sys.(log := sys.log + [Entry(write, bump, false)])
    case IWrite(write, bump) =>
      if bump == 0 then sys
      else sys.(log := sys.log + [Entry(write, bump, true)], inbox := sys.inbox + [Ack(|sys.log| + 1)])
    case Poll(requested) =>
      if RevAt(r0, sys.log, |sys.log|) == requested then sys
      else sys.(inbox := sys.inbox + [Snapshot(|sys.log|)])
    case Receive =>
      if sys.inbox == [] || sys.inbox[0].pos > |sys.log| then sys else Received(apply, s0, r0, sys)
    case Lose(k) =>
      if k >= |sys.inbox| then sys else sys.(inbox := sys.inbox[..k] + sys.inbox[k + 1..])
  }

  // ---- the invariant ----

  /** Responses wait in server order; an acknowledgement comes after everything before its write. */
  ghost predicate InboxOk<S, W>(sys: Sys<S, W>) {
    && sys.done <= |sys.log|
    && (forall i :: 0 <= i < |sys.inbox| ==> Follows(sys.done, sys.inbox[i]) && sys.inbox[i].pos <= |sys.log|)
    && (forall i, j :: 0 <= i < j < |sys.inbox| ==> Follows(sys.inbox[i].pos, sys.inbox[j]))
  }

  predicate Follows(pos: nat, m: Msg) {
    if m.Ack? then pos < m.pos else pos <= m.pos
  }

  /** The cursor stands at the revision after `at` writes, and the lists show the server's state there
      with the own writes answered since laid on top, in order. */
  ghost predicate ViewOk<S, W>(apply: (S, W) -> S, s0: S, r0: nat, sys: Sys<S, W>) {
    && sys.at <= sys.done <= |sys.log|
    && sys.cursor == RevAt(r0, sys.log, sys.at)
    && (forall i :: 0 <= i < |sys.later| ==> sys.at < sys.later[i] <= sys.done)
    && (forall i, j :: 0 <= i < j < |sys.later| ==> sys.later[i] < sys.later[j])
    && sys.view == Applied(apply, StateAt(apply, s0, sys.log, sys.at), sys.log, sys.later)
  }

  ghost predicate Bumps<W>(log: seq<Entry<W>>) {
    forall i :: 0 <= i < |log| ==> log[i].bump > 0
  }

  ghost predicate Ok<S, W>(apply: (S, W) -> S, s0: S, r0: nat, sys: Sys<S, W>) {
    InboxOk(sys) && ViewOk(apply, s0, r0, sys) && Bumps(sys.log)
  }

  lemma {:induction false} RevGrows<W>(r0: nat, log: seq<Entry<W>>, a: nat, b: nat)
    requires a <= b <= |log| && Bumps(log)
    ensures RevAt(r0, log, b) >= RevAt(r0, log, a) + (b - a)
  {
    if a < b {
      RevGrows(r0, log, a, b - 1);
    }
  }

  /** Later commits change neither the past states nor the past revisions. */
  lemma {:induction false} PastIsFixed<S, W>(apply: (S, W) -> S, s0: S, r0: nat, log: seq<Entry<W>>, e: Entry<W>, n: nat)
    requires n <= |log|
    ensures StateAt(apply, s0, log + [e], n) == StateAt(apply, s0, log, n)
    ensures RevAt(r0, log + [e], n) == RevAt(r0, log, n)
  {
    if n > 0 {
      PastIsFixed(apply, s0, r0, log, e, n - 1);
    }
  }

  lemma {:induction false} AppliedIsFixed<S, W>(apply: (S, W) -> S, s: S, log: seq<Entry<W>>, e: Entry<W>, places: seq<nat>)
    requires forall i :: 0 <= i < |places| ==> 0 < places[i] <= |log|
    ensures Applied(apply, s, log + [e], places) == Applied(apply, s, log, places)
  {
    if places != [] {
      AppliedIsFixed(apply, s, log, e, places[..|places| - 1]);
    }
  }

  lemma CommitKeepsOk<S, W>(apply: (S, W) -> S, s0: S, r0: nat, sys: Sys<S, W>, e: Entry<W>, more: seq<Msg>)
    requires Ok(apply, s0, r0, sys) && e.bump > 0
    requires more == [] || more == [Ack(|sys.log| + 1)]
    ensures Ok(apply, s0, r0, sys.(log := sys.log + [e], inbox := sys.inbox + more))
  {
    PastIsFixed(apply, s0, r0, sys.log, e, sys.at);
    AppliedIsFixed(apply, StateAt(apply, s0, sys.log, sys.at), sys.log, e, sys.later);
  }

  lemma LaterIsAnswered<S, W>(apply: (S, W) -> S, s0: S, r0: nat, sys: Sys<S, W>)
    requires ViewOk(apply, s0, r0, sys)
    ensures sys.later != [] ==> sys.at < sys.done
  {
  }

  /** A contiguous acknowledgement is of the very next write, so nothing was shown beyond the cursor. */
  lemma ContiguousIsNext<S, W>(apply: (S, W) -> S, s0: S, r0: nat, sys: Sys<S, W>)
    requires Ok(apply, s0, r0, sys) && sys.inbox != [] && sys.inbox[0].Ack?
    requires RevAt(r0, sys.log, sys.inbox[0].pos) == sys.cursor + 1
    ensures sys.inbox[0].pos == sys.at + 1 && sys.later == []
  {
    var p := sys.inbox[0].pos;
    assert Follows(sys.done, sys.inbox[0]);
    RevGrows(r0, sys.log, sys.at, p);
    LaterIsAnswered(apply, s0, r0, sys);
  }

  lemma SnapshotKeepsView<S, W>(apply: (S, W) -> S, s0: S, r0: nat, sys: Sys<S, W>)
    requires sys.inbox != [] && sys.inbox[0].pos <= |sys.log| && sys.inbox[0].Snapshot?
    ensures ViewOk(apply, s0, r0, Received(apply, s0, r0, sys))
  {
  }

  lemma NextAckKeepsView<S, W>(apply: (S, W) -> S, s0: S, r0: nat, sys: Sys<S, W>)
    requires Ok(apply, s0, r0, sys) && sys.inbox != [] && sys.inbox[0].Ack? && sys.inbox[0].pos <= |sys.log|
    requires RevAt(r0, sys.log, sys.inbox[0].pos) == sys.cursor + 1
    ensures ViewOk(apply, s0, r0, Received(apply, s0, r0, sys))
  {
    ContiguousIsNext(apply, s0, r0, sys);
    hide InboxOk, Follows, Bumps;
    assert sys.view == StateAt(apply, s0, sys.log, sys.at);
  }

  lemma GapAckKeepsView<S, W>(apply: (S, W) -> S, s0: S, r0: nat, sys: Sys<S, W>)
    requires ViewOk(apply, s0, r0, sys) && sys.inbox != [] && sys.inbox[0].Ack?
    requires sys.done < sys.inbox[0].pos <= |sys.log|
    requires RevAt(r0, sys.log, sys.inbox[0].pos) != sys.cursor + 1
    ensures ViewOk(apply, s0, r0, Received(apply, s0, r0, sys))
  {
    hide StateAt, RevAt;
    assert (sys.later + [sys.inbox[0].pos])[..|sys.later|] == sys.later;
  }

  lemma ReceiveKeepsView<S, W>(apply: (S, W) -> S, s0: S, r0: nat, sys: Sys<S, W>)
    requires Ok(apply, s0, r0, sys) && sys.inbox != [] && sys.inbox[0].pos <= |sys.log|
    ensures ViewOk(apply, s0, r0, Received(apply, s0, r0, sys))
  {
    assert Follows(sys.done, sys.inbox[0]);
    hide ViewOk, Received, RevAt;
    if sys.inbox[0].Snapshot? {
      SnapshotKeepsView(apply, s0, r0, sys);
    } else if RevAt(r0, sys.log, sys.inbox[0].pos) == sys.cursor + 1 {
      NextAckKeepsView(apply, s0, r0, sys);
    } else {
      GapAckKeepsView(apply, s0, r0, sys);
    }
  }

  lemma ReceiveKeepsInbox<S, W>(apply: (S, W) -> S, s0: S, r0: nat, sys: Sys<S, W>)
    requires Ok(apply, s0, r0, sys) && sys.inbox != [] && sys.inbox[0].pos <= |sys.log|
    ensures InboxOk(Received(apply, s0, r0, sys))
  {
  }

  lemma LossKeepsInbox<S, W>(sys: Sys<S, W>, k: nat)
    requires InboxOk(sys) && k < |sys.inbox|
    ensures InboxOk(sys.(inbox := sys.inbox[..k] + sys.inbox[k + 1..]))
  {
  }

  lemma PollKeepsOk<S, W>(apply: (S, W) -> S, s0: S, r0: nat, sys: Sys<S, W>)
    requires Ok(apply, s0, r0, sys)
    ensures Ok(apply, s0, r0, sys.(inbox := sys.inbox + [Snapshot(|sys.log|)]))
  {
  }

  lemma NextKeepsOk<S, W>(apply: (S, W) -> S, s0: S, r0: nat, sys: Sys<S, W>, ev: Event<W>)
    requires Ok(apply, s0, r0, sys)
    ensures Ok(apply, s0, r0, Next(apply, s0, r0, sys, ev))
  {
    match ev
    case OthersWrite(write, bump) =>
      if bump > 0 {
        CommitKeepsOk(apply, s0, r0, sys, Entry(write, bump, false), []);
        assert sys.inbox + [] == sys.inbox;
      }
    case IWrite(write, bump) =>
      if bump > 0 {
        CommitKeepsOk(apply, s0, r0, sys, Entry(write, bump, true), [Ack(|sys.log| + 1)]);
      }
    case Poll(requested) => PollKeepsOk(apply, s0, r0, sys);
    case Receive =>
      if sys.inbox != [] && sys.inbox[0].pos <= |sys.log| {
        ReceiveKeepsView(apply, s0, r0, sys);
        ReceiveKeepsInbox(apply, s0, r0, sys);
      }
    case Lose(k) =>
      if k < |sys.inbox| { LossKeepsInbox(sys, k); }
  }

  /** A console that has just loaded the state at revision `r0`. */
  function Loaded<S, W>(s0: S, r0: nat): Sys<S, W> {
    Sys([], [], r0, s0, 0, [], 0)
  }

  ghost function Run<S, W>(apply: (S, W) -> S, s0: S, r0: nat, evs: seq<Event<W>>): Sys<S, W> {
    Fold((sys: Sys<S, W>, ev: Event<W>) => Next(apply, s0, r0, sys, ev), Loaded(s0, r0), evs)
  }

  /** In every run, with responses processed in server order and every write raising the revision, the
      lists show the server's state at the cursor plus the own writes answered since. */
  lemma {:induction false} RunKeepsOk<S, W>(apply: (S, W) -> S, s0: S, r0: nat, evs: seq<Event<W>>)
    ensures Ok(apply, s0, r0, Run(apply, s0, r0, evs))
  {
    if evs != [] {
      var n := |evs| - 1;
      RunKeepsOk(apply, s0, r0, evs[..n]);
      NextKeepsOk(apply, s0, r0, Run(apply, s0, r0, evs[..n]), evs[n]);
    }
  }

  lemma OkShowsServerState<S, W>(apply: (S, W) -> S, s0: S, r0: nat, sys: Sys<S, W>)
    requires Ok(apply, s0, r0, sys)
    ensures sys.cursor <= RevAt(r0, sys.log, |sys.log|)
    ensures sys.cursor == RevAt(r0, sys.log, |sys.log|) ==> sys.view == StateAt(apply, s0, sys.log, |sys.log|)
  {
    RevGrows(r0, sys.log, sys.at, |sys.log|);
    LaterIsAnswered(apply, s0, r0, sys);
  }

  /** A console whose cursor equals the server's revision shows exactly the server's state. */
  lemma CaughtUpShowsServerState<S, W>(apply: (S, W) -> S, s0: S, r0: nat, evs: seq<Event<W>>)
    ensures var sys := Run(apply, s0, r0, evs);
            && sys.cursor <= RevAt(r0, sys.log, |sys.log|)
            && (sys.cursor == RevAt(r0, sys.log, |sys.log|) ==> sys.view == StateAt(apply, s0, sys.log, |sys.log|))
  {
    RunKeepsOk(apply, s0, r0, evs);
    OkShowsServerState(apply, s0, r0, Run(apply, s0, r0, evs));
  }

  /** Whatever was lost before, one answered poll with nothing else under way brings the console up to
      date; "unchanged" is only ever said to a console that already is. */
  lemma PollCatchesUp<S, W>(apply: (S, W) -> S, s0: S, r0: nat, evs: seq<Event<W>>)
    requires Run(apply, s0, r0, evs).inbox == []
    ensures var sys := Run(apply, s0, r0, evs);
            var polled := Next(apply, s0, r0, Next(apply, s0, r0, sys, Poll(sys.cursor)), Receive);
            && (sys.cursor == RevAt(r0, sys.log, |sys.log|) ==> Next(apply, s0, r0, sys, Poll(sys.cursor)) == sys)
            && polled.cursor == RevAt(r0, polled.log, |polled.log|)
            && polled.view == StateAt(apply, s0, polled.log, |polled.log|)
  {
    CaughtUpShowsServerState(apply, s0, r0, evs);
    RunKeepsOk(apply, s0, r0, evs);
  }
}
