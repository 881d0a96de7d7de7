/** What each portal request answers and leaves, on the rows themselves, and that a revoked link is dead. */
module PortalEffects {
  import opened Wrappers
  import opened Runs
  import opened Portal

  predicate PlanOpen(b: Board) { !b.cancelled && !b.callCancelled && !b.final }

  /** The plan is as it was when the link was created. */
  predicate PlanUnchanged(b: Board, l: Id)
    requires l in b.links
  {
    var f := b.links[l].fingerprint;
    f.info == b.info && f.lines == b.lines && f.parties == b.parties
  }

  predicate Works(b: Board, l: Id, now: nat) {
    b.active && l in b.links && !b.links[l].revoked && now < b.links[l].expires
  }

  predicate Takes(b: Board, p: Id) {
    exists i :: 0 <= i < |b.parties| && b.parties[i].id == p
  }

  predicate HasRead(b: Board, p: Id) {
    exists k :: 0 <= k < |b.submissions| && b.submissions[k].party == p
  }

  /** A link is created for a participant without a reading while the plan is open, for 1 to 30 days,
      with the plan as it stands; the participant's earlier links are revoked. */
  lemma CreateLinkLeaves(b: Board, p: Id, days: nat, l: Id, token: string, now: nat)
    ensures var out := Next(b, CreateLink(p, days, l, token, now));
            if days < 1 || days > 30 then out == Out(b, Invalid)
            else if !b.active then out == Out(b, NotFound)
            else if !PlanOpen(b) then out == Out(b, Conflict)
            else if !Takes(b, p) then out == Out(b, Invalid)
            else if HasRead(b, p) then out == Out(b, Conflict)
            else if l in b.links || (exists k :: k in b.links && b.links[k].token == token) then out == Out(b, Broken)
            else
              && out.reply == Done && out.board == b.(links := out.board.links)
              && out.board.links.Keys == b.links.Keys + {l}
              && out.board.links[l] == Link(p, token, Fingerprint(b.info, b.lines, b.parties), now + days * 86_400,
                                            false, None, "", None)
              && (forall k :: k in b.links ==>
                    out.board.links[k] == if b.links[k].party == p then b.links[k].(revoked := true) else b.links[k])
  {
  }

  lemma RevokeLeaves(b: Board, l: Id)
    ensures var out := Next(b, Revoke(l));
            if !b.active || l !in b.links then out == Out(b, NotFound)
            else
              && out.reply == Done && out.board == b.(links := out.board.links) && OnlyRow(b.links, out.board.links, l)
              && out.board.links[l] == b.links[l].(revoked := true)
  {
  }

  /** A working link's token opens a context until the link expires, for the unchanged open plan or to see
      the reading already given. */
  lemma ExchangeLeaves(b: Board, l: Id, token: string, c: Id, browser: string, now: nat)
    ensures var out := Next(b, Exchange(l, token, c, browser, now));
            if !Works(b, l, now) || b.links[l].token != token then out == Out(b, NotFound)
            else if b.links[l].submission.None? && !(PlanOpen(b) && PlanUnchanged(b, l)) then out == Out(b, Conflict)
            else if c in b.contexts then out == Out(b, Broken)
            else
              && out.reply == Done && out.board == b.(contexts := out.board.contexts)
              && OnlyRow(b.contexts, out.board.contexts, c)
              && out.board.contexts[c] == Context(l, browser, b.links[l].expires)
  {
  }

  /** The submission comes from the browser that opened the context, in time, through a working link. */
  predicate Heard(b: Board, browser: string, body: Body, now: nat) {
    && body.contextId in b.contexts && b.contexts[body.contextId].browser == browser
    && now < b.contexts[body.contextId].expires && Works(b, b.contexts[body.contextId].link, now)
  }

  predicate HasLine(lines: seq<Line>, id: Id) { exists k :: 0 <= k < |lines| && lines[k].id == id }

  predicate HasQuantity(rs: seq<Reading>, id: Id) { exists i :: 0 <= i < |rs| && rs[i].lineId == id }

  /** Exactly the plan's lines, each once, counted ones in whole numbers. */
  predicate Complete(b: Board, rs: seq<Reading>) {
    && (forall i :: 0 <= i < |rs| ==> HasLine(b.lines, rs[i].lineId))
    && (forall k :: 0 <= k < |b.lines| ==> HasQuantity(rs, b.lines[k].id))
    && (forall i, j :: 0 <= i < j < |rs| ==> rs[i].lineId != rs[j].lineId)
    && (forall i, k :: 0 <= i < |rs| && 0 <= k < |b.lines| && b.lines[k].id == rs[i].lineId ==>
          b.lines[k].counted && rs[i].quantity.Some? ==> rs[i].quantity.value == rs[i].quantity.value.Floor as real)
  }

  /** The first submission through a link is recorded exactly if the plan is open and unchanged since the
      link and the form, its participant has no reading and the readings are complete. */
  lemma SubmitLeaves(b: Board, browser: string, body: Body, now: nat)
    requires Heard(b, browser, body, now) && b.links[b.contexts[body.contextId].link].submission.None?
    ensures var l := b.contexts[body.contextId].link;
            var out := Next(b, Submit(browser, body, now));
            if PlanOpen(b) && PlanUnchanged(b, l) && body.fingerprint == b.links[l].fingerprint
               && !HasRead(b, b.links[l].party) && Takes(b, b.links[l].party) && Complete(b, body.readings)
            then
              && out.reply == Done
              && out.board == b.(submissions := out.board.submissions, links := out.board.links)
              && out.board.submissions == b.submissions +
                   [Submission(b.links[l].party, 1, Some(l), Fingerprint(b.info, b.lines, b.parties), body.readings)]
              && OnlyRow(b.links, out.board.links, l)
              && out.board.links[l] == b.links[l].(submission := Some(|b.submissions|), requestId := body.requestId,
                                                   digest := Some(body))
            else out.board == b && out.reply in {Conflict, Invalid}
  {
    CompleteIsValid(b, body.readings);
    var p := b.links[b.contexts[body.contextId].link].party;
    if !HasReading(b.submissions, p) { NoneCounted(b.submissions, p); }
    hide Complete, ReadingsValid, CountOf;
  }

  lemma CompleteIsValid(b: Board, rs: seq<Reading>)
    ensures ReadingsValid(b.lines, rs) <==> Complete(b, rs)
  {
    assert forall id :: HasLine(b.lines, id) <==> KnowsLine(b.lines, id);
    assert forall id :: HasQuantity(rs, id) <==> NamesLine(rs, id);
    hide HasLine, KnowsLine, HasQuantity, NamesLine;
  }

  /** A later one is answered with the stored reading if it is identical, else it conflicts; one that is
      not heard is not found; none of these changes anything. */
  lemma OtherSubmissionsLeave(b: Board, browser: string, body: Body, now: nat)
    requires Heard(b, browser, body, now) ==> b.links[b.contexts[body.contextId].link].submission.Some?
    ensures Next(b, Submit(browser, body, now)) ==
              Out(b, if !Heard(b, browser, body, now) then NotFound
                     else if b.links[b.contexts[body.contextId].link].requestId == body.requestId
                             && b.links[b.contexts[body.contextId].link].digest == Some(body) then Replayed
                     else Conflict)
  {
  }

  /** Staff record readings until the plan is cancelled or final, a revision only with a reason. */
  lemma StaffLeaves(b: Board, p: Id, reasoned: bool, rs: seq<Reading>)
    ensures var out := Next(b, Staff(p, reasoned, rs));
            if !b.active then out == Out(b, NotFound)
            else if b.cancelled || b.final then out == Out(b, Conflict)
            else if !Takes(b, p) || (HasRead(b, p) && !reasoned) || !Complete(b, rs) then out == Out(b, Invalid)
            else
              && out.reply == Done
              && out.board == b.(submissions := b.submissions +
                   [Submission(p, CountOf(b.submissions, p) + 1, None, Fingerprint(b.info, b.lines, b.parties), rs)])
  {
    CompleteIsValid(b, rs);
    hide Complete, ReadingsValid, CountOf;
  }

  /** A step records at most one reading, as its participant's next revision. */
  lemma RevisionStep(b: Board, a: Act)
    ensures var subs := Next(b, a).board.submissions;
            subs == b.submissions
            || (|subs| == |b.submissions| + 1 && subs[..|b.submissions|] == b.submissions
                && subs[|b.submissions|].revision == CountOf(b.submissions, subs[|b.submissions|].party) + 1)
  {
  }

  /** In every run the k-th reading is numbered by how many its participant had before it. */
  lemma {:induction false} RevisionsAreCounted(b: Board, acts: seq<Act>, k: nat)
    requires b.submissions == [] && k < |Run(b, acts).submissions|
    ensures var subs := Run(b, acts).submissions;
            subs[k].revision == CountOf(subs[..k], subs[k].party) + 1
  {
    if acts != [] {
      var n := |acts| - 1;
      var before := Run(b, acts[..n]).submissions;
      RevisionStep(Run(b, acts[..n]), acts[n]);
      hide Next;
      if k < |before| {
        RevisionsAreCounted(b, acts[..n], k);
        assert Run(b, acts).submissions[..k] == before[..k];
        assert Run(b, acts).submissions[k] == before[k];
      }
    }
  }

  /** A revoked link is dead: whatever follows, its token opens nothing, and nothing submitted from a
      context it ever opened is recorded. */
  lemma RevokedIsDead(b: Board, l: Id, acts: seq<Act>, late: Act)
    requires Next(b, Revoke(l)).reply == Done
    ensures var now := Run(Next(b, Revoke(l)).board, acts);
            && (late.Exchange? && late.l == l ==> Next(now, late) == Out(now, NotFound))
            && (late.Submit? && late.body.contextId in now.contexts && now.contexts[late.body.contextId].link == l ==>
                  Next(now, late) == Out(now, NotFound))
  {
    RevokeLeaves(b, l);
    RunIsForward(Next(b, Revoke(l)).board, acts);
    var now := Run(Next(b, Revoke(l)).board, acts);
    assert now.links[l].revoked;
    if late.Exchange? && late.l == l {
      ExchangeLeaves(now, l, late.token, late.c, late.browser, late.now);
    }
    if late.Submit? && late.body.contextId in now.contexts && now.contexts[late.body.contextId].link == l {
      OtherSubmissionsLeave(now, late.browser, late.body, late.now);
    }
    hide Next, Run;
  }
}
