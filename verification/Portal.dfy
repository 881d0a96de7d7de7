/** The agency portal of one measurement plan: links, browser contexts and the one reading a guest may
    record through a link. */
module Portal {
  import opened Wrappers
  import opened Runs

  type Id = string

  datatype PlanInfo = PlanInfo(id: Id, callId: Id, vesselName: string, callReference: string, title: string,
                               location: string, scheduledAt: string)

  datatype Line = Line(id: Id, description: string, counted: bool, details: string)

  datatype Party = Party(id: Id, name: string, role: string, details: string)

  /** What a fingerprint digests; the digest is taken as injective. */
  datatype Fingerprint = Fingerprint(info: PlanInfo, lines: seq<Line>, parties: seq<Party>)

  datatype Reading = Reading(lineId: Id, quantity: Option<real>, note: string)

  /** The validated body of a guest submission; its digest is taken as injective. */
  datatype Body = Body(contextId: Id, requestId: string, fingerprint: Fingerprint, readings: seq<Reading>,
                       representative: string, notes: string)

  /** A recorded reading; `via` is the link it came through, None for staff. */
  datatype Submission = Submission(party: Id, revision: nat, via: Option<Id>, snapshot: Fingerprint,
                                   readings: seq<Reading>)

  /** `submission` is the reading's place in the table. */
  datatype Link = Link(party: Id, token: string, fingerprint: Fingerprint, expires: nat, revoked: bool,
                       submission: Option<nat>, requestId: string, digest: Option<Body>)

  datatype Context = Context(link: Id, browser: string, expires: nat)

  datatype Board = Board(active: bool, cancelled: bool, callCancelled: bool, final: bool,
                         info: PlanInfo, lines: seq<Line>, parties: seq<Party>,
                         submissions: seq<Submission>, links: map<Id, Link>, contexts: map<Id, Context>)

  datatype Reply = Done | Replayed | NotFound | Conflict | Invalid | Broken

  datatype Out = Out(board: Board, reply: Reply)

  const DAY: nat := 86_400

  // ---- checks ----

  function FingerprintOf(b: Board): Fingerprint { Fingerprint(b.info, b.lines, b.parties) }

  /** `assert_open`. */
  predicate IsOpen(b: Board) { !b.cancelled && !b.callCancelled && !b.final }

  predicate HasParty(b: Board, p: Id) {
    exists i :: 0 <= i < |b.parties| && b.parties[i].id == p
  }

  predicate HasReading(subs: seq<Submission>, p: Id) {
    exists k :: 0 <= k < |subs| && subs[k].party == p
  }

  predicate TokenUsed(links: map<Id, Link>, token: string) {
    exists l :: l in links && links[l].token == token
  }

  /** `locked_link` finds the link usable. */
  predicate Usable(b: Board, l: Id, now: nat) {
    b.active && l in b.links && !b.links[l].revoked && b.links[l].expires > now
  }

  predicate NamesLine(rs: seq<Reading>, id: Id) {
    exists i :: 0 <= i < |rs| && rs[i].lineId == id
  }

  predicate KnowsLine(lines: seq<Line>, id: Id) {
    exists i :: 0 <= i < |lines| && lines[i].id == id
  }

  /** `validate_lines`: every cargo line exactly once, counted lines in whole numbers. */
  predicate ReadingsValid(lines: seq<Line>, rs: seq<Reading>) {
    && (forall i, j :: 0 <= i < j < |rs| ==> rs[i].lineId != rs[j].lineId)
    && (forall i :: 0 <= i < |rs| ==> KnowsLine(lines, rs[i].lineId))
    && (forall i :: 0 <= i < |lines| ==> NamesLine(rs, lines[i].id))
    && (forall i, k :: 0 <= i < |rs| && 0 <= k < |lines| && lines[k].id == rs[i].lineId ==> Whole(lines[k], rs[i]))
  }

  predicate Whole(line: Line, r: Reading) {
    line.counted && r.quantity.Some? ==> r.quantity.value.Floor as real == r.quantity.value
  }

  function CountOf(subs: seq<Submission>, p: Id): nat {
    if subs == [] then 0
    else CountOf(subs[..|subs| - 1], p) + (if subs[|subs| - 1].party == p then 1 else 0)
  }

  // ---- operations ----

  function RevokeFor(links: map<Id, Link>, p: Id): (r: map<Id, Link>)
    ensures r.Keys == links.Keys
    ensures forall l :: l in links ==> r[l] == if links[l].party == p then links[l].(revoked := true) else links[l]
  {
    map l | l in links :: if links[l].party == p then links[l].(revoked := true) else links[l]
  }

  /** `CreateAgencyLinkView.post`. */
  function AfterCreateLink(b: Board, p: Id, days: nat, l: Id, token: string, now: nat): Out {
    if days < 1 || days > 30 then Out(b, Invalid)
    else if !b.active then Out(b, NotFound)
    else if !IsOpen(b) then Out(b, Conflict)
    else if !HasParty(b, p) then Out(b, Invalid)
    else if HasReading(b.submissions, p) then Out(b, Conflict)
    else if l in b.links || TokenUsed(b.links, token) then Out(b, Broken)
    else
      Out(b.(links := RevokeFor(b.links, p)[l := Link(p, token, FingerprintOf(b), now + days * DAY, false, None, "", None)]),
          Done)
  }

  function AfterRevoke(b: Board, l: Id): Out {
    if !b.active || l !in b.links then Out(b, NotFound)
    else Out(b.(links := b.links[l := b.links[l].(revoked := true)]), Done)
  }

  /** `PortalExchangeView.post`; `l` is the link the token's digest finds. */
  function AfterExchange(b: Board, l: Id, token: string, c: Id, browser: string, now: nat): Out {
    if !Usable(b, l, now) || b.links[l].token != token then Out(b, NotFound)
    else if b.links[l].submission.None? && (!IsOpen(b) || FingerprintOf(b) != b.links[l].fingerprint) then Out(b, Conflict)
    else if c in b.contexts then Out(b, Broken)
    else Out(b.(contexts := b.contexts[c := Context(l, browser, b.links[l].expires)]), Done)
  }

  /** `create_submission`, as far as the portal needs it: validate, then append the next revision. */
  function Recorded(b: Board, p: Id, via: Option<Id>, rs: seq<Reading>): seq<Submission> {
    b.submissions + [Submission(p, CountOf(b.submissions, p) + 1, via, FingerprintOf(b), rs)]
  }

  /** The checks of `PortalSubmissionView.post` in their order; `Done` goes on to record. */
  function SubmitCheck(b: Board, browser: string, body: Body, now: nat): Reply {
    if body.contextId !in b.contexts || b.contexts[body.contextId].browser != browser
       || b.contexts[body.contextId].expires <= now then NotFound
    else
      var l := b.contexts[body.contextId].link;
      if !Usable(b, l, now) then NotFound
      else if b.links[l].submission.Some? then
        if b.links[l].requestId == body.requestId && b.links[l].digest == Some(body) then Replayed else Conflict
      else if !IsOpen(b) then Conflict
      else if body.fingerprint != b.links[l].fingerprint || FingerprintOf(b) != b.links[l].fingerprint then Conflict
      else if HasReading(b.submissions, b.links[l].party) then Conflict
      else if !HasParty(b, b.links[l].party) || !ReadingsValid(b.lines, body.readings) then Invalid
      else Done
  }

  /** `PortalSubmissionView.post`. */
  function AfterSubmit(b: Board, browser: string, body: Body, now: nat): Out {
    var check := SubmitCheck(b, browser, body, now);
    if check != Done then Out(b, check)
    else
      var l := b.contexts[body.contextId].link;
      var link := b.links[l].(submission := Some(|b.submissions|), requestId := body.requestId, digest := Some(body));
      Out(b.(submissions := Recorded(b, link.party, Some(l), body.readings), links := b.links[l := link]), Done)
  }

  /** A staff reading, first or revision. */
  function AfterStaff(b: Board, p: Id, reasoned: bool, rs: seq<Reading>): Out {
    if !b.active then Out(b, NotFound)
    else if b.cancelled || b.final then Out(b, Conflict)
    else if !HasParty(b, p) || (HasReading(b.submissions, p) && !reasoned) || !ReadingsValid(b.lines, rs) then Out(b, Invalid)
    else Out(b.(submissions := Recorded(b, p, None, rs)), Done)
  }

  datatype Act =
    | CreateLink(p: Id, days: nat, l: Id, token: string, now: nat)
    | Revoke(l: Id)
    | Exchange(l: Id, token: string, c: Id, browser: string, now: nat)
    | Submit(browser: string, body: Body, now: nat)
    | Staff(p: Id, reasoned: bool, readings: seq<Reading>)
    | EditPlan(info: PlanInfo, lines: seq<Line>, parties: seq<Party>)
    | SetStage(active: bool, cancelled: bool, callCancelled: bool, final: bool)

  function Next(b: Board, a: Act): Out {
    match a
    case CreateLink(p, days, l, token, now) => AfterCreateLink(b, p, days, l, token, now)
    case Revoke(l) => AfterRevoke(b, l)
    case Exchange(l, token, c, browser, now) => AfterExchange(b, l, token, c, browser, now)
    case Submit(browser, body, now) => AfterSubmit(b, browser, body, now)
    case Staff(p, reasoned, readings) => AfterStaff(b, p, reasoned, readings)
    case EditPlan(info, lines, parties) => Out(b.(info := info, lines := lines, parties := parties), Done)
    case SetStage(active, cancelled, callCancelled, final) =>
      Out(b.(active := active, cancelled := cancelled, callCancelled := callCancelled, final := final), Done)
  }

  // ---- the invariant ----

  /** A link's reading, request id and digest are set together, and the reading is the one that came
      through the link, for its participant, against the plan as it stood when the link was created. */
  predicate LinkOk(subs: seq<Submission>, link: Link, l: Id) {
    && (link.submission.Some? <==> link.digest.Some?)
    && (link.submission.None? ==> link.requestId == "")
    && (link.digest.Some? ==> link.requestId == link.digest.value.requestId)
    && (link.submission.Some? ==>
          link.submission.value < |subs| && subs[link.submission.value].via == Some(l)
          && subs[link.submission.value].party == link.party
          && subs[link.submission.value].snapshot == link.fingerprint
          && subs[link.submission.value].readings == link.digest.value.readings)
  }

  ghost predicate LinksOk(subs: seq<Submission>, links: map<Id, Link>) {
    forall l :: l in links ==> LinkOk(subs, links[l], l)
  }

  ghost predicate OneCurrent(links: map<Id, Link>) {
    forall a, b :: a in links && b in links && a != b && links[a].party == links[b].party ==>
      links[a].revoked || links[b].revoked
  }

  predicate FirstReading(subs: seq<Submission>, k: int)
    requires 0 <= k < |subs|
  {
    forall j :: 0 <= j < k ==> subs[j].party != subs[k].party
  }

  /** A guest reading is its participant's first, and its link records it. */
  ghost predicate GuestsOk(subs: seq<Submission>, links: map<Id, Link>) {
    forall k :: 0 <= k < |subs| && subs[k].via.Some? ==>
      && subs[k].via.value in links && links[subs[k].via.value].submission == Some(k)
      && FirstReading(subs, k) && subs[k].revision == 1
  }

  ghost predicate Ok(b: Board) {
    LinksOk(b.submissions, b.links) && OneCurrent(b.links) && GuestsOk(b.submissions, b.links)
  }

  lemma {:induction false} NoneCounted(subs: seq<Submission>, p: Id)
    requires !HasReading(subs, p)
    ensures CountOf(subs, p) == 0
  {
    if subs != [] {
      var n := |subs| - 1;
      assert subs[n].party != p;
      forall k | 0 <= k < n ensures subs[..n][k].party != p { assert subs[k].party != p; }
      NoneCounted(subs[..n], p);
    }
  }

  lemma CreateKeepsOk(b: Board, p: Id, days: nat, l: Id, token: string, now: nat)
    requires Ok(b)
    ensures Ok(AfterCreateLink(b, p, days, l, token, now).board)
  {
  }

  lemma RevokeKeepsOk(b: Board, l: Id)
    requires Ok(b)
    ensures Ok(AfterRevoke(b, l).board)
  {
  }

  lemma SubmitKeepsLinks(b: Board, browser: string, body: Body, now: nat)
    requires Ok(b)
    ensures var after := AfterSubmit(b, browser, body, now).board;
            LinksOk(after.submissions, after.links) && OneCurrent(after.links)
  {
  }

  lemma SubmitKeepsGuests(b: Board, browser: string, body: Body, now: nat)
    requires Ok(b)
    ensures var after := AfterSubmit(b, browser, body, now).board;
            GuestsOk(after.submissions, after.links)
  {
    if SubmitCheck(b, browser, body, now) == Done {
      var p := b.links[b.contexts[body.contextId].link].party;
      NoneCounted(b.submissions, p);
      var after := AfterSubmit(b, browser, body, now).board;
      var n := |b.submissions|;
      assert forall j :: 0 <= j < n ==> after.submissions[j] == b.submissions[j];
      assert forall j :: 0 <= j < n ==> after.submissions[j].party != p;
      forall k | 0 <= k < n && after.submissions[k].via.Some?
        ensures after.submissions[k].via.value in after.links
        ensures after.links[after.submissions[k].via.value].submission == Some(k)
        ensures FirstReading(after.submissions, k) && after.submissions[k].revision == 1
      {
        assert FirstReading(b.submissions, k);
      }
    }
  }

  lemma StaffKeepsOk(b: Board, p: Id, reasoned: bool, rs: seq<Reading>)
    requires Ok(b)
    ensures Ok(AfterStaff(b, p, reasoned, rs).board)
  {
  }

  lemma NextKeepsOk(b: Board, a: Act)
    requires Ok(b)
    ensures Ok(Next(b, a).board)
  {
    match a
    case CreateLink(p, days, l, token, now) => CreateKeepsOk(b, p, days, l, token, now);
    case Revoke(l) => RevokeKeepsOk(b, l);
    case Exchange(_, _, _, _, _) =>
    case Submit(browser, body, now) =>
      SubmitKeepsLinks(b, browser, body, now);
      SubmitKeepsGuests(b, browser, body, now);
    case Staff(p, reasoned, readings) => StaffKeepsOk(b, p, reasoned, readings);
    case EditPlan(_, _, _) =>
    case SetStage(_, _, _, _) =>
  }

  ghost function Step(): (Board, Act) -> Board {
    (b, a) => Next(b, a).board
  }

  ghost function Run(b: Board, acts: seq<Act>): Board {
    Fold(Step(), b, acts)
  }

  lemma {:induction false} RunKeepsOk(b: Board, acts: seq<Act>)
    requires Ok(b)
    ensures Ok(Run(b, acts))
  {
    if acts != [] {
      var n := |acts| - 1;
      RunKeepsOk(b, acts[..n]);
      NextKeepsOk(Run(b, acts[..n]), acts[n]);
    }
  }

  /** In every run a participant has at most one unrevoked link, a link's reading, request id and digest
      come together, and a guest reading is its participant's first, recorded by exactly one link and
      made against the plan, lines and participants as they stood when that link was created. */
  lemma GuestReadings(b: Board, acts: seq<Act>, k: nat, l: Id, m: Id)
    requires Ok(b) && k < |Run(b, acts).submissions| && Run(b, acts).submissions[k].via == Some(l)
    ensures var now := Run(b, acts);
            && l in now.links && now.links[l].submission == Some(k)
            && now.submissions[k].party == now.links[l].party
            && now.submissions[k].snapshot == now.links[l].fingerprint
            && now.links[l].digest.Some? && now.links[l].digest.value.readings == now.submissions[k].readings
            && FirstReading(now.submissions, k) && now.submissions[k].revision == 1
            && (m in now.links && now.links[m].submission == Some(k) ==> m == l)
            && (m in now.links && m != l && now.links[m].party == now.links[l].party ==>
                  now.links[m].revoked || now.links[l].revoked)
  {
    RunKeepsOk(b, acts);
    var now := Run(b, acts);
    assert LinkOk(now.submissions, now.links[l], l);
    if m in now.links {
      assert LinkOk(now.submissions, now.links[m], m);
    }
  }

  // ---- set once ----

  /** A link keeps what it was created with; a revocation stays, and so does a recorded reading with its
      request id and digest. */
  predicate LinkForward(a: Link, b: Link) {
    && b.party == a.party && b.token == a.token && b.fingerprint == a.fingerprint && b.expires == a.expires
    && (a.revoked ==> b.revoked)
    && (a.submission.Some? ==> b.submission == a.submission && b.requestId == a.requestId && b.digest == a.digest)
  }

  ghost predicate LinksForward(a: map<Id, Link>, b: map<Id, Link>) {
    forall l :: l in a ==> l in b && LinkForward(a[l], b[l])
  }

  /** And readings and contexts are only added. */
  ghost predicate Forward(a: Board, b: Board) {
    && a.submissions <= b.submissions
    && LinksForward(a.links, b.links)
    && (forall c :: c in a.contexts ==> c in b.contexts && b.contexts[c] == a.contexts[c])
  }

  lemma InsertIsForward(links: map<Id, Link>, p: Id, l: Id, row: Link)
    requires l !in links
    ensures LinksForward(links, RevokeFor(links, p)[l := row])
  {
  }

  lemma CreateIsForward(b: Board, p: Id, days: nat, l: Id, token: string, now: nat)
    ensures Forward(b, AfterCreateLink(b, p, days, l, token, now).board)
  {
    var after := AfterCreateLink(b, p, days, l, token, now).board;
    if after == b {
      assert LinksForward(b.links, b.links);
    } else {
      hide LinksForward;
      InsertIsForward(b.links, p, l, after.links[l]);
    }
  }

  lemma SubmitIsForward(b: Board, browser: string, body: Body, now: nat)
    ensures Forward(b, AfterSubmit(b, browser, body, now).board)
  {
  }

  lemma OthersAreForward(b: Board, a: Act)
    requires !a.CreateLink? && !a.Submit?
    ensures Forward(b, Next(b, a).board)
  {
  }

  lemma NextIsForward(b: Board, a: Act)
    ensures Forward(b, Next(b, a).board)
  {
    hide Forward;
    match a
    case CreateLink(p, days, l, token, now) => CreateIsForward(b, p, days, l, token, now);
    case Submit(browser, body, now) => SubmitIsForward(b, browser, body, now);
    case _ => OthersAreForward(b, a);
  }

  lemma {:induction false} RunIsForward(b: Board, acts: seq<Act>)
    ensures Forward(b, Run(b, acts))
  {
    if acts != [] {
      var n := |acts| - 1;
      RunIsForward(b, acts[..n]);
      NextIsForward(Run(b, acts[..n]), acts[n]);
    }
  }

  /** A link is created against the plan as it is then. */
  lemma FingerprintAtCreation(b: Board, a: Act, acts: seq<Act>)
    requires a.CreateLink? && Next(b, a).reply == Done
    ensures var now := Run(Next(b, a).board, acts);
            a.l in now.links && now.links[a.l].fingerprint == FingerprintOf(b) && now.links[a.l].party == a.p
  {
    RunIsForward(Next(b, a).board, acts);
  }

  /** After a guest's reading is recorded, whatever follows, a submission through a context of that link
      changes nothing: the identical request is answered as before, and any other is a conflict, until
      the link or the context can no longer be used at all. */
  lemma RetriesChangeNothing(b: Board, first: Act, acts: seq<Act>, again: Act)
    requires first.Submit? && Next(b, first).reply == Done
    requires again.Submit? && again.body.contextId in Run(Next(b, first).board, acts).contexts
    requires Run(Next(b, first).board, acts).contexts[again.body.contextId].link == b.contexts[first.body.contextId].link
    ensures var now := Run(Next(b, first).board, acts);
            && Next(now, again).board == now
            && Next(now, again).reply in {Replayed, Conflict, NotFound}
            && (Next(now, again).reply == Replayed ==> again.body == first.body)
            && (Next(now, again).reply == Conflict ==> again.body != first.body)
  {
    RunIsForward(Next(b, first).board, acts);
  }

  /** The identical retry within the link's life is answered. */
  lemma IdenticalRetryIsAnswered(b: Board, first: Act, acts: seq<Act>, later: nat)
    requires first.Submit? && Next(b, first).reply == Done
    requires var now := Run(Next(b, first).board, acts);
             var l := b.contexts[first.body.contextId].link;
             Usable(now, l, later) && b.contexts[first.body.contextId].expires > later
    ensures var now := Run(Next(b, first).board, acts);
            Next(now, Submit(first.browser, first.body, later)) == Out(now, Replayed)
  {
    RunIsForward(Next(b, first).board, acts);
  }

  /** And no other link brings the participant a second guest reading. */
  lemma OneGuestReadingEach(b: Board, acts: seq<Act>, j: nat, k: nat)
    requires Ok(b) && j < |Run(b, acts).submissions| && k < |Run(b, acts).submissions|
    requires Run(b, acts).submissions[j].via.Some? && Run(b, acts).submissions[k].via.Some?
    requires Run(b, acts).submissions[j].party == Run(b, acts).submissions[k].party
    ensures j == k
  {
    RunKeepsOk(b, acts);
    var subs := Run(b, acts).submissions;
    assert FirstReading(subs, j) && FirstReading(subs, k);
  }

  // ---- what a guest sees of the others ----

  predicate IsLatest(subs: seq<Submission>, k: int)
    requires 0 <= k < |subs|
  {
    forall j :: k < j < |subs| ==> subs[j].party != subs[k].party
  }

  /** `latest_submissions`: each participant's last reading. */
  method LatestSubmissions(subs: seq<Submission>) returns (latest: map<Id, nat>)
    ensures forall p :: p in latest <==> HasReading(subs, p)
    ensures forall p :: p in latest ==> latest[p] < |subs| && subs[latest[p]].party == p && IsLatest(subs, latest[p])
  {
    latest := map[];
    for k := 0 to |subs|
      invariant forall p :: p in latest ==> latest[p] < k && subs[latest[p]].party == p
      invariant forall p, j :: p in latest && latest[p] < j < k ==> subs[j].party != p
      invariant forall j :: 0 <= j < k ==> subs[j].party in latest
    {
      latest := latest[subs[k].party := k];
    }
  }

  /** `completedPeers`: nothing before the link's own reading; then the others' latest readings. */
  method CompletedPeers(b: Board, l: Id) returns (peers: set<nat>)
    requires l in b.links
    ensures b.links[l].submission.None? ==> peers == {}
    ensures forall k :: k in peers ==>
              k < |b.submissions| && IsLatest(b.submissions, k) && b.submissions[k].party != b.links[l].party
    ensures b.links[l].submission.Some? ==>
              forall p :: HasReading(b.submissions, p) && p != b.links[l].party ==>
                exists k :: k in peers && b.submissions[k].party == p
    ensures forall j, k :: j in peers && k in peers && b.submissions[j].party == b.submissions[k].party ==> j == k
  {
    if b.links[l].submission.None? { return {}; }
    var latest := LatestSubmissions(b.submissions);
    peers := set p | p in latest && p != b.links[l].party :: latest[p];
    forall p | HasReading(b.submissions, p) && p != b.links[l].party
      ensures exists k :: k in peers && b.submissions[k].party == p
    {
      assert latest[p] in peers;
    }
  }

  // ---- the endpoints, on the tables ----

  class Desk {
    var active: bool
    var cancelled: bool
    var callCancelled: bool
    var final: bool
    var info: PlanInfo
    var lines: seq<Line>
    var parties: seq<Party>
    var submissions: seq<Submission>
    var links: map<Id, Link>
    var contexts: map<Id, Context>

    function View(): Board
      reads this
    {
      Board(active, cancelled, callCancelled, final, info, lines, parties, submissions, links, contexts)
    }

    /** A new plan of an active organization. */
    constructor (plan: PlanInfo, cargo: seq<Line>, agencies: seq<Party>)
      ensures View() == Board(true, false, false, false, plan, cargo, agencies, [], map[], map[])
    {
      active, cancelled, callCancelled, final := true, false, false, false;
      info, lines, parties := plan, cargo, agencies;
      submissions, links, contexts := [], map[], map[];
    }

    /** `CreateAgencyLinkView.post`. */
    method CreateLink(p: Id, days: nat, l: Id, token: string, now: nat) returns (reply: Reply)
      modifies this`links
      ensures Out(View(), reply) == AfterCreateLink(old(View()), p, days, l, token, now)
    {
      if days < 1 || days > 30 { return Invalid; }
      if !active { return NotFound; }
      if !IsOpen(View()) { return Conflict; }
      if !HasParty(View(), p) { return Invalid; }
      if HasReading(submissions, p) { return Conflict; }
      if l in links || TokenUsed(links, token) { return Broken; }
      links := RevokeFor(links, p);
      links := links[l := Link(p, token, FingerprintOf(View()), now + days * DAY, false, None, "", None)];
      reply := Done;
    }

    /** `RevokeAgencyLinkView.post`; revoking twice is revoking once. */
    method RevokeLink(l: Id) returns (reply: Reply)
      modifies this`links
      ensures Out(View(), reply) == AfterRevoke(old(View()), l)
    {
      if !active || l !in links { return NotFound; }
      if !links[l].revoked { links := links[l := links[l].(revoked := true)]; }
      assert links == old(links)[l := old(links)[l].(revoked := true)];
      reply := Done;
    }

    /** `PortalExchangeView.post`. */
    method ExchangeToken(l: Id, token: string, c: Id, browser: string, now: nat) returns (reply: Reply)
      modifies this`contexts
      ensures Out(View(), reply) == AfterExchange(old(View()), l, token, c, browser, now)
    {
      if !Usable(View(), l, now) || links[l].token != token { return NotFound; }
      if links[l].submission.None? {
        if !IsOpen(View()) { return Conflict; }
        if FingerprintOf(View()) != links[l].fingerprint { return Conflict; }
      }
      if c in contexts { return Broken; }
      contexts := contexts[c := Context(l, browser, links[l].expires)];
      reply := Done;
    }

    /** `PortalSubmissionView.post`. */
    method SubmitReading(browser: string, body: Body, now: nat) returns (reply: Reply)
      modifies this`submissions, this`links
      ensures Out(View(), reply) == AfterSubmit(old(View()), browser, body, now)
    {
      if body.contextId !in contexts { return NotFound; }
      var context := contexts[body.contextId];
      if context.browser != browser || context.expires <= now { return NotFound; }
      var l := context.link;
      if !Usable(View(), l, now) { return NotFound; }
      var link := links[l];
      if link.submission.Some? {
        if link.requestId != body.requestId || link.digest != Some(body) { return Conflict; }
        return Replayed;
      }
      if !IsOpen(View()) { return Conflict; }
      if body.fingerprint != link.fingerprint || FingerprintOf(View()) != link.fingerprint { return Conflict; }
      if HasReading(submissions, link.party) { return Conflict; }
      if !HasParty(View(), link.party) || !ReadingsValid(lines, body.readings) { return Invalid; }
      submissions := Recorded(View(), link.party, Some(l), body.readings);
      link := link.(submission := Some(|submissions| - 1));
      link := link.(requestId := body.requestId);
      link := link.(digest := Some(body));
      links := links[l := link];
      reply := Done;
    }
  }
}
