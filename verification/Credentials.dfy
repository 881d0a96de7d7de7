/** Temporary passwords, single-use action tokens and sessions of one organization's accounts. */
module Credentials {
  import opened Wrappers
  import opened Runs

  type Id = string

  /** A stored password: what `check_password` matches, and the salt and cost it was stored with. */
  datatype Hash = Hash(plain: string, salt: nat)

  datatype Standing = Working | Suspended | Removed

  datatype Account = Account(standing: Standing, provisioned: bool, verified: bool, required: bool,
                             expires: Option<nat>, password: Hash, mfa: bool)

  datatype Kind = Change | Reset | VerifyEmail | ChangeEmail

  /** `version` ties a change token to the stored password it was issued against. */
  datatype Token = Token(user: Id, kind: Kind, raw: string, version: Option<Hash>, expires: nat, used: bool)

  datatype Session = Session(user: Id, revoked: bool)

  datatype Desk = Desk(active: bool, users: map<Id, Account>, tokens: map<Id, Token>,
                       sessions: map<Id, Session>, challenges: map<Id, Session>)

  datatype Reply = Done | Refused | Broken

  datatype Out = Out(desk: Desk, reply: Reply)

  const TEMPORARY: nat := 7 * 86_400
  const CHANGE_WINDOW: nat := 300

  /** `User.is_active`, in an active organization. */
  predicate IsActive(d: Desk, u: Id) {
    d.active && u in d.users && d.users[u].standing == Working && !d.users[u].required
  }

  /** `_temporary_identity_available`. */
  predicate Available(d: Desk, u: Id, now: nat) {
    && d.active && u in d.users && d.users[u].standing == Working && d.users[u].provisioned && d.users[u].required
    && d.users[u].expires.Some? && d.users[u].expires.value > now
  }

  // ---- bulk updates ----

  /** Mark the user's unused tokens used: all of them, or those of one kind. */
  function Spend(tokens: map<Id, Token>, u: Id, kind: Option<Kind>): (r: map<Id, Token>)
    ensures r.Keys == tokens.Keys
    ensures forall t :: t in tokens ==>
              r[t] == if tokens[t].user == u && (kind.None? || kind == Some(tokens[t].kind))
                      then tokens[t].(used := true) else tokens[t]
  {
    map t | t in tokens ::
      if tokens[t].user == u && (kind.None? || kind == Some(tokens[t].kind)) then tokens[t].(used := true) else tokens[t]
  }

  /** Delete the user's unused tokens of one kind. */
  function Discard(tokens: map<Id, Token>, u: Id, kind: Kind): (r: map<Id, Token>)
    ensures forall t :: t in r <==> t in tokens && !(tokens[t].user == u && tokens[t].kind == kind && !tokens[t].used)
    ensures forall t :: t in r ==> r[t] == tokens[t]
  {
    map t | t in tokens && !(tokens[t].user == u && tokens[t].kind == kind && !tokens[t].used) :: tokens[t]
  }

  function DiscardUnused(tokens: map<Id, Token>): (r: map<Id, Token>)
    ensures forall t :: t in r <==> t in tokens && tokens[t].used
    ensures forall t :: t in r ==> r[t] == tokens[t]
  {
    map t | t in tokens && tokens[t].used :: tokens[t]
  }

  /** `revoke_sessions`, keeping one session if asked. */
  function Revoke(sessions: map<Id, Session>, u: Id, keep: Option<Id>): (r: map<Id, Session>)
    ensures r.Keys == sessions.Keys
    ensures forall s :: s in sessions ==>
              r[s] == if sessions[s].user == u && keep != Some(s) then sessions[s].(revoked := true) else sessions[s]
  {
    map s | s in sessions ::
      if sessions[s].user == u && keep != Some(s) then sessions[s].(revoked := true) else sessions[s]
  }

  function RevokeEvery(sessions: map<Id, Session>): (r: map<Id, Session>)
    ensures r.Keys == sessions.Keys
    ensures forall s :: s in sessions ==> r[s] == sessions[s].(revoked := true)
  {
    map s | s in sessions :: sessions[s].(revoked := true)
  }

  predicate RawUsed(tokens: map<Id, Token>, raw: string) {
    exists t :: t in tokens && tokens[t].raw == raw
  }

  function Earlier(a: nat, b: nat): nat { if a <= b then a else b }

  // ---- operations ----

  function AfterProvision(d: Desk, u: Id, password: Hash, now: nat): Out {
    if u in d.users then Out(d, Refused)
    else Out(d.(users := d.users[u := Account(Working, true, false, true, Some(now + TEMPORARY), password, false)]), Done)
  }

  /** An account by invitation or approved join request. */
  function AfterJoin(d: Desk, u: Id, password: Hash): Out {
    if u in d.users then Out(d, Refused)
    else Out(d.(users := d.users[u := Account(Working, false, true, false, None, password, false)]), Done)
  }

  /** `regenerate_temporary_password`. */
  function AfterRegenerate(d: Desk, actor: Id, u: Id, password: Hash, now: nat): Out {
    if !IsActive(d, actor) || u !in d.users || u == actor then Out(d, Refused)
    else if d.users[u].standing != Working || !d.users[u].provisioned || !d.users[u].required then Out(d, Refused)
    else
      Out(d.(users := d.users[u := d.users[u].(password := password, expires := Some(now + TEMPORARY))],
             tokens := Spend(d.tokens, u, None), sessions := Revoke(d.sessions, u, None),
             challenges := Revoke(d.challenges, u, None)), Done)
  }

  /** `temporary_password_challenge`; matching the password may store it afresh (`rehash`) first. */
  function AfterChallenge(d: Desk, u: Id, plain: string, rehash: Option<nat>, t: Id, raw: string, now: nat): Out {
    if !Available(d, u, now) || d.users[u].password.plain != plain then Out(d, Refused)
    else
      var kept := Discard(d.tokens, u, Change);
      if t in kept || RawUsed(kept, raw) then Out(d, Broken)
      else
        var password := if rehash.Some? then Hash(plain, rehash.value) else d.users[u].password;
        var token := Token(u, Change, raw, Some(password), Earlier(now + CHANGE_WINDOW, d.users[u].expires.value), false);
        Out(d.(users := d.users[u := d.users[u].(password := password)], tokens := kept[t := token]), Done)
  }

  predicate MayComplete(d: Desk, t: Id, raw: string, now: nat) {
    && t in d.tokens && d.tokens[t].kind == Change && !d.tokens[t].used && d.tokens[t].raw == raw
    && d.tokens[t].expires > now && Available(d, d.tokens[t].user, now)
    && d.tokens[t].version == Some(d.users[d.tokens[t].user].password)
  }

  /** `complete_temporary_password`; `valid` is the verdict of the password validators. */
  function AfterComplete(d: Desk, t: Id, raw: string, password: Hash, valid: bool, now: nat): Out {
    if !MayComplete(d, t, raw, now) || !valid then Out(d, Refused)
    else
      var u := d.tokens[t].user;
      if d.users[u].password.plain == password.plain then Out(d, Refused)
      else
        Out(d.(users := d.users[u := d.users[u].(password := password, required := false, expires := None)],
               tokens := Spend(d.tokens, u, Some(Change)), sessions := Revoke(d.sessions, u, None)), Done)
  }

  /** `issue_action_token` for the other kinds; reset links go only to accounts not awaiting a change. */
  function AfterIssue(d: Desk, u: Id, kind: Kind, t: Id, raw: string, expires: nat): Out {
    if !d.active || u !in d.users || kind == Change then Out(d, Refused)
    else if kind == Reset && (d.users[u].standing != Working || d.users[u].required) then Out(d, Refused)
    else
      var kept := Discard(d.tokens, u, kind);
      if t in kept || RawUsed(kept, raw) then Out(d, Broken)
      else Out(d.(tokens := kept[t := Token(u, kind, raw, None, expires, false)]), Done)
  }

  /** `consume_action_token` for a reset link, then `ResetPasswordView`. */
  function AfterReset(d: Desk, t: Id, raw: string, password: Hash, now: nat): Out {
    if t !in d.tokens || d.tokens[t].kind != Reset || d.tokens[t].used || d.tokens[t].raw != raw then Out(d, Refused)
    else if !d.active || d.tokens[t].user !in d.users || d.tokens[t].expires <= now then Out(d, Refused)
    else if d.users[d.tokens[t].user].required then Out(d, Refused)
    else
      var u := d.tokens[t].user;
      Out(d.(users := d.users[u := d.users[u].(password := password)],
             tokens := d.tokens[t := d.tokens[t].(used := true)], sessions := Revoke(d.sessions, u, None)), Done)
  }

  /** `ChangePasswordView`: other sessions are revoked. */
  function AfterChangePassword(d: Desk, s: Id, current: string, password: Hash): Out {
    if s !in d.sessions || d.sessions[s].revoked || !IsActive(d, d.sessions[s].user) then Out(d, Refused)
    else if d.users[d.sessions[s].user].password.plain != current then Out(d, Refused)
    else
      var u := d.sessions[s].user;
      Out(d.(users := d.users[u := d.users[u].(password := password)], sessions := Revoke(d.sessions, u, Some(s))), Done)
  }

  /** `start_session`. */
  function AfterStartSession(d: Desk, u: Id, s: Id): Out {
    if !IsActive(d, u) || !(d.users[u].verified || d.users[u].provisioned) then Out(d, Refused)
    else if s in d.sessions then Out(d, Broken)
    else Out(d.(sessions := d.sessions[s := Session(u, false)]), Done)
  }

  function Drop(challenges: map<Id, Session>, u: Id): (r: map<Id, Session>)
    ensures forall c :: c in r <==> c in challenges && !(challenges[c].user == u && !challenges[c].revoked)
    ensures forall c :: c in r ==> r[c] == challenges[c]
  {
    map c | c in challenges && !(challenges[c].user == u && !challenges[c].revoked) :: challenges[c]
  }

  /** `start_mfa_challenge`. */
  function AfterStartMfa(d: Desk, u: Id, c: Id): Out {
    if !IsActive(d, u) || !(d.users[u].verified || d.users[u].provisioned) || !d.users[u].mfa then Out(d, Refused)
    else
      var kept := Drop(d.challenges, u);
      if c in kept then Out(d, Broken) else Out(d.(challenges := kept[c := Session(u, false)]), Done)
  }

  /** An administrator's change of standing or a removal signs the account out. */
  function AfterStanding(d: Desk, u: Id, standing: Standing): Out {
    if !d.active || u !in d.users then Out(d, Refused)
    else Out(d.(users := d.users[u := d.users[u].(standing := standing)], sessions := Revoke(d.sessions, u, None)), Done)
  }

  function DropOpen(challenges: map<Id, Session>): (r: map<Id, Session>)
    ensures forall c :: c in r <==> c in challenges && challenges[c].revoked
    ensures forall c :: c in r ==> r[c] == challenges[c]
  {
    map c | c in challenges && challenges[c].revoked :: challenges[c]
  }

  /** What is spent stays; the rest goes. */
  function AfterSuspendOrg(d: Desk): Desk {
    d.(active := false, sessions := RevokeEvery(d.sessions), tokens := DiscardUnused(d.tokens),
       challenges := DropOpen(d.challenges))
  }

  datatype Act =
    | Provision(u: Id, password: Hash, now: nat)
    | Join(u: Id, password: Hash)
    | Regenerate(actor: Id, u: Id, password: Hash, now: nat)
    | Challenge(u: Id, plain: string, rehash: Option<nat>, t: Id, raw: string, now: nat)
    | Complete(t: Id, raw: string, password: Hash, valid: bool, now: nat)
    | Issue(u: Id, kind: Kind, t: Id, raw: string, until: nat)
    | ResetPassword(t: Id, raw: string, password: Hash, now: nat)
    | ChangePassword(s: Id, current: string, password: Hash)
    | StartSession(u: Id, s: Id)
    | StartMfa(u: Id, c: Id)
    | SetStanding(u: Id, standing: Standing)
    | EnrollMfa(u: Id, on: bool)
    | SuspendOrg
    | ReactivateOrg

  function Next(d: Desk, a: Act): Out {
    match a
    case Provision(u, password, now) => AfterProvision(d, u, password, now)
    case Join(u, password) => AfterJoin(d, u, password)
    case Regenerate(actor, u, password, now) => AfterRegenerate(d, actor, u, password, now)
    case Challenge(u, plain, rehash, t, raw, now) => AfterChallenge(d, u, plain, rehash, t, raw, now)
    case Complete(t, raw, password, valid, now) => AfterComplete(d, t, raw, password, valid, now)
    case Issue(u, kind, t, raw, until) => AfterIssue(d, u, kind, t, raw, until)
    case ResetPassword(t, raw, password, now) => AfterReset(d, t, raw, password, now)
    case ChangePassword(s, current, password) => AfterChangePassword(d, s, current, password)
    case StartSession(u, s) => AfterStartSession(d, u, s)
    case StartMfa(u, c) => AfterStartMfa(d, u, c)
    case SetStanding(u, standing) => AfterStanding(d, u, standing)
    case EnrollMfa(u, on) =>
      if u in d.users then Out(d.(users := d.users[u := d.users[u].(mfa := on)]), Done) else Out(d, Refused)
    case SuspendOrg => Out(AfterSuspendOrg(d), Done)
    case ReactivateOrg => Out(d.(active := true), Done)
  }

  // ---- the invariant ----

  /** An account awaits a password change exactly while its temporary password has an expiry. */
  ghost predicate AccountsOk(users: map<Id, Account>) {
    forall u :: u in users ==> (users[u].required <==> users[u].expires.Some?) && (users[u].required ==> users[u].provisioned)
  }

  /** No session and no MFA challenge of such an account is live. */
  ghost predicate SignedOut(users: map<Id, Account>, sessions: map<Id, Session>) {
    forall s :: s in sessions && !sessions[s].revoked ==>
      sessions[s].user in users && !users[sessions[s].user].required
  }

  /** An unused change token belongs to an account awaiting a change, is tied to its stored password
      and does not outlive it. */
  predicate BoundToken(users: map<Id, Account>, t: Token) {
    && t.user in users && users[t.user].required && users[t.user].expires.Some?
    && t.version == Some(users[t.user].password)
    && t.expires <= users[t.user].expires.value
  }

  ghost predicate TokensOk(users: map<Id, Account>, tokens: map<Id, Token>) {
    && (forall t :: t in tokens && tokens[t].kind == Change && !tokens[t].used ==> BoundToken(users, tokens[t]))
    && (forall a, b :: a in tokens && b in tokens && a != b && OpenChange(tokens[a]) && OpenChange(tokens[b]) ==>
          tokens[a].user != tokens[b].user)
  }

  predicate OpenChange(t: Token) { t.kind == Change && !t.used }

  ghost predicate RawsDiffer(tokens: map<Id, Token>) {
    forall a, b :: a in tokens && b in tokens && a != b ==> tokens[a].raw != tokens[b].raw
  }

  ghost predicate Ok(d: Desk) {
    && AccountsOk(d.users)
    && SignedOut(d.users, d.sessions)
    && SignedOut(d.users, d.challenges)
    && TokensOk(d.users, d.tokens)
    && RawsDiffer(d.tokens)
  }

  lemma ProvisionKeepsOk(d: Desk, u: Id, password: Hash, now: nat)
    requires Ok(d)
    ensures Ok(AfterProvision(d, u, password, now).desk)
  {
  }

  lemma JoinKeepsOk(d: Desk, u: Id, password: Hash)
    requires Ok(d)
    ensures Ok(AfterJoin(d, u, password).desk)
  {
  }

  lemma RegenerateKeepsOk(d: Desk, actor: Id, u: Id, password: Hash, now: nat)
    requires Ok(d)
    ensures Ok(AfterRegenerate(d, actor, u, password, now).desk)
  {
  }

  lemma FreshRaw(tokens: map<Id, Token>, t: Id, token: Token)
    requires RawsDiffer(tokens) && t !in tokens && !RawUsed(tokens, token.raw)
    ensures RawsDiffer(tokens[t := token])
  {
  }

  lemma ChallengeKeepsOk(d: Desk, u: Id, plain: string, rehash: Option<nat>, t: Id, raw: string, now: nat)
    requires Ok(d)
    ensures Ok(AfterChallenge(d, u, plain, rehash, t, raw, now).desk)
  {
    var out := AfterChallenge(d, u, plain, rehash, t, raw, now);
    if out.reply == Done {
      FreshRaw(Discard(d.tokens, u, Change), t, out.desk.tokens[t]);
    }
  }

  lemma CompleteKeepsOk(d: Desk, t: Id, raw: string, password: Hash, valid: bool, now: nat)
    requires Ok(d)
    ensures Ok(AfterComplete(d, t, raw, password, valid, now).desk)
  {
  }

  lemma IssueKeepsOk(d: Desk, u: Id, kind: Kind, t: Id, raw: string, until: nat)
    requires Ok(d)
    ensures Ok(AfterIssue(d, u, kind, t, raw, until).desk)
  {
  }

  lemma ResetKeepsOk(d: Desk, t: Id, raw: string, password: Hash, now: nat)
    requires Ok(d)
    ensures Ok(AfterReset(d, t, raw, password, now).desk)
  {
  }

  lemma ChangeKeepsOk(d: Desk, s: Id, current: string, password: Hash)
    requires Ok(d)
    ensures Ok(AfterChangePassword(d, s, current, password).desk)
  {
  }

  lemma SessionsKeepOk(d: Desk, u: Id, s: Id)
    requires Ok(d)
    ensures Ok(AfterStartSession(d, u, s).desk)
    ensures Ok(AfterStartMfa(d, u, s).desk)
  {
  }

  lemma StandingKeepsOk(d: Desk, u: Id, standing: Standing)
    requires Ok(d)
    ensures Ok(AfterStanding(d, u, standing).desk)
  {
  }

  lemma LifecycleKeepsOk(d: Desk)
    requires Ok(d)
    ensures Ok(AfterSuspendOrg(d)) && Ok(d.(active := true))
  {
  }

  lemma EnrollKeepsOk(d: Desk, u: Id, on: bool)
    requires Ok(d) && u in d.users
    ensures Ok(d.(users := d.users[u := d.users[u].(mfa := on)]))
  {
  }

  lemma NextKeepsOk(d: Desk, a: Act)
    requires Ok(d)
    ensures Ok(Next(d, a).desk)
  {
    hide Ok;
    match a
    case Provision(u, password, now) => ProvisionKeepsOk(d, u, password, now);
    case Join(u, password) => JoinKeepsOk(d, u, password);
    case Regenerate(actor, u, password, now) => RegenerateKeepsOk(d, actor, u, password, now);
    case Challenge(u, plain, rehash, t, raw, now) => ChallengeKeepsOk(d, u, plain, rehash, t, raw, now);
    case Complete(t, raw, password, valid, now) => CompleteKeepsOk(d, t, raw, password, valid, now);
    case Issue(u, kind, t, raw, until) => IssueKeepsOk(d, u, kind, t, raw, until);
    case ResetPassword(t, raw, password, now) => ResetKeepsOk(d, t, raw, password, now);
    case ChangePassword(s, current, password) => ChangeKeepsOk(d, s, current, password);
    case StartSession(u, s) => SessionsKeepOk(d, u, s);
    case StartMfa(u, c) => SessionsKeepOk(d, u, c);
    case SetStanding(u, standing) => StandingKeepsOk(d, u, standing);
    case EnrollMfa(u, on) => if u in d.users { EnrollKeepsOk(d, u, on); }
    case SuspendOrg => LifecycleKeepsOk(d);
    case ReactivateOrg => LifecycleKeepsOk(d);
  }

  // ---- runs ----

  ghost function Step(): (Desk, Act) -> Desk {
    (d, a) => Next(d, a).desk
  }

  ghost function Run(d: Desk, acts: seq<Act>): Desk {
    Fold(Step(), d, acts)
  }

  lemma {:induction false} RunKeepsOk(d: Desk, acts: seq<Act>)
    requires Ok(d)
    ensures Ok(Run(d, acts))
  {
    if acts != [] {
      var n := |acts| - 1;
      RunKeepsOk(d, acts[..n]);
      NextKeepsOk(Run(d, acts[..n]), acts[n]);
    }
  }

  predicate HasOpenChange(d: Desk, u: Id, t: Id) {
    t in d.tokens && d.tokens[t].user == u && OpenChange(d.tokens[t])
  }

  /** In every run an account awaiting a password change has an expiry, no live session or MFA challenge,
      and at most one unused change token, which is tied to the password now stored and expires no later
      than it; a session is refused to it. */
  lemma AwaitingChange(d: Desk, acts: seq<Act>, u: Id, s: Id, a: Id, b: Id)
    requires Ok(d) && u in Run(d, acts).users && Run(d, acts).users[u].required
    ensures var now := Run(d, acts);
            && now.users[u].expires.Some?
            && (s in now.sessions && now.sessions[s].user == u ==> now.sessions[s].revoked)
            && (s in now.challenges && now.challenges[s].user == u ==> now.challenges[s].revoked)
            && (HasOpenChange(now, u, a) ==>
                  now.tokens[a].version == Some(now.users[u].password)
                  && now.tokens[a].expires <= now.users[u].expires.value)
            && (HasOpenChange(now, u, a) && HasOpenChange(now, u, b) ==> a == b)
            && AfterStartSession(now, u, s).reply == Refused
  {
    RunKeepsOk(d, acts);
    var now := Run(d, acts);
    if a in now.tokens && OpenChange(now.tokens[a]) {
      assert BoundToken(now.users, now.tokens[a]);
    }
  }

  /** A spent token stays spent, and a cleared flag stays cleared. */
  ghost predicate Forward(a: Desk, b: Desk) {
    && (forall u :: u in a.users ==> u in b.users && (!a.users[u].required ==> !b.users[u].required))
    && (forall t :: t in a.tokens && a.tokens[t].used ==> t in b.tokens && b.tokens[t] == a.tokens[t])
  }

  lemma NextIsForward(d: Desk, a: Act)
    ensures Forward(d, Next(d, a).desk)
  {
  }

  lemma {:induction false} RunIsForward(d: Desk, acts: seq<Act>)
    ensures Forward(d, Run(d, acts))
  {
    if acts != [] {
      var n := |acts| - 1;
      RunIsForward(d, acts[..n]);
      NextIsForward(Run(d, acts[..n]), acts[n]);
    }
  }

  /** Once the password change is completed it is over: the account never awaits one again, and its
      token is refused however often it is presented. */
  lemma CompletesOnce(d: Desk, first: Act, acts: seq<Act>, again: Act)
    requires Ok(d) && first.Complete? && Next(d, first).reply == Done
    requires again.Complete? && again.t == first.t
    ensures var after := Run(Next(d, first).desk, acts);
            var u := d.tokens[first.t].user;
            && u in after.users && !after.users[u].required
            && Next(after, again) == Out(after, Refused)
  {
    var done := Next(d, first).desk;
    RunIsForward(done, acts);
    assert done.tokens[first.t].used;
  }

  /** No later request draws the key `t` for a new token. */
  predicate KeyUnused(acts: seq<Act>, t: Id) {
    forall i :: 0 <= i < |acts| ==>
      !(acts[i].Challenge? && acts[i].t == t) && !(acts[i].Issue? && acts[i].t == t)
  }

  lemma NoRevival(d: Desk, a: Act, t: Id)
    requires t in d.tokens ==> d.tokens[t].used
    requires KeyUnused([a], t)
    ensures t in Next(d, a).desk.tokens ==> Next(d, a).desk.tokens[t].used
  {
    assert [a][0] == a;
  }

  lemma {:induction false} SpentForGood(d: Desk, acts: seq<Act>, t: Id)
    requires t in d.tokens ==> d.tokens[t].used
    requires KeyUnused(acts, t)
    ensures t in Run(d, acts).tokens ==> Run(d, acts).tokens[t].used
  {
    if acts != [] {
      var n := |acts| - 1;
      SpentForGood(d, acts[..n], t);
      NoRevival(Run(d, acts[..n]), acts[n], t);
    }
  }

  /** A new temporary password invalidates every token issued before it, of any kind, for good. */
  lemma RegenerationInvalidates(d: Desk, regen: Act, acts: seq<Act>, later: Act)
    requires regen.Regenerate? && Next(d, regen).reply == Done
    requires later.Complete? || later.ResetPassword?
    requires later.t in d.tokens && d.tokens[later.t].user == regen.u && KeyUnused(acts, later.t)
    ensures var now := Run(Next(d, regen).desk, acts);
            Next(now, later) == Out(now, Refused)
  {
    SpentForGood(Next(d, regen).desk, acts, later.t);
  }

  /** The temporary password itself stops working with the change: the account can prove it no more. */
  lemma OldPasswordIsGone(d: Desk, done: Act, acts: seq<Act>, attempt: Act)
    requires Ok(d) && done.Complete? && Next(d, done).reply == Done
    requires attempt.Challenge? && attempt.u == d.tokens[done.t].user
    ensures Next(Run(Next(d, done).desk, acts), attempt).reply == Refused
    ensures Next(d, done).desk.users[d.tokens[done.t].user].password.plain != d.users[d.tokens[done.t].user].password.plain
  {
    RunIsForward(Next(d, done).desk, acts);
  }

  /** Whoever proves the temporary password and then chooses a valid, different one gets through if and
      only if it happens within five minutes and before the temporary password expires. */
  lemma ChallengeThenComplete(d: Desk, u: Id, plain: string, rehash: Option<nat>, t: Id, raw: string, now: nat,
                              later: nat, password: Hash)
    requires AfterChallenge(d, u, plain, rehash, t, raw, now).reply == Done && password.plain != plain
    ensures var out := AfterComplete(AfterChallenge(d, u, plain, rehash, t, raw, now).desk, t, raw, password, true, later);
            && (out.reply == Done <==> later < now + CHANGE_WINDOW && later < d.users[u].expires.value)
            && (out.reply == Done ==> IsActive(out.desk, u) && out.desk.users[u].password == password)
            && (out.reply != Done ==> out.desk == AfterChallenge(d, u, plain, rehash, t, raw, now).desk)
  {
  }

  // ---- the desk itself ----

  class Office {
    var active: bool
    var users: map<Id, Account>
    var tokens: map<Id, Token>
    var sessions: map<Id, Session>
    var challenges: map<Id, Session>

    ghost function View(): Desk
      reads this
    {
      Desk(active, users, tokens, sessions, challenges)
    }

    /** `regenerate_temporary_password`. */
    method Regenerate(actor: Id, u: Id, password: Hash, now: nat) returns (reply: Reply)
      modifies this
      ensures Out(View(), reply) == AfterRegenerate(old(View()), actor, u, password, now)
    {
      if !active || actor !in users || users[actor].standing != Working || users[actor].required { return Refused; }
      if u !in users || u == actor { return Refused; }
      var user := users[u];
      if user.standing != Working || !user.provisioned || !user.required { return Refused; }
      user := user.(password := password);
      user := user.(expires := Some(now + TEMPORARY));
      users := users[u := user];
      tokens := Spend(tokens, u, None);
      challenges := Revoke(challenges, u, None);
      sessions := Revoke(sessions, u, None);
      reply := Done;
    }

    /** `temporary_password_challenge`. */
    method ChallengeTemporary(u: Id, plain: string, rehash: Option<nat>, t: Id, raw: string, now: nat) returns (reply: Reply)
      modifies this
      ensures Out(View(), reply) == AfterChallenge(old(View()), u, plain, rehash, t, raw, now)
    {
      if !active || u !in users || users[u].expires.None? { return Refused; }
      var user := users[u];
      if user.standing != Working || !user.provisioned || !user.required || user.expires.value <= now { return Refused; }
      if user.password.plain != plain { return Refused; }
      var kept := Discard(tokens, u, Change);
      if t in kept || RawUsed(kept, raw) { return Broken; }
      if rehash.Some? { user := user.(password := Hash(plain, rehash.value)); }
      users := users[u := user];
      var until := if now + CHANGE_WINDOW <= user.expires.value then now + CHANGE_WINDOW else user.expires.value;
      tokens := kept[t := Token(u, Change, raw, Some(user.password), until, false)];
      reply := Done;
    }

    /** `complete_temporary_password`. */
    method CompleteTemporary(t: Id, raw: string, password: Hash, valid: bool, now: nat) returns (reply: Reply)
      modifies this
      ensures Out(View(), reply) == AfterComplete(old(View()), t, raw, password, valid, now)
    {
      if t !in tokens || tokens[t].kind != Change || tokens[t].used || tokens[t].raw != raw { return Refused; }
      var u := tokens[t].user;
      if !active || u !in users || tokens[t].expires <= now { return Refused; }
      if users[u].standing != Working || !users[u].provisioned || !users[u].required { return Refused; }
      if users[u].expires.None? || users[u].expires.value <= now { return Refused; }
      if tokens[t].version != Some(users[u].password) || !valid { return Refused; }
      var user := users[u];
      if user.password.plain == password.plain { return Refused; }
      user := user.(password := password);
      user := user.(required := false);
      user := user.(expires := None);
      users := users[u := user];
      tokens := tokens[t := tokens[t].(used := true)];
      tokens := Spend(tokens, u, Some(Change));
      sessions := Revoke(sessions, u, None);
      reply := Done;
    }

    /** `start_session`. */
    method StartSession(u: Id, s: Id) returns (reply: Reply)
      modifies this`sessions
      ensures Out(View(), reply) == AfterStartSession(old(View()), u, s)
    {
      if !active || u !in users || users[u].standing != Working || users[u].required { return Refused; }
      if !users[u].verified && !users[u].provisioned { return Refused; }
      if s in sessions { return Broken; }
      sessions := sessions[s := Session(u, false)];
      reply := Done;
    }

    /** `ResetPasswordView.post` with `consume_action_token`; the error after consuming undoes it. */
    method ResetPassword(t: Id, raw: string, password: Hash, now: nat) returns (reply: Reply)
      modifies this
      ensures Out(View(), reply) == AfterReset(old(View()), t, raw, password, now)
    {
      if t !in tokens || tokens[t].kind != Reset || tokens[t].used || tokens[t].raw != raw { return Refused; }
      if !active || tokens[t].user !in users || tokens[t].expires <= now { return Refused; }
      var before := tokens;
      tokens := tokens[t := tokens[t].(used := true)];
      var u := tokens[t].user;
      if users[u].required {
        tokens := before;
        return Refused;
      }
      users := users[u := users[u].(password := password)];
      sessions := Revoke(sessions, u, None);
      reply := Done;
    }
  }

  // ---- recovery codes ----

  datatype Code = Code(text: string, used: bool)

  ghost predicate Matches(codes: seq<Code>, k: int, text: string) {
    0 <= k < |codes| && !codes[k].used && codes[k].text == text
  }

  /** `use_recovery_code`: the first unused match is spent, and only that one. */
  method UseRecoveryCode(codes: seq<Code>, text: string) returns (ok: bool, after: seq<Code>)
    ensures ok <==> exists k :: Matches(codes, k, text)
    ensures !ok ==> after == codes
    ensures ok ==> exists k :: Matches(codes, k, text) && after == codes[k := codes[k].(used := true)]
                               && forall j :: j < k ==> !Matches(codes, j, text)
  {
    for i := 0 to |codes|
      invariant forall k :: 0 <= k < i ==> !Matches(codes, k, text)
    {
      if !codes[i].used && codes[i].text == text {
        assert Matches(codes, i, text);
        return true, codes[i := codes[i].(used := true)];
      }
    }
    return false, codes;
  }

  /** How many unused codes read `text`. */
  function Unspent(codes: seq<Code>, text: string): nat {
    if codes == [] then 0
    else Unspent(codes[..|codes| - 1], text)
         + (if !codes[|codes| - 1].used && codes[|codes| - 1].text == text then 1 else 0)
  }

  /** Each success spends exactly one code of that text and none of another, so a code that was issued
      once works once. */
  lemma {:induction false} SpendingOne(codes: seq<Code>, k: nat, text: string)
    requires k < |codes| && !codes[k].used
    ensures Unspent(codes, text)
         == Unspent(codes[k := codes[k].(used := true)], text) + (if codes[k].text == text then 1 else 0)
  {
    var n := |codes| - 1;
    var after := codes[k := codes[k].(used := true)];
    if k == n {
      assert after[..n] == codes[..n];
    } else {
      SpendingOne(codes[..n], k, text);
      assert after[..n] == codes[..n][k := codes[k].(used := true)];
    }
  }
}
