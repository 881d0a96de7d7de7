/** What each credential act answers and leaves, on the rows themselves. */
module CredentialEffects {
  import opened Wrappers
  import opened Credentials

  predicate Nothing(d: Desk, out: Out) { out == Out(d, Refused) }

  /** The account may act: in good standing, in an active organization, awaiting no password change. */
  predicate MayAct(d: Desk, u: Id) {
    d.active && u in d.users && d.users[u].standing == Working && !d.users[u].required
  }

  /** The account awaits the change of a temporary password that has not expired. */
  predicate Awaits(d: Desk, u: Id, now: nat) {
    && d.active && u in d.users && d.users[u].standing == Working && d.users[u].provisioned && d.users[u].required
    && d.users[u].expires.Some? && now < d.users[u].expires.value
  }

  /** The user's sessions, but for `keep`, are revoked, and nobody else's. */
  ghost predicate SignedOutBut(a: map<Id, Session>, b: map<Id, Session>, u: Id, keep: set<Id>) {
    b.Keys == a.Keys && forall s :: s in a ==>
      b[s] == if a[s].user == u && s !in keep then Session(u, true) else a[s]
  }

  /** The user's tokens, or those of one kind, are used up, and nobody else's. */
  ghost predicate UsedUp(a: map<Id, Token>, b: map<Id, Token>, u: Id, kinds: set<Kind>) {
    b.Keys == a.Keys && forall t :: t in a ==>
      b[t] == if a[t].user == u && a[t].kind in kinds then a[t].(used := true) else a[t]
  }

  /** `token` replaces the user's unused tokens of its kind. */
  ghost predicate Replaces(a: map<Id, Token>, b: map<Id, Token>, t: Id, token: Token) {
    && t in b && b[t] == token
    && (forall other :: other in b && other != t ==> other in a && b[other] == a[other])
    && (forall other :: other in a && other != t ==>
          (other in b <==> a[other].used || a[other].user != token.user || a[other].kind != token.kind))
  }

  /** A new token's key and text are not those of a token that is kept. */
  ghost predicate NewToken(tokens: map<Id, Token>, t: Id, u: Id, kind: Kind, raw: string) {
    forall other :: other in tokens && (other == t || tokens[other].raw == raw) ==>
      !tokens[other].used && tokens[other].user == u && tokens[other].kind == kind
  }

  // ---- temporary passwords ----

  lemma ProvisionLeaves(d: Desk, u: Id, password: Hash, now: nat)
    ensures var out := Next(d, Provision(u, password, now));
            if u in d.users then Nothing(d, out)
            else
              && out.reply == Done && out.desk == d.(users := out.desk.users) && OnlyRow(d.users, out.desk.users, u)
              && out.desk.users[u] == Account(Working, true, false, true, Some(now + 604_800), password, false)
  {
  }

  lemma JoinLeaves(d: Desk, u: Id, password: Hash)
    ensures var out := Next(d, Join(u, password));
            if u in d.users then Nothing(d, out)
            else
              && out.reply == Done && out.desk == d.(users := out.desk.users) && OnlyRow(d.users, out.desk.users, u)
              && out.desk.users[u] == Account(Working, false, true, false, None, password, false)
  {
  }

  /** Somebody else who may act gives an account that still awaits its change, expired or not, a new
      temporary password for a week, and signs it out everywhere. */
  lemma RegenerateLeaves(d: Desk, actor: Id, u: Id, password: Hash, now: nat)
    ensures var out := Next(d, Regenerate(actor, u, password, now));
            if MayAct(d, actor) && u != actor && u in d.users && d.users[u].standing == Working
               && d.users[u].provisioned && d.users[u].required
            then
              && out.reply == Done && out.desk.active == d.active && OnlyRow(d.users, out.desk.users, u)
              && out.desk.users[u] == d.users[u].(password := password, expires := Some(now + 604_800))
              && UsedUp(d.tokens, out.desk.tokens, u, {Change, Reset, VerifyEmail, ChangeEmail})
              && SignedOutBut(d.sessions, out.desk.sessions, u, {})
              && SignedOutBut(d.challenges, out.desk.challenges, u, {})
            else Nothing(d, out)
  {
    forall t | t in d.tokens ensures d.tokens[t].kind in {Change, Reset, VerifyEmail, ChangeEmail} {
      match d.tokens[t].kind
      case Change =>
      case Reset =>
      case VerifyEmail =>
      case ChangeEmail =>
    }
  }

  /** From then on, for a week, exactly the new password can be proved. */
  lemma RegeneratedPasswordWorks(d: Desk, regen: Act, attempt: Act)
    requires regen.Regenerate? && Next(d, regen).reply == Done
    requires attempt.Challenge? && attempt.u == regen.u
    requires NewToken(Next(d, regen).desk.tokens, attempt.t, attempt.u, Change, attempt.raw)
    ensures Next(Next(d, regen).desk, attempt).reply == Done
            <==> attempt.plain == regen.password.plain && attempt.now < regen.now + 604_800
  {
    RegenerateLeaves(d, regen.actor, regen.u, regen.password, regen.now);
    ChallengeLeaves(Next(d, regen).desk, attempt.u, attempt.plain, attempt.rehash, attempt.t, attempt.raw, attempt.now);
    hide Next, NewToken, Replaces, UsedUp, SignedOutBut;
  }

  /** Proving the temporary password in time earns one token, for five minutes at most and no longer than
      the password, tied to the password as it is stored then. */
  lemma ChallengeLeaves(d: Desk, u: Id, plain: string, rehash: Option<nat>, t: Id, raw: string, now: nat)
    ensures var out := Next(d, Challenge(u, plain, rehash, t, raw, now));
            if !Awaits(d, u, now) || d.users[u].password.plain != plain then Nothing(d, out)
            else if !NewToken(d.tokens, t, u, Change, raw) then out == Out(d, Broken)
            else
              var stored := if rehash.Some? then Hash(plain, rehash.value) else d.users[u].password;
              var until := if now + 300 <= d.users[u].expires.value then now + 300 else d.users[u].expires.value;
              && out.reply == Done && out.desk == d.(users := out.desk.users, tokens := out.desk.tokens)
              && OnlyRow(d.users, out.desk.users, u) && out.desk.users[u] == d.users[u].(password := stored)
              && Replaces(d.tokens, out.desk.tokens, t, Token(u, Change, raw, Some(stored), until, false))
  {
    KeptIsNew(d.tokens, t, u, Change, raw);
    hide NewToken, RawUsed;
  }

  lemma KeptIsNew(tokens: map<Id, Token>, t: Id, u: Id, kind: Kind, raw: string)
    ensures NewToken(tokens, t, u, kind, raw)
            <==> t !in Discard(tokens, u, kind) && !RawUsed(Discard(tokens, u, kind), raw)
  {
    if !NewToken(tokens, t, u, kind, raw) {
      var other :| other in tokens && (other == t || tokens[other].raw == raw)
                   && !(!tokens[other].used && tokens[other].user == u && tokens[other].kind == kind);
      assert other in Discard(tokens, u, kind);
    }
  }

  /** The token, unused and in time, for an account that still awaits its change and has the password it
      was tied to, changes the password to a valid and different one, and signs the account out. */
  lemma CompleteLeaves(d: Desk, t: Id, raw: string, password: Hash, valid: bool, now: nat)
    ensures var out := Next(d, Complete(t, raw, password, valid, now));
            if valid && t in d.tokens && d.tokens[t].kind == Change && !d.tokens[t].used && d.tokens[t].raw == raw
               && now < d.tokens[t].expires && Awaits(d, d.tokens[t].user, now)
               && d.tokens[t].version == Some(d.users[d.tokens[t].user].password)
               && d.users[d.tokens[t].user].password.plain != password.plain
            then
              var u := d.tokens[t].user;
              && out.reply == Done && out.desk.active == d.active && out.desk.challenges == d.challenges
              && OnlyRow(d.users, out.desk.users, u)
              && out.desk.users[u] == d.users[u].(password := password, required := false, expires := None)
              && UsedUp(d.tokens, out.desk.tokens, u, {Change}) && SignedOutBut(d.sessions, out.desk.sessions, u, {})
            else Nothing(d, out)
  {
  }

  // ---- other tokens and passwords ----

  lemma IssueLeaves(d: Desk, u: Id, kind: Kind, t: Id, raw: string, until: nat)
    ensures var out := Next(d, Issue(u, kind, t, raw, until));
            if !d.active || u !in d.users || kind == Change
               || (kind == Reset && (d.users[u].standing != Working || d.users[u].required))
            then Nothing(d, out)
            else if !NewToken(d.tokens, t, u, kind, raw) then out == Out(d, Broken)
            else
              && out.reply == Done && out.desk == d.(tokens := out.desk.tokens)
              && Replaces(d.tokens, out.desk.tokens, t, Token(u, kind, raw, None, until, false))
  {
    KeptIsNew(d.tokens, t, u, kind, raw);
    hide NewToken, RawUsed;
  }

  /** A reset link works once, in time, for an account of the active organization that awaits no change. */
  lemma ResetLeaves(d: Desk, t: Id, raw: string, password: Hash, now: nat)
    ensures var out := Next(d, ResetPassword(t, raw, password, now));
            if d.active && t in d.tokens && d.tokens[t].kind == Reset && !d.tokens[t].used && d.tokens[t].raw == raw
               && now < d.tokens[t].expires && d.tokens[t].user in d.users && !d.users[d.tokens[t].user].required
            then
              var u := d.tokens[t].user;
              && out.reply == Done && out.desk.active == d.active && out.desk.challenges == d.challenges
              && OnlyRow(d.users, out.desk.users, u) && out.desk.users[u] == d.users[u].(password := password)
              && OnlyRow(d.tokens, out.desk.tokens, t) && out.desk.tokens[t] == d.tokens[t].(used := true)
              && SignedOutBut(d.sessions, out.desk.sessions, u, {})
            else Nothing(d, out)
  {
  }

  /** Who knows the password changes it from a live session, and stays signed in only there. */
  lemma ChangePasswordLeaves(d: Desk, s: Id, current: string, password: Hash)
    ensures var out := Next(d, ChangePassword(s, current, password));
            if s in d.sessions && !d.sessions[s].revoked && MayAct(d, d.sessions[s].user)
               && d.users[d.sessions[s].user].password.plain == current
            then
              var u := d.sessions[s].user;
              && out.reply == Done && out.desk == d.(users := out.desk.users, sessions := out.desk.sessions)
              && OnlyRow(d.users, out.desk.users, u) && out.desk.users[u] == d.users[u].(password := password)
              && SignedOutBut(d.sessions, out.desk.sessions, u, {s})
            else Nothing(d, out)
  {
  }

  // ---- sessions ----

  lemma StartSessionLeaves(d: Desk, u: Id, s: Id)
    ensures var out := Next(d, StartSession(u, s));
            if !MayAct(d, u) || (!d.users[u].verified && !d.users[u].provisioned) then Nothing(d, out)
            else if s in d.sessions then out == Out(d, Broken)
            else
              && out.reply == Done && out.desk == d.(sessions := out.desk.sessions)
              && OnlyRow(d.sessions, out.desk.sessions, s) && out.desk.sessions[s] == Session(u, false)
  {
  }

  /** A challenge replaces the user's open ones. */
  lemma StartMfaLeaves(d: Desk, u: Id, c: Id)
    ensures var out := Next(d, StartMfa(u, c));
            if !MayAct(d, u) || (!d.users[u].verified && !d.users[u].provisioned) || !d.users[u].mfa then Nothing(d, out)
            else if c in d.challenges && (d.challenges[c].revoked || d.challenges[c].user != u) then out == Out(d, Broken)
            else
              && out.reply == Done && out.desk == d.(challenges := out.desk.challenges)
              && c in out.desk.challenges && out.desk.challenges[c] == Session(u, false)
              && (forall other :: other in out.desk.challenges && other != c ==>
                    other in d.challenges && out.desk.challenges[other] == d.challenges[other])
              && (forall other :: other in d.challenges && other != c ==>
                    (other in out.desk.challenges <==> d.challenges[other].revoked || d.challenges[other].user != u))
  {
  }

  lemma StandingLeaves(d: Desk, u: Id, standing: Standing)
    ensures var out := Next(d, SetStanding(u, standing));
            if !d.active || u !in d.users then Nothing(d, out)
            else
              && out.reply == Done && out.desk == d.(users := out.desk.users, sessions := out.desk.sessions)
              && OnlyRow(d.users, out.desk.users, u) && out.desk.users[u] == d.users[u].(standing := standing)
              && SignedOutBut(d.sessions, out.desk.sessions, u, {})
  {
  }

  /** Suspending the organization revokes every session and drops what is unused or open. */
  lemma SuspensionLeaves(d: Desk)
    ensures var after := Next(d, SuspendOrg).desk;
            && !after.active && after.users == d.users
            && (forall c :: c in after.challenges <==> c in d.challenges && d.challenges[c].revoked)
            && (forall c :: c in after.challenges ==> after.challenges[c] == d.challenges[c])
            && after.sessions.Keys == d.sessions.Keys
            && (forall s :: s in d.sessions ==> after.sessions[s] == Session(d.sessions[s].user, true))
            && (forall t :: t in after.tokens <==> t in d.tokens && d.tokens[t].used)
            && (forall t :: t in after.tokens ==> after.tokens[t] == d.tokens[t])
  {
  }
}
