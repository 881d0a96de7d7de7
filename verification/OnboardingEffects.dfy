/** What each act on an organization's accounts answers and leaves, on the rows themselves, and where
    every account and every role of a run comes from. */
module OnboardingEffects {
  import opened Wrappers
  import opened Runs
  import opened Onboarding
  import opened OnboardingRuns

  /** An Admin of the active organization, in good standing and not awaiting a password change. */
  predicate Manages(o: Org, u: Id) {
    && o.active && u in o.users && o.users[u].role == Admin && o.users[u].standing == Working
    && !o.users[u].changeRequired
  }

  /** No operator and no account has the address. */
  predicate Free(o: Org, email: Email) {
    email !in o.platform && forall u :: u in o.users ==> o.users[u].email != email
  }

  /** The act was refused and changed nothing. */
  predicate Nothing(o: Org, out: Out) { out == Out(o, Refused) }

  // ---- sign-up links ----

  /** A manager's link, for 1, 7, 14 or 30 days, is the only one left that works. */
  lemma CreateLinkLeaves(o: Org, actor: Id, days: nat, id: Id, token: string, now: nat)
    ensures var out := Next(o, CreateLink(actor, days, id, token, now));
            if !Manages(o, actor) || !(days == 1 || days == 7 || days == 14 || days == 30) then Nothing(o, out)
            else if id in o.links || exists l :: l in o.links && o.links[l].token == token then out == Out(o, Broken)
            else
              && out.reply == Done && out.org == o.(links := out.org.links) && out.org.links.Keys == o.links.Keys + {id}
              && out.org.links[id] == Link(token, now + days * 86_400, false)
              && (forall l :: l in o.links ==>
                    out.org.links[l] == Link(o.links[l].token, o.links[l].expires, true))
  {
  }

  lemma RevokeLinkLeaves(o: Org, actor: Id, id: Id)
    ensures var out := Next(o, RevokeLink(actor, id));
            if !Manages(o, actor) || id !in o.links then Nothing(o, out)
            else
              && out.reply == Done && out.org == o.(links := out.org.links) && OnlyRow(o.links, out.org.links, id)
              && out.org.links[id] == Link(o.links[id].token, o.links[id].expires, true)
  {
  }

  // ---- join requests ----

  /** An unverified request that can no longer be verified: its token or its link ran out. */
  predicate Lapsed(o: Org, r: JoinReq, now: nat) {
    r.status == Unverified
    && (r.tokenExpires <= now || (r.link in o.links && (o.links[r.link].revoked || o.links[r.link].expires <= now)))
  }

  /** A request for the address that a new one must wait for. */
  predicate Holding(o: Org, r: JoinReq, email: Email, now: nat) {
    r.email == email && (r.status == Pending || r.status == Unverified) && !Lapsed(o, r, now)
  }

  /** `b` is `a` with the address's lapsed requests expired, their token and password gone. */
  ghost predicate LapsedExpire(o: Org, a: map<Id, JoinReq>, b: map<Id, JoinReq>, email: Email, now: nat) {
    a.Keys <= b.Keys && forall r :: r in a ==>
      b[r] == if a[r].email == email && Lapsed(o, a[r], now) then a[r].(status := Expired, hash := None, token := None)
              else a[r]
  }

  /** Through a link that works, a free address no live request holds gets a request: unverified, with the
      token sent, for a day at most and no longer than the link. */
  lemma SubmitLeaves(o: Org, l: Id, token: string, email: Email, id: Id, secret: string, now: nat)
    ensures var out := Next(o, Submit(l, token, email, id, secret, now));
            var works := o.active && l in o.links && !o.links[l].revoked && o.links[l].expires > now
                         && o.links[l].token == token;
            if !works then Nothing(o, out)
            else if !Free(o, email) then out == Out(o, Ignored)
            else
              && out.org == o.(requests := out.org.requests)
              && LapsedExpire(o, o.requests, out.org.requests, email, now)
              && (if (exists r :: r in o.requests && Holding(o, o.requests[r], email, now)) || id in o.requests
                     || (exists r :: r in o.requests && o.requests[r].token == Some(secret)
                                     && !(o.requests[r].email == email && Lapsed(o, o.requests[r], now)))
                  then out.reply == Ignored && out.org.requests.Keys == o.requests.Keys
                  else
                    && out.reply == Done && out.org.requests.Keys == o.requests.Keys + {id}
                    && (var row := out.org.requests[id];
                        && row.email == email && row.link == l && row.token == Some(secret) && row.status == Unverified
                        && !row.verified && row.hash == None && row.role == None && row.user == None
                        && row.tokenExpires <= now + 86_400 && row.tokenExpires <= o.links[l].expires
                        && (row.tokenExpires == now + 86_400 || row.tokenExpires == o.links[l].expires)))
  {
    var requests := ExpireStale(o.requests, o.links, email, now);
    FreeIsNotTaken(o, email);
    HeldAfterExpiry(o, email, now);
    TokensAfterExpiry(o, email, secret, now);
    ExpiryIsLapse(o, email, now);
    var row := JoinReq(email, l, Some(secret), Earlier(if l in o.links then o.links[l].expires else 0, now + DAY), None,
                       false, Unverified, None, None);
    AddingKeepsExpiry(o, o.requests, requests, email, now, id, row);
    hide EmailTaken, Free, HasOpenRequest, Holding, RequestTokenUsed, ExpireStale, LapsedExpire, Lapsed;
  }

  lemma ExpiryIsLapse(o: Org, email: Email, now: nat)
    ensures LapsedExpire(o, o.requests, ExpireStale(o.requests, o.links, email, now), email, now)
  {
  }

  lemma AddingKeepsExpiry(o: Org, a: map<Id, JoinReq>, b: map<Id, JoinReq>, email: Email, now: nat, id: Id, row: JoinReq)
    requires LapsedExpire(o, a, b, email, now)
    ensures id !in a ==> LapsedExpire(o, a, b[id := row], email, now)
  {
  }

  lemma FreeIsNotTaken(o: Org, email: Email)
    ensures EmailTaken(o, email) <==> !Free(o, email)
  {
  }

  lemma HeldAfterExpiry(o: Org, email: Email, now: nat)
    ensures HasOpenRequest(ExpireStale(o.requests, o.links, email, now), email)
            <==> exists r :: r in o.requests && Holding(o, o.requests[r], email, now)
  {
    var kept := ExpireStale(o.requests, o.links, email, now);
    forall r | r in o.requests
      ensures kept[r].email == email && OpenRequest(kept[r]) <==> Holding(o, o.requests[r], email, now)
    {
    }
    if r :| r in o.requests && Holding(o, o.requests[r], email, now) { assert r in kept; }
  }

  lemma TokensAfterExpiry(o: Org, email: Email, secret: string, now: nat)
    ensures RequestTokenUsed(ExpireStale(o.requests, o.links, email, now), secret)
            <==> exists r :: r in o.requests && o.requests[r].token == Some(secret)
                             && !(o.requests[r].email == email && Lapsed(o, o.requests[r], now))
  {
    var kept := ExpireStale(o.requests, o.links, email, now);
    forall r | r in o.requests
      ensures kept[r].token == Some(secret)
              <==> o.requests[r].token == Some(secret) && !(o.requests[r].email == email && Lapsed(o, o.requests[r], now))
    {
    }
    if r :| r in o.requests && kept[r].token == Some(secret) { assert r in kept; }
  }

  /** A request is verified exactly while it is unverified, its token and link live and the organization
      active; it then awaits review with the chosen password. */
  lemma VerifyLeaves(o: Org, id: Id, secret: string, hash: Hash, now: nat)
    ensures var out := Next(o, Verify(id, secret, hash, now));
            if o.active && id in o.requests && o.requests[id].status == Unverified && o.requests[id].token == Some(secret)
               && o.requests[id].tokenExpires > now && o.requests[id].link in o.links
               && !o.links[o.requests[id].link].revoked && o.links[o.requests[id].link].expires > now
            then
              && out.reply == Done && out.org == o.(requests := out.org.requests)
              && OnlyRow(o.requests, out.org.requests, id)
              && (var was := o.requests[id];
                  out.org.requests[id] == JoinReq(was.email, was.link, None, was.tokenExpires, Some(hash), true, Pending,
                                                  was.role, was.user))
            else Nothing(o, out)
  {
  }

  /** A request that may be decided: pending, verified and with its password. */
  predicate Reviewable(o: Org, id: Id) {
    id in o.requests && o.requests[id].status == Pending && o.requests[id].verified && o.requests[id].hash.Some?
  }

  /** A manager's approval of a reviewable request for a free address, under a new key, always goes
      through: it creates the account with the request's address and password and exactly the role named,
      and the request records both. */
  lemma ApprovalLeaves(o: Org, actor: Id, id: Id, role: Role, account: Id)
    requires Manages(o, actor) && Reviewable(o, id) && Free(o, o.requests[id].email) && account !in o.users
    ensures var out := Next(o, Review(actor, id, true, role, account));
            var was := o.requests[id];
            && out.reply == Done
            && out.org == o.(users := out.org.users, requests := out.org.requests, origins := o.origins[account := ByJoin(id)])
            && OnlyRow(o.users, out.org.users, account) && OnlyRow(o.requests, out.org.requests, id)
            && out.org.users[account] == User(was.email, role, was.hash.value, Working, true, false, false, None)
            && out.org.requests[id] == JoinReq(was.email, was.link, None, was.tokenExpires, None, true, Approved,
                                               Some(role), Some(account))
  {
  }

  lemma RejectionLeaves(o: Org, actor: Id, id: Id, role: Role, account: Id)
    requires Manages(o, actor) && Reviewable(o, id)
    ensures var out := Next(o, Review(actor, id, false, role, account));
            var was := o.requests[id];
            && out.reply == Done && out.org == o.(requests := out.org.requests)
            && OnlyRow(o.requests, out.org.requests, id)
            && out.org.requests[id] == JoinReq(was.email, was.link, None, was.tokenExpires, None, true, Rejected,
                                               was.role, was.user)
  {
  }

  /** Every other review changes nothing; it acknowledges a decision already taken and refuses the rest. */
  lemma OtherReviewsLeave(o: Org, actor: Id, id: Id, approve: bool, role: Role, account: Id)
    requires !(Manages(o, actor) && Reviewable(o, id))
             || (approve && !(Free(o, o.requests[id].email) && account !in o.users))
    ensures var out := Next(o, Review(actor, id, approve, role, account));
            && out.org == o
            && out.reply == if Manages(o, actor) && id in o.requests
                               && (if approve then o.requests[id].status == Approved && o.requests[id].role == Some(role)
                                   else o.requests[id].status == Rejected)
                            then Unchanged else Refused
  {
    if id in o.requests { FreeIsNotTaken(o, o.requests[id].email); }
    hide EmailTaken, Free;
  }

  // ---- invitations ----

  /** A manager's invitation, with the role named, replaces the open one of its address for seven days. */
  lemma InviteLeaves(o: Org, actor: Id, email: Email, role: Role, id: Id, token: string, now: nat)
    ensures var out := Next(o, Invite(actor, email, role, id, token, now));
            if !Manages(o, actor) then Nothing(o, out)
            else if id in o.invites || exists i :: i in o.invites && o.invites[i].token == token then out == Out(o, Broken)
            else
              && out.reply == Done && out.org == o.(invites := out.org.invites)
              && out.org.invites.Keys == o.invites.Keys + {id}
              && out.org.invites[id] == Inv(email, role, token, now + 604_800, Free(o, email), Open)
              && (forall i :: i in o.invites ==>
                    out.org.invites[i] == if o.invites[i].email == email && o.invites[i].status == Open
                                          then o.invites[i].(status := Revoked) else o.invites[i])
  {
    FreeIsNotTaken(o, email);
    hide EmailTaken, Free;
  }

  /** Resending gives an open invitation a new token and seven more days; the role stays. */
  lemma ResendLeaves(o: Org, actor: Id, id: Id, token: string, now: nat)
    ensures var out := Next(o, Resend(actor, id, token, now));
            if !Manages(o, actor) || id !in o.invites || o.invites[id].status != Open then Nothing(o, out)
            else if exists i :: i in o.invites && o.invites[i].token == token then out == Out(o, Broken)
            else
              && out.reply == Done && out.org == o.(invites := out.org.invites) && OnlyRow(o.invites, out.org.invites, id)
              && out.org.invites[id] == Inv(o.invites[id].email, o.invites[id].role, token, now + 604_800,
                                            Free(o, o.invites[id].email), Open)
  {
    if id in o.invites { FreeIsNotTaken(o, o.invites[id].email); }
    hide EmailTaken, Free;
  }

  lemma WithdrawLeaves(o: Org, actor: Id, id: Id)
    ensures var out := Next(o, Withdraw(actor, id));
            if !Manages(o, actor) || id !in o.invites || o.invites[id].status != Open then Nothing(o, out)
            else
              && out.reply == Done && out.org == o.(invites := out.org.invites) && OnlyRow(o.invites, out.org.invites, id)
              && out.org.invites[id] == o.invites[id].(status := Revoked)
  {
  }

  /** An open invitation is accepted with its token before it expires, for a free address and under a new
      key; the account has the role of the invitation and the password chosen. */
  lemma AcceptLeaves(o: Org, id: Id, token: string, hash: Hash, account: Id, now: nat)
    ensures var out := Next(o, Accept(id, token, hash, account, now));
            var valid := o.active && id in o.invites && o.invites[id].status == Open && o.invites[id].token == token
                         && o.invites[id].expires > now && Free(o, o.invites[id].email);
            if !valid then Nothing(o, out)
            else if account in o.users then out == Out(o, Broken)
            else
              && out.reply == Done
              && out.org == o.(users := out.org.users, invites := out.org.invites,
                               origins := o.origins[account := ByInvitation(id)])
              && OnlyRow(o.users, out.org.users, account) && OnlyRow(o.invites, out.org.invites, id)
              && out.org.users[account] == User(o.invites[id].email, o.invites[id].role, hash, Working, true, false, false, None)
              && out.org.invites[id] == o.invites[id].(status := Accepted(account))
  {
    if id in o.invites { FreeIsNotTaken(o, o.invites[id].email); }
    hide EmailTaken;
  }

  /** A manager provisions a free address that no open join request and, unless it is to be replaced, no
      live invitation holds: an account with the role named, a temporary password for seven days, and
      nothing it may do before changing it. */
  lemma ProvisionLeaves(o: Org, actor: Id, email: Email, role: Role, replace: bool, account: Id, hash: Hash, now: nat)
    ensures var out := Next(o, Provision(actor, email, role, replace, account, hash, now));
            if Manages(o, actor) && Free(o, email) && account !in o.users
               && (forall r :: r in o.requests && o.requests[r].email == email ==>
                     o.requests[r].status != Unverified && o.requests[r].status != Pending)
               && (replace || forall i :: i in o.invites && o.invites[i].email == email ==>
                     o.invites[i].status != Open || o.invites[i].expires <= now)
            then
              && out.reply == Done
              && out.org == o.(users := out.org.users, invites := out.org.invites,
                               origins := o.origins[account := ByProvision(actor)])
              && OnlyRow(o.users, out.org.users, account)
              && out.org.users[account] == User(email, role, hash, Working, false, true, true, Some(now + 604_800))
              && out.org.invites.Keys == o.invites.Keys
              && (forall i :: i in o.invites ==>
                    out.org.invites[i] == if o.invites[i].email == email && o.invites[i].status == Open
                                          then o.invites[i].(status := Revoked) else o.invites[i])
            else Nothing(o, out)
  {
    FreeIsNotTaken(o, email);
  }

  // ---- accounts ----

  /** Somebody else manages too. */
  predicate OtherManages(o: Org, u: Id) {
    exists other :: other in o.users && other != u && Manages(o, other)
  }

  /** A manager sets role and standing of others, and of nobody so that no manager is left. */
  lemma PatchLeaves(o: Org, actor: Id, id: Id, newRole: Option<Role>, suspend: Option<bool>)
    ensures var out := Next(o, Patch(actor, id, newRole, suspend));
            if !Manages(o, actor) || id !in o.users then Nothing(o, out)
            else
              var was := o.users[id];
              var role := if newRole.Some? then newRole.value else was.role;
              var standing := if suspend.None? then was.standing else if suspend.value then Suspended else Working;
              if (id == actor && (role != was.role || standing != was.standing))
                 || (Manages(o, id) && !(role == Admin && standing == Working) && !OtherManages(o, id))
              then Nothing(o, out)
              else
                && out.reply == Done && out.org == o.(users := out.org.users) && OnlyRow(o.users, out.org.users, id)
                && out.org.users[id] == was.(role := role, standing := standing)
  {
    OthersAreAdmins(o, id);
    hide OtherManages, OtherAdmin;
  }

  lemma OthersAreAdmins(o: Org, u: Id)
    ensures o.active ==> (OtherAdmin(o.users, u) <==> OtherManages(o, u))
  {
    if o.active && OtherAdmin(o.users, u) {
      var other :| other in o.users && other != u && IsAdmin(o.users, other);
      assert Manages(o, other);
    }
    if OtherManages(o, u) {
      var other :| other in o.users && other != u && Manages(o, other);
      assert IsAdmin(o.users, other);
    }
  }

  /** A removed account keeps its row, under an alias address and out of standing. */
  lemma RemoveLeaves(o: Org, actor: Id, id: Id)
    ensures var out := Next(o, Remove(actor, id));
            var alias := "removed+" + id + "@invalid.local";
            if !Manages(o, actor) || id !in o.users || id == actor || (Manages(o, id) && !OtherManages(o, id))
            then Nothing(o, out)
            else if exists other :: other in o.users && other != id && o.users[other].email == alias
            then out == Out(o, Broken)
            else
              && out.reply == Done && out.org == o.(users := out.org.users) && OnlyRow(o.users, out.org.users, id)
              && out.org.users[id] == o.users[id].(standing := Removed, email := alias)
  {
    OthersAreAdmins(o, id);
    hide OtherManages, OtherAdmin;
  }

  /** No operator and no other account has the address. */
  predicate FreeFor(o: Org, u: Id, email: Email) {
    email !in o.platform && forall other :: other in o.users && other != u ==> o.users[other].email != email
  }

  /** An address is put up for confirmation, for a day, by an account in good standing that proves its
      password; the account itself does not change yet. */
  lemma RequestEmailLeaves(o: Org, u: Id, email: Email, knows: bool, token: string, now: nat)
    ensures var out := Next(o, RequestEmail(u, email, knows, token, now));
            var acts := o.active && u in o.users && o.users[u].standing == Working && !o.users[u].changeRequired;
            if acts && email == o.users[u].email then out == Out(o, Unchanged)
            else if acts && knows && FreeFor(o, u, email) then
              && out.reply == Done && out.org == o.(changes := out.org.changes)
              && OnlyRow(o.changes, out.org.changes, u) && out.org.changes[u] == Change(token, email, now + 86_400)
            else Nothing(o, out)
  {
  }

  /** The token sent to it, in time and while the address is still free, makes it the account's. */
  lemma ConfirmEmailLeaves(o: Org, u: Id, token: string, now: nat)
    ensures var out := Next(o, ConfirmEmail(u, token, now));
            if o.active && u in o.changes && u in o.users && o.changes[u].token == token && o.changes[u].expires > now
               && FreeFor(o, u, o.changes[u].email)
            then
              && out.reply == Done && out.org == o.(users := out.org.users, changes := out.org.changes)
              && OnlyRow(o.users, out.org.users, u)
              && out.org.users[u] == o.users[u].(email := o.changes[u].email, verified := true)
              && out.org.changes.Keys == o.changes.Keys - {u}
              && (forall other :: other in out.org.changes ==> out.org.changes[other] == o.changes[other])
            else Nothing(o, out)
  {
  }

  /** A temporary password is replaced in time, and only then; the account may act from then on. */
  lemma CompleteChangeLeaves(o: Org, u: Id, hash: Hash, now: nat)
    ensures var out := Next(o, CompleteChange(u, hash, now));
            if o.active && u in o.users && o.users[u].standing == Working && o.users[u].provisioned
               && o.users[u].changeRequired && o.users[u].expires.Some? && now < o.users[u].expires.value
            then
              && out.reply == Done && out.org == o.(users := out.org.users) && OnlyRow(o.users, out.org.users, u)
              && out.org.users[u] == o.users[u].(password := hash, changeRequired := false, expires := None)
            else Nothing(o, out)
  {
  }

  lemma NewPasswordLeaves(o: Org, u: Id, hash: Hash)
    ensures var out := Next(o, NewPassword(u, hash));
            if o.active && u in o.users && !o.users[u].changeRequired
            then
              && out.reply == Done && out.org == o.(users := out.org.users) && OnlyRow(o.users, out.org.users, u)
              && out.org.users[u] == o.users[u].(password := hash)
            else Nothing(o, out)
  {
  }

  /** Suspending the organization withdraws what is open and drops the email changes under way. */
  lemma SuspensionLeaves(o: Org)
    ensures var after := Next(o, SuspendOrg).org;
            && !after.active && after.changes == map[] && after == o.(active := false, invites := after.invites, changes := map[])
            && after.invites.Keys == o.invites.Keys
            && (forall i :: i in o.invites ==>
                  after.invites[i] == if o.invites[i].status == Open then o.invites[i].(status := Revoked) else o.invites[i])
  {
  }

  // ---- where accounts and roles come from ----

  /** Step `k` creates account `u`: an approval with the role named and the request's address and
      password, an acceptance with the invitation's address and role and the password chosen, or a
      provisioning with all three as given and a week to change the password. */
  ghost predicate CreatedAt(o: Org, acts: seq<Act>, k: int, u: Id) {
    && 0 <= k < |acts|
    && var before, now := Run(o, acts[..k]), Next(Run(o, acts[..k]), acts[k]);
       && u !in before.users && u in now.org.users && now.reply == Done
       && match acts[k]
          case Review(actor, id, approve, role, account) =>
            && account == u && approve && Manages(before, actor) && Reviewable(before, id)
            && now.org.users[u] == User(before.requests[id].email, role, before.requests[id].hash.value, Working,
                                        true, false, false, None)
          case Accept(id, _, hash, account, _) =>
            && account == u && id in before.invites
            && now.org.users[u] == User(before.invites[id].email, before.invites[id].role, hash, Working,
                                        true, false, false, None)
          case Provision(actor, email, role, _, account, hash, time) =>
            && account == u && Manages(before, actor)
            && now.org.users[u] == User(email, role, hash, Working, false, true, true, Some(time + 604_800))
          case _ => false
  }

  lemma OthersCreateNothing(o: Org, a: Act)
    requires !a.Accept? && !a.Provision?
    requires a.Review? ==> !a.approve || !Manages(o, a.actor) || !Reviewable(o, a.id)
                           || !Free(o, o.requests[a.id].email) || a.account in o.users
    ensures Next(o, a).org.users.Keys == o.users.Keys
  {
    if a.Review? && (a.approve || !Manages(o, a.actor) || !Reviewable(o, a.id)) {
      OtherReviewsLeave(o, a.actor, a.id, a.approve, a.role, a.account);
    }
  }

  lemma CreationStep(o: Org, a: Act, u: Id)
    requires u in Next(o, a).org.users && u !in o.users
    ensures CreatedAt(o, [a], 0, u)
  {
    assert [a][..0] == [];
    if a.Accept? {
      AcceptLeaves(o, a.id, a.token, a.hash, a.account, a.now);
    } else if a.Provision? {
      ProvisionLeaves(o, a.actor, a.email, a.role, a.replace, a.account, a.hash, a.now);
    } else if a.Review? && a.approve && Manages(o, a.actor) && Reviewable(o, a.id) && Free(o, o.requests[a.id].email)
              && a.account !in o.users {
      ApprovalLeaves(o, a.actor, a.id, a.role, a.account);
    } else {
      OthersCreateNothing(o, a);
    }
    hide Next, Free, Reviewable, Manages;
  }

  /** Every account of a run that was not there at its start was created by one of the three routes. */
  lemma {:induction false} EveryAccountWasCreated(o: Org, acts: seq<Act>, u: Id) returns (k: nat)
    requires u in Run(o, acts).users && u !in o.users
    ensures CreatedAt(o, acts, k, u)
  {
    k := 0;
    if acts != [] {
      var n := |acts| - 1;
      if u in Run(o, acts[..n]).users {
        k := EveryAccountWasCreated(o, acts[..n], u);
        assert acts[..n][..k] == acts[..k];
      } else {
        k := n;
        CreationStep(Run(o, acts[..n]), acts[n], u);
        assert [acts[n]][..0] == [];
      }
    }
  }

  /** Nobody's role changes but by a manager's edit of that account, to the role the edit names. */
  lemma RoleStep(o: Org, a: Act, u: Id)
    requires u in o.users
    ensures u in Next(o, a).org.users
    ensures Next(o, a).org.users[u].role == o.users[u].role
            || (a.Patch? && a.id == u && Manages(o, a.actor) && a.newRole == Some(Next(o, a).org.users[u].role))
  {
  }

  /** The role of an account at the end of a run is the one it had at its start or the one the last edit
      of it named, by somebody who then managed the organization. */
  lemma {:induction false} RolesAreGranted(o: Org, acts: seq<Act>, u: Id)
    requires u in o.users
    ensures u in Run(o, acts).users
    ensures Run(o, acts).users[u].role == o.users[u].role
            || exists k :: 0 <= k < |acts| && acts[k].Patch? && acts[k].id == u && Manages(Run(o, acts[..k]), acts[k].actor)
                           && acts[k].newRole == Some(Run(o, acts).users[u].role)
  {
    if acts != [] {
      var n := |acts| - 1;
      RolesAreGranted(o, acts[..n], u);
      RoleStep(Run(o, acts[..n]), acts[n], u);
      var role := Run(o, acts[..n]).users[u].role;
      if Run(o, acts).users[u].role == role && role != o.users[u].role {
        var k :| 0 <= k < n && acts[..n][k].Patch? && acts[..n][k].id == u
                 && Manages(Run(o, acts[..n][..k]), acts[..n][k].actor) && acts[..n][k].newRole == Some(role);
        assert acts[..n][..k] == acts[..k];
        assert acts[k] == acts[..n][k];
      }
    }
  }
}
