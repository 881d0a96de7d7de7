/** What holds in every interleaving of the three ways into an organization. */
module OnboardingRuns {
  import opened Wrappers
  import opened Runs
  import opened Onboarding

  // ---- one table at a time ----

  lemma InsertKeepsUsers(users: map<Id, User>, id: Id, row: User)
    requires UsersOk(users) && Insertable(users, id, row.email)
    ensures UsersOk(users[id := row])
  {
  }

  lemma InsertKeepsAdmin(users: map<Id, User>, id: Id, row: User)
    requires SomeAdmin(users) && id !in users
    ensures SomeAdmin(users[id := row])
  {
    var u :| u in users && IsAdmin(users, u);
    assert IsAdmin(users[id := row], u);
  }

  /** Taking an Admin away is refused unless another is left; anyone else leaves the Admins alone. */
  lemma RewriteKeepsAdmin(users: map<Id, User>, id: Id, row: User)
    requires SomeAdmin(users) && id in users && (row.changeRequired ==> users[id].changeRequired)
    requires IsAdmin(users, id) && !(row.role == Admin && row.standing == Working) ==> OtherAdmin(users, id)
    ensures SomeAdmin(users[id := row])
  {
    var after := users[id := row];
    if IsAdmin(users, id) {
      if row.role == Admin && row.standing == Working {
        assert IsAdmin(after, id);
      } else {
        var other :| other in users && other != id && IsAdmin(users, other);
        assert IsAdmin(after, other);
      }
    } else {
      var u :| u in users && IsAdmin(users, u);
      assert IsAdmin(after, u);
    }
  }

  lemma ExpireKeepsRequests(requests: map<Id, JoinReq>, links: map<Id, Link>, email: Email, now: nat)
    requires RequestsOk(requests)
    ensures RequestsOk(ExpireStale(requests, links, email, now))
  {
  }

  lemma InsertKeepsRequests(requests: map<Id, JoinReq>, id: Id, row: JoinReq)
    requires RequestsOk(requests) && RequestOk(row) && id !in requests && !HasOpenRequest(requests, row.email)
    ensures RequestsOk(requests[id := row])
  {
  }

  lemma RewriteKeepsRequests(requests: map<Id, JoinReq>, id: Id, row: JoinReq)
    requires RequestsOk(requests) && RequestOk(row) && id in requests && row.email == requests[id].email
    requires OpenRequest(row) ==> OpenRequest(requests[id])
    ensures RequestsOk(requests[id := row])
  {
  }

  lemma InviteKeepsInvites(invites: map<Id, Inv>, id: Id, row: Inv)
    requires InvitesOk(invites) && id !in invites
    ensures InvitesOk(RevokeInvites(invites, row.email)[id := row])
  {
  }

  lemma RevokeInvitesKeeps(invites: map<Id, Inv>, email: Email)
    requires InvitesOk(invites)
    ensures InvitesOk(RevokeInvites(invites, email)) && InvitesOk(RevokeOpen(invites))
  {
  }

  lemma RewriteKeepsInvites(invites: map<Id, Inv>, id: Id, row: Inv)
    requires InvitesOk(invites) && id in invites && row.email == invites[id].email
    requires row.status == Open ==> invites[id].status == Open
    ensures InvitesOk(invites[id := row])
  {
  }

  // ---- origins ----

  ghost predicate SameProvisioning(a: map<Id, User>, b: map<Id, User>) {
    a.Keys == b.Keys && forall u :: u in a ==> b[u].provisioned == a[u].provisioned
  }

  ghost predicate SameAccounts(a: map<Id, JoinReq>, b: map<Id, JoinReq>) {
    && (forall r :: r in a ==> r in b && b[r].user == a[r].user)
    && (forall r :: r in b && b[r].user.Some? ==> r in a)
  }

  ghost predicate SameAcceptances(a: map<Id, Inv>, b: map<Id, Inv>) {
    && (forall i :: i in a && a[i].status.Accepted? ==> i in b && b[i].status == a[i].status)
    && (forall i :: i in b && b[i].status.Accepted? ==> i in a && a[i].status == b[i].status)
  }

  lemma OriginsFrame(users: map<Id, User>, requests: map<Id, JoinReq>, invites: map<Id, Inv>, origins: map<Id, Origin>,
                     users': map<Id, User>, requests': map<Id, JoinReq>, invites': map<Id, Inv>)
    requires OriginsOk(users, requests, invites, origins)
    requires SameProvisioning(users, users') && SameAccounts(requests, requests') && SameAcceptances(invites, invites')
    ensures OriginsOk(users', requests', invites', origins)
  {
  }

  lemma JoinAddsOrigin(users: map<Id, User>, requests: map<Id, JoinReq>, invites: map<Id, Inv>, origins: map<Id, Origin>,
                       account: Id, row: User, id: Id, req: JoinReq)
    requires OriginsOk(users, requests, invites, origins) && account !in users && !row.provisioned
    requires id in requests && requests[id].user.None? && req.user == Some(account)
    ensures OriginsOk(users[account := row], requests[id := req], invites, origins[account := ByJoin(id)])
  {
  }

  lemma AcceptAddsOrigin(users: map<Id, User>, requests: map<Id, JoinReq>, invites: map<Id, Inv>, origins: map<Id, Origin>,
                         account: Id, row: User, id: Id, inv: Inv)
    requires OriginsOk(users, requests, invites, origins) && account !in users && !row.provisioned
    requires id in invites && invites[id].status == Open && inv.status == Accepted(account)
    ensures OriginsOk(users[account := row], requests, invites[id := inv], origins[account := ByInvitation(id)])
  {
  }

  lemma ProvisionAddsOrigin(users: map<Id, User>, requests: map<Id, JoinReq>, invites: map<Id, Inv>, origins: map<Id, Origin>,
                            account: Id, row: User, admin: Id)
    requires OriginsOk(users, requests, invites, origins) && account !in users && row.provisioned
    ensures OriginsOk(users[account := row], requests, invites, origins[account := ByProvision(admin)])
  {
  }

  // ---- every request ----

  lemma CreateLinkKeepsOk(o: Org, actor: Id, days: nat, id: Id, token: string, now: nat)
    requires Ok(o)
    ensures Ok(AfterCreateLink(o, actor, days, id, token, now).org)
  {
  }

  lemma RevokeLinkKeepsOk(o: Org, actor: Id, id: Id)
    requires Ok(o)
    ensures Ok(AfterRevokeLink(o, actor, id).org)
  {
  }

  lemma SubmitKeepsOk(o: Org, l: Id, token: string, email: Email, id: Id, secret: string, now: nat)
    requires Ok(o)
    ensures Ok(AfterSubmit(o, l, token, email, id, secret, now).org)
  {
    var after := AfterSubmit(o, l, token, email, id, secret, now).org;
    hide UsersOk, LinksOk, InvitesOk, SomeAdmin, OriginsOk, RequestsOk;
    if after != o {
      var requests := ExpireStale(o.requests, o.links, email, now);
      ExpireKeepsRequests(o.requests, o.links, email, now);
      if after.requests != requests {
        InsertKeepsRequests(requests, id, after.requests[id]);
      }
      OriginsFrame(o.users, o.requests, o.invites, o.origins, o.users, after.requests, o.invites);
    }
  }

  lemma VerifyKeepsOk(o: Org, id: Id, secret: string, hash: Hash, now: nat)
    requires Ok(o)
    ensures Ok(AfterVerify(o, id, secret, hash, now).org)
  {
    if MayVerify(o, id, secret, now) {
      var row := AfterVerify(o, id, secret, hash, now).org.requests[id];
      assert RequestOk(o.requests[id]);
      hide UsersOk, LinksOk, InvitesOk, SomeAdmin, OriginsOk, RequestsOk;
      RewriteKeepsRequests(o.requests, id, row);
      OriginsFrame(o.users, o.requests, o.invites, o.origins, o.users, o.requests[id := row], o.invites);
    }
  }

  lemma ApproveKeepsOk(o: Org, actor: Id, id: Id, role: Role, account: Id)
    requires Ok(o) && ReviewCheck(o, actor, id, true, role, account) == Done
    ensures Ok(AfterReview(o, actor, id, true, role, account).org)
  {
    var after := AfterReview(o, actor, id, true, role, account).org;
    assert RequestOk(o.requests[id]);
    hide UsersOk, LinksOk, InvitesOk, SomeAdmin, OriginsOk, RequestsOk, UserEmail;
    InsertKeepsUsers(o.users, account, after.users[account]);
    InsertKeepsAdmin(o.users, account, after.users[account]);
    RewriteKeepsRequests(o.requests, id, after.requests[id]);
    JoinAddsOrigin(o.users, o.requests, o.invites, o.origins, account, after.users[account], id, after.requests[id]);
  }

  lemma RejectKeepsOk(o: Org, actor: Id, id: Id, role: Role, account: Id)
    requires Ok(o) && ReviewCheck(o, actor, id, false, role, account) == Done
    ensures Ok(AfterReview(o, actor, id, false, role, account).org)
  {
    var after := AfterReview(o, actor, id, false, role, account).org;
    assert RequestOk(o.requests[id]);
    hide UsersOk, LinksOk, InvitesOk, SomeAdmin, OriginsOk, RequestsOk;
    RewriteKeepsRequests(o.requests, id, after.requests[id]);
    OriginsFrame(o.users, o.requests, o.invites, o.origins, o.users, after.requests, o.invites);
  }

  lemma ReviewKeepsOk(o: Org, actor: Id, id: Id, approve: bool, role: Role, account: Id)
    requires Ok(o)
    ensures Ok(AfterReview(o, actor, id, approve, role, account).org)
  {
    hide Ok;
    if ReviewCheck(o, actor, id, approve, role, account) == Done {
      if approve {
        ApproveKeepsOk(o, actor, id, role, account);
      } else {
        RejectKeepsOk(o, actor, id, role, account);
      }
    }
  }

  lemma InvitesOnly(o: Org, invites: map<Id, Inv>)
    requires Ok(o) && InvitesOk(invites) && SameAcceptances(o.invites, invites)
    ensures Ok(o.(invites := invites))
  {
  }

  lemma InviteKeepsOk(o: Org, actor: Id, email: Email, role: Role, id: Id, token: string, now: nat)
    requires Ok(o)
    ensures Ok(AfterInvite(o, actor, email, role, id, token, now).org)
  {
    var after := AfterInvite(o, actor, email, role, id, token, now).org;
    if after != o {
      InviteKeepsInvites(o.invites, id, after.invites[id]);
      InvitesOnly(o, after.invites);
    }
  }

  lemma ResendKeepsOk(o: Org, actor: Id, id: Id, token: string, now: nat)
    requires Ok(o)
    ensures Ok(AfterResend(o, actor, id, token, now).org)
  {
    var after := AfterResend(o, actor, id, token, now).org;
    if after != o {
      RewriteKeepsInvites(o.invites, id, after.invites[id]);
      InvitesOnly(o, after.invites);
    }
  }

  lemma WithdrawKeepsOk(o: Org, actor: Id, id: Id)
    requires Ok(o)
    ensures Ok(AfterWithdraw(o, actor, id).org)
  {
    var after := AfterWithdraw(o, actor, id).org;
    if after != o {
      RewriteKeepsInvites(o.invites, id, after.invites[id]);
      InvitesOnly(o, after.invites);
    }
  }

  lemma AcceptKeepsOk(o: Org, id: Id, token: string, hash: Hash, account: Id, now: nat)
    requires Ok(o)
    ensures Ok(AfterAccept(o, id, token, hash, account, now).org)
  {
    var after := AfterAccept(o, id, token, hash, account, now).org;
    hide UsersOk, LinksOk, InvitesOk, SomeAdmin, OriginsOk, RequestsOk, UserEmail;
    if after != o {
      InsertKeepsUsers(o.users, account, after.users[account]);
      InsertKeepsAdmin(o.users, account, after.users[account]);
      RewriteKeepsInvites(o.invites, id, after.invites[id]);
      AcceptAddsOrigin(o.users, o.requests, o.invites, o.origins, account, after.users[account], id, after.invites[id]);
    }
  }

  lemma ProvisionKeepsOk(o: Org, actor: Id, email: Email, role: Role, replace: bool, account: Id, hash: Hash, now: nat)
    requires Ok(o)
    ensures Ok(AfterProvision(o, actor, email, role, replace, account, hash, now).org)
  {
    var after := AfterProvision(o, actor, email, role, replace, account, hash, now).org;
    hide UsersOk, LinksOk, InvitesOk, SomeAdmin, OriginsOk, RequestsOk, UserEmail, HasOpenRequest, LiveInvite;
    if after != o {
      InsertKeepsUsers(o.users, account, after.users[account]);
      InsertKeepsAdmin(o.users, account, after.users[account]);
      RevokeInvitesKeeps(o.invites, email);
      OriginsFrame(o.users, o.requests, o.invites, o.origins, o.users, o.requests, after.invites);
      ProvisionAddsOrigin(o.users, o.requests, after.invites, o.origins, account, after.users[account], actor);
    }
  }

  lemma UsersOnly(o: Org, id: Id, row: User)
    requires Ok(o) && id in o.users && row.provisioned == o.users[id].provisioned
    requires UsersOk(o.users[id := row]) && SomeAdmin(o.users[id := row])
    ensures Ok(o.(users := o.users[id := row]))
  {
  }

  lemma PatchKeepsOk(o: Org, actor: Id, id: Id, role: Option<Role>, suspend: Option<bool>)
    requires Ok(o)
    ensures Ok(AfterPatch(o, actor, id, role, suspend).org)
  {
    var after := AfterPatch(o, actor, id, role, suspend).org;
    if after != o {
      RewriteKeepsAdmin(o.users, id, after.users[id]);
      UsersOnly(o, id, after.users[id]);
    }
  }

  lemma RemoveKeepsOk(o: Org, actor: Id, id: Id)
    requires Ok(o)
    ensures Ok(AfterRemove(o, actor, id).org)
  {
    var after := AfterRemove(o, actor, id).org;
    if after != o {
      RewriteKeepsAdmin(o.users, id, after.users[id]);
      UsersOnly(o, id, after.users[id]);
    }
  }

  lemma ConfirmKeepsOk(o: Org, u: Id, token: string, now: nat)
    requires Ok(o)
    ensures Ok(AfterConfirmEmail(o, u, token, now).org)
  {
    var after := AfterConfirmEmail(o, u, token, now).org;
    if after != o {
      RewriteKeepsAdmin(o.users, u, after.users[u]);
      UsersOnly(o, u, after.users[u]);
      ChangesOnly(o.(users := after.users), after.changes);
    }
  }

  lemma PasswordKeepsOk(o: Org, u: Id, hash: Hash, now: nat)
    requires Ok(o)
    ensures Ok(AfterCompleteChange(o, u, hash, now).org)
    ensures Ok(AfterNewPassword(o, u, hash).org)
  {
    var completed, replaced := AfterCompleteChange(o, u, hash, now).org, AfterNewPassword(o, u, hash).org;
    if completed != o {
      RewriteKeepsAdmin(o.users, u, completed.users[u]);
      UsersOnly(o, u, completed.users[u]);
    }
    if replaced != o {
      RewriteKeepsAdmin(o.users, u, replaced.users[u]);
      UsersOnly(o, u, replaced.users[u]);
    }
  }

  lemma RequestEmailKeepsOk(o: Org, u: Id, email: Email, knows: bool, token: string, now: nat)
    requires Ok(o)
    ensures Ok(AfterRequestEmail(o, u, email, knows, token, now).org)
  {
    hide Ok;
    ChangesOnly(o, o.changes[u := Change(token, email, now + DAY)]);
  }

  lemma ChangesOnly(o: Org, changes: map<Id, Change>)
    requires Ok(o)
    ensures Ok(o.(changes := changes))
  {
  }

  lemma SuspendKeepsOk(o: Org)
    requires Ok(o)
    ensures Ok(o.(active := false, invites := RevokeOpen(o.invites), changes := map[]))
  {
    RevokeInvitesKeeps(o.invites, "");
    InvitesOnly(o, RevokeOpen(o.invites));
  }

  predicate IsJoinAct(a: Act) { a.CreateLink? || a.RevokeLink? || a.Submit? || a.Verify? || a.Review? }

  predicate IsInviteAct(a: Act) { a.Invite? || a.Resend? || a.Withdraw? || a.Accept? || a.Provision? }

  lemma JoinActKeepsOk(o: Org, a: Act)
    requires Ok(o) && IsJoinAct(a)
    ensures Ok(Next(o, a).org)
  {
    hide Ok;
    match a
    case CreateLink(actor, days, id, token, now) => CreateLinkKeepsOk(o, actor, days, id, token, now);
    case RevokeLink(actor, id) => RevokeLinkKeepsOk(o, actor, id);
    case Submit(l, token, email, id, secret, now) => SubmitKeepsOk(o, l, token, email, id, secret, now);
    case Verify(id, secret, hash, now) => VerifyKeepsOk(o, id, secret, hash, now);
    case Review(actor, id, approve, role, account) => ReviewKeepsOk(o, actor, id, approve, role, account);
  }

  lemma InviteActKeepsOk(o: Org, a: Act)
    requires Ok(o) && IsInviteAct(a)
    ensures Ok(Next(o, a).org)
  {
    hide Ok;
    match a
    case Invite(actor, email, role, id, token, now) => InviteKeepsOk(o, actor, email, role, id, token, now);
    case Resend(actor, id, token, now) => ResendKeepsOk(o, actor, id, token, now);
    case Withdraw(actor, id) => WithdrawKeepsOk(o, actor, id);
    case Accept(id, token, hash, account, now) => AcceptKeepsOk(o, id, token, hash, account, now);
    case Provision(actor, email, role, replace, account, hash, now) =>
      ProvisionKeepsOk(o, actor, email, role, replace, account, hash, now);
  }

  lemma AccountActKeepsOk(o: Org, a: Act)
    requires Ok(o) && !IsJoinAct(a) && !IsInviteAct(a)
    ensures Ok(Next(o, a).org)
  {
    hide Ok;
    match a
    case Patch(actor, id, role, suspend) => PatchKeepsOk(o, actor, id, role, suspend);
    case Remove(actor, id) => RemoveKeepsOk(o, actor, id);
    case RequestEmail(u, email, knows, token, now) => RequestEmailKeepsOk(o, u, email, knows, token, now);
    case ConfirmEmail(u, token, now) => ConfirmKeepsOk(o, u, token, now);
    case CompleteChange(u, hash, now) => PasswordKeepsOk(o, u, hash, now);
    case NewPassword(u, hash) => PasswordKeepsOk(o, u, hash, 0);
    case SuspendOrg => SuspendKeepsOk(o);
    case ReactivateOrg => SettingsKeepOk(o, true, o.platform);
    case SetPlatform(platform) => SettingsKeepOk(o, o.active, platform);
  }

  lemma NextKeepsOk(o: Org, a: Act)
    requires Ok(o)
    ensures Ok(Next(o, a).org)
  {
    hide Ok, Next;
    if IsJoinAct(a) {
      JoinActKeepsOk(o, a);
    } else if IsInviteAct(a) {
      InviteActKeepsOk(o, a);
    } else {
      AccountActKeepsOk(o, a);
    }
  }

  lemma SettingsKeepOk(o: Org, active: bool, platform: set<Email>)
    requires Ok(o)
    ensures Ok(o.(active := active, platform := platform))
  {
  }

  // ---- runs ----

  ghost function Step(): (Org, Act) -> Org {
    (o, a) => Next(o, a).org
  }

  ghost function Run(o: Org, acts: seq<Act>): Org {
    Fold(Step(), o, acts)
  }

  /** Every interleaving of the three routes, edits, removals and suspensions keeps the tables in order. */
  lemma {:induction false} RunKeepsOk(o: Org, acts: seq<Act>)
    requires Ok(o)
    ensures Ok(Run(o, acts))
  {
    if acts != [] {
      var n := |acts| - 1;
      RunKeepsOk(o, acts[..n]);
      NextKeepsOk(Run(o, acts[..n]), acts[n]);
    }
  }

  lemma FoundedIsOk(id: Id, founder: User)
    requires founder.role == Admin && founder.standing == Working && !founder.changeRequired && !founder.provisioned
    ensures Ok(Founded(id, founder))
  {
    assert IsAdmin(Founded(id, founder).users, id);
  }

  /** In every run: an address has at most one account, one pending invitation and one open join
      request; there is at most one unrevoked sign-up link; and an Admin in good standing remains. */
  lemma AddressesAreUnique(o: Org, acts: seq<Act>, a: Id, b: Id)
    requires Ok(o) && a != b
    ensures var now := Run(o, acts);
            && (a in now.users && b in now.users ==> now.users[a].email != now.users[b].email)
            && (a in now.invites && b in now.invites && now.invites[a].status == Open && now.invites[b].status == Open ==>
                  now.invites[a].email != now.invites[b].email)
            && (a in now.requests && b in now.requests && OpenRequest(now.requests[a]) && OpenRequest(now.requests[b]) ==>
                  now.requests[a].email != now.requests[b].email)
            && (a in now.links && b in now.links ==> now.links[a].revoked || now.links[b].revoked)
    ensures exists u :: u in Run(o, acts).users && IsAdmin(Run(o, acts).users, u)
  {
    RunKeepsOk(o, acts);
  }

  predicate MadeByJoin(o: Org, r: Id, u: Id) {
    r in o.requests && o.requests[r].status == Approved && o.requests[r].user == Some(u)
  }

  predicate MadeByInvitation(o: Org, i: Id, u: Id) {
    i in o.invites && o.invites[i].status == Accepted(u)
  }

  /** In every run each account comes from exactly one record, and no record gave two accounts. */
  lemma OneOriginPerAccount(o: Org, acts: seq<Act>, u: Id, r: Id, i: Id)
    requires Ok(o) && u in Run(o, acts).users
    ensures var now := Run(o, acts);
            && u in now.origins
            && (MadeByJoin(now, r, u) <==> now.origins[u] == ByJoin(r))
            && (MadeByInvitation(now, i, u) <==> now.origins[u] == ByInvitation(i))
            && (now.users[u].provisioned <==> now.origins[u].ByProvision?)
  {
    RunKeepsOk(o, acts);
    var now := Run(o, acts);
    assert OriginOk(now.users, now.requests, now.invites, now.origins[u], u);
  }

  /** In every run a join request holds a verification token exactly while unverified and a password
      hash exactly while it awaits review. */
  lemma RequestShape(o: Org, acts: seq<Act>, r: Id)
    requires Ok(o) && r in Run(o, acts).requests
    ensures RequestOk(Run(o, acts).requests[r])
  {
    RunKeepsOk(o, acts);
  }

  // ---- which addresses a request holds ----

  /** A join request's link exists, and its verification token does not outlive the link. */
  ghost predicate RequestLinks(requests: map<Id, JoinReq>, links: map<Id, Link>) {
    forall r :: r in requests ==>
      requests[r].link in links && requests[r].tokenExpires <= links[requests[r].link].expires
  }

  lemma SubmitKeepsRequestLinks(o: Org, l: Id, token: string, email: Email, id: Id, secret: string, now: nat)
    requires RequestLinks(o.requests, o.links)
    ensures RequestLinks(AfterSubmit(o, l, token, email, id, secret, now).org.requests, o.links)
  {
    hide EmailTaken, HasOpenRequest, RequestTokenUsed, Stale;
  }

  lemma LinksKeepRequestLinks(requests: map<Id, JoinReq>, a: map<Id, Link>, b: map<Id, Link>)
    requires RequestLinks(requests, a)
    requires forall l :: l in a ==> l in b && b[l].expires == a[l].expires
    ensures RequestLinks(requests, b)
  {
  }

  lemma ReviewKeepsRequestLinks(o: Org, a: Act)
    requires RequestLinks(o.requests, o.links) && (a.Verify? || a.Review?)
    ensures RequestLinks(Next(o, a).org.requests, Next(o, a).org.links)
  {
  }

  lemma NextKeepsRequestLinks(o: Org, a: Act)
    requires RequestLinks(o.requests, o.links)
    ensures RequestLinks(Next(o, a).org.requests, Next(o, a).org.links)
  {
    hide RequestLinks;
    match a
    case Submit(l, token, email, id, secret, now) => SubmitKeepsRequestLinks(o, l, token, email, id, secret, now);
    case CreateLink(_, _, _, _, _) => LinksKeepRequestLinks(o.requests, o.links, Next(o, a).org.links);
    case RevokeLink(_, _) => LinksKeepRequestLinks(o.requests, o.links, Next(o, a).org.links);
    case Verify(_, _, _, _) => ReviewKeepsRequestLinks(o, a);
    case Review(_, _, _, _, _) => ReviewKeepsRequestLinks(o, a);
    case _ =>
  }

  lemma {:induction false} RunKeepsRequestLinks(o: Org, acts: seq<Act>)
    requires RequestLinks(o.requests, o.links)
    ensures RequestLinks(Run(o, acts).requests, Run(o, acts).links)
  {
    if acts != [] {
      var n := |acts| - 1;
      RunKeepsRequestLinks(o, acts[..n]);
      NextKeepsRequestLinks(Run(o, acts[..n]), acts[n]);
    }
  }

  /** A request that awaits review, or that its recipient could still verify now. */
  predicate Holds(o: Org, r: Id, email: Email, now: nat) {
    && r in o.requests && o.requests[r].email == email
    && (o.requests[r].status == Pending
        || (o.requests[r].token.Some? && MayVerify(o, r, o.requests[r].token.value, now)))
  }

  /** Through a live link, an address without an account is turned away exactly when a request for it
      awaits review or can still be verified; one that can no longer be verified never blocks it. */
  lemma BlockedOnlyByLiveRequests(o: Org, l: Id, token: string, email: Email, id: Id, secret: string, now: nat)
    requires Ok(o) && RequestLinks(o.requests, o.links)
    requires o.active && LinkLive(o.links, l, now) && o.links[l].token == token && !EmailTaken(o, email)
    requires id !in o.requests && !RequestTokenUsed(o.requests, secret)
    ensures AfterSubmit(o, l, token, email, id, secret, now).reply == Done <==> forall r :: !Holds(o, r, email, now)
  {
    var kept := ExpireStale(o.requests, o.links, email, now);
    hide UsersOk, LinksOk, InvitesOk, SomeAdmin, OriginsOk;
    forall r | r in o.requests
      ensures Holds(o, r, email, now) <==> kept[r].email == email && OpenRequest(kept[r])
    {
      assert RequestOk(o.requests[r]);
    }
    forall r | r in kept ensures kept[r].token != Some(secret) {
      assert o.requests[r].token == Some(secret) ==> RequestTokenUsed(o.requests, secret);
    }
    if HasOpenRequest(kept, email) {
      var r :| r in kept && kept[r].email == email && OpenRequest(kept[r]);
      assert Holds(o, r, email, now);
    }
  }

  // ---- the unique constraints never fire ----

  /** The keys and tokens drawn for new rows are new. */
  predicate FreshKeys(o: Org, a: Act) {
    match a
    case CreateLink(_, _, id, token, _) => id !in o.links && !LinkTokenUsed(o.links, token)
    case Invite(_, _, _, id, token, _) => id !in o.invites && !InviteTokenUsed(o.invites, token)
    case Resend(_, _, token, _) => !InviteTokenUsed(o.invites, token)
    case Accept(_, _, _, account, _) => account !in o.users
    case _ => true
  }

  /** With fresh keys the endpoints' own checks leave the database nothing to refuse, with one
      exception: a removal fails if and only if it is otherwise allowed and another account already
      uses the alias address. */
  lemma OnlyAliasesCollide(o: Org, a: Act)
    requires FreshKeys(o, a)
    ensures Next(o, a).reply == Broken <==>
              a.Remove? && o.active && IsAdmin(o.users, a.actor) && a.id in o.users && a.id != a.actor
              && (IsAdmin(o.users, a.id) ==> OtherAdmin(o.users, a.id)) && !AliasFree(o.users, a.id)
  {
    if !a.Remove? {
      NothingElseBreaks(o, a);
    }
  }

  lemma NothingElseBreaks(o: Org, a: Act)
    requires FreshKeys(o, a) && !a.Remove?
    ensures Next(o, a).reply != Broken
  {
  }

  /** Such a collision is within reach: an Admin provisions an account, provisions a second one under the
      first one's alias, and can then no longer remove the first. */
  lemma AliasCanBeTaken(admin: Id, founder: User, victim: Id, other: Id, email: Email, hash: Hash)
    requires founder.role == Admin && founder.standing == Working && !founder.changeRequired
    requires victim != admin && other != admin && victim != other
    requires founder.email != email && email != Alias(victim) && founder.email != Alias(victim)
    ensures var acts := [Provision(admin, email, Viewer, false, victim, hash, 0),
                         Provision(admin, Alias(victim), Viewer, false, other, hash, 0)];
            Next(Run(Founded(admin, founder), acts), Remove(admin, victim)).reply == Broken
  {
    hide Alias;
    var first := Provision(admin, email, Viewer, false, victim, hash, 0);
    var second := Provision(admin, Alias(victim), Viewer, false, other, hash, 0);
    var start := Founded(admin, founder);
    RunTwo(start, first, second);
    ProvisionAdds(start, admin, email, victim, hash);
    var one := Next(start, first).org;
    ProvisionAdds(one, admin, Alias(victim), other, hash);
    var two := Next(one, second).org;
    hide Next;
    AliasBlocksRemoval(two, admin, victim, other);
  }

  lemma ProvisionAdds(o: Org, admin: Id, email: Email, account: Id, hash: Hash)
    requires o.active && IsAdmin(o.users, admin) && account !in o.users
    requires !EmailTaken(o, email) && o.requests == map[] && o.invites == map[]
    ensures var after := Next(o, Provision(admin, email, Viewer, false, account, hash, 0)).org;
            && after.active && after.platform == o.platform && after.requests == map[] && after.invites == map[]
            && after.users == o.users[account := Provisioned(email, Viewer, hash, 0)]
  {
  }

  lemma RunTwo(o: Org, a: Act, b: Act)
    ensures Run(o, [a, b]) == Next(Next(o, a).org, b).org
  {
    assert [a, b][..1] == [a] && [a][..0] == [];
    assert Run(o, []) == o;
    hide Next;
    assert Run(o, [a]) == Next(Run(o, [a][..0]), a).org;
  }

  lemma AliasBlocksRemoval(o: Org, admin: Id, victim: Id, other: Id)
    requires o.active && IsAdmin(o.users, admin) && victim in o.users && victim != admin && !IsAdmin(o.users, victim)
    requires other in o.users && other != victim && o.users[other].email == Alias(victim)
    ensures AfterRemove(o, admin, victim).reply == Broken
  {
  }

  // ---- the life of a join request ----

  predicate Settled(s: ReqStatus) {
    s == Approved || s == Rejected || s == Expired
  }

  lemma JoinActKeepsSettled(o: Org, a: Act, r: Id)
    requires IsJoinAct(a) && r in o.requests && Settled(o.requests[r].status)
    ensures r in Next(o, a).org.requests && Next(o, a).org.requests[r] == o.requests[r]
  {
    hide EmailTaken, HasOpenRequest, RequestTokenUsed, LinkLive, IsAdmin, LinkTokenUsed;
  }

  lemma OtherActsKeepRequests(o: Org, a: Act)
    requires !IsJoinAct(a)
    ensures Next(o, a).org.requests == o.requests
  {
  }

  /** Approved, rejected and expired requests never change again. */
  lemma SettledStays(o: Org, a: Act, r: Id)
    requires r in o.requests && Settled(o.requests[r].status)
    ensures r in Next(o, a).org.requests && Next(o, a).org.requests[r] == o.requests[r]
  {
    if IsJoinAct(a) {
      JoinActKeepsSettled(o, a, r);
    } else {
      OtherActsKeepRequests(o, a);
    }
    hide *;
  }

  lemma {:induction false} SettledForGood(o: Org, acts: seq<Act>, r: Id)
    requires r in o.requests && Settled(o.requests[r].status)
    ensures r in Run(o, acts).requests && Run(o, acts).requests[r] == o.requests[r]
  {
    if acts != [] {
      var n := |acts| - 1;
      SettledForGood(o, acts[..n], r);
      SettledStays(Run(o, acts[..n]), acts[n], r);
    }
  }

  /** Reviewing a settled request again changes nothing; the same decision is acknowledged and any
      other is refused. */
  lemma RepeatedReview(o: Org, actor: Id, r: Id, approve: bool, role: Role, account: Id)
    requires Ok(o) && o.active && IsAdmin(o.users, actor)
    requires r in o.requests && Settled(o.requests[r].status)
    ensures var out := AfterReview(o, actor, r, approve, role, account);
            && out.org == o
            && out.reply == (if (approve && o.requests[r].status == Approved && o.requests[r].role == Some(role))
                                || (!approve && o.requests[r].status == Rejected) then Unchanged else Refused)
  {
  }

  /** Step `j` of the run verifies request `r` with `hash`, while the organization is active, the token
      is the one sent and unexpired, and the link is live. */
  ghost predicate VerifiedAt(o: Org, acts: seq<Act>, j: int, r: Id, hash: Hash) {
    && 0 <= j < |acts| && acts[j].Verify? && acts[j].id == r && acts[j].hash == hash
    && MayVerify(Run(o, acts[..j]), r, acts[j].secret, acts[j].now)
  }

  /** Step `k` approves request `r` with a role, and `account` is the account it creates: with that
      address, that role and password `hash`, in good standing, verified, not provisioned and free to act. */
  ghost predicate ApprovedAt(o: Org, acts: seq<Act>, k: int, r: Id, account: Id, email: Email, hash: Hash) {
    && 0 <= k < |acts| && acts[k].Review? && acts[k].id == r && acts[k].approve && acts[k].account == account
    && IsAdmin(Run(o, acts[..k]).users, acts[k].actor) && Run(o, acts[..k]).active
    && var out := Next(Run(o, acts[..k]), acts[k]);
       && out.reply == Done && account in out.org.users
       && out.org.users[account] == User(email, acts[k].role, hash, Working, true, false, false, None)
  }

  /** Step `i` creates request `r` in an active organization, through a live link by its token, for an
      address no account and no operator has. */
  ghost predicate SubmittedAt(o: Org, acts: seq<Act>, i: int, r: Id) {
    && 0 <= i < |acts| && acts[i].Submit? && acts[i].id == r
    && var found := Run(o, acts[..i]);
       && found.active && r !in found.requests && !EmailTaken(found, acts[i].email)
       && LinkLive(found.links, acts[i].link, acts[i].now) && found.links[acts[i].link].token == acts[i].token
  }

  /** The row is the one step `i` created, but for its token, which is the one sent or spent. */
  ghost predicate SubmittedRow(a: Act, row: JoinReq)
    requires a.Submit?
  {
    && row.email == a.email && row.link == a.link && row.tokenExpires <= a.now + DAY
    && (row.token.Some? ==> row.token.value == a.secret)
  }

  predicate SameButToken(was: JoinReq, row: JoinReq) {
    && row.email == was.email && row.link == was.link && row.tokenExpires == was.tokenExpires
    && (row.token.Some? ==> row.token == was.token)
  }

  lemma SubmitRequestStep(o: Org, a: Act, r: Id)
    requires a.Submit? && r in Next(o, a).org.requests
    ensures (r in o.requests && SameButToken(o.requests[r], Next(o, a).org.requests[r]))
         || (a.id == r && r !in o.requests && o.active && !EmailTaken(o, a.email)
             && LinkLive(o.links, a.link, a.now) && o.links[a.link].token == a.token
             && SubmittedRow(a, Next(o, a).org.requests[r]))
  {
    hide EmailTaken, LinkLive;
  }

  /** A request appears only by being submitted, and keeps its address, link and expiry. */
  lemma RequestStep(o: Org, a: Act, r: Id)
    requires r in Next(o, a).org.requests
    ensures (r in o.requests && SameButToken(o.requests[r], Next(o, a).org.requests[r]))
         || (a.Submit? && a.id == r && r !in o.requests && o.active && !EmailTaken(o, a.email)
             && LinkLive(o.links, a.link, a.now) && o.links[a.link].token == a.token
             && SubmittedRow(a, Next(o, a).org.requests[r]))
  {
    hide EmailTaken, LinkLive, SubmittedRow;
    if a.Submit? {
      hide *;
      SubmitRequestStep(o, a, r);
    } else if !IsJoinAct(a) {
      OtherActsKeepRequests(o, a);
      hide Next;
    }
  }

  lemma {:induction false} RequestWasSubmitted(o: Org, acts: seq<Act>, r: Id) returns (i: nat)
    requires o.requests == map[] && r in Run(o, acts).requests
    ensures SubmittedAt(o, acts, i, r) && SubmittedRow(acts[i], Run(o, acts).requests[r])
  {
    i := 0;
    hide SubmittedRow, SameButToken, LinkLive, EmailTaken;
    if acts != [] {
      var n := |acts| - 1;
      RequestStep(Run(o, acts[..n]), acts[n], r);
      if r in Run(o, acts[..n]).requests {
        i := RequestWasSubmitted(o, acts[..n], r);
        assert acts[..n][..i] == acts[..i];
        RowPersists(acts[i], Run(o, acts[..n]).requests[r], Run(o, acts).requests[r]);
      } else {
        i := n;
      }
    }
  }

  lemma RowPersists(a: Act, was: JoinReq, row: JoinReq)
    requires a.Submit? && SubmittedRow(a, was) && SameButToken(was, row)
    ensures SubmittedRow(a, row)
  {
  }

  /** A request becomes pending only by being verified, with the hash chosen there. */
  lemma PendingStep(o: Org, a: Act, r: Id)
    requires r in Next(o, a).org.requests && Next(o, a).org.requests[r].status == Pending
    ensures (r in o.requests && o.requests[r] == Next(o, a).org.requests[r])
         || (a.Verify? && a.id == r && MayVerify(o, r, a.secret, a.now)
             && Next(o, a).org.requests[r].hash == Some(a.hash))
  {
  }

  /** Step `i` submits request `r`; a later step `j` verifies it with `hash`, by the token sent, within a
      day, and while the link it was submitted through is still live. */
  ghost predicate VerifiedWay(o: Org, acts: seq<Act>, i: int, j: int, r: Id, hash: Hash) {
    && i < j && SubmittedAt(o, acts, i, r) && VerifiedAt(o, acts, j, r, hash)
    && acts[j].secret == acts[i].secret && acts[j].now < acts[i].now + DAY
    && LinkLive(Run(o, acts[..j]).links, acts[i].link, acts[j].now)
  }

  lemma WayEarlier(o: Org, acts: seq<Act>, n: nat, i: int, j: int, r: Id, hash: Hash)
    requires n <= |acts| && VerifiedWay(o, acts[..n], i, j, r, hash)
    ensures VerifiedWay(o, acts, i, j, r, hash)
  {
    assert acts[..n][..i] == acts[..i];
    assert acts[..n][..j] == acts[..j];
    hide LinkLive, MayVerify, EmailTaken, Run;
  }

  /** A verification ends such a way. */
  lemma VerifiedWasSubmitted(o: Org, acts: seq<Act>, r: Id, hash: Hash) returns (i: nat)
    requires o.requests == map[] && acts != [] && VerifiedAt(o, acts, |acts| - 1, r, hash)
    requires r in Run(o, acts).requests
    ensures VerifiedWay(o, acts, i, |acts| - 1, r, hash)
    ensures SubmittedRow(acts[i], Run(o, acts).requests[r])
  {
    var n := |acts| - 1;
    i := RequestWasSubmitted(o, acts[..n], r);
    assert acts[..n][..i] == acts[..i];
    RequestStep(Run(o, acts[..n]), acts[n], r);
    RowPersists(acts[i], Run(o, acts[..n]).requests[r], Run(o, acts).requests[r]);
  }

  lemma {:induction false} PendingWasVerified(o: Org, acts: seq<Act>, r: Id) returns (i: nat, j: nat)
    requires o.requests == map[]
    requires r in Run(o, acts).requests && Run(o, acts).requests[r].status == Pending
    requires Run(o, acts).requests[r].hash.Some?
    ensures VerifiedWay(o, acts, i, j, r, Run(o, acts).requests[r].hash.value)
    ensures SubmittedRow(acts[i], Run(o, acts).requests[r])
  {
    i, j := 0, 0;
    hide VerifiedWay, SubmittedRow, MayVerify;
    if acts != [] {
      var n := |acts| - 1;
      var hash := Run(o, acts).requests[r].hash.value;
      PendingStep(Run(o, acts[..n]), acts[n], r);
      if r in Run(o, acts[..n]).requests && Run(o, acts[..n]).requests[r] == Run(o, acts).requests[r] {
        i, j := PendingWasVerified(o, acts[..n], r);
        WayEarlier(o, acts, n, i, j, r, hash);
        WayIsWithin(o, acts[..n], i, j, r, hash);
      } else {
        i := VerifiedWasSubmitted(o, acts, r, hash);
        j := n;
      }
    }
  }

  lemma WayIsWithin(o: Org, acts: seq<Act>, i: int, j: int, r: Id, hash: Hash)
    requires VerifiedWay(o, acts, i, j, r, hash)
    ensures 0 <= i < j < |acts| && acts[i].Submit?
  {
  }

  /** An account from a join request appears only when an Admin approves the pending request, and it
      starts with the address and the hash the request holds and the role the Admin names. */
  lemma JoinStep(o: Org, a: Act, u: Id, r: Id)
    requires o.origins.Keys == o.users.Keys
    requires u in Next(o, a).org.origins && Next(o, a).org.origins[u] == ByJoin(r)
    ensures (u in o.origins && o.origins[u] == ByJoin(r))
         || (a.Review? && a.id == r && a.approve && a.account == u && Next(o, a).reply == Done
             && u in Next(o, a).org.users
             && r in o.requests && o.requests[r].status == Pending && o.requests[r].hash.Some?
             && o.active && IsAdmin(o.users, a.actor)
             && Next(o, a).org.users[u] == User(o.requests[r].email, a.role, o.requests[r].hash.value, Working,
                                                true, false, false, None))
  {
  }

  lemma OriginKeys(o: Org)
    requires Ok(o)
    ensures o.origins.Keys == o.users.Keys
  {
  }

  lemma NoJoinsYet(o: Org)
    requires Ok(o) && o.requests == map[]
    ensures forall u :: u in o.origins ==> !o.origins[u].ByJoin?
  {
  }

  lemma ApprovedEarlier(o: Org, acts: seq<Act>, n: nat, k: int, r: Id, account: Id, email: Email, hash: Hash)
    requires n <= |acts| && ApprovedAt(o, acts[..n], k, r, account, email, hash)
    ensures ApprovedAt(o, acts, k, r, account, email, hash)
  {
    assert acts[..n][..k] == acts[..k];
    hide Next, Run;
  }

  lemma ApprovedLast(o: Org, acts: seq<Act>, r: Id, account: Id, email: Email, hash: Hash)
    requires acts != []
    requires var a := acts[|acts| - 1];
             var out := Next(Run(o, acts[..|acts| - 1]), a);
             && a.Review? && a.id == r && a.approve && a.account == account && out.reply == Done
             && account in out.org.users && Run(o, acts[..|acts| - 1]).active
             && IsAdmin(Run(o, acts[..|acts| - 1]).users, a.actor)
             && out.org.users[account] == User(email, a.role, hash, Working, true, false, false, None)
    ensures ApprovedAt(o, acts, |acts| - 1, r, account, email, hash)
  {
  }

  lemma SubmittedEmail(a: Act, row: JoinReq)
    requires a.Submit? && SubmittedRow(a, row)
    ensures row.email == a.email
  {
  }

  /** Every account that came from a join request was first submitted through a link live by its token,
      for an address nobody had; then verified with the token sent, within a day, while the same link was
      still live and the organization active; then approved by an active Admin. It was created with the
      address submitted, the password hash chosen at verification and exactly the role approved. */
  lemma {:induction false} JoinedWasSubmittedVerifiedApproved(o: Org, acts: seq<Act>, u: Id, r: Id)
    returns (i: nat, j: nat, k: nat, hash: Hash)
    requires Ok(o) && o.requests == map[]
    requires u in Run(o, acts).origins && Run(o, acts).origins[u] == ByJoin(r)
    ensures 0 <= i < j < k < |acts| && acts[i].Submit?
    ensures VerifiedWay(o, acts, i, j, r, hash)
    ensures ApprovedAt(o, acts, k, r, u, acts[i].email, hash)
  {
    i, j, k, hash := 0, 0, 0, "";
    NoJoinsYet(o);
    hide Ok, MayVerify, SubmittedRow, VerifiedWay, ApprovedAt, Next;
    if acts != [] {
      var n := |acts| - 1;
      var before := Run(o, acts[..n]);
      RunKeepsOk(o, acts[..n]);
      OriginKeys(before);
      JoinStep(before, acts[n], u, r);
      if u in before.origins && before.origins[u] == ByJoin(r) {
        i, j, k, hash := JoinedWasSubmittedVerifiedApproved(o, acts[..n], u, r);
        WayEarlier(o, acts, n, i, j, r, hash);
        ApprovedEarlier(o, acts, n, k, r, u, acts[i].email, hash);
      } else {
        hash := before.requests[r].hash.value;
        i, j := PendingWasVerified(o, acts[..n], r);
        WayEarlier(o, acts, n, i, j, r, hash);
        WayIsWithin(o, acts[..n], i, j, r, hash);
        SubmittedEmail(acts[i], before.requests[r]);
        k := n;
        ApprovedLast(o, acts, r, u, acts[i].email, hash);
      }
    }
  }

  // ---- from the foundation ----

  /** Whatever is done in an organization after its foundation: every address has one account at most,
      every account exactly one origin, a settled join request is settled, and an Admin remains. */
  lemma ReachableOrganization(id: Id, founder: User, acts: seq<Act>)
    requires founder.role == Admin && founder.standing == Working && !founder.changeRequired && !founder.provisioned
    ensures var now := Run(Founded(id, founder), acts);
            && Ok(now) && RequestLinks(now.requests, now.links)
            && (forall a, b :: a in now.users && b in now.users && now.users[a].email == now.users[b].email ==> a == b)
            && now.origins.Keys == now.users.Keys
            && (exists u :: u in now.users && IsAdmin(now.users, u))
  {
    FoundedIsOk(id, founder);
    RunKeepsOk(Founded(id, founder), acts);
    RunKeepsRequestLinks(Founded(id, founder), acts);
    AddressesAreUnique(Founded(id, founder), acts, "", "x");
  }
}
