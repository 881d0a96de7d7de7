/** The onboarding services as they run: one object holds an organization's identity tables, each
    method is one transaction on them and is proved equal to its value-level step. */
module OnboardingDesk {
  import opened Wrappers
  import opened Onboarding

  class Desk {
    var active: bool
    var platform: set<Email>
    var users: map<Id, User>
    var links: map<Id, Link>
    var requests: map<Id, JoinReq>
    var invites: map<Id, Inv>
    var changes: map<Id, Change>
    ghost var origins: map<Id, Origin>

    ghost function View(): Org
      reads this
    {
      Org(active, platform, users, links, requests, invites, origins, changes)
    }

    constructor (id: Id, founder: User)
      ensures View() == Founded(id, founder)
    {
      active, platform, users := true, {}, map[id := founder];
      links, requests, invites, origins, changes := map[], map[], map[], map[id := Founder], map[];
    }

    predicate Taken(email: Email)
      reads this
      ensures Taken(email) == EmailTaken(View(), email)
    {
      email in platform || UserEmail(users, email)
    }

    /** `create_signup_link`: revoke the earlier links one by one, then issue the new one. */
    method CreateSignupLink(actor: Id, days: nat, id: Id, token: string, now: nat) returns (reply: Reply)
      modifies this`links
      ensures Out(View(), reply) == AfterCreateLink(old(View()), actor, days, id, token, now)
    {
      if !active || !IsAdmin(users, actor) { return Refused; }
      if days !in {1, 7, 14, 30} { return Refused; }
      if id in links || LinkTokenUsed(links, token) { return Broken; }
      ghost var was := links;
      var todo := set l | l in links && !links[l].revoked;
      while todo != {}
        invariant todo <= links.Keys && links.Keys == was.Keys
        invariant forall l :: l in was ==> links[l] == if l in todo then was[l] else was[l].(revoked := true)
        decreases |todo|
      {
        var previous :| previous in todo;
        links := links[previous := links[previous].(revoked := true)];
        todo := todo - {previous};
      }
      assert links == RevokeAll(was);
      links := links[id := Link(token, now + days * DAY, false)];
      reply := Done;
    }

    /** `submit_join_request`. */
    method SubmitJoinRequest(l: Id, token: string, email: Email, id: Id, secret: string, now: nat) returns (reply: Reply)
      modifies this`requests
      ensures Out(View(), reply) == AfterSubmit(old(View()), l, token, email, id, secret, now)
    {
      if !active || !LinkLive(links, l, now) || links[l].token != token { return Refused; }
      if Taken(email) { return Ignored; }
      requests := ExpireStale(requests, links, email, now);
      if HasOpenRequest(requests, email) { return Ignored; }
      if id in requests || RequestTokenUsed(requests, secret) { return Ignored; }
      requests := requests[id := JoinReq(email, l, Some(secret), Earlier(links[l].expires, now + DAY), None, false,
                                         Unverified, None, None)];
      reply := Done;
    }

    /** `verify_join_request`. */
    method VerifyJoinRequest(id: Id, secret: string, hash: Hash, now: nat) returns (reply: Reply)
      modifies this`requests
      ensures Out(View(), reply) == AfterVerify(old(View()), id, secret, hash, now)
    {
      if id !in requests || requests[id].status != Unverified || requests[id].token != Some(secret) { return Refused; }
      if !active { return Refused; }
      if !LinkLive(links, requests[id].link, now) || requests[id].tokenExpires <= now { return Refused; }
      var row := requests[id];
      row := row.(status := Pending, verified := true);
      row := row.(hash := Some(hash));
      row := row.(token := None);
      requests := requests[id := row];
      reply := Done;
    }

    /** The checks of `review_join_request`. */
    method CheckReview(actor: Id, id: Id, approve: bool, role: Role, account: Id) returns (reply: Reply)
      ensures reply == ReviewCheck(View(), actor, id, approve, role, account)
    {
      if !active || !IsAdmin(users, actor) { return Refused; }
      if id !in requests { return Refused; }
      var row := requests[id];
      if approve && row.status == Approved {
        if row.role != Some(role) { return Refused; }
        return Unchanged;
      }
      if !approve && row.status == Rejected { return Unchanged; }
      if row.status != Pending || !row.verified || row.hash.None? { return Refused; }
      if approve && (Taken(row.email) || account in users) { return Refused; }
      reply := Done;
    }

    /** `review_join_request`. */
    method ReviewJoinRequest(actor: Id, id: Id, approve: bool, role: Role, account: Id) returns (reply: Reply)
      modifies this
      ensures Out(View(), reply) == AfterReview(old(View()), actor, id, approve, role, account)
    {
      reply := CheckReview(actor, id, approve, role, account);
      if reply != Done { return; }
      var row := requests[id];
      if approve {
        users := users[account := User(row.email, role, row.hash.value, Working, true, false, false, None)];
        origins := origins[account := ByJoin(id)];
        row := row.(user := Some(account), role := Some(role), status := Approved);
      } else {
        row := row.(status := Rejected);
      }
      requests := requests[id := row.(hash := None, token := None)];
    }

    /** `InvitationsView.post`. */
    method PostInvitation(actor: Id, email: Email, role: Role, id: Id, token: string, now: nat) returns (reply: Reply)
      modifies this`invites
      ensures Out(View(), reply) == AfterInvite(old(View()), actor, email, role, id, token, now)
    {
      if !active || !IsAdmin(users, actor) { return Refused; }
      if id in invites || InviteTokenUsed(invites, token) { return Broken; }
      var deliverable := !Taken(email);
      invites := RevokeInvites(invites, email);
      invites := invites[id := Inv(email, role, token, now + 7 * DAY, deliverable, Open)];
      reply := Done;
    }

    /** `InvitationResendView.post`. */
    method ResendInvitation(actor: Id, id: Id, token: string, now: nat) returns (reply: Reply)
      modifies this`invites
      ensures Out(View(), reply) == AfterResend(old(View()), actor, id, token, now)
    {
      if !active || !IsAdmin(users, actor) || id !in invites || invites[id].status != Open { return Refused; }
      if InviteTokenUsed(invites, token) { return Broken; }
      var row := invites[id];
      row := row.(token := token, expires := now + 7 * DAY);
      row := row.(deliverable := !Taken(row.email));
      invites := invites[id := row];
      reply := Done;
    }

    /** `InvitationAcceptView.post`. */
    method AcceptInvitation(id: Id, token: string, hash: Hash, account: Id, now: nat) returns (reply: Reply)
      modifies this
      ensures Out(View(), reply) == AfterAccept(old(View()), id, token, hash, account, now)
    {
      if id !in invites || invites[id].status != Open || invites[id].token != token { return Refused; }
      if !active || invites[id].expires <= now { return Refused; }
      var row := invites[id];
      if Taken(row.email) { return Refused; }
      if account in users || UserEmail(users, row.email) { return Broken; }
      users := users[account := User(row.email, row.role, hash, Working, true, false, false, None)];
      origins := origins[account := ByInvitation(id)];
      invites := invites[id := row.(status := Accepted(account))];
      reply := Done;
    }

    /** `provision_temporary_user`: create the account, then revoke its pending invitations one by one. */
    method ProvisionTemporaryUser(actor: Id, email: Email, role: Role, replace: bool, account: Id, hash: Hash, now: nat)
      returns (reply: Reply)
      modifies this
      ensures Out(View(), reply) == AfterProvision(old(View()), actor, email, role, replace, account, hash, now)
    {
      if !active || !IsAdmin(users, actor) { return Refused; }
      if Taken(email) || HasOpenRequest(requests, email) { return Refused; }
      if !replace && LiveInvite(invites, email, now) { return Refused; }
      if account in users || UserEmail(users, email) { return Refused; }
      users := users[account := User(email, role, hash, Working, false, true, true, Some(now + 7 * DAY))];
      origins := origins[account := ByProvision(actor)];
      invites := RevokeOneByOne(invites, email);
      reply := Done;
    }

    /** `UserDetailView.patch`: role and standing. */
    method PatchUser(actor: Id, id: Id, role: Option<Role>, suspend: Option<bool>) returns (reply: Reply)
      modifies this`users
      ensures Out(View(), reply) == AfterPatch(old(View()), actor, id, role, suspend)
    {
      if !active || !IsAdmin(users, actor) || id !in users { return Refused; }
      var member := users[id];
      var newRole := if role.Some? then role.value else member.role;
      var standing := if suspend.None? then member.standing else if suspend.value then Suspended else Working;
      if id == actor && (newRole != member.role || standing != member.standing) { return Refused; }
      if member.role == Admin && member.standing == Working && !member.changeRequired {
        var losing := newRole != Admin || standing != Working;
        if losing && !OtherAdmin(users, id) { return Refused; }
      }
      users := users[id := member.(role := newRole, standing := standing)];
      reply := Done;
    }

    /** `UserDetailView.delete`. */
    method DeleteUser(actor: Id, id: Id) returns (reply: Reply)
      modifies this`users
      ensures Out(View(), reply) == AfterRemove(old(View()), actor, id)
    {
      if !active || !IsAdmin(users, actor) || id !in users || id == actor { return Refused; }
      if IsAdmin(users, id) && !OtherAdmin(users, id) { return Refused; }
      if !AliasFree(users, id) { return Broken; }
      var member := users[id];
      member := member.(standing := Removed);
      member := member.(email := Alias(id));
      users := users[id := member];
      reply := Done;
    }

    /** The email half of `ProfileView.put`. */
    method RequestEmailChange(u: Id, email: Email, knows: bool, token: string, now: nat) returns (reply: Reply)
      modifies this`changes
      ensures Out(View(), reply) == AfterRequestEmail(old(View()), u, email, knows, token, now)
    {
      if !active || !IsActive(users, u) { return Refused; }
      if email == users[u].email { return Unchanged; }
      if !knows { return Refused; }
      if email in platform || exists other :: other in users && other != u && users[other].email == email {
        return Refused;
      }
      changes := changes[u := Change(token, email, now + DAY)];
      reply := Done;
    }

    /** `VerifyEmailView.post`; an address taken meanwhile undoes the consumption of the token. */
    method ConfirmEmailChange(u: Id, token: string, now: nat) returns (reply: Reply)
      modifies this`users, this`changes
      ensures Out(View(), reply) == AfterConfirmEmail(old(View()), u, token, now)
    {
      if u !in changes || u !in users || changes[u].token != token { return Refused; }
      if !active || changes[u].expires <= now { return Refused; }
      var before := changes;
      var pending := changes[u].email;
      changes := changes - {u};
      if pending in platform || exists other :: other in users && other != u && users[other].email == pending {
        changes := before;
        return Refused;
      }
      users := users[u := users[u].(email := pending, verified := true)];
      reply := Done;
    }
  }

  method RevokeOneByOne(invites: map<Id, Inv>, email: Email) returns (r: map<Id, Inv>)
    ensures r == RevokeInvites(invites, email)
  {
    r := invites;
    var todo := set i | i in invites && PendingInvite(invites[i], email);
    while todo != {}
      invariant todo <= invites.Keys && r.Keys == invites.Keys
      invariant forall i :: i in todo ==> PendingInvite(invites[i], email)
      invariant forall i :: i in invites ==>
                  r[i] == if PendingInvite(invites[i], email) && i !in todo then invites[i].(status := Revoked) else invites[i]
      decreases |todo|
    {
      var i :| i in todo;
      r := r[i := r[i].(status := Revoked)];
      todo := todo - {i};
    }
  }
}
