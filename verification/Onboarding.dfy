/** How an organization's accounts come about: shared sign-up links with verified join requests,
    invitations, and provisioning with a temporary password. One organization's tables, as values. */
module Onboarding {
  import opened Wrappers

  type Id = string
  type Email = string    // lower-cased, as every route stores it
  type Hash = string

  datatype Role = Admin | Operations | Finance | Viewer

  datatype Standing = Working | Suspended | Removed

  datatype User = User(email: Email, role: Role, password: Hash, standing: Standing, verified: bool,
                       provisioned: bool, changeRequired: bool, expires: Option<nat>)

  datatype Link = Link(token: string, expires: nat, revoked: bool)

  datatype ReqStatus = Unverified | Pending | Approved | Rejected | Expired

  /** A join request; `hash` is the password chosen at verification, None for the empty string. */
  datatype JoinReq = JoinReq(email: Email, link: Id, token: Option<string>, tokenExpires: nat,
                             hash: Option<Hash>, verified: bool, status: ReqStatus,
                             role: Option<Role>, user: Option<Id>)

  /** An accepted invitation records, for the model, the account it became. */
  datatype InvStatus = Open | Accepted(account: Id) | Revoked

  datatype Inv = Inv(email: Email, role: Role, token: string, expires: nat, deliverable: bool, status: InvStatus)

  /** The record an account came from. */
  datatype Origin = Founder | ByJoin(request: Id) | ByInvitation(invitation: Id) | ByProvision(admin: Id)

  /** An email change that awaits confirmation through its token. */
  datatype Change = Change(token: string, email: Email, expires: nat)

  /** `platform` holds the emails of platform operators, which no customer account may use. */
  datatype Org = Org(active: bool, platform: set<Email>, users: map<Id, User>, links: map<Id, Link>,
                     requests: map<Id, JoinReq>, invites: map<Id, Inv>, origins: map<Id, Origin>,
                     changes: map<Id, Change>)

  /** `Broken` is an unhandled constraint error: the transaction rolls back. */
  datatype Reply = Done | Unchanged | Ignored | Refused | Broken

  datatype Out = Out(org: Org, reply: Reply)

  const DAY: nat := 86_400

  // ---- checks ----

  predicate UserEmail(users: map<Id, User>, email: Email) {
    exists u :: u in users && users[u].email == email
  }

  /** `account_email_unavailable`. */
  predicate EmailTaken(o: Org, email: Email) {
    email in o.platform || UserEmail(o.users, email)
  }

  /** An active Admin of the organization who is not awaiting a password change. */
  predicate IsAdmin(users: map<Id, User>, u: Id) {
    u in users && users[u].role == Admin && users[u].standing == Working && !users[u].changeRequired
  }

  predicate OpenRequest(r: JoinReq) { r.status == Unverified || r.status == Pending }

  predicate HasOpenRequest(requests: map<Id, JoinReq>, email: Email) {
    exists r :: r in requests && requests[r].email == email && OpenRequest(requests[r])
  }

  predicate LinkLive(links: map<Id, Link>, l: Id, now: nat) {
    l in links && !links[l].revoked && links[l].expires > now
  }

  predicate PendingInvite(i: Inv, email: Email) { i.email == email && i.status == Open }

  // ---- sign-up links ----

  function RevokeAll(links: map<Id, Link>): (r: map<Id, Link>)
    ensures r.Keys == links.Keys
    ensures forall l :: l in links ==> r[l] == links[l].(revoked := true)
  {
    map l | l in links :: links[l].(revoked := true)
  }

  predicate LinkTokenUsed(links: map<Id, Link>, token: string) {
    exists l :: l in links && links[l].token == token
  }

  /** `create_signup_link`. */
  function AfterCreateLink(o: Org, actor: Id, days: nat, id: Id, token: string, now: nat): Out {
    if !o.active || !IsAdmin(o.users, actor) || days !in {1, 7, 14, 30} then Out(o, Refused)
    else if id in o.links || LinkTokenUsed(o.links, token) then Out(o, Broken)
    else Out(o.(links := RevokeAll(o.links)[id := Link(token, now + days * DAY, false)]), Done)
  }

  function AfterRevokeLink(o: Org, actor: Id, id: Id): Out {
    if !o.active || !IsAdmin(o.users, actor) || id !in o.links then Out(o, Refused)
    else Out(o.(links := o.links[id := o.links[id].(revoked := true)]), Done)
  }

  // ---- join requests ----

  /** An unverified request that may no longer hold its address. */
  predicate Stale(r: JoinReq, links: map<Id, Link>, email: Email, now: nat) {
    && r.status == Unverified && r.email == email
    && (r.tokenExpires <= now || (r.link in links && (links[r.link].revoked || links[r.link].expires <= now)))
  }

  function ExpireStale(requests: map<Id, JoinReq>, links: map<Id, Link>, email: Email, now: nat): (r: map<Id, JoinReq>)
    ensures r.Keys == requests.Keys
    ensures forall id :: id in requests ==>
              r[id] == if Stale(requests[id], links, email, now)
                       then requests[id].(status := Expired, hash := None, token := None) else requests[id]
  {
    map id | id in requests ::
      if Stale(requests[id], links, email, now)
      then requests[id].(status := Expired, hash := None, token := None) else requests[id]
  }

  predicate RequestTokenUsed(requests: map<Id, JoinReq>, token: string) {
    exists r :: r in requests && requests[r].token == Some(token)
  }

  function Earlier(a: nat, b: nat): nat { if a <= b then a else b }

  /** `submit_join_request`; an address already spoken for is silently ignored. */
  function AfterSubmit(o: Org, l: Id, token: string, email: Email, id: Id, secret: string, now: nat): Out {
    if !o.active || !LinkLive(o.links, l, now) || o.links[l].token != token then Out(o, Refused)
    else if EmailTaken(o, email) then Out(o, Ignored)
    else
      var requests := ExpireStale(o.requests, o.links, email, now);
      if HasOpenRequest(requests, email) || id in requests || RequestTokenUsed(requests, secret)
      then Out(o.(requests := requests), Ignored)
      else
        var row := JoinReq(email, l, Some(secret), Earlier(o.links[l].expires, now + DAY), None, false,
                           Unverified, None, None);
        Out(o.(requests := requests[id := row]), Done)
  }

  /** `verify_join_request`; `id` is the request the token's digest finds. */
  predicate MayVerify(o: Org, id: Id, secret: string, now: nat) {
    && o.active && id in o.requests && o.requests[id].status == Unverified
    && o.requests[id].token == Some(secret)
    && LinkLive(o.links, o.requests[id].link, now) && o.requests[id].tokenExpires > now
  }

  function AfterVerify(o: Org, id: Id, secret: string, hash: Hash, now: nat): Out {
    if !MayVerify(o, id, secret, now) then Out(o, Refused)
    else
      var row := o.requests[id].(status := Pending, verified := true, hash := Some(hash), token := None);
      Out(o.(requests := o.requests[id := row]), Done)
  }

  function Joined(r: JoinReq, hash: Hash, role: Role): User {
    User(r.email, role, hash, Working, true, false, false, None)
  }

  /** The checks of `review_join_request` in their order; `Done` goes on to write. */
  function ReviewCheck(o: Org, actor: Id, id: Id, approve: bool, role: Role, account: Id): Reply {
    if !o.active || !IsAdmin(o.users, actor) || id !in o.requests then Refused
    else
      var r := o.requests[id];
      if approve && r.status == Approved then (if r.role == Some(role) then Unchanged else Refused)
      else if !approve && r.status == Rejected then Unchanged
      else if r.status != Pending || !r.verified || r.hash.None? then Refused
      else if approve && (EmailTaken(o, r.email) || account in o.users) then Refused
      else Done
  }

  /** `review_join_request`; `account` is the key drawn for the new account. */
  function AfterReview(o: Org, actor: Id, id: Id, approve: bool, role: Role, account: Id): Out {
    var check := ReviewCheck(o, actor, id, approve, role, account);
    if check != Done then Out(o, check)
    else if approve then
      var row := o.requests[id].(user := Some(account), role := Some(role), status := Approved, hash := None, token := None);
      Out(o.(users := o.users[account := Joined(o.requests[id], o.requests[id].hash.value, role)],
             requests := o.requests[id := row], origins := o.origins[account := ByJoin(id)]), Done)
    else
      Out(o.(requests := o.requests[id := o.requests[id].(status := Rejected, hash := None, token := None)]), Done)
  }

  // ---- invitations ----

  function RevokeInvites(invites: map<Id, Inv>, email: Email): (r: map<Id, Inv>)
    ensures r.Keys == invites.Keys
    ensures forall i :: i in invites ==>
              r[i] == if PendingInvite(invites[i], email) then invites[i].(status := Revoked) else invites[i]
  {
    map i | i in invites :: if PendingInvite(invites[i], email) then invites[i].(status := Revoked) else invites[i]
  }

  predicate InviteTokenUsed(invites: map<Id, Inv>, token: string) {
    exists i :: i in invites && invites[i].token == token
  }

  /** `InvitationsView.post`. */
  function AfterInvite(o: Org, actor: Id, email: Email, role: Role, id: Id, token: string, now: nat): Out {
    if !o.active || !IsAdmin(o.users, actor) then Out(o, Refused)
    else if id in o.invites || InviteTokenUsed(o.invites, token) then Out(o, Broken)
    else
      var row := Inv(email, role, token, now + 7 * DAY, !EmailTaken(o, email), Open);
      Out(o.(invites := RevokeInvites(o.invites, email)[id := row]), Done)
  }

  /** `InvitationResendView.post`: a new token, so the old one no longer works. */
  function AfterResend(o: Org, actor: Id, id: Id, token: string, now: nat): Out {
    if !o.active || !IsAdmin(o.users, actor) || id !in o.invites || o.invites[id].status != Open then Out(o, Refused)
    else if InviteTokenUsed(o.invites, token) then Out(o, Broken)
    else
      var row := o.invites[id].(token := token, expires := now + 7 * DAY, deliverable := !EmailTaken(o, o.invites[id].email));
      Out(o.(invites := o.invites[id := row]), Done)
  }

  function AfterWithdraw(o: Org, actor: Id, id: Id): Out {
    if !o.active || !IsAdmin(o.users, actor) || id !in o.invites || o.invites[id].status != Open then Out(o, Refused)
    else Out(o.(invites := o.invites[id := o.invites[id].(status := Revoked)]), Done)
  }

  function Invited(i: Inv, hash: Hash): User {
    User(i.email, i.role, hash, Working, true, false, false, None)
  }

  /** The database's constraints on a new account row. */
  predicate Insertable(users: map<Id, User>, account: Id, email: Email) {
    account !in users && !UserEmail(users, email)
  }

  /** `InvitationAcceptView.post`; `id` is the invitation the token's digest finds. */
  function AfterAccept(o: Org, id: Id, token: string, hash: Hash, account: Id, now: nat): Out {
    if !o.active || id !in o.invites || o.invites[id].status != Open || o.invites[id].token != token
       || o.invites[id].expires <= now then Out(o, Refused)
    else if EmailTaken(o, o.invites[id].email) then Out(o, Refused)
    else if !Insertable(o.users, account, o.invites[id].email) then Out(o, Broken)
    else
      Out(o.(users := o.users[account := Invited(o.invites[id], hash)],
             invites := o.invites[id := o.invites[id].(status := Accepted(account))],
             origins := o.origins[account := ByInvitation(id)]), Done)
  }

  // ---- provisioning ----

  predicate LiveInvite(invites: map<Id, Inv>, email: Email, now: nat) {
    exists i :: i in invites && PendingInvite(invites[i], email) && invites[i].expires > now
  }

  function Provisioned(email: Email, role: Role, hash: Hash, now: nat): User {
    User(email, role, hash, Working, false, true, true, Some(now + 7 * DAY))
  }

  /** `provision_temporary_user`. */
  function AfterProvision(o: Org, actor: Id, email: Email, role: Role, replace: bool, account: Id, hash: Hash, now: nat): Out {
    if !o.active || !IsAdmin(o.users, actor) then Out(o, Refused)
    else if EmailTaken(o, email) || HasOpenRequest(o.requests, email) then Out(o, Refused)
    else if !replace && LiveInvite(o.invites, email, now) then Out(o, Refused)
    else if !Insertable(o.users, account, email) then Out(o, Refused)
    else
      Out(o.(users := o.users[account := Provisioned(email, role, hash, now)],
             invites := RevokeInvites(o.invites, email),
             origins := o.origins[account := ByProvision(actor)]), Done)
  }

  // ---- editing and removing accounts ----

  predicate OtherAdmin(users: map<Id, User>, u: Id) {
    exists other :: other in users && other != u && IsAdmin(users, other)
  }

  /** `UserDetailView.patch`: role and standing; nobody changes their own, and an Admin in good standing
      is not taken away unless another is left. */
  function AfterPatch(o: Org, actor: Id, id: Id, role: Option<Role>, suspend: Option<bool>): Out {
    if !o.active || !IsAdmin(o.users, actor) || id !in o.users then Out(o, Refused)
    else
      var was := o.users[id];
      var row := was.(role := if role.Some? then role.value else was.role,
                      standing := if suspend.None? then was.standing
                                  else if suspend.value then Suspended else Working);
      if id == actor && (row.role != was.role || row.standing != was.standing) then Out(o, Refused)
      else if IsAdmin(o.users, id) && !(row.role == Admin && row.standing == Working) && !OtherAdmin(o.users, id)
      then Out(o, Refused)
      else Out(o.(users := o.users[id := row]), Done)
  }

  function Alias(id: Id): Email { "removed+" + id + "@invalid.local" }

  predicate AliasFree(users: map<Id, User>, id: Id) {
    forall other :: other in users && other != id ==> users[other].email != Alias(id)
  }

  /** `UserDetailView.delete`: the row stays, under an alias address. */
  function AfterRemove(o: Org, actor: Id, id: Id): Out {
    if !o.active || !IsAdmin(o.users, actor) || id !in o.users || id == actor then Out(o, Refused)
    else if IsAdmin(o.users, id) && !OtherAdmin(o.users, id) then Out(o, Refused)
    else if !AliasFree(o.users, id) then Out(o, Broken)
    else Out(o.(users := o.users[id := o.users[id].(standing := Removed, email := Alias(id))]), Done)
  }

  // ---- what an account does for itself ----

  /** `User.is_active`, apart from the organization's own access. */
  predicate IsActive(users: map<Id, User>, u: Id) {
    u in users && users[u].standing == Working && !users[u].changeRequired
  }

  /** `account_email_unavailable` leaving the account itself out. */
  predicate TakenByOther(o: Org, u: Id, email: Email) {
    email in o.platform || exists other :: other in o.users && other != u && o.users[other].email == email
  }

  /** The email half of `ProfileView.put`; `knows` is the verdict on the current password. A new request
      replaces the one before it. */
  function AfterRequestEmail(o: Org, u: Id, email: Email, knows: bool, token: string, now: nat): Out {
    if !o.active || !IsActive(o.users, u) then Out(o, Refused)
    else if email == o.users[u].email then Out(o, Unchanged)
    else if !knows || TakenByOther(o, u, email) then Out(o, Refused)
    else Out(o.(changes := o.changes[u := Change(token, email, now + DAY)]), Done)
  }

  /** `VerifyEmailView.post` for an email change; `u` is the account the token's digest finds. The
      account's own standing is not asked. */
  function AfterConfirmEmail(o: Org, u: Id, token: string, now: nat): Out {
    if !o.active || u !in o.changes || u !in o.users || o.changes[u].token != token || o.changes[u].expires <= now
    then Out(o, Refused)
    else if TakenByOther(o, u, o.changes[u].email) then Out(o, Refused)
    else Out(o.(users := o.users[u := o.users[u].(email := o.changes[u].email, verified := true)],
                changes := o.changes - {u}), Done)
  }

  /** `complete_temporary_password`, as far as the account row goes. */
  function AfterCompleteChange(o: Org, u: Id, hash: Hash, now: nat): Out {
    if !o.active || u !in o.users || o.users[u].standing != Working || !o.users[u].provisioned
       || !o.users[u].changeRequired || o.users[u].expires.None? || o.users[u].expires.value <= now
    then Out(o, Refused)
    else Out(o.(users := o.users[u := o.users[u].(password := hash, changeRequired := false, expires := None)]), Done)
  }

  /** A password changed or reset by the account's owner. */
  function AfterNewPassword(o: Org, u: Id, hash: Hash): Out {
    if !o.active || u !in o.users || o.users[u].changeRequired then Out(o, Refused)
    else Out(o.(users := o.users[u := o.users[u].(password := hash)]), Done)
  }

  // ---- the organization's lifecycle ----

  function RevokeOpen(invites: map<Id, Inv>): (r: map<Id, Inv>)
    ensures r.Keys == invites.Keys
    ensures forall i :: i in invites ==>
              r[i] == if invites[i].status == Open then invites[i].(status := Revoked) else invites[i]
  {
    map i | i in invites :: if invites[i].status == Open then invites[i].(status := Revoked) else invites[i]
  }

  // ---- requests ----

  datatype Act =
    | CreateLink(actor: Id, days: nat, id: Id, token: string, now: nat)
    | RevokeLink(actor: Id, id: Id)
    | Submit(link: Id, token: string, email: Email, id: Id, secret: string, now: nat)
    | Verify(id: Id, secret: string, hash: Hash, now: nat)
    | Review(actor: Id, id: Id, approve: bool, role: Role, account: Id)
    | Invite(actor: Id, email: Email, role: Role, id: Id, token: string, now: nat)
    | Resend(actor: Id, id: Id, token: string, now: nat)
    | Withdraw(actor: Id, id: Id)
    | Accept(id: Id, token: string, hash: Hash, account: Id, now: nat)
    | Provision(actor: Id, email: Email, role: Role, replace: bool, account: Id, hash: Hash, now: nat)
    | Patch(actor: Id, id: Id, newRole: Option<Role>, suspend: Option<bool>)
    | Remove(actor: Id, id: Id)
    | RequestEmail(u: Id, email: Email, knows: bool, token: string, now: nat)
    | ConfirmEmail(u: Id, token: string, now: nat)
    | CompleteChange(u: Id, hash: Hash, now: nat)
    | NewPassword(u: Id, hash: Hash)
    | SuspendOrg
    | ReactivateOrg
    | SetPlatform(platform: set<Email>)

  function Next(o: Org, a: Act): Out {
    match a
    case CreateLink(actor, days, id, token, now) => AfterCreateLink(o, actor, days, id, token, now)
    case RevokeLink(actor, id) => AfterRevokeLink(o, actor, id)
    case Submit(l, token, email, id, secret, now) => AfterSubmit(o, l, token, email, id, secret, now)
    case Verify(id, secret, hash, now) => AfterVerify(o, id, secret, hash, now)
    case Review(actor, id, approve, role, account) => AfterReview(o, actor, id, approve, role, account)
    case Invite(actor, email, role, id, token, now) => AfterInvite(o, actor, email, role, id, token, now)
    case Resend(actor, id, token, now) => AfterResend(o, actor, id, token, now)
    case Withdraw(actor, id) => AfterWithdraw(o, actor, id)
    case Accept(id, token, hash, account, now) => AfterAccept(o, id, token, hash, account, now)
    case Provision(actor, email, role, replace, account, hash, now) =>
      AfterProvision(o, actor, email, role, replace, account, hash, now)
    case Patch(actor, id, role, suspend) => AfterPatch(o, actor, id, role, suspend)
    case Remove(actor, id) => AfterRemove(o, actor, id)
    case RequestEmail(u, email, knows, token, now) => AfterRequestEmail(o, u, email, knows, token, now)
    case ConfirmEmail(u, token, now) => AfterConfirmEmail(o, u, token, now)
    case CompleteChange(u, hash, now) => AfterCompleteChange(o, u, hash, now)
    case NewPassword(u, hash) => AfterNewPassword(o, u, hash)
    case SuspendOrg => Out(o.(active := false, invites := RevokeOpen(o.invites), changes := map[]), Done)
    case ReactivateOrg => Out(o.(active := true), Done)
    case SetPlatform(platform) => Out(o.(platform := platform), Done)
  }

  // ---- the invariant ----

  ghost predicate UsersOk(users: map<Id, User>) {
    forall a, b :: a in users && b in users && a != b ==> users[a].email != users[b].email
  }

  ghost predicate LinksOk(links: map<Id, Link>) {
    forall a, b :: a in links && b in links && a != b ==> links[a].revoked || links[b].revoked
  }

  /** A token exactly while unverified, a password hash exactly while pending. */
  predicate RequestOk(r: JoinReq) {
    && (r.token.Some? <==> r.status == Unverified)
    && (r.hash.Some? <==> r.status == Pending)
    && (r.status == Unverified ==> !r.verified)
    && (r.status == Pending || r.status == Approved ==> r.verified)
    && (r.user.Some? <==> r.status == Approved)
    && (r.status == Approved ==> r.role.Some?)
  }

  ghost predicate RequestsOk(requests: map<Id, JoinReq>) {
    && (forall r :: r in requests ==> RequestOk(requests[r]))
    && (forall a, b :: a in requests && b in requests && a != b && OpenRequest(requests[a]) && OpenRequest(requests[b]) ==>
          requests[a].email != requests[b].email)
  }

  ghost predicate InvitesOk(invites: map<Id, Inv>) {
    forall a, b :: a in invites && b in invites && a != b && invites[a].status == Open && invites[b].status == Open ==>
      invites[a].email != invites[b].email
  }

  /** Account `u` has the record its origin names, and that record names `u`. */
  predicate OriginOk(users: map<Id, User>, requests: map<Id, JoinReq>, invites: map<Id, Inv>, origin: Origin, u: Id) {
    match origin
    case Founder => true
    case ByJoin(r) => r in requests && requests[r].user == Some(u)
    case ByInvitation(i) => i in invites && invites[i].status == Accepted(u)
    case ByProvision(_) => u in users && users[u].provisioned
  }

  ghost predicate OriginsOk(users: map<Id, User>, requests: map<Id, JoinReq>, invites: map<Id, Inv>, origins: map<Id, Origin>) {
    && origins.Keys == users.Keys
    && (forall u :: u in origins ==> OriginOk(users, requests, invites, origins[u], u))
    && (forall u :: u in users && users[u].provisioned ==> origins[u].ByProvision?)
    && (forall r :: r in requests && requests[r].user.Some? ==>
          requests[r].user.value in origins && origins[requests[r].user.value] == ByJoin(r))
    && (forall i :: i in invites && invites[i].status.Accepted? ==>
          invites[i].status.account in origins && origins[invites[i].status.account] == ByInvitation(i))
  }

  ghost predicate SomeAdmin(users: map<Id, User>) {
    exists u :: u in users && IsAdmin(users, u)
  }

  ghost predicate Ok(o: Org) {
    && UsersOk(o.users)
    && LinksOk(o.links)
    && RequestsOk(o.requests)
    && InvitesOk(o.invites)
    && OriginsOk(o.users, o.requests, o.invites, o.origins)
    && SomeAdmin(o.users)
  }

  /** An organization with its first Admin. */
  function Founded(id: Id, founder: User): Org {
    Org(true, {}, map[id := founder], map[], map[], map[], map[id := Founder], map[])
  }
}
