/** The console's lists and a server with the earlier engine's routes: what each of the console's requests
    would write there, what the console makes of the answer, and when the two are the same. The console's
    writes carry no token, which those routes ask for; this is about a server that takes them as an
    Admin's. */
module ConsoleLists {
  import opened Wrappers
  import opened Runs
  import opened RevisionCursor
  import opened OrgRecord

  datatype Call = Call(reference: string, status: string, berthDate: Option<string>, details: string)

  datatype Inspection = Inspection(callId: Id, completed: bool, details: string)

  datatype Payment = Payment(amount: Option<real>, details: string)

  datatype Invoice = Invoice(callId: Id, dues: real, status: string, payment: Option<Payment>, details: string)

  /** The settings record, and equally a form that may leave fields out. */
  datatype Settings = Settings(commission: Option<real>, exchange: Option<real>, liquid: Option<string>,
                               dry: Option<real>, port: Option<string>, terminals: Option<string>,
                               smtp: Option<string>, sms: Option<string>)

  /** The lists, each record under its id. Compared is every field of every record but one: the revision
      copied into the organization record, which the console never reads, and which is behind after each
      own write. */
  datatype Lists = Lists(calls: map<Id, Call>, inspections: map<Id, Inspection>, invoices: map<Id, Invoice>,
                         settings: Settings, org: Org)

  // ---- the server ----

  /** The console's mutating requests. What the server draws (ids, dates, the issued invoice) is part of them. */
  datatype Request =
    | CreateCall(id: Id, call: Call)
    | DeleteCall(id: Id)
    | AddInspection(id: Id, inspection: Inspection, today: string, invoiceId: Id, issued: Invoice)
    | UpdateSettings(form: Settings)
    | UpdateOrganization(org: Org)    // as the screens hand it over, not yet normalized
    | UpdateInvoice(id: Id, status: Option<string>, payment: Option<Option<Payment>>)

  /** How an answer changes the lists. */
  datatype Patch =
    | PutCall(id: Id, call: Call)
    | DropCall(id: Id)
    | PutInspection(id: Id, inspection: Inspection, callId: Id, call: Call, issue: Option<(Id, Invoice)>)
    | SetSettings(settings: Settings)
    | SetOrg(org: Org)
    | SetInvoice(id: Id, invoice: Invoice)
    | Everything(lists: Lists)

  predicate ReferenceUsed(calls: map<Id, Call>, reference: string) {
    exists c :: c in calls && calls[c].reference == reference
  }

  function WithoutCall(l: Lists, id: Id): Lists {
    l.(calls := map c | c in l.calls && c != id :: l.calls[c],
       inspections := map i | i in l.inspections && l.inspections[i].callId != id :: l.inspections[i],
       invoices := map v | v in l.invoices && l.invoices[v].callId != id :: l.invoices[v])
  }

  function Or<T>(form: Option<T>, was: Option<T>): Option<T> { if form.Some? then form else was }

  /** A setting the form leaves out keeps its value. */
  function Merged(was: Settings, form: Settings): Settings {
    Settings(Or(form.commission, was.commission), Or(form.exchange, was.exchange), Or(form.liquid, was.liquid),
             Or(form.dry, was.dry), Or(form.port, was.port), Or(form.terminals, was.terminals),
             Or(form.smtp, was.smtp), Or(form.sms, was.sms))
  }

  /** A recorded payment without an amount settles the dues. */
  function Stamped(p: Option<Payment>, dues: real): Option<Payment> {
    if p.Some? && p.value.amount.None? then Some(p.value.(amount := Some(dues))) else p
  }

  function CallAfter(c: Call, i: Inspection, today: string): Call {
    if !i.completed then c
    else c.(status := "completed",
            berthDate := if c.berthDate in {None, Some("")} then Some(today) else c.berthDate)
  }

  function InvoiceAfter(v: Invoice, status: Option<string>, payment: Option<Option<Payment>>): Invoice {
    v.(status := if status.Some? then status.value else v.status,
       payment := if payment.Some? then Stamped(payment.value, v.dues) else v.payment)
  }

  /** `update_org`: the designated port is stored and reported under both names; id and team stay. */
  function OrgAfter(was: Org, body: Org): Org {
    var port := if body.designatedPort in {None, Some("")} then body.primaryPort else body.designatedPort;
    var stored := if port.Some? then port else was.primaryPort;
    body.(id := was.id, members := was.members, designatedPort := stored, primaryPort := stored)
  }

  /** What an Admin's request must meet. */
  predicate Accepted(l: Lists, r: Request) {
    match r
    case CreateCall(id, call) => id !in l.calls && !ReferenceUsed(l.calls, call.reference)
    case DeleteCall(id) => id in l.calls
    case AddInspection(id, inspection, _, invoiceId, _) =>
      inspection.callId in l.calls && id !in l.inspections && invoiceId !in l.invoices
    case UpdateSettings(_) => true
    case UpdateOrganization(_) => true
    case UpdateInvoice(id, _, _) => id in l.invoices
  }

  /** The server's lists after an accepted request. */
  function Served(l: Lists, r: Request): Lists
    requires Accepted(l, r)
  {
    match r
    case CreateCall(id, call) => l.(calls := l.calls[id := call])
    case DeleteCall(id) => WithoutCall(l, id)
    case AddInspection(id, inspection, today, invoiceId, issued) =>
      var call := CallAfter(l.calls[inspection.callId], inspection, today);
      l.(inspections := l.inspections[id := inspection], calls := l.calls[inspection.callId := call],
         invoices := if inspection.completed then l.invoices[invoiceId := issued] else l.invoices)
    case UpdateSettings(form) => l.(settings := Merged(l.settings, form))
    case UpdateOrganization(org) => l.(org := OrgAfter(l.org, Normalized(Normalized(org))))
    case UpdateInvoice(id, status, payment) =>
      l.(invoices := l.invoices[id := InvoiceAfter(l.invoices[id], status, payment)])
  }

  /** What each request writes, list by list: a deleted call takes its inspections and invoices along, a
      completed inspection completes its call and adds its invoice, a recorded payment without an amount
      settles the dues, a setting left out stays, and the organization keeps its id and team and has one
      primary port under two names. */
  lemma RequestLeaves(l: Lists, r: Request)
    requires Accepted(l, r)
    ensures var after := Served(l, r);
            match r
            case CreateCall(id, call) =>
              after == l.(calls := after.calls) && OnlyRow(l.calls, after.calls, id) && after.calls[id] == call
            case DeleteCall(id) =>
              && after.settings == l.settings && after.org == l.org
              && (forall c :: c in after.calls <==> c in l.calls && c != id)
              && (forall i :: i in after.inspections <==> i in l.inspections && l.inspections[i].callId != id)
              && (forall v :: v in after.invoices <==> v in l.invoices && l.invoices[v].callId != id)
              && (forall c :: c in after.calls ==> after.calls[c] == l.calls[c])
              && (forall i :: i in after.inspections ==> after.inspections[i] == l.inspections[i])
              && (forall v :: v in after.invoices ==> after.invoices[v] == l.invoices[v])
            case AddInspection(id, inspection, today, invoiceId, issued) =>
              && after.settings == l.settings && after.org == l.org
              && OnlyRow(l.inspections, after.inspections, id) && after.inspections[id] == inspection
              && OnlyRow(l.calls, after.calls, inspection.callId)
              && (var was, call := l.calls[inspection.callId], after.calls[inspection.callId];
                  && call.reference == was.reference && call.details == was.details
                  && (if inspection.completed
                      then
                        && call.status == "completed"
                        && call.berthDate == (if was.berthDate.Some? && was.berthDate.value != "" then was.berthDate
                                              else Some(today))
                        && OnlyRow(l.invoices, after.invoices, invoiceId) && after.invoices[invoiceId] == issued
                      else call == was && after.invoices == l.invoices))
            case UpdateSettings(form) =>
              && after == l.(settings := after.settings)
              && (form.commission.Some? ==> after.settings.commission == form.commission)
              && (form.commission.None? ==> after.settings.commission == l.settings.commission)
              && (form.exchange.Some? ==> after.settings.exchange == form.exchange)
              && (form.exchange.None? ==> after.settings.exchange == l.settings.exchange)
              && (form.dry.Some? ==> after.settings.dry == form.dry)
              && (form.dry.None? ==> after.settings.dry == l.settings.dry)
              && after.settings.liquid == (if form.liquid.Some? then form.liquid else l.settings.liquid)
              && after.settings.port == (if form.port.Some? then form.port else l.settings.port)
              && after.settings.terminals == (if form.terminals.Some? then form.terminals else l.settings.terminals)
              && after.settings.smtp == (if form.smtp.Some? then form.smtp else l.settings.smtp)
              && after.settings.sms == (if form.sms.Some? then form.sms else l.settings.sms)
            case UpdateOrganization(org) =>
              && after == l.(org := after.org) && after.org.id == l.org.id && after.org.members == l.org.members
              && after.org.primaryPort == after.org.designatedPort && after.org.name == org.name
              && after.org.rcNumber == org.rcNumber && after.org.email == org.email && after.org.phone == org.phone
              && after.org.address == org.address && after.org.logo == org.logo && after.org.registered == org.registered
              && (NamesPort(org) ==> after.org.ports == Normalized(org).ports
                                     && after.org.primaryPort == Normalized(org).designatedPort)
            case UpdateInvoice(id, status, payment) =>
              && after == l.(invoices := after.invoices) && OnlyRow(l.invoices, after.invoices, id)
              && (var was, row := l.invoices[id], after.invoices[id];
                  && row.callId == was.callId && row.dues == was.dues && row.details == was.details
                  && row.status == (if status.Some? then status.value else was.status)
                  && (payment.None? ==> row.payment == was.payment)
                  && (payment == Some(None) ==> row.payment == None)
                  && (payment.Some? && payment.value.Some? ==>
                        row.payment == Some(Payment(Some(if payment.value.value.amount.Some?
                                                         then payment.value.value.amount.value else was.dues),
                                                    payment.value.value.details))))
  {
    if r.UpdateOrganization? {
      NormalForm(r.org);
      NormalForm(Normalized(r.org));
      OrganizationLeaves(l.org, r.org);
    }
    hide NamesPort, UniquePorts, Normalized, OrgAfter;
  }

  lemma OrganizationLeaves(was: Org, org: Org)
    ensures var after := OrgAfter(was, Normalized(Normalized(org)));
            && after.id == was.id && after.members == was.members && after.primaryPort == after.designatedPort
            && after.name == org.name && after.rcNumber == org.rcNumber && after.email == org.email
            && after.phone == org.phone && after.address == org.address && after.logo == org.logo
            && after.registered == org.registered
            && (NamesPort(org) ==> after.ports == Normalized(org).ports
                                   && after.primaryPort == Normalized(org).designatedPort)
  {
    NormalForm(org);
    hide NamesPort, UniquePorts;
  }

  // ---- the console ----

  /** The lists as the console shows them once loaded: the organization is normalized. */
  function Shown(l: Lists): Lists { l.(org := Normalized(l.org)) }

  /** The answer to a request as the console's mutator uses it: the records the server sends back, but the
      submitted form and organization instead of the saved ones. The organization is normalized once for
      the console itself and again for the request. */
  function PatchOf(l: Lists, r: Request): Patch
    requires Accepted(l, r)
  {
    match r
    case CreateCall(id, call) => PutCall(id, call)
    case DeleteCall(id) => DropCall(id)
    case AddInspection(id, inspection, today, invoiceId, issued) =>
      PutInspection(id, inspection, inspection.callId, CallAfter(l.calls[inspection.callId], inspection, today),
                    if inspection.completed then Some((invoiceId, issued)) else None)
    case UpdateSettings(form) => SetSettings(form)
    case UpdateOrganization(org) => SetOrg(Normalized(org))
    case UpdateInvoice(id, status, payment) => SetInvoice(id, InvoiceAfter(l.invoices[id], status, payment))
  }

  /** The console lays an answer over its lists; a record it does not show is not replaced. */
  function Patched(l: Lists, p: Patch): Lists {
    match p
    case PutCall(id, call) => l.(calls := l.calls[id := call])
    case DropCall(id) => WithoutCall(l, id)
    case PutInspection(id, inspection, callId, call, invoice) =>
      l.(inspections := l.inspections[id := inspection],
         calls := if callId in l.calls then l.calls[callId := call] else l.calls,
         invoices := if invoice.Some? then l.invoices[invoice.value.0 := invoice.value.1] else l.invoices)
    case SetSettings(settings) => l.(settings := settings)
    case SetOrg(org) => l.(org := org)
    case SetInvoice(id, invoice) => if id in l.invoices then l.(invoices := l.invoices[id := invoice]) else l
    case Everything(lists) => lists
  }

  /** The form leaves out nothing that is set. */
  predicate Complete(form: Settings, was: Settings) {
    && (form.commission.None? ==> was.commission.None?)
    && (form.exchange.None? ==> was.exchange.None?)
    && (form.liquid.None? ==> was.liquid.None?)
    && (form.dry.None? ==> was.dry.None?)
    && (form.port.None? ==> was.port.None?)
    && (form.terminals.None? ==> was.terminals.None?)
    && (form.smtp.None? ==> was.smtp.None?)
    && (form.sms.None? ==> was.sms.None?)
  }

  /** The organization handed over names a port, has the stored id and team, and already names as its
      primary port the one it designates. */
  predicate OrgIsSaved(was: Org, org: Org) {
    NamesPort(org) && org.id == was.id && org.members == was.members
    && org.primaryPort == Normalized(org).designatedPort
  }

  predicate SavesWhatItShows(l: Lists, r: Request) {
    && (r.UpdateSettings? ==> Complete(r.form, l.settings))
    && (r.UpdateOrganization? ==> OrgIsSaved(l.org, r.org))
  }

  /** Laid over the lists as shown, an answer gives what the server's lists show, if and only if the
      request saves what it shows: always for calls, inspections and invoices, for settings when the form
      is complete, and for the organization under the conditions above, which a changed team, another
      primary port and a first registration break. */
  lemma AnswerIsTheWrite(l: Lists, r: Request)
    requires Accepted(l, r)
    ensures Patched(Shown(l), PatchOf(l, r)) == Shown(Served(l, r)) <==> SavesWhatItShows(l, r)
  {
    hide Normalized, OrgAfter, OrgIsSaved, Complete, Merged;
    match r
    case UpdateSettings(form) => FormIsSaved(l.settings, form);
    case UpdateOrganization(org) => RecordIsSaved(l.org, org);
    case _ =>
  }

  lemma RecordIsSaved(was: Org, org: Org)
    ensures Normalized(org) == Normalized(OrgAfter(was, Normalized(Normalized(org)))) <==> OrgIsSaved(was, org)
  {
    var sent := Normalized(Normalized(org));
    var saved := OrgAfter(was, sent);
    NormalForm(org);
    NormalForm(Normalized(org));
    hide NamesPort, UniquePorts;
    SavedIsNormal(was, sent);
  }

  /** The server keeps a normalized record with a port as it is, but for its own id, team and primary port. */
  lemma SavedIsNormal(was: Org, sent: Org)
    requires Clean(sent.ports) && sent.designatedPort.Some? && sent.designatedPort.value in sent.ports
    ensures Normalized(OrgAfter(was, sent)) ==
              sent.(id := was.id, members := was.members, primaryPort := sent.designatedPort)
  {
    CleanStays(sent.ports);
  }

  lemma FormIsSaved(was: Settings, form: Settings)
    ensures Merged(was, form) == form <==> Complete(form, was)
  {
  }

  // ---- the console in use ----

  datatype Deed =
    | Mine(request: Request)
    | Others(lists: Lists, bump: nat)    // any write by anybody else
    | Asks(requested: nat)
    | Hears
    | Misses(k: nat)

  /** The server's lists, and the responses, cursor and shown lists. */
  datatype World = World(server: Lists, sys: Sys<Lists, Patch>)

  function Apply(): (Lists, Patch) -> Lists { (l: Lists, p: Patch) => Patched(l, p) }

  ghost function Sent(l0: Lists, r0: nat, w: World, e: Event<Patch>): Sys<Lists, Patch> {
    RevisionCursor.Next(Apply(), Shown(l0), r0, w.sys, e)
  }

  /** One deed. Every mutating request the server accepts raises the revision by one; a refused one
      changes nothing and its error leaves cursor and lists alone. A poll's answer is read off the patches
      so far, which is what the server holds as long as every own request saved what it showed. */
  ghost function After(l0: Lists, r0: nat, w: World, d: Deed): World {
    match d
    case Mine(r) =>
      if !Accepted(w.server, r) then w
      else World(Served(w.server, r), Sent(l0, r0, w, IWrite(PatchOf(w.server, r), 1)))
    case Others(lists, bump) =>
      if bump == 0 then w else World(lists, Sent(l0, r0, w, OthersWrite(Everything(Shown(lists)), bump)))
    case Asks(requested) => w.(sys := Sent(l0, r0, w, Poll(requested)))
    case Hears => w.(sys := Sent(l0, r0, w, Receive))
    case Misses(k) => w.(sys := Sent(l0, r0, w, Lose(k)))
  }

  ghost function Use(l0: Lists, r0: nat, ds: seq<Deed>): World {
    Fold((w: World, d: Deed) => After(l0, r0, w, d), World(l0, Loaded(Shown(l0), r0)), ds)
  }

  /** Every accepted own request saves what it shows, in the state it meets. */
  ghost predicate Plain(l0: Lists, r0: nat, ds: seq<Deed>) {
    forall k :: 0 <= k < |ds| && ds[k].Mine? && Accepted(Use(l0, r0, ds[..k]).server, ds[k].request) ==>
      SavesWhatItShows(Use(l0, r0, ds[..k]).server, ds[k].request)
  }

  ghost predicate InStep(l0: Lists, r0: nat, w: World) {
    && RevisionCursor.Ok(Apply(), Shown(l0), r0, w.sys)
    && Shown(w.server) == StateAt(Apply(), Shown(l0), w.sys.log, |w.sys.log|)
  }

  lemma CommitKeepsStep(l0: Lists, r0: nat, w: World, e: Event<Patch>, p: Patch, lists: Lists)
    requires InStep(l0, r0, w) && (e == IWrite(p, 1) || (e.OthersWrite? && e.write == p && e.bump > 0))
    requires Patched(Shown(w.server), p) == Shown(lists)
    ensures InStep(l0, r0, World(lists, Sent(l0, r0, w, e)))
  {
    RevisionCursor.NextKeepsOk(Apply(), Shown(l0), r0, w.sys, e);
    hide RevisionCursor.Ok, Patched, Shown, Sent, StateAt;
    CommitExtendsLog(l0, r0, w, e, p);
  }

  lemma CommitExtendsLog(l0: Lists, r0: nat, w: World, e: Event<Patch>, p: Patch)
    requires e == IWrite(p, 1) || (e.OthersWrite? && e.write == p && e.bump > 0)
    ensures var log := Sent(l0, r0, w, e).log;
            && |log| == |w.sys.log| + 1
            && StateAt(Apply(), Shown(l0), log, |log|) ==
                 Patched(StateAt(Apply(), Shown(l0), w.sys.log, |w.sys.log|), p)
  {
    hide Patched, Shown;
    var entry := Entry(p, if e.IWrite? then 1 else e.bump, e.IWrite?);
    PastIsFixed(Apply(), Shown(l0), r0, w.sys.log, entry, |w.sys.log|);
    assert Sent(l0, r0, w, e).log == w.sys.log + [entry];
  }

  lemma TalkKeepsStep(l0: Lists, r0: nat, w: World, e: Event<Patch>)
    requires InStep(l0, r0, w) && (e.Poll? || e.Receive? || e.Lose?)
    ensures InStep(l0, r0, w.(sys := Sent(l0, r0, w, e)))
  {
    RevisionCursor.NextKeepsOk(Apply(), Shown(l0), r0, w.sys, e);
    hide RevisionCursor.Ok, Shown;
    assert Sent(l0, r0, w, e).log == w.sys.log;
  }

  lemma DeedKeepsStep(l0: Lists, r0: nat, w: World, d: Deed)
    requires InStep(l0, r0, w)
    requires d.Mine? && Accepted(w.server, d.request) ==> SavesWhatItShows(w.server, d.request)
    ensures InStep(l0, r0, After(l0, r0, w, d))
  {
    hide InStep, Served, PatchOf, Sent, Shown;
    match d
    case Mine(r) =>
      if Accepted(w.server, r) {
        AnswerIsTheWrite(w.server, r);
        CommitKeepsStep(l0, r0, w, IWrite(PatchOf(w.server, r), 1), PatchOf(w.server, r), Served(w.server, r));
      }
    case Others(lists, bump) =>
      if bump > 0 {
        var all := Everything(Shown(lists));
        CommitKeepsStep(l0, r0, w, OthersWrite(all, bump), all, lists);
      }
    case Asks(requested) => TalkKeepsStep(l0, r0, w, Poll(requested));
    case Hears => TalkKeepsStep(l0, r0, w, Receive);
    case Misses(k) => TalkKeepsStep(l0, r0, w, Lose(k));
  }

  lemma {:induction false} UseKeepsStep(l0: Lists, r0: nat, ds: seq<Deed>)
    requires Plain(l0, r0, ds)
    ensures InStep(l0, r0, Use(l0, r0, ds))
  {
    if ds != [] {
      var n := |ds| - 1;
      forall k | 0 <= k < n && ds[..n][k].Mine?
        ensures Accepted(Use(l0, r0, ds[..n][..k]).server, ds[..n][k].request) ==>
                  SavesWhatItShows(Use(l0, r0, ds[..n][..k]).server, ds[..n][k].request)
      {
        assert ds[..n][..k] == ds[..k];
      }
      UseKeepsStep(l0, r0, ds[..n]);
      hide InStep, After, SavesWhatItShows, Accepted;
      DeedKeepsStep(l0, r0, Use(l0, r0, ds[..n]), ds[n]);
    }
  }

  /** Whatever this console and anybody else do, with responses processed in order and any of them lost:
      the cursor never passes the server, and when it is at the server's revision the lists shown are
      exactly those a reload would show, as long as every own request the server took saved what it
      shows. */
  lemma ShownIsSaved(l0: Lists, r0: nat, ds: seq<Deed>)
    requires Plain(l0, r0, ds)
    ensures var w := Use(l0, r0, ds);
            && w.sys.cursor <= RevAt(r0, w.sys.log, |w.sys.log|)
            && (w.sys.cursor == RevAt(r0, w.sys.log, |w.sys.log|) ==> w.sys.view == Shown(w.server))
  {
    UseKeepsStep(l0, r0, ds);
    OkShowsServerState(Apply(), Shown(l0), r0, Use(l0, r0, ds).sys);
  }

  lemma OwnAnswerIsHeard(l0: Lists, r0: nat, w: World, p: Patch)
    requires w.sys == Sys([Entry(p, 1, true)], [Ack(1)], r0, Shown(l0), 0, [], 0)
    ensures var heard := After(l0, r0, w, Hears);
            && heard.server == w.server && heard.sys.log == w.sys.log
            && heard.sys.cursor == RevAt(r0, w.sys.log, 1) && heard.sys.view == Patched(Shown(l0), p)
  {
    hide Patched, Shown;
    assert RevAt(r0, w.sys.log, 1) == RevAt(r0, w.sys.log, 0) + 1;
    assert Sent(l0, r0, w, Receive) == Received(Apply(), Shown(l0), r0, w.sys);
  }

  lemma FirstDeeds(l0: Lists, r0: nat, d: Deed, e: Deed)
    ensures Use(l0, r0, [d, e]) == After(l0, r0, After(l0, r0, World(l0, Loaded(Shown(l0), r0)), d), e)
  {
    hide After;
    var ds := [d, e];
    assert ds[..1] == [d] && ds[..1][..0] == [];
    assert Use(l0, r0, ds[..1][..0]) == World(l0, Loaded(Shown(l0), r0));
    assert Use(l0, r0, ds[..1]) == After(l0, r0, World(l0, Loaded(Shown(l0), r0)), d);
  }

  lemma OwnRequestIsSent(l0: Lists, r0: nat, r: Request)
    requires Accepted(l0, r)
    ensures After(l0, r0, World(l0, Loaded(Shown(l0), r0)), Mine(r)) ==
              World(Served(l0, r), Sys([Entry(PatchOf(l0, r), 1, true)], [Ack(1)], r0, Shown(l0), 0, [], 0))
  {
    hide Served, PatchOf, Shown;
  }

  /** Every condition is needed: an accepted request that does not save what it shows leaves a console at
      the server's revision, told by its next poll that nothing changed, with lists that a reload would
      not show. */
  lemma UnsavedIsShown(l0: Lists, r0: nat, r: Request)
    requires Accepted(l0, r) && !SavesWhatItShows(l0, r)
    ensures var w := Use(l0, r0, [Mine(r), Hears]);
            && w.sys.cursor == RevAt(r0, w.sys.log, |w.sys.log|) && w.sys.view != Shown(w.server)
            && After(l0, r0, w, Asks(w.sys.cursor)) == w
  {
    AnswerIsTheWrite(l0, r);
    FirstDeeds(l0, r0, Mine(r), Hears);
    OwnRequestIsSent(l0, r0, r);
    hide Served, PatchOf, Patched, SavesWhatItShows, Shown, RevAt, Accepted;
    var sent := After(l0, r0, World(l0, Loaded(Shown(l0), r0)), Mine(r));
    OwnAnswerIsHeard(l0, r0, sent, PatchOf(l0, r));
  }
}
