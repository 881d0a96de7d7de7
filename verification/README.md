# Port calls: a verified model of the transactional core

This project models, in Dafny, the parts of the port-call system in which several requests, workers or
browser events meet on shared state, and proves what holds however they interleave.

Every customer mutation takes the organization's row lock and rolls back on any error
(`backend/api/tenant_lifecycle.py`), so each endpoint is one atomic step. Each component comes in up to three parts:

* a specification on values (`After...` functions, one per endpoint, and a `Next` that dispatches on a request),
  with invariants, lemmas over whole runs (`Runs.Fold`) and exact conditions;
* in the `...Effects` files, what each request answers and leaves, said on the rows and fields alone: when it
  is carried out, everything it writes, and that nothing else changes;
* a class that holds the same tables as fields and whose methods follow the source statement by statement,
  in place and with the source's loops; each method is proved equal to its specification, so the lemmas about
  runs hold of the methods too.

| files | component |
|---|---|
| `Reordering`, `Workflow`, `Billing`, `BillingRuns`, `BillingEffects`, `BillingDesk`, `StepLimit` | invoice ledger and the configurable status workflow |
| `Outbox`, `OutboxEffects`, `OutboxSweep` | durable email outbox, delivery task, bounded sweep |
| `SlotStore`, `SlotSaver`, `SlotGeometry` | image-slot sidecar, its hydration race, serialized writes, cropping gestures |
| `RevisionCursor`, `OrgRecord`, `ConsoleLists` | the console's poll cursor, its lists and a server's writes |
| `Onboarding`, `OnboardingRuns`, `OnboardingEffects`, `OnboardingDesk` | sign-up links, join requests, invitations, provisioning, account edits |
| `Credentials`, `CredentialEffects` | temporary passwords, action tokens, sessions, recovery codes |
| `Portal`, `PortalEffects` | agency links and guest readings |
| `Idempotency` | the System Administrator mutation wrapper |
| `Rounding`, `Numbering`, `Issuing`, `IssuingEffects` | money, reference numbers, finalize |
| `Runs`, `Wrappers`, `Trimming` | folds over runs, options, duplicate-free sequences, trimmed strings |

Conventions: amounts in the ledger are cents; amounts in `Rounding` and geometry are exact reals; times are
seconds; hashes and digests are injective, so a row holds what was hashed; random keys and tokens, clocks and
verdicts of code checks are parameters. `Broken` is an unhandled error, which rolls back.

## Where the code differs from what one might expect

* A thousand steps is the exact limit of the reorder endpoint: with 1001 the shift by 10,000 can hit a
  position that is still taken (`Workflow.ThousandStepLimit`), and 1001 can be created (`StepLimit.LimitIsReached`).
* The image-slot merge is not transparent to early edits in two cases, not one: after a clear followed by a
  crop, and for a crop alone when the sidecar holds a URL that is not a data:image/ one
  (`SlotStore.HydrationRace` gives the exact condition).
* No engine of this repository takes the console's writes: they carry neither the bearer token the earlier one
  asks for (`calabar/api.jsx:22-32`, `backend/legacy_fastapi/security.py:20-21`) nor the CSRF token that goes with
  a session (`backend/vessel_caller/settings/base.py:168`). On a server that had the earlier engine's routes and
  took its requests as an Admin's, the console would keep the settings form and the organization it submitted instead of
  what was saved. After a change of the team (ignored by the organization route), of the primary port (its second
  name `primaryPort` goes stale) or a first registration (no id), or after a form with a field empty that is set
  meanwhile, it would show at the server's own revision lists that a reload would not:
  `ConsoleLists.AnswerIsTheWrite` has the exact condition over every field but one, `ConsoleLists.UnsavedIsShown`
  the run. The field not compared is the revision copied into the organization record, which the console never
  reads and which lags after every own write.
* The image's load event positions the image without clamping, so a crop stored for a frame of another shape can
  leave part of the frame bare until the next render or the first movement (`SlotGeometry.FirstSight`,
  `BareUntilMoved`; never in a frame of the same shape, `SameShapeCovers`).
* Removing an account renames it to `removed+<id>@invalid.local`. An Admin can provision an account under that
  very address first, and then the removal fails (`OnboardingRuns.AliasCanBeTaken`, exactly then by
  `OnlyAliasesCollide`).
* The stale-lease clause of the sweep never selects anything, because a row is marked as sending and
  unmarked within one transaction (`OutboxSweep.EligibleArePending`).
* A retry of a guest submission is identical only if it uses the same browser context, whose id is part of the
  digested body.
* The earlier engine's numbering relies on prefixes without a dash (`Numbering.LegacyNumberIsNew`); the two it
  passes, INS and INV, have none, so what it issues is new.

## Model

| member | source | states |
|---|---|---|
| BillingRuns.RunKeepsSound | backend/api/operation_views.py:514-893 | In every run of issue, pay, reverse, transition, void and step create/edit/reorder requests: live payments never exceed dues; an invoice is paid exactly when its step is the Paid step, and then live payments equal its positive dues; an unpaid one owes something or had zero dues; each log is a chain from nothing to the current step; the step table stays sound |
| BillingRuns.ReachableInvoice | backend/billing/services.py:166-223 | What a reader of any invoice of any reachable state can rely on, starting from a newly provisioned organization |
| BillingRuns.ApplyKeepsSound | backend/api/operation_views.py:514-893 | One request, whichever it is and whether it succeeds or is refused, takes sound books to sound books |
| BillingRuns.ReconcileKeepsInvoice | backend/billing/services.py:197-223 | After a payment or a reversal reconciliation never fails and leaves status, step, log and sum in agreement |
| BillingRuns.PaymentEffect | backend/api/operation_views.py:537-558 | An accepted payment adds its amount, or the whole balance when none is given, and makes the invoice paid exactly when the dues are reached |
| BillingRuns.AcceptedPaymentAdds | backend/api/operation_views.py:547-558 | It adds to that invoice only and leaves every other invoice row and sum alone |
| BillingRuns.ReversalNeverFails | backend/api/operation_views.py:594-620 | In a sound state a reversal is done, replayed or not found, never an unhandled error |
| BillingRuns.ZeroDuesTakesNoPayment | backend/api/operation_views.py:541-542 | A zero-dues invoice is never paid and accepts no payment |
| BillingRuns.RunExtends | backend/billing/services.py:116-136 | Over any run logs and payments only grow, a payment changes only by being reversed, dues never change and the revision never goes back |
| BillingRuns.RepeatsAreInvisible | backend/api/operation_views.py:524-536 | Any number of repeats of accepted keyed payments, anywhere later and even after reversal, settlement or voiding, leaves exactly the run without them |
| BillingRuns.UsedKeyReaches | backend/api/operation_views.py:524-536 | A key once used for an invoice is in use in every later state |
| BillingRuns.KeysAgree | backend/api/operation_views.py:526 | Two headers name one key exactly when they agree or agree on their first 128 characters |
| BillingRuns.LatestRestorableMeaning | backend/billing/services.py:210-217 | The backward search finds the latest logged step that is active, non-paid and non-terminal, and nothing exactly when there is none |
| BillingRuns.ReversalLands | backend/billing/services.py:208-223 | Reversing a live payment of a paid invoice lands on that latest usable logged step, else on the first active ordinary step |
| BillingRuns.DetourRestores | backend/billing/services.py:197-223 | From any non-paid step: settle in any number of payments among any other requests that do not move or void the invoice by hand and that reopen it only while the step is active, the step being edited freely; then reversing any live payment puts the invoice back on that step if and only if the step is active at that moment |
| BillingRuns.ReachablePositions | backend/api/operation_views.py:685-687 | In every run from provisioning the positions are exactly 10, 20, ..., 10n |
| BillingEffects.PaymentAccepted | backend/api/operation_views.py:514-546 | A payment is accepted if and only if its invoice is unpaid, no payment of it has this key, primary key or reference are unused, and the amount, or all that is owed when none is given, is positive and at most what is owed |
| BillingEffects.PaymentRefused | backend/api/operation_views.py:514-546 | Which of not found, replayed, conflict and unhandled error any other payment request gets, each exactly when; nothing changes |
| BillingEffects.PaymentLeaves | backend/api/operation_views.py:547-558 | An accepted payment adds exactly its row; the invoice stays as it is, or goes onto the Paid step with one log row when nothing is owed any more; everything else stays |
| BillingEffects.PaymentWithoutAmountSettles | backend/api/operation_views.py:543-558 | A new payment without an amount on an unpaid invoice with dues ends paid |
| BillingEffects.ReversalLeaves | backend/api/operation_views.py:594-620 | Reversing any live payment, whatever its invoice's status, sets exactly its mark; its invoice's row changes only out of paid, onto an ordinary step with one log row; everything else stays |
| BillingEffects.ReversalTakesOff | backend/api/operation_views.py:613-619 | It takes exactly the payment's amount off its own invoice's live sum and nothing off any other |
| BillingEffects.ReversalRefused | backend/api/operation_views.py:597-612 | A reversed payment is replayed and an unknown one not found, both without any change |
| BillingEffects.IssueLeaves | backend/api/domain.py:86-109 | A new invoice is unpaid on the least-positioned ordinary step with one log row; a used key changes nothing |
| BillingEffects.MoveLeaves | backend/api/operation_views.py:843-880 | An unpaid invoice moves to any active step but Paid with one log row; which refusal every other move gets |
| BillingEffects.VoidLeaves | backend/billing/services.py:166-194 | Voiding takes the invoice off the workflow with one log row and changes no payment |
| BillingEffects.CreateStepLeaves | backend/api/operation_views.py:671-704 | A step with a new code that is no system code is added last, for up to 3276 steps, neither paid, terminal nor protected |
| BillingEffects.EditStepLeaves | backend/api/operation_views.py:724-786 | Exactly the submitted fields are written, except that Paid keeps title and activity and the last ordinary step stays active |
| BillingEffects.ReorderAnswers | backend/api/operation_views.py:794-812 | A reorder is refused exactly when it does not list each step once with Paid last among the active ones; unless it is carried out it changes nothing |
| BillingEffects.ReorderAccepted | backend/api/operation_views.py:813-821 | Any other is carried out in every row order of the bulk update if and only if there are at most 1000 steps |
| BillingEffects.ReorderLeaves | backend/api/operation_views.py:813-834 | In the books it leaves the k-th listed step stands at 10(k+1), every other column, invoice and payment is as before, and Paid stands after every other active step |
| Workflow.LookupsSucceed | backend/billing/services.py:60-85 | In a reachable workflow both lookups succeed and there is only one Paid step |
| Workflow.ActiveDefaultStep | backend/billing/services.py:60-74 | The step found is active, non-paid and non-terminal; through `First` it is the least-positioned such step |
| Workflow.First | backend/billing/services.py:66-71 | None exactly when nothing qualifies, else the qualifying row with the least position |
| Workflow.ProvisioningFromNothing | backend/billing/services.py:40-57 | A new organization gets exactly the six default rows and they form a sound workflow |
| Workflow.ProvisioningIsIdempotent | backend/billing/services.py:40-57 | Provisioning again changes nothing |
| Workflow.AddingKeepsWorkflow | backend/api/operation_views.py:681-704 | A created step goes last at 10(n+1) and keeps codes, positions and flags sound |
| Workflow.EditingKeepsWorkflow | backend/api/operation_views.py:724-786 | An edit that leaves the Paid step active and one ordinary step keeps the workflow sound |
| BillingRuns.EditLeavesOrdinary | backend/api/operation_views.py:737-751 | The deactivation guard always leaves an active ordinary step |
| Workflow.ReorderingKeepsWorkflow | backend/api/operation_views.py:803-834 | A completed reorder is the requested permutation at 10, 20, ... and changes nothing else |
| Workflow.PaidStandsLast | backend/api/operation_views.py:806-812 | After an accepted reorder Paid stands after every other active step |
| Workflow.ThousandStepLimit | backend/api/operation_views.py:813-821 | A reorder of a sound workflow goes through for every row order of the bulk update if and only if there are at most 1000 steps |
| StepLimit.LimitIsReached | backend/api/operation_views.py:671-704 | The failing side is reachable: from any provisioning a run of 995 created steps ends in 1001 steps and an admitted reorder that the constraint stops |
| Reordering.WriteRows | backend/api/operation_views.py:813-821 | Writing row by row succeeds exactly when no single write breaks the unique constraint or the column range |
| Reordering.ReorderIsSafe | backend/api/operation_views.py:813-821 | Shift by 10,000 then assign one by one: unique after every row write, for at most 1000 rows |
| Reordering.ReorderCanCollide | backend/api/operation_views.py:813-816 | A row shifted onto a taken position trips the constraint at once |
| Reordering.ReorderIsExact | backend/api/operation_views.py:817-821 | The result has the k-th listed row at 10k |
| Reordering.ExactMeaning | backend/api/operation_views.py:685-687 | Being exact means unique positions occupying precisely 10, 20, ..., 10n |
| BillingDesk.Desk.EnsureDefaultSteps | backend/billing/services.py:40-57 | The loop inserts each missing default or undoes everything |
| BillingDesk.Desk.TransitionInvoice | backend/billing/services.py:166-194 | Moves the row and appends one log row, or leaves both alone |
| BillingDesk.Desk.FindCandidate | backend/billing/services.py:210-217 | The loop with a break returns the latest usable logged step |
| BillingDesk.Desk.ReconcilePaymentStatus | backend/billing/services.py:197-223 | Updates the invoice in place as reconciliation specifies |
| BillingDesk.Desk.IssueInvoice | backend/api/domain.py:86-109 | A new invoice stands on the first ordinary step with one log row from nothing |
| BillingDesk.Desk.CheckPayment | backend/api/operation_views.py:514-546 | The refusals in their order, and the amount a payment without one settles on |
| BillingDesk.Desk.CreatePayment | backend/api/operation_views.py:514-559 | The endpoint on the tables equals the specified step, with rollback on error |
| BillingDesk.Desk.ReversePayment | backend/api/operation_views.py:594-623 | The endpoint on the tables equals the specified step |
| BillingDesk.Desk.MoveInvoice | backend/api/operation_views.py:843-880 | The endpoint on the tables equals the specified step; choosing the current step bumps nothing |
| BillingDesk.Desk.AddStep | backend/api/operation_views.py:671-704 | The endpoint on the tables equals the specified step |
| BillingDesk.Desk.PatchStep | backend/api/operation_views.py:724-786 | The endpoint on the tables equals the specified step |
| BillingDesk.WriteFields | backend/api/operation_views.py:759-765 | Only submitted fields that differ are written, and the flag says whether any was |
| BillingDesk.Desk.CheckReorder | backend/api/operation_views.py:798-812 | Every step listed exactly once and Paid last among the active ones |
| BillingDesk.Desk.ReorderSteps | backend/api/operation_views.py:794-834 | The endpoint on the tables equals the specified step, undoing all writes on a constraint error |
| BillingDesk.Desk.Totals | backend/api/operation_views.py:1216-1226 | Over the non-void invoices the loop gives invoiced = collected + outstanding, and collected is the sum of live payments |
| Outbox.EachRowAtMostOneMail | backend/accounts/tasks.py:28-111 | Under any interleaving of duplicate tasks, crashes, lost answers, retries and lifecycle changes each row produces at most one email, carrying the message first queued; a sent row has produced it and kept nothing of it; no row is committed as sending |
| Outbox.RunKeepsOk | backend/accounts/tasks.py:28-111 | The outbox invariant holds in every run |
| Outbox.SentIsAbsorbing | backend/accounts/tasks.py:44-45 | A sent row never changes again and queueing its key again creates nothing |
| Outbox.RetryAfterLostAnswer | backend/accounts/tasks.py:72-108 | When the provider accepted but the answer was lost, the next successful attempt marks the row sent and produces no second email |
| Outbox.CallsArePermitted | backend/accounts/tasks.py:46-71 | A step reaches the provider only for an unsent row whose organization is at that moment active, or pending approval for an email verification with its bypass, or suspended for a row with its bypass |
| Outbox.GateHolds | backend/accounts/tasks.py:53-66 | While an organization stays suspended or pending approval only rows with the matching bypass are sent for it |
| Outbox.RunExtends | backend/accounts/services.py:93-131 | Addressing, bypasses and first messages never change; a row never becomes pending again; emails and calls only grow |
| OutboxEffects.QueueLeaves | backend/accounts/services.py:93-131 | What the service accepts makes one pending row with exactly what was given, unless its key has one |
| OutboxEffects.AttemptLeaves | backend/accounts/tasks.py:69-108 | An unsent row that its organization's access lets through, with attempts left, reaches the provider on every fate that does, produces its email where the provider takes it in, and records what the worker learnt; a crash records nothing |
| OutboxEffects.NoAttemptLeaves | backend/accounts/tasks.py:43-68 | Every other delivery makes no call: one not let through, or without an organization, ends failed with its message kept, and the rest stay as they are |
| OutboxEffects.EveryCallWasLetThrough | backend/accounts/tasks.py:53-66 | In every run, whatever the lifecycles do meanwhile, each provider call is of an unsent row whose organization's access at that step is active, or pending approval for an email verification with its bypass, or suspended for a row with the bypass |
| OutboxSweep.Worker.QueueEmail | backend/accounts/services.py:93-131 | Returns the one row under that key, and none exactly for a call the service refuses or a new row the database does not take |
| OutboxSweep.Worker.DeliverOutboxEmail | backend/accounts/tasks.py:28-111 | The worker job on the tables, marked sending before the call and rolled back by a crash, equals the specified step |
| OutboxSweep.Worker.DispatchPendingOutbox | backend/accounts/tasks.py:114-145 | Publishes the oldest eligible rows, at most 100, up to the first one the broker refuses |
| OutboxSweep.EligibleArePending | backend/accounts/tasks.py:126-134 | The stale-lease clause never selects a committed row: the eligible rows are exactly the pending ones |
| OutboxSweep.SweepAdvances | backend/accounts/tasks.py:125-145 | A sweep whose tasks finish takes a hundred off the pending rows in front of every place, whatever else happens |
| OutboxSweep.AttemptedInTime | backend/accounts/tasks.py:125-145 | A row with k pending rows in front is attempted within k/100 + 1 sweeps, however many newer rows arrive |
| SlotStore.HydrationRace | mobile/image-slot.js:76-139 | Editing before the sidecar is read gives a slot the same value as reading first, if and only if it is not one whose image the sidecar holds, whose crop was changed early, and which was cleared before that or has a URL the store would not show |
| SlotStore.HydrationIsTransparent | mobile/image-slot.js:76-139 | The same for the whole store |
| SlotStore.ClearThenReframeResurrects | mobile/image-slot.js:88-93 | Clear then reframe before the read lands brings the old image back |
| SlotStore.ReframeAloneCanDiffer | mobile/image-slot.js:88-93 | Without any clear a reframe can still keep a URL that reading first drops |
| SlotStore.Merge | mobile/image-slot.js:83-95 | Which ids the merge keeps and with what value |
| SlotSaver.QuietFileIsTheSlots | mobile/image-slot.js:76-139 | In every order of edits, read, callbacks and completions: at most one write under way, none before the merge, and the quiet file equals the slots |
| SlotSaver.EveryEditIsRecorded | mobile/image-slot.js:122-139 | The early and late edits of a run are all the edits made with an id, in order |
| SlotSaver.QuietFileHasEveryEdit | mobile/image-slot.js:76-139 | The quiet file is the original sidecar with every edit applied in order, when no slot is of the diverging kind |
| SlotSaver.QuietFileWithoutSidecar | mobile/image-slot.js:76-139 | Without a sidecar, or when it cannot be read, the quiet file is every edit, early ones included, over an empty store |
| SlotSaver.TwoLandingsSettle | mobile/image-slot.js:109-117 | Two successful completions settle every write still owed |
| SlotSaver.Page.Save | mobile/image-slot.js:109-117 | A save during a write only marks the store dirty |
| SlotSaver.Page.SetSlot | mobile/image-slot.js:130-139 | The slot, tombstone and save bookkeeping of an edit before or after the read |
| SlotSaver.Page.MergeSidecar | mobile/image-slot.js:84-94 | The merging loops compute the specified merge |
| SlotSaver.Page.OnFetched | mobile/image-slot.js:78-99 | What the read landing does, with or without a sidecar |
| SlotSaver.Page.OnLanded | mobile/image-slot.js:114-116 | What a settled write does, firing the owed one |
| SlotSaver.RemovalSticks | mobile/image-slot.js:469-496 | After a removal no encode that finishes later shows |
| SlotSaver.NewestDropWins | mobile/image-slot.js:469-496 | After a drop whose encode finishes that drop shows, whatever older encodes do |
| SlotGeometry.AlwaysCovers | mobile/image-slot.js:287-378 | After any sequence of pans, corner drags, wheel zooms, starts and ends of reframing, re-renders and loads the zoom is in [1, 5] and a shown image covers the frame, if every change of the geometry came with a render or found the crop within its new bounds |
| SlotGeometry.FirstSight | mobile/image-slot.js:286-288 | At a load event that ends any run, the shown image covers the frame if and only if |x| <= 50 (span s - 1) on both axes |
| SlotGeometry.BareUntilMoved | mobile/image-slot.js:286-378 | Whatever follows before the next render, the frame is covered if and only if the loaded crop was within those bounds or the view has moved since |
| SlotGeometry.SameShapeCovers | mobile/image-slot.js:527-560 | A crop clamped in one frame covers every frame of the same shape at the load, whatever its size |
| SlotGeometry.StoredCropLoads | mobile/image-slot.js:610-616 | What the first load meets is the crop as stored, but for the zoom limits |
| SlotGeometry.LoadCanUncover | mobile/image-slot.js:286-288 | A stored crop that leaves part of a square frame bare at the load |
| SlotGeometry.PanFollowsPointer | mobile/image-slot.js:338-344 | A pan moves the image's centre by exactly the pointer's way from where it began, unless the bounds stop it, and leaves the zoom alone |
| SlotGeometry.DragFollowsPointer | mobile/image-slot.js:314-334 | In a corner drag the dragged corner follows the pointer as far as the zoom limits let it, and the opposite one stays unless the bounds stop it |
| SlotGeometry.WheelZooms | mobile/image-slot.js:363-378 | Only while reframing the wheel zooms, by its factor within 1 to 5, and keeps the point under the cursor unless the bounds stop it |
| SlotGeometry.ModesLeave | mobile/image-slot.js:412-441 | Reframing starts and ends, drags start from the view of that moment and only while reframing, and a render reseeds the view only outside it |
| SlotGeometry.SlotElement.Rerender | mobile/image-slot.js:600-637 | A render reseeds the view except while reframing, and clamps it when an image shows |
| SlotGeometry.ZoomStaysInRange | mobile/image-slot.js:119-120 | Whatever the geometry does, present or absent, the zoom stays in range |
| SlotGeometry.ClampCovers | mobile/image-slot.js:527-535 | Clamping makes a view cover the frame and moves it exactly when it did not |
| SlotGeometry.ResizeFixesOppositeCorner | mobile/image-slot.js:311-334 | Before clamping a corner drag leaves the opposite corner where it was |
| SlotGeometry.CornerFollowsPointer | mobile/image-slot.js:325-331 | Unless the zoom limits bite the dragged corner follows the pointer along the diagonal |
| SlotGeometry.WheelFixesCursor | mobile/image-slot.js:363-378 | Before clamping the image point under the cursor stays there |
| SlotGeometry.ScaledAncestor | mobile/image-slot.js:310-315 | A scaling ancestor changes neither span of the image in frame multiples |
| SlotGeometry.SlotElement.PanMove | mobile/image-slot.js:338-344 | The handler equals the specified event |
| SlotGeometry.SlotElement.CornerMove | mobile/image-slot.js:314-334 | The handler equals the specified event |
| SlotGeometry.SlotElement.WheelMove | mobile/image-slot.js:363-378 | The handler equals the specified event |
| SlotGeometry.SlotElement.Clamp | mobile/image-slot.js:527-535 | The fields end clamped, and untouched without a geometry |
| RevisionCursor.RunKeepsOk | calabar/app.jsx:53-64 | With responses in server order and every write raising the revision, the lists are the server state at the cursor plus the own writes answered since |
| RevisionCursor.CaughtUpShowsServerState | calabar/app.jsx:61-64 | The cursor never passes the server, and at its revision the lists are exactly its state |
| RevisionCursor.PollCatchesUp | calabar/app.jsx:74-81 | One answered poll brings the console up to date; unchanged is said only to a console that is |
| RevisionCursor.ContiguousIsNext | calabar/app.jsx:61-64 | A contiguous acknowledgement is of the very next write |
| RevisionCursor.Console.AdvanceRev | calabar/app.jsx:61-64 | The cursor moves only to a contiguous revision |
| RevisionCursor.Console.OnResponse | calabar/app.jsx:53-81 | A poll or mutation response leaves cursor and lists exactly as the specified step of the system does |
| OrgRecord.CollectPorts | calabar/data.jsx:246-253 | The loop gives each port once, trimmed, none blank, and exactly those |
| OrgRecord.NormalForm | calabar/data.jsx:255-261 | A normalized record designates one of its ports and is unchanged by normalizing again, except one whose only port is blank, which gets the fallback port the second time |
| ConsoleLists.AnswerIsTheWrite | calabar/app.jsx:126-178 | On a server with the earlier engine's routes that took the console's requests: the answer to each, laid over the lists, gives what a reload would show, if and only if a settings form leaves nothing out and an organization names a port, carries the stored id and team, and already names as its primary port the one it designates |
| ConsoleLists.RequestLeaves | backend/legacy_fastapi/routers/inspections.py:19-65 | What each of the console's requests writes, list by list and field by field |
| ConsoleLists.ShownIsSaved | calabar/app.jsx:74-178 | Among anybody else's writes, with answers in order and any of them lost: at the server's revision the lists are exactly those a reload would show, as long as every own request the server took met that condition |
| ConsoleLists.UnsavedIsShown | calabar/app.jsx:151-170 | Any accepted request that does not meet it shows, at the server's revision and after a poll, lists that a reload would not |
| OnboardingRuns.AddressesAreUnique | backend/accounts/models.py:76-84 | In every interleaving of the three routes, account edits, removals, confirmed email changes and completed password changes an address has at most one account, one pending invitation and one open join request, there is at most one unrevoked link, and an Admin in good standing remains |
| OnboardingRuns.ReachableOrganization | backend/accounts/organization_join.py:66-320 | The same from the foundation of an organization, together with the origins and the links of join requests |
| OnboardingRuns.OneOriginPerAccount | backend/accounts/organization_join.py:264-291 | Each account comes from exactly one record, and an approved request, accepted invitation or provisioning names exactly its account |
| OnboardingRuns.RunKeepsOk | backend/accounts/organization_join.py:66-320 | The identity tables stay in order in every run |
| OnboardingRuns.RequestShape | backend/accounts/organization_join.py:210-222 | A token exactly while unverified, a password hash exactly while pending |
| OnboardingRuns.SettledForGood | backend/accounts/organization_join.py:250-309 | Approved, rejected and expired requests never change again |
| OnboardingRuns.RepeatedReview | backend/accounts/organization_join.py:250-262 | Reviewing a settled request again changes nothing; only the same decision is acknowledged |
| OnboardingRuns.JoinedWasSubmittedVerifiedApproved | backend/accounts/organization_join.py:113-309 | Every account from a join request was submitted through a live link for an address nobody had; later verified with the token sent, within a day, the same link still live and the organization active; later approved by an active Admin; and was created with the address submitted, the hash chosen at verification and exactly the role approved, free to act |
| OnboardingRuns.BlockedOnlyByLiveRequests | backend/accounts/organization_join.py:123-148 | Through a live link a free address is turned away exactly when a request for it awaits review or can still be verified |
| OnboardingRuns.RunKeepsRequestLinks | backend/accounts/organization_join.py:149-157 | A verification token never outlives its link |
| OnboardingRuns.OnlyAliasesCollide | backend/api/user_views.py:247-251 | With fresh keys the unique constraints never fire, except that a removal fails exactly when its alias address is taken |
| OnboardingRuns.AliasCanBeTaken | backend/api/user_views.py:247-251 | Such a collision is reached by provisioning an account, then a second one under its alias, then removing the first |
| OnboardingRuns.RewriteKeepsAdmin | backend/api/user_views.py:155-176 | The guard on patch and delete always leaves an active Admin |
| OnboardingEffects.CreateLinkLeaves | backend/accounts/organization_join.py:66-103 | A manager's link, for 1, 7, 14 or 30 days, leaves every earlier one revoked; anybody else's request changes nothing |
| OnboardingEffects.RevokeLinkLeaves | backend/api/organization_join_views.py:137-150 | A manager's revocation marks exactly that link |
| OnboardingEffects.SubmitLeaves | backend/accounts/organization_join.py:113-181 | Through a working link a free address no live request holds gets an unverified request with the token sent, for a day at most and no longer than the link; the address's lapsed requests expire |
| OnboardingEffects.VerifyLeaves | backend/accounts/organization_join.py:185-220 | Verified exactly while unverified with token and link live and the organization active; the request then awaits review with the chosen password |
| OnboardingEffects.ApprovalLeaves | backend/accounts/organization_join.py:236-309 | A manager's approval of a verified pending request for a free address, under a new key, always goes through, and creates the account with the request's address and password and exactly the role named |
| OnboardingEffects.RejectionLeaves | backend/accounts/organization_join.py:236-309 | A rejection keeps no password and creates nothing |
| OnboardingEffects.OtherReviewsLeave | backend/accounts/organization_join.py:236-275 | Every other review changes nothing and acknowledges only the decision already taken |
| OnboardingEffects.InviteLeaves | backend/api/user_views.py:359-416 | A manager's invitation names the role, lasts seven days and replaces the open one of its address |
| OnboardingEffects.ResendLeaves | backend/api/user_views.py:424-459 | Resending gives an open invitation a new token and seven more days and keeps its role |
| OnboardingEffects.WithdrawLeaves | backend/api/user_views.py:466-484 | Only an open invitation is withdrawn |
| OnboardingEffects.AcceptLeaves | backend/api/user_views.py:493-547 | An open invitation is accepted with its token in time for a free address; the account has the invitation's role and the password chosen |
| OnboardingEffects.ProvisionLeaves | backend/accounts/temporary_passwords.py:73-182 | A manager provisions a free address that no open request and no live invitation holds: the role named, a temporary password for a week, and nothing to do before changing it |
| OnboardingEffects.PatchLeaves | backend/api/user_views.py:139-184 | A manager sets others' role and standing, and of nobody so that no manager is left |
| OnboardingEffects.RemoveLeaves | backend/api/user_views.py:211-251 | A removed account keeps its row under an alias; which removals are refused or break |
| OnboardingEffects.RequestEmailLeaves | backend/api/auth_views.py:801-853 | A free address is put up for a day by an account in good standing that proves its password |
| OnboardingEffects.ConfirmEmailLeaves | backend/api/auth_views.py:279-301 | Its token, in time and while the address is free, makes it the account's, and nothing else does |
| OnboardingEffects.CompleteChangeLeaves | backend/accounts/temporary_passwords.py:335-389 | A temporary password is replaced in time and only then |
| OnboardingEffects.SuspensionLeaves | backend/organizations/services.py:207-247 | Suspending withdraws the open invitations and drops the email changes under way |
| OnboardingEffects.EveryAccountWasCreated | backend/accounts/organization_join.py:270-309 | Every account of a run was created by an approval, an acceptance or a provisioning, with exactly the address, role and password that route gives |
| OnboardingEffects.RolesAreGranted | backend/api/user_views.py:139-184 | In every run a role changes only by an edit of that account by somebody who then managed the organization, to the role that edit names |
| OnboardingDesk.Desk.CreateSignupLink | backend/accounts/organization_join.py:66-103 | The loop revokes every earlier link, then one new link is live |
| OnboardingDesk.Desk.SubmitJoinRequest | backend/accounts/organization_join.py:113-181 | The service on the tables equals the specified step, keeping the expiries even when it ignores the request |
| OnboardingDesk.Desk.VerifyJoinRequest | backend/accounts/organization_join.py:185-232 | The service on the tables equals the specified step |
| OnboardingDesk.Desk.ReviewJoinRequest | backend/accounts/organization_join.py:236-320 | The service on the tables equals the specified step |
| OnboardingDesk.Desk.PostInvitation | backend/api/user_views.py:359-416 | Revokes the pending invitation of that address and creates the new one |
| OnboardingDesk.Desk.ResendInvitation | backend/api/user_views.py:424-459 | Rotates token, expiry and deliverability of a pending invitation |
| OnboardingDesk.Desk.AcceptInvitation | backend/api/user_views.py:493-547 | The endpoint on the tables equals the specified step |
| OnboardingDesk.Desk.ProvisionTemporaryUser | backend/accounts/temporary_passwords.py:73-182 | The service on the tables equals the specified step, revoking pending invitations in a loop |
| OnboardingDesk.Desk.PatchUser | backend/api/user_views.py:139-184 | Role and standing change under the self and last-Admin guards |
| OnboardingDesk.Desk.DeleteUser | backend/api/user_views.py:211-251 | The row stays, removed and under its alias |
| OnboardingDesk.Desk.RequestEmailChange | backend/api/auth_views.py:801-853 | An active account that knows its password puts a free address up for confirmation |
| OnboardingDesk.Desk.ConfirmEmailChange | backend/api/auth_views.py:279-301 | The confirmed address replaces the old one unless another account took it, in which case the token is not consumed |
| Credentials.AwaitingChange | backend/accounts/temporary_passwords.py:278-292 | In every run an account awaiting a password change has an expiry, no live session or MFA challenge, and at most one unused change token, tied to the stored password and expiring no later |
| Credentials.CompletesOnce | backend/accounts/temporary_passwords.py:335-389 | A completed change is over: the flag never returns and the token is refused however often it is presented |
| Credentials.RegenerationInvalidates | backend/accounts/temporary_passwords.py:215-226 | A new temporary password invalidates every earlier token of the account for good |
| Credentials.OldPasswordIsGone | backend/accounts/temporary_passwords.py:335-389 | The temporary password stops working with the change, and differs from the new one |
| Credentials.ChallengeThenComplete | backend/accounts/temporary_passwords.py:283-292 | Proving the temporary password and choosing another one succeeds if and only if it happens within five minutes and before its expiry |
| Credentials.RunIsForward | backend/accounts/security.py:30-63 | A spent token stays spent and a cleared flag stays cleared |
| Credentials.Office.Regenerate | backend/accounts/temporary_passwords.py:186-237 | The service on the tables equals the specified step |
| Credentials.Office.ChallengeTemporary | backend/accounts/temporary_passwords.py:241-302 | The service on the tables equals the specified step, binding the token to the password as stored after any rehash |
| Credentials.Office.CompleteTemporary | backend/accounts/temporary_passwords.py:306-399 | The service on the tables equals the specified step |
| Credentials.Office.StartSession | backend/accounts/services.py:159-182 | No session for an account that is not active or awaits a change |
| Credentials.SessionsKeepOk | backend/accounts/services.py:186-207 | Starting a session or an MFA challenge keeps the invariant; only active accounts get one |
| Credentials.Office.ResetPassword | backend/api/auth_views.py:713-747 | A reset link of an account awaiting a change is refused without being consumed |
| Credentials.IssueKeepsOk | backend/accounts/security.py:31-63 | Issuing a token replaces the unused one of its kind and keeps the invariant |
| Credentials.UseRecoveryCode | backend/accounts/security.py:189-196 | Succeeds exactly when an unused code matches, and spends the first such code only |
| Credentials.SpendingOne | backend/accounts/security.py:188-196 | Each success uses up exactly one code of that text |
| CredentialEffects.ProvisionLeaves | backend/accounts/temporary_passwords.py:140-182 | A provisioned account awaits a change for a week |
| CredentialEffects.RegenerateLeaves | backend/accounts/temporary_passwords.py:186-237 | Somebody else who may act gives an account still awaiting its change a new password for a week; its tokens are used up and its sessions revoked |
| CredentialEffects.RegeneratedPasswordWorks | backend/accounts/temporary_passwords.py:215-226 | From then on, for a week, exactly the new password can be proved |
| CredentialEffects.ChallengeLeaves | backend/accounts/temporary_passwords.py:241-302 | Proving the temporary password in time earns one token for at most five minutes, tied to the password as stored |
| CredentialEffects.CompleteLeaves | backend/accounts/temporary_passwords.py:306-399 | When a change succeeds, and that it changes the password, clears the flag and the expiry and signs the account out |
| CredentialEffects.IssueLeaves | backend/accounts/security.py:31-63 | A token replaces the unused ones of its kind; reset links go only to accounts in good standing that await no change |
| CredentialEffects.ResetLeaves | backend/api/auth_views.py:713-747 | A reset link works once, in time, for an account that awaits no change, and signs it out |
| CredentialEffects.ChangePasswordLeaves | backend/api/auth_views.py:766-793 | Who knows the password changes it from a live session and stays signed in only there |
| CredentialEffects.StartSessionLeaves | backend/accounts/services.py:159-182 | A session is started exactly for an account that may act and is verified or provisioned |
| CredentialEffects.StartMfaLeaves | backend/accounts/services.py:186-207 | A challenge replaces the open ones of the account |
| CredentialEffects.StandingLeaves | backend/api/user_views.py:178-184 | A change of standing signs the account out |
| CredentialEffects.SuspensionLeaves | backend/organizations/services.py:207-247 | Suspending the organization revokes every session and drops unused tokens and challenges |
| Portal.GuestReadings | backend/measurements/portal.py:395-413 | In every run a guest reading is its participant's first, recorded by exactly one link, against the plan as it stood when the link was created; at most one unrevoked link per participant |
| Portal.FingerprintAtCreation | backend/measurements/portal.py:109-119 | A link keeps for good the fingerprint of the plan at its creation |
| Portal.RetriesChangeNothing | backend/measurements/portal.py:383-391 | After a guest's reading every further submission through the link changes nothing: the identical one is replayed, any other conflicts |
| Portal.IdenticalRetryIsAnswered | backend/measurements/portal.py:383-391 | The identical retry within the link's life is answered |
| Portal.OneGuestReadingEach | backend/measurements/portal.py:398-399 | No two guest readings of one participant |
| Portal.RunIsForward | backend/measurements/portal.py:409-413 | A link's reading, request id and digest are set once; readings are only appended |
| Portal.LatestSubmissions | backend/measurements/services.py:156-160 | The loop yields each participant's last reading |
| Portal.CompletedPeers | backend/measurements/portal.py:279-308 | No peers before the link's own reading, then exactly the latest reading of each other participant |
| PortalEffects.CreateLinkLeaves | backend/measurements/portal.py:99-138 | A link is created for a participant without a reading while the plan is open, with the plan as it stands, and revokes the earlier ones |
| PortalEffects.RevokeLeaves | backend/measurements/portal.py:141-165 | A revocation marks exactly that link |
| PortalEffects.RevokedIsDead | backend/measurements/portal.py:315-391 | After a revocation, whatever follows, the link's token opens nothing and nothing submitted from any of its contexts is recorded |
| PortalEffects.ExchangeLeaves | backend/measurements/portal.py:315-346 | A working link's token opens a context until the link expires, for the unchanged open plan or to see the reading given |
| PortalEffects.SubmitLeaves | backend/measurements/portal.py:380-414 | A first submission is recorded, as revision 1, exactly if the plan is open and unchanged, the participant has no reading and the readings are the plan's lines, each once |
| PortalEffects.OtherSubmissionsLeave | backend/measurements/portal.py:360-391 | Every other submission changes nothing; which of not found, replayed and conflict it gets |
| PortalEffects.StaffLeaves | backend/measurements/services.py:198-236 | Staff record until the plan is cancelled or final, a revision only with a reason |
| PortalEffects.RevisionsAreCounted | backend/measurements/services.py:198-236 | In every run a reading is numbered by how many its participant had before it |
| Portal.Desk.CreateLink | backend/measurements/portal.py:99-138 | The endpoint on the tables equals the specified step |
| Portal.Desk.RevokeLink | backend/measurements/portal.py:141-165 | The endpoint on the tables equals the specified step; a second revocation changes nothing |
| Portal.Desk.ExchangeToken | backend/measurements/portal.py:315-346 | The endpoint on the tables equals the specified step: a context only for a usable link, against the unchanged plan unless the reading is in |
| Portal.Desk.SubmitReading | backend/measurements/portal.py:380-414 | The endpoint on the tables equals the specified step |
| Idempotency.EffectsAtMostOnce | backend/api/platform_idempotency.py:59-142 | For an arbitrary handler that may fail each (actor, key) applies its effect at most once and every committed record is completed |
| Idempotency.RepliesAfterwards | backend/api/platform_idempotency.py:105-121 | Afterwards the same request changes nothing and gets the stored response or a refusal; another request under the key conflicts |
| Idempotency.FailureLeavesNoTrace | backend/api/platform_idempotency.py:59-142 | A failed attempt leaves no trace and its key can be tried again |
| Idempotency.FreshTakesEffect | backend/api/platform_idempotency.py:46-142 | A mutation takes effect exactly if its key is valid and new, access is given and the handler succeeds: the handler's state becomes the state and its response is recorded and returned; which refusal every other one gets |
| Idempotency.Wrapper.Handle | backend/api/platform_idempotency.py:46-142 | The wrapper, pending record and rollback included, equals the specified step |
| Idempotency.StripMeaning | backend/api/platform_idempotency.py:50 | The key is the header with a blank stretch cut off either end and nothing else; no blank is left at the ends, and a valid key is left alone |
| Issuing.FinalizeOnce | backend/api/domain.py:57-71 | A repeated finalize, however much later, changes nothing and returns the same invoice |
| Issuing.OneInvoicePerInspection | backend/api/domain.py:57-112 | In every run an inspection has at most one invoice |
| Issuing.SeriesIssueEverything | backend/api/domain.py:27-37 | In every run each series has issued exactly 1..value, each once |
| Issuing.InvoiceNumbersDiffer | backend/api/domain.py:27-37 | Invoice numbers are pairwise distinct, disparity invoices included |
| Issuing.InvoicesStay | backend/api/domain.py:72-80 | Invoices are only added, a known berth date is never overwritten, versions never go back |
| Issuing.IssuedAmounts | backend/api/domain.py:81-84 | Dues are within half a cent, and the naira commission within 1/200 + fx/200, of the exact amounts |
| IssuingEffects.FinalizeLeaves | backend/api/domain.py:53-112 | A first finalize completes inspection and call and adds one invoice with the year's next number, at the rate of its cargo and jetty, with dues, commission and naira commission each in nearest cents |
| IssuingEffects.OtherFinalizesLeave | backend/api/domain.py:57-71 | Every other finalize changes nothing and returns the inspection's invoice, if there is one |
| IssuingEffects.InspectLeaves | backend/api/operation_views.py:303-348 | An inspection of a call that is not cancelled opens the call and takes the year's next number |
| IssuingEffects.DisparityLeaves | backend/measurements/services.py:500-535 | A disparity's invoice takes the next number of the same sequence, for the amount in nearest cents |
| Issuing.Office.NextNumber | backend/api/domain.py:27-37 | Raises the sequence by one and prints its new value |
| Issuing.Office.FinalizeInspection | backend/api/domain.py:53-112 | The service on the tables equals the specified step |
| Numbering.PrintedIsInjective | backend/api/domain.py:37 | Year and serial can be read back from a printed number, also past 9999 |
| Numbering.LegacyNumberIsNew | backend/legacy_fastapi/services.py:51-60 | The parsed maximum plus one never is an existing reference, malformed ones included, if and only if the prefix holds no dash |
| Numbering.IssuedNumbersAreNew | backend/legacy_fastapi/routers/inspections.py:30-49 | With the two prefixes the engine passes, it never is |
| Numbering.LegacyNextNumber | backend/legacy_fastapi/services.py:51-60 | The loop computes the maximum over whatever parses |
| Rounding.MoneyIsNearest | backend/api/domain.py:18-19 | Within half a cent, and no other whole number of cents is closer |
| Rounding.TiesGoAway | backend/api/domain.py:18-19 | Half a cent goes away from zero on both sides |
| Rounding.MoneyIsMonotone | backend/api/domain.py:18-19 | Rounding keeps order |
| Rounding.MoneyIsIdempotent | backend/api/domain.py:18-19 | Rounding twice is rounding once |
| Rounding.NairaError | backend/api/domain.py:83-84 | The twice-rounded naira commission is within 1/200 + fx/200 of the exact one |
| Rounding.EnginesRoundAlike | backend/legacy_fastapi/services.py:14-16 | Both engines round alike if and only if the amount is not a negative odd number of half cents |
| Rounding.EnginesIssueSameDues | backend/legacy_fastapi/services.py:33-36 | For non-negative tonnage both engines issue the same dues unless a negative rate owes half a cent or more |
| Rounding.EnginesIssueSameCommission | backend/legacy_fastapi/services.py:39-42 | And the same dollar commission |

## Left out

- Screens, charts, PDF and CSV output, storage back ends, SMTP and HTTP transport: no state logic.
- Cryptography, password hashing, TOTP, JSON canonicalization, CSRF, throttles, cookies, session middleware and session key rotation; code checks and digests are taken as described above.
- Floating-point behaviour of the browser and of the earlier engine (exact arithmetic instead), the 28-digit decimal context, and the naira comparison between the engines, which round to different units.
- Row locks and broken transactions: the `IntegrityError` fallback in `finalize_inspection` and concurrent commits inside one organization are replaced by serialized atomic steps.
- The provider of the outbox is assumed to deduplicate by key; rows are assumed to be listed in the order they are queued, so a later row never sorts before an earlier one.
- The console model assumes that responses are processed in server order; a response may be lost, but not overtaken.
- Registration and the operators' own Admin invitations (`backend/organizations/services.py`): onboarding runs start from an organization that has one active Admin.
- Other organizations' rows: onboarding and credentials model one customer organization and the set of operator addresses; uniqueness across organizations is not a promise of the code.
- `measurements/services.py`: `create_submission` appears only as validating lines and appending the next revision; evidence, reconciliations and assessments are not part of this model.
- Notices, audit events, role-matrix lookups and list normalizers, which add no state these properties depend on.
- Voiding: `transition_invoice` with no step is modelled as the service offers it, though no endpoint calls it.
- Status of a call: neither that a cancelled call stays cancelled nor that a completed one stays completed is claimed, because adding or finalizing an inspection overwrites it.
- Sidecar entries that are neither strings nor objects with a string `u`, and external writes to the sidecar while the page is open.
- Issuing.Office.FinalizeInspection: leaves the invoice's workflow step and first log row to BillingDesk.Desk.IssueInvoice, which models that half of the same function.
- `vessel_backend`, which `server.py` starts, is not part of this model.
- Authentication of the console: its writes carry no bearer token and no CSRF token, so no engine of this repository accepts them. It is modelled against the earlier engine's routes for the paths it calls as if an Admin's token came with them; roles, and the empty team other roles are shown, are not modelled. Its local mode without a server is not modelled either. Lists are kept by id, so their order on the screen is not modelled; a bulk reset reloads everything and is an ordinary foreign write.
- Endpoints that answer without raising the revision (a cancelled call cancelled again, a replayed payment): none of the console's requests is one of them, and what another client should make of such an answer is not modelled.
