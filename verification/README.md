# SAM back end: verified model

This project models the account and commercial-change services of a B2B customer-management
back end and proves what they promise. An account carries a yearly amount (ARC), a contract status
and a list of commercial changes. On the existing base, a change is committed, walks a chain of
internal approvals and is then applied; a disconnection first goes through a 21-day retention
window and a 10-day notice before a lazy sweep terminates the account. Around that core sit the
existing-base dashboard, a bulk importer, CRM webhooks, the audit archive, cursor paging, the
fiscal calendar and two views of each SAM's churn.

`dafny verify dfyconfig.toml` checks everything.

## How it is laid out

| files | content |
|---|---|
| `Schema`, `Dates`, `Sums`, `Ordering`, `Division`, `Checks` | tables and enumerations; the day arithmetic; sums, filters and the stable sort; rounded-up quotients; conditions checked in order |
| `Lifecycle`, `Store` | the commercial-change services twice: as functions on a database value, and as methods that update the tables in the source's order, each proved to compute its function |
| `Refusals`, `Effects` | when each call is refused and with which error, and what an accepted call writes, stated column by column and independently of the functions |
| `History` | reading a change's past back out of the audit log |
| `Invariant`, `Preservation`, `Runs` | what holds between calls on the existing base, that every call keeps it, and whole runs: any mix of calls, sweep workers and clock advances |
| `Guarantees`, `CommitCall`, `RetentionCall`, `Landings` | theorems over runs and about single calls; that what was asked for is what lands |
| `SweepWorkers` | sweeps running side by side |
| `Dashboard`, `Headcount`, `Reconciliation` | the waterfall's loops; what each figure counts; why the waterfall accounts for every rupee |
| `Forecast`, `Reachability`, `SignOffs` | why the pending provision forecasts, that it can always come true, and who it takes |
| `BulkImport`, `BulkAcceptance`, `BulkOrder` | the bulk change importer and its cache; which rows it takes and why it skips the others; when the order of its rows matters |
| `Webhooks`, `Activations` | event-id reservation and the three ingest calls; what each delivery writes |
| `AuditArchive`, `Paging` | batched archiving; cursor paging |
| `FiscalCalendar`, `Months` | the calendar, the fiscal quarters and the base/new cutoff; the same in terms of calendar months |
| `TeamChurn`, `ChurnFigures` | churn by grouping against churn by filtering, team budget against members' budgets; what the figures count and how far they are from what was lost |

## Modelling decisions

- A row's id is its position in the table: accounts and changes are only ever appended, so a
  later row was created later. Amounts are whole rupees; time is milliseconds, UTC.
- A service call is one atomic step with one reading of the clock. `commit` and `decide` read
  their guards outside the write transaction; interleavings inside one call are not modelled.
  The sweep is the exception: an idle worker picks a list of due rows in one step and applies them
  one transaction at a time in later steps, between which anything may happen. The list may be any
  rows that are due, in any order, because the query skips locked rows and fixes no order.
- Runs start from a fresh import (no changes; opening ARC equal to live ARC; status ACTIVE,
  EXPIRED, PENDING or TERMINATED) and contain commits, decisions, retention decisions, sweep
  picks, sweep transactions and clock advances, on existing-base and new-base accounts alike.
- `retentionDecision` does not look at a row's approval status. The model keeps that. Runs make
  the call on approved existing-base rows only, which is what the retention queue offers;
  `RetentionCall` says exactly what the call keeps on every other row and exhibits a run it breaks.
- Approval calls come from sessions whose role is the recorded one.
- The order of the approval chain is the one `nextStage` computes. The comment at
  `src/modules/commercial-changes/approvals.service.ts:14-22` gives an older order, and the one at
  `src/modules/commercial-changes/commercial-changes.service.ts:316-319` another.
- The dashboard describes `pending.count` as changes in CRM workflow
  (`src/modules/dashboard/dashboard.service.ts:186-187`). On the existing base it counts the
  disconnections whose customers were retained (`Reconciliation.PendingCountIsRetained`);
  `Reconciliation.RetainedStillCounts` is a run that ends with nothing in flight and a count of 1.
- The comment at `src/modules/accounts/accounts.service.ts:118` says the owner filter narrows the
  role's scope; the code replaces it. `Paging.FilterNarrowsScope` states exactly where the two differ.
- A webhook delivery that fails after its event id was reserved leaves the id taken: a retry under
  that id is answered as a duplicate and never carried out (`Webhooks.EventsAreFinal`,
  `Webhooks.RepeatsAreDuplicates`).
- The churn figures read a SAM's changes whatever became of them
  (`src/modules/dashboard/team-performance.service.ts:158-168`), although churn is meant as the net
  ARC delta (`src/modules/dashboard/team-performance.service.ts:295-299`): a disconnection that was
  rejected or retained counts as lost (`ChurnFigures.RetainedCountsAsChurn`).
  `ChurnFigures.NetChurnIsLossPlusUnapplied` says by exactly how much the figure is off.
- A SAM without opening ARC is never flagged as over budget, so a team can exceed its budget with
  nobody flagged (`TeamChurn.ZeroBaseHidesTheLoss`). `TeamChurn.FlagsReliableIff` says exactly for
  which teams that cannot happen: those in which every SAM has an opening ARC, or none has.

## Model

| member | source | states |
|---|---|---|
| Lifecycle.LatestUndecided | src/modules/commercial-changes/commercial-changes.service.ts:1224-1231 | the row found is the account's newest undecided disconnection; none is found only if there is none |
| Lifecycle.DueIds | src/modules/commercial-changes/commercial-changes.service.ts:1191-1199 | exactly the due rows that are not locked, each once |
| Dates.StartOfDay | src/modules/commercial-changes/commercial-changes.service.ts:1466-1470 | the unique midnight within the day before an instant, also before 1970 |
| Dates.StartOfDayAddDays | src/modules/commercial-changes/commercial-changes.service.ts:1472-1476 | adding days and truncating to midnight commute |
| Store.Services.Commit | src/modules/commercial-changes/commercial-changes.service.ts:270-507 | computes the commit step: same refusals in the same order, tables untouched when refused, otherwise row, audit entry, auto-retain and routing |
| Store.Services.AutoRetainPendingDisconnection | src/modules/commercial-changes/commercial-changes.service.ts:1220-1255 | the newest undecided disconnection becomes RETAIN, the account ACTIVE, one audit entry; nothing if there is none |
| Store.Services.EnterApprovalChain | src/modules/commercial-changes/commercial-changes.service.ts:1264-1296 | the row takes its first stage and the account waits in PENDING_APPROVAL, with one audit entry |
| Store.Services.EnterProbableChurn | src/modules/commercial-changes/commercial-changes.service.ts:1298-1322 | the prompt falls 21 days after the anchor's midnight |
| Store.Services.EnterPendingQuickApproval | src/modules/commercial-changes/commercial-changes.service.ts:1440-1464 | only the account's status changes, with one audit entry |
| Store.Services.ApplyChangeToAccount | src/modules/commercial-changes/commercial-changes.service.ts:1490-1518 | mirrors the row onto its account and stamps it, or does nothing if it is stamped |
| Store.Services.Decide | src/modules/commercial-changes/approvals.service.ts:250-300 | computes the decision step: role, stage and team checks, rejection reason, drift guard, advance or terminal effect; untouched when refused |
| Store.Services.AssertCanAct | src/modules/commercial-changes/approvals.service.ts:303-332 | refuses exactly the wrong role, or a head outside the customer's team; never an admin |
| Store.Services.ApplyTerminalApproval | src/modules/commercial-changes/approvals.service.ts:398-544 | the three effects of the last sign-off, by type and mode |
| Store.Services.RetentionDecision | src/modules/commercial-changes/commercial-changes.service.ts:1007-1062 | computes the retention step with its refusals; PROCEED schedules termination 10 days on |
| Store.Services.SweepDueTerminations | src/modules/commercial-changes/commercial-changes.service.ts:1186-1203 | the loop applies exactly the due rows it does not have to skip, one after another |
| Refusals.CommitRefusedByFirst | src/modules/commercial-changes/commercial-changes.service.ts:270-358 | a commit is refused with the error of the first of eleven conditions that fails, in terms of the request, the account's status and kitty and the users, and accepted exactly if all hold |
| Refusals.DecideRefusedByFirst | src/modules/commercial-changes/approvals.service.ts:257-332 | a decision is refused with the error of the first of six conditions that fails: found, pending, the stage's role, the head's team, a reason of three characters, no drift |
| Refusals.MayApproveIff | src/modules/commercial-changes/approvals.service.ts:303-332 | an approval is let through if and only if the actor is an admin, or holds the role of the row's stage, as a head only for an own or reporting SAM's customer |
| Refusals.RetentionRefusedByFirst | src/modules/commercial-changes/commercial-changes.service.ts:1012-1030 | a retention decision is refused with the error of the first of four conditions that fails; PROCEED is open from the prompt day on |
| Refusals.TrimmedLengthIs | src/modules/commercial-changes/commercial-changes.service.ts:331-336 | the length of a reason is that of the text between its blanks |
| Effects.CommitOnBase | src/modules/commercial-changes/commercial-changes.service.ts:390-487 | an accepted existing-base commit appends one row with everything asked for, at SAM_HEAD if quick and at ACCOUNTS otherwise, retains a displaced disconnection, sets PENDING_APPROVAL, logs it, and changes nothing else |
| Effects.CommitOnNew | src/modules/commercial-changes/commercial-changes.service.ts:390-505 | on a new-base account: retention window 21 days after the effective date, quick approval, applied at once with the ARC and bandwidth asked for, or left to the CRM, as type, mode and CRM id say, and nothing else |
| Effects.RejectionRecorded | src/modules/commercial-changes/approvals.service.ts:546-588 | a rejection stamps rejecter and time, frees the account and logs the stage, and changes nothing else |
| Effects.AdvanceRecorded | src/modules/commercial-changes/approvals.service.ts:338-389 | an approval that is not the last moves the row to the next stage, logs both stages, and changes nothing else |
| Effects.ApprovalRecorded | src/modules/commercial-changes/approvals.service.ts:398-544 | the last approval stamps approver and time and applies the change, or opens a window of 21 days, or dates the termination the requested days on with PROCEED, and changes nothing else |
| Effects.RetentionRecorded | src/modules/commercial-changes/commercial-changes.service.ts:1032-1062 | RETAIN frees the account; PROCEED dates the termination ten days after today's midnight; nothing else changes |
| Effects.SweepRecorded | src/modules/commercial-changes/commercial-changes.service.ts:1186-1203 | a sweep stamps exactly the rows that are due and not locked and terminates exactly their accounts at ARC 0 |
| Effects.AppliedRecorded | src/modules/commercial-changes/commercial-changes.service.ts:1490-1518 | a worker's transaction on a disconnection stamps it and terminates its account at ARC 0 once, and does nothing a second time |
| Preservation.CommitKeeps | src/modules/commercial-changes/commercial-changes.service.ts:281-507 | every accepted commit, on either kitty, keeps the existing base's invariant: row shapes, one change at a time, balanced ARC, truthful audit log |
| Preservation.DecideKeeps | src/modules/commercial-changes/approvals.service.ts:338-588 | so does every accepted approval or rejection |
| Preservation.RetentionKeeps | src/modules/commercial-changes/commercial-changes.service.ts:1032-1062 | so does a retention decision on a row the queue serves |
| Preservation.ApplyKeeps | src/modules/commercial-changes/commercial-changes.service.ts:1490-1518 | so does one sweep transaction, even on a stale list entry |
| Preservation.SweepKeeps | src/modules/commercial-changes/commercial-changes.service.ts:1186-1203 | so does a whole sweep, whichever locked rows it skips, and rows change in their stamp alone |
| Runs.StepRow | src/modules/commercial-changes/commercial-changes.service.ts:270-1203 | whatever the step, an existing-base row is untouched or strictly closer to settled, and its amounts, type and made decisions stay |
| Runs.RunKeeps | src/modules/commercial-changes/commercial-changes.service.ts:1180-1203 | over every legal run the invariant holds and every row on a worker's list is due or already applied |
| CommitCall.GuardIsSerialisation | src/modules/commercial-changes/commercial-changes.service.ts:281-308 | the status guard passes exactly if the account is not terminated and has nothing in flight, save a disconnection in its retention window displaced by another type |
| CommitCall.CommitOpensOneChange | src/modules/commercial-changes/commercial-changes.service.ts:472-487 | afterwards the new row alone is in flight, at the start of its full chain, holding the account's ARC; a displaced disconnection is retained |
| Guarantees.OneChangeAtATime | src/modules/commercial-changes/commercial-changes.service.ts:281-308 | in every reachable state an account has at most one change in flight, its status tells which kind (if and only if), and its ARC is that row's old ARC |
| Guarantees.ArcIsConserved | src/modules/commercial-changes/approvals.service.ts:437-471 | live ARC = imported ARC + applied gains - applied disconnections' old ARC, over every run; at most one disconnection is ever applied, and then ARC is 0 |
| Guarantees.TerminatedForGood | src/modules/commercial-changes/commercial-changes.service.ts:281-285 | from any good world, a terminated account's row never changes again |
| Guarantees.NoticeIsGiven | src/modules/commercial-changes/approvals.service.ts:473-527 | no disconnection is applied before approval day + 31 (normal) or approval day + requested days (quick), over every run |
| Guarantees.DatesAreExact | src/modules/commercial-changes/approvals.service.ts:473-527 | over every run an approved disconnection's dates are exact: prompt 21 days after approval, termination 10 days after a PROCEED no earlier than that, or the requested 0 to 15 days after a quick approval |
| Guarantees.NoTerminationWithoutNotice | src/modules/commercial-changes/commercial-changes.service.ts:1023-1062 | over every run, an account not imported terminated is terminated only with an applied disconnection of its own that gave that notice |
| Guarantees.AuditTellsTheStory | src/modules/commercial-changes/approvals.service.ts:303-389 | folding a row's audit entries gives its approval status and retention decision; an approved row has one sign-off per required stage, in order, by that role or an admin; a rejected one a strict prefix |
| Guarantees.PickPerAccount | src/modules/probable-churn/probable-churn.service.ts:95-106 | the loop keeps, for every account, its newest unapplied disconnection |
| Guarantees.QueueAndAutoRetainAgree | src/modules/probable-churn/probable-churn.service.ts:92-106 | in a retention window the queue's row, auto-retain's row and the one in-flight row coincide, despite older rejected or retained ones |
| Guarantees.RankMeansInFlight | src/modules/commercial-changes/approvals.service.ts:57-66 | the progress measure is 0 exactly on rejected, retained or applied rows |
| Guarantees.SettlesWithinFour | src/modules/commercial-changes/approvals.service.ts:338-389 | a change is moved by at most four steps of any run, each lowering its rank |
| Guarantees.RunsAreFinite | src/modules/commercial-changes/commercial-changes.service.ts:1007-1203 | productive steps of a run are bounded by the rank at its start plus four per commit |
| Guarantees.NeverStuck | src/modules/commercial-changes/approvals.service.ts:566-571 | from every reachable kind of waiting row there is a way on: an admin can decide (the drift guard never fires), RETAIN is always open, PROCEED exactly from the prompt day, the sweep exactly from the termination day |
| Landings.AccountFollowsChanges | src/modules/commercial-changes/approvals.service.ts:437-471 | over every run an account's ARC and bandwidth are those of its newest applied change, for the bandwidth the newest naming one, else the imported ones |
| Landings.RunKeepsRequest | src/modules/commercial-changes/commercial-changes.service.ts:391-424 | no run rewrites what a row was asked for: account, type, amounts, bandwidth, date, mode, days and author |
| Landings.RequestLands | src/modules/commercial-changes/commercial-changes.service.ts:391-424 | whatever happens before and after an accepted existing-base commit, its row carries the request, and once applied and until a later change of the account is, the ARC is the one asked for (0 for a disconnection) and the bandwidth too if given |
| RetentionCall.RetentionNeedsApproval | src/modules/commercial-changes/commercial-changes.service.ts:1012-1030 | an accepted retention call keeps the invariant if and only if the row is approved |
| RetentionCall.RetentionMirrors | src/modules/commercial-changes/commercial-changes.service.ts:1034-1062 | the exact rows, decisions and statuses for which the account's status still mirrors its rows afterwards |
| RetentionCall.RetainWhilePendingBreaks | src/modules/commercial-changes/commercial-changes.service.ts:1017-1022 | a concrete three-call run from a fresh import that ends with two changes in flight on one account |
| SweepWorkers.PlayRow | src/modules/commercial-changes/commercial-changes.service.ts:1491-1496 | a row takes the stamp of the first transaction that reaches it and never another |
| SweepWorkers.StampedOnce | src/modules/commercial-changes/commercial-changes.service.ts:1496-1516 | any sequence of transactions writes a row at most once |
| SweepWorkers.PlaysConfluent | src/modules/commercial-changes/commercial-changes.service.ts:1186-1203 | transactions over the same unapplied rows end in the same tables, up to stamp times, whatever their order, repeats and overlap |
| SweepWorkers.WorkersSweepTheUnion | src/modules/commercial-changes/commercial-changes.service.ts:1186-1203 | any number of workers with stale, overlapping lists, held or picked along the way, in any interleaving, equal one sequential pass over the union of their lists and write each unapplied row of it exactly once |
| SweepWorkers.WorkersMakeOneSweep | src/modules/commercial-changes/commercial-changes.service.ts:1186-1203 | if their lists cover what has fallen due, the workers equal one full sweep |
| Dashboard.FillBuckets | src/modules/dashboard/dashboard.service.ts:263-304 | the switch loop computes the bucket sums and the set of accounts a transaction terminated |
| Dashboard.CountImported | src/modules/dashboard/dashboard.service.ts:314-321 | counts and sums the terminated accounts no transaction explains |
| Dashboard.SumAwaiting | src/modules/dashboard/dashboard.service.ts:417-429 | the provision and the three stage counters are the sums over the pending rows |
| Dashboard.AddUp | src/modules/dashboard/dashboard.service.ts:340-394 | both views (quarter and All-Time) and the residual, as sums |
| Dashboard.ExistingBase | src/modules/dashboard/dashboard.service.ts:196-469 | sweeps first, then reports the waterfall of the swept tables in the requester's scope |
| Headcount.ScopeCovers | src/modules/dashboard/dashboard.service.ts:22-51 | the dashboard covers a SAM's own customers, a head's team, or all, narrowed by the SAM filter |
| Headcount.AllTimeFigures | src/modules/dashboard/dashboard.service.ts:314-367 | in every reachable swept state and scope: churn is the number and old ARC of approved disconnections neither retained nor applied; current customers and ARC are the accounts neither terminated nor with such a row; terminations are the terminated accounts |
| Headcount.QuarterFigures | src/modules/dashboard/dashboard.service.ts:340-394 | in a quarter: terminations are the disconnections of the window carried out, current figures the imported ARC with the window's upgrades and downgrades less those and the leaving, and the residual is 0 |
| Headcount.OtherFigures | src/modules/dashboard/dashboard.service.ts:209-304 | opening figures, buckets by type, provision and stage counters as counts and sums over the covered rows and imported accounts |
| Headcount.CustomersByStatus | src/modules/dashboard/dashboard.service.ts:323-367 | on any tables, at-risk, current and terminated figures go by the accounts' statuses |
| Headcount.BucketsOf | src/modules/dashboard/dashboard.service.ts:223-304 | on any tables the buckets count and add up, by type, the window's changes that are neither pending nor rejected |
| Headcount.PendingByRow | src/modules/dashboard/dashboard.service.ts:375-394 | on any tables the pending count counts unapplied changes other than rate revisions on accounts not at risk, and the residual closes the waterfall |
| Headcount.ProvisionOf | src/modules/dashboard/dashboard.service.ts:396-429 | on any tables the provision and the stage counters are those of the covered rows awaiting approval |
| Reconciliation.ByAccountOrByRow | src/modules/dashboard/dashboard.service.ts:263-304 | summing anything over the covered accounts' rows account by account equals summing it row by row |
| Reconciliation.ResidualIsRateRevisions | src/modules/dashboard/dashboard.service.ts:375-394 | in every reachable state, as swept by the dashboard before it reads, and in every scope, the All-Time residual is exactly minus the rate-revision row, hence 0 if rate revisions keep ARC |
| Reconciliation.CustomersPartition | src/modules/dashboard/dashboard.service.ts:327-367 | live, at-risk and terminated customers add up to all customers |
| Reconciliation.PendingCountIsRetained | src/modules/dashboard/dashboard.service.ts:380-388 | in every reachable state, as swept by the dashboard, and for every window, the pending count is the number of the window's retained disconnections of accounts not at risk |
| Reconciliation.RetainedStillCounts | src/modules/dashboard/dashboard.service.ts:375-388 | a concrete four-call run (raise, two sign-offs, RETAIN) after which nothing is in flight and the pending count is 1 |
| Forecast.ProvisionForecasts | src/modules/dashboard/dashboard.service.ts:414-429 | after any commit-free run that applies all pending changes of a scope, their accounts' ARC has moved by the provision plus what rate revisions carry |
| Forecast.DashboardForecasts | src/modules/dashboard/dashboard.service.ts:401-429 | for the dashboard's own scopes, from any reachable state it has swept, with ARC-neutral revisions, by exactly the figure shown |
| Forecast.CountersPartition | src/modules/dashboard/dashboard.service.ts:426-428 | the three counters split the number of pending changes, in any state, scope and window |
| Reachability.DriveToApplication | src/modules/commercial-changes/approvals.service.ts:338-389 | with an admin and an idle sweep worker, any change in flight can be driven to application by legal steps that touch no other change |
| SignOffs.ThreeRolesSuffice | src/modules/commercial-changes/approvals.service.ts:50-66 | a head of the owner, an accounts user and a second super admin, none an admin, take a quick disconnection from its first stage to DISCONNECTING by one approval each |
| Reachability.ProvisionComesTrue | src/modules/dashboard/dashboard.service.ts:396-429 | from any good world some legal commit-free run applies every pending change of a scope, and the ARC then has moved by the provision plus what rate revisions carry |
| Ordering.SortSorts | src/modules/commercial-changes/bulk-import/bulk-import.service.ts:153-157 | the sort orders its input and keeps its elements |
| BulkImport.SortIsStable | src/modules/commercial-changes/bulk-import/bulk-import.service.ts:148-157 | rows sharing a date, or without one, keep the sheet's order |
| BulkImport.SortsByDate | src/modules/commercial-changes/bulk-import/bulk-import.service.ts:148-157 | rows come out in date order, undated ones last, none lost or repeated |
| BulkImport.Importer.ApplyRow | src/modules/commercial-changes/bulk-import/bulk-import.service.ts:357-450 | change row and account row are written together or not at all |
| BulkImport.Importer.ImportRow | src/modules/commercial-changes/bulk-import/bulk-import.service.ts:159-209 | judging a row against the snapshot does what judging it against the table would, and the snapshot stays the table's image |
| BulkImport.Importer.ImportWorkbook | src/modules/commercial-changes/bulk-import/bulk-import.service.ts:83-212 | the importer with its mutated snapshot writes and reports what an importer re-reading every account would, whichever row transactions fail |
| BulkAcceptance.ValidatedByFirst | src/modules/commercial-changes/bulk-import/bulk-import.service.ts:253-338 | a row fails validation with the error kind of the first of its ten conditions that does not hold, and passes if all do |
| BulkAcceptance.PostedIff | src/modules/commercial-changes/bulk-import/bulk-import.service.ts:357-450 | a row is imported if and only if the database does not refuse it and it is acceptable against the table: circuit known and not terminated, type, date, ARC given, not negative and fitting the type, reason empty or listed; then its change and account hold what was asked, and nothing else changes |
| BulkAcceptance.EveryRowJudged | src/modules/commercial-changes/bulk-import/bulk-import.service.ts:159-209 | every row of the workbook is so judged at its turn in date order, and the summary says so: a preview of the change written, or one error of the kind of the first condition failed |
| BulkAcceptance.EveryReasonListed | src/modules/commercial-changes/bulk-import/bulk-import.service.ts:322-338 | over a whole import every disconnection written carries no reason or one of the codes |
| BulkAcceptance.EveryRowMentionedOnce | src/modules/commercial-changes/bulk-import/bulk-import.service.ts:159-209 | the summary names every row of the sheet once, as imported or as an error, besides the parse errors |
| BulkOrder.AccountsChain | src/modules/commercial-changes/bulk-import/bulk-import.service.ts:148-212 | per account each imported change starts from the ARC and bandwidth the previous one left, fits its type, never follows a disconnection, and dates never decrease |
| BulkOrder.SummaryAccountsForEveryRow | src/modules/commercial-changes/bulk-import/bulk-import.service.ts:90-99 | imported + skipped = rows + parse errors, one error per skip, and the preview lists exactly the rows written |
| BulkOrder.OrderOfRowsIsImmaterial | src/modules/commercial-changes/bulk-import/bulk-import.service.ts:148-157 | any permutation of the sheet gives the same accounts and, per circuit, the same changes, if rows sharing circuit and date are identical |
| BulkOrder.SharedDateOrderMatters | src/modules/commercial-changes/bulk-import/bulk-import.service.ts:148-157 | two different rows sharing circuit and date for which the sheet's order decides the account's ARC |
| Webhooks.Holder | src/modules/integrations/integrations.service.ts:182-184 | finds an account with the CRM id exactly if there is one |
| Webhooks.Integrations.Reserve | src/modules/integrations/integrations.service.ts:143-174 | the event row is inserted exactly if the id is new and the database answers |
| Webhooks.Integrations.IngestCustomerActivated | src/modules/integrations/integrations.service.ts:136-226 | reservation, ARC resolution, upsert by CRM id and event update, under every fault, compute one delivery |
| Webhooks.Integrations.IngestQuickDisconnectDecision | src/modules/integrations/integrations.service.ts:369-514 | likewise for an approved or rejected quick disconnect |
| Webhooks.Integrations.IngestCommercialChangeStatusChanged | src/modules/integrations/integrations.service.ts:570-689 | likewise for a CRM status transition |
| Webhooks.Integrations.RecordRejection | src/modules/integrations/integrations.service.ts:725-754 | a refused delivery takes its id as REJECTED unless it is taken, and touches nothing else |
| Activations.ActivationProcessed | src/modules/integrations/integrations.service.ts:136-226 | an activation is PROCESSED if and only if its event id is new, nothing fails, an ARC or MRR is given and no other customer has the circuit; the account then carries the delivery, ARC or 12 times MRR; a new one is NEW, ACTIVE and opens at that ARC, an existing one keeps kitty, status and opening ARC; nothing else changes |
| Activations.LastActivationStands | src/modules/integrations/integrations.service.ts:182-213 | over any deliveries, the one account of a CRM id carries company, circuit, bandwidth and ARC of the last activation of that id that took effect |
| Activations.DecisionProcessed | src/modules/integrations/integrations.service.ts:401-514 | a decision is PROCESSED if and only if its id is new, nothing fails and its change is a quick one; every column it writes, the account DISCONNECTING or ACTIVE, nothing else |
| Activations.TransitionProcessed | src/modules/integrations/integrations.service.ts:603-689 | a transition is PROCESSED if and only if its id is new, nothing fails and its change exists; every column it writes and the account's status by CRM status, nothing else |
| Activations.EventTells | src/modules/integrations/integrations.service.ts:136-228 | a delivery's event row says how it ended, PROCESSED with its account, REJECTED or FAILED, and NOT_FOUND is answered exactly for unknown or unfit changes |
| Webhooks.AtMostOnce | src/modules/integrations/integrations.service.ts:136-174 | over any sequence of deliveries of the four kinds, faults included, all tables end as if only the first delivery of each event id had arrived, each id once |
| Webhooks.RepeatsAreDuplicates | src/modules/integrations/integrations.service.ts:157-174 | a delivery is answered DUPLICATE exactly if its id has arrived before, an activation with the account first linked |
| Webhooks.EventsAreFinal | src/modules/integrations/integrations.service.ts:138-141 | once an id has an event row no later delivery changes that row |
| Webhooks.AccountsKeepTheirOrigin | src/modules/integrations/integrations.service.ts:182-213 | no run leaves two accounts with one CRM id or circuit, or alters a CRM id, kitty or opening ARC |
| AuditArchive.FirstOf | src/modules/audit/audit.service.ts:99-104 | a batch is as large as it can be and every row in it precedes every row left out |
| AuditArchive.AuditService.ArchiveOlderThan | src/modules/audit/audit.service.ts:89-135 | moves one batch or rolls back, reports what moved and what is still due, and never rolls back on disjoint tables |
| AuditArchive.ArchiveMovesTheOldest | src/modules/audit/audit.service.ts:95-129 | one call keeps every row in exactly one table, moves min(batch, due) rows, all older than the rest by (timestamp, id), and drops exactly their overlay |
| AuditArchive.RunKeeps | src/modules/audit/audit.service.ts:83-87 | over repeated calls with any batch sizes and new rows logged in between, nothing is lost, only due rows move and the count due falls by the capacity used |
| AuditArchive.DrainedExactly | src/modules/audit/audit.service.ts:99-129 | once nothing is due, exactly the rows strictly before the cutoff have moved, as they were logged |
| AuditArchive.DrainsInCeilCalls | src/modules/audit/audit.service.ts:93-104 | with one batch size nothing is due if and only if at least ceil(due / batch) calls were made |
| AuditArchive.BatchSizeIs | src/modules/audit/audit.service.ts:93 | a batch is 5,000 rows by default, as asked between 1 and 10,000, and cut to those bounds otherwise |
| Paging.List | src/modules/accounts/accounts.service.ts:81-150 | the mutated filter and the take + 1 fetch compute one page |
| Paging.FilterNarrowsScope | src/modules/accounts/accounts.service.ts:104-127 | the owner filter narrows the role's scope except for a SAM asking for unassigned accounts, and there it does not |
| Paging.ListedIff | src/modules/accounts/accounts.service.ts:99-127 | an account is listed if and only if its kitty is the one asked for and its owner is one the role and owner filter ask for |
| Paging.TakeIs | src/modules/accounts/accounts.service.ts:98 | a page is 1,000 rows by default, as asked between 1 and 1,000, and cut to those bounds otherwise |
| Paging.PageIsASlice | src/modules/accounts/accounts.service.ts:134-143 | a page asked for at a position is the next rows of the full list, and its cursor resumes right after them |
| Paging.PageCountIsCeil | src/modules/accounts/accounts.service.ts:98 | the number of pages is max(1, ceil(n / take)) |
| Paging.WalkReturnsTheList | src/modules/accounts/accounts.service.ts:134-150 | following nextCursor ends after exactly that many requests and the pages are the whole filtered list, newest first, without gaps or repeats |
| FiscalCalendar.CutoffsAgree | src/modules/dashboard/dashboard.service.ts:508-511 | the fiscal year's start is the same by all three computations, and the instant lies in that year |
| FiscalCalendar.QuartersAdjoin | src/modules/dashboard/dashboard.service.ts:54-83 | each quarter starts one millisecond after the one before ends; the last ends with the year |
| FiscalCalendar.QuartersTile | src/modules/dashboard/dashboard.service.ts:54-83 | an instant lies in exactly one quarter if it is in the fiscal year, in none otherwise, leap years included |
| Months.CalendarIsGregorian | src/modules/dashboard/dashboard.service.ts:54-83 | the calendar starts at 1 January 1970 and every month has its Gregorian length |
| Months.DateRoundTrip | src/modules/dashboard/dashboard.service.ts:54-60 | year and month are read back from any instant of any day of the calendar |
| Months.FiscalYearByMonth | src/modules/dashboard/dashboard.service.ts:58-60 | January to March belong to the fiscal year that started the April before |
| Months.QuarterByMonth | src/modules/dashboard/dashboard.service.ts:54-83 | an instant lies in Q1 exactly if its month is April to June, in Q2 July to September, in Q3 October to December, in Q4 January to March |
| FiscalCalendar.OneYearOneCalendar | src/lib/kitty.ts:18-22 | every instant of a fiscal year computes the same quarters and cutoff |
| FiscalCalendar.KittyOnlyAges | src/lib/kitty.ts:24-26 | an account's kitty is fixed within a fiscal year and only ever moves from new to base |
| Months.BaseIff | src/lib/kitty.ts:18-26 | an account is existing base if and only if its onboarding falls in an earlier fiscal year, or on the very start of this one |
| FiscalCalendar.QuartersAddUp | src/modules/dashboard/dashboard.service.ts:245-304 | any total over the year's changes is the sum of the totals over its quarters |
| FiscalCalendar.DashboardQuartersAddUp | src/modules/dashboard/dashboard.service.ts:263-304 | the dashboard's quarterly buckets add up, field by field, to the year's |
| TeamChurn.TeamRow | src/modules/dashboard/team-performance.service.ts:211-343 | the team table's own pass over a SAM's changes gives its customers, ARC, counts and impacts by type, and churn |
| TeamChurn.RollUpSam | src/modules/dashboard/team-performance.service.ts:982-1023 | the detail view's own pass, which merges two types, gives the same totals |
| TeamChurn.ChurnBlock | src/modules/dashboard/team-performance.service.ts:927-945 | the detail view's churn block is the churn of those totals |
| TeamChurn.GroupAccounts | src/modules/dashboard/team-performance.service.ts:178-184 | each owner's group is that owner's rows, in order |
| TeamChurn.GroupChanges | src/modules/dashboard/team-performance.service.ts:186-193 | each owner's group is that owner's changes, in order |
| TeamChurn.ComputeTeamPerformance | src/modules/dashboard/team-performance.service.ts:92-416 | every row is its SAM's figures out of the team's rows, and the churn aggregates are the team's |
| TeamChurn.ComputeSamDetail | src/modules/dashboard/team-performance.service.ts:595-945 | opens exactly for those who may see the SAM, with its figures out of the peer group's rows |
| TeamChurn.ViewsAgree | src/modules/dashboard/team-performance.service.ts:927-945 | with no quarter chosen the detail view opens for every SAM on the table and shows the same figures |
| TeamChurn.SameSams | src/modules/dashboard/team-performance.service.ts:595-640 | whoever may open detail views may open those of the SAMs on the own table and no others |
| ChurnFigures.FiguresMean | src/modules/dashboard/team-performance.service.ts:211-343 | a SAM's customers, ARC and changes by type are the counts and sums over the accounts it owns and their changes |
| ChurnFigures.ChurnMeans | src/modules/dashboard/team-performance.service.ts:295-312 | net churn is what disconnections and downgrades take less what upgrades bring; percentage, headroom and flag follow from it, the opening ARC and the allowance |
| ChurnFigures.TeamMeans | src/modules/dashboard/team-performance.service.ts:373-389 | the team's loss and book are its members' together, its allowance theirs weighted by book, and its counter the number flagged |
| ChurnFigures.NetChurnIsLossPlusUnapplied | src/modules/dashboard/team-performance.service.ts:295-305 | in every reachable state the net churn of a SAM of existing-base accounts is the ARC lost since the period began, plus the loss in changes never applied, plus what rate revisions brought |
| ChurnFigures.RetainedCountsAsChurn | src/modules/dashboard/team-performance.service.ts:158-168 | if all its changes are disconnections rejected, retained or under way, a SAM has lost nothing and its churn is their whole ARC |
| TeamChurn.FlaggedIff | src/modules/dashboard/team-performance.service.ts:305-312 | a SAM is over budget exactly if it has a book and lost more of it than allowed |
| TeamChurn.TeamOverIff | src/modules/dashboard/team-performance.service.ts:380-389 | the team is over its weighted budget exactly if it has a book and the members' excesses sum above zero |
| TeamChurn.TeamOverByLoss | src/modules/dashboard/team-performance.service.ts:373-389 | the team is over budget exactly if it has a book and the loss of SAMs without one exceeds what the others have left of theirs |
| TeamChurn.OverBudgetNamesSomeone | src/modules/dashboard/team-performance.service.ts:373-389 | a team over budget has a member over budget if SAMs with no opening ARC lost nothing on balance |
| TeamChurn.FlagsReliableIff | src/modules/dashboard/team-performance.service.ts:305-306 | a team over budget has a member over budget, whatever the period brings and with allowances not negative, if and only if every SAM of the team has an opening ARC or none has |
| TeamChurn.ZeroBaseHidesTheLoss | src/modules/dashboard/team-performance.service.ts:305-306 | a concrete team over budget with nobody flagged, for want of that condition |

## Left out

- Store.Services.Commit: the service-order columns a new-base commit writes when the CRM accepts the order are not modelled; the order itself is an outbound call. Nor are the columns for attached files, reasons, disconnection categories, mail dates and the old bandwidth.
- Lifecycle.DueIds: lists rows in table order, where the query fixes none; by SweepWorkers.PlaysConfluent the order makes no difference.
- FiscalCalendar.CutoffsAgree: `Date.UTC` reads the years 0 to 99 as 1900 to 1999; that reading is not modelled, and the results on the fiscal calendar do not hold of the source for instants whose fiscal year starts or ends in those years.
- FiscalCalendar.QuartersTile: likewise silent on how `Date.UTC` reads the years 0 to 99.
- TeamChurn.ComputeTeamPerformance: customers, ARC, changes by type and churn only, before display rounding; meetings, compliance and the score are not modelled.
- TeamChurn.ComputeSamDetail: the same figures only; timelines, averages over peers, the score and the risk pulse are not modelled.
- Webhooks.Integrations.IngestCustomerActivated: contact name, e-mail, phone and plan of the customer are not modelled, nor the reason text on a failed event.
- Interleavings inside one `commit` or `decide` call, whose guards are read before the write transaction.
- Calls that write ARC or status without looking for an in-flight change: `backfillDisconnection`, the admin edit of an account, account re-import, the activation upsert and the bulk importer on an account of the lifecycle tables, `samQuickDecision`. The importer and the webhooks are modelled on tables of their own; the others are not part of this model.
- Conservation of ARC on new-base accounts: several changes awaiting the CRM may share one old ARC, so the law does not hold there. New-base commits, retention and sweeps are in the runs.
- The CRM order a PROCEED may raise, and CRM status polling: outbound calls.
- File uploads, email, notifications, xlsx parsing, HTTP controllers, authentication, leads, feedback and meetings.
- Audit payloads other than the stages and modes the fold needs, and who wrote bulk-import and webhook audit rows.
- Decimal and floating-point rounding: amounts are exact integers and percentages exact reals before the display rounding; the importer's snapshot therefore agrees with the table without the column's two-decimal rounding.
- Time zones and finer Unicode: whitespace trimming knows blank, tab, newline and carriage return, and a sheet's type text is a recognised type, an unknown one or absent.
- Dates that do not parse and numbers that are not finite in a workbook row.
- The row order PostgreSQL returns for a query without ORDER BY: table order is used where the source asks for none.
- `startOfFyQuarterUTC`, which in January to March returns 1 January of the calendar year before, and so is not the start of Q4.
- The reliability score, meeting figures and team averages of the performance views.
- `computeNewBase` and the new-base dashboard.
- BulkOrder.OrderOfRowsIsImmaterial: assumes a refusal by the database depends on a row's cells alone; with refusals tied to the row number a reordered sheet is a different experiment.
- BulkImport.Importer.ImportWorkbook: a row's transaction is refused or not as a fixed function of the row; why the database refuses is not modelled.
- Webhooks.AtMostOnce: the notification that follows an activation is not modelled.
- Guarantees.RunsAreFinite: bounds the steps that move an existing-base change; refused calls and clock advances are free.
