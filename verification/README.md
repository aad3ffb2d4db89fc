# Airworthiness release: a verified model

A Dafny model of the backend of an aircraft component release system. Certificates and release
authorizations are versioned records under separation of duty; the program reads a record,
decides on what it read, and commits later behind a version guard. The model is about what
holds when any number of such requests interleave, and about the rate limiter, the read side
and the unversioned records beside them.

## How it is built

- `Statuses.dfy`, `Access.dfy`, `Records.dfy`: the transition graphs, the role gates, the entities.
- `Transactions.dfy`: what each database transaction does to a snapshot of the tables.
  `Repository.dfy` and `Services.dfy`: the repository object and the two service objects,
  statement by statement, proved against those functions; `Services.dfy` also holds the
  decision a request takes on the record it read (`Decide`) and the whole request as one atomic
  action (`Atomic`).
- `Protocol.dfy`: the concurrent system. A request is a phase; each event is one query, one
  local decision, one transaction or one failure of one request. The first Get is two queries,
  so is the last one. `Invariants.dfy` and `Runs.dfy` hold what is true of every run.
- `Acceptance.dfy`, `PlainRules.dfy`: the rules again, as a reader would state them - statuses, roles
  and texts by name, without the graphs and functions above - and that these are what the
  program does: which requests are accepted, what they write and answer, why others are refused.
- `Refinement.dfy`, `Refusals.dfy`, `Realization.dfy`, `Exactness.dfy`, `Staleness.dfy`: the
  interleaved system against the atomic one, in both directions, what an answered error says,
  and exactly which edits may rely on the version guard - in every run, and among honest requests.
- `Histories.dfy`, `Evidence.dfy`, `Decisions.dfy`, `Duties.dfy`, `Provenance.dfy`, `Deletion.dfy`,
  `Answers.dfy`, `Bookkeeping.dfy`, `Completeness.dfy`,
  `Raising.dfy`, `Seeds.dfy`: what follows for logs, audits, sign-offs, versions, deletes, roles.
- `RateLimit.dfy`, `ReadSide.dfy`: the limiter; paging, counting and the revision loops.
- `PlainRecords.dfy`, `PlainServices.dfy`: parts and inspections, whose audit is written after
  the commit, as an interleaved system and as a service object.

## Hypotheses

- **Client versions** (`Protocol.Vouched`, over runs `Honest`): the version an edit sends is a
  committed version of the record by the time the request reads it. The shipped client sends
  the version of an earlier response (`frontend/src/stores/factory.ts:37`). The guard in
  `backend/internal/repository/base.go:65-76` compares the row with what the client sent, not
  with what the service read, so the hypothesis is needed: `Realization.LockNeedsHypothesis` is
  a run without it. For one edit, over all runs of all clients, the exact condition is that the
  version sent is not ahead of the read (`Exactness.SafeExactlyWhenNotAhead`). If every other
  request is honest, an edit of a settled record is also safe with a version so far ahead that
  no history reaches it (`Staleness.SafeAmongHonestExactlyWhen`).
- **Named actors** (`Protocol.Named`): used only where a sign-off must be non-empty.
- **Start** (`Evidence.Initial`): no request under way, no audit row, every row inserted with
  one revision; an empty store and the demonstration data both qualify. `Evidence.Sound` is
  what runs keep; `Evidence.InitialSound` leads from one to the other.
- Every query sees a committed snapshot, a transaction happens at one instant or not at all,
  and soft-deleted rows are invisible to reads and updates. Any request may fail at any point.

## Where the program does less than its documents say

Each of these is a property that fails, with the condition under which it holds.

- The project README says that business fields are locked once a review begins. A client that
  guesses the next version can make an update written on a draft overwrite the submission
  (`Realization.LockNeedsHypothesis`). An edit is free of this in every run if and only if its
  version is not ahead of its read (`Exactness.SafeExactlyWhenNotAhead`).
- Only drafts may be deleted, but the delete statement has no version guard. A submission or a
  publication by an honest request can slip between the check and the delete of any live draft,
  so no draft is safe; a delete that does not read a draft never gets that far
  (`Deletion.DraftOnlyFailsExactlyWhen`, with the run in `Deletion.DeleteHitsReviewed`). What is
  removed is a draft exactly if the newest edit committed since the read left it one
  (`Deletion.DeleteHitsDraftExactlyWhen`).
- A create or an edit that committed can be answered "not found", because it ends in a read of
  its own (`Deletion.CommittedButNotFound`). An error other than an infrastructure failure means
  that nothing was changed, by a request of any kind, except exactly a "not found" for a create,
  or for an edit whose record was live when the request arrived
  (`Refusals.ErrorChangedNothingExactlyWhen`). Parts and inspections are the same, but for
  creates, which end without a read (`PlainRecords.PlainErrorChangedNothingExactlyWhen`).
- A passed inspection has no way out of its graph, but a request that read it earlier and
  guessed a later version can still reopen it. It is final if and only if no such request is
  under way (`PlainRecords.PassedIsFinalExactlyWhen`).
- The limiter's shared counter is kept for two minutes. It holds its limit as long as every
  call reaches the store within a minute of reading its clock (`RateLimit.ValidLimiterBounds`),
  and for every longer stall there is a run that overshoots it (`RateLimit.StallOvershoots`).

## Model

The rows of `Repositories`, `Services` and `PlainServices` tie objects that follow the program
statement by statement to the functions that the theorems are about. They are evidence that the
model fits the program, and not results of their own.

| member | source | states |
|---|---|---|
| Refinement.RunRefinesAtomic | backend/internal/service/release_authorization.go:63-128 | Under the client hypothesis any interleaving of requests leaves the same records, revision logs and audits as the committed requests run one at a time, atomically, in commit order, none of them refused. |
| Refinement.CommitIsCurrent | backend/internal/repository/base.go:65-76 | When the version guard holds and the version sent is not ahead of the read, the early read is the present row, so the commit is the atomic request. |
| Refinement.CommitsOnce | backend/internal/service/certificate_record.go:95-139 | Every entry of the sequential history carries the command and the record of its own request of the run; no request has two entries of one sort; every create or edit answered with success has committed, and every delete that is has removed its row. |
| Refusals.RefusalsLinearizable | backend/internal/service/certificate_record.go:42-139 | A request of any kind that is answered with an error would have been refused as a whole, for that reason (a conflict may hide another one), at a moment after it arrived - unless it is a create or an edit of a record that was live, it committed, what it wrote is deleted by the end, and the answer is "not found". |
| Refusals.ErrorChangedNothingExactlyWhen | backend/internal/service/release_authorization.go:42-142 | A request of any kind that is answered with an error other than an infrastructure failure has changed something if and only if the error is "not found" and it is a create, or an edit of a record that was live when it arrived; the record it wrote is then deleted. So a delete answered "locked" or "not found" removed nothing. |
| Refusals.FinalGetMissesExactlyWhen | backend/internal/service/certificate_record.go:92 | At its last query a committed request is answered "not found" if and only if its row is marked deleted at that moment. |
| Refusals.ConflictExactlyWhenOvertaken | backend/internal/repository/base.go:72-74 | Among honest requests an edit that is ready to commit ends in a conflict, with no table changed, if and only if a revision after the version it sent has been committed or its record was deleted. |
| Deletion.CommittedButNotFound | backend/internal/service/release_authorization.go:57-60 | Wherever a create or an update would be accepted there is a run of honest requests in which it commits and is answered "not found". |
| Realization.HistoriesAreRuns | backend/internal/service/release_authorization.go:42-142 | Converse of the refinement: every accepted sequential history of creates, updates, transitions and deletes of drafts, with the audits of the deletes at any later place or still due, is the outcome of a run of honest requests. |
| Realization.AloneIsAtomic | backend/internal/service/release_authorization.go:42-128 | A create or edit that runs with no other between its steps does exactly what the atomic request does: the same tables if it is accepted, and if it is refused no change and the same error. |
| Realization.LockNeedsHypothesis | backend/internal/repository/base.go:65-76 | From any draft authorization, two operators' requests, one of which guesses its version, end with the record back in draft and its fields replaced after the submission, by no edge of the graph. |
| Exactness.SafeExactlyWhenNotAhead | backend/internal/repository/base.go:65-76 | Whenever an edit arrives: in every run that follows, with any number of other requests sending any versions, its commit does to the tables what the whole request would do atomically at that instant, if and only if the version it sent is not ahead of the record it reads, or it is refused on that read. |
| Staleness.SafeAmongHonestExactlyWhen | backend/internal/repository/base.go:65-76 | If all other requests commit as if atomic, as those of honest clients do, the condition is weaker: the version is not ahead of the read, or lies beyond what a settled record can still reach. |
| Staleness.PerformSettled | backend/internal/constants/status.go:45-58 | In every accepted history a settled record stays settled and its version stays within the transitions its status has left. |
| Acceptance.EditAcceptedExactlyWhen | backend/internal/service/release_authorization.go:63-127 | An edit is accepted if and only if its record is live, the caller is an operator or above, the version is the present one, an update finds a draft and has code, name, facility and owner, a transition finds one of the named pairs of statuses and, for a decision, a reviewer who is not the maker. The new row, revision and audit are given column by column; nothing else changes. |
| Acceptance.EditRefusedBecause | backend/internal/service/certificate_record.go:63-123 | The error of a refused edit, by the first rule it breaks: role, record, lock, fields, pair of statuses, reviewer, own work, version. |
| Acceptance.EveryEdgeIsTaken | backend/internal/constants/status.go:45-58 | From every state with a live record, every named pair of statuses can be taken at the present version by whoever has the role for it and is not the maker: an honest run ends with the record in its new status, with its code, fields and sign-offs as named, and answers success. |
| Acceptance.NoOtherEdgeIsTaken | backend/internal/constants/status.go:45-58 | For every other pair of statuses the run changes nothing and ends in an invalid transition. |
| Acceptance.ReviewDecides | backend/internal/service/release_authorization.go:93-127 | From review, a reviewer or admin who is not the submitter approves, restricts or returns the authorization; it then names both and the reason. |
| Acceptance.IncompleteRefused | backend/internal/service/release_authorization.go:148-153 | A create by an operator, or an update of a live draft, with an empty code, name, facility or owner is refused as invalid input. |
| Acceptance.GateByRole | backend/internal/handler/certificate_record.go:22-28 | Anyone reads, operators, reviewers and admins write, only admins delete. |
| Acceptance.UndisturbedAnswer | backend/internal/service/certificate_record.go:42-124 | An accepted create or edit that nothing disturbs is an honest run and is answered with its record as written and the whole log of that record. |
| Acceptance.FetchAlone | backend/internal/repository/certificate_record.go:53-59 | A read that nothing disturbs answers the live row and its whole log, or not found, and changes nothing. |
| Acceptance.DeleteAlone | backend/internal/service/certificate_record.go:126-139 | A delete that nothing disturbs, in every case: forbidden, not found, locked, or the row marked and one audit row, given column by column, from draft to deleted. |
| Acceptance.CreateAcceptedExactlyWhen | backend/internal/service/certificate_record.go:42-61 | A create is accepted if and only if the caller is an operator or above, code, name, facility and owner are there and no row of the table, deleted or not, has the code; it adds one draft at version one with one revision and one audit, given column by column. Otherwise the error is that of the first of these. |
| Acceptance.ConflictIsLastTest | backend/internal/service/release_authorization.go:124-126 | A request refused with a conflict while its record is live would have been accepted with the present version. |
| Completeness.RowsStayComplete | backend/internal/service/certificate_record.go:144-149 | From complete rows, every certificate and authorization of every run of any clients has a code, a name, a facility and an owner, live or deleted. |
| Answers.AnswerIsTwoQueries | backend/internal/repository/release_authorization.go:53-59 | Every record in an answer is the live row that one query found after the request arrived, and its revisions are the whole log that a later query found: of the record asked for, or of the one the request itself wrote. |
| Bookkeeping.DeleteIsAudited | backend/internal/service/release_authorization.go:130-142 | A delete has written exactly one audit row if it is answered with success, and none otherwise: by its caller, about its record, from draft to deleted. |
| Bookkeeping.EverySuccessIsAudited | backend/internal/repository/base.go:78-90 | The audit table only grows at its end, every row a run adds tells the request that wrote it, no request writes two, and every create, edit or delete answered with success has its one. |
| Bookkeeping.RemovalsAccountedFor | backend/internal/service/certificate_record.go:126-139 | At every point of every run, rows removed are the delete audits written, the deletes between row and audit, and those whose audit failed. |
| Runs.RunOk | backend/internal/repository/certificate_record.go:78-94 | In every run, whatever versions clients send: logs only grow at the end, versions never fall, an equal version means an equal record, codes never change. |
| Runs.LogShape | backend/internal/repository/release_authorization.go:78-94 | The revisions of a record are versions 1 to Version, once each, in order, and the log only grows by appending. |
| Runs.TornReadCoherent | backend/internal/repository/release_authorization.go:30-59 | Whatever commits between the row query and the revision query of a Get or List, the revisions reach the item's version and agree with its status and evidence there. |
| Runs.AnswersCoherent | backend/internal/repository/certificate_record.go:53-59 | Every answered read in every reachable state is coherent in that sense. |
| Runs.ReadYourOwnWrite | backend/internal/service/certificate_record.go:87-92 | A successful edit answers with a version past the one it was sent, and that slot of the log carries its own actor, request id, action and reason. |
| Runs.TombstoneFinal | backend/internal/repository/base.go:92-101 | After a delete commits, no request in flight or later changes the row or its log. |
| Invariants.VersionSlotFree | backend/internal/model/release_authorization.go:34-36 | When the guard holds, the unique index on record and version cannot reject the new revision. |
| Histories.StepPassage | backend/internal/service/release_authorization.go:85-87 | Each step of a run of honest requests commits nothing, or moves one record's row, log and trail by one atomic operation and leaves every other record alone. |
| Evidence.RecordToldByLog | backend/internal/service/release_authorization.go:105-123 | Status, version, evidence and all sign-off fields of a created record are read from its revision log alone: the preparer and the submitter are the actors of a draft and a submission that no later one follows, and likewise the verifier, the reviewer and the reason. |
| Evidence.LogFollowsGraph | backend/internal/constants/status.go:45-63 | Consecutive revisions are an edge of the record's graph taken by a transition, or two drafts joined by an update. |
| Evidence.AuditChain | backend/internal/repository/release_authorization.go:61-94 | A created record has one audit per revision, in order, with its action, reason and (normalised) attribution; the first starts from nothing and each later one where the one before ended. |
| Decisions.EveryDecisionIndependent | README.md:42-43 | In the log of a created record every approval, restriction, revocation or return comes after a submission and is not by its submitter (an unnamed submitter excepted), and every publication or revocation of a certificate comes after a draft and is not by its preparer. |
| Duties.DualControl | backend/internal/service/release_authorization.go:102-119 | Every reachable approved, restricted or revoked authorization names a submitter and a different reviewer; one in review names no reviewer; through any number of rounds. |
| Duties.IndependentVerification | backend/internal/service/certificate_record.go:107-115 | Every reachable valid, expired or revoked certificate names a verifier other than its preparer; a created one was prepared by the actor of its newest draft revision. |
| Duties.EvidenceFrozen | backend/internal/service/release_authorization.go:68-70 | A record that is not a draft has all its business fields as they were at the submission or publication that took it out of draft for the last time or, if it was a draft at no moment of the run, at the start. |
| Duties.NoDraftAfterLast | backend/internal/service/certificate_record.go:68-70 | After that moment the record is a draft at no moment of the run. |
| Duties.LifecycleOneWay | backend/internal/constants/status.go:45-58 | Once approved, restricted or valid, a record never returns to draft or review, and its version grows by at most two. |
| Provenance.LogIsHistory | backend/internal/repository/release_authorization.go:84-92 | What a run adds to a log is exactly one revision per committed request, in commit order, in the slot after the version expected, with its caller and content; every decision's caller was a reviewer or admin. |
| Provenance.NoLostUpdates | backend/internal/repository/base.go:65-76 | Of all edits of a record that expect the same version at most one commits. |
| Provenance.VersionCountsCommits | backend/internal/repository/certificate_record.go:78-94 | The version of a record is one plus the number of its committed updates and transitions. |
| Provenance.DeletedOnce | backend/internal/repository/base.go:92-101 | For any record, created in the run or before it: marked deleted at the end is marked at the start plus the number of committed removals, so there is at most one and none of a marked row. |
| Provenance.OneDeleteSucceeds | backend/internal/service/release_authorization.go:130-142 | Of all delete requests for one record at most one is answered with success, and then its row is marked. |
| Deletion.DraftOnlyFailsExactlyWhen | backend/internal/service/release_authorization.go:130-142 | A delete that arrives can come to remove a record that is no draft, by a run of honest requests, if and only if its record is a live draft as it arrives; dishonest requests add nothing to that. |
| Deletion.DeleteHitsReviewed | backend/internal/service/certificate_record.go:126-139 | The run, from every state with a live draft: the delete reads and tests the draft, another request submits or publishes it, and the delete removes it. |
| Deletion.DeleteHitsDraftExactlyWhen | backend/internal/service/certificate_record.go:126-139 | In any run, the row that a delete removes is a draft if and only if the newest edit committed since its read was an update or a return to draft, or there was none; so it is if the version has not moved. |
| Raising.RolesMonotone | backend/internal/service/release_authorization.go:155-161 | Raising the role of any request in an accepted history keeps it accepted with the same tables. |
| Raising.HistoryWithRaisedRoles | backend/internal/service/release_authorization.go:155-161 | The same for the history that a run of honest requests amounts to. |
| Raising.RunWithRaisedRoles | backend/internal/middleware/auth.go:78-89 | Repeat a run, of any clients, with the roles raised of any requests it does not refuse as forbidden: the same interleaving ends in the same tables, phases and answers. |
| Access.RequireRoles | backend/internal/middleware/auth.go:62-66 | The loop fills the allowed set with exactly the listed roles. |
| Services.Admit | backend/internal/handler/release_authorization.go:22-28 | The routes admit reads to everyone, writes from operators up, deletes to the listed role only. |
| Access.RoleTestsAreGates | backend/internal/middleware/auth.go:78-89 | The services' role tests are minimum-role gates, so the route gate makes the operator test redundant, and they are kept when a role is raised. |
| Seeds.SeedsAreInitial | backend/internal/database/database.go:204-217 | Rows inserted at version one with one revision and no audit are states the theorems start from. |
| Seeds.SeedsAreListed | backend/internal/database/database.go:207-217 | Each seed is inserted as it is, in order, with a revision of its own by the seeding actor. |
| Seeds.DemonstrationIsInitial | backend/internal/database/database.go:187-256 | The six shipped certificate and authorization rows, with their texts and sign-offs, are such a start. |
| Repositories.Repository.Get | backend/internal/repository/release_authorization.go:53-59 | A read returns the live row with its revisions, or not found. |
| Repositories.Repository.OptimisticUpdate | backend/internal/repository/base.go:65-76 | The row is replaced, its code kept, exactly when it is live and at the expected version. |
| Repositories.Repository.AppendAudit | backend/internal/repository/base.go:78-90 | One audit row is appended, with blank actor and request id replaced. |
| Repositories.Repository.CreateVersion | backend/internal/repository/release_authorization.go:61-76 | Record, revision and audit are inserted together, or nothing is. |
| Repositories.Repository.UpdateVersion | backend/internal/repository/certificate_record.go:78-94 | Row, revision and audit change together, or nothing does. |
| Repositories.Repository.Delete | backend/internal/repository/base.go:92-101 | A live row is marked deleted; otherwise not found and no change. |
| Services.AuthorizationService.Create | backend/internal/service/release_authorization.go:42-61 | The call, run alone, is the atomic create followed by a read. |
| Services.AuthorizationService.Update | backend/internal/service/release_authorization.go:63-91 | The call, run alone, is the atomic update followed by a read, with the same error in each refused case. |
| Services.AuthorizationService.Transition | backend/internal/service/release_authorization.go:93-128 | The call, run alone, is the atomic transition followed by a read, with the same error in each refused case. |
| Services.AuthorizationService.Delete | backend/internal/service/release_authorization.go:130-142 | The call, run alone, removes a live draft only, and then records the audit or reports that it could not. |
| Services.CertificateService.Create | backend/internal/service/certificate_record.go:42-61 | As for authorizations, with the creator as preparer. |
| Services.CertificateService.Update | backend/internal/service/certificate_record.go:63-93 | As for authorizations, with the editor as preparer and the verifier reset. |
| Services.CertificateService.Transition | backend/internal/service/certificate_record.go:95-124 | As for authorizations, with the certificate's graph and verifier rule. |
| Services.CertificateService.Delete | backend/internal/service/certificate_record.go:126-139 | As for authorizations. |
| RateLimit.WindowsAreMinutes | backend/internal/middleware/ratelimit.go:61-74 | A window is sixty seconds of the clock, and a shared counter is kept for a hundred and twenty. |
| RateLimit.Limiter.CleanupLocal | backend/internal/middleware/ratelimit.go:85-94 | Below 512 buckets nothing is dropped; otherwise exactly the buckets of past windows are. |
| RateLimit.Limiter.IncrementLocal | backend/internal/middleware/ratelimit.go:71-83 | The count returned is the number of calls of this key in this window since the start, as if no bucket were ever deleted, and no other request has the same one. |
| RateLimit.Limiter.Increment | backend/internal/middleware/ratelimit.go:57-69 | The shared counter counts one call, or none, and may fail to answer either way. An answer is one more than the store holds at the instant the call arrives; while every call arrives within a minute of reading its clock, it is the number of calls of this key in this window, and no other request has the same one. |
| RateLimit.PromptCall | backend/internal/middleware/ratelimit.go:61-64 | A call that reaches the store within a minute of reading its clock never meets an expired counter. |
| RateLimit.StallOvershoots | backend/internal/middleware/ratelimit.go:57-69 | For every longer stall there is a run in which one stalled call makes the shared counter admit one request more than the limit. |
| RateLimit.Limiter.Expire | backend/internal/middleware/ratelimit.go:64 | A counter is kept for two minutes after its last increment; dropping the others loses nothing that a prompt call needs. |
| RateLimit.Limiter.Judge | backend/internal/middleware/ratelimit.go:47-53 | The verdict may come any time after the count: a request is judged once, and admitted when its count is within the limit. |
| RateLimit.Limiter.Handle | backend/internal/middleware/ratelimit.go:37-55 | A request whose events nothing separates is judged on one counter, the local one if the shared one gave no answer, and admitted when that count is within the limit. |
| RateLimit.FailoverBound | backend/internal/middleware/ratelimit.go:37-83 | Twice the limit per key and window, and four times the limit over the windows that sixty seconds meet. |
| RateLimit.ValidLimiterBounds | backend/internal/middleware/ratelimit.go:37-83 | However counts, failures, expiries and verdicts of any number of requests interleave, the local counter never admits more than the limit per key and window; while every call to the store is prompt, neither does the shared one, and both bounds hold. |
| ReadSide.NormalizePage | backend/internal/repository/base.go:122-133 | Page at least one, size from 1 to 100, twenty when absent. |
| ReadSide.PagesPartition | backend/internal/repository/base.go:45-48 | Enough pages, one after the other, give every selected row exactly once in (updated_at, id) descending order. |
| ReadSide.ListingUnique | backend/internal/repository/base.go:46-47 | The ordering determines the listing, so a page is determined by the table and the query. |
| ReadSide.List | backend/internal/repository/base.go:34-49 | The total is the number of rows of the counted table that satisfy the search and the status. The page is cut at its offset from a listing with each such row of the table exactly once, by descending update time and key. |
| ReadSide.SelectExactly | backend/internal/repository/base.go:37-43 | A selection keeps every row that satisfies the search and the status, as often as it is there, and no other. |
| ReadSide.CountByStatus | backend/internal/repository/base.go:103-120 | From the distinct statuses and their multiplicities, the row loop makes a map with exactly the statuses present, each with the Total that List reports for it. |
| ReadSide.MultiplicityIsTotal | backend/internal/repository/base.go:103-105 | A grouped count and a filtered count are the same number. |
| ReadSide.TotalsAddUp | backend/internal/repository/base.go:103-120 | The entries of the returned map, added up in any order, are the unfiltered Total. |
| ReadSide.GroupByRecord | backend/internal/repository/release_authorization.go:44-47 | The grouping loop gives each record its fetched revisions in order. |
| ReadSide.AttachRevisions | backend/internal/repository/release_authorization.go:35-51 | The page's items are given, in place, exactly the revisions Get returns for them, and nothing else changes. |
| PlainServices.PlainService.Create | backend/internal/service/aircraft_part.go:42-62 | The call, run alone, is the request's steps one after the other, with the same record or error as its answer; a failed audit does not fail it. |
| PlainServices.PlainService.Update | backend/internal/service/inspection_task.go:64-90 | The same for an update, in any status; a failed audit does not fail it. |
| PlainServices.PlainService.Transition | backend/internal/service/inspection_task.go:92-112 | The same for a transition; a failed audit is reported, with the commit in place. |
| PlainServices.PlainService.Delete | backend/internal/service/aircraft_part.go:114-123 | The same for a delete, in any status; a failed audit is reported, with the row gone. |
| PlainRules.CommitWrites | backend/internal/service/inspection_task.go:42-123 | In any run of any clients, what changes a row is the commit of one request: a create inserts its code and fields as received or planned at version one if no row has the code; an update writes its fields, a transition its status along a named pair, at the version after the one expected, with the rest as read; a delete marks the row. Codes and other rows never change. |
| PlainRules.CommitIsOnItsRead | backend/internal/repository/base.go:65-76 | Among honest requests the record read is the row written, so an update keeps the status and a transition the fields. |
| PlainRules.MovesAreLeads | backend/internal/constants/status.go:30-43 | The transitions of parts and inspections are exactly the named pairs of statuses. |
| PlainRules.WritersAndAdmins | backend/internal/handler/inspection_task.go:20-27 | Operators, reviewers and admins write, only admins delete. |
| PlainRules.RowsStayComplete | backend/internal/service/aircraft_part.go:129-134 | From complete rows, every part and inspection of every run has a code, a name, a facility and an owner. |
| PlainRules.CreateAlone | backend/internal/service/aircraft_part.go:42-62 | A create that runs alone: invalid input, duplicate code, or the row, its audit if it can be stored, and the record as the answer. |
| PlainRules.UpdateAlone | backend/internal/service/inspection_task.go:64-90 | An update that runs alone: not found, invalid input, conflict, or the row with the new fields, the old code and status and the next version, which is the answer whether or not the audit is stored. |
| PlainRules.MoveAlone | backend/internal/service/inspection_task.go:92-112 | A transition that runs alone: not found, invalid transition, conflict, or the row in its new status with its fields, answered with it, or with a failure if the audit is not stored. |
| PlainRules.DeleteAlone | backend/internal/service/aircraft_part.go:114-123 | A delete that runs alone: not found, or the row marked, in any status, and a failure answered if the audit is not stored. |
| PlainRules.AloneIsARun | backend/internal/service/inspection_task.go:64-123 | A service call that runs alone is a run of the interleaved system. |
| PlainRecords.TransitionsAccountedFor | backend/internal/service/inspection_task.go:92-112 | At every point of every run, committed transitions are the transition audits plus the requests between commit and audit plus those whose audit was lost. |
| PlainRecords.SuccessIsAudited | backend/internal/service/aircraft_part.go:92-123 | Every audit row was written by its own request and names its actor, its record and its states, along an edge of the graph for a transition; no request has two; a transition or delete answered with success has its one. |
| PlainRecords.PlainErrorChangedNothingExactlyWhen | backend/internal/service/inspection_task.go:64-123 | A request answered with an error other than an infrastructure failure has committed if and only if it is an update or a transition answered "not found" whose record was live when it arrived; a commit is what makes its audit due (`DueFromCommit`). |
| PlainRecords.ActSound | backend/internal/service/inspection_task.go:64-112 | Under the client hypothesis a row only keeps its status or moves along an edge of its graph, one version at a time. |
| PlainRecords.PassedIsFinal | backend/internal/constants/status.go:38-43 | A passed inspection stays passed in every run of honest requests, updates included. |
| PlainRecords.StaysWellFormed | backend/internal/service/inspection_task.go:42-123 | In every run, without any hypothesis on versions, keys stay below the next one, codes are never empty and every request is where its own command leads. |
| PlainRecords.PassedIsFinalExactlyWhen | backend/internal/service/inspection_task.go:64-112 | In every such state a passed inspection stays passed in every run that can follow if and only if it is deleted or no edit or transition under way has prepared another status for a version it has yet to reach. |

## Left out

- RateLimit.Limiter.IncrementLocal: needs a clock that does not go back, since a bucket pruned in a later minute would restart when its minute returns.
- RateLimit.Limiter.Increment: the server and the store share one clock here; a difference between theirs counts as a stall. A command that the client library sends again after a failure is one more call that lost its answer.
- Refinement.RunRefinesAtomic: a delete is two entries of the sequential history, its row and its audit, because the program commits them separately; the draft-only rule is not part of either.
- Refusals.RefusalsLinearizable: says only that a conflict would have been refused, because the program reports a conflict where the atomic request may find a lock or a missing edge first.
- Several server processes, each of which would have a local counter of its own.
- ReadSide.PagesPartition: is about one snapshot; pages fetched while records change may repeat or miss rows.
- Interleaved requests are modelled on values; the service objects are proved for calls that run alone, with the same functions.
- Primary keys come from one counter instead of one per table; only their distinctness is used.
- Text is taken as already trimmed and upper-cased; business fields no rule reads are one opaque value; the search condition of a list is an arbitrary condition on the row.
- Versions are unbounded: the wrap of an unsigned integer is not modelled.
- Record timestamps, except as the sort key of lists.
- Login, tokens and password hashing: a request starts from its actor and role.
- Request binding and its length checks, HTTP codes and headers, the status endpoint of the limiter.
- Audit listing and entity history, which sort by time without a tie-break.
- The frontend, configuration and deployment.
