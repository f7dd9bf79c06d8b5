# Enquiry pipeline: a verified model

A Dafny model of the enquiry pipeline: customer messages come in through webhooks, are
canonicalised and deduplicated, wait in a queue kept in Postgres, and are taken by
concurrent workers that classify them with a language model, check the model's claims
against the text, match and update the CRM, and draft a reply that a human must approve.
The project proves what the pipeline promises: nothing is lost, nothing is done twice,
nothing reaches the CRM that the text does not support, and nothing is sent without
exactly one human decision.

## How it is built

| file | what it models |
|---|---|
| `Base.dfy`, `Text.dfy` | the string operations of Go's standard library that matter here, and the substring theorem behind grounding |
| `Model.dfy` | extractions, rules, the rows of the tables, configuration |
| `Ingest.dfy`, `Payloads.dfy` | from payload to canonical text, dedupe key and idempotency key |
| `Router.dfy` | the routing decision, the in-place stable sort |
| `Grounding.dfy` | schema check, contact clean-up, grounding, tier escalation |
| `Tables.dfy` | every statement and transaction of the store as a function on the tables; what the unique indexes promise (`Good`) and what no statement takes back (`Kept`) |
| `System.dfy` | the concurrent step system: workers, reviewers, webhook, clock, wake channel, crashes |
| `Safety.dfy`, `Gate.dfy`, `Queue.dfy`, `Provenance.dfy`, `Delivery.dfy`, `Balance.dfy` | invariants and theorems over all runs |
| `Turns.dfy`, `Retry.dfy`, `Settling.dfy` | bounded retry: one holder at a time, the number of attempts, the waits, the termination measure, and where it ends |
| `Replay.dfy`, `Convergence.dfy`, `Completion.dfy`, `Findability.dfy` | crash-replay convergence, that the runs it speaks of exist, and the runs that diverge where its conditions fail |
| `Storage.dfy`, `Workers.dfy`, `Gateway.dfy` | the store, the worker pool and the request handlers as classes that update their state in place, tied to the step system |
| `Duplicates.dfy`, `Shutdowns.dfy`, `Stale.dfy`, `Races.dfy`, `Resolutions.dfy`, `Limits.dfy` | where a comment promises more than the code does: when exactly the promise holds, and runs or inputs for which it does not |
| `Witness.dfy` | one concrete shop in which those runs happen |

The step system is the centre. A state holds the tables, a clock, the wake token, one
program counter per worker with the worker's local variables, reviewers that may be in
the middle of an approval transaction, and the log of all statements so far. One event is
one statement or transaction, a clock tick, a crash (`Restart`), a shutdown, a delivery, or
an approver's step. Workers are never trusted to still own their enquiry: a worker whose
lease has run out keeps stepping and keeps writing. Everything that comes from outside (the
language model's answers, which of several equally good rows a query returns, which calls
fail) is an oracle argument of the event, so a theorem about all event sequences is a
theorem about all interleavings and all answers.

The invariant is of the rely-guarantee kind: `WorkerOk` says what a worker's locals mean,
`WorkerOkIsStable` that no other process's statement can invalidate them, and
`WorkerStepIsOk` that the worker's own step re-establishes them. The classes are proved
against the same functions: whatever `Pool.Run` does is a path of `WorkerStep`
(`Workers.Pool.Run`), and every such path is a run of the system (`Workers.PathIsRun`).

Conventions. A row's primary key is its position in its table. SHA-256 is represented by
the text it hashes, so it is injective. Lower-casing, in Go and in SQL, is one parameter,
`CaseMap`, with the few laws the proofs need. Trigram similarity is a parameter with range
[0, 1] that is 0 for the empty string. `status_reason`, channel names, notes and other
text that no branch reads are dropped. Clock time is an integer; durations are integers,
and the one place where an int64 can overflow, the backoff, is computed with wrap-around.

Where code and comments disagree the code is followed. The members named say what exactly the
code does instead, and give an input or a run that shows it where a promise fails:

- the duplicate query does not ask for the other enquiry to be earlier, so twins discard each
  other (`Duplicates.DiscardsExactlyRecentTwins`, `Duplicates.TwinsDiscardEachOther`);
- a shutdown requeue does burn an attempt (`Shutdowns.ShutdownBurnsTheAttempt`,
  `Shutdowns.ShutdownsUseUpTheAttempts`);
- `SetStatus` is unguarded, so a stale worker can take back an enquiry's `sent`, though never the
  message's, and a dead letter's `failed` (`Stale.StaleWorkerUnsendsTheEnquiry`,
  `Stale.AStaleWorkerUnsends`, `Stale.StaleWorkerRevivesTheEnquiry`, `Stale.AStaleWorkerRevives`);
- the second read of the rules ignores its error, so a replay can leave a record without the team
  an uninterrupted run gives it (`Convergence.RecordsConvergeExactly`,
  `Completion.SwallowedErrorDiverges`);
- the company lookup sorts companies without a domain first, because descending order puts NULL
  first (`Limits.NamesakesWithoutDomainComeFirst`, `Limits.NamesakeOutranksDomain`);
- `escalated`, which the statistics count as answers of tier 2, can be set by tier 1's own answer,
  as nothing resets what was decoded (`Limits.EscalatedMayBeClaimed`, `Limits.ClaimedEscalationIsBelieved`);
- after a human has resolved a match the enquiry is decided afresh, and no worker reads the
  resolution (`Limits.ResolutionsAreNotReadBack`): a flagged one is flagged again as long as the
  match is weak (`Resolutions.RequeuedIsDecidedAfresh`, `Resolutions.ResolvedIsFlaggedAgain`);
- `Ground` accepts any value that comes with any true quote (`Limits.UnrelatedQuoteVouches`);
- a unique violation inside `UpsertContact` aborts the Postgres transaction, so the lookup that
  follows it cannot succeed: whoever loses the race for an address does not adopt the winner's
  contact but fails the attempt, and attaches to that contact in the next one, if there is one
  (`Races.ContactWriteIsLostExactly`, `Races.RaceForAnAddress`);
- the rules route enquiries to the CRM that name their sender only by a name or a short number; a
  replay cannot find such a contact again (`Findability.ConvergesExactlyIfFindable`,
  `Findability.UnfindableContactsDiverge`).

## Model

| member | source | states |
|---|---|---|
| Text.NormKeepsPieces | internal/llm/extract.go:250-252 | True quotes are found: any contiguous part of a source is found in it again after both are trimmed, lower-cased and space-collapsed |
| Text.NormOfLower | internal/llm/extract.go:278-287 | Lower-casing an address before the check does not change what the check compares |
| Text.SqueezeConcat | internal/llm/extract.go:248-252 | Collapsing runs of space works piecewise, given whether the text before ended in a run |
| Text.TrimKeepsPiece | internal/llm/extract.go:250-252 | Trimming a text never eats into a part of it whose ends are not trimmable |
| Ingest.CleanText | internal/ingest/normalize.go:139-150 | The loop of `clean` computes the composition of its five stages |
| Ingest.FieldsOfClean | internal/ingest/normalize.go:139-150 | Cleaning keeps exactly the words of the text without its invisible runes |
| Ingest.CollapseOfClean | internal/ingest/normalize.go:104-152 | What is hashed depends only on the visible words |
| Ingest.KeyIgnoresPadding | internal/ingest/normalize.go:177-195 | Zero-width padding inserted anywhere cannot defeat the dedupe hash |
| Ingest.KeyIgnoresReflow | internal/ingest/normalize.go:104-107 | Replacing the space between two words by any other space leaves the dedupe hash alone |
| Ingest.KeyIsInjective | internal/ingest/normalize.go:102-107 | Two enquiries collide exactly when sender and words agree up to case, for senders without NUL |
| Ingest.NormOfClean | internal/ingest/normalize.go:139-150 | Cleaning does not change what grounding compares, apart from invisible runes |
| Payloads.JoinParts | internal/ingest/normalize.go:161-169 | The loop of `joinNonEmpty` joins the trimmed parts that are not empty |
| Payloads.Normalize | internal/ingest/normalize.go:53-100 | Rejects unsupported channels, missing senders and empty texts; otherwise canonical text, hash, and the client's key or the content-derived one |
| Payloads.TypedValueIsInRawText | internal/ingest/normalize.go:66-75 | The contact details typed into a web form become part of the enquiry text |
| Payloads.SameNormSameExtraction | internal/llm/extract.go:295-326 | Grounding depends on the text only through its normal form |
| Payloads.VisibleValuesSurvive | internal/llm/extract.go:157-200 | A value copied from the visible part of the raw message survives clean-up, grounding and `Trusted`, although the model saw the cleaned text |
| Payloads.TypedValuesSurvive | internal/ingest/normalize.go:66-84 | What a sender typed into a contact field is never rejected as a hallucination when the model reports it as typed |
| Router.NotAfterIsTotalPreorder | internal/router/router.go:103-108 | The comparison by priority, then name is a total preorder whose ties agree on both |
| Router.SortedRulesAreSorted | internal/router/router.go:98-110 | Sorting yields the same rules in order |
| Router.InsertAt | internal/router/router.go:103-108 | Stability: a rule is placed behind every rule that need not come after it |
| Router.SinkInPlace | internal/router/router.go:100-110 | One round of the in-place sort inserts the next element into the sorted part and touches nothing behind it |
| Router.SortByPriority | internal/router/router.go:100-110 | A sorted copy; the caller's slice is untouched |
| Router.SortThenScanIsMinimum | internal/router/router.go:66-110 | Sorting and taking the first match equals one pass for the minimum over the unsorted list |
| Router.LeastEligibleIsChoice | internal/router/router.go:66-86 | The chosen rule is exactly the active matching rule least by priority, name and position |
| Router.ChoiceDependsOnEligibleRulesOnly | internal/router/router.go:66-110 | With unique names, reordering the rules or adding inactive or non-matching ones changes no decision |
| Router.FirstOfOrderedIsLeast | internal/worker/worker.go:211-222 | On rules in the store's order the attach path's first match is the router's choice |
| Router.RouteEnquiry | internal/router/router.go:23-86 | The gates and the loop compute the specified decision |
| Grounding.Draft.NormalizeContact | internal/llm/extract.go:260-288 | Rewrites the contact fields in place to their cleaned values and nothing else |
| Grounding.Draft.Check | internal/llm/extract.go:299-312 | Appends a contact field to the unverified list exactly when it is unsupported |
| Grounding.Draft.CheckClassification | internal/llm/extract.go:319-325 | The loop flags exactly the judgements refuted by a quote that is not in the text |
| Grounding.Draft.Ground | internal/llm/extract.go:295-326 | Recomputes the unverified list from the text, ignoring what the model put there |
| Grounding.UnverifiedMeansUnsupported | internal/llm/extract.go:295-326 | A field is unverified exactly when it is neither in the text nor backed by a true quote; a judgement exactly when its quote is false |
| Grounding.CallTier | internal/llm/extract.go:157-200 | One tier's answer after validation, clean-up and grounding |
| Grounding.ExtractEnquiry | internal/llm/extract.go:132-155 | Escalation on low confidence and fallback on errors, as specified |
| Grounding.ExtractIsChecked | internal/llm/extract.go:132-245 | Every extraction that leaves `Extract` is schema-valid and grounded, with no blank or malformed contact values |
| Grounding.TrustedIsExactlySupported | internal/llm/extract.go:330-345 | A contact field survives `Trusted` exactly when grounding supports it |
| Grounding.CopiedValuesSurvive | internal/llm/extract.go:250-345 | A value copied verbatim from the text reaches the CRM whatever quotes come with it |
| Grounding.TrueClassificationQuoteIsNotRefuted | internal/llm/extract.go:319-325 | A judgement with a true quote is never held against the model |
| Grounding.ConfidenceGate | internal/router/router.go:20-28 | Whatever the tiers answer, any decision but review rests on a valid, grounded, confident, unrefuted extraction |
| Grounding.FailedEscalationIsReviewed | internal/llm/extract.go:144-154 | `Extract` fails only if both tiers do, and a kept unsure tier-1 answer always goes to a human |
| Tables.KeyOf | internal/store/store.go:95-99 | The row with the key, and the first such row |
| Tables.AfterLastAt | internal/store/crm.go:221-229 | The domain starts behind the last at sign, if there is one |
| Tables.PickOwnerIsLeastLoaded | internal/store/crm.go:247-263 | The owner picked has the fewest open records of the team, lowest id first; none only if the team has no users |
| Tables.ContactKeepsGood | internal/store/crm.go:155-212 | The contact transaction keeps addresses and domains unique up to case |
| Tables.ApproveKeepsApprovals | internal/store/review.go:64-87 | Deciding an open message keeps approvals and decided messages one to one |
| Tables.DraftKeepsApprovals | internal/store/review.go:18-30 | Drafting never decides a message nor unpairs a decided one |
| Tables.TrailsAppend | internal/store/review.go:97-108 | The audit trail of decisions grows in step with the approvals |
| Tables.ExecKeepsGood | internal/store/schema.sql:41-140 | Every statement keeps every unique index, the approval pairing, the audit pairing and the decision count |
| Tables.ExecKeepsRows | internal/store/crm.go:183-245 | No statement loses a row, overwrites a known contact value, moves a record to another contact or owner, or touches a decided message |
| Safety.WorkerOkIsStable | internal/worker/worker.go:100-264 | Nothing another process writes invalidates what a worker holds in its local variables |
| Safety.WorkerStepIsOk | internal/worker/worker.go:100-292 | Each step of a worker leaves its locals meaningful |
| Safety.EmitIsPermitted | internal/api/dashboard.go:101-171 | Every statement any process issues satisfies the guards the store relies on |
| Safety.LockedRowUntouched | internal/store/review.go:52-66 | While a reviewer holds a message row nobody else changes it |
| Safety.ApplyKeepsInv | internal/worker/worker.go:59-292 | Every event preserves the system invariant |
| Safety.ReachableIsInv | internal/worker/worker.go:59-292 | The invariant holds in every reachable state |
| Safety.ApprovalSafety | internal/store/review.go:39-109 | In every reachable state each message has at most one approval, is decided exactly when it has one, sent exactly when that approves, dated exactly when sent, and not decided by a manager |
| Safety.DecidedMessageIsFrozen | internal/store/review.go:14-30 | A decided message keeps body, author, status and send time in every continuation |
| Safety.CommitDecidesWhatWasLocked | internal/store/review.go:52-87 | An approval sends word for word the body that was there when the lock was taken, or the approver's edit under the approver's name |
| Safety.TablesAgreeOnDecisions | internal/store/review.go:64-108 | Decided messages, approvals and decision audit rows are equally many, and the audit rows name the same messages, outcomes and actors in the same order |
| Safety.EffectsAreUnique | internal/store/schema.sql:41-140 | At most one record and extraction per enquiry and one outbound message per enquiry and kind, in every reachable state; every open lease has an end |
| Safety.EffectsAreWriteOnce | internal/store/crm.go:183-245 | In every continuation no row is lost, a record keeps contact, kind and owner, and no contact value is overwritten |
| Safety.ActionsMeetTheGate | internal/worker/worker.go:171-264 | In every reachable state, whatever a worker is about to do rests on an extraction of that enquiry's text that meets the confidence gate |
| Gate.ActionsAreGated | internal/worker/worker.go:119-264 | In every run, each statement that writes a contact, a record or a draft comes after one that saved an extraction of that enquiry's text that meets the confidence gate |
| Gate.SentMessagesAreGated | internal/worker/worker.go:119-264 | So does every message that any run puts before a human, hence every sent one |
| Queue.LeasesExclude | internal/store/store.go:122-146 | After a claim nobody claims the enquiry again up to and including the lock time, unless it was requeued |
| Queue.ClaimsTakeTheOldest | internal/store/store.go:122-146 | A claim takes a due row than which no due row was received earlier |
| Queue.AttemptsCountClaims | internal/store/store.go:122-164 | The attempts column counts claims and nothing else |
| Queue.OpenEnquiriesComeDue | internal/store/store.go:122-164 | Every received or processing row becomes claimable exactly at a known finite time |
| Queue.DueWorkIsClaimed | internal/worker/worker.go:64-82 | As soon as anything is due, a draining worker can claim, and does not go to sleep |
| Queue.NoLostWakeup | internal/worker/worker.go:37-89 | While claims do not error, a woken and unclaimed enquiry finds a token in the channel or a worker in its drain loop, unless the process is closing |
| Retry.BackoffIsExact | internal/worker/worker.go:290-291 | The backoff is computed exactly whenever it fits int64 |
| Retry.TotalBackoffIsExact | internal/worker/worker.go:290-291 | The k waits after attempt n sum to (2^(n+k+1) - 2^(n+1)) poll intervals |
| Retry.ClaimsAreBounded | internal/worker/worker.go:269-292 | While attempts finish within their lease and workers are stopped only when idle, an enquiry that has had n attempts is claimed at most max(1, MaxAttempts - n) times more |
| Retry.SpentEnquiriesAreNotQueued | internal/worker/worker.go:279-289 | After that many claims it is no longer queued, whether or not `fail`'s own write succeeds; `Settling.RestsAfterItsAttempts` says where it is instead |
| Retry.WaitsDouble | internal/worker/worker.go:279-291 | A worker on attempt m of an enquiry that had n at the start knows it has waited (2^m - 2^(n+1)) poll intervals since, and m is at most max(n + 1, MaxAttempts) |
| Turns.RunKeepsTurns | internal/store/store.go:122-164 | Under the same conditions, shutdowns allowed, each enquiry has at most one holder, who works on its latest attempt, and every earlier attempt since the start was requeued |
| Settling.StepsLowerRank | internal/worker/worker.go:100-292 | Every step of a worker that holds an enquiry, failing calls included, brings it closer to letting go |
| Settling.ApplyLowersRemaining | internal/worker/worker.go:59-292 | The pair (attempts left, steps left in this attempt) falls lexicographically with every claim of the enquiry and every step of its holder, and is left alone by every other event |
| Settling.WorkIsBounded | internal/worker/worker.go:59-292 | So retries terminate: at most 14 steps per attempt and max(1, MaxAttempts - n) attempts more ever go into an enquiry that has had n |
| Settling.RestsUnlessUnderWay | internal/worker/worker.go:269-292 | If `fail`'s own write succeeds, an enquiry nobody was processing at the start is always at rest, held by a worker, or queued with attempts to spare |
| Settling.RestsAfterItsAttempts | internal/worker/worker.go:279-289 | Once it has been claimed as often as it had attempts left, and no worker holds it any more, it is at rest |
| Settling.DeadLetterIsTheLastAttempt | internal/worker/worker.go:279-291 | The attempt that dead-letters is number max(n + 1, MaxAttempts) for an enquiry that had n at the start, after waits of (2^MaxAttempts - 2^(n+1)) poll intervals in all |
| Provenance.OnlyExactMatchesAreModified | internal/store/crm.go:62-125 | With an auto-attach threshold above the fuzzy cap, an existing contact changes only by an exact e-mail or phone match |
| Provenance.ContactsAreGrounded | internal/worker/worker.go:135-206 | From any start, every name, e-mail and phone in a contact row was there at the start, or occurred in the text of the enquiry that wrote it, or came with a quote that did |
| Provenance.ContactsAreIdentifiable | internal/router/router.go:85-96 | From any start, every contact the workers create has a name, an e-mail or a phone that is not blank, and no contact that had one loses it |
| Delivery.RedeliveryIsIdempotent | internal/api/server.go:171-193 | Whatever happens in between, delivering a key again stores nothing and answers the same enquiry with the same text |
| Delivery.ContentKeysLeaveNothingToDiscard | internal/ingest/normalize.go:92-98 | With content-derived keys no two enquiries share a hash, and the duplicate stage never fires |
| Balance.PickedIsLeastLoaded | internal/worker/worker.go:224-227 | A worker comes to aim at a user only by picking the least loaded one of a team |
| Balance.StepKeepsAhead | internal/store/crm.go:234-263 | One worker step keeps every pair of a team's users within the number of workers, counting picks in flight |
| Balance.LoadsStayWithinWorkers | internal/store/crm.go:234-263 | W workers, no rule naming a user: a team's loads never differ by more than W, however picks and writes interleave |
| Replay.FirstContactWriteSucceeds | internal/store/crm.go:155-212 | The first contact write hits no unique violation |
| Replay.ReplayedContactWrite | internal/store/crm.go:178-195 | A replayed contact write succeeds, inserts no company and changes nothing but NULL to an empty name |
| Replay.ReplayFindsTheContact | internal/store/crm.go:62-125 | A replay matches the very contact the first attempt created or filled in, well enough to attach |
| Replay.KnownEmailIsUnambiguous | internal/store/crm.go:63-75 | A known address leaves the match query one answer |
| Replay.SoleHolderIsUnambiguous | internal/store/crm.go:77-91 | So does a number with one holder, if nobody has the address |
| Replay.UniqueNamesAreUnambiguous | internal/store/crm.go:163-180 | Company names unique up to case leave the company query one answer |
| Replay.CompanyNamesStayUnique | internal/store/crm.go:170-176 | Inserting companies keeps their names unique up to case, as long as the look-up and the insert are one atomic step |
| Replay.OverlappingMissesCollide | internal/store/crm.go:163-180 | Two transactions that overlap and both miss leave the names unique exactly if they insert different ones; the schema has no unique index on the name |
| Replay.AnswersAgree | internal/store/crm.go:62-125 | All answers the match query can give on given tables have the same score and method |
| Replay.AnswersDecideAlike | internal/router/router.go:45-64 | So which of them is returned never changes the decision, only whom it is about |
| Replay.HitDoesNotMatter | internal/store/crm.go:183-195 | Which of several companies is returned does not matter when the contact attached to has one |
| Replay.AmbiguousMatchesDiverge | internal/store/crm.go:62-125 | Whenever the match that attaches the enquiry can be another contact, attempts that get different ones write different CRM rows |
| Replay.AmbiguousCompaniesDiverge | internal/store/crm.go:163-180 | Whenever the contact is to get a company and the query can return another one, attempts that get different ones give it different companies |
| Convergence.TeamIsFoundAgain | internal/worker/worker.go:208-222 | The attach branch of a replay resolves the team of the rule that created the contact |
| Convergence.RecordingTwice | internal/store/crm.go:231-245 | Upserting the record twice is upserting it once, with the later team and the first owner |
| Convergence.UnownedRecordKeepsPicks | internal/store/crm.go:247-263 | A record nobody owns leaves it as it was who is least loaded |
| Convergence.DraftingAgainRewords | internal/store/review.go:18-30 | Drafting again changes at most the wording of an undecided draft |
| Convergence.ReplaysConverge | internal/worker/worker.go:100-264 | Any two histories of crashes, shutdowns, failed calls, resolutions and requeues that finish the enquiry leave the same contacts, companies and messages; and the same records if in both the rules, where they were needed, had been read for the last write of the record |
| Convergence.RecordsConvergeExactly | internal/worker/worker.go:208-222 | A history leaves the records of one that read its rules if and only if it had read them for the last write of the record too, or reading them gives no team and no owner that is not there anyway |
| Convergence.FinishedLeavesOneOfEach | internal/worker/worker.go:196-260 | Namely, if the rules had been read for the last write of the record: one record on one contact for the owner least loaded at the start, and one pending reply |
| Completion.UninterruptedRunFinishes | internal/worker/worker.go:100-264 | From every such start an uninterrupted run finishes the enquiry, with its record on the contact of the first write |
| Completion.SwallowedErrorDiverges | internal/worker/worker.go:208-222 | When a rule that names a team creates the contact, one history leaves the record with that team; another, with a crash after the contact write and a failing second read of the rules, without any |
| Completion.TiedMatchesDiverge | internal/store/crm.go:77-91 | When another contact can be returned to attach to, two uninterrupted runs leave the record on different contacts |
| Completion.TiedCompaniesDiverge | internal/store/crm.go:163-180 | When another company can be returned for a contact without one, two uninterrupted runs leave it with different companies |
| Findability.NeverAttached | internal/store/crm.go:62-125 | Above the fuzzy cap an enquiry without an address or a seven-digit number is never attached, however alike names are |
| Findability.UnfindableContactsDiverge | internal/router/router.go:85-96 | When such an enquiry creates a contact, an uninterrupted run leaves one contact and a reply to approve; a crash behind the contact write leaves it to a human or leaves the contact twice |
| Findability.ConvergesExactlyIfFindable | internal/worker/worker.go:100-264 | Above the fuzzy cap, with unambiguous lookups and readable rules, all histories of an enquiry that creates a contact leave the same CRM if and only if the contact has an address or a seven-digit number |
| Storage.NormalizePhone | internal/store/crm.go:127-135 | The loop keeps exactly the digits |
| Storage.Store.InsertEnquiry | internal/store/store.go:76-91 | Stores the enquiry unless its key is taken, and says which |
| Storage.Store.EnquiryByIdempotencyKey | internal/store/store.go:93-99 | The one enquiry with the key, if there is one |
| Storage.Store.FindRecentDuplicate | internal/store/store.go:103-114 | Some other enquiry with the hash inside the window exactly if there is one, and then the oldest |
| Storage.Store.ClaimEnquiry | internal/store/store.go:122-146 | Leases the oldest claimable row, or finds that none is claimable |
| Storage.Store.SetStatus | internal/store/store.go:149-154 | Accepts every status; sets it, clears the lock, changes nothing else |
| Storage.Store.Requeue | internal/store/store.go:158-164 | Puts the row back for later, changes nothing else |
| Storage.Store.MatchContact | internal/store/crm.go:62-125 | E-mail, else phone, else the best capped name score: an answer the specification allows |
| Storage.Store.BestByName | internal/store/crm.go:96-124 | The loop finds a contact with the highest capped score, if any reaches the floor |
| Storage.Store.FindCompany | internal/store/crm.go:163-180 | The best-ranked company with the domain or the name |
| Storage.Store.UpsertContact | internal/store/crm.go:155-212 | All of the transaction or none of it |
| Storage.Store.RecordDuplicateCandidate | internal/store/crm.go:139-149 | One row per enquiry and contact; the resolution of an existing row stays |
| Storage.Store.UpsertCRMRecord | internal/store/crm.go:234-245 | One record per enquiry; an owner once set stays |
| Storage.Store.PickOwner | internal/store/crm.go:249-263 | The loop finds the least loaded user of the team |
| Storage.Store.SaveExtraction | internal/store/crm.go:18-43 | One extraction per enquiry, overwritten on reprocessing |
| Storage.Store.UpsertDraft | internal/store/review.go:18-30 | One outbound message per enquiry and kind; a decided one keeps body and author |
| Storage.Store.Decide | internal/store/review.go:68-109 | The writes of the approval transaction, together |
| Storage.Store.Approve | internal/store/review.go:39-109 | Which error is returned when, for any actor; on error nothing changes, otherwise message, approval, enquiry and audit row are written together |
| Storage.Store.ResolveDuplicate | internal/store/review.go:114-130 | Resolves a pending candidate once; on error nothing changes |
| Storage.Store.TeamOfMessage | internal/store/review.go:199-207 | The team of the record behind a message |
| Storage.Store.Audit | internal/store/store.go:170-182 | Appends one row |
| Workers.Pool.Wake | internal/worker/worker.go:37-44 | Leaves a token in the channel, whether or not one was there |
| Workers.Pool.ResolveTeam | internal/worker/worker.go:208-222 | The loop takes the first active matching rule on the attach path |
| Workers.Pool.MatchStage | internal/worker/worker.go:135-151 | Stage 4 is a path of the step system |
| Workers.Pool.ActOnCrm | internal/worker/worker.go:196-206 | The contact part of `act` is a path of the step system |
| Workers.Pool.AssignAndReply | internal/worker/worker.go:208-260 | Owner, record and reply are a path of the step system |
| Workers.Pool.Act | internal/worker/worker.go:171-264 | Every branch of `act` is a path of the step system |
| Workers.Pool.Run | internal/worker/worker.go:100-167 | `run` is a path from the claim to rest or to failure, whichever calls fail |
| Workers.Pool.Fail | internal/worker/worker.go:269-292 | Requeue with backoff or dead-letter, as the step system does |
| Workers.Pool.Process | internal/worker/worker.go:91-98 | Every error of `run` goes to `fail` |
| Workers.Pool.DrainOnce | internal/worker/worker.go:63-82 | One round of the drain loop claims exactly when something is due, and is a path of the step system |
| Workers.PathIsRun | internal/worker/worker.go:59-89 | Every path of the pool is a run of the concurrent system, so all theorems about reachable states apply to it |
| Gateway.Server.HandleWebhook | internal/api/server.go:149-194 | Insert and wake, or answer a redelivery with the original id, or reject; nothing else changes |
| Gateway.Server.HandleDecision | internal/api/dashboard.go:101-164 | Which requests are carried out, refused, or in conflict; only the first kind changes anything, and it submits the right body |
| Gateway.Server.HandleResolveDuplicate | internal/api/dashboard.go:174-207 | Resolve once, requeue, wake; if requeueing fails the resolution stays |
| Gateway.DecisionIsARun | internal/api/dashboard.go:101-164 | A request that passes the guards is the three steps of a reviewer in the concurrent system |
| Duplicates.RunKeepsDiscard | internal/store/store.go:101-114 | Whatever happens, an enquiry ends up discarded only if another one with its content came in later than the window before the start, be it earlier or later than itself |
| Duplicates.DiscardsExactlyRecentTwins | internal/store/store.go:101-114 | The enquiry next in the queue can end up discarded, in a run in which nothing more arrives, if and only if it has such a twin |
| Duplicates.TwinsDiscardEachOther | internal/store/store.go:101-114 | One content delivered under two keys: a run in which no call fails discards both, and no other table is ever written |
| Resolutions.RequeuedIsDecidedAfresh | internal/api/dashboard.go:194-199 | However often humans resolve the enquiry's matches and have it requeued, whenever it has come to rest it awaits a human if and only if the extraction is unsure, or the match query answers below the threshold, or nobody matches and no rule does |
| Resolutions.ResolvedIsFlaggedAgain | internal/api/dashboard.go:174-207 | A run: a weakly matching enquiry is flagged, resolved as attached or as separate, requeued, and flagged again, the resolution standing |
| Shutdowns.AttemptsAreAccountedFor | internal/worker/worker.go:270-291 | Retried failures and shutdowns that take an enquiry with attempts to spare add up to its requeues, until one attempt is left |
| Shutdowns.ShutdownBurnsTheAttempt | internal/worker/worker.go:270-289 | A dead-lettered enquiry that had n attempts at the start has failed max(1, MaxAttempts - n) times since, less one for every shutdown that took it from a worker before its last attempt |
| Shutdowns.ShutdownsUseUpTheAttempts | internal/worker/worker.go:270-289 | For every MaxAttempts and every queued enquiry with attempts left there is a run in which shutdowns use up all of them but one, and the first failure dead-letters |
| Stale.StaleWorkerUnsendsTheEnquiry | internal/store/store.go:149-164 | In every reachable state, an event takes an enquiry back from `sent` if and only if it is the status write or requeue of a worker that still holds it, the release of such a worker at shutdown, the requeue after a resolution, or a rejection of one of its messages |
| Stale.AStaleWorkerUnsends | internal/store/store.go:149-154 | A run: a worker's lease expires, a second one drafts and rests, the reply is approved and sent, and the first worker's status write puts the enquiry back to awaiting approval |
| Stale.StaleWorkerRevivesTheEnquiry | internal/store/store.go:149-164 | In every reachable state, an event takes an enquiry back from `failed` if and only if it is the status write of a worker that still holds it, that worker's requeue with attempts to spare, its release at shutdown, the requeue after a resolution, or a decision on one of its messages |
| Stale.AStaleWorkerRevives | internal/store/store.go:149-154 | A run: a worker's lease expires, a second one fails the last attempt, and the first worker's status write puts the dead letter back to awaiting approval |
| Races.ContactWriteIsLostExactly | internal/store/crm.go:196-212 | In every run, a contact write whose calls all succeed fails its attempt if and only if nobody had the trusted address when the worker matched, somebody has it now, and the row to be written has none |
| Races.RaceForAnAddress | internal/store/crm.go:196-212 | For every start with two enquiries of one new address: a run in which both match nobody, the first one's contact is the only one, and the second's attempt is lost; its next attempt attaches to that contact, or, if that was the last, it is dead-lettered |
| Races.TwoWorkersOneContact | internal/store/crm.go:196-212 | Two workers on one enquiry after a lease has expired: if both come to create the contact they leave one exactly if it has an address, and two otherwise |
| Limits.NamesakesWithoutDomainComeFirst | internal/store/crm.go:163-170 | When some company carries the sender's domain, the one returned carries it if and only if no company of that name is without a domain |
| Limits.NamesakeOutranksDomain | internal/store/crm.go:163-170 | With a company that has name and domain and a namesake without a domain, the namesake is the only answer |
| Limits.EscalatedMayBeClaimed | internal/llm/extract.go:132-155 | An extraction is marked as escalated exactly when tier 2 gave it or tier 1's own answer claims so |
| Limits.ClaimedEscalationIsBelieved | internal/llm/extract.go:132-155 | A valid, confident tier-1 answer that claims to be escalated leaves `Extract` as escalated, although tier 2 is not asked |
| Limits.UnrelatedQuoteVouches | internal/llm/extract.go:305-311 | A true quote vouches for a value that is nowhere in the text |
| Witness.SomeReplaysDiverge | internal/worker/worker.go:208-222 | In one concrete shop both histories happen: convergence is about something, and without the rules it fails |
| Witness.SomeContactIsNotFoundAgain | internal/router/router.go:85-96 | In it the histories of an enquiry with an address converge, and those of one with a bare name do not |
| Witness.SomeRaceIsLost | internal/store/crm.go:196-212 | In it two enquiries race for an address, with three attempts and with one |
| Witness.SomeContactIsEnteredTwice | internal/store/crm.go:196-212 | In it two workers leave two contacts for a name and one for an address |
| Witness.SomeResolutionIsForgotten | internal/api/dashboard.go:194-199 | In it a namesake's enquiry is flagged, declared separate, and flagged again |
| Witness.SomeEnquiryIsUnsent | internal/store/store.go:149-154 | In it a stale worker takes back a sent enquiry |
| Witness.SomeEnquiryIsRevived | internal/store/store.go:149-154 | In it a stale worker takes back a dead letter |
| Witness.SomeEnquiryIsGivenUpAtOnce | internal/worker/worker.go:270-289 | In it an enquiry with three attempts is given up at its first failure |
| Witness.SomeTwinsAreDiscarded | internal/store/store.go:101-114 | In it one message sent under two keys is answered by nobody |
| Witness.SomeEscalationIsClaimed | internal/llm/extract.go:132-155 | In it a tier-1 answer that calls itself escalated is believed |

## Left out

- Language model calls, prompts and JSON decoding: a tier is an arbitrary answer or an error.
- The SQL engine: a statement or transaction is one atomic step; the row lock of the approval transaction is modelled, MVCC snapshots and rows skipped because another transaction has them locked at that instant are not.
- Trigram similarity and SHA-256 are parameters, as said above; a hash collision is not modelled.
- Parsing an address and cutting quoted mail history are parameters of `Payloads.Normalize`; JSON errors and the channel check of `setChannel` come before it.
- HTTP plumbing, webhook signatures, CORS, the actor header and the check that the actor exists.
- Reads for the dashboard, statistics, seeding, configuration loading, the front end, the simulator and the mock model.
- The spam heuristics: they write an audit row and influence nothing else.
- Audit rows other than those of the approval transaction are events of their own (`Note`) that may happen at any time; the order in which a worker writes them between its statements is not modelled.
- Waking and requeueing after a resolution may happen at any time in the step system, which allows more runs than the code has; `Gateway.Server.HandleResolveDuplicate` has them in order.
- The endless loop of a worker and its ticker: `Workers.Pool.DrainOnce` is one round of it, and the step system's `Poll` and `TakeToken` are its two ways to wake up.
- Several workers and reviewers working on one `Store` object at the same time: the classes are sequential, and interleavings are treated in the step system, to which each class is tied.
- Errors of `InsertEnquiry` other than a taken key, and of the lookup after it: they answer 500 and change nothing.
- Retry.ClaimsAreBounded: supposes that no claim takes over an expired lease, that workers are stopped or restarted only while they hold nothing, and that nothing is requeued by hand; without that the code has no bound, since a crash loses the attempt but not the enquiry.
- Convergence.ReplaysConverge: supposes that the match, where the enquiry is attached by it, and the company, where the contact is to get one, have one answer at the start, since otherwise `Completion.TiedMatchesDiverge` and `Completion.TiedCompaniesDiverge` give diverging runs; that the rules had been read for the last write of the record, since otherwise `Completion.SwallowedErrorDiverges` does; that newly created contacts have an e-mail or a phone of seven digits, which above the fuzzy cap is exact (`Findability.ConvergesExactlyIfFindable`) and at or below it depends on the similarity, a parameter here; that the enquiry is not a duplicate; that rules come in the store's order; and that the threshold is at most 0.99.
- Replay.CompanyNamesStayUnique: does not model two overlapping transactions, because a transaction is one atomic step here; what they would leave is stated by `Replay.OverlappingMissesCollide`.
- Enquiry-level permanence of `sent` and `failed`, one surviving enquiry of two duplicates, adopting the winner's contact within the attempt, and progress after a resolution: the code does not provide them.
