# CiviCon backend: a verified model

CiviCon lets citizens report problems. A volunteer claims an issue, does the work, uploads proof
and resolves it; a vision model may recommend approval; an agency verifies, and the volunteer is
paid ten civic points. This project models the three parts of that backend that share state, and
proves what holds of them.

1. **The points ledger under concurrency.** `Ledger` is the append-only ledger, its sums and its
   unique index. `LedgerProtocol` lets any number of award and reversal calls interleave, one
   database operation at a time, and fail anywhere. `Linearizability` gives every such run an
   equivalent serial order. `CacheCoherence` relates the cached balance to the ledger.
2. **Lifecycle, media and points as one state machine.** `CivicPoints`, `IssueMedia`,
   `IssueVerification` and `IssueLifecycle` hold the services as classes over one `Database`; each
   method is proved equal to a function on the whole state. `Decisions` and `Uploads` say what those
   functions do in the terms of the requests: exactly when each is accepted, which refusal it gets
   otherwise, and what it saves. `Runs` turns those functions into runs
   of requests by arbitrary actors and proves the invariants; `Records`, `Provenance`,
   `Conservation` and `PaidTwice` prove what whole runs do; `Application` wires the classes
   together and proves that serving requests with them is such a run. `MediaRemoval` is who can make
   a file disappear, and `UploadRace` the file cap when uploads overlap.
3. **Fast forms, and a parser against its printer.** `Listing` proves the batched page equal to
   presenting issues one by one. `ByteRange`, `Decimal` and `Download` prove the Range parser and
   the response it leads to against section 14.1.2 of RFC 9110.

`Contracts`, `Sequences` and `Store` hold the constants, list operations and documents shared by
all of these. `dafny verify dfyconfig.toml` checks everything.

## How the code is read

- Ids and times are opaque: ids are compared for equality, times are stamps given with the request.
- A database operation is atomic: one aggregate is one read, one insert tests the index and
  appends, one save replaces a document. Ledger calls interleave between operations
  (`LedgerProtocol`), uploads interleave between count and store (`UploadRace`); other requests are
  one step each (`Runs`).
- What comes from outside arrives with the request: generated ids, the clock, the frames a decoder
  finds in a video, the model's reply (an error, nothing parseable, or any verdict), and which
  operation of a settlement fails.
- `asOf` in the ledger protocol is a history variable: it remembers how long the ledger was when a
  cached balance was read, and no step depends on it.

## Where the code and its promises differ

The model follows the code. Four differences came out of it (`README.md` is the backend's own).

- **Start takes back submitted work.** `start` (`src/issues/issue-lifecycle.service.ts:267-274`)
  checks the transition table and the holder, nothing else. The table has edges to IN_PROGRESS from
  RESOLVED, AI_APPROVED and VERIFIED, so a holder may start work that is already verified, although
  `README.md:230` promises CLAIMED to IN_PROGRESS, and `README.md:293` and the comment at
  `src/issues/issue-lifecycle.service.ts:39-41` promise that only an agency leaves VERIFIED. Start
  clears no date or note and reverses no points. `PaidTwice.OneIssuePaidTwice` is a run without any
  failure in which two volunteers end up paid for one issue; `Records.TidyExactlyWithoutLateStarts`
  and `Conservation.FaultFreeConservedExactly` say exactly when the promises hold.
- **An issue can duplicate itself.** `dto.duplicateOf === id` (line 131) compares texts, and one
  24-digit hexadecimal id has many spellings. `Records.NoSelfDuplicateExactly` and
  `Records.SelfDuplicateHappens`.
- **The cache can stay behind.** `README.md:333-335` says the cached balance briefly trails the
  ledger. Nothing ends the lag by itself: `CacheCoherence.CacheCanStayStale` is a run in which every
  call has returned and the cache is wrong. It is also not so that a cached balance is right only
  when it was read after the last insert (`CacheCoherence.CacheRightByCancelling`); the exact
  condition is in `CacheCoherence.CacheTrailsLedger`, and which interleavings keep the cache right in
  `CacheCoherence.CacheExactWhenUndisturbed`.
- **Who may delete media.** `README.md:364` allows the reporter while OPEN. The code applies the
  upload rule (`src/issues/issue-media.service.ts:185`), so the holder may delete while CLAIMED or
  IN_PROGRESS, the reporter's files included, and a report without a photograph is never compared
  with the proof. `MediaRemoval.HolderErasesReport` is such a run;
  `MediaRemoval.AsDescribedExactly` and `MediaRemoval.BeforesSurviveExactly` say exactly when the
  description, and the survival of the reporter's photographs, hold.

The range parser departs from RFC 9110 in two ways. A nonempty suffix of an empty file is satisfiable
there and refused here (`ByteRange.UnsatisfiableExactly`). Unit names are case-insensitive there
(section 14.1), while here a well-formed range is ignored exactly when its unit is not in lower case
(`ByteRange.IgnoredExactly`); section 14.2 lets a server ignore the header.

## Model

| member | source | states |
|---|---|---|
| Ledger.NetIsTenOrZero | src/points/civic-points.service.ts:131-154 | a pair's net is 10 when its row count is odd and 0 when it is even |
| Ledger.WantedIsNext | src/points/civic-points.service.ts:31-74 | whatever an award or reversal decides to insert is exactly the pair's next row in the alternation +10, -10, ... |
| Ledger.KeyTaken | src/points/schemas/point-transaction.schema.ts:66-76 | the unique index refuses a row if and only if its sequence is below the pair's current count |
| Ledger.SettleKeeps | src/points/civic-points.service.ts:31-74 | an atomic award or reversal keeps every pair numbered without gap and alternating |
| Ledger.SettleNets | src/points/civic-points.service.ts:31-74 | after an award the pair nets 10 and after a reversal 0, whatever it was, and no other pair moves |
| Ledger.BalanceRegroups | src/points/civic-points.service.ts:76-82 | a user's balance is the sum of the user's nets over the issues |
| Ledger.BalanceCountsPaidIssues | src/points/civic-points.service.ts:76-82 | a balance is ten times the number of issues the user is currently paid for |
| LedgerProtocol.Reachable | src/points/civic-points.service.ts:31-129 | in every interleaved run: ledger well formed, every pending call carries a row of its pair at or below the current count, every recount and cached value is a balance over a prefix |
| LedgerProtocol.LedgerAlternates | src/points/civic-points.service.ts:95-154 | whatever the interleaving and failures, each pair's rows are 0, 1, 2, ... alternating +10 and -10 with matching reasons, so its net is 0 or 10 |
| LedgerProtocol.LostRaceIsHarmless | src/points/civic-points.service.ts:110-121 | when an insert is refused as a duplicate, the ledger already holds that very row: user, issue, sequence, amount and reason |
| LedgerProtocol.InsertOutcome | src/points/civic-points.service.ts:95-121 | an insert adds exactly its row if the pair still has the count the call read; otherwise the call returns at once and ledger, cache and all other calls stay as they are |
| LedgerProtocol.FailedExactly | src/points/civic-points.service.ts:110-121 | in every run a call has failed if and only if an operation of its own failed, so losing a race never throws |
| LedgerProtocol.FourStepsReturn | src/points/civic-points.service.ts:31-129 | whatever interleaves, a call none of whose operations fails has returned after four of them |
| LedgerProtocol.UndisturbedCallIsAtomic | src/points/civic-points.service.ts:31-129 | a call that runs without interference is one atomic award or reversal and caches the new balance only if it wrote |
| Linearizability.SameLedgerAsSerial | src/points/civic-points.service.ts:31-129 | replaying the chosen serial order with atomic operations rebuilds the interleaved run's ledger row for row |
| Linearizability.LosersAreNoOps | src/points/civic-points.service.ts:110-121 | a call waiting to insert the row the winner just inserted does nothing when run right after the winner |
| Linearizability.LinearizationPlaces | src/points/civic-points.service.ts:31-129 | no call has two places in the order; every call that has returned or stands after its insert has one, and so has a call whose pending row is already in |
| Linearizability.EffectsArePlaced | src/points/civic-points.service.ts:31-129 | a call whose row was in at any point of the run keeps its place, even if it failed after its insert |
| Linearizability.PointsWithinCalls | src/points/civic-points.service.ts:31-129 | each call takes effect between its own first read and its return, and the order follows the run |
| Linearizability.Linearizable | src/points/civic-points.service.ts:31-129 | every run is linearizable: same ledger as a serial run of each returned call once, each between its own first read and its return |
| Linearizability.RealTimeOrder | src/points/civic-points.service.ts:31-129 | a call that had ended before another first read precedes it in the serial order |
| CacheCoherence.BalanceIsWholeAwards | src/points/civic-points.service.ts:76-82 | at every prefix of every reachable ledger a balance equals the sum of nets and ten times the issues paid, so it is never negative or off a multiple of ten |
| CacheCoherence.CacheIsAPrefixBalance | src/points/civic-points.service.ts:123-128 | under any interleaving the cached balance is the user's balance over a prefix of the ledger, so ten times a number of issues |
| CacheCoherence.CacheTrailsLedger | src/points/civic-points.service.ts:123-128 | the cache is off by ten per later award less ten per later reversal, so at most ten per later row of the user, and is right if and only if those are equally many |
| CacheCoherence.CacheRightByCancelling | src/points/civic-points.service.ts:123-128 | concrete run: the cache is right although two rows were inserted after its read |
| CacheCoherence.WritesCurrentExactly | src/points/civic-points.service.ts:123-128 | throughout a run every call about to write the cache holds the current balance, if and only if no call of the user inserted while another stood between its balance read and its cache write |
| CacheCoherence.CacheExactWhenUndisturbed | src/points/civic-points.service.ts:95-129 | however a user's calls overlap, if none inserts between another's balance read and cache write and none fails between its own insert and cache write, the cache equals the balance whenever no refresh is under way |
| CacheCoherence.CacheExactWithoutOverlap | src/points/civic-points.service.ts:95-129 | the corollary for calls that never overlap: the cache equals the balance whenever none is in progress |
| CacheCoherence.CacheCanStayStale | src/users/users.service.ts:112-116 | concrete run: all calls have returned, the cache says 10 and the ledger 20 |
| CivicPoints.SettlementIsAtomic | src/points/civic-points.service.ts:31-129 | a settlement with any single failure is the atomic award or reversal when it takes effect and changes no row otherwise; the cache changes only if a row went in and nothing failed |
| CivicPoints.SettlementKeepsCacheExact | src/points/civic-points.service.ts:123-128 | without failure or overlap recomputing keeps every user's cached balance exact |
| CivicPoints.CivicPointsService.AwardForVerification | src/points/civic-points.service.ts:31-53 | the new ledger and cache are those of an award for the issue's volunteer; no volunteer, no change |
| CivicPoints.CivicPointsService.ReverseForVerification | src/points/civic-points.service.ts:55-74 | the new ledger and cache are those of a reversal for the issue's volunteer; no volunteer, no change |
| CivicPoints.CivicPointsService.Record | src/points/civic-points.service.ts:95-129 | the row is appended unless the insert fails or its key is taken, and only an insert overwrites the cache, with the recomputed balance |
| IssueMedia.IssueMediaService.Upload | src/issues/issue-media.service.ts:71-116 | refusals in the code's order changing nothing, otherwise the file of `Uploads.UploadStores` is appended |
| Uploads.UploadAcceptedExactly | src/issues/issue-media.service.ts:71-95 | accepted if and only if the actor is the reporter while OPEN or the holder while CLAIMED or IN_PROGRESS, the type is one of the five within 5 or 50 MiB, and the issue has fewer than five files |
| Uploads.UnacceptableAnswers | src/contracts/issue-media.ts:45-60 | which of the two refusals a file gets: a type that is not accepted, or the cap of its own kind that it exceeds |
| Uploads.UploadStores | src/issues/issue-media.service.ts:97-112 | the files are the old ones plus one with the bytes, name, type, issue, uploader, date and purpose of the request; nothing else changes |
| Uploads.DownloadReturnsUpload | src/issues/issue-media.service.ts:97-174 | in every run, unless the file is removed, a later download without a Range header answers 200 with exactly the bytes and type uploaded |
| Uploads.RemovalAcceptedExactly | src/issues/issue-media.service.ts:176-187 | accepted if and only if the file exists, belongs to an issue, and the actor may touch that issue's media |
| Uploads.RemovalKeepsOthers | src/issues/issue-media.service.ts:176-187 | an accepted removal leaves every other file in its place and everything else alone |
| IssueMedia.IssueMediaService.AssertMayAttach | src/issues/issue-media.service.ts:194-224 | only the reporter while OPEN and only the holder while CLAIMED or IN_PROGRESS, nobody otherwise, and which purpose results |
| IssueMedia.IssueMediaService.Remove | src/issues/issue-media.service.ts:176-187 | exactly the named file goes, under the rule for attaching; a refusal changes nothing |
| IssueMedia.PageIsGrouped | src/issues/issue-media.service.ts:130-155 | grouping one query's result gives every requested issue exactly its own listing and no other key |
| IssueMedia.IssueMediaService.ListForMany | src/issues/issue-media.service.ts:130-155 | the loop's map returns for each requested id exactly what listing it alone returns, nothing lost, doubled or misfiled |
| IssueMedia.SideNeedsAFile | src/issues/issue-media.service.ts:288-313 | a side never shows more images than asked for, and shows any only if a file backs it |
| IssueMedia.SideShows | src/issues/issue-media.service.ts:288-313 | with photographs a side is the first of them, bytes and type; otherwise the first frames of the first video as JPEG; otherwise empty; never more than asked for |
| IssueMedia.AssessmentReads | src/issues/issue-media.service.ts:260-282 | the before side is taken from the issue's report files, the after side from the proof files its holder uploaded |
| IssueMedia.ListingShows | src/issues/issue-media.service.ts:118-124 | a listing has one entry per file of the issue, in stored order, with that file's id, name, size, date, type and purpose |
| IssueMedia.EvidenceIsBacked | src/issues/issue-media.service.ts:260-282 | a nonempty before side means a report file of the issue exists, a nonempty after side a proof file by its holder |
| IssueVerification.IssueVerificationService.ApprovedExactlyWhen | src/issues/issue-verification.service.ts:78-149 | APPROVED if and only if the feature is on, both sides show something and the verdict is fixed at or above the threshold |
| IssueVerification.IssueVerificationService.AssessExactly | src/issues/issue-verification.service.ts:78-149 | the whole assessment, outcome, confidence, reason and date, by what the stored files show of each side and by the model's reply |
| IssueVerification.IssueVerificationService.ApprovalIsBacked | src/issues/issue-verification.service.ts:78-149 | an approval records a confidence at or above the threshold and is backed by a stored report file and a proof file of the holder |
| IssueVerification.IssueVerificationService.NoReportNoVerdict | src/issues/issue-verification.service.ts:83-96 | without a report file the work is not assessed, whatever the model would say |
| IssueLifecycle.IssuesService.Create | src/issues/issues.service.ts:27-34 | adds one OPEN issue of the caller with no volunteer and no dates |
| IssueLifecycle.IssuesService.UpdateOwn | src/issues/issues.service.ts:74-94 | only the reporter and only while OPEN; replaces the given fields of the report and nothing else |
| IssueLifecycle.IssueLifecycleService.ChangeStatus | src/issues/issue-lifecycle.service.ts:75-176 | refusals in the code's order leaving everything unchanged; otherwise the decided document is saved and the settlement follows, its failure swallowed |
| IssueLifecycle.IssueLifecycleService.Resolve | src/issues/issue-lifecycle.service.ts:178-214 | needs the transition, the holder and the holder's own proof; saves RESOLVED, or AI_APPROVED with an approving assessment |
| IssueLifecycle.IssueLifecycleService.Claim | src/issues/issue-lifecycle.service.ts:234-257 | refusals in the code's order, then the caller holds the issue |
| IssueLifecycle.IssueLifecycleService.Release | src/issues/issue-lifecycle.service.ts:259-265 | only the holder; the issue returns to OPEN without holder, claim and resolution date, or note, and keeps its verification date |
| IssueLifecycle.IssueLifecycleService.Start | src/issues/issue-lifecycle.service.ts:267-274 | only the holder, from any status the table lets into IN_PROGRESS; nothing but the status changes |
| IssueLifecycle.IssueLifecycleService.ReturnToOpen | src/issues/issue-lifecycle.service.ts:277-284 | saves the issue OPEN without holder, claim and resolution date, or note, and keeps its other fields, the verification date included |
| Decisions.StatusChangeAcceptedExactly | src/issues/issue-lifecycle.service.ts:75-137 | for each target status, in plain statuses, exactly when an agency's decision goes through: from where, by whom, with which reason or reference |
| Decisions.StatusChangeRefusals | src/issues/issue-lifecycle.service.ts:86-137 | which refusal: a status no agency can set comes before an illegal move, and that before own work, a missing reason or a bad reference |
| Decisions.StatusChangeSaves | src/issues/issue-lifecycle.service.ts:139-176 | field by field what an accepted decision saves; files and all other issues stay |
| Decisions.ClaimAnswers | src/issues/issue-lifecycle.service.ts:234-257 | accepted exactly from OPEN by someone other than the reporter; which refusal otherwise; saves holder, date and CLAIMED and nothing else |
| Decisions.ReleaseAnswers | src/issues/issue-lifecycle.service.ts:259-265 | accepted exactly from CLAIMED or IN_PROGRESS by the holder; which refusal otherwise; what is cleared |
| Decisions.StartAnswers | src/issues/issue-lifecycle.service.ts:267-274 | accepted exactly from CLAIMED, RESOLVED, AI_APPROVED or VERIFIED by the holder; which refusal otherwise; the status alone changes |
| Decisions.ResolveAnswers | src/issues/issue-lifecycle.service.ts:178-198 | accepted exactly from CLAIMED or IN_PROGRESS by the holder with a proof file of their own and readable files; which refusal otherwise |
| Decisions.ResolveSaves | src/issues/issue-lifecycle.service.ts:196-213 | saves note, date and assessment, ends AI_APPROVED if and only if both sides show something and the verdict is fixed at the threshold or above, and changes nothing else |
| Decisions.VideoProofIsEnough | src/issues/issue-media.service.ts:284-313 | decodable video as the only proof, a report photograph and a sure verdict end AI_APPROVED |
| Decisions.CreateSaves | src/issues/issues.service.ts:27-34 | a new issue holds the report given, its reporter, OPEN and nothing else; all others stay |
| Decisions.EditAnswers | src/issues/issues.service.ts:74-94 | accepted exactly for the reporter of an OPEN issue; each field sent replaces its own field and the others stay |
| Runs.OthersUntouched | src/issues/issue-lifecycle.service.ts:75-284 | a request changes no other issue's document, deletes none, and never changes a reporter |
| Runs.MovesFollowTable | src/issues/issue-lifecycle.service.ts:23-57 | each saved change is one table edge or the two edges of an approval; REJECTED and DUPLICATE are final; RESOLVED and AI_APPROVED are entered only by the holder's resolve, VERIFIED only by a status change whose actor is not the volunteer, and VERIFIED is left only for IN_PROGRESS with the same holder |
| Runs.OnlyStatusChangesPay | src/issues/issue-lifecycle.service.ts:161-173 | ledger and cache change only through an accepted verification or its reversal; resolving never pays |
| Runs.Reachable | src/issues/issue-lifecycle.service.ts:75-284 | the record, evidence, file and ledger invariants hold after every run of any requests by any actors |
| Runs.RecordsMatchStatus | src/issues/issue-lifecycle.service.ts:75-284 | in every run holder and claim date are present exactly while held, the holder is never the reporter, submitted work has note and date, VERIFIED its date, REJECTED its reason, and duplicateOf exactly DUPLICATE |
| Runs.FrozenEvidence | src/issues/issue-media.service.ts:176-240 | RESOLVED, AI_APPROVED and VERIFIED work still has its holder's proof, and no request adds or removes a file of it |
| Runs.ApprovalIsOnRecord | src/issues/issue-lifecycle.service.ts:200-213 | an AI_APPROVED issue carries an approval at or above the threshold and still has a report file and its holder's proof; RESOLVED carries no approval |
| Runs.FilesWithinCaps | src/contracts/issue-media.ts:8-60 | in every run each file is REPORT exactly when the reporter uploaded it, of an accepted type within its cap, and no issue has more than five |
| Runs.ContentHasOneSource | src/issues/issues.service.ts:69-94 | a report changes only by its reporter's edit while OPEN, an assessment only by the holder's resolve |
| Records.TidyExactlyWithoutLateStarts | src/issues/issue-lifecycle.service.ts:267-274 | note, resolution date and verification date sit only on the statuses they belong to, throughout a run, if and only if every accepted start found its issue CLAIMED |
| Records.NoSelfDuplicateExactly | src/issues/issue-lifecycle.service.ts:125-137 | no issue is a duplicate of itself, throughout a run, if and only if no accepted request respelled the issue's own id |
| Records.SelfDuplicateHappens | src/issues/issue-lifecycle.service.ts:131-133 | concrete run: an issue ends up a duplicate of itself |
| Provenance.HolderClaimed | src/issues/issue-lifecycle.service.ts:234-257 | whoever holds an issue claimed it earlier in the run and has held it without a break since |
| Provenance.ProofWasUploaded | src/issues/issue-media.service.ts:71-116 | every proof file was uploaded by its author while holding the issue |
| Provenance.WaitingWasResolved | src/issues/issue-lifecycle.service.ts:178-214 | the last request that moved an issue waiting for an agency was a resolve by its holder |
| Provenance.AwardWasPaid | src/issues/issue-lifecycle.service.ts:75-176 | every award row was written by a verification whose actor is not the one paid, of an issue the one paid held and had not reported |
| Provenance.EveryAwardIsEarned | src/issues/issue-lifecycle.service.ts:75-257 | every award has, earlier in the run, its claim and a proof upload before its resolve and that before its verification; the payee held the issue without a break from that claim to the verification, and nothing moved it after the resolve |
| Conservation.NetAfter | src/issues/issue-lifecycle.service.ts:161-173 | only a settlement that takes effect moves a pair's net, to 10 or to 0 by its direction |
| Conservation.ConservedExactlyWhenNothingLost | src/issues/issue-lifecycle.service.ts:139-176 | throughout a run every pair nets 10 exactly when its issue is VERIFIED and held by that user and 0 otherwise, if and only if no settlement was lost and no holder started VERIFIED work |
| Conservation.FaultFreeConservedExactly | src/issues/issue-lifecycle.service.ts:139-176 | when no settlement fails, points follow statuses throughout a run if and only if no accepted start found its issue VERIFIED |
| Conservation.BalanceCountsVerified | src/points/civic-points.service.ts:76-82 | in a conserved state a balance is ten per verified issue the user holds |
| Conservation.TotalCountsVerified | src/points/civic-points.service.ts:76-82 | in a conserved run all points together are ten per verified issue |
| Conservation.RowsCountTurns | src/points/civic-points.service.ts:95-109 | in a conserved run an issue has exactly one row per verification and per reversal |
| Conservation.LastEffectiveSettlementDecides | src/issues/issue-lifecycle.service.ts:292-306 | whatever failures were swallowed, a pair nets 10 exactly when its last settlement that took effect was an award |
| PaidTwice.OneIssuePaidTwice | src/issues/issue-lifecycle.service.ts:267-274 | concrete run without failures: one issue, verified once at the end, and two volunteers paid for it |
| MediaRemoval.LostOnlyByReporterOrHolder | src/issues/issue-media.service.ts:176-240 | a file that a request makes disappear is the one it named, deleted by the reporter of its OPEN issue or by the holder of its CLAIMED or IN_PROGRESS issue |
| MediaRemoval.AsDescribedExactly | src/issues/issue-media.service.ts:176-187 | throughout a run files are deleted only by their issue's reporter while OPEN, if and only if no accepted removal found its issue CLAIMED or IN_PROGRESS |
| MediaRemoval.BeforesSurviveExactly | src/issues/issue-media.service.ts:176-187 | throughout a run no report file is lost once its issue has left OPEN, if and only if no accepted removal by a holder named a report file |
| MediaRemoval.BeforesReachAssessment | src/issues/issue-media.service.ts:260-282 | in such a run a report file present when its issue leaves OPEN is there at every state until the issue is OPEN again |
| MediaRemoval.HolderErasesReport | src/issues/issue-media.service.ts:176-219 | concrete run: a volunteer claims an issue and deletes the photograph its reporter uploaded |
| UploadRace.CapUnderOverlap | src/issues/issue-media.service.ts:90-112 | with at most k uploads to an issue in flight, whatever goes on at other issues, it never holds more than 4 + k files, so five when k is 1 |
| UploadRace.CapIsTight | src/issues/issue-media.service.ts:90-112 | for every issue and every k some run with at most k uploads in flight reaches 4 + k files |
| UploadRace.UndisturbedUploadIsAtomic | src/issues/issue-media.service.ts:71-116 | an upload whose count and save nothing interrupts stores exactly what the single-step upload stores |
| Decimal.PlaceValue | src/common/http/byte-range.ts:43-56 | digits are read by place value: appending one multiplies by ten and adds it |
| Decimal.NumberOfPrint | src/common/http/byte-range.ts:43-56 | printing a number in decimal and reading it back gives the number |
| ByteRange.MatchExactly | src/common/http/byte-range.ts:7 | the matcher accepts exactly the texts of the pattern and returns their two digit groups |
| ByteRange.ParseSelectsExactly | src/common/http/byte-range.ts:20-62 | for every header and size a range is within the file and is exactly the bytes the header selects; unsatisfiable exactly for a well-formed header in lower case selecting none; no range exactly when the header is not well formed or its unit not in lower case |
| ByteRange.UnsatisfiableExactly | src/common/http/byte-range.ts:38-59 | a well-formed header is unsatisfiable if and only if its unit is in lower case and, besides, either RFC 9110 calls the range invalid or unsatisfiable or the file is empty |
| ByteRange.IgnoredExactly | src/common/http/byte-range.ts:28-31 | a header that is well formed by RFC 9110, its unit in any case, is ignored if and only if the unit is not in lower case |
| ByteRange.CapitalUnitIsIgnored | src/common/http/byte-range.ts:7 | concrete header: a range whose unit is capitalised is ignored |
| ByteRange.RoundingIsHarmless | src/common/http/byte-range.ts:44-56 | reading the digits as floating-point numbers changes no answer for sizes up to 2^53 |
| ByteRange.RangeRoundTrip | src/common/http/byte-range.ts:20-62 | printing any range of a file and parsing it returns it |
| ByteRange.OpenAndSuffixAgree | src/common/http/byte-range.ts:42-56 | the open-ended and the suffix form of a range to the last byte parse to that range |
| ByteRange.PrintedRange | src/common/http/byte-range.ts:51-61 | `bytes=m-n` for any m, n and size is m to the smaller of n and the last byte when m is at most n and inside the file, and unsatisfiable otherwise |
| ByteRange.PrintedOpen | src/common/http/byte-range.ts:51-56 | `bytes=m-` for any m and size is m to the last byte, or unsatisfiable when m is not inside the file |
| ByteRange.PrintedSuffix | src/common/http/byte-range.ts:38-49 | `bytes=-n` for any n and size is the last n bytes or the whole file, or unsatisfiable when n or the size is zero |
| ByteRange.PaddingIsIgnored | src/common/http/byte-range.ts:28 | white space around a header changes no answer |
| Download.IssueMediaController.OpenDownload | src/issues/issue-media.service.ts:157-174 | the stream holds the range's bytes, its end converted to exclusive, or the whole file |
| Download.IssueMediaController.Get | src/issues/issue-media.controller.ts:68-104 | not found and unsatisfiable leave the response untouched; otherwise status, headers and body are those of the parsed range |
| Download.IssueMediaController.Send | src/issues/issue-media.controller.ts:90-103 | writes 206 with length and Content-Range of the range, or 200 with the whole length |
| Download.RefusedExactly | src/issues/issue-media.controller.ts:76-84 | a 416 answers exactly a well-formed header, its unit in lower case, that selects no byte |
| Download.ResponseAgrees | src/issues/issue-media.controller.ts:86-103 | Content-Length is the body's length and Content-Type the file's, 200 carries the whole file, 206 exactly the selected bytes in order under a Content-Range naming first, last and size |
| Download.RangesReassemble | src/issues/issue-media.controller.ts:68-104 | fetching adjacent ranges and joining the bodies gives the file's bytes up to the last cut, the whole file when they cover it |
| Listing.NamesAgree | src/users/users.service.ts:94-106 | a name looked up in a page's batch is the name looked up alone, and nobody else is named |
| Listing.NamesForExactly | src/users/users.service.ts:94-106 | a batch names exactly the asked-for ids that have an account, each with that account's name |
| Listing.PresentShows | src/issues/issue-response.ts:43-75 | an issue is shown with its own fields under their own names, its media listing, and its volunteer by id and, while the account exists, by name |
| Listing.IssuesController.FindAll | src/issues/issues.controller.ts:76-98 | every entry of a page from two batched queries equals presenting that issue alone |
| Application.Backend.Serve | src/issues/issue-lifecycle.service.ts:68-284 | the wired services do to the database exactly what the run model says of each request and refuse exactly when it refuses |
| Application.Backend.ServeAll | src/issues/issue-lifecycle.service.ts:68-284 | serving any requests one after another ends in the state of their run, where every invariant holds |

## Left out

- Routing, guards, roles, tokens, passwords, request validation, configuration and the exception filter: plumbing over libraries. Requests reach the services with any actor, so the results do not depend on roles.
- MongoDB, Mongoose and GridFS internals, streams and ffmpeg: each database operation is atomic, a file is its bytes, and a decoder yields any frames, cut to the number asked for.
- The request to the vision model: any reply or failure. The threshold is a given number; how it is read from the environment is not modelled.
- Interleaving inside lifecycle requests: `save` carries no version guard, so the claims about claims, evidence and records are about requests handled one after another. Ledger calls and uploads do interleave, in their own modules.
- Status changes during an upload: `UploadRace` starts each upload after its ownership and type checks, and lets deletions come at any time.
- Acyclicity of duplicate chains: the code checks existence and self-reference only, so it does not hold.
- Schema trimming and length limits of titles, notes and reasons: only presence is modelled, and an empty reason counts as missing as in the code.
- Files, issues and ledgers from before a feature existed, deletion of users, and seeding.
- Filtering, sorting and paging of `findAll`, and the list of recent transactions: done by the database. `Listing.IssuesController.FindAll` takes the page it is given; users are a parameter of it.
- Base64, `url`, `createdAt`, `updatedAt` and the model's name in responses: copied through.
- Which categories exist: a category is text here, and accepting it is request validation.
- A failing save or a lost connection outside settlements and the assessment's file read: the request then fails before or after its single write.
- Headers naming several ranges, or one range among empty list members: ignored by the code, and outside the single ranges compared with the standard.
- `Number` yielding infinity for very long digit strings: it compares like any number above 2^53.
