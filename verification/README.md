# Onion Sentinel dashboard: verified model

This project models the parts of the Onion Sentinel dashboard that carry state, loops or
fixed-point arguments, and proves what they keep over every input and every run:

- **Log pages** (`Utf8`, `LogPage`): the UTF-8 codec of RFC 3629 sections 3 and 4, the byte-bounded
  text tail, pages read backwards from plain and gzip log members, and a client's walk through them.
- **JSONL index** (`JsonlIndex`): the append-aware counter, the block-wise reverse reader, the pager.
- **HTTP admission** (`HttpSlots`): request slots and counters as interleaved steps.
- **Audit chain and ledger** (`AuditChain`, `AuditLedger`, `AuditCodec`): building and verifying the
  keyed chain, line framing, bounded verified append with failures at any point.
- **Access gate** (`AccessGate`, `AccessAdmission`): write decisions, precommit receipts, observations,
  dispatch; who is admitted, how others are refused, what the ledger says of each.
- **CTI workspace** (`CtiFields`, `CtiRecords`, `CtiProgram`, `CtiForms`, `CtiAudit`, `CtiStore`,
  `CtiAcceptance`, `CtiRuns`, `CtiFailures`): normalisation, its stored form and what it accepts, references,
  change summary, digest-linked history, revisioned saves and runs.
- **AI settings** (`AiRoutes`, `AiSettings`, `AiNormal`, `AiPayload`, `AiAcceptance`, `AiFixed`, `AiForms`, `AiStore`,
  `AiRoster`, `AiAgents`, `AiFailures`): route printing, parsing and identity, the normaliser's phases, what
  they accept and take from a request, their fixed points, roster saves and per-agent saves.
- **DHCP reconciliation** (`DhcpIndex`, `DhcpReconcile`, `DhcpViews`, `DhcpMeaning`): the two identifier
  indexes, the overlay's and discovery's verdicts, the board, the records and the MAC selection, and what
  they say in terms of the assets.

`Bytes`, `Values`, `Ordering` and `Prelude` hold what these share: byte strings and lines, JSON values
and Python's string operations, sorted text. Verify the whole project with
`dafny verify dfyconfig.toml`.

Python library functions whose internals do not matter (JSON text, HMAC and SHA-256, date, URL, IP and
number parsing, case mapping outside ASCII, printing of values) are function-valued parameters gathered
in an environment datatype. Where a law about them is needed it is stated in a `Lawful` predicate: a
formatted time parses back, a printed event parses back, a printed number of four decimals reads back,
a digest is 64 hexadecimal digits. Each set of laws is shown to hold in some environment
(`LawfulWorldExists`, `LawfulEnvExists`, `LawfulStoreExists`).

Behaviour worth knowing, each with a proved lemma:

- A CTI save checks the document's size without the final line feed and does not re-check the change
  list it appends; a document exactly at the limit, or with more than a hundred changes, is written
  and then never loads again (`SavedLoadsBack`, `LimitSizedDocumentDoesNotLoadBack`,
  `OmittingManyTechnologiesDoesNotLoadBack`, `UnreadableFileStays`; concrete saves in `LimitSizedSave` and
  `ManyChangesSave`).
- Settings whose model name or URL is cut at 240 characters just after a blank are not a fixed point
  (`FixedExactlyWhenSettled`, a concrete payload in `CutNameIsNotFixed`); a reviewer or adjudicator route
  with a harness prefix and no effort raises (`RaisesExactlyOnMalformedRoutes`, a concrete payload in
  `MissingEffortRaises`).
- An exception that reaches the accepting thread after its worker runs releases one slot twice
  (`InterruptedStartReleasesTwice`).
- An append can report an error although the ledger grew, when the directory sync after the replacement
  fails (`AppendGrowsOrKeeps`, `LedgerOnlyGrows`).
- A ledger whose last event is numbered 1.0 or true verifies, but no event can be appended to it
  (`AppendSucceedsExactly`).
- In the mode that enforces administrative writes only, the closing event of any other write says
  "enforce_authorized", whoever sent it (`ReasonCodeTells`).
- A log truncated in place and regrown past the old offset between two polls is miscounted
  (`UnobservedRegrowthMiscounts`); `HistoryCountsExactly` says on which histories the count is right.
- The DHCP overlay reads an identifier given as bare text character by character, discovery ignores it
  (`IndexesAgree`); the exact observations on which their verdicts still agree are those of
  `ReconcilersAgreeExactly`, and `BareHostnameSplitsTheReconcilers` is one on which they do not. Every
  inventory the dashboard loads is validated first (onion-sentinel-dashboard/portal_asset_repository.py:62
  and 101), which rewrites identifiers as lists (n8n/bin/asset_inventory.py:195-216), so bare text reaches
  the two passes only when they are called on their own interface.

## Model

| member | source | states |
|---|---|---|
| Utf8.DecodeEncode | onion-sentinel-dashboard/application_log_content.py:78-92 | strict decoding undoes encoding for every scalar text (RFC 3629 sections 3 and 4) |
| Utf8.EncodeDecode | onion-sentinel-dashboard/application_log_content.py:78-92 | encoding undoes strict decoding, so no byte string has two readings |
| Utf8.NextBoundary | onion-sentinel-dashboard/application_log_content.py:83-86 | after any byte cut the next character boundary is at most three bytes on, all of them continuation bytes |
| Utf8.BoundaryIsFirst | onion-sentinel-dashboard/application_log_content.py:83-86 | no earlier character boundary satisfies the bound |
| Utf8.TailIsLongestThatFits | onion-sentinel-dashboard/application_log_content.py:78-92 | the tail is the longest suffix of whole characters within the bound, wasting at most three bytes |
| Utf8.TailIsTopBits | onion-sentinel-dashboard/application_log_content.py:84-85 | the range test for continuation bytes is the source's mask test |
| Utf8.DropTailBytes | onion-sentinel-dashboard/application_log_content.py:83-86 | the first loop stops exactly at the next character boundary |
| Utf8.DecodeSuffix | onion-sentinel-dashboard/application_log_content.py:87-92 | the retry loop finds the first strictly decodable suffix and the bytes given up for it |
| Utf8.Utf8Tail | onion-sentinel-dashboard/application_log_content.py:78-92 | returns that longest tail for every text and positive bound; the strict decode succeeds at once |
| LogPage.RegularPageShowsItsRange | onion-sentinel-dashboard/application_log_content.py:99-154 | a page shows exactly its byte range, within line and byte limits, with correct older/newer links, and makes progress |
| LogPage.RegularPageShowsItsLines | onion-sentinel-dashboard/application_log_content.py:99-154 | a page shows the last `line_limit` lines before its end, or its whole window if that has fewer; its line count is that of the bytes shown, and truncated and the file size follow from range and content |
| LogPage.RegularPageStartsOnALine | onion-sentinel-dashboard/application_log_content.py:99-154 | a page starts where a line starts unless its byte window cut the line |
| LogPage.Admit | onion-sentinel-dashboard/application_log_content.py:178-183 | the window after a chunk is the last bytes of what was expanded before the requested end |
| LogPage.BoundedGzipPage | onion-sentinel-dashboard/application_log_content.py:157-200 | under every chunking the streamed page is the regular page of the expanded bytes, 413 exactly above the bound, never more than bound+1 bytes consumed |
| LogPage.WalkTiles | onion-sentinel-dashboard/application_log_content.py:99-154 | pages reached by next_before have adjacent, non-empty ranges from the end down to zero |
| LogPage.WalkReadsTheSnapshotOnce | onion-sentinel-dashboard/application_log_content.py:99-154 | put together they are the starting snapshot exactly, even if the file grows between calls |
| LogPage.WalkShowsTheSnapshot | onion-sentinel-dashboard/application_log_content.py:99-154 | every page of the walk shows bytes of the starting snapshot |
| JsonlIndex.IncrementalCountIsFullScan | onion-sentinel-dashboard/jsonl_log.py:44-70 | one refresh leaves exactly what a full rescan of the complete lines would |
| JsonlIndex.CountAfterAnyHistory | onion-sentinel-dashboard/jsonl_log.py:44-70 | after any history of appends, replacements, truncations, removals and polls in which each poll and the final reading find a file that continues what was counted, the count is the full rescan |
| JsonlIndex.ObservableRunContinues | onion-sentinel-dashboard/jsonl_log.py:44-70 | a history is of this kind if no file shrunk below the offset grows back over it before a poll and no other file comes with the counted one's identity |
| JsonlIndex.RefreshCountsExactly | onion-sentinel-dashboard/jsonl_log.py:44-70 | whatever file one refresh finds: the total is the full rescan exactly where it starts over or the bytes now in the counted place give the same count with the added ones, and the index is a full rescan's exactly where they also leave the same open line |
| JsonlIndex.HistoryCountsExactly | onion-sentinel-dashboard/jsonl_log.py:44-70 | over every history each poll leaves the index as a full rescan would exactly when each meets that condition, and the next total is then right exactly when its reading does |
| JsonlIndex.UnobservedRegrowthMiscounts | onion-sentinel-dashboard/jsonl_log.py:44-70 | a truncation and regrowth over the offset between two polls is miscounted |
| JsonlIndex.ReverseLines | onion-sentinel-dashboard/jsonl_log.py:72-88 | for every block size the reader yields the non-empty lines in reverse order |
| JsonlIndex.YieldReversed | onion-sentinel-dashboard/jsonl_log.py:80-88 | the lines of one block are yielded from the last to the first, empty ones skipped |
| JsonlIndex.ReaderSeesNewestFirst | onion-sentinel-dashboard/jsonl_log.py:72-115 | the records among those lines are the complete valid records, newest first |
| JsonlIndex.PagesListEveryRecordOnce | onion-sentinel-dashboard/jsonl_log.py:90-115 | pages one to last list every complete valid record once and none is empty |
| JsonlIndex.JsonlLogIndex.constructor | onion-sentinel-dashboard/jsonl_log.py:19-27 | a new index has counted nothing and reads blocks of at least 1024 bytes |
| JsonlIndex.JsonlLogIndex.ResetTo | onion-sentinel-dashboard/jsonl_log.py:38-42 | a reset forgets everything but the file's identity |
| JsonlIndex.JsonlLogIndex.CountValid | onion-sentinel-dashboard/jsonl_log.py:64-69 | counts exactly the lines that hold a record |
| JsonlIndex.JsonlLogIndex.RefreshCount | onion-sentinel-dashboard/jsonl_log.py:44-70 | the fields and the answer after a refresh, in terms of the fields before it and the file |
| JsonlIndex.JsonlLogIndex.CollectRows | onion-sentinel-dashboard/jsonl_log.py:100-115 | the rows collected are the requested slice of the valid records |
| JsonlIndex.JsonlLogIndex.Page | onion-sentinel-dashboard/jsonl_log.py:90-115 | a page is the exact newest-first slice of the file's records, with the full total and the clamped page number |
| HttpSlots.SlotsAreConserved | onion-sentinel-dashboard/http_runtime.py:88-121 | in every interleaving without an interrupted start permits and held slots make up the maximum asked for, at least one; the counter counts the tallied paths, no clamp, no over-release, refusal exactly when full, every refusal counted |
| HttpSlots.CleanStepKeepsBalance | onion-sentinel-dashboard/http_runtime.py:88-121 | every clean step keeps the balance of permits, held slots and counter |
| HttpSlots.DrainedServerWasCleanIffUninterrupted | onion-sentinel-dashboard/http_runtime.py:88-121 | a drained server's run was clean exactly when no start was interrupted, and is then as new |
| HttpSlots.InterruptedStartReleasesTwice | onion-sentinel-dashboard/http_runtime.py:93-107 | a start interrupted after its worker runs is released twice |
| HttpSlots.BoundedThreadingHTTPServer.constructor | onion-sentinel-dashboard/http_runtime.py:66-81 | a new server has all its permits, at least one |
| HttpSlots.BoundedThreadingHTTPServer.TryAdmit | onion-sentinel-dashboard/http_runtime.py:88-92 | takes a permit or counts a refusal, as the protocol's step |
| HttpSlots.BoundedThreadingHTTPServer.CountActive | onion-sentinel-dashboard/http_runtime.py:95-96 | counts an admitted request, as the protocol's step |
| HttpSlots.BoundedThreadingHTTPServer.UncountActive | onion-sentinel-dashboard/http_runtime.py:118-121 | the counter's half of a release, as the protocol's step |
| HttpSlots.BoundedThreadingHTTPServer.ReleaseSlot | onion-sentinel-dashboard/http_runtime.py:118-121 | the semaphore's half, reporting where it would raise |
| HttpSlots.BoundedThreadingHTTPServer.RuntimeSnapshot | onion-sentinel-dashboard/http_runtime.py:109-116 | in a balanced state the snapshot counts the requests in service, within the maximum |
| AuditChain.VerificationMeans | onion-sentinel-dashboard/portal_admin_audit_chain.py:160-200 | valid exactly for chained events; otherwise the index is the first bad position and the head the last good digest |
| AuditChain.ChainedIsPrefixClosed | onion-sentinel-dashboard/portal_admin_audit_chain.py:190-200 | every prefix of a verified chain verifies |
| AuditChain.ChainedNumbers | onion-sentinel-dashboard/portal_admin_audit_chain.py:160-187 | the events of a chain are numbered from one on, as integers, floats or, for the first, true |
| AuditChain.NamesExactly | onion-sentinel-dashboard/portal_admin_audit_chain.py:35-36 | which texts are identifiers and request ids, character by character |
| AuditChain.BuiltEventExtends | onion-sentinel-dashboard/portal_admin_audit_chain.py:129-157 | an event built on the last event of a verified chain extends it and carries the given fields |
| AuditChain.SealedEventIsAccepted | onion-sentinel-dashboard/portal_admin_audit_chain.py:141-187 | building and checking an event agree |
| AuditChain.HeadFixesChain | onion-sentinel-dashboard/portal_admin_audit_chain.py:121-200 | two verified chains with one head digest are the same chain, or the MAC collides or gives the zero digest |
| AuditChain.VerifyChain | onion-sentinel-dashboard/portal_admin_audit_chain.py:190-200 | the loop computes the verification specified |
| AuditLedger.FramingRoundTrip | onion-sentinel-dashboard/portal_admin_audit_store.py:67-95 | line framing decodes back to exactly the encoded events |
| AuditLedger.PreparedGrows | onion-sentinel-dashboard/portal_admin_audit_store.py:186-215 | the payload of an append verifies and holds one event more, within both bounds |
| AuditLedger.AppendGrowsOrKeeps | onion-sentinel-dashboard/portal_admin_audit_store.py:153-233 | under any failure the file is untouched or grew by one verified event carrying the fields; a returned event is that event |
| AuditLedger.AppendSucceedsExactly | onion-sentinel-dashboard/portal_admin_audit_store.py:186-233 | an append is reported exactly when nothing fails, the ledger verifies, its last number is an integer, the fields are valid and one more event fits both bounds; the event is the next one, also when the directory sync fails |
| AuditLedger.VerifiedIsValid | onion-sentinel-dashboard/portal_admin_audit_store.py:84-110 | verified events form a valid chain within both bounds |
| AuditLedger.LedgerOnlyGrows | onion-sentinel-dashboard/portal_admin_audit_store.py:186-233 | in every run the ledger verifies, keeps its events in place, and has one more event per append reported done or failing after the replacement |
| AuditLedger.BrokenLedgerIsLeftAlone | onion-sentinel-dashboard/portal_admin_audit_store.py:98-110 | a ledger that does not verify is never changed |
| AuditLedger.NewLedgerVerifies | onion-sentinel-dashboard/portal_admin_audit_store.py:67-110 | the empty ledger verifies under positive bounds |
| AuditLedger.AuditStore.DecodedEvents | onion-sentinel-dashboard/portal_admin_audit_store.py:84-95 | the decode loop returns the framed events or refuses |
| AuditLedger.AuditStore.ParseLines | onion-sentinel-dashboard/portal_admin_audit_store.py:84-95 | the loop over the lines returns every object or refuses |
| AuditLedger.AuditStore.AppendVerifiedEvent | onion-sentinel-dashboard/portal_admin_audit_store.py:186-233 | the file afterwards and the event returned, for every failure |
| AccessGate.DecisionFollowsPolicy | onion-sentinel-dashboard/portal_access_enforcement.py:80-113 | a decision is enforced exactly on protected writes and then allows exactly what is entitled |
| AccessGate.AdmittedWasCommitted | onion-sentinel-dashboard/onion_sentinel_access_adapter.py:275-322 | a guarded request let through had an allowed decision and a committed receipt |
| AccessGate.AdmittedIsJustified | onion-sentinel-dashboard/onion_sentinel_access_adapter.py:206-322 | one admission lets a guarded request through only if it is entitled and the event it has just appended to the verified ledger is its receipt |
| AccessGate.NoGuardedWriteWithoutReceipt | onion-sentinel-dashboard/onion_sentinel_access_adapter.py:206-343 | in every enforcing run, with appends failing anywhere, each dispatched guarded write is entitled and has a receipt of its own, appended during the run at a later place than the one before; the counters bracket the ledger |
| AccessGate.EachObservationFinalizedOnce | onion-sentinel-dashboard/onion_sentinel_access_adapter.py:325-343 | no observation is finalized twice |
| AccessAdmission.RolesAreNested | onion-sentinel-dashboard/portal_access_policy.py:103-121 | only human sessions are authorized; roles are nested, viewer within analyst within administrator, and no other role holds anything |
| AccessAdmission.WritesNeed | onion-sentinel-dashboard/portal_access_policy.py:74-101 | an administrative write needs a permission analysts lack, an alert or incident operation one they hold, anything else unmapped is a policy error |
| AccessAdmission.AdministratorsHoldAll | onion-sentinel-dashboard/portal_access_policy.py:86-101 | signing in alone needs no permission; every other needed permission is held by administrators |
| AccessAdmission.ProtectedWrites | onion-sentinel-dashboard/portal_access_enforcement.py:80-113 | which writes each mode protects, by who holds the needed permission |
| AccessAdmission.DecisionTells | onion-sentinel-dashboard/portal_access_enforcement.py:50-113 | a decision records whether the write would be authorized and the first thing missing |
| AccessAdmission.AdmittedExactly | onion-sentinel-dashboard/onion_sentinel_access_adapter.py:206-322 | everybody is admitted while observing; enforcing, exactly evaluations, unaccepted writes, and mapped writes with a working session that are unprotected or are entitled and leave a receipt |
| AccessAdmission.RefusedWith | onion-sentinel-dashboard/onion_sentinel_access_adapter.py:206-322 | 401 and 403 for protected writes that are not entitled, without and with a principal; 503 for every other refusal |
| AccessAdmission.AdmissionCounts | onion-sentinel-dashboard/portal_access_observer_runtime.py:164-228 | admission counts one event for a protected write let through, one failure for every 503 but that of a failed session, and nothing else |
| AccessAdmission.ReasonCodeTells | onion-sentinel-dashboard/portal_access_observer.py:108-121 | what each reason code says of the decision; none is that of a receipt |
| AccessAdmission.ClosingEventTells | onion-sentinel-dashboard/portal_access_observer.py:100-172 | outcome by status, sender, target and permission of the closing event of a request |
| AccessAdmission.ReceiptIsNoClosingEvent | onion-sentinel-dashboard/portal_access_observer.py:124-140 | no receipt reads like the closing event of any request |
| AccessAdmission.ResponseIsRecorded | onion-sentinel-dashboard/portal_access_observer_runtime.py:178-203 | a response on an open observation appends exactly its closing event if the ledger can take it, counts it and closes the observation |
| AccessAdmission.EventsAreValid | onion-sentinel-dashboard/portal_access_observer.py:64-172 | whatever the gate writes about a well-formed request passes the chain's own validation |
| AccessGate.AccessObserverRuntime.PrecommitObservation | onion-sentinel-dashboard/portal_access_observer_runtime.py:205-228 | outcome, ledger and counters of a precommit |
| AccessGate.AccessObserverRuntime.CountFailure | onion-sentinel-dashboard/portal_access_observer_runtime.py:164-172 | a failure changes the failure counter and nothing else |
| AccessGate.AccessObserverRuntime.RefuseAtBoundary | onion-sentinel-dashboard/onion_sentinel_access_adapter.py:255-272 | a boundary failure is counted, and refuses in an enforcing mode only |
| AccessGate.AccessObserverRuntime.AppendAndCount | onion-sentinel-dashboard/portal_access_observer_runtime.py:178-203 | an append counts an event or a failure |
| AccessGate.AccessObserverRuntime.BeginAccess | onion-sentinel-dashboard/onion_sentinel_access_adapter.py:275-322 | admission, observation on the handler, ledger and counters after begin |
| AccessGate.AccessObserverRuntime.FinalizeAccess | onion-sentinel-dashboard/onion_sentinel_access_adapter.py:325-343 | the handler's observation is cleared and closed once |
| CtiFields.LifeList | onion-sentinel-dashboard/cti_program_lifecycle.py:46-71 | the list loop rejects at the first bad entry and keeps the first of entries differing only in case |
| CtiFields.DedupedIsDistinct | onion-sentinel-dashboard/cti_program_validation.py:58-71 | no two kept texts have one case-folded key, and no key is lost |
| CtiFields.DedupedKeepsTheFirst | onion-sentinel-dashboard/cti_program_validation.py:58-71 | of texts differing only in case exactly the first is kept |
| CtiFields.TextListIsFixed | onion-sentinel-dashboard/cti_program_lifecycle.py:46-71 | a normalised list is read back as itself |
| CtiFields.FieldIsFixed | onion-sentinel-dashboard/cti_program_validation.py:12-108 | every stored field of every kind is read back as itself |
| CtiFields.TimeIsFixed | onion-sentinel-dashboard/cti_program_lifecycle.py:87-102 | a stored UTC time is read back as itself |
| CtiRecords.RecordIsFixed | onion-sentinel-dashboard/cti_program_validation.py:165-239 | a normalised record has exactly its table's members and is read back as itself |
| CtiRecords.IntelligenceRecordIsFixed | onion-sentinel-dashboard/cti_program_lifecycle.py:250-314 | the same for intelligence with its evidence and entities |
| CtiRecords.ItemIsFixed | onion-sentinel-dashboard/cti_program_lifecycle.py:125-314 | the cross-field checks (collection state, time order, handling, unique ids) accept their own output |
| CtiProgram.RequireUnique | onion-sentinel-dashboard/cti_program_validation.py:287-308 | the loop accepts exactly collections without repeated ids and without repeated case-folded names |
| CtiProgram.CollectionIsFixed | onion-sentinel-dashboard/cti_program_validation.py:271-308 | a normalised collection is read back as itself, whatever identifiers are generated meanwhile |
| CtiProgram.LoadsAsItselfWhen | onion-sentinel-dashboard/cti_program_validation.py:311-334 | a document with normal collections loads as itself exactly when its time and history do |
| CtiProgram.NormalizationIsFixed | onion-sentinel-dashboard/cti_program_validation.py:311-334 | whatever normalisation returns loads as itself |
| CtiForms.FieldsAreStored | onion-sentinel-dashboard/cti_program_validation.py:12-108 | a field of any kind is normalised to itself exactly when it is in a stored form defined without the normaliser |
| CtiForms.RecordsAreStored | onion-sentinel-dashboard/cti_program_validation.py:165-239 | so is a record, exactly when it has the members of its table, each in stored form |
| CtiForms.IntelligenceIsStored | onion-sentinel-dashboard/cti_program_lifecycle.py:250-314 | and an intelligence record with its evidence and entities |
| CtiForms.ItemsAreStored | onion-sentinel-dashboard/cti_program_lifecycle.py:125-314 | and an item, exactly when its states, times and handling levels are consistent too |
| CtiForms.CollectionsAreStored | onion-sentinel-dashboard/cti_program_validation.py:271-308 | and a collection, exactly when it is not too long, all items are stored, and no identifier and no name occurs twice |
| CtiForms.FixedExactlyWhenWellFormed | onion-sentinel-dashboard/cti_program_lifecycle.py:332-408 | contents are a fixed point of normalisation exactly when they are well formed with every reference met |
| CtiForms.LoadsExactlyWhenWellFormed | onion-sentinel-dashboard/cti_program_validation.py:311-334 | a document loads as itself exactly when its contents are well formed, its time text proper and its at most a hundred history entries in stored form |
| CtiAudit.ChangesMean | onion-sentinel-dashboard/cti_program_audit.py:35-49 | a change is listed exactly when the identifier was removed, added, or kept with another item digest |
| CtiAudit.SummaryHasNoRepeats | onion-sentinel-dashboard/cti_program_audit.py:35-49 | no change is listed twice |
| CtiAudit.EmptySummaryMeansSameRecords | onion-sentinel-dashboard/cti_program_audit.py:35-49 | with no change listed every old record is still there, or two records share an item digest |
| CtiAudit.RenderedIsInjective | onion-sentinel-dashboard/cti_program_audit.py:42-48 | distinct changes have distinct texts |
| CtiAudit.AppendChanges | onion-sentinel-dashboard/cti_program_audit.py:42-48 | one loop appends the texts of its identifiers' changes |
| CtiAudit.ChangeSummary | onion-sentinel-dashboard/cti_program_audit.py:35-49 | the loops produce that list |
| CtiAudit.ChangesReadBack | onion-sentinel-dashboard/cti_program_lifecycle.py:474-495 | the stored change list reads back whole exactly when it has at most a hundred entries |
| CtiAudit.EventReadsBack | onion-sentinel-dashboard/cti_program_lifecycle.py:474-503 | the stored event reads back as itself exactly under the same condition |
| CtiStore.CandidateShape | onion-sentinel-dashboard/cti_program_store.py:89-117 | a candidate has the next revision, normal contents, and the last hundred events ending with its own |
| CtiStore.CandidateCollections | onion-sentinel-dashboard/cti_program_store.py:94-108 | each of the four collections of a candidate is what the request gives for it, normalised, or its default |
| CtiStore.SubmittedIsSaved | onion-sentinel-dashboard/cti_program_store.py:129-140 | a request for the revision in force with a well-formed workspace is saved if it fits and can be written, and the file then holds exactly its records at the next revision |
| CtiAcceptance.FieldsAreTaken | onion-sentinel-dashboard/cti_program_validation.py:12-108 | a field is accepted exactly when its text without the blanks around it, or its list of such texts, is in the stored form, and it stores that text, that list without repeats, the same instant, a generated identifier for an empty one, or the value |
| CtiAcceptance.RecordsAreTaken | onion-sentinel-dashboard/cti_program_validation.py:165-239 | a record is accepted exactly when it has no other member than its table's and all are acceptable, a missing one counting as its fallback |
| CtiAcceptance.IntelligenceIsTaken | onion-sentinel-dashboard/cti_program_lifecycle.py:250-314 | so is an intelligence record, with at most fifty pieces of evidence and a hundred entities |
| CtiAcceptance.CollectionsAreTaken | onion-sentinel-dashboard/cti_program_validation.py:271-308 | a list is accepted as a collection of records exactly when they are what its items give and are in stored form together |
| CtiAcceptance.CandidatesAreTaken | onion-sentinel-dashboard/cti_program_store.py:89-117 | a save's candidate has these contents exactly when they are what the request gives, or keeps where it is silent, and they are well formed |
| CtiAcceptance.RejectedExactly | onion-sentinel-dashboard/cti_program_store.py:129-140 | a request for the revision in force is rejected exactly when no well-formed workspace is what it gives, and otherwise that one is saved if it fits and can be written |
| CtiStore.SavedLoadsBack | onion-sentinel-dashboard/cti_program_store.py:42-140 | a saved workspace loads back equal exactly when its newest event has at most a hundred changes and its text with the line feed fits; otherwise it does not load |
| CtiStore.LimitSizedDocumentDoesNotLoadBack | onion-sentinel-dashboard/cti_program_store.py:120-126 | a document whose text is exactly at the limit is saved and then refused |
| CtiStore.OmittingManyTechnologiesDoesNotLoadBack | onion-sentinel-dashboard/cti_program_store.py:89-117 | any accepted request that does not mention more than a hundred stored technologies leaves a document that does not load |
| CtiStore.OmittedTechnologiesAreEmptied | onion-sentinel-dashboard/cti_program_store.py:94-108 | any request that does not mention the technologies, or the sources, empties them |
| CtiStore.OmittedLifecycleIsKept | onion-sentinel-dashboard/cti_program_store.py:99-108 | requirements and intelligence a request does not mention stay exactly as they are |
| CtiStore.ProgramStore.LoadProgram | onion-sentinel-dashboard/cti_program_store.py:42-59 | the default without a file, else the normalised document or an error |
| CtiStore.ProgramStore.BuildCandidate | onion-sentinel-dashboard/cti_program_store.py:89-117 | the candidate filled in step by step is the specified one |
| CtiStore.ProgramStore.SaveProgram | onion-sentinel-dashboard/cti_program_store.py:129-140 | outcome and file after a save, in terms of the file before |
| CtiRuns.EveryRunIsChained | onion-sentinel-dashboard/cti_program_store.py:129-140 | in every run the successes have revisions 1, 2, 3, ..., the file holds the last, and its history is the last min(n,100) consecutive events linked by digest and ending at the contents' digest |
| CtiRuns.InvAfterSave | onion-sentinel-dashboard/cti_program_audit.py:52-70 | one save keeps that invariant, whatever fails |
| CtiRuns.SuccessNeedsCurrentRevision | onion-sentinel-dashboard/cti_program_store.py:133-137 | a save succeeds only for the revision in force |
| CtiRuns.OneSuccessPerRevision | onion-sentinel-dashboard/cti_program_store.py:129-140 | at most one save succeeds per revision |
| CtiRuns.UnreadableFileStays | onion-sentinel-dashboard/cti_program_store.py:129-140 | a file that does not load is never changed by a save |
| CtiRuns.LoadedIsSound | onion-sentinel-dashboard/cti_program_validation.py:125-334 | a workspace that loads is well formed, with no dangling reference |
| CtiRuns.EverySavedDocumentIsSound | onion-sentinel-dashboard/cti_program_store.py:89-140 | so has every document any run saves |
| CtiRuns.NormalIsLinked | onion-sentinel-dashboard/cti_program_lifecycle.py:332-408 | in a well-formed workspace every reference from intelligence, evidence and entities resolves to a stored record |
| CtiFailures.LimitSizedSave | onion-sentinel-dashboard/cti_program_store.py:120-126 | where every text is exactly at the limit, a request that only names the revision is saved and the file it leaves does not load |
| CtiFailures.ManyChangesSave | onion-sentinel-dashboard/cti_program_store.py:89-117 | over a workspace of 101 technologies the same request is saved and the file it leaves does not load |
| AiRoutes.ParsePrint | onion-sentinel-dashboard/portal_ai_model_policy.py:304-310 | parsing a printed harness route gives the route back |
| AiRoutes.PrintParse | onion-sentinel-dashboard/portal_ai_model_policy.py:304-310 | printing a parsed route gives the text back |
| AiRoutes.RSplit | onion-sentinel-dashboard/portal_ai_model_policy.py:304-310 | splits at the last colon, and gives nothing exactly when there is none |
| AiRoutes.FirstRouteIsFirst | onion-sentinel-dashboard/portal_ai_model_policy.py:273-277 | the route chosen is the first one with the prefix, and the fallback exactly when none has it |
| AiRoutes.IdentityIsWhatRuns | onion-sentinel-dashboard/portal_ai_model_policy.py:313-348 | identity tells enabled routes apart exactly by the model they run, never by effort or aliasing harness |
| AiRoutes.CliRouteIdentity | onion-sentinel-dashboard/portal_ai_model_policy.py:313-348 | Codex and Hermes routes share the hosted model's identity, OpenClaw routes the local Ollama model's |
| AiRoutes.OllamaRouteIdentity | onion-sentinel-dashboard/portal_ai_model_policy.py:340-348 | an Ollama route's identity is its lower-cased model |
| AiRoutes.EnabledIsCanonical | onion-sentinel-dashboard/portal_ai_model_policy.py:292-301 | an enabled route without blanks at its ends is its own canonical form |
| AiSettings.NormalizedModelList | onion-sentinel-dashboard/portal_ai_model_policy.py:121-131 | the roster loop keeps the first printable occurrence of each of the first 32 names |
| AiSettings.SettingsDraft.ApplyProviderSettings | onion-sentinel-dashboard/portal_ai_settings_normalizer.py:203-231 | the settings after the provider phase, rewritten in place |
| AiSettings.SettingsDraft.ApplyAgentAssignments | onion-sentinel-dashboard/portal_ai_settings_normalizer.py:234-253 | the settings after the assignments, or the raise |
| AiSettings.SettingsDraft.Finish | onion-sentinel-dashboard/portal_ai_settings_normalizer.py:256-316 | the settings after thresholds, rounding, path checks and cuts, or the validation error |
| AiSettings.NormalizeSettings | onion-sentinel-dashboard/portal_ai_settings_normalizer.py:319-345 | the phases in order compute the specified outcome |
| AiSettings.ProvidedHasRoutes | onion-sentinel-dashboard/portal_ai_settings_normalizer.py:195-200 | past the provider check there is a route to fall back on |
| AiNormal.AcceptedIsNormal | onion-sentinel-dashboard/portal_ai_settings_normalizer.py:319-345 | accepted settings have distinct bounded names, a full catalog, derived mode and compatibility values, valid providers, thresholds and paths |
| AiNormal.AssignmentsAreIndependent | onion-sentinel-dashboard/portal_ai_model_policy.py:351-400 | for every accepted payload and role the primary is enabled and the non-empty routes run pairwise different models |
| AiAgents.ModeMeans | onion-sentinel-dashboard/portal_ai_model_policy.py:149-155 | the mode of accepted settings says exactly whether their routes run local models, hosted models or both |
| AiPayload.AcceptedHarnesses | onion-sentinel-dashboard/portal_ai_settings_normalizer.py:133-151 | Hermes and OpenClaw are enabled exactly by their flags, with path, model and effort as given or their defaults |
| AiPayload.AcceptedModels | onion-sentinel-dashboard/portal_ai_settings_normalizer.py:60-83 | the local models are exactly the usable names among the first 32 given, or the old single one outside cloud mode |
| AiPayload.AcceptedRoster | onion-sentinel-dashboard/portal_ai_model_policy.py:196-245 | each model of the Codex catalog has the row an item gives for it, or else a disabled one |
| AiPayload.RosterFrom | onion-sentinel-dashboard/portal_ai_settings_normalizer.py:86-130 | the items are those given, or the one of the old settings; the path as given |
| AiPayload.AcceptedSeverities | onion-sentinel-dashboard/portal_ai_settings_normalizer.py:256-269 | the severities as given, lower-cased, with "info" read as informational, or the defaults |
| AiPayload.AcceptedPolicy | onion-sentinel-dashboard/portal_ai_settings_normalizer.py:272-299 | the loss threshold is the four-decimal number nearest to the one given; the database paths as given |
| AiAcceptance.AcceptedExactly | onion-sentinel-dashboard/portal_ai_settings_normalizer.py:319-345 | a payload is accepted exactly when its provider members, its thresholds and its paths are in order, said of the payload itself, and no route raises; a route raises only where the providers are in order |
| AiNormal.ShortLoopback | onion-sentinel-dashboard/portal_ai_settings_normalizer.py:176-183 | cutting the URL keeps the loopback check valid |
| AiNormal.Round4IsRound | onion-sentinel-dashboard/portal_ai_settings_normalizer.py:272-281 | rounding to four decimals is idempotent and stays in range |
| AiFixed.ProvidedOfStored | onion-sentinel-dashboard/portal_ai_settings_normalizer.py:39-231 | the provider phases read stored settings back unchanged |
| AiFixed.SettledIsFixed | onion-sentinel-dashboard/portal_ai_settings_normalizer.py:319-345 | normal settings without blanks at the ends normalise to themselves |
| AiFixed.AcceptedTexts | onion-sentinel-dashboard/portal_ai_settings_normalizer.py:65-83 | the names and the URL of accepted settings are the payload's, cut at 240 characters |
| AiFixed.FixedExactlyWhenSettled | onion-sentinel-dashboard/portal_ai_settings_normalizer.py:319-345 | accepted settings are a fixed point exactly when no name and no URL was cut just after a blank |
| AiFixed.FittingIsFixed | onion-sentinel-dashboard/portal_ai_settings_normalizer.py:302-345 | for every accepted payload whose names and URL fit 240 characters normalisation is idempotent |
| AiForms.StoredExactlyWhenProper | onion-sentinel-dashboard/portal_ai_settings_normalizer.py:319-345 | settings are stored and read back unchanged exactly when they are in a stored form defined without the normaliser, with every role independently assigned |
| AiStore.AgentSaveStoresExactly | onion-sentinel-dashboard/portal_ai_settings_store.py:183-223 | past the checks a per-agent save stores exactly the three routes and changes nothing else, exactly when the current settings are a fixed point |
| AiAgents.RoleNamedExactly | onion-sentinel-dashboard/portal_ai_settings_store.py:116-130 | a text names the role of that name and no other |
| AiAgents.AgentSaveOfRoutes | onion-sentinel-dashboard/portal_ai_settings_store.py:183-223 | a per-agent save of enabled routes on a settled file stores exactly these routes for exactly this role if they run different models, and refuses otherwise |
| AiRoster.RosterSaveKeepsEnabledRoles | onion-sentinel-dashboard/portal_ai_settings_store.py:92-113 | a role whose routes stay enabled keeps all three assignments exactly when its optional routes end in no blank, and its primary either ends in none or is the first enabled route while its trimmed text is not itself enabled |
| AiRoster.RosterSaveMovesPrimary | onion-sentinel-dashboard/portal_ai_model_policy.py:280-301 | for every role, whatever happens to its other routes: the primary stays if its route stays enabled, else moves to the same Codex model's new effort, the same harness's route, or the first enabled route |
| AiRoster.RosterSaveReassigns | onion-sentinel-dashboard/portal_ai_settings_store.py:92-113 | for every role all three assignments after a roster save: the primary moves to its heir, an optional route is kept or moved if it is enabled and runs a model the earlier ones do not, and is cleared otherwise |
| AiRoster.EveryRoleIsNamed | onion-sentinel-dashboard/portal_ai_model_policy.py:351-400 | so it covers every role of accepted settings: its texts are those of enabled routes, optional ones possibly empty |
| AiRoster.PrefixIsSuccession | onion-sentinel-dashboard/portal_ai_model_policy.py:280-301 | the migration's prefix test finds exactly the same Codex model or the same other harness |
| AiRoster.CanonicalOfDisabled | onion-sentinel-dashboard/portal_ai_model_policy.py:280-301 | the canonical form of a disabled route is its heir's text, or itself |
| AiFailures.RaisesExactlyOnMalformedRoutes | onion-sentinel-dashboard/portal_ai_model_policy.py:304-400 | past the provider phase normalisation raises exactly when a reviewer or adjudicator route, in canonical form, has a harness prefix and text without a colon |
| AiFailures.MissingEffortRaises | onion-sentinel-dashboard/portal_ai_model_policy.py:304-316 | normalisation raises on a concrete payload whose reviewer route has no effort |
| AiFailures.CutNameIsNotFixed | onion-sentinel-dashboard/portal_ai_model_policy.py:121-131 | a concrete payload is accepted with a name cut just after a blank, and its settings do not normalise to themselves |
| AiStore.SettingsStore.SaveSettings | onion-sentinel-dashboard/portal_ai_settings_store.py:92-113 | outcome and file after a roster save |
| AiStore.SettingsStore.SaveAgentModel | onion-sentinel-dashboard/portal_ai_settings_store.py:183-223 | outcome and file after a per-agent save |
| AiStore.SettingsStore.WriteSettings | onion-sentinel-dashboard/portal_ai_settings_store.py:74-89 | the file becomes the document, or stays when the write fails |
| DhcpIndex.IdentifierIndexes | onion-sentinel-dashboard/portal_asset_dhcp_overlay.py:195-225 | every lookup in the overlay's index is the plain scan of the assets, and each id is described by its last asset |
| DhcpIndex.InventoryIndex | onion-sentinel-dashboard/portal_dhcp_discovery.py:78-95 | the same of discovery's index |
| DhcpIndex.AddValues | onion-sentinel-dashboard/portal_asset_dhcp_overlay.py:222-225 | the loop over one member's values adds exactly their non-empty identifiers |
| DhcpIndex.CurrentPublicAsset | onion-sentinel-dashboard/portal_dhcp_discovery.py:98-106 | an asset counts exactly when it is an object, current, and has an id |
| DhcpIndex.AddIdentifiers | onion-sentinel-dashboard/portal_asset_dhcp_overlay.py:215-225 | indexing one asset adds its identifiers and nothing else |
| DhcpMeaning.AssetLifetime | onion-sentinel-dashboard/portal_asset_inventory_service.py:14-34 | an asset is current exactly from its start to just before its end, and never if its times cannot be read |
| DhcpReconcile.IndexesAgree | onion-sentinel-dashboard/portal_dhcp_discovery.py:70-95 | the overlay's lookup is discovery's plus the assets with bare identifiers, so they agree exactly when those add nothing |
| DhcpReconcile.ReconcilersAgreeExactly | onion-sentinel-dashboard/portal_asset_dhcp_overlay.py:278-295 | that correspondence of verdicts holds exactly when what the bare identifiers add is harmless: a case distinction on discovery's matches and the added ones |
| DhcpReconcile.ReconcilersAgree | onion-sentinel-dashboard/portal_asset_dhcp_overlay.py:278-295 | where identifiers are kept in lists an observation overlays an asset exactly when discovery verifies it by a stable identity there, and is provisional exactly when it is a candidate with an id |
| DhcpReconcile.ListsAreReadAlike | onion-sentinel-dashboard/portal_dhcp_discovery.py:70-75 | identifiers kept in lists are read alike by both passes |
| DhcpReconcile.SameHostnameMatches | onion-sentinel-dashboard/portal_asset_dhcp_overlay.py:66-88 | an observation carrying a hostname a current asset lists matches that asset in either pass |
| DhcpReconcile.SameMacMatches | onion-sentinel-dashboard/portal_asset_dhcp_overlay.py:66-88 | so does one carrying a listed MAC whose text does not end in a dot |
| DhcpReconcile.BareHostnameSplitsTheReconcilers | onion-sentinel-dashboard/portal_asset_dhcp_overlay.py:220-225 | a current asset whose hostname is given as bare text makes them disagree |
| DhcpReconcile.IndexCovers | onion-sentinel-dashboard/portal_dhcp_discovery.py:156-165 | every id a lookup returns is described, so no lookup of the asset fails |
| DhcpViews.OverlayBoard.Apply | onion-sentinel-dashboard/portal_asset_dhcp_overlay.py:278-295 | an observation replaces what its asset or discovered client held, or nothing changes |
| DhcpViews.DhcpAssetInventoryOverlay | onion-sentinel-dashboard/portal_asset_dhcp_overlay.py:298-319 | each filled place holds an observation with the greatest (last_seen text, discovery_id) among those landing there; nothing on a state error |
| DhcpMeaning.StaleIsNotFresh | onion-sentinel-dashboard/portal_asset_dhcp_overlay.py:91-98 | stale is exactly unseen for over twenty-four hours without a running lease; a new observation is fresh, a stale one stays stale |
| DhcpMeaning.BoardMeans | onion-sentinel-dashboard/portal_asset_dhcp_overlay.py:278-319 | a place is filled exactly by fresh observations that identify its asset, or match nothing, said of the assets themselves, and holds the greatest of them |
| DhcpViews.SurvivorsIgnoreInputOrder | onion-sentinel-dashboard/portal_asset_dhcp_overlay.py:311-318 | with distinct keys the survivors do not depend on the input order |
| DhcpViews.Records | onion-sentinel-dashboard/portal_dhcp_discovery.py:254-276 | one record per usable observation, ordered by rank, staleness and time, with exact and conserved counts |
| DhcpMeaning.ReconciliationMeans | onion-sentinel-dashboard/portal_dhcp_discovery.py:156-192 | candidate exactly where no asset has anything of the observation, conflict where several do, match by hostname or MAC, and by address alone a conflict exactly if both name a hostname |
| DhcpMeaning.PublishedMeans | onion-sentinel-dashboard/portal_dhcp_discovery.py:228-251 | a record is stale exactly if its observation is, and its address new exactly if the asset does not list it |
| DhcpViews.EveryRecordCountedOnce | onion-sentinel-dashboard/portal_dhcp_discovery.py:263-271 | each record is counted under exactly one reconciliation |
| DhcpViews.ViewsAgree | onion-sentinel-dashboard/portal_dhcp_discovery.py:254-276 | with list identifiers the board overlays exactly the assets, and shows exactly the clients, that discovery's fresh records say |
| DhcpViews.SelectMac | onion-sentinel-dashboard/portal_asset_dhcp_overlay.py:150-158 | the one MAC of the evidence considered, at its newest, or the ambiguity flag exactly when there are several; stale evidence only without fresh |

## Left out

- Error messages, and which of several errors is reported: a rejection is one value.
- File metadata, ownership, permissions, no-follow opens and fsync: a commit replaces the file or leaves it, except that an audit append may fail after the replacement.
- The redaction patterns and lossy decoding of log text: they are the parameter `present` of the log pages.
- Resolution of log members and families (application_log_content.py:31-67) and `content_response`'s clamps: a page's line limit is at least one, as the clamp makes it.
- Corrupt gzip members, which the source answers with status 422.
- The JSONL index's branches for operating-system errors and its `tail` helper.
- JsonlIndex.CountAfterAnyHistory: supposes that each reading continues what was counted, because the code counts other histories wrong (UnobservedRegrowthMiscounts); HistoryCountsExactly gives the exact condition over all histories.
- AuditChain.HeadFixesChain: is stated without assuming an injective MAC, as "the same chain or a broken MAC".
- Timestamps of audit events are an accepted set of texts; the two-space separator that now_iso_utc prints is not modelled.
- A role or permission of an unhashable type, and a digest with characters outside ASCII, raise in the source; they are invalid events here.
- Sessions, login throttling, cookies and the loading of keys around the access gate.
- Values.Lower: acts on each character, so the final-sigma rule of Python's lower() is not modelled.
- Floating point: numbers are reals; rounding to four decimals is exact, ties to even.
- CtiRuns.EveryRunIsChained: the in-process lock is what serialises saves; two processes on one file are not modelled.
- The default CTI workspace is a parameter that loads as itself with revision 0 and no history; its texts are not copied.
- Overflow while converting a timestamp to UTC, project_investigation_context, freshness and the audit metrics of the CTI workspace.
- The scope, display fields and hostnames list of DHCP records and overlays beyond what decides them; the order in which discovered clients are listed.
- Inventory shapes on which a DHCP pass raises: an `assets` member that cannot be iterated, an identifier member that is a number or true, an expiry without an offset.
- Readiness of CLI harnesses and GeoIP status are parameters or absent from the AI settings store.
- Administration action locks, artifact caches, AC Hunter scoring, HTML, network clients and runtime wiring.
