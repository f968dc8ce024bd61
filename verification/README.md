# A verified model of pg-proto

pg-proto speaks the PostgreSQL frontend/backend protocol as a proxy. This project models the parts of
it that decide something, and proves what they promise over every input and every run.

- **The pipeline ledger.** `Ledger.dfy` states every ledger operation as a function from one ledger to
  the next. `Pipeline.dfy` is the class that updates its fields in place, with the source's loops, and is
  proved to compute those functions. `ServerGrammar.dfy` is the server's transition table, from which all
  legality comes. `GrammarTable.dfy`, `LedgerSteps.dfy` and `Verdicts.dfy` say message by message and
  position by position what tables, admissions, emissions and verdicts are. `Shape.dfy`, `Histories.dfy` and
  `CalmLedgers.dfy` hold the invariants.
- **What pipelining means.** Whole runs are turned into legal sequential sessions (`Linearisation.dfy`),
  the request state is shown to predict the sequential server (`Projection.dfy`), and the order in which
  the two directions are served is shown not to matter (`Confluence.dfy`). `AnswerRuns.dfy` carries whole
  answers, with any number of rows or COPY OUT data, through to their completion.
- **COPY and local errors.** `CopyRuns.dfy` follows COPY for every number of data messages, including the
  two places where the code leaves a projection behind. `LocalErrors.dfy` follows a local error from the
  moment it is parked to the moment it goes out.
- **The driver.** `Batches.dfy`, `HeldSpans.dfy`, `BackendHold.dfy`, `LocalResponses.dfy` and
  `Connection.dfy` model attribution, replacement of held responses, the bounded hold and the forwarding loop. Middleware
  decisions and received messages are inputs, and a transport may fail at any write. Every call the driver
  makes is recorded and is one of four actions (`Driver.dfy`), so the results about ledger runs and about
  the delivery of local responses (`LocalDelivery.dfy`) hold for the driver.
- **Two parties.** `ClientGrammar.dfy` and `TwoParty.dfy` compose both transition tables over two
  unbounded channels.
- **Supporting parts.** Statement and portal tokens (`Resources.dfy`), the wire codec (`Wire.dfy`,
  `FrontendCodec.dfy`, `BackendCodec.dfy`, `Framing.dfy`, `Startup.dfy`) and the asynchronous-message
  demultiplexer (`Demux.dfy`).

Names used below. A ledger is *quiet* when no COPY IN or COPY BOTH was entered; a run is *calm* when in
addition no local error was parked. An operation is *inert* when it gets no response of its own. Counters
saturate at 2^64 - 1 as in the source, and results about identities ask that they have not.

Where the code does less than its own description suggests, the model follows the code:

- A simple-query COPY IN leaves the request state inside a batch (CopyDone) or in the error state
  (CopyFail), so the next Query is refused or silently dropped.
- A COPY BOTH leaves its request state behind, however it ends, until a response starts a COPY IN or
  makes the client be skipped to its next Sync. When the ledger drains before that, COPY data reaches an
  `unreachable!` and nothing is ever accepted again.
- A local error that waits should discard what follows up to the next Sync. It no longer does once a
  response puts the head into COPY IN or COPY BOTH, or once the end of COPY IN data forgives that Sync.
- A CopyFail is recorded as a discard and not forwarded.
- When the final Sync of an extended COPY IN meets a ledger of exactly the limit, it is refused.
- An earlier error that discards a local operation leaves that operation's responses at the front of the
  queue. When another local operation becomes the head behind them, it is never answered and the
  connection delivers nothing but asynchronous messages from then on.
- Names and live resources stop corresponding when the unnamed resource is replaced under another client
  name, or the unnamed client name moved to another resource.
- A SASL offer with a nameless mechanism, a startup packet with a nameless parameter and a startup packet
  with version 1234.5678 do not survive encoding and decoding.
- A response behind a held one is shown the operation it will go out for only if that operation takes it
  already. COPY OUT data behind a held CopyOutResponse is shown none.
- Middleware that makes a ReadyForQuery out of a row while an earlier row is held ends the query for the
  client, and the held row can never be released.
- Preparing for teardown releases the held span but not a pending source.

## Model

| member | source | states |
|---|---|---|
| Shape.CompletionAgreesWithGrammar | src/pipeline.rs:1380-1403 | For every head and fitting response, `response_is_terminal` holds exactly when the generated transition comes to rest in Ready, Building or ExtendedError; Ready exactly for ReadyForQuery, ExtendedError exactly for a terminal error |
| GrammarTables.ResponsesExactly | src/grammar.rs:365-635 | For every response, exactly the phases that take it and where each goes; every other phase refuses it |
| GrammarTables.RequestsExactly | src/grammar.rs:365-635 | The same for every client message |
| GrammarTables.ClientTakesExactly | src/grammar.rs:33-160 | For every response, exactly the phases of the client's table that take it and where each goes |
| GrammarTables.ClientSendsExactly | src/grammar.rs:33-160 | For every client message, exactly the phases in which the client may send it and where each goes |
| GrammarTables.ClientDecidesExactly | src/grammar.rs:33-160 | The same for the client's silent moves |
| LedgerSteps.AdmissionsExactly | src/pipeline.rs:762-846 | On every ledger: a client message meets the limit, is illegal, aborts or is admitted if and only if stated by message and request state; an admission gives request state, id, action and immediacy, moves the head's phase, gives up the newest awaited Sync at the end of COPY IN, records the message and drops what waits for nothing at the front |
| LedgerSteps.EmissionsExactly | src/pipeline.rs:1181-1263 | On every ledger: an asynchronous message changes nothing; any other emitted response ends the head or moves its phase, by response and kind, follows COPY on both sides, and a fatal error discards exactly what is recorded up to the next Sync |
| LedgerSteps.DeferralsExactly | src/pipeline.rs:1139-1179 | On every ledger: a deferred response changes nothing, except that the error of a local extended operation discards exactly what is recorded behind it up to the next Sync and, without one, skips the client |
| LedgerSteps.TrimmedOnce | src/pipeline.rs:1248-1263 | What is left of the operations after dropping those that wait for nothing at the front is determined |
| Verdicts.VerdictsExactly | src/pipeline.rs:1094-1137 | On every ledger, for each of the four verdicts, if and only if: asynchronous, emitted, deferred or refused, with the search behind the head as a quantifier |
| Verdicts.RefusalIsHarmless | src/pipeline.rs:1139-1152 | The action is refused or deferred exactly then; a refusal changes nothing, and neither does a deferral unless a local error is deferred |
| Verdicts.AttributionExactly | src/pipeline.rs:588-601 | On every ledger, if and only if: a message is attributed to the first live forwarded operation that takes it, and to nothing when it is asynchronous or no operation does |
| Verdicts.UnfitLocalIsDropped | src/intermediary_component.rs:1771-1791 | A local response its own head and everything behind refuse is dropped from the queue with an error |
| AnswerRuns.AnswersComplete | src/pipeline.rs:1181-1263 | Behind any queue, a forwarded head is answered message by message by any number of rows, results, descriptions or COPY OUT data and their end, for every kind, and is complete exactly at the end |
| AnswerRuns.SessionCompletes | src/pipeline.rs:713-1263 | Whatever requests an idle ledger accepts one behind the other, and whatever such answers the server gives in turn, every message is emitted when it comes and nothing is left outstanding |
| Shape.FrontendKeepsShape | src/pipeline.rs:789-846 | Every admitted client message keeps the head live and in a phase of its own kind, everything behind it fresh, and COPY IN projected only while its operation copies in at the head |
| Shape.ResponseKeepsShape | src/pipeline.rs:1139-1231 | Every response, emitted, deferred or refused, keeps the same invariant |
| Shape.AbortsExactlyAfterStaleCopyBoth | src/pipeline.rs:1322-1338 | In every ledger of that shape the `unreachable!` in `frontend_phase` is reached exactly when COPY BOTH outlived its operation and the client sends COPY data or its end |
| Histories.RunsKeepInv | src/pipeline.rs:713-846 | Every run keeps shape, id window, kinds, emission order and the ReadyForQuery balance |
| Histories.EveryRunIsOrderedAndConserving | src/pipeline.rs:1181-1263 | After every run, COPY included: outstanding ids are the contiguous window ending at the next id, the head is neither inert nor discarded, emitted ids never decrease, and accepted Query/FunctionCall/Sync equal ReadyForQuery emitted plus outstanding plus dropped as discarded |
| CalmLedgers.AdmissionKeepsCalm | src/pipeline.rs:762-846 | In a calm ledger admission keeps the request state equal to the projection of the queue, and nothing discarded is ever queued |
| CalmLedgers.EmissionKeepsCalm | src/pipeline.rs:1181-1263 | So does every emission, error recovery included |
| Linearisation.LinearisationTheorem | src/pipeline.rs:1094-1264 | After every calm run, each accepted request that is not queued behind the head, placed directly before its own responses, gives a legal run of the sequential server from Ready, ending in the head's phase or, with nothing outstanding, in the image of the request state |
| Projection.ProjectionIsCorrect | src/pipeline.rs:1266-1320 | Whatever answers without an extended error complete the outstanding operations, the sequential server then stands in the image of the request state |
| Projection.PipelinedLegalityIsLockStep | src/pipeline.rs:762-787 | Behind any queue a message is admitted exactly when the sequential server would take it at the end of the completed session, it is no password, and the count limit leaves room |
| Projection.CompletionExists | src/pipeline.rs:1359-1374 | Every calm ledger has such a completion |
| Projection.ImmediateExactlyWhenServerListens | src/pipeline.rs:810-843 | An admission is immediate exactly when the sequential server would take the message now |
| Confluence.QuietRunsStayQuiet | src/pipeline.rs:766-773 | Every run that enters no COPY IN or COPY BOTH, parked local errors included, stays quiet, within the limit and away from the `unreachable!` |
| Confluence.QuietRunsReportTheirState | src/pipeline.rs:687-690 | In every quiet run the public state is COPY OUT exactly while the head copies out, and otherwise the image of the request state |
| Confluence.Diamond | src/intermediary_component.rs:1870-1893 | An admissible client message and an emittable response commute in every quiet ledger: each stays acceptable after the other and both orders leave the same ledger |
| Confluence.ActionsDifferExactlyWhenDoomed | src/pipeline.rs:813-838 | Only the forward-or-discard action can differ, and exactly for a forwarded message other than Sync racing an error that no outstanding Sync bounds, in a ledger not already skipping |
| Confluence.InterleavingsAgree | src/intermediary_component.rs:1870-1893 | Any two complete interleavings of the same client messages and responses leave the same ledger |
| CopyRuns.ExtendedCopyInDrains | src/pipeline.rs:795-832 | For every limit above one and every number of data messages, CopyDone or CopyFail, CommandComplete or ErrorResponse: verdict-then-Sync always, and Sync-then-verdict exactly when the ledger is not at the limit, leave one ReadyForQuery outstanding, and that message leaves the ledger idle |
| CopyRuns.LimitOneRefusesSync | src/pipeline.rs:766-773 | With a limit of one the Sync pipelined behind the Execute is already refused |
| CopyRuns.TakesEnd | src/pipeline.rs:797-809 | The end of the data is always taken, forgives the Sync pipelined behind the Execute, and only CopyDone is forwarded |
| CopyRuns.SimpleCopyInStrands | src/pipeline.rs:1313-1315 | Simple COPY IN ends with an empty ledger whose request state is not Ready, for every number of data messages |
| CopyRuns.StrandedQueries | src/pipeline.rs:1288-1320 | What is still forwarded then is exactly what may continue a batch (only Sync after CopyFail), although the server would take a Query |
| CopyRuns.CopyBothExits | src/pipeline.rs:1181-1246 | From request state CopyBoth, for every ledger of that shape and every step: it is left exactly by an emitted CopyInResponse (to CopyIn), or by an emitted terminal error or a parked local error with no Sync behind it (to the error state) |
| CopyRuns.CopyBothStays | src/pipeline.rs:1209-1227 | Over whole runs: without such a step it stays, whatever completes |
| CopyRuns.DrainedCopyBothIsForever | src/pipeline.rs:1316-1338 | A ledger that is empty in CopyBoth is unchanged by every run |
| CopyRuns.SkippedCopyBothTakesSync | src/pipeline.rs:1233-1246 | After the exit into the error state a Sync is taken and the client is Ready |
| CopyRuns.CopyBothStrands | src/pipeline.rs:1209-1227 | The empty ledger in CopyBoth is reached: a query that enters COPY BOTH and fails leaves it |
| CopyRuns.StrandedCopyBothIsDead | src/pipeline.rs:1316-1338 | From there COPY data and its end abort and every other message in either direction is refused |
| CopyRuns.RunsWithoutCopyBothNeverAbort | src/pipeline.rs:780-787 | In every run without a CopyBothResponse the `unreachable!` is unreachable |
| LocalErrors.ParkingDooms | src/pipeline.rs:1154-1179 | Deferring the error of a local extended operation at any position dooms what follows: everything accepted later when no Sync is behind it, and otherwise the span up to the first Sync exactly when that Sync was not forgiven |
| LocalErrors.DoomedAdmission | src/pipeline.rs:813-838 | Then every message is admitted as a discard, except that Sync is kept and closes the span |
| LocalErrors.DoomedAcceptsAll | src/pipeline.rs:762-787 | And nothing but a password or the count limit is refused |
| LocalErrors.StepKeepsDoom | src/pipeline.rs:1139-1263 | For every ledger, COPY included: a step that is not the operation's own emission keeps the doomed span exactly, closes it with an accepted Sync, or sees the operation go with an earlier error, if and only if it neither puts the head into COPY IN or COPY BOTH before that Sync nor is the end of COPY IN data that forgives that Sync |
| LocalErrors.QuietReprojects | src/pipeline.rs:1220-1224 | While the server speaks, the responses that do the former are exactly CopyInResponse and CopyBothResponse |
| LocalErrors.DoomLasts | src/pipeline.rs:1139-1263 | Over whole runs without such a step the span stays the doomed one, up to exactly the Sync accepted for it, or the operation is gone |
| LocalErrors.StepStaysGone | src/pipeline.rs:1181-1263 | What is discarded or dropped stays so through every step |
| LocalErrors.EmittedErrorClearsTheSpan | src/pipeline.rs:1233-1263 | When the error goes out the whole span is removed and the Sync, if accepted, is the head |
| LocalErrors.GoneNeverAnswers | src/pipeline.rs:1104-1112 | An operation discarded by an earlier error never answers: its responses are deferred while anything is outstanding and refused afterwards |
| LocalErrors.CopyReopens | src/pipeline.rs:1220-1224 | A response that puts any head into COPY IN or COPY BOTH ends the skipping: COPY data is forwarded again |
| LocalErrors.CopyEndForgivesKeptSync | src/pipeline.rs:797-809 | The end of COPY IN data discards the kept Sync when it is the newest live one, and the operation is still there |
| LocalDelivery.LocalHeadIsAnsweredExactly | src/intermediary_component.rs:1771-1791 | A local head is sent its first response that is not asynchronous, with the asynchronous messages in front of it, if and only if every queue entry before it, all of gone operations, holds only asynchronous messages; otherwise the drain changes no ledger and stops at such an entry |
| LocalDelivery.BlockedHeadIsStuck | src/intermediary_component.rs:1771-1791 | And then the driver is stuck |
| LocalDelivery.StuckForever | src/pipeline.rs:1094-1137 | From a stuck driver every run keeps the same head, and only asynchronous messages reach the client |
| LocalDelivery.StuckIsReached | src/intermediary_component.rs:1454-1471 | A batch whose second Parse is answered locally, then a query answered locally, gets there when the server rejects the first Parse |
| Drivers.DriverRunsTheLedger | src/intermediary_component.rs:1454-1791 | Whatever the driver does, its ledger is the one a run of ledger steps leaves |
| Drivers.RunsKeepOrder | src/intermediary_component.rs:1467-1470 | Local responses are queued in the order of their operations |
| Batches.AttributionAgrees | src/pipeline.rs:588-601 | A message that would be emitted is attributed to the head; an illegal or asynchronous one to nothing |
| Batches.SpanAttributionAgrees | src/pipeline.rs:604-617 | For every forwardable span the attributed ids are those of replaying it |
| HeldSpans.HeldAttributionExactly | src/intermediary_component.rs:1584-1602 | A source behind a held span that can be released is shown the operation it then goes out for if and only if that operation takes it already and no earlier one claims it |
| HeldSpans.HeldCopyOutIsUnattributed | src/intermediary_component.rs:1584-1602 | The case that fails: COPY OUT data behind a held CopyOutResponse is shown no operation |
| Batches.ReplacementIsForwarding | src/pipeline.rs:630-671 | An accepted one-to-one replacement leaves exactly the ledger that forwarding the sources leaves, next id and limit included |
| Batches.ReplacementAcceptedExactly | src/pipeline.rs:635-671 | A replacement is accepted exactly when lengths agree, every replacement can be encoded, and both spans go out and leave the same ledger |
| Batches.PayloadRewritesAreAccepted | src/pipeline.rs:643-671 | Rewriting payloads of a forwardable span, kind by kind and encodably, is always accepted |
| Batches.SequenceIds | src/pipeline.rs:726-760 | An admitted client sequence takes consecutive ids from the one announced |
| Batches.SequenceSnoc | src/pipeline.rs:736-750 | Preparing a sequence is admitting its messages one after the other, and a failure stays that failure |
| Pipelines.Pipeline.constructor | src/pipeline.rs:674-683 | A new pipeline is the empty ledger |
| Pipelines.Pipeline.BackendOperationId | src/pipeline.rs:588-601 | The search returns an id exactly when that is the first live forwarded operation the message fits, and none exactly when it is asynchronous or there is no such operation |
| Pipelines.Pipeline.BackendOperationIds | src/pipeline.rs:604-617 | The ids of a span against a private copy, which leaves the live ledger alone |
| Pipelines.Pipeline.AcceptFrontend | src/pipeline.rs:713-787 | Outcome and new ledger are those of the ledger function; a refusal changes nothing |
| Pipelines.Pipeline.CommitFrontend | src/pipeline.rs:789-846 | The committed ledger and admission, after forgiving a Sync, touching the head and dropping inert heads |
| Pipelines.Pipeline.RemoveInertHeads | src/pipeline.rs:1248-1263 | The loop removes exactly the inert prefix |
| Pipelines.Pipeline.PrepareResponse | src/pipeline.rs:1094-1137 | The verdict on a response, searches included, and the ledger for which exactly that verdict is right |
| Pipelines.Pipeline.EnterExtendedError | src/pipeline.rs:1233-1246 | Everything before the first Sync is discarded and, without one, the client is skipped |
| Pipelines.Pipeline.ProjectDeferredLocalError | src/pipeline.rs:1154-1179 | A parked error marks what follows its operation up to the next Sync |
| Pipelines.Pipeline.CommitResponse | src/pipeline.rs:1181-1231 | The ledger after an emitted response |
| Pipelines.Pipeline.AcceptResponse | src/pipeline.rs:1139-1152 | `accept_backend` and `try_emit_local`: action and new ledger; refused or deferred exactly when the ledger calls for it, and a refusal changes nothing |
| Pipelines.Pipeline.PrepareBackendReplacements | src/pipeline.rs:630-671 | The prepared ledger, or the first reason to decline, without touching the live one |
| Pipelines.Pipeline.PrepareFrontendSequence | src/pipeline.rs:726-750 | The prepared ledger and admissions, or the first refusal, without touching the live one |
| Pipelines.Pipeline.Become | src/pipeline.rs:753-760 | A prepared ledger becomes the live one in one update |
| TwoParty.TwoPartySafety | src/grammar.rs:33-137 | In every run without Reset, COPY BOTH, COPY from Execute or a badly opened batch, neither side meets an unexpected message, and until both have terminated such a move remains possible |
| TwoParty.OpenersAreExact | src/grammar.rs:388-398 | Whenever a batch is opened, exactly Parse, Bind, Describe or Close may open it |
| TwoParty.CopyFromExecuteIsUnexpected | src/grammar.rs:77-96 | A COPY response to Execute is exactly what the client cannot take there |
| TwoParty.EntersCopyBoth | src/grammar.rs:549-560 | COPY BOTH is entered by both sides |
| TwoParty.CopyBothGoesWrong | src/grammar.rs:549-560 | There a server error and its ReadyForQuery leave, at that moment, a server that finds something it cannot take exactly when client COPY messages were on the way, however many |
| TwoParty.CopyBothCanAlwaysGoWrong | src/grammar.rs:549-560 | Whatever was on the way, COPY data the client sends before it reads the error goes wrong as well |
| TwoParty.CopyBothErrorReadFirst | src/grammar.rs:549-560 | With nothing on the way, a client that reads the error first is back under the safety invariant |
| TwoParty.ResetIsStuck | src/grammar.rs:33-40 | Reset sends nothing of its own, so the pair is stuck whenever it happens |
| BackendHolds.RetainedIsWireSize | src/backend_hold.rs:58-62 | A held message is charged with tag, length and body of its frame, or nothing when it has none |
| BackendHolds.BackendHold.SetPending | src/backend_hold.rs:13-20 | Stores a source with its byte count; the caller proves that none is pending |
| BackendHolds.BackendHold.TakePending | src/backend_hold.rs:26-28 | Takes the pending source |
| BackendHolds.BackendHold.HoldPending | src/backend_hold.rs:30-34 | Appends the pending source and keeps the byte count equal to the saturated sum of all held messages |
| BackendHolds.BackendHold.Clear | src/backend_hold.rs:52-55 | Returns the held span in order and resets the count |
| LocalResponses.DrainKeepsOrder | src/intermediary_component.rs:1771-1791 | Draining local responses loses and reorders nothing, except that a refused response is dropped where it stood |
| Connections.RoomForOne | src/intermediary_component.rs:1643-1648 | A hold that is not full takes one more message within its bounds |
| Connections.BarriersExactly | src/intermediary_component.rs:14-32 | The barriers are exactly the ends of results and commands, errors, COPY boundaries and the asynchronous messages |
| Connections.SpanGoesFirst | src/intermediary_component.rs:1561-1582 | Whatever comes of a barrier behind a non-empty hold, in every driver call: what is written starts with the one-to-one replacements of the whole span, or is a beginning of them and the call failed |
| Connections.ReadyWaitsExactly | src/intermediary_component.rs:1561-1631 | A successful call emits a ReadyForQuery past held responses if and only if the source was a response inside a result; one that arrived as ReadyForQuery leaves nothing of the old hold |
| Connections.HeldRowIsOvertaken | src/intermediary_component.rs:1584-1631 | The input: a held RowDescription, and a DataRow replaced by ReadyForQuery; the query is over and the held response is refused from then on |
| Connections.Connection.EnsureRoom | src/intermediary_component.rs:1548-1556 | A release is asked for exactly when the count or the bytes of the held messages have reached their bound; policy that keeps a full hold is the capacity error |
| Connections.Connection.FlushLocalResponses | src/intermediary_component.rs:1771-1791 | The loop computes that drain and writes exactly what it sends; when a write fails, one message is lost and a later drain goes on behind it |
| Connections.Connection.FlushHold | src/intermediary_component.rs:1679-1730 | Releases exactly a span that policy replaces acceptably; every refusal leaves ledger, hold and local queue unchanged and names its reason; a release writes the replacements and leaves what forwarding the held span leaves, then drains local responses; a failure after that commit leaves exactly that ledger or a drain that resumes; middleware is shown the attribution of the span |
| Connections.Connection.PrepareBackendTeardown | src/intermediary_component.rs:1667-1677 | Success leaves nothing held, with the ledger and the writes of the release; a pending source stays |
| Connections.Connection.EmitBackend | src/intermediary_component.rs:1732-1769 | Projects a response; it is written exactly on success, and the failure says whether it was emitted, deferred or refused |
| Connections.Connection.EmitDecided | src/intermediary_component.rs:1604-1631 | Forward, suppress and expand: success leaves the ledger of emitting all of it, failure that of stopping at the first message that is deferred, refused or not written |
| Connections.Connection.ProcessPendingBackend | src/intermediary_component.rs:1584-1641 | The source stays pending exactly when middleware fails, expands to nothing or holds without limits, and then nothing has changed; success leaves ledger, local queue and writes of the decision followed by a drain, failure those up to where it stopped; held messages keep arrival order; middleware is shown the attributed operation |
| Connections.Connection.ProcessBackend | src/intermediary_component.rs:1561-1582 | By kind: a response inside a result leaves the hold alone; behind a non-empty hold any other kind writes the replacements of the whole span before anything of its own, and nothing at all when the span stays held; a ReadyForQuery goes past held responses exactly when middleware makes it out of a response inside a result; ledger, local queue, hold and writes of release and decision, and for a failure where it stopped; the single-source assertion cannot fire |
| Connections.Connection.ForwardBackend | src/intermediary_component.rs:1542-1559 | The retry of the pending source, or the release of a full hold followed by the received response, in ledger, local queue, hold and writes, success or failure; all bounds hold afterwards and the next id is unchanged |
| Connections.Connection.ForwardPrepared | src/intermediary_component.rs:1478-1528 | All or nothing: the whole sequence is committed with its primary under the id shown, or retained with nothing changed, or, when admission aborts, lost with nothing changed; what is written upstream is what the ledger forwards, in order |
| Connections.Connection.ProcessFrontend | src/intermediary_component.rs:1415-1476 | Middleware is shown the id the message then carries, forwarded, local or retained, with ledger, queue and the writes in both directions in each case; the `unreachable!` on local handling is unreachable |
| Connections.Connection.ForwardFrontend | src/intermediary_component.rs:1404-1413 | A retry commits under the id shown originally, however often it failed before; otherwise the next client message is handled, writes included |
| Connections.Connection.ForwardNext | src/intermediary_component.rs:1804-1894 | Keeps every bound and a retained sequence with its id; says which of the pending source, the full hold, the retained sequence, the server or the client was served, with the ledger, queue, hold and writes of that, and a committed sequence carries the id shown originally |
| Connections.DriverLedgerIsSound | src/intermediary_component.rs:1404-1894 | At every moment the driver's ledger is one a run of the ledger reaches, hence ordered, live at its head and conserving, and its local queue is in operation order |
| Connections.HoldIsBounded | src/intermediary_component.rs:1643-1648 | At every moment: nothing held without limits, never more messages than allowed, and fewer bytes than allowed plus those of the newest message |
| Connections.StuckDriversStayStuck | src/intermediary_component.rs:1404-1894 | A connection that once was stuck is stuck at every later moment |
| Resources.TokensNeverRevive | src/resources.rs:831-854 | A token that was allocated and is not live is not live after any events |
| Resources.DeadStaysDead | src/resources.rs:279-412 | Over whole runs: live, then not live, means never live again |
| Resources.LifeAfter | src/resources.rs:279-412 | What each successful event does to the liveness of every token, in both namespaces, exactly |
| Resources.NamesAfter | src/resources.rs:279-412 | What each successful event does to every client name, in both namespaces, exactly |
| Resources.SuccessExactly | src/resources.rs:297-412 | Each event succeeds if and only if its new names are unnamed or free and its token is the one its upstream name is live under; a failure changes nothing, and only insertions take a generation |
| Resources.DeadStatementsDoNotBind | src/resources.rs:334-345 | Binding a statement that is not live changes nothing |
| Resources.DeadStatementsNeverBind | src/resources.rs:334-371 | Over whole runs: once a statement was live and is not, no Bind or Close with its token ever changes the scope |
| Resources.NamesResolveToLive | src/resources.rs:440-460 | Resolving a client name to a named upstream resource yields a live token |
| Resources.NamesAreBijective | src/resources.rs:297-412 | If unnamed is rewritten only to unnamed, client names and live resources correspond one to one |
| Resources.OneToOneExactly | src/resources.rs:831-854 | Whatever the names, a call keeps the correspondence if and only if it fails, removes, or replaces the live unnamed resource only under the unnamed client name standing for it and moves the unnamed client name only within its resource |
| Resources.NamesCorrespondExactly | src/resources.rs:297-412 | Over whole runs the correspondence holds throughout if and only if every call is such |
| Resources.NamedToUnnamedGoesStale | src/resources.rs:306-322 | Two calls that break it: a named client statement on the unnamed upstream one goes stale |
| Resources.UnnamedToNamedIsLost | src/resources.rs:842-846 | And two others: the unnamed client name loses a live named resource |
| Resources.ResourceScope.Allocate | src/resources.rs:831-854 | The collision test decides before anything changes |
| Resources.ResourceScope.Prepare | src/resources.rs:297-327 | Succeeds exactly when neither name is in use or it is the unnamed one; token and new namespaces; the collision branch after the insertion is unreachable; failure changes nothing |
| Resources.ResourceScope.Bind | src/resources.rs:334-371 | The same for portals, and exactly on a live statement: any other token is an unknown statement and changes nothing |
| Resources.ResourceScope.CloseStatement | src/resources.rs:378-393 | Exactly a live statement closes, and all its client names go |
| Resources.ResourceScope.ClosePortal | src/resources.rs:400-412 | The same for portals |
| Resources.ResourceScope.SimpleQueryBoundary | src/resources.rs:279-283 | The unnamed statement and its client names go |
| Resources.ResourceScope.TransactionEnded | src/resources.rs:286-290 | The unnamed portal and its client names go |
| Wire.U32Inverse | src/codec.rs:1310-1313 | Big-endian 32-bit integers: decoding undoes encoding and restores every byte |
| Wire.TakesBigEndian | src/codec.rs:1310-1313 | The number read is the big-endian one of the first four bytes, and fewer are refused |
| Wire.I16Inverse | src/codec.rs:1305-1308 | The same for signed 16-bit integers in two's complement |
| Wire.I32Inverse | src/codec.rs:1315-1318 | The same for signed 32-bit integers |
| Wire.CstrUndoes | src/codec.rs:1252-1259 | A string without zero bytes is read back, whatever follows |
| Wire.CstrRestores | src/codec.rs:1290-1298 | What is read is free of zero bytes and re-encodes to the bytes taken |
| Wire.FindNul | src/codec.rs:1291-1294 | The search for the end of a string |
| Wire.ReadCstr | src/codec.rs:1290-1298 | The string decoder, by that search |
| Wire.NullableUndoes | src/codec.rs:1232-1243 | A nullable value that fits its length field is read back |
| Wire.NullableRestores | src/codec.rs:1214-1222 | What is read fits and re-encodes to the bytes taken |
| Wire.PreCheckIsFree | src/codec.rs:1193-1212 | The count check before a list rejects nothing the element loop would accept |
| Wire.ListUndoes | src/codec.rs:1224-1250 | A counted list is read back, the check included |
| Wire.ListRestores | src/codec.rs:1187-1191 | A list that is read re-encodes to the bytes taken |
| Wire.ReadMany | src/codec.rs:1189-1191 | The element loop of the decoders |
| Wire.ReadList | src/codec.rs:1187-1191 | The list decoder, by that loop |
| Wire.ListWritten | src/codec.rs:1224-1259 | A list can be written exactly when its count fits and each element can be |
| Wire.WriteMany | src/codec.rs:1224-1230 | The element loop of the encoders, which stops at the first element that cannot be written |
| FrontendCodec.ToFrameExactly | src/codec.rs:228-443 | Written part by part with fallible writers, a client message has a frame exactly when each of its parts can be represented, and the frame is their layout |
| FrontendCodec.ParseToFrame | src/codec.rs:272-285 | The Parse encoder, by the element loop |
| FrontendCodec.BindToFrame | src/codec.rs:309-332 | The Bind encoder, by the element loops |
| FrontendCodec.ReadParse | src/codec.rs:1008-1023 | The Parse decoder, by the search and the element loop |
| FrontendCodec.ReadBind | src/codec.rs:1025-1050 | The Bind decoder, by the search and the element loops |
| FrontendCodec.RoundTrips | src/codec.rs:448-466 | Every client message that has a frame decodes back to itself |
| FrontendCodec.DecodedRestores | src/codec.rs:1008-1166 | Every client frame that decodes re-encodes to the identical frame |
| BackendCodec.ToFrameExactly | src/codec.rs:679-890 | Written part by part with fallible writers, a backend message has a frame exactly when each of its parts can be represented, and the frame is their layout |
| BackendCodec.RoundTrips | src/codec.rs:838-910 | Every backend message that has a frame decodes back to itself, except exactly a SASL offer with a nameless mechanism, which does not decode |
| BackendCodec.DecodedRestores | src/codec.rs:912-1114 | Every backend frame that decodes re-encodes to the identical frame |
| BackendCodec.ReadDiagnostics | src/codec.rs:1077-1092 | The diagnostic loop |
| BackendCodec.ReadMechanisms | src/codec.rs:928-935 | The loop over offered SASL mechanisms |
| BackendCodec.ReadAuthentication | src/codec.rs:912-945 | The authentication decoder, kind by kind, with that loop for SASL |
| BackendCodec.ReadDiagnosticBody | src/codec.rs:1077-1092 | The diagnostic decoder, by its loop |
| Framing.FrameInverse | src/codec.rs:97-121 | An encoded frame within the limit is decoded, and the rest is left |
| Framing.CompleteRestores | src/codec.rs:123-161 | A decoded frame accounts for every byte consumed |
| Framing.DecodesExactly | src/codec.rs:123-161 | The decoder waits, refuses or yields a frame exactly by the big-endian length behind the tag, the limit and the bytes at hand |
| Framing.EncodesExactly | src/codec.rs:97-121 | A frame is written exactly when it fits the limit |
| Framing.ChunkingIsIrrelevant | src/codec.rs:123-161 | However the stream is cut into reads, frames, left-over bytes and errors are those of the whole stream |
| Framing.EncodedFramesArrive | src/codec.rs:97-161 | Encoded frames come out of every chunking, with nothing consumed of an incomplete one behind them |
| Framing.ClientMessagesArrive | src/codec.rs:83-92 | So client messages arrive as sent |
| Framing.BackendMessagesArrive | src/codec.rs:83-92 | And backend messages that round-trip |
| Framing.Decoder.Next | src/codec.rs:123-161 | Takes one frame off the buffer and leaves an incomplete or broken one in place |
| Framing.Decoder.Read | src/codec.rs:83-92 | One read yields the frames of buffer and read together |
| Startup.ReadParameters | src/startup.rs:58-73 | The parameter loop |
| Startup.ReadStartup | src/startup.rs:44-79 | The startup decoder, by that loop |
| Startup.EncodesExactly | src/startup.rs:22-36 | A startup message encodes exactly when no string of it holds a zero byte and its length fits, to its layout |
| Startup.StartupToPacket | src/startup.rs:22-36 | The startup encoder, by its parameter loop |
| Startup.StartupRoundTripsExactly | src/startup.rs:22-79 | An encoded startup message decodes back to itself exactly when no parameter is nameless, and otherwise not at all, in whatever order the parameters are written |
| Startup.StartupRestores | src/startup.rs:44-79 | Every accepted startup packet names each parameter once, none nameless, and is what its message encodes to |
| Startup.RequestBytes | src/pre_startup.rs:535-560 | The SSL, GSS and cancellation requests byte for byte; a cancellation needs a key of 4 to 256 bytes |
| Startup.PacketsExactly | src/pre_startup.rs:185-205 | By its bytes, which packet is taken for which request and which is left to the startup decoder |
| Startup.PreStartupExactly | src/pre_startup.rs:157-205 | When the decoder waits, refuses or yields, and what it leaves, exactly |
| Startup.PreStartupExtends | src/pre_startup.rs:157-205 | More bytes never change a decision or what is consumed |
| Startup.PreStartupChunking | src/pre_startup.rs:157-205 | However the first packet is cut into reads, the decision and the bytes left are those of the whole |
| Startup.PreStartupRoundTrips | src/pre_startup.rs:124-136 | Packets within the limit round-trip if and only if no startup parameter is nameless and the version is not 1234.5678 |
| Startup.CancelVersionIsMistaken | src/pre_startup.rs:187-204 | With that version a startup packet of 16 to 268 bytes is taken for a cancellation, with which process and key, and any other is refused |
| Startup.ReadPacket | src/pre_startup.rs:185-205 | The packet decoder, by the startup decoder |
| Startup.PreStartupBuffer.Next | src/pre_startup.rs:157-205 | Takes one packet off the buffer and consumes nothing of an incomplete one |
| Demuxing.LogIsSequenced | src/demux.rs:277-285 | The asynchronous log is strictly sequenced and command indices never go back |
| Demuxing.NoticesAreConserved | src/demux.rs:211-220 | Every notice is handed over exactly once, in order, with its own command, or belongs to the current one |
| Demuxing.Demux.Route | src/demux.rs:160-231 | All bookkeeping equals recomputation from the messages routed: `parameters_changed`, the baseline, the per-kind logs as filters of one log, and the notices of a completion |
| Demuxing.Demux.PopNotice | src/demux.rs:263-265 | Queues give out their logs in order |
| Demuxing.Demux.PopNotification | src/demux.rs:258-260 | The same for notifications |
| Demuxing.Demux.PopParameterStatus | src/demux.rs:268-270 | The same for parameter updates |
| Demuxing.Demux.PopAsyncEvent | src/demux.rs:273-275 | The same for the common log |

## Left out

- Sockets, TLS, timers, wake-ups and futures: received messages, middleware decisions and the choice of `select!` are inputs, and a write may fail anywhere.
- Typed middleware hooks and their prevalidated paths: middleware is an arbitrary choice of messages.
- Message interceptors of the two roles: a decision already holds the messages after interception.
- Transition identifiers and observation callbacks: they do not change the ledger.
- Linearisation.LinearisationTheorem: speaks about runs without COPY IN, COPY BOTH and parked local errors; COPY IN is covered by CopyRuns.ExtendedCopyInDrains and CopyRuns.SimpleCopyInStrands.
- TwoParty.TwoPartySafety: speaks about runs under four restrictions; the lemmas after it show what each excludes.
- Global order across a mix of held and plainly forwarded messages: a plain forward does not release held messages first.
- Decoder cursors and encoder buffers updated in place inside a message body: decoders and encoders work on values; those of Parse, Bind, authentication, diagnostics and startup are methods built from the source's loops, the others functions.
- `usize` and allocation: lengths are unbounded except where the source checks them, and the hold's byte count saturates at the 64-bit limit.
- The other four transition tables, authentication drivers, SCRAM, MD5, cancellation routing, cleanliness tracking and replication payloads: they would add easy members or rest on foreign primitives.
- The `ResourceConnection` typestate wrapper: it pairs the scope with a connection phase and adds no namespace behaviour.
