# RExecOp, modelled and proved in Dafny

RExecOp is an execution kernel: it takes one workflow step at a time, binds it to a compiled
execution spec, gets it admitted by governance, starts a durable attempt, calls a connector,
bounds what the connector returned and records how it ended. This project models that core and
the components around it whose behaviour is easy to state and hard to check by reading.

`dafny verify dfyconfig.toml` checks everything.

| files | what they model |
|---|---|
| `Values`, `Outcomes` | Python values with the conversions the runtime applies, and calls that may raise |
| `Protocol`, `StepProperties`, `RunProperties` | one step execution as a function of everything its handlers may do, what each call guarantees, what every run of calls guarantees |
| `Executor` | the executor class that mutates the shared state in place, proved equal to the protocol |
| `TypedSpec` | spec bindings and admission records in the shared state |
| `Capture`, `CaptureLoop` | what two streams under one ceiling leave behind, and the loop that drains them with its terminate, kill and cleanup phases |
| `Canonical`, `Envelope`, `Evidence`, `ShellOverflow` | canonical JSON text (RFC 8259), the evidence record that states its own length, the validator that rebuilds overflow reports, and the path from capture to step result |
| `Projection` | public projection of payload trees |
| `HttpInvoke` | retry and pagination loops |
| `YamlComposer` | the depth- and node-counting YAML loader |
| `JsonPatch`, `ActionConfig`, `ConfigureThenDiff` | the configure patch, its application (RFC 6901 and section 4.1 of RFC 6902) and the diff that follows |
| `PluginRegistry` | the strict plugin loader and its diagnostic mirror |
| `Governance` | egress narrowing and plugin postures |
| `Receipt`, `ReceiptBuild` | receipt serialisation, sealing and construction |
| `Lifecycle` | the operation state graph |

How the outside is modelled. Handlers, governance calls, the connector, the child process, the
clock and the HTTP server are adversaries: values that say, for each call, what comes back or
what is raised. Nothing is assumed of them unless a lemma says so. `Calm` says that no signal
(an exception the step boundary does not catch) arrives; `RespectsBindings` that extension
handlers do not rewrite spec bindings; `Physical` that the clock does not run backwards and
passes every instant, and that a read returns no more than it was asked for. Digests,
redaction, text decoding and encoding are function parameters.

What the proofs show the code to do, where one might expect otherwise:

- As long as no signal arrives, an attempt is left unfinished for good in exactly two cases: a
  connector answers with data that is not a mapping, or it reports an overflow while the controls
  hold an invalid `max_output_bytes` (`FinishedExactlyOnce`, `NullDataAbandons`,
  `ZeroLimitAbandons`). A signal adds three: during the pre-I/O check, while an overflow report is
  recorded, and while a side-effectful success is bounded or receipted (`FinishedExactly`,
  `InterruptedReceipt`).
- A side effect that is done is reported as `internal_error` in the first of these cases, and when
  `connector_results` or `mutation_states` holds something that is not a mapping
  (`HonestExactly`, `NullSlot`).
- A call that invoked its connector and is then rolled back forgets the spec binding it made
  (`BoundUnlessRolledBack`, `TwoSpecsInvoked`). A blank digest on either side skips the drift
  check (`BindsExactly`).
- A caught exception restores the shared state, with one exception: after an overflow the saved
  copy itself is put back, so when a receipt handler then answers with a success that can be stored
  only in part, that part stays (`StepIsAtomic`, `HalfStoreInput`).
- Without a policy limit in the controls, a connector configured above 65536 bytes produces
  genuine overflow reports that the executor refuses (`OverflowReportAccepted`).
- The sizing loop of the evidence envelope needs at most four of its eight passes.
- A plugin whose registered mapping cannot be merged passes the diagnostic snapshot and breaks the
  strict load (`StrictFailureIsShown`, `UnreadableValuePasses`).
- A YAML node without children that is tagged as a mapping loads as an empty mapping, whatever
  its kind (`MismatchedTag`).
- The refusal "required execution output digest missing" is unreachable (`RequiringDigestsIsIdle`).
- Two actions on one new connector: the patch keeps only the last (`ConfigureConvergesExactly`).
  An environment without a connectors mapping gets a patch that does not apply, and names
  holding `/`, `~0` or `~1` are written into pointers unescaped (`TokensOfPointer`).
- A retry configuration with a negative number of attempts makes no request and has no response;
  a negative page limit is a success without a request.
- Below a nested key called `output`, projection uses the top-level `output.` paths.

## Model

| member | source | states |
|---|---|---|
| StepProperties.EventsInOrder | src/rexecop/execution/executor.py:80-298 | for every wiring and every behaviour of every handler, one call logs start, pre-I/O check, invocation and finish in this order and each at most once, and at most one receipt, never before the invocation |
| StepProperties.InvokedExactlyWhenCleared | src/rexecop/execution/executor.py:157-245 | the connector is invoked if and only if binding, admission, posture, start handler and pre-I/O check all let the step through |
| StepProperties.FinishedExactly | src/rexecop/execution/executor.py:107-298 | for every behaviour of every handler, signals included, an opened attempt is finished exactly once, and never exactly when one of these guards fires: a signal during the pre-I/O check; an answer that cannot be read; an overflow report whose bounding raises (invalid limit, or a signal while it is recorded); a side-effectful success whose bounding or receipt raises a signal |
| StepProperties.FinishedExactlyOnce | src/rexecop/execution/executor.py:107-155 | if no signal arrives, two cases are left: the connector's answer cannot be read as a mapping, or it reports an overflow while the output limit in the controls is not an exact positive integer |
| StepProperties.RaisingInvocationIsRecorded | src/rexecop/execution/executor.py:246-260 | a connector call that raises anything, an interrupt included, is finished as indeterminate, and an interrupt goes on to the caller |
| StepProperties.InterruptedReceipt | src/rexecop/execution/executor.py:107-155 | an input for a signal: an interrupt during the receipt of a side-effectful success leaves its attempt open |
| StepProperties.NullDataAbandons | src/rexecop/execution/executor.py:261-298 | an input for the first case without signals: null for data leaves the attempt open and reports the side effect as an internal error |
| StepProperties.ZeroLimitAbandons | src/rexecop/execution/executor.py:332-343 | an input for the second case without signals: an overflow report under a limit of zero |
| StepProperties.NeverRecordedFailed | src/rexecop/execution/executor.py:107-155 | for every wiring and every behaviour, signals included, a side effect the connector reported as done is never recorded as failed |
| StepProperties.SideEffectsAreHonest | src/rexecop/execution/executor.py:107-155 | signals included: with a readable answer a side effect reported as done is recorded as completed exactly when bounding and receipt end in success and finish returns; a signal reaches the caller exactly when one came while reading, bounding, in the receipt or from finish; otherwise it is reported as success exactly when its result can also be stored, and as indeterminate whenever it is not recorded as completed; with an unreadable answer nothing is recorded and the exception is reported |
| StepProperties.HonestExactly | src/rexecop/execution/executor.py:107-155 | recorded completion and reported success coincide, everything else being reported indeterminate, if and only if no signal reaches the caller and either the answer can be read and a completed result can be stored, or the exception itself says indeterminate |
| StepProperties.HonestWhenSlotsReady | src/rexecop/execution/executor.py:107-155 | unless a signal reaches the caller, a readable answer and mapping-valued or absent result slots are enough for that |
| StepProperties.CompletedButReportedFailed | src/rexecop/execution/executor.py:464-486 | with a result slot that is no mapping, a completion on record is reported as an internal error, neither success nor indeterminate |
| StepProperties.NullSlot | src/rexecop/execution/executor.py:464-486 | a concrete input where it fails: the slot holds null |
| StepProperties.StepIsAtomic | src/rexecop/execution/executor.py:80-140 | a caught exception or an output overflow leaves the shared state as it was, except exactly when a receipt handler answered an overflow with a success that could be stored only in part, whose data then stays; otherwise it is the branch's state, with exactly a success's result stored on top |
| StepProperties.HalfStoreSurvives | src/rexecop/execution/executor.py:332-486 | the exception, for every input of that family: the call reports an exception and keeps the partly stored result |
| StepProperties.HalfStoreInput | src/rexecop/execution/executor.py:332-486 | one such input: a mapping for connector results and null for mutation states |
| StepProperties.ReportRaisesExactly | src/rexecop/execution/executor.py:332-360 | bounding an overflow report raises exactly when the limit in force is invalid or a signal arrives while an acceptable report is recorded |
| StepProperties.CandidateBounds | src/rexecop/execution/executor.py:332-360 | without signals it raises exactly when the limit in force is invalid |
| StepProperties.StoreReturns | src/rexecop/execution/executor.py:464-486 | storing a connector result raises exactly when one of its slots is present and no mapping |
| TypedSpec.BindFacts | src/rexecop/execution/typed_spec.py:276-321 | binding never changes a bound digest, leaves an existing entry alone and refuses a different non-blank digest |
| TypedSpec.BindsExactly | src/rexecop/execution/typed_spec.py:276-321 | a bound step takes a spec if and only if the digests are equal or one of them is blank |
| TypedSpec.BlankEntryTakesAnySpec | src/rexecop/execution/typed_spec.py:276-321 | an instance: an entry with a blank digest takes any two specs |
| TypedSpec.BindFresh | src/rexecop/execution/typed_spec.py:294-321 | an unbound step always gets bound, to the compiled digest |
| TypedSpec.RecordFacts | src/rexecop/execution/govengine_governance.py:253-309 | recording an admission changes no bound digest |
| RunProperties.BindingsSurvive | src/rexecop/execution/executor.py:80-140 | whether a call returns, raises or is rolled back, every binding there before is there after with the same digest, provided the extension handlers leave the binding slot alone |
| RunProperties.InvokedWithBoundSpec | src/rexecop/execution/typed_spec.py:276-321 | the connector of a typed step is invoked only with the bound digest, a blank digest on either side being the gap the drift check leaves |
| RunProperties.RunKeepsDigests | src/rexecop/execution/executor.py:80-140 | the same over every sequence of calls, under the same proviso |
| RunProperties.RunInvokesBoundSpec | src/rexecop/execution/executor.py:434-462 | over every run, once a step is bound to a non-blank digest, each later invocation with a non-blank compiled digest compiled that one, under the same proviso |
| RunProperties.RunLedger | src/rexecop/execution/executor.py:107-155 | over every run, signals included, attempts opened equal attempts finished plus attempts left open by one of the guards |
| RunProperties.CalmRunLedger | src/rexecop/execution/executor.py:107-155 | over every run without signals the latter are those abandoned in one of the two ways |
| RunProperties.RollbackForgetsBinding | src/rexecop/execution/executor.py:119-140 | a call whose connector raised, with an exception the boundary catches, leaves the state as it was, so a step unbound before has no binding after |
| RunProperties.TwoSpecsInvoked | src/rexecop/execution/executor.py:119-140 | an instance: two specs with different non-blank digests both reach the connector for one step |
| RunProperties.BackExactly | src/rexecop/execution/executor.py:80-140 | a call that invoked its connector is rolled back exactly when the invocation, the finish handler, reading the answer, encoding or the receipt handler raises, the limit is invalid, the output is over it, or the result cannot be stored |
| RunProperties.BoundUnlessRolledBack | src/rexecop/execution/executor.py:119-140 | the first invocation leaves the step bound to its spec if and only if none of these guards fires |
| Executor.StepExecutor.Execute | src/rexecop/execution/executor.py:80-140 | the in-place executor ends, changes the shared state and logs exactly as the protocol function says |
| Executor.StepExecutor.ExecuteConnector | src/rexecop/execution/executor.py:157-298 | the same for the connector branch |
| Executor.StepExecutor.PassGates | src/rexecop/execution/executor.py:157-222 | the same for the gates before an attempt |
| Executor.StepExecutor.InvokeConnector | src/rexecop/execution/executor.py:246-298 | the same for invocation and response handling, including an answer that cannot be read |
| Executor.StepExecutor.ApplyOutputControls | src/rexecop/execution/executor.py:332-432 | the same for output bounding, including the rollback on overflow |
| Executor.StepExecutor.FinishSideEffectful | src/rexecop/execution/executor.py:142-155 | the same for finishing a side-effectful attempt |
| Executor.StepExecutor.BindTypedSpec | src/rexecop/execution/executor.py:434-462 | the same for compile and bind; a raise leaves the state alone |
| Executor.StepExecutor.Settle | src/rexecop/execution/executor.py:107-140 | the same for deferred finish, receipt and storing |
| Capture.KeptFacts | src/rexecop/execution/bounded_subprocess.py:41-60 | for every interleaving, what is retained is a prefix of each stream and both together hold min(drained, limit) bytes |
| Capture.ResultIsCoherent | src/rexecop/execution/bounded_subprocess.py:173-192 | in every result the overflow verdict, total over limit and some-stream-truncated are equivalent, and all counts agree |
| Capture.NormalizeIsCoherent | src/rexecop/execution/bounded_subprocess.py:195-216 | the one-shot form gives equally coherent results |
| Capture.RefinesNormalize | src/rexecop/execution/bounded_subprocess.py:195-216 | the incremental capture equals the one-shot form if and only if standard output was kept as far as the limit allows |
| Capture.OutputFirstRefines | src/rexecop/execution/bounded_subprocess.py:195-216 | draining all of standard output first meets that condition |
| Capture.WithinLimitRefines | src/rexecop/execution/bounded_subprocess.py:195-216 | so does every schedule that stays within the limit |
| CaptureLoop.StreamAccumulator.Consume | src/rexecop/execution/bounded_subprocess.py:47-51 | one chunk: all of it hashed and counted, a prefix retained |
| CaptureLoop.LoopIsLawful | src/rexecop/execution/bounded_subprocess.py:108-160 | after any number of passes over any child, even under a clock that stands still or runs backwards: one terminate, caused by the deadline or by exactly byte limit + 1, one kill no sooner than the grace period after it, nothing after the first reading past the cleanup deadline, and a reason that agrees with the bytes drained |
| CaptureLoop.LoopEnds | src/rexecop/execution/bounded_subprocess.py:108-134 | a clock that passes every instant ends the loop whatever the child does |
| CaptureLoop.ReadingsAreTheClock | src/rexecop/execution/bounded_subprocess.py:108-110 | the clock is read once a pass, and the log holds exactly those readings in order |
| CaptureLoop.ArrivalsAreReads | src/rexecop/execution/bounded_subprocess.py:135-152 | every chunk accounted for was read from a pipe that was ready in that pass, and a pipe is closed only after an empty read |
| CaptureLoop.WhyItEnded | src/rexecop/execution/bounded_subprocess.py:108-126 | the loop ended because both pipes had given an empty read, or because the last reading was past the cleanup deadline of a kill |
| CaptureLoop.Loop | src/rexecop/execution/bounded_subprocess.py:108-160 | the loop in place ends after the first pass that leaves nothing to do, with the reason, the retained and hashed bytes and the peak that the passes over this child lead to |
| CaptureLoop.VerdictIsTheTrip | src/rexecop/execution/bounded_subprocess.py:157-192 | a finished run's overflow verdict is the trip of its loop, and its result is coherent |
| CaptureLoop.FinishedRun | src/rexecop/execution/bounded_subprocess.py:63-192 | a run that finishes returns exactly what its loop drained, and is over its limit just if the loop tripped, whatever the clock does |
| CaptureLoop.Run | src/rexecop/execution/bounded_subprocess.py:63-192 | a run refuses an invalid limit before anything starts, and otherwise returns exactly what the passes over this child come to: a timeout, or the result of its reads |
| Envelope.Converges | src/rexecop/execution/executor.py:650-665 | for every base length the third value of the sizing loop is a fixed point of n = base + digits(n) |
| Envelope.EarlyStop | src/rexecop/execution/executor.py:650-665 | two equal consecutive values are that fixed point |
| Envelope.LeastSelfSize | src/rexecop/execution/executor.py:650-665 | it is the least one |
| Envelope.TwoSelfSizes | src/rexecop/execution/executor.py:650-665 | least is not idle: a base with two truthful sizes |
| Envelope.LengthFromBase | src/rexecop/execution/executor.py:668-674 | in the sorted canonical text only the digits of the number itself vary with it |
| Envelope.FitsExactly | src/rexecop/execution/executor.py:650-665 | a record gets its envelope if and only if its text without the number has at most 2044 characters |
| Envelope.EnvelopeIsTruthful | src/rexecop/execution/executor.py:650-674 | the stated size is the rendered length and the least such number; the record is refused exactly when every truthful size exceeds 2048 |
| Envelope.SizingLoop | src/rexecop/execution/executor.py:650-665 | the loop stops at the least truthful size, in at most four of its eight passes |
| Envelope.WithEnvelope | src/rexecop/execution/executor.py:650-665 | the record it builds is the truthful one, or none when that exceeds the cap |
| Canonical.SortedKeysFacts | src/rexecop/execution/executor.py:668-674 | the key order used in the text is sorted, complete and without repeats |
| Evidence.ReportIsReadable | src/rexecop/execution/executor.py:503-545 | the validator reads back exactly the facts the shell connector wrote, if and only if redaction left its digests and error class in form |
| Evidence.ReportIsConsistent | src/rexecop/execution/executor.py:546-575 | a coherent overflowing capture passes every numeric and truncation check; the limit check passes exactly when its limit is within the active one |
| Evidence.RebuiltFits | src/rexecop/execution/executor.py:575-588 | rebuilt evidence fits its envelope if and only if a constant, its flags and the digits of its numbers stay within 1931 characters |
| Evidence.InvalidEvidenceFits | src/rexecop/execution/executor.py:622-628 | so does the refusal record |
| Evidence.OverflowReportAccepted | src/rexecop/connectors/local_shell.py:95-155 | a genuine overflow report is rebuilt into the measured facts if redaction left it readable and the controls carry a policy limit or the configured one is at most 65536, and refused otherwise |
| Evidence.AcceptedExactly | src/rexecop/execution/executor.py:503-588 | acceptance as an if-and-only-if over the inputs: readable, limits agree, within the envelope |
| ShellOverflow.CapturedOverflow | src/rexecop/connectors/local_shell.py:95-130 | every child run under the resolved limit that finishes past its ceiling gives a coherent over-limit capture of exactly what its loop drained, so the result below applies to it |
| ShellOverflow.ShellOverflowReported | src/rexecop/execution/executor.py:332-432 | end to end for every wiring: an overflowing shell command hands on a failure with the measured sizes, flags and digests exactly when the report is accepted; the caller gets it, or the receipt handler's answer, or the exception that came instead, and the state is as before unless a receipt handler answered with a success, which is then stored, or stored in part if that raises |
| Projection.FillMapping | src/rexecop/evidence/public_projection.py:169-185 | filling the projected mapping key by key gives the recursive projection |
| Projection.FillOutput | src/rexecop/evidence/public_projection.py:188-202 | the same for the output mapping |
| Projection.FillValue | src/rexecop/evidence/public_projection.py:205-217 | the same for any value, lists included |
| Projection.PublicNonInterference | src/rexecop/evidence/public_projection.py:118-127 | two payloads project to the same public record if and only if they agree on keys, on values at allowed paths and on digests elsewhere |
| Projection.ProjectionDecides | src/rexecop/evidence/public_projection.py:169-243 | the same at every depth and path |
| Projection.ImitationDecides | src/rexecop/evidence/public_projection.py:188-243 | the one confusion left: an output mapping spelled like a digest record is taken for it exactly when the allowlist discloses all three of its fields and "output" itself is not allowed |
| Projection.LeavesAreClearOrMasked | src/rexecop/evidence/public_projection.py:169-243 | the leaves of a projection are exactly the positions disclosed in clear and the fields of digest records, never both |
| Projection.MaskedIsDigest | src/rexecop/evidence/public_projection.py:236-243 | a digest record stands exactly where a subtree was, and carries that subtree's digest |
| Projection.ClearIsOriginal | src/rexecop/evidence/public_projection.py:205-233 | every position disclosed in clear shows the original leaf |
| Projection.DisclosureGrows | src/rexecop/evidence/public_projection.py:220-233 | a larger allowlist never hides what a smaller one disclosed |
| HttpInvoke.InvokePaginated | src/rexecop/connectors/http_api.py:190-250 | every request stays within the base origin, no followed link is visited twice, success returns the pages' items in order, and each failure is explained by the server's answers; at most max_pages requests |
| HttpInvoke.OneExplanation | src/rexecop/connectors/http_api.py:190-250 | these statements leave exactly one possible response, request chain and number of requests |
| HttpInvoke.GetJsonPath | src/rexecop/connectors/http_support.py:106-114 | the path loop equals the recursive walk; blank segments are passed over and a non-mapping ends in null |
| HttpInvoke.InvokeOnce | src/rexecop/connectors/http_api.py:180-188 | an attempt pages only with an items path and otherwise unwraps a single answer, and the number of requests it sent is the one its course explains |
| HttpInvoke.InvokeWithRetry | src/rexecop/connectors/http_api.py:154-178 | the last response of a history is returned: each attempt starts where the requests before it ended, all but the last failed retryably and were followed by their delay, requests are at most attempts times pages |
| HttpInvoke.OneHistory | src/rexecop/connectors/http_api.py:154-178 | for one server there is exactly one such history |
| HttpInvoke.SleepBound | src/rexecop/connectors/http_support.py:100-103 | total sleep is at most the number of sleeps times the maximal delay |
| YamlComposer.BoundedLoader.ComposeNode | src/rexecop/yaml_input.py:43-58 | a document is accepted if and only if it has no alias, only allowed tags, no anchor twice, and height and node count within the bounds; the depth counter is restored on every exit |
| YamlComposer.ConstructMapping | src/rexecop/yaml_input.py:76-89 | the dictionary-filling loop equals the recursive construction |
| YamlComposer.PairsAllKept | src/rexecop/yaml_input.py:76-89 | a constructed mapping has one entry per pair; nothing was overwritten |
| YamlComposer.LoadsExactly | src/rexecop/yaml_input.py:172-190 | construction succeeds with finite JSON data if and only if every collection has the tag of its kind or is empty under a mapping tag, all keys are distinct strings and all scalars resolve to such data |
| YamlComposer.MismatchedTag | src/rexecop/yaml_input.py:76-95 | a collection under another tag is refused, except that an empty one tagged as a mapping loads as an empty mapping |
| YamlComposer.LoadedWithin | src/rexecop/yaml_input.py:43-58 | the loaded value nests no deeper than the composed document |
| YamlComposer.Load | src/rexecop/yaml_input.py:137-162 | the loader returns a value exactly for documents within size, depth and node bounds that are clean and loadable |
| JsonPatch.TokensOfPointer | src/rexecop/action/configure.py:120-176 | a pointer written without escaping means its names if and only if none of them holds a slash or an escape |
| ActionConfig.BuildPatch | src/rexecop/action/configure.py:39-79 | the list extended step by step is the concatenation of every step's operations |
| ConfigureThenDiff.StepApplies | src/rexecop/action/configure.py:120-257 | one step's operations on a missing connector create it as declared, disabled |
| ConfigureThenDiff.PatchLeadsTo | src/rexecop/action/configure.py:39-79 | the whole patch applies and changes no other connector |
| ConfigureThenDiff.ConfigureConvergesExactly | src/rexecop/action/configure.py:39-79 | after it configure has nothing more to say if and only if no connector is asked for two different actions |
| ConfigureThenDiff.DriftIsOnlyDisabled | src/rexecop/action/diff.py:141-289 | then every step's only drift is being disabled, and enabling the connectors aligns every step |
| ConfigureThenDiff.DiffAfterConfigure | src/rexecop/action/diff.py:141-193 | the same for one step, with the status diff reports |
| ConfigureThenDiff.TemplateKeepsShape | src/rexecop/connectors/action_shape.py:10-36 | the configured action has the canonical shape of the declared one |
| ConfigureThenDiff.SharedConnectorLosesAction | src/rexecop/action/configure.py:39-79 | two actions on one new connector: the first is missing from the patched environment |
| ConfigureThenDiff.NoConnectorsNoPatch | src/rexecop/action/configure.py:39-79 | without a connectors mapping in the environment the patch does not apply |
| PluginRegistry.TakeSnapshot | src/rexecop/execution/internal_registry.py:77-123 | the diagnostic loop shows every record, or 63 and an overflow record; never more than 64 |
| PluginRegistry.LoadHandlers | src/rexecop/execution/internal_registry.py:298-323 | the strict loop registers the built-ins, the plugins' names and the extra handlers, or fails on the first fault, collision or mapping that cannot be merged |
| PluginRegistry.SnapshotMirrorsStrictLoad | src/rexecop/execution/internal_registry.py:77-245 | when every shown record passed, the strict load registers exactly the names shown if every registered mapping can be merged and fails otherwise; a strict load that succeeds over regular entry points within the window has only passed records |
| PluginRegistry.StrictFailureIsShown | src/rexecop/execution/internal_registry.py:77-123 | whenever the strict load fails a shown record is failed, even for a culprit past the window, except exactly when everything else is in order and a registered mapping cannot be merged |
| PluginRegistry.UnreadableValuePasses | src/rexecop/execution/internal_registry.py:298-315 | an input for that exception: a registered value that cannot be read |
| Governance.EgressNeverWidens | src/rexecop/execution/govengine_governance.py:124-136 | the request's egress is a sub-list of the profile's, with exactly the entries policy names when it names any |
| Governance.PluginBindingIsOwnEgress | src/rexecop/execution/typed_spec.py:179-251 | a compiled plugin binding names exactly the posture's egress |
| Governance.PostureIsExpected | src/rexecop/connectors/capability_descriptor.py:110-182 | a compiled plugin posture is one of the two known ones |
| Governance.PluginAcceptedExactly | src/rexecop/execution/govengine_governance.py:372-390 | a compiled plugin is accepted as v0.2 if and only if policy names no egress or the posture's own, and is refused otherwise |
| Receipt.RenderingIsFaithful | src/rexecop/execution/model.py:192-253 | leaving blank and empty optional fields out of a record loses nothing |
| Receipt.SealedVerifies | src/rexecop/execution/model.py:286-346 | recomputing the digest of a sealed receipt gives the stored one |
| Receipt.SealBindsReceipt | src/rexecop/execution/model.py:286-289 | two receipts that verify under one digest are equal, or their serialisations are a collision of the hash |
| ReceiptBuild.BuildTypedBinding | src/rexecop/execution/model.py:349-394 | the loop binds exactly the executed steps that carry a digest, each with the digests of its spec entry |
| ReceiptBuild.BuiltExactly | src/rexecop/execution/model.py:292-346 | a receipt is built if and only if no step was observed at another origin than planned and every governed admission binding is well formed |
| ReceiptBuild.RequiringDigestsIsIdle | src/rexecop/execution/model.py:311-315 | requiring output digests changes nothing: the refusal for a missing digest is never reached |
| ReceiptBuild.BuiltReceipt | src/rexecop/execution/model.py:292-346 | every built receipt verifies, records each result in order and binds exactly the executed steps with a digest |
| ReceiptBuild.BindingMatchesSteps | src/rexecop/execution/model.py:456-515 | the binding and the step receipts agree on spec digest, capability digest and origin, planned and observed |
| Lifecycle.CompletionIsEarned | src/rexecop/operation/state.py:25-76 | every accepted run to completion was approved, then ran, then was validated right before completing |
| Lifecycle.NeverReapproved | src/rexecop/operation/state.py:25-60 | after running, an operation is never approved or put up for approval again |
| Lifecycle.BlockedNeverRuns | src/rexecop/operation/state.py:25-60 | after being blocked, an operation is only blocked or escalated |
| Lifecycle.TerminalEnds | src/rexecop/operation/state.py:25-60 | no run leaves a terminal state |
| Lifecycle.RunsInfinitelyOften | src/rexecop/operation/state.py:25-60 | every run that never ends is running infinitely often |
| Lifecycle.StepExactly | src/rexecop/operation/state.py:63-76 | the validator accepts exactly the transitions of the table |

## Left out

- Real processes, file descriptors, process groups and the cleanup after a failed start: replaced by an adversarial schedule and a clock in milliseconds.
- SHA-256, JSON encoding of arbitrary objects, regular expressions, text redaction and byte decoding: parameters.
- GovEngine and SCLite decisions, spec compilation, the mutation switch and the governed pre-check: outcomes of the world a step runs in.
- URL parsing, TLS, SSH, secrets and network I/O: URLs have an abstract origin function, pages are already parsed.
- Storage, controller, queue, leases, command line, catalog, audit and explain code: not part of this model.
- Aliasing inside the shared state: states are values. The one place where the source shares nested dictionaries within a call, the copy put back after an overflow, is modelled by what it leaves behind (`Protocol.HalfStored`).
- In-process handlers are taken to return mappings: one that returns anything else makes the source raise while it copies the output.
- Exceptions that leave the HTTP connector, such as a connection reset or a next link that cannot be joined to its base: to the step they are invocations that raise.
- The request built for a connector is part of the invocation: a controls value that cannot be copied into it counts as an invocation that raised.
- Deriving the public allowlist from a profile, tuple payloads and non-string keys in projection: only string-keyed mappings and lists.
- The summaries of diff's checks, and the wording of refusals in egress and posture checks, where one text stands for several.
- The rendering of non-empty containers by `str()` is a fixed text.
- Executor.StepExecutor.Execute: takes the typed context, step fields and mode as already read from the step mapping.
- HttpInvoke.InvokePaginated: payloads are those before redaction, and a request that fails before it leaves the connector, for another reason than its URL, counts as sent and faulted.
- HttpInvoke.SleepBound: delays are real numbers, so rounding is not modelled.
- YamlComposer.Load: the parser's events, scalar resolution and the test for finite numbers are given as a tree and functions.
- RunProperties.BindingsSurvive: assumes that the start handler and the in-process handlers, which may write anything into the shared state, leave the binding slot alone.
- PluginRegistry.SnapshotMirrorsStrictLoad: registrars are deterministic and handlers are represented by their names.
- ConfigureThenDiff.ConfigureConvergesExactly: for connectors that are missing or empty before, whose contract declares a readable shape; names that enter a pointer are ones it can hold.
- ReceiptBuild.BuiltExactly: the several refusals of a malformed governed admission binding are one.
- Lifecycle.RunsInfinitelyOften: speaks of the transition table alone, not of who drives it.
