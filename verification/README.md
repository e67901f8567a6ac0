# Verified model of the agent gateway and operator

A Dafny model of the parts of the repository whose correctness rests on state that many steps
change: the session store and its event fan-out, the plugin pipeline and its per-request context,
the plugin registry, the hot reloader, the TLS bridge's certificate cache and skip set, the shared
key-value store, the operator's per-card label propagation and re-sign throttle, and the Keycloak
reconciler. Each object is a class whose methods follow the source's loops and updates; each method
is proved equal to a function or relation on the object's value; and the laws are proved about
those functions over whole runs, with every interleaving, failure and clock reading left open.

`dafny verify dfyconfig.toml` checks everything.

## Layout

| file | what it models |
|---|---|
| `Common.dfy` | optional values, lists without an element, sizes of maps and sets |
| `SessionEvents.dfy` | trimming a session's events while pinning the latest intent |
| `SessionFanout.dfy` | subscriptions as a machine of lock-sized steps |
| `SentinelScan.dfy` | picking an earliest map entry with the empty key as "none yet" |
| `SessionStore.dfy` | the session store: append, eviction, rename, expiry, queries |
| `PipelineContext.dfy` | the request context and the outcome classification |
| `Pipeline.dfy` | request, response, frame and finish phases |
| `PipelineLaws.dfy` | whole requests; shadow plugins do not interfere |
| `PipelineCalls.dfy` | which hooks a phase calls, in which order, and how it ends |
| `PipelineFinish.dfy` | which plugins are finished, in which order |
| `PipelineOutcome.dfy` | what the outcome says about who rejected |
| `PipelineBody.dfy` | body-access capabilities and what readers see |
| `Registry.dfy` | building a pipeline from configuration; switched-off plugins |
| `Lifecycle.dfy` | starting, unwinding and stopping plugins |
| `Reloader.dfy` | hot reload as a machine with background drains |
| `LeafMinter.dfy` | the leaf-certificate cache |
| `SkipSet.dfy` | the auto-skip set |
| `SharedStore.dfy` | the shared store, interleaved by critical section |
| `CardLabels.dfy` | verified-state annotations and the aggregated label |
| `ResignThrottle.dfy` | proactive restarts and their throttle |
| `KeycloakSync.dfy` | reconciling routes with the identity provider |

Plugins are deterministic interactive programs: before each of their actions they read the current
message and choose from everything read so far. Clock reads, cancellation polls, minting success,
file reads, build results, Init results, prompts and admin calls are parameters that take any value.

## Where the code and its documentation differ

The model follows the code. Each difference is a lemma, and each promise is proved under the exact
condition that makes it true.

- Trimming is documented to leave the pinned intent at its original index; it moves towards the front
  unless it was already there (`PinStaysPutIff`, `PinMoves`).
- Append cuts long session IDs and View does not, so an event appended under a long ID cannot be viewed
  under it; and in a bucket of one an earlier intent keeps its place against a new event
  (`AppendedIsViewedIff`, `LongIdIsNotViewed`, `LoneIntentKeepsItsPlace`).
- Closing the store is documented to close every subscriber's channel; it does not reach those who
  subscribe afterwards (`CloseReachesAllButLate`, `LateSubscriberIsNotReached`).
- Eviction from the session store and from the skip set take the empty key for "none yet", so a
  session or host stored under it can make them evict the wrong entry or none
  (`EvictionTakesOldestIff`, `EmptyIdEvictsTheWritten`, `RoomDropsEarliestIff`, `EmptyHostOverflows`).
- The skip set drops a live host when it is full even if the host being added is in the set already and
  needs no room (`ExactIffRoom`).
- The capability check tracks offenders by name and takes the empty name for "none", so it accepts
  chains in which a reader can see rewritten bytes (`CapabilityCheckIsRightIff`,
  `OriginalGuaranteedIff`, `FinalGuaranteedIff`, `NamelessMutatorsEscape`).
- The wrapper around configured plugins is documented as unobservable; it turns a streaming plugin
  into a buffered one (`WrappingIsUnobservableIff`, `WrappingRedirectsFrames`).
- Observed denials are documented not to count towards the outcome; they do if the plugin records
  something after its denial, or records one without rejecting (`ObservedDenialCountsIff`,
  `UndisciplinedShadowCountsAsDeny`).
- The empty plugin name stands for "nobody rejected", so an enforced rejection by a nameless plugin is
  reported as a denial only if a denial is on record; the outcome can be relied on exactly when every
  enforced plugin has a name (`DenyMeansRejectIff`, `NamelessRejectCountsIff`,
  `NamelessRejectIsReportedAsAllow`).
- A restart is documented to follow from either of two conditions; neither counts inside the throttle,
  and a changed trust bundle is ignored while the leaf is expiring and a restart was already made with it
  in place (`EitherConditionRestartsIff`, `RotationIsMissedForKnownLeaf`).
- The recorded leaf expiry is documented as that of the certificate that prompted the restart; it is
  recorded for every restart, so one for a changed trust bundle uses up the leaf, which then gets none for
  expiring (`ExpiringLeafRestartsIff`, `LeafGetsOneRestartIff`, `BundleRestartUsesUpLeaf`).
- Scopes are documented to be checked for correct audience mappers; a mapper for any audience passes
  (`AudienceIsMappedIff`, `SharedScopeMapsFirstAudience`).

## Model

| member | source | states |
|---|---|---|
| `SessionEvents.TrimEventsPinIntent` | authbridge/authlib/session/store.go:241-274 | the scan and slice copies compute `Trimmed`, for every bound including none |
| `SessionEvents.FindLastIntent` | authbridge/authlib/pipeline/session.go:335-343 | the reverse scan finds the latest intent, and nothing exactly when there is none |
| `SessionEvents.LastIntentIndexUnique` | authbridge/authlib/session/store.go:210-214 | the latest intent is determined by: it is one, and no later event is |
| `SessionEvents.TrimBoundsAndKeepsNewest` | authbridge/authlib/session/store.go:241-274 | over the bound, exactly `max` events stay: the newest ones, with the latest intent in first place if it would have gone |
| `SessionEvents.WithinBoundNothingGoes` | authbridge/authlib/session/store.go:241-274 | without a bound, or within it, no event goes |
| `SessionEvents.PinStaysPutIff` | authbridge/authlib/session/store.go:216-274 | over the bound, the latest intent keeps its index if and only if there is none or it is the first event |
| `SessionEvents.PinMoves` | authbridge/authlib/session/store.go:216-274 | three events, the middle one an intent, under a bound of two: the intent moves from the second place to the first |
| `SessionEvents.TrimKeepsAppendedIff` | authbridge/authlib/session/store.go:188-197 | the event just appended is the last one kept, unless the bound is one, it is no intent and there is an earlier intent |
| `SessionEvents.TrimKeepsLastIntent` | authbridge/authlib/session/store.go:241-274 | trimming never changes what the latest intent is |
| `SessionEvents.TrimAbsorbsTrim` | authbridge/authlib/session/store.go:188-197 | appending to a trimmed bucket and trimming equals trimming the untrimmed one |
| `SessionEvents.StepwiseTrimIsOneTrim` | authbridge/authlib/session/store.go:164-203 | any number of append-and-trim steps equals one trim of the whole history |
| `SessionEvents.TrimStamp` | authbridge/authlib/session/store.go:381-414 | relabelling a bucket and trimming it commute |
| `SessionFanout.NeverSendsOnClosed` | authbridge/authlib/session/store.go:76-142 | in every interleaving of subscribe, cancel, close and publish the list holds exactly the subscribed, all with open channels |
| `SessionFanout.DeliveryIsAccounted` | authbridge/authlib/session/store.go:469-477 | per subscriber, received plus buffered is an in-order selection of what was published while subscribed, and the rest are the counted drops; at most 64 are buffered |
| `SessionFanout.NoDropsMeansLossless` | authbridge/authlib/session/store.go:66-110 | a drop counter of zero means everything published while subscribed was delivered or is waiting |
| `SessionFanout.CloseReachesAllButLate` | authbridge/authlib/session/store.go:76-142 | every channel is on the list or taken off it to be closed; once the store is closed all are off, except exactly those subscribed later and not cancelled |
| `SessionFanout.LateSubscriberIsNotReached` | authbridge/authlib/session/store.go:76-142 | a run in which a subscription after the shutdown stays open and listed |
| `SessionFanout.ClosingIsEnabled` | authbridge/authlib/session/store.go:62-95 | a channel taken off the list can be closed at any moment |
| `SessionFanout.Offered` | authbridge/authlib/session/store.go:469-477 | a non-blocking send keeps the buffer bound and raises buffered plus drops by one |
| `SessionFanout.OfferDropsOnlyWhenFull` | authbridge/authlib/session/store.go:469-477 | an event is dropped exactly when 64 are waiting; otherwise it goes last |
| `SessionFanout.PublishReachesSubscribed` | authbridge/authlib/session/store.go:469-477 | after any run, publishing offers the event to exactly those subscribed, and changes nobody else's channel |
| `SentinelScan.ScanIsRightIff` | authbridge/authlib/session/store.go:434-445 | in every iteration order the scan ends with an earliest key, if and only if the empty key is not strictly earlier than all others |
| `SessionStore.EvictionTakesOldestIff` | authbridge/authlib/session/store.go:434-454 | eviction removes an oldest inactive session, or the active one if alone, in every iteration order, if and only if no session under the empty ID is the only oldest inactive one |
| `SessionStore.WriteEffect` | authbridge/authlib/session/store.go:172-197 | a write creates the session or keeps its creation time, updates it now, adds the stamped event and trims, makes it active, and touches no other |
| `SessionStore.WithinCapNothingGoes` | authbridge/authlib/session/store.go:164-203 | without a cap, or within it, an append keeps every other session as it was |
| `SessionStore.BucketIsTrimmedHistory` | authbridge/authlib/session/store.go:164-274 | after any run with evictions, renames and expiries, each bucket is one trim of its complete append history, relabelled |
| `SessionStore.LastIntentIsNeverLost` | authbridge/authlib/session/store.go:205-274 | a session's latest intent is the last one ever appended to it, and the event bound holds |
| `SessionStore.AppendEvictsAnother` | authbridge/authlib/session/store.go:199-202 | going over the cap evicts exactly one session, an oldest one and not the one just written |
| `SessionStore.AppendKeepsConsistentIff` | authbridge/authlib/session/store.go:164-203 | append keeps the store consistent if and only if the session ID is not empty, and the written session is present and active |
| `SessionStore.EmptyIdEvictsTheWritten` | authbridge/authlib/session/store.go:434-454 | a run of two appends, one under the empty ID, in which the second evicts the session it wrote |
| `SessionStore.RekeyKeepsConsistent` | authbridge/authlib/session/store.go:381-414 | renaming keeps the store consistent, whether it moves or is refused; what it does is `RekeyMovesSession` and `RekeyRefuses` |
| `SessionStore.RekeyMovesSession` | authbridge/authlib/session/store.go:381-414 | between two different non-empty IDs, from a present session to a free ID cut at 256: the old key goes, the new one holds the same times and events relabelled, nothing else changes, and the active ID follows |
| `SessionStore.RekeyRefuses` | authbridge/authlib/session/store.go:381-414 | in every other case a rename changes nothing |
| `SessionStore.CleanupKeepsConsistent` | authbridge/authlib/session/store.go:423-432 | expiry keeps the store consistent: the active session never expires before another |
| `SessionStore.CleanupRemovesIdle` | authbridge/authlib/session/store.go:423-432 | exactly the sessions idle for longer than the time to live go, the others stay as they are, and the active ID goes exactly with its session |
| `SessionStore.StoreStaysConsistent` | authbridge/authlib/session/store.go:308-458 | over every run: the active ID names a most recently updated session or is empty exactly when there is none; keys, entries and events agree; the cap holds |
| `SessionStore.ListAgreesWithActive` | authbridge/authlib/session/store.go:308-365 | no session is active exactly when none is listed; otherwise exactly one listed session is, and it is as recent as the first |
| `SessionStore.ListShowsSessions` | authbridge/authlib/session/store.go:308-332 | whatever is listed: exactly the sessions not idle for longer than the time to live, each once with its own times, counts and active flag, latest update first |
| `SessionStore.ViewedWhileFresh` | authbridge/authlib/session/store.go:278-365 | a session is viewed, and can be the active one, exactly while it has not been idle for longer than the time to live |
| `SessionStore.TokensAddUp` | authbridge/authlib/session/store.go:337-349 | token totals are additive over events, and one event counts if it is a response with an inference total |
| `SessionStore.AppendedIsViewedIff` | authbridge/authlib/session/store.go:164-293 | viewing a session straight after an append shows the event last, if and only if the ID is at most 256 long, the time to live is not negative, and the event did not lose the only place to an earlier intent |
| `SessionStore.LongIdIsNotViewed` | authbridge/authlib/session/store.go:164-293 | a run of one append under a long ID, after which viewing that ID shows nothing |
| `SessionStore.LoneIntentKeepsItsPlace` | authbridge/authlib/session/store.go:164-293 | a run of two appends to a bucket of one, after which only the earlier intent is there |
| `SessionStore.KeysStayShort` | authbridge/authlib/session/store.go:164-167 | in every run no stored ID is longer than 256 |
| `SessionStore.SumTokens` | authbridge/authlib/session/store.go:337-349 | the loop adds up the inference totals of the response events |
| `SessionStore.Store.constructor` | authbridge/authlib/session/store.go:115-125 | a new store is empty |
| `SessionStore.Store.Append` | authbridge/authlib/session/store.go:164-203 | the buckets change by the append relation and every subscriber is offered the stamped event |
| `SessionStore.Store.WriteLocked` | authbridge/authlib/session/store.go:172-197 | the bucket is created or found, appended to, trimmed and made active |
| `SessionStore.Store.EvictOldestLocked` | authbridge/authlib/session/store.go:434-454 | the buckets change by the eviction relation, for whatever iteration order occurred |
| `SessionStore.Store.Rekey` | authbridge/authlib/session/store.go:381-414 | the buckets change by the rename of `RekeyMovesSession` and `RekeyRefuses` |
| `SessionStore.Store.Cleanup` | authbridge/authlib/session/store.go:416-432 | exactly the expired sessions go, and the active ID with them |
| `SessionStore.Store.View` | authbridge/authlib/session/store.go:278-293 | the events of an unexpired session, or nothing |
| `SessionStore.Store.ActiveSession` | authbridge/authlib/session/store.go:353-365 | the active ID if its session is there and unexpired, else the empty ID |
| `SessionStore.Store.ListSessions` | authbridge/authlib/session/store.go:308-332 | every unexpired session once, newest first, nothing else, with its event count and token total |
| `SessionStore.Store.Subscribe` | authbridge/authlib/session/store.go:76-82 | a fresh open empty channel joins the list |
| `SessionStore.Store.Cancel` | authbridge/authlib/session/store.go:83-94 | that subscriber alone leaves the list, the others keep their order, and its channel is closed |
| `SessionStore.Store.Close` | authbridge/authlib/session/store.go:129-142 | the first call empties the list and closes every channel without touching buffers; later calls change nothing |
| `SessionStore.Store.PublishLocked` | authbridge/authlib/session/store.go:469-477 | every listed subscriber is offered the event exactly once |
| `SessionStore.Subscriber.Offer` | authbridge/authlib/session/store.go:470-476 | enqueue, or count a drop when full |
| `SessionStore.Subscriber.CloseCh` | authbridge/authlib/session/store.go:62-64 | the channel is closed, however often it is called |
| `SessionStore.SubscribeIsAStep` | authbridge/authlib/session/store.go:76-82 | what subscribing does to list and channels is a step of the fan-out machine |
| `SessionStore.PublishIsAStep` | authbridge/authlib/session/store.go:469-477 | what publishing does to the channels is a step of the machine |
| `SessionStore.ReceiveIsAStep` | authbridge/authlib/session/store.go:102-105 | a consumer taking an event is a step of the machine |
| `SessionStore.CancelIsTwoSteps` | authbridge/authlib/session/store.go:83-93 | cancelling is two steps: off the list, then closed |
| `SessionStore.CloseIsARun` | authbridge/authlib/session/store.go:129-142 | the first shutdown is a run: everyone off the list, then every channel closed |
| `SessionStore.SubscriberIsAccounted` | authbridge/authlib/session/store.go:47-142 | so, of a store that keeps step, a subscriber's received and waiting events are an in-order selection of what was published to it, the rest is counted, and it is listed exactly while subscribed |
| `SessionStore.SubscribeInStep` | authbridge/authlib/session/store.go:76-82 | the store's Subscribe keeps step with the machine |
| `SessionStore.AppendInStep` | authbridge/authlib/session/store.go:164-203 | its Append does |
| `SessionStore.CancelInStep` | authbridge/authlib/session/store.go:83-93 | its Cancel does |
| `SessionStore.CloseInStep` | authbridge/authlib/session/store.go:129-142 | its first Close does |
| `PipelineContext.Context.SetCurrent` | authbridge/authlib/pipeline/context.go:254-258 | stamps plugin, phase and resolved policy and nothing else |
| `PipelineContext.Context.ClearCurrent` | authbridge/authlib/pipeline/context.go:261-265 | clears the stamp and nothing else |
| `PipelineContext.Context.SetRejectingPlugin` | authbridge/authlib/pipeline/context.go:285-289 | the first rejecter wins |
| `PipelineContext.FirstRejecterStays` | authbridge/authlib/pipeline/context.go:285-289 | whoever rejected first stays on record and nothing else changes |
| `PipelineContext.Context.Record` | authbridge/authlib/pipeline/context.go:304-322 | appends to the right direction with blanks filled from the stamp; dropped while finishing |
| `PipelineContext.RecordAddsOne` | authbridge/authlib/pipeline/context.go:304-322 | one record is added last to the list of the direction served, blanks filled in; none while finishing |
| `PipelineContext.Context.SetBody` | authbridge/authlib/pipeline/context.go:390-405 | rewrites and flags, or only records under observe, or nothing while finishing |
| `PipelineContext.Context.SetResponseBody` | authbridge/authlib/pipeline/context.go:413-428 | the same for the response body |
| `PipelineContext.SetterEffects` | authbridge/authlib/pipeline/context.go:390-428 | under observe a shadow record and nothing else; otherwise that body replaced, its flag raised and one record; nothing while finishing |
| `PipelineContext.Context.MarkLastInvocationShadow` | authbridge/authlib/pipeline/context.go:630-651 | flips the shadow flag of exactly the latest record of that plugin and phase, and says whether there was one |
| `PipelineContext.LastDenyingPlugin` | authbridge/authlib/pipeline/outcome.go:131-151 | the reverse scan finds the latest effective deny of a list |
| `PipelineContext.LastDenier` | authbridge/authlib/pipeline/outcome.go:131-151 | none exactly when no record is an effective deny |
| `PipelineContext.DenierIsLatest` | authbridge/authlib/pipeline/outcome.go:131-151 | a denial that took effect and has none after it is the one that is found |
| `PipelineContext.OutcomeFromContext` | authbridge/authlib/pipeline/outcome.go:105-123 | rejecting plugin first, then outbound records, then inbound ones, then the status code |
| `PipelineContext.OutcomeLooksInOrder` | authbridge/authlib/pipeline/outcome.go:105-151 | for every context: the rejecting plugin, else the latest effective denial of the outbound records, else of the inbound ones, else the status code decides |
| `Pipelines.Pipeline.ResolvedPolicy` | authbridge/authlib/pipeline/pipeline.go:244-249 | the resolved policy, enforce beyond the list |
| `Pipelines.Execute` | authbridge/authlib/pipeline/pipeline.go:114-117 | a hook run against the context object equals its run on the context's value |
| `Pipelines.Pipeline.Dispatch` | authbridge/authlib/pipeline/pipeline.go:114-117 | stamp, dispatch list, hook, clear |
| `Pipelines.Pipeline.MarkShadow` | authbridge/authlib/pipeline/pipeline.go:259-295 | marks the plugin's own record, or synthesizes one deny with the violation's code |
| `Pipelines.Pipeline.Visit` | authbridge/authlib/pipeline/pipeline.go:114-128 | one plugin's turn under its policy |
| `Pipelines.Pipeline.Run` | authbridge/authlib/pipeline/pipeline.go:103-131 | the forward loop computes the request phase, whose calls are those of `PhaseCallsExactly`, for every cancellation point |
| `Pipelines.Pipeline.RunResponse` | authbridge/authlib/pipeline/pipeline.go:146-174 | the reverse loop computes the response phase, whose calls are those of `PhaseCallsExactly` |
| `Pipelines.Pipeline.RunResponseFrame` | authbridge/authlib/pipeline/pipeline.go:196-225 | the reverse loop computes the frame phase, whose calls are those of `PhaseCallsExactly` |
| `Pipelines.Pipeline.DispatchFinish` | authbridge/authlib/pipeline/pipeline.go:533-547 | OnFinish under the in-finish flag, lowered again either way |
| `Pipelines.Pipeline.FinishOne` | authbridge/authlib/pipeline/pipeline.go:516-523 | one round: OnFinish of that plugin if it is a finisher |
| `Pipelines.Pipeline.FinishAll` | authbridge/authlib/pipeline/pipeline.go:513-525 | the reverse loop computes the chain and the calls it makes |
| `Pipelines.Pipeline.RunFinish` | authbridge/authlib/pipeline/pipeline.go:497-525 | guard, outcome, chain and reset compute the finish phase and the calls it makes |
| `Pipelines.FinishKeepsContext` | authbridge/authlib/pipeline/context.go:304-428 | nothing OnFinish records or rewrites has an effect |
| `PipelineLaws.ShadowNonInterference` | authbridge/authlib/pipeline/pipeline.go:103-225 | over a whole uncancelled request, observing any set of plugins and switching them off give the same actions, bodies, mutation flags, rejecting plugin and rejecters |
| `PipelineLaws.WalksAgree` | authbridge/authlib/pipeline/pipeline.go:103-225 | the same for one phase of any kind |
| `PipelineLaws.ObservedVisitIsMute` | authbridge/authlib/pipeline/pipeline.go:114-123 | an observed plugin's turn changes only records and the dispatch list and never stops the phase |
| `PipelineCalls.PhaseCallsExactly` | authbridge/authlib/pipeline/pipeline.go:103-225 | every phase, forwards for requests and backwards otherwise, calls exactly those not off that have a turn, observed ones included, up to a position; every poll up to there was live, and there it was accepted at the end, stopped by the unobserved plugin just called, or cancelled at the next poll |
| `PipelineCalls.AcceptedPhaseCallsAll` | authbridge/authlib/pipeline/pipeline.go:103-225 | an accepted phase called all that have a turn, in order |
| `PipelineCalls.CallsRunOwnHooks` | authbridge/authlib/pipeline/pipeline.go:103-225 | the context and action of a phase are those of running, in order, the called plugins' own hooks for that phase |
| `PipelineCalls.TurnDecides` | authbridge/authlib/pipeline/pipeline.go:114-128 | a turn runs under the plugin's stamp and stops the phase exactly if the hook rejects and is not observed; the action keeps the hook's code and reason and names the plugin unless one was named |
| `PipelineCalls.ShadowLeavesTrace` | authbridge/authlib/pipeline/pipeline.go:259-295 | an observed Reject flips the shadow flag of exactly the plugin's latest record of the phase, or adds one shadow denial with the violation's code |
| `PipelineCalls.CallsArePrefix` | authbridge/authlib/pipeline/pipeline.go:103-225 | a phase calls a gap-free prefix of the plugins that have a turn: all of them if accepted |
| `PipelineFinish.WalkLedger` | authbridge/authlib/pipeline/pipeline.go:110-117 | the dispatch list grows by exactly the OnRequest hooks invoked |
| `PipelineFinish.FinishChainIsLifo` | authbridge/authlib/pipeline/pipeline.go:513-525 | the chain calls the finishers among the listed plugins last first, each seeing the outcome |
| `PipelineFinish.FinishIsExactLifoOnce` | authbridge/authlib/pipeline/pipeline.go:463-547 | after any phases, the finishers among the plugins whose OnRequest ran are finished, last first, whichever panic; the outcome is visible only then; finishing again does nothing |
| `PipelineFinish.FinishedAsOftenAsRequested` | authbridge/authlib/pipeline/pipeline.go:497-525 | over any number of Runs a finisher is finished exactly as often as its OnRequest was invoked |
| `PipelineFinish.OneRunRequestsInOrder` | authbridge/authlib/pipeline/pipeline.go:103-131 | one Run invokes each plugin at most once, in strictly increasing order |
| `PipelineFinish.EachIsFinishedOnce` | authbridge/authlib/pipeline/pipeline.go:463-547 | with at most one Run, a finisher is finished exactly once if its OnRequest was invoked, and otherwise not at all |
| `PipelineOutcome.DenyIffEnforcedReject` | authbridge/authlib/pipeline/outcome.go:105-151 | for plugins whose only effective denial is their own last record before a Reject: Deny naming the first named rejecter if there is one; not Deny if nobody rejected; and if only nameless plugins rejected, Deny exactly when a denial is still on record |
| `PipelineOutcome.DenyMeansRejectIff` | authbridge/authlib/pipeline/outcome.go:105-151 | over all disciplined plugins with given names and policies and all requests: Deny agrees with "an enforced plugin rejected" if and only if every enforced plugin has a name |
| `PipelineOutcome.NamedPipelinesDenyIffReject` | authbridge/authlib/pipeline/outcome.go:105-151 | with every enforced plugin named: Deny exactly when an enforced Reject stopped a phase, naming the first such plugin; otherwise decided by the status code |
| `PipelineOutcome.NamelessRejectCountsIff` | authbridge/authlib/pipeline/context.go:285-289 | from a clean start, a nameless enforced Reject makes the outcome Deny if and only if the plugin left a denial on record |
| `PipelineOutcome.NamelessRejectIsReportedAsAllow` | authbridge/authlib/pipeline/context.go:285-289 | a request stopped by a silent nameless plugin is reported as allowed |
| `PipelineOutcome.GateIsDisciplined` | authbridge/authlib/pipeline/context.go:351-370 | the usual gate, which records a denial and rejects, keeps the discipline whatever its name |
| `PipelineOutcome.ShadowedCleanIff` | authbridge/authlib/pipeline/pipeline.go:259-295 | after an observed Reject the records are clean if and only if the plugin's only denial was its own last record |
| `PipelineOutcome.ShadowedAccounted` | authbridge/authlib/pipeline/pipeline.go:259-295 | an observed Reject of such a plugin takes its denial back and adds none |
| `PipelineOutcome.UndisciplinedShadowCountsAsDeny` | authbridge/authlib/pipeline/context.go:643-649 | without that discipline an observed denial is reported as a deny |
| `PipelineOutcome.ObservedDenialCountsIff` | authbridge/authlib/pipeline/pipeline.go:259-295 | from a clean start, an observed plugin makes the outcome Deny if and only if it records a denial other than as its own last record before a Reject |
| `PipelineBody.ValidateCapabilities` | authbridge/authlib/pipeline/pipeline.go:555-573 | accepts exactly the chains without a named mutator before another mutator or a named reader |
| `PipelineBody.CapabilityCheckIsRightIff` | authbridge/authlib/pipeline/pipeline.go:549-573 | a chain is well ordered if and only if it is accepted and no out-of-order pair is hidden by an empty name |
| `PipelineBody.OriginalGuaranteedIff` | authbridge/authlib/pipeline/pipeline.go:549-573 | for accepted chains: request readers see the original bytes whatever the plugins do within their declarations, if and only if nothing is hidden |
| `PipelineBody.FinalGuaranteedIff` | authbridge/authlib/pipeline/pipeline.go:549-573 | for accepted chains: response readers see the final bytes whatever the plugins do within their declarations, if and only if no reader is hidden |
| `PipelineBody.NamedChainsAreChecked` | authbridge/authlib/pipeline/pipeline.go:549-573 | in particular, with all body-declaring plugins named, exactly the well-ordered chains are accepted |
| `PipelineBody.NamelessMutatorsEscape` | authbridge/authlib/pipeline/pipeline.go:555-573 | two nameless mutators are accepted |
| `PipelineBody.RequestReadersSeeOriginal` | authbridge/authlib/pipeline/pipeline.go:103-131 | in every accepted pipeline with nothing hidden, every body-declaring plugin enters OnRequest with the original request bytes |
| `PipelineBody.ResponseReadersSeeFinal` | authbridge/authlib/pipeline/pipeline.go:146-174 | in every accepted pipeline with no reader hidden, every reader other than a mutator enters OnResponse with the bytes RunResponse leaves |
| `Registry.WrappingRedirectsFrames` | authbridge/authlib/pipeline/configured.go:39-107 | a wrapped streaming plugin gets OnResponse and no frames |
| `Registry.WrappingIsUnobservableIff` | authbridge/authlib/pipeline/configured.go:39-107 | wrapping leaves every phase's hook as it was if and only if the plugin is not a streaming responder |
| `Registry.Positions` | authbridge/authlib/plugins/registry.go:381-391 | the map holds the first occurrence of each name |
| `Registry.PositionIsEarlier` | authbridge/authlib/plugins/registry.go:381-441 | comparing first positions answers "occurs earlier" |
| `Registry.CheckPlugin` | authbridge/authlib/plugins/registry.go:395-435 | no error exactly when this plugin's requirements are met |
| `Registry.ValidateRelationships` | authbridge/authlib/plugins/registry.go:381-441 | accepts exactly the chains where every requirement is earlier, and of each any-of list one is earlier and none only later |
| `Registry.Build` | authbridge/authlib/plugins/registry.go:278-311 | instantiates the entries that are on, in order, with the first error winning, then checks relationships and capabilities |
| `Registry.BuildYields` | authbridge/authlib/plugins/registry.go:278-311 | from entries and factories alone: the first wrong entry decides the error; otherwise the chain holds for each entry that is on, in order, its plugin with its own hooks under its policy, and is refused for relationships before capabilities |
| `Registry.BuiltRequirementsAreMet` | authbridge/authlib/plugins/registry.go:381-441 | in every built pipeline all that a plugin requires comes before it, one of what it requires any of does, and none of those only after it |
| `Registry.BuiltPipelinesShowBodies` | authbridge/authlib/plugins/registry.go:278-311 | every pipeline that is built with nothing hidden shows request readers the original bytes and response readers the final ones |
| `Registry.BuildIgnoresOff` | authbridge/authlib/plugins/registry.go:278-311 | building equals building without the switched-off entries, errors included |
| `Registry.WalkSkipsOff` | authbridge/authlib/pipeline/pipeline.go:103-109 | skipping a plugin at dispatch is the same as its absence |
| `Registry.RemovingOffIsSkippingOff` | authbridge/authlib/pipeline/pipeline.go:103-225 | over a whole request, a pipeline and the same one without its off plugins agree in everything but plugin numbering |
| `Registry.BuildDropsWhatDispatchSkips` | authbridge/authlib/plugins/registry.go:278-311 | what is collected equals collecting everything and removing the off plugins |
| `Lifecycle.Runtime.Start` | authbridge/authlib/pipeline/pipeline.go:407-420 | computes the start of `StartInitsThenUnwinds` |
| `Lifecycle.Runtime.UnwindStart` | authbridge/authlib/pipeline/pipeline.go:425-438 | makes the Shutdown calls of `StopShutsLastFirst` for the plugins before the failed one |
| `Lifecycle.Runtime.Stop` | authbridge/authlib/pipeline/pipeline.go:449-461 | makes the Shutdown calls of `StopShutsLastFirst` |
| `Lifecycle.FirstFailure` | authbridge/authlib/pipeline/pipeline.go:407-420 | the first initializer that fails, with everything before it succeeding |
| `Lifecycle.StartIsAllOrNothing` | authbridge/authlib/pipeline/pipeline.go:400-438 | a successful start opens each plugin of the chain, a failed one leaves nothing open |
| `Lifecycle.StopCloses` | authbridge/authlib/pipeline/pipeline.go:449-461 | stop shuts each shutdowner as often as it occurs and inits nothing |
| `Lifecycle.StopShutsLastFirst` | authbridge/authlib/pipeline/pipeline.go:449-461 | the Shutdown calls are at strictly decreasing positions, which are exactly those of the shutdowners |
| `Lifecycle.StartInitsThenUnwinds` | authbridge/authlib/pipeline/pipeline.go:407-438 | start succeeds exactly if every Init does; its Inits are at strictly increasing positions, exactly the initializers before the first failure, and on failure the Shutdowns at strictly decreasing ones, exactly the shutdowners before it |
| `Reloading.StartedPluginsAreConserved` | authbridge/authlib/reloader/reloader.go:216-299 | at every step of every run, with failures anywhere and drains in between, Inits equal Shutdowns plus occurrences in pipelines held, in hand or draining |
| `Reloading.ShutDownExactlyOnceOrHeld` | authbridge/authlib/reloader/reloader.go:216-299 | with fresh instances, an initialized plugin was shut down once and is nowhere, or never and is in exactly one pipeline; none is shut down twice |
| `Reloading.NothingIsSpentTwice` | authbridge/authlib/reloader/reloader.go:216-299 | shut down, held and unstarted occurrences never exceed what was built |
| `Reloading.ReloadsStayCoherent` | authbridge/authlib/reloader/reloader.go:216-346 | the published configuration stays reloadable from that of boot, successes and failures add up to the attempts, and the three published values are at most one generation apart |
| `Reloading.SettingsNeverChange` | authbridge/authlib/reloader/reloader.go:216-325 | at every step of every run the published mode and listener settings are those of boot |
| `Reloading.AttemptReports` | authbridge/authlib/reloader/reloader.go:216-346 | the status after an attempt, from what it read, built and initialized: the first trouble, when, and the counts; an unchanged file is no attempt |
| `Reloading.RefusedIffSettingsDiffer` | authbridge/authlib/reloader/reloader.go:216-325 | a changed file that builds is refused as unreloadable if and only if its mode or its listener settings differ from the published ones |
| `Reloading.CommitsIffNoTrouble` | authbridge/authlib/reloader/reloader.go:216-299 | an attempt commits if and only if the file changed, builds, keeps mode and listener settings, and every Init succeeds; the old pipelines then drain |
| `Reloading.ReportedHashIsLastCommitted` | authbridge/authlib/reloader/reloader.go:216-346 | at every step the reported hash is the one read by the last attempt that committed, or the one at boot |
| `Reloading.AttemptIsARun` | authbridge/authlib/reloader/reloader.go:216-299 | one attempt is a run of the machine |
| `Reloading.RunExtends` | authbridge/authlib/reloader/reloader.go:216-299 | runs concatenate, so the laws cover sequences of attempts |
| `Reloading.OnlyCommitsChangeAnything` | authbridge/authlib/reloader/reloader.go:216-346 | a failed attempt leaves pipelines, configuration, hash and drains alone and is counted; an unchanged file changes nothing; a commit publishes the candidate |
| `Reloading.Reloader.constructor` | authbridge/authlib/reloader/reloader.go:92-118 | the boot state |
| `Reloading.Reloader.ReloadOnce` | authbridge/authlib/reloader/reloader.go:216-325 | the whole attempt, for every outcome of reading, building and checking; its result is that of `AttemptReports` and `CommitsIffNoTrouble` |
| `Reloading.Reloader.Replace` | authbridge/authlib/reloader/reloader.go:249-299 | starting both pipelines, unwinding, swapping and recording |
| `Reloading.Reloader.RecordFailure` | authbridge/authlib/reloader/reloader.go:327-335 | the failure is counted and nothing else changes |
| `Reloading.Reloader.FinishDrain` | authbridge/authlib/reloader/reloader.go:280-295 | a background drain stops inbound then outbound |
| `LeafMinter.CacheIsMostRecentHosts` | authbridge/authlib/tlsbridge/minter.go:69-93 | if minting succeeds, the cached hosts are exactly the most recently requested ones, in order, whatever the clock did |
| `LeafMinter.RecentIsByLastUse` | authbridge/authlib/tlsbridge/minter.go:69-93 | that reference order is strictly by last request |
| `LeafMinter.RecentDistinct` | authbridge/authlib/tlsbridge/minter.go:69-93 | and holds each requested host once |
| `LeafMinter.ServedLeafIsValid` | authbridge/authlib/tlsbridge/minter.go:69-123 | with a monotone clock and certificates in whole seconds, every leaf served was minted for the host asked for and is valid from before the first clock read of the call that concerns it until after the last, by more than an hour less a second and less the longest mint |
| `LeafMinter.ServesCachedElseMints` | authbridge/authlib/tlsbridge/minter.go:69-123 | a cached leaf that has not expired is served as it is; otherwise one is minted for the host, valid from a minute before until an hour after the time to live, or there is none |
| `LeafMinter.FreshLeafIsServedForTtl` | authbridge/authlib/tlsbridge/minter.go:69-93 | a minted leaf is served again for exactly the time to live |
| `LeafMinter.MintLeavesInCache` | authbridge/authlib/tlsbridge/minter.go:81-93 | minting puts the new entry in the cache and loses another only if the cache is then full |
| `LeafMinter.NoMintLeavesInCache` | authbridge/authlib/tlsbridge/minter.go:69-84 | serving from the cache changes no entry; a failed mint removes the host's expired one only |
| `LeafMinter.Minter.constructor` | authbridge/authlib/tlsbridge/minter.go:41-58 | empty, with defaults for non-positive settings |
| `LeafMinter.Minter.GetCertificateForHost` | authbridge/authlib/tlsbridge/minter.go:69-93 | hit, expiry, failed mint, fresh mint and eviction, with list and map kept in bijection |
| `LeafMinter.Minter.MintAndStore` | authbridge/authlib/tlsbridge/minter.go:81-123 | the new leaf goes to the front and the bound is restored |
| `LeafMinter.Minter.EvictOverflow` | authbridge/authlib/tlsbridge/minter.go:87-91 | the eviction loop keeps the first `max` entries |
| `SkipSets.ReportedMeansRecent` | authbridge/authlib/tlsbridge/decision.go:94-125 | a host that is reported was added less than the time to live ago, whatever the clock did |
| `SkipSets.SetStaysBounded` | authbridge/authlib/tlsbridge/decision.go:94-118 | the set stays within its bound as long as no empty host is added |
| `SkipSets.ExactWhileNotFull` | authbridge/authlib/tlsbridge/decision.go:94-125 | with a monotone clock, and never full of live hosts, the answers are exactly those of the log of additions |
| `SkipSets.ExactIffRoom` | authbridge/authlib/tlsbridge/decision.go:94-118 | while the empty host is not live, every way of adding a host keeps the answers exact if and only if fewer than `max` hosts are live, or the host is live and was added before all other live ones |
| `SkipSets.NewHostExactIffRoom` | authbridge/authlib/tlsbridge/decision.go:94-118 | for a host that is not live, whatever is dropped: exact if and only if fewer than `max` hosts were live |
| `SkipSets.DropsOnlyEarliestWhenFull` | authbridge/authlib/tlsbridge/decision.go:98-116 | a live host is dropped only when `max` are live, it is one due first, and nothing else is lost |
| `SkipSets.RoomDropsEarliestIff` | authbridge/authlib/tlsbridge/decision.go:98-116 | the sweep makes room by dropping an earliest entry, in every iteration order, if and only if no live empty host is due before all others when there is no room |
| `SkipSets.EmptyHostOverflows` | authbridge/authlib/tlsbridge/decision.go:98-116 | a run of two additions, one of the empty host, after which a set of bound one holds two |
| `SkipSets.SkipSet.constructor` | authbridge/authlib/tlsbridge/decision.go:90-92 | empty, with the fixed time to live and bound |
| `SkipSets.SkipSet.Add` | authbridge/authlib/tlsbridge/decision.go:94-118 | the set changes by the addition relation, for any set and host |
| `SkipSets.SkipSet.Sweep` | authbridge/authlib/tlsbridge/decision.go:102-112 | the loop purges exactly the expired and is the sentinel scan of the rest |
| `SkipSets.SkipSet.Contains` | authbridge/authlib/tlsbridge/decision.go:120-125 | present and not expired |
| `SharedStore.EvictionLosesNothingCurrent` | authbridge/authlib/shared/store.go:37-96 | in every interleaving with a monotone clock, stored and reference map differ only in expired entries |
| `SharedStore.GetAnswersForItsReadStep` | authbridge/authlib/shared/store.go:45-63 | a Get returns the value current at its read step if and only if it had not expired at its check step, whatever happens in between |
| `SharedStore.PendingIsPrivate` | authbridge/authlib/shared/store.go:45-63 | no other thread changes a Get in progress |
| `SharedStore.SectionEffects` | authbridge/authlib/shared/store.go:37-96 | a sweep removes exactly the entries past their expiry, an eviction that key's entry exactly if past it, a store replaces that key's entry alone |
| `SharedStore.StoredIsReadForTtl` | authbridge/authlib/shared/store.go:37-63 | what was stored is read back until its time to live is over, and not after |
| `SharedStore.Store.Put` | authbridge/authlib/shared/store.go:37-41 | the entry is stored with its expiry |
| `SharedStore.Store.Get` | authbridge/authlib/shared/store.go:45-63 | the current value, or nothing and the entry evicted after looking again |
| `SharedStore.Store.EvictLocked` | authbridge/authlib/shared/store.go:53-60 | removed only if still expired |
| `SharedStore.Store.Delete` | authbridge/authlib/shared/store.go:66-70 | the key and no other goes |
| `SharedStore.Store.Sweep` | authbridge/authlib/shared/store.go:87-96 | exactly the expired entries go |
| `CardLabels.AggregateVerifiedState` | kagenti-operator/internal/controller/agentcard_controller.go:1141-1152 | true exactly when some card has an annotation and all are "true" |
| `CardLabels.Object.Propagate` | kagenti-operator/internal/controller/agentcard_controller.go:1078-1138 | the edit of one attempt, and whether it is written |
| `CardLabels.Object.CleanUp` | kagenti-operator/internal/controller/agentcard_controller.go:1260-1310 | removal of one card's annotation with the label recomputed, and whether it is written |
| `CardLabels.Object.Relabel` | kagenti-operator/internal/controller/agentcard_controller.go:1121-1128 | the label is set or removed by the aggregate |
| `CardLabels.KeysAreFaithful` | kagenti-operator/internal/controller/agentcard_controller.go:1078-1090 | different cards have different annotation keys, none of them the legacy one |
| `CardLabels.EditIsLocal` | kagenti-operator/internal/controller/agentcard_controller.go:1078-1152 | an edit sets its own card's annotation, no other's, and leaves the label correct |
| `CardLabels.UndisturbedAttemptTakesEffect` | kagenti-operator/internal/controller/agentcard_controller.go:1078-1310 | an attempt nobody interferes with leaves the card's annotation at the given state, or absent after a removal, and the label as it should be, written or not |
| `CardLabels.EditTouchesNothingElse` | kagenti-operator/internal/controller/agentcard_controller.go:1078-1310 | no other annotation or label is touched, except that a propagation removes the legacy annotation |
| `CardLabels.CurrentVersionMeansCurrentCopy` | kagenti-operator/internal/controller/agentcard_controller.go:1078-1138 | in every interleaving a copy whose version is current is current |
| `CardLabels.NoCommitIsLost` | kagenti-operator/internal/controller/agentcard_controller.go:1078-1310 | in every interleaving each card's annotation is what that card last committed |
| `CardLabels.LabelIsAlwaysCorrect` | kagenti-operator/internal/controller/agentcard_controller.go:1078-1310 | from the first commit on, the label is "true" exactly when some annotation exists and all are "true" |
| `CardLabels.LabelMeansEveryCardVerified` | kagenti-operator/internal/controller/agentcard_controller.go:1078-1310 | in terms of commits: some card was last committed as verified and none as unverified |
| `ResignThrottle.EitherConditionRestartsIff` | kagenti-operator/internal/controller/agentcard_controller.go:1491-1572 | "either condition restarts" holds if and only if neither condition holds, or the throttle is open and it is not that the leaf is expiring and was acted upon |
| `ResignThrottle.RestartsExactlyWhen` | kagenti-operator/internal/controller/agentcard_controller.go:1520-1572 | a restart is made if and only if the last one is a grace period ago or unknown, the leaf is expiring or the bundle hash changed, and not both expiring and already acted upon |
| `ResignThrottle.LookLeaves` | kagenti-operator/internal/controller/agentcard_controller.go:1497-1602 | a restart records time, leaf expiry and bundle hash; otherwise only a missing bundle hash is recorded, and not inside the throttle or for a leaf acted upon |
| `ResignThrottle.RotationIsNoticed` | kagenti-operator/internal/controller/agentcard_controller.go:1497-1572 | a bundle seen first by one look and changed by the next restarts, outside the throttle and unless the leaf was acted upon |
| `ResignThrottle.RotationIsMissedForKnownLeaf` | kagenti-operator/internal/controller/agentcard_controller.go:1539-1553 | a run of two reconciles in which a changed bundle goes without a restart |
| `ResignThrottle.ExpiringLeafRestartsIff` | kagenti-operator/internal/controller/agentcard_controller.go:1539-1548 | outside the throttle an expiring leaf gets a restart if and only if it is not the leaf of the latest restart, whatever caused that |
| `ResignThrottle.LeafGetsOneRestartIff` | kagenti-operator/internal/controller/agentcard_controller.go:1539-1548 | with advancing leaves: if and only if no restart at all was made with that leaf in place |
| `ResignThrottle.BundleRestartUsesUpLeaf` | kagenti-operator/internal/controller/agentcard_controller.go:1574-1592 | a run in which a restart for a changed bundle leaves an expiring, still valid leaf without one |
| `ResignThrottle.RestartsAreSpaced` | kagenti-operator/internal/controller/agentcard_controller.go:1520-1534 | over every run any two restarts are more than the grace period less one second apart |
| `ResignThrottle.SpacingIsTight` | kagenti-operator/internal/controller/agentcard_controller.go:1520-1534 | and that bound is attained |
| `ResignThrottle.StampIsRemembered` | kagenti-operator/internal/controller/agentcard_controller.go:1574-1602 | the stored stamp is never older than a restart made |
| `ResignThrottle.LeafIsRemembered` | kagenti-operator/internal/controller/agentcard_controller.go:1574-1602 | the stored expiry is never behind a leaf a restart was made with |
| `ResignThrottle.ExpiryRestartsAdvance` | kagenti-operator/internal/controller/agentcard_controller.go:1539-1548 | each restart for expiry is for a strictly later expiry |
| `ResignThrottle.RestartsNeverOutnumberLeaves` | kagenti-operator/internal/controller/agentcard_controller.go:1539-1548 | so they never outnumber the leaves, however short-lived those are |
| `ResignThrottle.Annotated.MaybeRestartForResign` | kagenti-operator/internal/controller/agentcard_controller.go:1497-1572 | the decision and the new annotations |
| `ResignThrottle.Annotated.TriggerRolloutRestart` | kagenti-operator/internal/controller/agentcard_controller.go:1574-1602 | the three annotations a restart writes |
| `KeycloakSync.SecondRunIsIdleIff` | authbridge/keycloak_sync.py:79-191 | a run straight after a completed one attempts no write, however it would be answered, if and only if targets that share an audience agree on its host |
| `KeycloakSync.CompletedRunSatisfiesIff` | authbridge/keycloak_sync.py:79-191 | under the same condition, and only then, a completed run leaves every target with its client, mapped and assigned audience scopes and hostname |
| `KeycloakSync.CompletedRunLeaves` | authbridge/keycloak_sync.py:51-191 | a completed run leaves the named agent as a client, every counting target's client, and each listed scope ending in "-aud" with a mapper and granted to the agent; every hostname is set if and only if targets that share an audience agree |
| `KeycloakSync.RunAddsOnlyWhatIsAsked` | authbridge/keycloak_sync.py:51-191 | whatever is declined or fails, every new client is a counting target's or the agent, every new scope is listed and ends in "-aud", every new grant is of such a scope to the named agent; with no agent named nothing is granted |
| `KeycloakSync.AgentIsCreatedForExchange` | authbridge/keycloak_sync.py:218-243 | a missing agent is created with token exchange enabled |
| `KeycloakSync.TargetsIdleIff` | authbridge/keycloak_sync.py:79-191 | a run attempts no write if and only if everything is in place |
| `KeycloakSync.DisagreeingHostsKeepWriting` | authbridge/keycloak_sync.py:168-191 | two targets that disagree on a host make every run write |
| `KeycloakSync.ReconcilingOnlyAdds` | authbridge/keycloak_sync.py:92-191 | whatever is declined or fails, no client, scope, mapper, assignment or unrelated attribute is removed or changed |
| `KeycloakSync.LastHostWins` | authbridge/keycloak_sync.py:168-191 | the last target for an audience decides its hostname |
| `KeycloakSync.MapperGoesToFirstTarget` | authbridge/keycloak_sync.py:129-166 | a scope keeps its mappers, or gets one for the first target that lists it |
| `KeycloakSync.AudienceIsMappedIff` | authbridge/keycloak_sync.py:258-267 | a target's audience is mapped exactly when it was already, or no mapper existed and the first target listing the scope has that audience |
| `KeycloakSync.SharedScopeMapsFirstAudience` | authbridge/keycloak_sync.py:258-267 | two targets sharing a scope: the second audience is never mapped |
| `KeycloakSync.Reconciler.Reconcile` | authbridge/keycloak_sync.py:79-90 | the loop computes the run of `CompletedRunLeaves` and `RunAddsOnlyWhatIsAsked` and counts the targets it checked |
| `KeycloakSync.Reconciler.ReconcileTarget` | authbridge/keycloak_sync.py:92-127 | client, scopes, hostname, stopping when there is no client |
| `KeycloakSync.Reconciler.CheckScopes` | authbridge/keycloak_sync.py:129-166 | every audience scope in order, others ignored |
| `KeycloakSync.Reconciler.CheckScope` | authbridge/keycloak_sync.py:134-166 | create with mapper, or add a missing mapper, then assign |
| `KeycloakSync.Reconciler.CheckHostname` | authbridge/keycloak_sync.py:168-191 | written only when missing or different |
| `KeycloakSync.Reconciler.AssignScopeToAgent` | authbridge/keycloak_sync.py:333-362 | written only when there is an agent without it |
| `KeycloakSync.Reconciler.EnsureAgent` | authbridge/keycloak_sync.py:65-77 | the agent client is created if named and missing, and is the one granted scopes if then present |

## Left out

- Session store: the pacing of the background cleanup; a cleanup may happen at any time.
- Session IDs are sequences of characters; cutting a multi-byte character when truncating is not modelled.
- PipelineContext.Context.Record: does not fill in the path or carry details beyond plugin, phase, action, reason and shadow, which no decision depends on.
- PipelineContext.Context.SetBody: does not store the body-mutation telemetry event, which no decision depends on.
- PipelineContext.Context.SetResponseBody: does not store it either.
- Pipeline: readiness, finish timeouts, and logging.
- Holders that swap pipelines under a running request: finish is about one fixed pipeline.
- Plugins that keep state between hooks or share it with goroutines; hooks here depend on the message alone.
- Registry: the global registration functions, and error texts beyond their kind and plugin name.
- Reloader: the file watcher, debouncing and periodic polling that start an attempt; Shutdown errors, which are only logged; stopping at process exit.
- TLS bridge: certificate contents beyond host and validity, and the static classification of connections.
- Shared store: the janitor's ticker; a sweep may happen at any time.
- Card labels: fetch errors, an exhausted retry budget, and which workload kinds exist.
- Re-sign throttle: failing reads or writes, and concurrent writers of the restart annotations.
- Keycloak: dry-run mode, failing reads, conflict answers to an assignment, scopes that the provider assigns to a new client on its own, and the result counters other than the targets checked. A declined prompt counts as a write that did not take effect.
- JWT verification, token exchange, routing, configuration presets, HTTP and gRPC servers, and Kubernetes resource construction: library calls or single-branch code.
