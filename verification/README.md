# Verified models of the OpenCode plugin monorepo

Dafny models of the stateful components of this repository, with machine-checked proofs of what they
are for. `dafny verify dfyconfig.toml` checks everything.

Concurrent components are state machines. One step is one synchronous stretch between two awaits (or
one file-system call, one frame, one timer), a run is a sequence of states and steps, and theorems are
about every run. Where the code updates fields in place there is also a class whose methods update the
same fields and are proved to take exactly the steps of the machine.

| files | component |
|---|---|
| `FileLock` | the advisory lock file: create, stamp, read age, break, unlink, poll, against a deadline |
| `TokenRuntime`, `TokenOutcome`, `SharedRefresh`, `SharedRefreshNeeds` | `ensure` on one runtime, and which token it ends with; any number of processes sharing one token file, one lock file and one identity provider with single-use rotating refresh tokens (section 5.2.2.3 of RFC 6819); what happens without each assumption |
| `ProviderSync` | the engine's in-memory state, its cache file and the writers that overlap on it |
| `Broker`, `BrokerSafety`, `BrokerOwnership`, `BrokerSettlement`, `BrokerAdmission`, `BrokerPicking`, `BrokerEffects`, `BrokerHost` | the browser bridge broker: its invariant, who owns a group, that commands settle once, who is let in, where a command goes, what each other step does |
| `AgentClient`, `Bridge`, `BridgeSenders` | the guest side of the bridge, guests and broker together over a wire that may lose frames, and who answers whom |
| `RateTiers`, `RateGate`, `RateGateLeaving`, `RateFetch` | retry tiers, the wait gate with its shared timer, the retrying fetch |
| `SseFraming`, `SseRepair`, `SseNames`, `SseTwice`, `SseCodec` | cutting event streams into frames, filling in missing indices, chunked and whole-text, once and twice |
| `CodeIndex`, `CodeIndexer`, `CodeIndexStore` | the content-addressed index, its queries and the blob-delta indexing loop |
| `Recorder`, `RecorderSpans`, `RecorderLife`, `RecorderCounts`, `RecorderHost` | the telemetry recorder: conservation of spans, where each starts and ends, what is counted |

Oracles stand for what the code calls and does not define: the identity provider's answers, whether a
token is still valid, the clock, whether a write or an HTTP call fails, parsing and printing of JSON,
and tree-sitter extraction. Assumptions are `requires` clauses of the theorems.

## What turned out different from what one might expect

- `release` unlinks without an ownership check and two waiters can break the same stale file, so
  exclusion holds until a held file has been broken (`ExclusiveUntilRobbed`), and a run in which two
  attempts hold the lock together is exhibited (`TwoBreakersBothHold`).
- `setCached` and `syncServer` stamp `updatedAt` before they await, so in between a read can adopt a
  later snapshot, or the engine's own other write can commit one, and the write then takes `updatedAt`
  back. `GoesBackExactlyWhenOvertaken` says exactly when, `NeverGoesBackExactly` says it of whole runs,
  and `SaveOvertakenByRead` and `SaveOvertakenBySync` show both ways.
- `syncServer` writes back the token it obtained before the model fetch; `SyncUndoesRotationExactly`
  says exactly when that undoes a rotation, and `NeverReplays` needs it not to.
- The broker does not check which executor a result frame comes from: any connected executor can
  complete any pending command (`AnyExecutorCanAnswer`, `WrongBrowserAnswers`). The answer comes from the
  executor the command was sent to exactly when the missing check would pass
  (`AnswererIsAddresseeExactly`).
- A second handshake with another id leaves a dead entry in the broker's id map;
  `JoinExecutorKeepsInvExactly` and `JoinAgentKeepsInvExactly` give the exact condition.
- The stream form and the whole-text form of the SSE repair cut a text differently exactly when a third
  newline follows a blank line inside it, and then their outputs can differ (`ThirdNewlineMatters`).
- A blob stored under one extension is never extracted again under another (`FirstLanguageWins`).
- Creating a live session again, or starting a live call again, loses its span
  (`StepConservesSpansExactly`), and a message or call is counted once exactly when it is not reported
  again after the session it finished in has ended (`CountedExactlyOnce`, `LateReportCountsTwice`).

## Model

| member | source | states |
|---|---|---|
| FileLock.OwnershipLostExactlyByRobbing | packages/opencode-auth-core/src/lock.ts:135-175 | a step takes the path from its holder if and only if it breaks a held file; `release`, which unlinks without looking, never does so while exclusion holds |
| FileLock.ExclusiveUntilRobbed | packages/opencode-auth-core/src/lock.ts:113-188 | at most one holder in every interleaving with crashes, stalls and refused writes, up to the first break of a held file |
| FileLock.ExclusiveWhenTimely | packages/opencode-auth-core/src/lock.ts:113-188 | with every holder releasing under staleMs, no holder crashing, payloads written and ages readable, nobody decides to break a file and exclusion is unconditional; attempts that hold nothing may crash |
| FileLock.TwoBreakersBothHold | packages/opencode-auth-core/src/lock.ts:162-175 | after one crash or one slow holder, a run ends with two attempts holding the lock together |
| FileLock.OverByDeadline | packages/opencode-auth-core/src/lock.ts:113-188 | an attempt started at t whose own calls take no time is over by t + maxWaitMs + pollMs, however slow the others are, so an abandoned file blocks nobody forever |
| FileLock.FewStepsAfterDeadline | packages/opencode-auth-core/src/lock.ts:113-188 | past its deadline an attempt needs at most four more steps of its own |
| FileLock.TakesFreeAndStaleExactly | packages/opencode-auth-core/src/lock.ts:129-186 | left to itself before its deadline an attempt holds a free path after two steps and one whose file is older than staleMs after five; a younger file it leaves alone and sleeps pollMs |
| FileLock.Directory.Open | packages/opencode-auth-core/src/lock.ts:130-146 | the exclusive create: it opens exactly when permitted and the path was free as the call took effect, and then the path names the attempt's new file; otherwise the file stays as it was |
| FileLock.Directory.Unlink | packages/opencode-auth-core/src/lock.ts:162-175 | breaking removes whatever file there was as the call took effect, reports whether it removed one, and goes on to create, sleep or give up at the deadline |
| FileLock.AcquireFileLock | packages/opencode-auth-core/src/lock.ts:113-188 | the retry loop takes only steps of the machine, whatever others do between its calls, and reports where the attempt ended |
| TokenRuntime.AcquisitionIsFrugal | packages/opencode-auth-core/src/token-runtime.ts:255-326 | an acquisition presents at most two refresh tokens, always distinct, and never hands a presented one to the login fallback |
| TokenRuntime.AcquisitionEnds | packages/opencode-auth-core/src/token-runtime.ts:234-326 | every acquisition ends after at most nine awaits, the last of which gives the lock back |
| TokenRuntime.OneAcquisitionAtATime | packages/opencode-auth-core/src/token-runtime.ts:169-188 | in every interleaving of `ensure` calls at most one acquisition is in flight and every waiter waits on it |
| TokenRuntime.JoinersShareTheOutcome | packages/opencode-auth-core/src/token-runtime.ts:169-188 | a caller that joins an acquisition waits until it settles and gets its outcome |
| TokenOutcome.OutcomeComesFromInputs | packages/opencode-auth-core/src/token-runtime.ts:234-326 | told by what the awaits brought alone: an acquisition with a valid read, at lock entry or after a rejection, ends with exactly the token of that read; else with the token issued to it, once saved; else with what the login came to, where an access token other than the base's counts only once saved |
| TokenOutcome.SendsExactly | packages/opencode-auth-core/src/token-runtime.ts:255-326 | the base's refresh token goes out exactly when the first read is not valid and refreshing is on; a second one exactly when the first is rejected and the next read is not valid and brings another; a login is handed the base without a token that was sent |
| TokenOutcome.ReturnedCameFrom | packages/opencode-auth-core/src/token-runtime.ts:169-188 | in every interleaving what `ensure` returns was valid when its caller read it, or is what the one acquisition it started or joined came to by that acquisition's own inputs |
| TokenRuntime.Coordinator.AcquireCoordinated | packages/opencode-auth-core/src/token-runtime.ts:234-253 | lock, re-read with `reread ?? snapshot`, refresh or log in, release: the steps of the acquisition automaton; it returns the re-read token if that is valid, else what was refreshed or logged in |
| TokenRuntime.Coordinator.RefreshOrLogin | packages/opencode-auth-core/src/token-runtime.ts:255-300 | presents the base token once, recovers from a rejection, else logs in without a presented token |
| TokenRuntime.Coordinator.RecoverFromRejectedRefresh | packages/opencode-auth-core/src/token-runtime.ts:302-326 | re-reads and retries at most once, only with a different refresh token |
| TokenRuntime.Ensurer.Ensure | packages/opencode-auth-core/src/token-runtime.ts:169-188 | a valid cached token answers, a pending acquisition is joined, else one is started and put in the slot |
| TokenRuntime.Ensurer.Finally | packages/opencode-auth-core/src/token-runtime.ts:181-188 | settling empties the slot and answers everyone waiting |
| SharedRefresh.NeverReplays | packages/opencode-auth-core/src/token-runtime.ts:234-326 | in every interleaving of any number of processes no rotated refresh token is presented again, given that locks are acquired and held under staleMs, no holder crashes, lock payloads are written and ages readable, token writes land, a failed refresh does not rotate, a sync saves only a token still on file, and nobody else writes the file |
| SharedRefreshNeeds.EachHypothesisIsNeeded | packages/opencode-auth-core/src/token-runtime.ts:234-326 | for each of acquisition, timeliness, no crash of a holder, readable ages, no lost answer, landing writes, fresh syncs and no foreign writes, a run that breaks only that one replays a rotated token |
| ProviderSync.TokenIsNeverLost | packages/opencode-provider-sync/src/engine.ts:261-317 | a state that holds a token never becomes tokenless, whatever other processes write |
| ProviderSync.AdoptionIsWholesale | packages/opencode-provider-sync/src/engine.ts:261-317 | in every run a resuming read leaves memory alone or replaces it whole by the one snapshot that was on file when the read fetched it, the latter exactly when that snapshot holds a token and is not older than memory by now |
| ProviderSync.WritesLeaveWhatTheyWere | packages/opencode-provider-sync/src/engine.ts:351-366 | what a write brings is fixed at its stamp: a saved token with the models then in memory, a sync's with those it fetched; it is on file as it lands, in memory only after that, and a write that fails leaves both alone |
| ProviderSync.GoesBackExactlyWhenOvertaken | packages/opencode-provider-sync/src/engine.ts:351-366 | a write takes `updatedAt` back at its commit if and only if, since its stamp, an adopted read or another write's commit put a later stamp in memory and nothing has brought it back below |
| ProviderSync.NeverGoesBackExactly | packages/opencode-provider-sync/src/engine.ts:261-366 | over a whole run `updatedAt` never goes back if and only if no write was overtaken so |
| ProviderSync.SerialNeverGoesBack | packages/opencode-provider-sync/src/engine.ts:261-366 | without such overlaps `updatedAt` never goes back |
| ProviderSync.SaveOvertakenByRead | packages/opencode-provider-sync/src/engine.ts:351-366 | a concrete run in which a read overtakes a save |
| ProviderSync.SaveOvertakenBySync | packages/opencode-provider-sync/src/engine.ts:563-573 | a concrete run in which the engine's own sync overtakes a save, with no read and no other process |
| ProviderSync.SyncUndoesRotationExactly | packages/opencode-provider-sync/src/engine.ts:525-573 | from the return of `ensure` to the landing of the sync's file: the sync changes the token on file if and only if somebody replaced it since and nobody put it back; what it leaves is what `ensure` returned, and engines that remember nothing later take it over |
| ProviderSync.Engine.ReadCachedToken | packages/opencode-provider-sync/src/engine.ts:261-317 | takes the read step on the engine's fields |
| ProviderSync.Engine.SaveServerState | packages/opencode-provider-sync/src/engine.ts:351-366 | the rename: the stamped snapshot becomes the file, memory still untouched |
| ProviderSync.Engine.FinishWrite | packages/opencode-provider-sync/src/engine.ts:364-366 | the commit: memory takes the snapshot once the write has returned |
| BrokerSafety.InvAlways | packages/opencode-browser/src/broker.ts:204-374 | every connect, hello, message, close, timeout, abort and stop keeps: executor maps mirror each other, the primary is connected or null exactly when none are, pending commands and group owners name connected executors, owners and pending agents are live or the broker itself |
| BrokerSafety.InvWhenEachIntroducesItselfOnce | packages/opencode-browser/src/broker.ts:204-300 | that invariant holds in every run from an idle broker in which each connection has at most one accepted handshake |
| BrokerSafety.JoinExecutorKeepsInvExactly | packages/opencode-browser/src/broker.ts:252-300 | an executor's handshake keeps the invariant if and only if the connection is no agent and has not introduced itself under another id |
| BrokerSafety.JoinAgentKeepsInvExactly | packages/opencode-browser/src/broker.ts:237-251 | an agent's handshake keeps it if and only if the connection is no executor and its earlier identity owns and awaits nothing |
| BrokerSafety.DeadBranches | packages/opencode-browser/src/broker.ts:409-486 | under the invariant an owned group always finds its browser and an empty target finds the primary |
| BrokerAdmission.AdmittedExactly | packages/opencode-browser/src/broker.ts:204-300 | told by the tokens alone: a handshake is greeted and entered in its role if and only if it presents the broker's token, or the non-empty one a reload brings; any other gets exactly a rejection and a hang-up and changes nothing but the reloaded token |
| BrokerAdmission.OnlyTokenHoldersComeIn | packages/opencode-browser/src/broker.ts:212-300 | over every run from an idle broker, each connection entered as executor or agent presented, in that role, the token that was the broker's as it came in |
| BrokerPicking.PicksExactly | packages/opencode-browser/src/broker.ts:452-486 | told by the id map alone: a target finds an executor if and only if it has that id, or none has and it is the only one of that name; each refusal code exactly when nothing is connected, nothing matches, or two names do |
| BrokerPicking.PicksByDefault | packages/opencode-browser/src/broker.ts:468-486 | without a target the primary is found, else the one connected longest, unless nothing is connected |
| BrokerPicking.CommandsRouteExactly | packages/opencode-browser/src/broker.ts:377-450 | every command that comes in goes, under one new id, to the executor its group or its target says, or is refused for the one reason there is: on an unowned group every command but an open with no_group; it claims its group exactly when it may, on that executor |
| BrokerPicking.OneVerdict | packages/opencode-browser/src/broker.ts:409-450 | no command is both driven and refused, and there is one reason to refuse it |
| BrokerEffects.GivingUpSettles | packages/opencode-browser/src/broker.ts:537-549 | a timeout or abort takes the command's entry away, tells whoever waits the code, and sends its executor, if connected, one cancel frame, and nothing else |
| BrokerEffects.ResultsSettle | packages/opencode-browser/src/broker.ts:573-592 | a result settles the command it names with what it holds, and the listing asked for at a handshake adopts exactly the groups nobody knew; one that names no pending command does nothing |
| BrokerEffects.ReleasingSettles | packages/opencode-browser/src/broker.ts:681-699 | releasing leaves every group on its executor and makes the agent's nobody's |
| BrokerEffects.ExecutorLeaves | packages/opencode-browser/src/broker.ts:329-374 | an executor goes with exactly its groups and its commands, each rejected once, without cancel frames, and the one connected longest becomes primary if it was |
| BrokerEffects.AgentLeaves | packages/opencode-browser/src/broker.ts:329-374 | an agent goes with exactly its commands, each rejected and cancelled once where its executor is connected, and its groups become nobody's |
| BrokerEffects.StoppingSettles | packages/opencode-browser/src/broker.ts:150-160 | stopping rejects everything that waits and leaves nothing entered |
| BrokerOwnership.ClaimsEndExactly | packages/opencode-browser/src/broker.ts:329-450 | a claim on a group ends if and only if its agent releases or disconnects, its executor goes away, or the broker stops |
| BrokerOwnership.DispatchesFollowOwnership | packages/opencode-browser/src/broker.ts:377-450 | a group-scoped command is sent only for the group's owner, to the group's executor, over its connection |
| BrokerOwnership.OneDriverPerGroup | packages/opencode-browser/src/broker.ts:377-450 | from claim to end of claim every command for the group comes from that agent and goes to that executor |
| BrokerOwnership.ReleaseFramesExactly | packages/opencode-browser/src/broker.ts:681-699 | a release frame goes once to each executor on which the releasing agent held a group, and to nobody else |
| BrokerSettlement.SettledExactlyOnce | packages/opencode-browser/src/broker.ts:498-592 | every minted command is pending and never settled, or was settled at exactly one step of the run |
| BrokerSettlement.CancelledAtMostOnce | packages/opencode-browser/src/broker.ts:710-765 | a cancel frame is sent at most once per command, to its own executor, and never beside its result |
| BrokerHost.Broker.HandleHello | packages/opencode-browser/src/broker.ts:204-300 | token check with one reload, agent and executor handshakes, on the maps in place: the step that `AdmittedExactly` describes |
| BrokerHost.Broker.PickExecutor | packages/opencode-browser/src/broker.ts:452-486 | target by id, by unique name, else the primary, else the oldest: the choice that `PicksExactly` and `PicksByDefault` describe |
| BrokerHost.Broker.ResolveExecutor | packages/opencode-browser/src/broker.ts:409-450 | claims or adopts the group as it resolves, and refuses as the code does |
| BrokerHost.Broker.Route | packages/opencode-browser/src/broker.ts:377-407 | dispatches one command in place |
| BrokerHost.Broker.SendToExecutor | packages/opencode-browser/src/broker.ts:498-571 | mints an id, registers the pending command, sends, and settles at once when sending throws |
| BrokerHost.Broker.OnResult | packages/opencode-browser/src/broker.ts:573-592 | a result settles the pending command, if there is one, and runs its continuation |
| BrokerHost.Broker.OnClose | packages/opencode-browser/src/broker.ts:329-374 | forgets the executor with its groups and commands, or the agent with its claims and commands |
| BrokerHost.Broker.Abandon | packages/opencode-browser/src/broker.ts:737-753 | one cancel frame for each command given up whose executor is connected, and one rejection for each, all for those given up and no others |
| BrokerHost.Broker.RejectAll | packages/opencode-browser/src/broker.ts:755-765 | the loop rejects exactly the given commands, each once |
| BrokerHost.Broker.ReleaseForAgent | packages/opencode-browser/src/broker.ts:681-699 | orphans the agent's groups and sends one release per executor |
| BrokerHost.Broker.Stop | packages/opencode-browser/src/broker.ts:150-160 | rejects everything pending and empties every map |
| AgentClient.EndsOnce | packages/opencode-browser/src/agent-client.ts:138-274 | a step moves requests from waiting to ended, each once, and what has ended keeps its ending |
| AgentClient.WaitingEndsExactly | packages/opencode-browser/src/agent-client.ts:138-274 | a waiting request ends exactly by its own answer, its own timeout or abort, or the end of the connection, and as that says; a request that is sent waits exactly when sending succeeds |
| AgentClient.Client.SendCommand | packages/opencode-browser/src/agent-client.ts:138-202 | registers the request, sends it, and rejects at once when sending fails |
| AgentClient.Client.HandleResult | packages/opencode-browser/src/agent-client.ts:225-242 | an answer ends the request it names, a stray one changes nothing |
| AgentClient.Client.RejectAllPending | packages/opencode-browser/src/agent-client.ts:265-274 | every waiting request ends with the error |
| Bridge.AnswersReachTheirAsker | packages/opencode-browser/src/broker.ts:593-630 | a guest's request completes only with the data some executor answered to the one broker command minted for it, with the broker's own answer where it answers itself, or with an error |
| BridgeSenders.AnswererIsAddresseeExactly | packages/opencode-browser/src/broker.ts:573-592 | a request that ended with data was sent to one executor once and settled by one result frame once; that frame came from the executor it was sent to if and only if it would have passed the check of the sender that the code does not make |
| BridgeSenders.AnswererIsAddressee | packages/opencode-browser/src/broker.ts:573-592 | if executors answer only commands sent to them, over whatever connection, a guest's data always comes from the executor its command was sent to |
| BridgeSenders.AnyExecutorCanAnswer | packages/opencode-browser/src/broker.ts:573-592 | otherwise any other connected executor can complete any guest's pending command, and its data reaches the guest |
| BridgeSenders.WrongBrowserAnswers | packages/opencode-browser/src/broker.ts:573-592 | a concrete run from an idle bridge in which one browser's data completes a request for another's |
| Bridge.RequestsEndOnce | packages/opencode-browser/src/agent-client.ts:138-274 | over guests, wire and broker every request is waiting or ended, never both, and an ending never changes |
| RateTiers.StableSortIsUnique | packages/opencode-ratelimit/src/config.ts:72-79 | any two stable sorts of a tier list are equal |
| RateTiers.NormalizedIsSortedPlusDefault | packages/opencode-ratelimit/src/config.ts:72-88 | normalising is the stable sorted permutation of the configured tiers, plus the default catch-all exactly when none was configured |
| RateTiers.SelectionIsBestFit | packages/opencode-ratelimit/src/config.ts:152-163 | for every raw list and reset the first configured tier with the least bound covering the reset, else the default; the last return is unreachable |
| RateTiers.SelectionByBounds | packages/opencode-ratelimit/src/config.ts:72-163 | the same told by bounds and seconds: 0 for an unknown reset, the least bound that is at least the reset, no bound the greatest, the first of equals; with none, wait without a cap and retry five times |
| RateTiers.Select | packages/opencode-ratelimit/src/config.ts:152-163 | the loop returns the first tier that covers the reset, else the last tier |
| RateGate.InvAlways | packages/opencode-ratelimit/src/plugin.ts:497-519 | in every run the shared timer is a sleep that has not ended, with its true due time, and every sleeper's timer is live and due by its own deadline |
| RateGate.WaitIsBounded | packages/opencode-ratelimit/src/plugin.ts:464-533 | whatever others do to window and timers, a caller with a cap stays at most that long and goes to sleep at most 2 * cap + 1 times |
| RateGate.LeavesForAReason | packages/opencode-ratelimit/src/plugin.ts:464-533 | in every run a caller that was not aborted leaves at a moment when the window has passed, or exactly at its cap |
| RateGate.SomethingAlwaysHappens | packages/opencode-ratelimit/src/plugin.ts:464-533 | the gate never gets stuck, and time cannot pass a caller's cap |
| RateGate.EveryCappedCallerIsLetGo | packages/opencode-ratelimit/src/plugin.ts:464-533 | in every endless run in which sleeps keep ending while it waits, a caller with a cap is let go, by its cap at the latest |
| RateGateLeaving.LooksExactly | packages/opencode-ratelimit/src/plugin.ts:464-533 | every look at the gate, the entry included, ends the wait if and only if the window has passed or, with a cap, the cap counted from the entry is reached; else the caller sleeps until the earlier of the two at the latest, on the shared sleep if that ends by then |
| RateGateLeaving.VisitEndsForAReason | packages/opencode-ratelimit/src/plugin.ts:464-533 | every visit that was not aborted, with or without a cap and however short, ends with the window passed or at the cap; without a cap only the passed window ends it |
| RateGateLeaving.EveryCallerIsLetGo | packages/opencode-ratelimit/src/plugin.ts:464-533 | in every endless run in which the window stops moving and sleeps keep ending while it waits, every caller is let go, with a cap or without |
| RateGateLeaving.EndedSleepWakesExactly | packages/opencode-ratelimit/src/plugin.ts:504-519 | a sleep that ends wakes exactly those on it and is no longer published |
| RateGate.Bucket.WaitGate | packages/opencode-ratelimit/src/plugin.ts:464-519 | entering takes the machine's step on the bucket fields, a look as in `LooksExactly`: let go, join the shared timer, or create one and publish it if none is |
| RateGate.Bucket.Resume | packages/opencode-ratelimit/src/plugin.ts:482-532 | a woken caller looks again |
| RateGate.Bucket.TimerFired | packages/opencode-ratelimit/src/plugin.ts:504-509 | the finally handler unpublishes only its own timer and wakes everyone awaiting it |
| RateFetch.RateState.Fetch | packages/opencode-ratelimit/src/plugin.ts:148-351 | at most 1 + R calls, at most (R + 1) * M ms in the gate under caps up to M when every pause is a visit to the gate in some run of it, every call but the last retried after arming its cooldown, the last answer returned untouched, and the bucket left as the answer says |
| RateFetch.BucketsStayArmedByTiers | packages/opencode-ratelimit/src/plugin.ts:224-336 | whatever is written to a bucket is clear or armed with a waiting tier's cap, which is what the total wait bound needs of the bucket it starts from |
| RateFetch.ExhaustedAnswersArmExactly | packages/opencode-ratelimit/src/plugin.ts:224-262 | an answer other than 429 arms the bucket exactly when nothing remains and it says when the window resets: until then, under the cap of the tier its seconds (reset before Retry-After, rounded up) fall in, and clears it if that tier fails |
| RateFetch.TooManyArmsExactly | packages/opencode-ratelimit/src/plugin.ts:262-336 | a 429 is retried exactly when its tier waits and has retries left, with the bucket armed until the reset, else for its Retry-After, else for a second, not into the past and not beyond the cap; a failing tier clears the bucket |
| RateFetch.RateState.Handle | packages/opencode-ratelimit/src/plugin.ts:224-336 | one answer: retry or surface, and what it leaves in the bucket |
| SseFraming.FirstEndIsEarliest | packages/opencode-oauth2/src/responses-repair.ts:30 | the leftmost match of the boundary expression is also the one that ends first |
| SseFraming.FramesExactly | packages/opencode-oauth2/src/responses-repair.ts:96-121 | the frames are the one way to cut a text into pieces that each end in a blank line, LF or CRLF, and not before, and a rest without one |
| SseFraming.ChunkingDoesNotMatter | packages/opencode-oauth2/src/responses-repair.ts:96-123 | for every way of cutting the text into chunks, the frames and the rest are those of the whole |
| SseFraming.SameFramesExactlyWithoutThirdNewline | packages/opencode-oauth2/src/responses-repair.ts:82-123 | stream frames and lookbehind split coincide if and only if no third newline follows a blank line inside the text |
| SseRepair.StreamIsRepaired | packages/opencode-oauth2/src/responses-repair.ts:37-76 | present indices stay, a missing output index becomes the item's place in the order of first announcement (distinct, fixed for the stream), a missing content index becomes 0 on content events |
| SseNames.RepairsByName | packages/opencode-oauth2/src/responses-repair.ts:26-76 | with the event names spelled out: nothing but a missing index ever changes; a missing output index becomes the number of items announced by `response.output_item.added` before the event's own item was, and stays missing if that was not; a missing content index becomes 0 exactly on types mentioning `content_part`, `output_text` or `reasoning_text` |
| SseRepair.RepairIsIdempotent | packages/opencode-oauth2/src/responses-repair.ts:37-76 | repairing a repaired event sequence changes nothing |
| SseRepair.RunStream | packages/opencode-oauth2/src/responses-repair.ts:96-123 | concatenated transform and flush output over any chunks equals the output for one chunk |
| SseRepair.StreamAgreesWithText | packages/opencode-oauth2/src/responses-repair.ts:82-123 | the stream's output equals the whole-text repair whenever no third newline follows a blank line inside the text |
| SseRepair.IndexInjector.RenderFrame | packages/opencode-oauth2/src/responses-repair.ts:37-76 | the map and counter updated in place render one frame as the injector does |
| SseRepair.RepairStream.Transform | packages/opencode-oauth2/src/responses-repair.ts:103-115 | after each chunk everything sent is the rendering of the frames complete so far, and the buffer holds the rest |
| SseRepair.RepairStream.Flush | packages/opencode-oauth2/src/responses-repair.ts:116-121 | what is left is rendered last |
| SseTwice.TextRepairIsIdempotent | packages/opencode-oauth2/src/responses-repair.ts:82-90 | repairing a repaired text changes nothing, for every text, LF or CRLF, even where the second pass cuts elsewhere, under every codec whose encoding of a filled frame reads back alike |
| SseCodec.KeepingOrderIsLawful | packages/opencode-oauth2/src/responses-repair.ts:37-76 | a codec that keeps present keys in place and appends missing ones is such a codec |
| SseCodec.OrderIsKept | packages/opencode-oauth2/src/responses-repair.ts:37-76 | under it a frame comes out letter by letter as it went in, wherever its indices stand among the keys |
| SseTwice.ThirdNewlineMatters | packages/opencode-oauth2/src/responses-repair.ts:82-123 | a family of texts with a third newline on which the two forms give different output |
| CodeIndex.QueriesReadTheFiles | packages/opencode-code-index/src/store.ts:149-247 | each join over the tables, read as a set, answers exactly what the branch's files answer |
| CodeIndexer.IndexableExactly | packages/opencode-code-index/src/indexer.ts:37-42 | the entries indexed are those of the tree with a configured extension, each as often as in the tree |
| CodeIndexer.TablesHold | packages/opencode-code-index/src/indexer.ts:32-100 | after any runs the symbol and ref tables hold exactly the extraction of each blob seen under its first language, and the manifest the tree last indexed per branch and root |
| CodeIndexer.FilesAreDirectExactly | packages/opencode-code-index/src/indexer.ts:51-90 | a branch's files are what direct extraction gives if and only if each was readable when its blob was first seen and extracts the same under its own language as under the blob's first |
| CodeIndexer.QueriesAnswerDirectly | packages/opencode-code-index/src/store.ts:149-247 | over any history with all reads succeeding and one grammar per blob, symbol, callers, callees, references and active edges answer as direct extraction of the branch's trees |
| CodeIndexer.OtherBranchesDoNotMatter | packages/opencode-code-index/src/indexer.ts:32-100 | indexing another branch changes no answer on this one |
| CodeIndexer.ReindexingAddsNothing | packages/opencode-code-index/src/indexer.ts:51-92 | indexing the same tree again leaves every table as it was |
| CodeIndexer.FirstLanguageWins | packages/opencode-code-index/src/indexer.ts:57-62 | one blob under two languages that extract differently makes the later branch answer wrongly |
| CodeIndexStore.Dependents | packages/opencode-code-index/src/store.ts:229-247 | the recursive query ends on cyclic graphs and returns exactly the symbols with a non-empty chain of calls to the name through non-module symbols |
| CodeIndexStore.BlastRadiusIsReachability | packages/opencode-code-index/src/store.ts:229-247 | over such histories that is reachability by the calls in the files themselves |
| CodeIndexStore.Store.InsertBlob | packages/opencode-code-index/src/store.ts:109-132 | the row-by-row loops add exactly the blob's rows |
| CodeIndexStore.Store.ReplaceManifest | packages/opencode-code-index/src/store.ts:134-147 | deletes the branch and root's rows, inserts the new ones, touches no others |
| CodeIndexStore.Store.BlastRadius | packages/opencode-code-index/src/store.ts:229-247 | the query over the active edges of the branch |
| CodeIndexStore.IndexRepo | packages/opencode-code-index/src/indexer.ts:32-100 | the loop with its within-run dedup leaves what indexing every entry would, and its counters are the numbers of distinct blobs parsed and already stored |
| RecorderSpans.StepConservesSpansExactly | packages/opencode-core-otel/src/recorder.ts:271-389 | no step ends a span twice or keeps an ended one; a step loses a span if and only if it creates a session or starts a call whose entry still holds one |
| RecorderSpans.SpansAreConserved | packages/opencode-core-otel/src/recorder.ts:198-389 | in every run each span started is ended exactly once or held in exactly one of the four maps, given live sessions are created once and live calls started once |
| RecorderSpans.ShutdownEndsEverything | packages/opencode-core-otel/src/recorder.ts:1085-1101 | after shutdown nothing is held and every span ever started has ended exactly once |
| RecorderLife.SpansLiveExactly | packages/opencode-core-otel/src/recorder.ts:271-1101 | step by step, told by what is held, what has ended and the span counter: a created session, a chat opened ahead, a call of an unfiltered tool, the first update of a message with no chat to take over, and a compaction each start exactly one span, none else does and none without tracing; where it is held or has ended after the step, which span a message takes over, which spans end, and that all others stay |
| RecorderLife.EntriesNameTheirSession | packages/opencode-core-otel/src/recorder.ts:474-539 | an entry that is opened belongs to the session that opened it, and a chat taken over stays with its own |
| RecorderLife.CompletedUnderTheirSession | packages/opencode-core-otel/src/recorder.ts:542-565 | a complete message is remembered under the session that reports it, a complete call under the one it was started in |
| RecorderLife.RequestsAreCounted | packages/opencode-core-otel/src/recorder.ts:534-614 | a message that is complete counts as one request of its session, any other update as none |
| RecorderCounts.LedgerStep | packages/opencode-core-otel/src/recorder.ts:493-565 | a message or call is counted exactly by a report that finds it unremembered, and forgotten exactly when the session it is remembered under ends |
| RecorderCounts.CountedExactlyOnce | packages/opencode-core-otel/src/recorder.ts:993-1019 | whichever hook reports first and however many follow, a reported message or call is counted exactly once if and only if it is not reported again after the session it finished in ended; else at least twice |
| RecorderCounts.LateReportCountsTwice | packages/opencode-core-otel/src/recorder.ts:771-783 | a concrete late report that is counted a second time |
| RecorderCounts.LinesCounted | packages/opencode-core-otel/src/recorder.ts:425-472 | lines counted for a file are the last report plus all that the reports shrank, across idles, until the session is deleted |
| RecorderCounts.LinesEqualLastReportExactly | packages/opencode-core-otel/src/recorder.ts:425-472 | they equal the last report if and only if the reports never shrank |
| RecorderCounts.DiffKeysArePairs | packages/opencode-core-otel/src/recorder.ts:78-86 | keys built with a NUL separator are equal, and match a session's prefix, exactly as the pairs they stand for |
| RecorderHost.Recorder.OnSessionCreated | packages/opencode-core-otel/src/recorder.ts:271-316 | starts the span and overwrites the entry: the step that `SpansLiveExactly` describes |
| RecorderHost.Recorder.OnSessionIdle | packages/opencode-core-otel/src/recorder.ts:352-389 | ends the span, drops the session and prunes what finished in it |
| RecorderHost.Recorder.OnSessionDiff | packages/opencode-core-otel/src/recorder.ts:425-472 | the loop counts per file what is new since the last report |
| RecorderHost.Recorder.OnMessageUpdated | packages/opencode-core-otel/src/recorder.ts:474-539 | finds, adopts or opens the chat, and finalizes it when the message is complete |
| RecorderHost.Recorder.OnChatParams | packages/opencode-core-otel/src/recorder.ts:866-907 | ends a pending chat left over and opens a new one |
| RecorderHost.Recorder.OnToolBefore | packages/opencode-core-otel/src/recorder.ts:950-976 | records the call, with a span unless the tool is filtered |
| RecorderHost.Recorder.FinishTool | packages/opencode-core-otel/src/recorder.ts:993-1046 | the first report of a call counts it, ends its span and remembers its session |
| RecorderHost.Recorder.ForgetSession | packages/opencode-core-otel/src/recorder.ts:728-762 | ends and drops everything the session owns in all maps |
| RecorderHost.Recorder.Shutdown | packages/opencode-core-otel/src/recorder.ts:1085-1101 | the loops end every span held in the four maps and empty them |

## Left out

- BrokerHost.Broker.Route: does not model the tab listing without a group (packages/opencode-browser/src/broker.ts:662-679), which asks every executor in turn, claims nothing and skips failures; `Routable` excludes commands of that shape from the broker machine and so from every theorem about its runs.
- Event frames, pings, logging and per-command timeout values of the bridge: a timeout is a step that may come at any time.
- The wrap-around of request counters at 2^53 and of timers longer than 2^31 ms.
- `OAuthClient`: token validity, refresh answers and interactive login are oracles, and the identity provider is a set of issued and a set of rotated tokens.
- FileLock.Directory.Age: the lock's age is read and compared with the clock in the same step as the file's timestamp.
- SseRepair.RepairStream.Transform: no UTF-8 decoding; chunks are character chunks.
- SseTwice.TextRepairIsIdempotent: parsing and printing of frames are a codec whose laws (`Lawful`) are assumed; `SseCodec` meets them for flat objects of unquoted members on one `data:` line, full JSON is not modelled.
- RateFetch.RateState.Fetch: each pause is a visit to the gate in a run of its own, so what one caller's pauses share with another's, and the bucket a pause starts from, are not modelled; timers are taken to wake on time.
- BrokerHost.Broker.Abandon: what a handler causes is a multiset, so the order of frames within one handler, cancels before rejections, is not modelled.
- CodeIndex.QueriesReadTheFiles: answers are compared as sets of rows, so the order of rows, and the repetition of a reference once per definition of its name, are not modelled.
- CodeIndexStore.IndexRepo: database failures, which abort the run and roll the transaction back, are not modelled; reads and parses may fail.
- Recorder permissions, active time, cost and token figures, text lengths, log records and attribute naming: bookkeeping beside the spans and counts.
- The election of the bridge host and its port, the extension, the MCP servers, HTTP, DuckDB, tree-sitter, the OpenTelemetry exporters and the configuration parsers.
- The repo-auth and lightbridge runtimes, which repeat the single-flight pattern of `TokenRuntime`; page capture, device-code polling and schedulers.
