# uns-bridge: a verified model

`uns-bridge` joins the message broker of one device to a site broker. It relays eight classes
of messages: six (and `app` on request) up, `cmd` down, each under its own topic and with the
bridge's id appended to the envelope's hop list. Commands that ask for a reply get a reply
topic of the bridge's own on the device bus, and the reply is carried back to the requester.

The project models four layers and proves what they promise together:

- **Relay engine and networks of bridges** (`Topics`, `Messages`, `Relay`, `Network`). Topics
  are split into levels; filters match as in section 4.7.1 of MQTT Version 3.1.1. Any number
  of bridges may be joined by any buses, in cycles or not.
- **Uplink policy and replay** (`TokenBuckets`, `Policy`, `PolicyRuns`, `Governor`,
  `ReplayWindow`, `AdmissionOrder`, `OvertakingRuns`, `Overtakable`, `PumpOrder`,
  `UplinkRuns`, `UplinkErasure`, `UplinkAccounts`, `UplinkContent`, `UplinkFidelity`,
  `WatcherOrder`).
  `TokenBucket`, `UplinkPolicy` and `UplinkGovernor` are classes whose methods are proved
  against functions on values; the step system of `Governor` runs the same functions in any
  interleaving of any number of pumps with the connectivity watcher. `UplinkRuns` projects
  its runs onto those of `PolicyRuns`.
- **Reply proxy** (`Reply`, `ReplyLifetime`, `ReplyProxy`, `ReplyInvariants`,
  `ReplyOutcomes`, `ProxySteps`, `ReplyShutdown`, `ReplyRuns`). `ReplyCorrelator` is a class
  refining a plain map; the step system has the downlink pumps, the sweep task and one reply
  pump per request. `ReplyRuns` projects its runs onto those of `ReplyLifetime`.
- **Round trip** (`RoundTrip`, `ProxyFidelity`): requests down and replies up, for one call
  and over every run of the proxy.

A run is a sequence of actions, and an action carries what the environment chooses:
deliveries, link state, clock readings, publish and subscribe results, minted topics. `Run`
is `None` when an action is not possible, so `Run(cfg, actions).Some?` means "this is a run",
and a theorem over all `actions` is a theorem over all interleavings and all environments.

`dafny verify dfyconfig.toml` checks the whole project.

## Where the comments and the code differ

1. "Strictly in order" (src/policy.rs:251-255, src/io.rs:434-437). Two things are not covered.
   The watcher publishes the event it popped without holding the lock, and the buffer may
   look empty meanwhile (src/io.rs:440-447). And an event awaiting its own live publish is in
   no buffer: one admitted later on the other `evt` pump, live or buffered, may land first,
   and the earlier one, its publish failing, is replayed behind it (src/io.rs:411-427). So at
   the admission of an `evt`, live or buffered, some future has an earlier-admitted event land
   after it if and only if another pump is publishing an `evt` at that moment, or the watcher
   holds an event and this one goes out live (`Overtakable.StrictOrderGuaranteedExactly`).
   When neither is so at any admission of a run, the run is in order
   (`AdmissionOrder.AloneMeansInOrder`); an event is overtaken only in these two ways
   (`AdmissionOrder.OvertakenOnlyIfUnderWay`), those of one pump only in the first
   (`AdmissionOrder.OnePumpInOrder`). A live event finds everything earlier landed or dropped
   exactly when neither is so (`AdmissionOrder.StrictlyInOrderExactly`); a buffered one joins
   the queue behind all of its predecessors exactly when no pump is publishing an `evt`
   (`AdmissionOrder.AllPushedExactly`). All of it occurs on the pumps of every engine, for
   every two messages they forward (`OvertakingRuns.ReplayOvertaken`,
   `OvertakingRuns.PublishOvertaken`, `OvertakingRuns.BufferedOvertakes`).
2. "The two filters are disjoint" (src/relay.rs:153-157). Two uplink filters match one topic
   exactly when levels 3 and 4 both name relayed classes, the first not a leaf class and the
   second ending the topic if it is one (`Relay.FiltersOverlapExactly`); `ecv1/d/c/evt/data/x`
   is one (`Relay.FiltersAreNotDisjoint`). A message is governed and counted under its pump's
   class (src/io.rs:848-849); `Relay.PumpClassExactly` says when that is the class `decide`
   finds.
3. A relayed command "matches no uplink filter" (src/io.rs:1198-1199). It matches one exactly
   when the level after `cmd` names a relayed class; `decide` then drops it
   (`Relay.RelayedCommandEcho`, `Relay.CommandEchoExists`).
4. `shutdown` unsubscribes every pending reply topic (src/io.rs:794-797). It does for topics
   still in the map; a topic whose teardown task is aborted between leaving the map and
   unsubscribing stays subscribed, and no other topic does (`ReplyShutdown.LeavesOnlyOwed`).
   Nothing stays subscribed if and only if no task stands at such a point
   (`ReplyShutdown.CleanExactly`), so never at rest (`ReplyShutdown.CleanAtRest`); and for
   every rewritten command some run leaves its topic (`ReplyShutdown.CanLeaveOne`).

## Assumptions

- The codec is a pair of functions. Where a theorem needs it, `WellBehaved` says that what
  encodes decodes to itself and that bytes never decode to a diagnostic raw value.
- Token counts and the policy's clock are reals: `f64` rounding is not modelled. Reply
  deadlines are integers in nanoseconds.
- The clock is monotone in lock order for the correlation map (it is read after the lock is
  taken) and, in the erasure theorem, for the policy. The token-bucket theorems need no such
  assumption; `MonotoneElapsed` turns their elapsed time into a difference.
- A lock scope is one step. A failed publish and the push that follows it are one step.
- A publish that returns an error did not land. A publication reaches each matching
  subscription at most once; which ones it reaches is the environment's choice.
- A minted reply topic is new: it was not minted before and is no reply topic seen so far.
  Unsubscribes succeed.
- A device token is non-empty and free of `/`, `+`, `#`, `\` and control characters
  (src/relay.rs:416-421); filter shapes are those pinned at src/relay.rs:374-414.

## Model

| member | source | states |
|---|---|---|
| Topics.SplitJoin | src/relay.rs:241-241 | levels without a separator survive joining and splitting |
| Topics.JoinSplit | src/relay.rs:241-241 | every topic is the join of its separator-free levels, so the level view loses nothing |
| Messages.HopsRead | src/relay.rs:312-324 | the hop list is the array under `_relay`, whatever else the tags hold; no tags member, no tag, or a tag that is no array all read as no hops |
| Relay.New | src/relay.rs:134-201 | construction succeeds exactly for a legal device token; then the engine subscribes both scopes of each relayed class in class order, `cmd` for its own device only, and names the two rehydration topics |
| Relay.SubscribedExactlyOnce | src/relay.rs:158-166 | a class is subscribed at a scope iff it is relayed, and no class has more than its two filters |
| Relay.UplinkRelayedExactly | src/relay.rs:60-67 | every class is relayed up but `cmd`, and but `app` when not opted in |
| Relay.EveryClassIsSubscribed | src/relay.rs:60-67 | a class has both its filters exactly if it is not `cmd`, nor `app` when not opted in |
| Relay.FiltersSpelledOut | src/relay.rs:374-414 | every uplink and downlink filter as a literal string |
| Relay.Envelope.StampHop | src/relay.rs:308-336 | editing the message in place: own id anywhere fails, the cap fails, otherwise exactly one hop is appended; what a failed stamp leaves behind |
| Relay.RoutedExactly | src/relay.rs:237-271 | on the levels of the topic: when a message is routed up or down, and which of the three reasons it is dropped for otherwise |
| Relay.DecideExactly | src/relay.rs:237-336 | a message is forwarded if and only if it is routed, decodes, lacks the own id, has hops to spare and re-encodes with the own id appended, and as those bytes; otherwise the reason is that of the first condition that fails |
| Relay.ForwardAppendsOneHop | src/relay.rs:273-294 | a forward means the message had no own id and hops to spare, and the outgoing bytes decode to it with this bridge's id appended and nothing else changed |
| Relay.UplinkFilterExact | src/relay.rs:158-166 | an uplink filter matches exactly the topics of its class, scope and shape |
| Relay.DownlinkFilterExact | src/relay.rs:167-172 | a downlink filter matches exactly the `cmd` topics of the own device at its scope |
| Relay.PumpClassIsDecidedClass | src/relay.rs:250-262 | unless levels 3 and 4 both name classes, at most one uplink filter matches a topic, its pump's class is the class `decide` finds, and the topic is routed |
| Relay.PumpClassExactly | src/relay.rs:242-253 | on every topic a pump receives, the class it is governed under is the class `decide` finds iff its filter is the component-scope one, or level 3 names no class, or levels 3 and 4 are the same |
| Relay.FiltersOverlapExactly | src/relay.rs:153-157 | two uplink filters match one topic if and only if the topic is of the overlapping family |
| Relay.FiltersAreNotDisjoint | src/relay.rs:153-157 | a concrete topic matched by the filters of two classes |
| Relay.RoutedUplinkIsSubscribed | src/relay.rs:255-262 | a topic routed up is subscribed, by the filter of its class and scope, if and only if it has the shape its class publishes on |
| Relay.RoutedDownlinkIsSubscribed | src/relay.rs:263-271 | every command routed down is subscribed, whatever its length |
| Relay.DirectionsNeverMix | src/relay.rs:254-271 | a topic one engine forwards down is refused up by every engine |
| Relay.RelayedCommandEcho | src/io.rs:1196-1213 | a relayed command matches an uplink filter iff a relayed class follows `cmd`; even then it is never relayed back up |
| Relay.CommandEchoExists | src/io.rs:1198-1199 | a command that is relayed down and matches an uplink filter |
| Network.RepublishedMessage | src/relay.rs:273-336 | what any bridge of a network republishes: the message it got, one hop longer, within its cap |
| Network.RepublishedExactly | src/relay.rs:237-294 | a delivery is republished exactly when its bridge forwards it (and a replaced reply topic encodes), and with which bytes |
| Network.NextExactly | src/io.rs:879-905 | handling a delivery takes it alone off what is pending and queues the republished message once per subscription reached |
| Network.StepLowersRank | src/relay.rs:296-336 | every relay step lowers the sum over pending deliveries of (subscriptions+1)^(hops left) |
| Network.RunBound | src/relay.rs:296-336 | steps taken plus rank left never exceed the rank at the start, from any set of pending deliveries |
| Network.NetworkTerminates | src/relay.rs:296-336 | one published message, with any `_relay` value, causes at most N·(N+1)^(hops left) relay steps among N subscriptions, cyclic or not |
| Network.SpawnedCarries | src/relay.rs:273-294 | each relay keeps the published message but for the hops of its path (and `reply_to` on the way down) |
| Network.OneDirection | src/relay.rs:254-271 | a path that ever goes down is a single downward crossing |
| Network.RelayPaths | src/relay.rs:237-336 | every message in transit in every run: distinct bridges, at most as many as hops were left, all upward or one crossing down, the original message with the ids of the path appended in order |
| TokenBuckets.TokenBucket.constructor | src/policy.rs:129-137 | the bucket starts full and never refilled |
| TokenBuckets.TokenBucket.TryTake | src/policy.rs:142-154 | the in-place refill and take is the value function the closed form is about |
| TokenBuckets.BackwardsRefillsNothing | src/policy.rs:139-147 | a clock that stands still or goes back refills nothing, and is taken as the new reading |
| TokenBuckets.ClosedForm | src/policy.rs:142-154 | the tokens a call finds are the minimum over all earlier calls of burst + rate·elapsed − takes since |
| TokenBuckets.WindowBound | src/policy.rs:126-154 | in every window of calls the admissions are at most burst + rate·elapsed |
| TokenBuckets.AdmittedInFull | src/policy.rs:126-154 | a stream is admitted in full if and only if every window of it fits burst + rate·elapsed |
| TokenBuckets.MonotoneElapsed | src/policy.rs:139-146 | under a monotone clock elapsed is the difference of the readings |
| Policy.ClassIndex | src/policy.rs:70-81 | `cmd` alone has no slot, and a class's slot is its place in the class list |
| Policy.UplinkPolicy.FromConfig | src/policy.rs:186-221 | the constructed policy is the configured one, with its defaults: `app` off, burst twice the rate saturating at 32 bits, 1000 buffered events |
| Policy.ConfiguredExactly | src/policy.rs:186-207 | read off the configuration: the configured switch, or `app` off and the rest on; a cap iff a rate is set, at that rate, with the configured burst or twice the rate up to 2^32 − 1, full |
| Policy.BufferConfiguredExactly | src/policy.rs:208-216 | the buffer starts empty, of 1000 messages, or the configured number, or none when switched off |
| Policy.UplinkPolicy.Admit | src/policy.rs:236-262 | verdict and new state are those of the admission function every run uses; the buffer is not touched |
| Policy.UplinkPolicy.PushEvt | src/policy.rs:268-280 | the push, with what was stored, evicted or rejected |
| Policy.UplinkPolicy.PopEvt | src/policy.rs:283-285 | the oldest event leaves, if there is one |
| Policy.UplinkPolicy.RequeueEvtFront | src/policy.rs:292-298 | the event is oldest again, or refused because the buffer is at its bound |
| Policy.CmdPasses | src/policy.rs:237-239 | `cmd` passes and leaves no trace |
| Policy.PushExactly | src/policy.rs:268-280 | a push keeps the latest messages, as many as the bound allows, the new one last; it evicts exactly at the bound and is rejected exactly with the buffer off |
| Policy.FrontExactly | src/policy.rs:283-298 | a pop takes the front exactly if there is one; a requeue puts one there exactly if there is room |
| Policy.OperationsKeepBound | src/policy.rs:167-176 | every operation keeps seven slots and the buffer bound |
| Policy.PopRequeueRoundTrip | src/policy.rs:283-298 | pop then requeue is the identity and never refused |
| PolicyRuns.RefillComposes | src/policy.rs:142-146 | refilling to t and then to u is refilling to u |
| PolicyRuns.ErasingDropsChangesNothing | src/policy.rs:236-262 | deleting from a run any messages the policy dropped leaves every other outcome as it was |
| PolicyRuns.SlotFollowsOwnArrivals | src/policy.rs:236-262 | the state of a class other than `evt` is its own connected arrivals run through its own bucket |
| PolicyRuns.VerdictsAreOwn | src/policy.rs:236-262 | its verdicts depend on its own configuration and own connected arrivals only, in every run and with any clock |
| PolicyRuns.EvtVerdictExactly | src/policy.rs:236-262 | the verdict on an `evt` in every run: disabled by its switch; else buffered iff buffering is on and the link down or the buffer not empty; else dropped for the link; else forwarded iff uncapped or its bucket, run over the metered events, has a token; else rate-dropped |
| PolicyRuns.SlotFollowsMetered | src/policy.rs:228-233 | for every class, `evt` included, only a live forward or a rate drop spends a token or refills the bucket: buffered, disconnected and disabled messages leave it alone |
| PolicyRuns.ForwardsAreTakes | src/policy.rs:256-261 | live forwards over any stretch of a run are exactly the tokens taken in it |
| PolicyRuns.ForwardsWithinCap | src/policy.rs:123-154 | over any stretch of any run a capped class is forwarded live at most burst + rate·elapsed |
| UplinkRuns.PolicyIsItsOps | src/io.rs:364-465 | the policy in any reachable state of pumps and watcher is their lock scopes performed in order on the configured policy, so the theorems on runs of the policy hold of every interleaving |
| UplinkRuns.PumpsDoNotInterfere | src/policy.rs:236-262 | in any reachable state the verdict on a class other than `evt` is a function of its own configuration and own connected arrivals so far |
| UplinkRuns.EvtVerdictInRuns | src/policy.rs:236-262 | the same in any reachable state of pumps and watcher |
| UplinkRuns.ForwardsBoundRuns | src/io.rs:411-420 | live publishes of a class, counted or under way, never exceed the messages the policy let through |
| UplinkRuns.UplinkedWithinCap | src/policy.rs:123-154 | the uplinked counter of a capped class never exceeds burst + rate·(time from its first to its last metered message), whatever the interleaving |
| UplinkErasure.RemovalShadows | src/io.rs:364-432 | a run of pumps and watcher without the reception and admission of any messages dropped at admission is a run, and shadows the full one step by step |
| UplinkErasure.DropsLeaveNoTrace | src/policy.rs:236-262 | so the same messages land in the same order, the same events are pushed, replayed and dropped, and every later message gets the verdict it would have got, under a monotone clock |
| Governor.UplinkGovernor.constructor | src/io.rs:606-610 | the governor starts with the configured policy and no counts |
| Governor.UplinkGovernor.CountDropped | src/io.rs:146-155 | each drop reason adds one to the counter of its group and nothing to any other |
| Governor.UplinkGovernor.Record | src/io.rs:342-358 | a stored push adds one to buffered, and one to dropped if it evicted; a rejected one adds one to the disconnected counter of its class; nothing else moves |
| Governor.UplinkGovernor.AdmitAndPush | src/io.rs:364-408 | the first lock scope of a message: new policy, counters and whether to publish |
| Governor.UplinkGovernor.PublishFailed | src/io.rs:421-430 | a failed publish buffers an `evt` and counts any other class disconnected |
| Governor.UplinkGovernor.ReplayFailed | src/io.rs:452-462 | a failed replay puts the event back, or counts it dropped when refused |
| Governor.UplinkGovernor.RelayUp | src/io.rs:364-432 | one message from admission to its counter, undisturbed: published exactly when let through and accepted, and the state either way |
| Governor.UplinkGovernor.ReplayBuffered | src/io.rs:438-465 | the replay loop, undisturbed: sends the oldest events in order, keeps the rest in place, loses none, and stops only when drained, cut off or refused |
| Governor.AdmitScopeExactly | src/io.rs:364-408 | the verdict moves the counter it names, for the class of the message alone, and a Buffer verdict those of its push |
| Governor.FailScopeExactly | src/io.rs:421-430 | after a failed publish an `evt` is pushed, and anything else, as an `evt` with the buffer off, is counted disconnected |
| Governor.AdmitExactly | src/io.rs:369-408 | a pump goes on to publish what it holds exactly on a Forward verdict |
| Governor.PublishExactly | src/io.rs:411-430 | a publish lands exactly the message held, under the class of the pump, exactly if the site accepts it |
| Governor.TakeOldestExactly | src/io.rs:438-442 | nothing is popped while the link is down; while it is up the oldest event is, until none is left |
| Governor.PublishReplayExactly | src/io.rs:443-463 | an accepted replay lands and the drain goes on; a refused one stops it, the event oldest again, or dropped and counted when there is no room |
| Governor.NobodyIsStuck | src/io.rs:616-707 | every pump, and the watcher, has a step in every state, whatever the environment answers |
| Governor.ReceiveExactly | src/io.rs:873-912 | a message received is held by its pump, on its topic and as the bytes decided, exactly if it is forwarded; otherwise it is counted once, under its reason, and the pump stays free |
| ReplayWindow.PushKeeps | src/policy.rs:268-280 | a push at any point keeps the buffer a window of the push sequence and every fate single |
| ReplayWindow.PopKeeps | src/policy.rs:283-285 | a pop takes exactly the oldest index of the window into flight |
| ReplayWindow.RequeueKeeps | src/policy.rs:287-298 | a requeue that succeeds restores the exact predecessor of the window; a refused one drops an event followed by at least as many pushes as the bound |
| ReplayWindow.EvtInvariant | src/io.rs:364-465 | in every interleaving: the buffer is the last pushes contiguously; the event in flight is the one before them or the buffer is full; replays have increasing index; each push has one fate; counters are the sizes of the histories |
| ReplayWindow.EvtConservation | src/io.rs:342-358 | buffered = replayed + dropped + still buffered + in flight, on the counters, in every reachable state |
| ReplayWindow.EvtLossBound | src/policy.rs:268-298 | every lost event was followed by at least the bound of later pushes, so a run with no more pushes than that loses none |
| ReplayWindow.OrderInvariant | src/io.rs:364-465 | whatever had been pushed when a live `evt` was admitted is replayed or dropped, but for the one in flight then |
| ReplayWindow.OvertakesOnlyTheEventInFlight | src/io.rs:434-465 | replays land in push order with the content pushed, and an event lands as a replay after a live one admitted since its push only if it was in flight at that admission |
| ReplayWindow.StrictOrderExactly | src/policy.rs:251-255 | at the admission of a live `evt` everything pushed before is settled if and only if nothing is in flight |
| AdmissionOrder.LineInvariant | src/io.rs:364-465 | in every interleaving each admitted event is in one place (on its pump, in the push sequence, landed, or refused), and what its admission remembers covers every earlier event that can still land after it |
| AdmissionOrder.LandsAtMostOnce | src/io.rs:364-465 | each admitted event lands at most once, live or replayed, as the message admitted |
| AdmissionOrder.OvertakenOnlyIfUnderWay | src/policy.rs:223-262 | an event lands after one admitted later only if, at that admission, another pump was publishing it, or it was in flight and is a replay while the later one went out live |
| AdmissionOrder.OnePumpInOrder | src/io.rs:870-882 | the events of one pump land in order of admission, but for a live one overtaking the replay of the event in flight at its admission |
| AdmissionOrder.StrictlyInOrderExactly | src/policy.rs:228-262 | at the admission of a live `evt` every `evt` admitted before has landed or been dropped if and only if the watcher holds nothing and no pump is publishing an `evt` |
| AdmissionOrder.AllPushedExactly | src/policy.rs:251-255 | in any reachable state, so at any Buffer verdict, every `evt` admitted before has landed, been dropped or joined the queue if and only if no pump is publishing an `evt` |
| AdmissionOrder.AloneMeansInOrder | src/policy.rs:251-255 | a run in which no admission, live or buffered, found another pump publishing an `evt`, and no live one an event in flight, lands its events in order of admission |
| Overtakable.StrictOrderGuaranteedExactly | src/policy.rs:223-262 | for every admission of an `evt`, live or buffered, in every reachable state: some future has an earlier-admitted event land after it if and only if another pump is publishing an `evt` then, or the watcher holds one and this one goes out live |
| OvertakingRuns.ReplayOvertaken | src/io.rs:440-447 | on any `evt` pump of any engine and for any two messages it forwards, a run in which the newer one lands live before the replay of the buffered one |
| OvertakingRuns.PublishOvertaken | src/io.rs:411-427 | on any two `evt` pumps of any engine, with nothing in flight at either admission, a run in which the event admitted second lands before the replay of the first |
| OvertakingRuns.BufferedOvertakes | src/io.rs:411-427 | on any two `evt` pumps of any engine, a run whose one live admission found all pumps idle and nothing in flight, and in which an event buffered after it still lands first |
| PumpOrder.LiveInReceptionOrder | src/io.rs:868-882 | for every class, the live landings of one uplink pump are in strict order of reception |
| OvertakingRuns.TwoEvtPumps | src/relay.rs:158-162 | every engine has two `evt` pumps, one per scope |
| UplinkAccounts.AdmitScopeCounts | src/io.rs:364-408 | a scope that does not let a message through counts it once, against its own class |
| UplinkAccounts.FailScopeCounts | src/io.rs:421-430 | so does the scope after a failed publish |
| UplinkAccounts.SingleDisposition | src/io.rs:873-914 | in every reachable state each received message is counted in exactly one drop counter or decided, and each decided one in exactly one counter of its class or still with its pump |
| UplinkAccounts.BooksCloseAtRest | src/io.rs:105-143 | with no pump busy, messages received equal the sum of all disposition counters |
| UplinkContent.ConfigurationHonoured | src/policy.rs:178-262 | enables, the rate and burst of each cap, and the buffer bound stay as configured in every run, and no counter moves that they rule out |
| UplinkContent.SwitchesHold | src/policy.rs:223-262 | a disabled class only ever counts as disabled and an enabled one never; no rate drop without a cap; `evt` is dropped for the link only with buffering off and buffered only with it on |
| UplinkContent.BufferKnobIsEvtOnly | src/policy.rs:184-208 | `bufferWhileDisconnected` on any other class changes nothing |
| UplinkContent.CountersAreLandings | src/io.rs:416-420 | the uplinked counter of each class and the replayed counter are the landings at the site broker |
| UplinkContent.NothingInvented | src/io.rs:364-465 | live publishes and replays together, no message lands more often than pumps were told to forward it |
| UplinkFidelity.LandingIsReceived | src/relay.rs:273-294 | every landing, live or replayed, is a message received, on its own topic, with its own content and this bridge's id appended |
| UplinkFidelity.LiveIsItsPumps | src/io.rs:873-882 | a live landing is what its own pump received, at its place in the order of reception |
| UplinkFidelity.NoMoreThanReceived | src/io.rs:364-465 | nothing lands more often, live and replayed together, than messages received forward to it |
| UplinkContent.EnginePumpsAreGoverned | src/io.rs:616-640 | every uplink pump of a constructed engine has a class the policy governs |
| WatcherOrder.WatchInvariant | src/io.rs:681-707 | the watcher's position, its last observed link state and the broadcasts sent agree in every run |
| WatcherOrder.RehydrationPrecedesReplay | src/io.rs:691-695 | between a tick that saw the link down and any later replayed event, both broadcasts were attempted, state before cfg |
| WatcherOrder.EveryReplayIsTold | src/io.rs:438-465 | the events that theorem speaks of miss no replay: they tell the indices replayed, in order |
| WatcherOrder.OnePairPerReconnect | src/io.rs:685-706 | broadcast pairs equal observed down-to-up transitions, counted from the baseline at start |
| WatcherOrder.NoRunSticks | src/io.rs:616-707 | in every reachable state every pump, and the watcher, has a step |
| Reply.SweepInterval | src/reply.rs:260-262 | the sweep period is the value from 100 ms to 5 s nearest to a quarter of the ttl |
| Reply.ReplyCorrelator.constructor | src/reply.rs:139-145 | an empty map with a bound of at least one |
| Reply.ReplyCorrelator.RewriteDownlink | src/reply.rs:157-200 | passthrough, drop or rewrite, with the map unchanged in the first two cases and the request recorded, the oldest evicted at the bound, in the last |
| Reply.RewriteExactly | src/reply.rs:157-200 | from the message decoded: no reply topic iff it passes, the map unchanged; one and an encodable rewrite iff rewritten, with which bytes, and recorded; dropped iff it does not decode or re-encode |
| Reply.ReplyCorrelator.Position | src/reply.rs:205-206 | the search finds the first entry of a topic |
| Reply.ReplyCorrelator.TakeEntry | src/reply.rs:205-214 | resolve and remove that entry |
| Reply.ReplyCorrelator.SweepExpired | src/reply.rs:224-233 | remove and return the leading stale entries |
| Reply.ReplyCorrelator.AbandonTopic | src/reply.rs:237-239 | remove a topic wherever it stands |
| Reply.ReplyCorrelator.Drain | src/reply.rs:243-245 | empty the map, returning every topic oldest first |
| Reply.SweepSound | src/reply.rs:224-233 | with any clock a sweep removes from the front exactly the entries it names, all of them expired |
| Reply.SweepComplete | src/reply.rs:224-233 | it leaves no expired entry if and only if none stands behind an unexpired one |
| Reply.RecordRefines | src/reply.rs:180-200 | under a monotone clock recording keeps deadlines sorted, and on the map evicts an entry of least deadline exactly at the bound, then adds the new one |
| Reply.TakeRefines | src/reply.rs:203-214 | on the map a take returns the recorded site topic and removes the entry; a second take finds none |
| Reply.AbandonRefines | src/reply.rs:235-239 | abandoning is taking without resolving |
| Reply.SweepRefines | src/reply.rs:129-132 | under a monotone clock a sweep removes exactly the entries with deadline at or before now, each once, oldest deadline first |
| ReplyLifetime.LifeInvariant | src/reply.rs:139-239 | over every run of the map: entries carry the deadline of their recording, evictions and expiries are late enough, sweeps leave nothing due |
| ReplyLifetime.HistoryIsComplete | src/reply.rs:180-239 | an entry leaves the map only as the victim on record, as expired on record, or resolved or forgotten by name |
| ReplyLifetime.NeverTornDownEarly | src/reply.rs:180-194 | an entry is evicted only by the maxPending-th later recording or a later one, and never swept before age ttl |
| ReplyLifetime.NeverMuchOlderThanTtl | src/io.rs:745-766 | if the last sweep is at most one interval ago, no pending entry is older than ttl plus the interval |
| ReplyRuns.MapIsItsOps | src/io.rs:184-320 | the map in any reachable state of the proxy is its lock scopes performed in order on the empty map, with a monotone clock and no topic minted twice |
| ReplyRuns.LifetimesHold | src/io.rs:745-766 | in every run of the proxy no entry is evicted or swept early, nor kept beyond ttl plus one interval after a recent sweep |
| ReplyInvariants.RecordingKeeps | src/io.rs:200-223 | recording a request, evicting or not, keeps every invariant of the proxy |
| ReplyInvariants.EvictKeeps | src/io.rs:184-194 | so does unsubscribing the victim |
| ReplyInvariants.SubscribeKeeps | src/io.rs:224-232 | so does the subscribe, completed or failed |
| ReplyInvariants.RecheckKeeps | src/io.rs:233-236 | so does the re-check after the subscribe, whatever was removed meanwhile |
| ReplyInvariants.UndangleKeeps | src/io.rs:236-247 | so does giving back a subscription whose entry is gone |
| ReplyInvariants.GiveUpKeeps | src/io.rs:249-257 | so does abandoning after a failed subscribe |
| ReplyInvariants.SweepKeeps | src/io.rs:756-765 | so does the sweep's lock scope |
| ReplyInvariants.ReplyKeeps | src/io.rs:283-290 | so does a reply, resolved or stray |
| ReplyInvariants.ProxyInvariant | src/io.rs:184-320 | in every interleaving of pumps, sweep and reply pumps: the map holds exactly the open requests, each removed entry is held by exactly one task, and every subscription is accounted for |
| ReplyInvariants.NoOrphanSubscription | src/io.rs:184-320 | a live bridge-topic subscription has a map entry or a task still obliged to unsubscribe it |
| ReplyInvariants.SubscriptionsMatchMapAtRest | src/io.rs:196-259 | at rest the subscribed bridge topics are exactly the map's keys, each with a reply pump waiting |
| ReplyShutdown.LeavesOnlyOwed | src/io.rs:794-841 | from any reachable state shutdown leaves subscribed exactly the topics outside the map that an aborted task owed |
| ReplyShutdown.TakenSubscribedInvariant | src/io.rs:283-320 | a reply pump between resolving and unsubscribing still holds its subscription |
| ReplyShutdown.CleanExactly | src/io.rs:794-841 | shutdown leaves nothing subscribed if and only if no reply pump is settling, no evicted or swept topic is still to be unsubscribed, and no pump is past its subscribe with its entry gone |
| ReplyShutdown.CleanAtRest | src/io.rs:794-841 | at rest shutdown leaves nothing subscribed |
| ReplyShutdown.CanLeaveOne | src/io.rs:283-320 | for every rewritten command a run after which shutdown leaves its bridge topic subscribed |
| ReplyOutcomes.FatesAdvance | src/reply.rs:157-245 | no step changes a closed fate, nor the site topic recorded for a request |
| ReplyOutcomes.ExactlyOneFate | src/reply.rs:157-245 | over any continuation of any run the fate of a request is final once closed and its site topic never changes |
| ReplyOutcomes.TalliesHold | src/io.rs:105-143 | in every reachable state the expired counter is the number of expired requests, taken requests are relayed, failed, refused or in hand, and received commands are dropped, relayed, failed or in hand |
| ProxySteps.CountersArePublications | src/io.rs:283-303 | in every reachable state the replies counted relayed are those published at the site and the commands counted downlinked those on the device bus |
| ProxySteps.ReceiveLeadsOn | src/io.rs:879-911 | a command received is held as the bytes decided exactly if it is forwarded, and counted dropped otherwise |
| ProxySteps.TakenIsAnswered | src/io.rs:290-313 | a taken reply is published exactly if it decodes, lacks the own id, has hops left and re-encodes, and the site accepts it: then once, to the site topic recorded |
| ProxySteps.ReadyIsRelayed | src/io.rs:886-905 | a command ready for the device bus is published there as it stands exactly if the bus accepts it, and counted failed otherwise |
| ProxySteps.RewriteLeadsOn | src/io.rs:200-223 | a command that asks for no reply goes on unchanged, past the map; one that does goes by way of a subscription; only one that cannot be rewritten is dropped |
| ProxySteps.RecordedLeadsOn | src/io.rs:217-259 | a recorded command goes by way of its victim and its subscribe; only a failed subscribe keeps it from the device bus, and a command whose entry is gone gives its subscription back and is relayed all the same |
| ProxySteps.ReplyResolvesExactly | src/io.rs:283-290 | a reply resolves its request exactly if that is open, and is counted stray otherwise |
| ProxySteps.NobodyIsStuck | src/io.rs:200-320 | every pump, reply pump and the sweep always has a step |
| ReplyOutcomes.RequestsAddUpAtRest | src/io.rs:181-320 | at rest recorded = relayed + failed + refused + expired + abandoned + pending, and every command received has one disposition |
| ReplyOutcomes.AnswersInvariant | src/io.rs:283-320 | every answer published so far belongs to a request that was taken and settled |
| ReplyOutcomes.AtMostOneAnswer | src/io.rs:263-320 | at most one answer per request, always to the site topic recorded with it |
| ReplyOutcomes.NoLeakInvariant | src/io.rs:200-259 | what each pump holds and each command relayed is fit for the device bus, in every reachable state |
| ReplyOutcomes.SubscribedBeforeRelayed | src/io.rs:220-259 | every command on the device bus asks for no reply or for one on a bridge topic already subscribed, never the requester's own; an abandoned request leaves no entry, no subscription and no relayed command |
| RoundTrip.RequestCrosses | src/reply.rs:147-200 | the device sees the requester's content, one hop more and the minted topic, and the map resolves that topic, once, to the requester's own |
| RoundTrip.ReplyCrosses | src/reply.rs:264-295 | a reply is relayed iff it decodes, has not crossed this bridge, has hops left and re-encodes; the requester then gets its content unchanged, one hop more and no reply topic |
| RoundTrip.ReplyRefusedExactly | src/reply.rs:276-295 | which of the reasons a reply is refused for, in order |
| ProxyFidelity.FaithfulInvariant | src/io.rs:200-259 | whatever a downlink pump holds, and every command relayed, is a command received, one hop longer, its reply topic replaced only by one recorded for it |
| ProxyFidelity.OnceInvariant | src/io.rs:873-905 | no received command is in the hands of two pumps, or relayed twice |
| ProxyFidelity.RelayedInReceptionOrder | src/io.rs:868-905 | the commands one downlink pump relays are in strict order of reception |
| ProxyFidelity.RelayedIsReceived | src/reply.rs:157-200 | every command on the device bus is a received one under its own topic with its own content, each at most once; it asks for a reply iff that one did, on a bridge topic recorded with the requester's own |
| ProxyFidelity.AnswerIsReply | src/reply.rs:276-295 | every answer published carries the content of the reply taken on its bridge topic, one hop longer and asking for no reply |
| ProxyFidelity.AnswerReachesRequester | src/io.rs:283-320 | an answer on the bridge topic of a relayed command is published on the reply topic of the command received |

## Left out

- The pumps, the watcher, the sweep task and the reply pumps (src/io.rs) are step systems on
  values, because they interleave at awaits; the lock scopes they run are methods where they
  belong to `UplinkGovernor`, `UplinkPolicy` and `ReplyCorrelator`. Aliasing of the shared
  handles is not captured.
- Counting an expiry or a landing and the broker call beside it are one step, so a counter
  read between the two is not modelled.
- `publish_failed` and the drop counters, which uplink, downlink and reply path share in the
  source, are kept by origin; their sums are the source's counters.
- Rounding of `f64` tokens, and saturation of 64-bit counters.
- A requester whose own reply topic later equals a topic minted before: random names make it
  unlikely, and no theorem rules it out or depends on it.
- Cleanup by tasks aborted at shutdown, including a subscribe in flight at that moment.
- Failing unsubscribes, mutex poisoning, task scheduling fairness, provider queue overflow.
- Protobuf encoding, topic builders and identifier minting of the messaging library, which
  are not part of this model beyond the assumptions above.
- Broker connections and retries, TLS, last will and command line (src/main.rs): wiring.
- Configuration parsing (src/config.rs): the parsed values are constructor arguments.
- Metric names and emission (src/observability.rs): fixed tables, with only easy claims.
