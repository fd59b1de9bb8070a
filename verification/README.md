# ThreadLens: a verified model

ThreadLens watches a Thread and Matter site without changing it. It listens to mDNS, polls border
routers, keeps a websocket to every Matter server, sends careful read probes to Matter nodes, and
sums all of it up as health. This project models the parts of it that decide something: the state
machines of the observers, the probe planner, runner and scheduler, the correlation of websocket
requests, the synchronisation loops, the availability metrics, the health roll-up and the choice of
report events. It proves, for every input and every run, what those parts are relied on for, and
where a promise fails it shows the input and proves when it does hold.

Run `dafny verify dfyconfig.toml` in this directory (Dafny 4.11).

## How it is built

- **State.** Objects whose methods update their fields are classes (`EventDebouncer`, the mDNS
  `Observer`, `Runner`, `Scheduler`, `Manager`, `Collector`, `Table`, the Matter `Observer`). Their
  methods are written step by step and proved equal to a function from the old state to the new
  one; the properties of whole runs are lemmas about that function. `ProbeVerdict`, `MdnsContents`,
  `HealthLevels`, `Outages`, `ProbeSources`, `OtbrRuns` and `NodeContents` say what comes out in terms
  of the inputs alone, without the functions of the model.
- **Decisions before debouncing.** Observers record every transition they decide in a ghost log or
  history. Alternation holds of decided transitions. `Debounce` and `MdnsEvents` say which of them get
  stored, and exactly when all of a service's are.
- **Time and interleaving.** Clocks are parameters. Code between two suspension points is one step;
  steps of different tasks come in any order. A completed probe run is one step of the runner; its
  late write of an older copy is a separate step of the Matter observer (`Persisted`), and may also
  come while a report is suspended between its decision and its storage; the report may also be
  given up there (`GivenUp`). `ProbeMemory` takes
  deciding and storing a report as two actions with whole probe runs and any writes in between.
- **Storage** is a map from keys to rows; keys are the source's own strings, and their injectivity
  is proved.

| file | part of the system |
|---|---|
| `Containers.dfy`, `Histories.dfy`, `Decimal.dfy`, `Ranking.dfy` | options, histories of transitions, integers as text, sets listed in rank order |
| `Debounce.dfy` | the event debouncer |
| `MdnsObserver.dfy`, `MdnsContents.dfy`, `MdnsOverlap.dfy`, `MdnsOrder.dfy`, `MdnsEvents.dfy` | mDNS services and their TREL twins, what the caches hold, handlers that overlap in order and in any order, the events they store |
| `DiscoveredProbes.dfy`, `ProbePlanner.dfy`, `ProbeRunner.dfy`, `ProbeScheduler.dfy` | Matter read probes |
| `ProbeSources.dfy`, `ProbeVerdict.dfy` | what a plan is made of, and what a run concludes from the answers |
| `ProbeMemory.dfy` | what probe runs learn, kept by the Matter observer |
| `RequestManager.dfy` | websocket requests and their waiters |
| `OtbrCollector.dfy`, `OtbrRuns.dfy`, `DeviceInventory.dfy` | border routers, Thread networks, device rows |
| `Availability.dfy`, `Outages.dfy` | per-node offline metrics, told from the events |
| `HealthRollup.dfy`, `HealthEngine.dfy`, `HealthLevels.dfy` | health, and what it reports told from the stored fields |
| `PolledHealth.dfy`, `ServiceFlaps.dfy`, `NodeDowntime.dfy` | what the health rules see after a poll round, of debounced mDNS events, and of a node that is down |
| `MatterObserver.dfy`, `NodeContents.dfy`, `Reconnect.dfy` | the Matter server observer, what it holds of a node, and its reconnect waits |
| `EventPriority.dfy` | which events a report keeps |

## What the code does that one might not expect

- An answer that arrives between registering a request and waiting for it is lost: the wait raises
  `KeyError` (`EarlyAnswerIsLost`, an if-and-only-if). Re-using a message id lets one waiter cancel
  or drop another's request (`SharedIdCancels`, `ReusedIdLosesItsEntry`; `FatesOfAFuture` says
  exactly when); single-use ids, as the
  observer creates them, exclude both (`SingleUseIsSafe`).
- mDNS handlers can overlap at their suspensions. Service lifecycles survive every overlap
  (`OverlapKeepsLifecycles`); the TREL mirror does not (`OverlapBreaksTheMirror`). It holds when the
  TREL halves of each service run in the order of its mDNS halves, whatever else overlaps
  (`OrderedHalvesMirror`). In any other order it holds exactly when the halves decide the same, one
  after the other, and the last advert is the same (`AnyOrderMirrorsExactlyWhen`).
- When two service types share an id, TREL rows can go astray (`SharedIdBreaksTheMirror`);
  `TrelMirrorsExactlyWhen` says for which inputs.
- Stored mDNS events need not alternate (`StoredEventsNeedNotAlternate`); `AllFlipsAreStoredIff` says
  exactly when all decided ones are stored, and then they do.
- Round-robin probing is fair while the set of available nodes is stable; a node that is always
  available can still starve when others come and go (`AlwaysAvailableNodeCanStarve`).
- A probe run that writes back an older copy of a node can make "unavailable" be decided twice in a
  row (`StaleWriteRepeatsATransition`), and so can a report that is given up between its decision
  and its storage (`GivenUpRepeatsATransition`). A write keeps cache and history in agreement exactly when
  its copy has the cached availability (`PersistAgreesIff`); `HistoriesAgree` is the exact condition
  for whole runs.
- A probe write that comes while a report of the same node is suspended is lost, learned paths
  included (`WriteDuringReportIsLost`, `RunInsideAReportIsForgotten`). Apart from that a refused path
  is forgotten, and may be asked again, exactly when the node is removed or an older copy of it is
  written back (`KnownWhileUndisturbed`).
- `last_unavailable` moves with every report that says "unavailable" (`ClockIsTheLatestReport`), and
  after every reconnect all nodes are reported again. So a node that has been down for the critical
  minutes is critical only if the latest such report is that old (`CriticalByTheLatestReport`).
- The classification "observed other" is never given to a network seen in the current round
  (`PrimaryMeansAlone` names the two it can get).
- The warning branch of the border-router disagreement rule cannot be taken
  (`DisagreementIsDegraded`), and after a poll round the second case of the unknown-primary rule cannot
  occur (`RulesAfterARound`). The environment can be healthier than one of its Thread networks
  (`NetworkCanBeMissed`; `NetworkIsNoticedExactlyWhen` says when it is not), and an "observed
  other" network warns even when it is no longer visible (`OtherNetworkWarns`).
- An event stamped in the future can push the offline total over the window or below zero
  (`FutureEventsOverrun`, `FutureOutageIsNegative`); `TotalIsExactWhen` says exactly when the total is
  right.
- A group without statuses is not neutral in a merge of merges: it counts as "unknown"
  (`EmptyGroupsAreUnknown`). A report limit of zero would keep every event
  (`ZeroLimitKeepsEverything`), and device keys are unambiguous only because addresses have a fixed
  length (`FreeLengthKeysCollide`).
- The first reconnect wait is not capped by the maximum (`CappedDoubling`).
- `docs/matter-read-probes.md` lists the conservative probe order without discovered candidates;
  the code puts them between the cached candidate and the generic ones
  (`threadlens/collectors/matter_probe_planner.py:126-127`). The model follows the code.

## Model

| member | source | states |
|---|---|---|
| Debounce.EventDebouncer.ShouldEmit | threadlens/utils/debounce.py:17-25 | A call is let through unless the same key was let through less than the debounce time before; only then is its time remembered, and no other key is touched. |
| Debounce.KeysAreIndependent | threadlens/utils/debounce.py:15-25 | For every sequence of calls over any keys, what passes for one key is the greedy filter of that key's own times, and the memory of a key is the last time that passed. |
| Debounce.DebouncerIsOptimal | threadlens/utils/debounce.py:17-25 | For a clock that does not step back: what passes for a key is at least the debounce time apart, and no selection of that key's calls with the same spacing is longer. |
| Debounce.BackwardClockLosesOptimality | threadlens/utils/debounce.py:18-23 | When the clock steps back the filter can pass one call where two spaced ones were available. |
| Debounce.WindowBound | threadlens/utils/debounce.py:17-25 | For a positive debounce time D, any window of length W holds at most W/D + 1 passed calls per key. |
| Debounce.KeptWholeIffSpaced | threadlens/utils/debounce.py:17-25 | The filter keeps a sequence of times whole if and only if each is at least the debounce time after the one before. |
| Debounce.AllPassIffSpaced | threadlens/utils/debounce.py:15-25 | Among any calls over any keys, all calls of one key pass if and only if that key's own calls are spaced. |
| MdnsObserver.Observer.ProcessServiceAdded | threadlens/collectors/mdns.py:242-281 | An unchanged visible service only has its last-seen time moved; otherwise the service is stored visible, an added or changed transition is decided (initial exactly for an unknown service), and a TREL service is mirrored. |
| MdnsObserver.Observer.ProcessServiceUpdated | threadlens/collectors/mdns.py:283-290 | An update without a meaningful change only moves last-seen, even for an invisible service; any other update is handled as an addition. |
| MdnsObserver.Observer.ProcessServiceRemoved | threadlens/collectors/mdns.py:292-328 | A visible service becomes invisible with a removed transition, and its TREL twin with it; an unknown or invisible one decides nothing. |
| MdnsObserver.Observer.UpsertTrelService | threadlens/collectors/mdns.py:344-379 | The TREL row takes over the advert, keeps first-seen, counts changes, and decides added for a service that was not visible, changed for a changed one. |
| MdnsObserver.Observer.Emit | threadlens/collectors/mdns.py:395-455 | A decided transition is stored exactly when the debouncer passes its key. |
| MdnsObserver.EveryServiceHasALifecycle | threadlens/collectors/mdns.py:68-95 | In every run from an empty cache: added and removed strictly alternate starting with added, visible means the latest is added, exactly the first transition is initial, change count and change time are those of the changed transitions, first-seen never moves. |
| MdnsContents.RecordDecides | threadlens/collectors/mdns.py:242-290 | A callback with a record decides "changed" for a visible service exactly if host name, addresses in any order, port or TXT record differ from what is cached; "added" for any other, unless it is an update without such a difference; otherwise nothing. |
| MdnsContents.RemovalDecides | threadlens/collectors/mdns.py:292-312 | A removal decides "removed" exactly for a visible service. |
| MdnsContents.RecordStored | threadlens/collectors/mdns.py:242-290 | Whether a callback takes over type and advert of its record or keeps the cached ones. |
| MdnsContents.CacheHoldsTheLastRecord | threadlens/collectors/mdns.py:242-312 | In every run a service is cached exactly if some callback brought a record of it, with host name, addresses, port and TXT record of the last such record and the time of the last callback about it. |
| MdnsContents.TrelHoldsTheLastRecord | threadlens/collectors/mdns.py:344-379 | Where the mirror holds, a TREL row exists exactly for a TREL id with a record, and has the advert of the last one in the same sense. |
| MdnsContents.TrelSeenAtItsTransitions | threadlens/collectors/mdns.py:261-379 | In every run the last-seen time of a TREL row is that of its latest TREL transition. |
| MdnsObserver.StepMirrorsIff | threadlens/collectors/mdns.py:242-328 | From a mirrored state a completed handler leaves the TREL rows and transitions mirrored if and only if its input fits: if it decides a transition, its type is TREL for a TREL id, and for any other id not TREL unless it is a removal. |
| MdnsObserver.TrelMirrorsExactlyWhen | threadlens/collectors/mdns.py:242-379 | In every run of completed handlers: after each of them the TREL cache has exactly the TREL keys of the mDNS cache with the same advert, visibility, counts and times of change, and the TREL transitions are the mDNS ones of TREL services, one for one, if and only if every input fits. |
| MdnsObserver.TrelMirrorsMdns | threadlens/collectors/mdns.py:273-328 | In particular in every run whose ids determine the TREL type. |
| MdnsObserver.SharedIdBreaksTheMirror | threadlens/utils/ids.py:64-70 | The smallest input that does not fit: two service types share an id, and a removal for the other type hides the mDNS row and leaves the TREL row visible. |
| MdnsOverlap.HalvesMakeAStep | threadlens/collectors/mdns.py:242-328 | A handler that nothing interrupts is its mDNS half followed by the TREL half it has left. |
| MdnsOverlap.OverlapKeepsLifecycles | threadlens/collectors/mdns.py:242-312 | The lifecycle of every mDNS service holds however the halves of concurrent handlers overlap. |
| MdnsOverlap.OverlapBreaksTheMirror | threadlens/collectors/mdns.py:261-328 | A removal handled while an addition of the same service is suspended leaves the TREL row visible and the mDNS row not. |
| MdnsOverlap.OrderedHalvesMirror | threadlens/collectors/mdns.py:242-379 | When ids determine the TREL type: however handlers overlap, those of one service included, if the TREL halves of each service run in the order of its mDNS halves, every service with no half left to do is mirrored, rows and transitions, and every other one will be once its halves have run. |
| MdnsOverlap.OutOfOrderBreaksTheMirror | threadlens/collectors/mdns.py:261-379 | Two TREL halves of one service that both decide a transition leave the mirror intact out of order if and only if they have the same effect. |
| MdnsOrder.HalvesSeparate | threadlens/collectors/mdns.py:242-379 | Whatever the order of all halves, one service ends as if first all handlers had run their mDNS halves and then its TREL halves had run in the order in which they did. |
| MdnsOrder.AnyOrderMirrorsExactlyWhen | threadlens/collectors/mdns.py:242-379 | In every run of halves in any order, once all TREL halves of a TREL service have run: rows and transitions are mirrored if and only if, position by position, those halves decide the same kinds at the same times as in the order of their handlers, and the last advert is the same. |
| MdnsOverlap.DrainCommutes | threadlens/collectors/mdns.py:242-379 | An mDNS half commutes with all TREL halves its service has left to do. |
| MdnsOverlap.HalfIsLocal | threadlens/collectors/mdns.py:354-379 | Neither half of a handler touches the rows or the histories of another service. |
| MdnsEvents.KeysTellKinds | threadlens/collectors/mdns.py:395-424 | The debounce key of a transition tells its kind: appearances and disappearances of a service are debounced apart, and no other service shares a key with it. |
| MdnsEvents.AllFlipsAreStoredIff | threadlens/collectors/mdns.py:395-424 | The stored appearances and disappearances of a service are all the decided ones if and only if its appearances are at least the debounce time apart and so are its disappearances. |
| MdnsEvents.SpacedFlipsAlternate | threadlens/collectors/mdns.py:242-424 | Then its stored events alternate, in every run of handlers. |
| MdnsEvents.FlapBound | threadlens/collectors/mdns.py:395-424 | In a window of length W one service stores at most 2(W/D + 1) appearances and disappearances. |
| ServiceFlaps.HealthCountsFlaps | threadlens/health/engine.py:457-462 | The number the health rules read from stored events is the number of appearances and disappearances of the services. |
| ServiceFlaps.HealthFlapsAreBounded | threadlens/health/engine.py:425-462 | With debounce time D, n services and no event stamped after now, the flap count of the last hour that the health rules compare with their thresholds is at most 2n(3600/D + 1). |
| MdnsEvents.StoredEventsNeedNotAlternate | threadlens/collectors/mdns.py:395-424 | Without that spacing, the stored events of one service can be one appearance followed by two disappearances. |
| Decimal.ParseFormat | threadlens/collectors/matter_probe_planner.py:52-54 | Reading back an integer written as text gives that integer. |
| Decimal.FormatIsInjective | threadlens/collectors/matter_probe_planner.py:194 | Different integers are written differently. |
| Decimal.JoinIsInjective | threadlens/collectors/matter_server.py:83-84 | A prefix, a separator and a part without the separator can be told apart again. |
| Decimal.ParsePathText | threadlens/collectors/matter_probe_planner.py:48-55 | Parsing the canonical text of an attribute path gives the path back. |
| Decimal.ParsePadded | threadlens/collectors/matter_probe_planner.py:52-54 | Tabs, line and page breaks and spaces around a number do not matter. |
| Decimal.SeparatorsAreErrors | threadlens/collectors/matter_probe_planner.py:52-54 | The ASCII separators 28 to 31 before a number are a ValueError. |
| Decimal.DigitsAreGroups | threadlens/collectors/matter_probe_planner.py:52-54 | The digits accepted are exactly non-empty groups of them with one underscore between two groups. |
| Decimal.UnderscoresDoNotCount | threadlens/collectors/matter_probe_planner.py:52-54 | Such an underscore does not change the number. |
| Decimal.ParsePaddedPath | threadlens/collectors/matter_probe_planner.py:48-55 | White space around the text of a path, the separators included, does not matter. |
| DiscoveredProbes.CollectEndpoints | threadlens/collectors/matter_probe_planner.py:58-64 | The endpoints of a cluster, ascending and without repetition, whatever the order the keys are visited in. |
| DiscoveredProbes.AddCandidate | threadlens/collectors/matter_probe_planner.py:193-208 | A path is kept exactly when the node reported it and it was not kept before; the result says whether the cap is reached. |
| DiscoveredProbes.DiscoverPrioritised | threadlens/collectors/matter_probe_planner.py:215-227 | The three nested loops keep the best-ranked prioritised paths and stop at the cap. |
| DiscoveredProbes.DiscoverPaths | threadlens/collectors/matter_probe_planner.py:180-235 | The loops compute the first 12 reported paths in the cluster, attribute, endpoint order, for any iteration order of the key set. |
| DiscoveredProbes.DiscoveredAreTheBest | threadlens/collectors/matter_probe_planner.py:180-235 | The discovered paths are distinct, reported by the node, at most 12 and in rank order, and every eligible path left out ranks after all that are kept. |
| ProbePlanner.DedupeCandidates | threadlens/collectors/matter_probe_planner.py:83-91 | The loop computes the list of first candidates per path. |
| ProbePlanner.DedupeKeepsFirsts | threadlens/collectors/matter_probe_planner.py:83-91 | Exactly the positions whose path does not occur earlier are kept, in order. |
| ProbePlanner.DedupedPaths | threadlens/collectors/matter_probe_planner.py:83-91 | Deduplication loses no path and leaves none twice. |
| ProbePlanner.DedupeCommutes | threadlens/collectors/matter_probe_planner.py:140-144 | Filtering out paths and keeping first occurrences commute. |
| ProbePlanner.CachedCommutes | threadlens/collectors/matter_probe_planner.py:163-178 | The cached-success candidate under more unsupported paths is the one under fewer with those paths filtered out. |
| ProbePlanner.PlanCommutesWithLearning | threadlens/collectors/matter_probe_planner.py:108-144 | For unsupported sets U within U', the plan under U' is the plan under U with the paths of U' filtered out. |
| ProbePlanner.PlanIsClean | threadlens/collectors/matter_probe_planner.py:140-144 | A plan repeats no path and contains no unsupported one. |
| ProbePlanner.ConservativePlansAreGeneric | threadlens/collectors/matter_probe_planner.py:115-127 | A conservative plan holds no device-specific candidate. |
| ProbeSources.PlanFollowsTheSources | threadlens/collectors/matter_probe_planner.py:93-178 | In every enabled plan each candidate is the one that the source of its path's first place makes (preferred paths, window covering, last success, found on the node, fallback, descriptors, as the mode has them), and the candidates come in the order of these places. |
| ProbeSources.PlannedPaths | threadlens/collectors/matter_probe_planner.py:93-178 | An enabled plan asks exactly the paths of the sources that are not known to be unsupported. |
| ProbeSources.DisabledPlansAreEmpty | threadlens/collectors/matter_probe_planner.py:102-112 | A disabled mode or node has an empty plan. |
| ProbeSources.FoundInOrder | threadlens/collectors/matter_probe_planner.py:20-38 | Which paths are read when found on a node, and in which order: the preferred attributes of the three clusters, then the other safe clusters; at most twelve. |
| ProbeRunner.AggregateOutcomes | threadlens/collectors/matter_probes.py:316-393 | The verdict of the first decisive outcome and the appended unsupported paths make up the new node. |
| ProbeRunner.Runner.RunProbeForNode | threadlens/collectors/matter_probes.py:240-290 | A run is skipped for the four stated reasons in order and then changes nothing; otherwise it asks the planned paths with early exit and stores the aggregate for that node only. |
| ProbeRunner.Runner.WalkCandidates | threadlens/collectors/matter_probes.py:264-286 | The loop asks the device exactly for the early-exit prefix of the plan, once each and in order. |
| ProbeRunner.EarlyExitIsSound | threadlens/collectors/matter_probes.py:264-289 | With fixed answers, early exit gives the same verdict, limited flag, path, label, error, duration and success as asking every candidate, and learns a subset; in conservative mode this needs a list without device-specific candidates. |
| ProbeRunner.PlannedRunsAreSound | threadlens/collectors/matter_probes.py:256-289 | Planned lists meet that condition in every mode, so planned runs are sound without it. |
| ProbeRunner.ConservativeNeedsGenericPlans | threadlens/collectors/matter_probes.py:279-281 | With a device-specific candidate after a generic one, conservative early exit gives another verdict than asking both. |
| ProbeRunner.RunLearns | threadlens/collectors/matter_probes.py:372-386 | A run adds exactly the paths it saw refused to the unsupported list and forgets none. |
| ProbeVerdict.RunConcludes | threadlens/collectors/matter_probes.py:240-393 | For every run with something to ask, told from the plan and the device's answers: it asks the plan up to the first success that ends it; a path is unsupported afterwards exactly if it was before or was asked and refused (not ok, not timed out, unsupported error); the deciding answer is the first device-specific success, else the first success, else the first failure of another candidate, else the last; and path, label, duration, error, last success and verdict are those of that answer. |
| ProbeVerdict.VerdictOfARun | threadlens/collectors/matter_probes.py:316-393 | A run is ok exactly if some asked path answered ok in time; failed exactly if none did and a path that is not device-specific failed, or the last one asked did; and limited otherwise. |
| ProbeVerdict.RefusedAre | threadlens/collectors/matter_probes.py:409-470 | The paths that a run saw refused are those asked that answered neither ok nor timed out, with the unsupported error. |
| ProbeMemory.KnownUnlessLost | threadlens/collectors/matter_server.py:375-595 | One action of the observer or of a probe run loses a known unsupported path if and only if it removes the node, writes a copy of it without the path, or stores a report decided before the path was known. |
| ProbeMemory.KnownWhileUndisturbed | threadlens/collectors/matter_server.py:375-595 | In every run of observer actions and probe runs, what is known about a node without a suspended report stays known up to a later point if and only if up to there the node is not removed and no copy of it without the path is written. |
| ProbeMemory.RefusedIsNeverAskedAgain | threadlens/collectors/matter_probes.py:256-289 | A path that a run saw refused is not asked by a later run of that node, whatever its keys, settings and answers, provided no report of the node was suspended during the first run and, in between, the node was not removed and no copy of it without the path was written. |
| ProbeMemory.RunInsideAReportIsForgotten | threadlens/collectors/matter_server.py:415-502 | A path newly refused by a run inside a suspended report of the node is known until the report is stored, and then forgotten. |
| ProbeRunner.PlanShrinks | threadlens/collectors/matter_probe_planner.py:108-144 | With fixed keys and settings a run adds no path to the plan, and no refused path stays in it; a new success may displace the old one. |
| ProbeRunner.RefusalsAreBounded | threadlens/collectors/matter_probes.py:372-375 | With fixed keys and settings, at most as many runs see a refusal as the first plan has paths. |
| ProbeScheduler.Scheduler.RunCycle | threadlens/collectors/matter_probe_scheduler.py:81-91 | One cycle selects min(max(1, limit), n) distinct available nodes starting at the stored index, and moves the index behind them; with no node it changes nothing. |
| ProbeScheduler.SelectionCounts | threadlens/collectors/matter_probe_scheduler.py:86-91 | A cycle's selection holds each node as often as its position is hit. |
| ProbeScheduler.CyclesAreOneWalk | threadlens/collectors/matter_probe_scheduler.py:81-91 | Everything that any number of consecutive cycles selects is, in order, one uninterrupted walk around the ring of nodes from the first index. |
| ProbeScheduler.RoundRobinIsFair | threadlens/collectors/matter_probe_scheduler.py:81-91 | With n stable nodes and batches of s, what k consecutive cycles from any index select holds every node floor(ks/n) to ceiling(ks/n) times. |
| ProbeScheduler.EveryWindowProbesAll | threadlens/collectors/matter_probe_scheduler.py:81-91 | Every ceiling(n/s) consecutive cycles select every node, and no cycle selects one twice. |
| ProbeScheduler.ProbedExactlyWhen | threadlens/collectors/matter_probe_scheduler.py:86-91 | A cycle of s probes among n nodes probes the node at position i if and only if (i - index) mod n < s. |
| ProbeScheduler.AlwaysAvailableNodeCanStarve | threadlens/collectors/matter_probe_scheduler.py:82-91 | When the set of available nodes changes between cycles, one cycle after the other can pass over a node available in all of them. |
| RequestManager.Manager.RegisterRequest | threadlens/collectors/matter_ws.py:52-60 | A new id gets a waiting future and its registration time; an empty or pending id raises and changes nothing. |
| RequestManager.Manager.BeginWait | threadlens/collectors/matter_ws.py:62-67 | A wait on a pending id holds its future; on any other id it ends with KeyError. |
| RequestManager.Manager.FinishWait | threadlens/collectors/matter_ws.py:69-86 | A waiter whose future is settled returns its result, with a duration if it had none, or is cancelled; the entry of its id is dropped. |
| RequestManager.Manager.TimeOutWait | threadlens/collectors/matter_ws.py:81-86 | A timeout returns a timed-out result, cancels the registered future and drops the entry. |
| RequestManager.Manager.AbandonWait | threadlens/collectors/matter_ws.py:85-86 | A cancelled wait drops the entry and leaves the future alone. |
| RequestManager.Manager.DispatchIncoming | threadlens/collectors/matter_ws.py:88-126 | A payload with a pending id and a result or error settles that future and drops the entry; every other payload changes nothing, and the return value says which. |
| RequestManager.Manager.CancelEverything | threadlens/collectors/matter_ws.py:128-143 | Every pending future gets the disconnect failure and both maps are empty afterwards. |
| RequestManager.SettledForGood | threadlens/collectors/matter_ws.py:45-149 | In every interleaving a future is settled at most once and a waiter ends at most once. |
| RequestManager.FuturesAreExplained | threadlens/collectors/matter_ws.py:88-149 | A settled future holds what a payload for its id said that was accepted while this very future was pending (ok exactly for a result; value, error and details those of the payload; not timed out; the time since the registration), or the disconnect failure (not ok, not timed out, the reason, the time since the registration); a cancelled one belongs to an id whose waiter timed out. |
| RequestManager.WaitersAreExplained | threadlens/collectors/matter_ws.py:62-86 | A waiter ends with the result that settled a future it held, with its own timeout (not ok, timed out, the time since the registration of that future), with a KeyError, with its own cancellation, or because another waiter on its id timed out. |
| RequestManager.TimesAreRegistrations | threadlens/collectors/matter_ws.py:52-67 | In every run the times that pending requests and waiters count from are those at which their futures were registered. |
| RequestManager.RegistrationsBalance | threadlens/collectors/matter_ws.py:52-149 | In every run each registration of an id has been answered once, failed once, dropped once, or is still pending. |
| RequestManager.EarlyAnswerIsLost | threadlens/collectors/matter_ws.py:62-66 | With nothing else using the id, a later wait raises KeyError exactly when a response or a disconnect came between registration and wait. |
| RequestManager.SingleUseIsSafe | threadlens/collectors/matter_server.py:214-226 | With ids used once, as the observer makes them, no waiter is cancelled by another and none holds a future that nothing can settle. |
| RequestManager.FatesOfAFuture | threadlens/collectors/matter_ws.py:45-149 | In every run a future ends with a result if and only if a payload for its id was accepted, or the connection failed, while it was pending; cancelled if and only if a waiter on its id timed out while it was pending; and without an entry for ever if and only if a waiter on its id was cancelled, or resumed with an earlier future, while it was pending. |
| RequestManager.SharedIdCancels | threadlens/collectors/matter_ws.py:81-82 | Two waiters on one id: the timeout of the first cancels the second. |
| RequestManager.ReusedIdLosesItsEntry | threadlens/collectors/matter_ws.py:85-86 | An id registered again before its first waiter resumes loses the new registration. |
| OtbrCollector.Collector.PollAll | threadlens/collectors/otbr_rest.py:107-130 | One round: every border router polled in order, networks synchronised with the groups, TREL rows classified against them. |
| OtbrCollector.Collector.PollOne | threadlens/collectors/otbr_rest.py:112-119 | A poll that answers and then fails ends unreachable, after both of its transitions. |
| OtbrCollector.Collector.ApplyReachable | threadlens/collectors/otbr_rest.py:256-319 | The answer is stored and "reachable" decided exactly when the router was unknown or unreachable. |
| OtbrCollector.Collector.MarkUnreachable | threadlens/collectors/otbr_rest.py:217-254 | The last answer is kept, and "unreachable" decided exactly when the router was unknown or reachable. |
| OtbrCollector.Collector.SyncNetworks | threadlens/collectors/otbr_rest.py:348-424 | Grouped networks are visible with their members, count, class and first-seen time; every other network is invisible and otherwise as before; the decided transitions are exactly those changes. |
| OtbrCollector.Collector.CorrelateTrel | threadlens/collectors/otbr_rest.py:426-448 | Every stored TREL row is classified against this round's extended PAN ids, and nothing else of it changes. |
| OtbrCollector.GroupsAreMembers | threadlens/collectors/otbr_rest.py:110-124 | With unique router ids, a group holds exactly the routers that ended the round reachable on that extended PAN id. |
| OtbrCollector.VisibleAreTheGroups | threadlens/collectors/otbr_rest.py:348-424 | After a synchronisation the visible networks are exactly the grouped ones. |
| OtbrCollector.PrimaryMeansAlone | threadlens/collectors/otbr_rest.py:657-664 | A visible network is primary exactly when one extended PAN id was seen, and then it is the only visible one; otherwise all seen are unknown. |
| OtbrCollector.ForeignMeansNotVisible | threadlens/collectors/otbr_rest.py:667-683 | A TREL row is foreign exactly when it has an extended PAN id that is not visible, and primary exactly when its id is the only visible one. |
| OtbrCollector.RoutersAreConserved | threadlens/collectors/otbr_rest.py:348-393 | The border-router counts of the visible networks add up to the number of routers reachable with an extended PAN id. |
| OtbrCollector.NetworksAlternate | threadlens/collectors/otbr_rest.py:400-424 | Over any rounds, seen and lost alternate per network starting with seen, and visible means last seen. |
| OtbrCollector.OtbrsAlternate | threadlens/collectors/otbr_rest.py:246-319 | Over any rounds, reachable and unreachable alternate per border router and the flag is the latest. |
| OtbrRuns.OtbrHoldsTheLatestAnswer | threadlens/collectors/otbr_rest.py:217-319 | Over any rounds from an empty cache, for every configured border router: its history is the changes in what its polls said, it is reachable exactly if they said so last, and it keeps its latest answer through any number of failed polls. |
| OtbrRuns.GroupedExactlyWhen | threadlens/collectors/otbr_rest.py:110-124 | A group holds exactly the polled border routers that ended the round reachable with its non-empty extended PAN id. |
| OtbrRuns.SeenNetworksAre | threadlens/collectors/otbr_rest.py:657-664 | A network seen in a round is primary if it is the only one and unknown otherwise. |
| OtbrRuns.LostNetworkKeeps | threadlens/collectors/otbr_rest.py:395-424 | A network not seen keeps everything but its visibility, and takes the time of the round if it was visible. |
| OtbrRuns.RowsAreClassified | threadlens/collectors/otbr_rest.py:667-683 | A TREL row without an extended PAN id is unknown; with one it is foreign exactly if that network was not seen, primary exactly if it was the only one seen, and observed-other otherwise. |
| DeviceInventory.Table.PersistInventory | threadlens/collectors/otbr_rest.py:614-654 | The upserts followed by the deletion of unseen rows. |
| DeviceInventory.Table.DeleteUnseen | threadlens/collectors/otbr_rest.py:644-654 | Exactly the rows of this border router whose key was not seen are deleted. |
| DeviceInventory.StoredRow | threadlens/collectors/otbr_rest.py:623-642 | The row of an address is the last inventory entry with it. |
| DeviceInventory.KeyIsInjective | threadlens/collectors/otbr_rest.py:624 | Router id and 16-character address can be read off the key, even if router ids contain colons. |
| DeviceInventory.InventoryIsExact | threadlens/collectors/otbr_rest.py:614-654 | Afterwards the rows of this router are exactly the inventory's addresses with their data, and all other rows are unchanged. |
| Availability.ComputeMetrics | threadlens/server/dashboard.py:526-595 | Filtering, stable sort, pairing with an open tail, counting, summing and median, as loops. |
| Availability.SortSorts | threadlens/server/dashboard.py:549 | The sort orders its input and keeps every element. |
| Availability.TotalIsExactWhen | threadlens/server/dashboard.py:546-568 | The total is the number of window ticks whose latest transition is "unavailable" if and only if, from now up to the last transition, the node counts as offline exactly when a last open episode is taken as lasting until now; without later transitions that always holds. |
| Availability.TotalCountsOfflineTicks | threadlens/server/dashboard.py:556-568 | With no transition after now, the total is that number of ticks, so it is between 0 and the window. |
| Availability.OfflineTicks | threadlens/server/dashboard.py:556-568 | For a node unavailable now, closed episodes plus open tail are the offline ticks. |
| Availability.ClosedTicks | threadlens/server/dashboard.py:556-565 | For any other node, the closed episodes are the offline ticks that a recovery ends. |
| Availability.EpisodesAreBounded | threadlens/server/dashboard.py:551-568 | Episodes are at most the unavailable transitions, and at most one more than the recoveries. |
| Availability.MedianSplits | threadlens/server/dashboard.py:516-523 | The median lies between two of the values and has at least half of them on either side. |
| Outages.MedianIsTheMiddle | threadlens/server/dashboard.py:516-523 | The median of the durations is the value of rank n/2 for an odd number of them, and the mean of those of rank n/2 - 1 and n/2 for an even number. |
| Outages.RanksAreUnique | threadlens/server/dashboard.py:516-523 | At most one value has a given rank. |
| Outages.DurationsAreOutages | threadlens/server/dashboard.py:556-571 | There is one duration for every outage that ended, from the transition that starts it to the one that ends it, and for a node unavailable now one more, from the last start to now. |
| Outages.CountsAreEvents | threadlens/server/dashboard.py:540-554 | The two transition counts are the numbers of events of each kind with a time in the window. |
| Outages.SortIsStable | threadlens/server/dashboard.py:549 | Transitions with equal times keep their order. |
| Availability.OrderDoesNotMatter | threadlens/server/dashboard.py:540-549 | With distinct timestamps the metrics do not depend on the order of the events. |
| Availability.FutureEventsOverrun | threadlens/server/dashboard.py:546-568 | A recovery stamped after now makes the total exceed the window by that much. |
| Availability.FutureOutageIsNegative | threadlens/server/dashboard.py:546-568 | An "unavailable" stamped after now, for a node unavailable now, makes the total negative. |
| HealthRollup.MergeHealth | threadlens/health/rollup.py:26-38 | Worst state wins and brings the distinct reasons of all statuses in that state, in order; nothing at all is "unknown". |
| HealthRollup.HealthFromCandidates | threadlens/health/rollup.py:41-53 | The same fold over rule candidates. |
| HealthRollup.WorstIsWorst | threadlens/health/rollup.py:20-23 | The picked state occurs and nothing is worse. |
| HealthRollup.DistinctMembers | threadlens/health/rollup.py:32-37 | The kept reasons are those given, none twice. |
| HealthRollup.GroupingIsIrrelevant | threadlens/health/rollup.py:26-38 | Merging the merges of any split into non-empty groups gives the state and the ordered reasons of merging the flat list. |
| HealthRollup.EmptyGroupsAreUnknown | threadlens/health/rollup.py:26-38 | For every split, empty groups included: the grouped merge is the flat merge with one "unknown" status in place of each empty group. |
| HealthRollup.Rollup | threadlens/server/dashboard.py:256-265 | The loop finds the first state name of the greatest severity, "unknown" for none. |
| HealthRollup.RollupsAgree | threadlens/server/dashboard.py:56-62 | On every list of health states, the empty one included, the dashboard picks the state that the engine picks. |
| HealthEngine.CalculateOtbrHealth | threadlens/health/engine.py:241-276 | The border-router rules in order, with the stored or the counted role changes. |
| HealthEngine.CalculateServerHealth | threadlens/health/engine.py:278-295 | The Matter server rules. |
| HealthEngine.CalculateNodeHealth | threadlens/health/engine.py:297-367 | The Matter node rules, including the minutes a node has been down. |
| HealthEngine.CountServiceFlaps | threadlens/health/engine.py:457-462 | One pass per event type counts the events of any of the types since the given time, initial observations excepted. |
| HealthEngine.BuildReport | threadlens/health/engine.py:77-207 | The report: component healths, the environment merge, the insufficient-data merge, the overall status. |
| HealthLevels.OtbrReports | threadlens/health/engine.py:241-276 | State and reasons of a border router: the worst level of a table of conditions on its stored fields, role changes and limits, with all that holds at that level, in order. |
| HealthLevels.ServerReports | threadlens/health/engine.py:278-295 | The same for a Matter server. |
| HealthLevels.NodeReports | threadlens/health/engine.py:297-367 | The same for a Matter node: unobservable, down, flaps, failed reads, failed pings. |
| HealthLevels.NetworkReports | threadlens/health/engine.py:369-399 | The same for a Thread network. |
| HealthLevels.MdnsReports | threadlens/health/engine.py:401-423 | The same for mDNS, flaps against both limits included. |
| HealthLevels.TrelReports | threadlens/health/engine.py:425-455 | The same for TREL; its own blindness counts only when nothing else holds. |
| HealthLevels.ComponentsReport | threadlens/health/engine.py:77-138 | Every component of the report is the summary of its table, the flap counts being the numbers of events of the last hour that are not initial. |
| HealthLevels.EnvironmentReports | threadlens/health/engine.py:140-192 | The environment's state is the worst level at which any row of any table holds (border routers, servers, nodes, observed-other networks, mDNS, TREL, disagreement, unknown primary), and healthy when none does. |
| HealthLevels.EnvironmentReasons | threadlens/health/engine.py:140-192 | Its reasons are those that the tables give at that level, and "insufficient data" when nothing is configured, seen or logged. |
| HealthLevels.SeenExtPanIds | threadlens/health/engine.py:464-473 | The extended PAN ids that the rules see are those of configured border routers whose last stored state is reachable with one. |
| HealthEngine.EnvironmentIsTheWorst | threadlens/health/engine.py:140-165 | The environment is never better than any border router, Matter server, Matter node, mDNS or TREL component, and no worse than its worst input. |
| HealthEngine.InsufficientKeepsTheState | threadlens/health/engine.py:187-192 | The insufficient-data merge never changes the environment's state. |
| HealthEngine.OverallIsTheEnvironment | threadlens/health/engine.py:167-192 | The overall status equals the environment, reasons included. |
| HealthEngine.FaultsNeverHelp | threadlens/health/engine.py:241-462 | Raising any role-change, availability-flap, probe-failure or service-flap counts never improves the environment, for any thresholds. |
| HealthEngine.OtbrNeverImproves | threadlens/health/engine.py:247-276 | More role changes never improve a border router. |
| HealthEngine.NodeNeverImproves | threadlens/health/engine.py:310-360 | More flaps or probe failures never improve a node. |
| HealthEngine.TrelNeverImproves | threadlens/health/engine.py:425-455 | More flaps never improve TREL health, also where none means "unknown". |
| HealthEngine.DisagreementIsDegraded | threadlens/health/engine.py:464-487 | Disagreement is reported exactly when reachable configured routers show two extended PAN ids, and always as degraded. |
| PolledHealth.RulesAfterARound | threadlens/health/engine.py:464-519 | After a completed poll round, with the collector's routers stored: the extended PAN ids the rules see are the groups of the round, "no id while an unknown network is visible" cannot occur, and both the primary-unknown warning and the disagreement appear exactly when two ids were seen. |
| HealthEngine.CriticalExactlyWhen | threadlens/health/engine.py:77-207 | The environment is critical exactly when a configured border router is stored as unreachable, a configured Matter server as disconnected, or a node of an observable server as unavailable with a last-unavailable time at least the critical minutes old (no time counts as now). |
| NodeDowntime.CriticalByTheLatestReport | threadlens/health/engine.py:310-320 | After every run of the observer whose probe writes keep the last-unavailable time, a node that is down and observable is critical if and only if the latest report saying "unavailable" is at least the critical minutes old. |
| NodeDowntime.CriticalOutagesAreOld | threadlens/health/engine.py:310-320 | With a steady clock, a node that is critical by its latest report has been reported down for at least the critical minutes. |
| NodeDowntime.RepeatedReportHidesTheOutage | threadlens/collectors/matter_server.py:390-392 | The converse fails: an outage reported again counts from the second report, however long ago it began. |
| HealthEngine.OtherNetworkWarns | threadlens/health/engine.py:149-156 | A network classified "observed other" makes the environment at least a warning, visible or not. |
| HealthEngine.NetworkIsNoticedExactlyWhen | threadlens/health/engine.py:140-165 | The environment is at least as bad as a stored network's own health if and only if that network is healthy, or some component, an "observed other" network, the disagreement or the unknown primary is that bad. |
| HealthEngine.NetworkCanBeMissed | threadlens/health/engine.py:369-399 | A network stored alone, unless classified "observed other", is a warning (visible) or unknown (invisible) by itself while the environment is healthy. |
| MatterObserver.Observer.LoadCache | threadlens/collectors/matter_server.py:554-559 | The stored rows of this server, in any order, are laid over the cache. |
| MatterObserver.Observer.DecideNode | threadlens/collectors/matter_server.py:375-422 | A report is decided against the cached node: seen, recovered, unavailable or nothing; without an availability it never makes a known node unavailable. |
| MatterObserver.Observer.StoreNode | threadlens/collectors/matter_server.py:426-502 | The node built before the suspension goes into cache and row, and reported attributes into the key cache. |
| MatterObserver.Observer.ProcessNode | threadlens/collectors/matter_server.py:375-502 | Deciding, any probe writes during the suspension, and storing make up one report. |
| MatterObserver.Observer.ProcessNodeRemoved | threadlens/collectors/matter_server.py:504-524 | A known node leaves cache, attribute keys and rows with a removed transition; an unknown one changes nothing. |
| MatterObserver.Observer.PersistNodeState | threadlens/collectors/matter_server.py:589-595 | A probe run's copy replaces cache entry and row. |
| MatterObserver.Observer.OnConnected | threadlens/collectors/matter_server.py:286-300 | "Connected" is decided exactly when the server was not connected. |
| MatterObserver.Observer.OnDisconnected | threadlens/collectors/matter_server.py:302-318 | "Disconnected" is decided exactly when the server was connected. |
| MatterObserver.SubjectIsInjective | threadlens/collectors/matter_server.py:83-84 | Server id and node id can be read off the row key, even if server ids contain colons. |
| MatterObserver.CacheMirrorsRows | threadlens/collectors/matter_server.py:375-595 | In every run, reports given up and probe writes of old copies included: cached ids are the ids of this server's rows, each row holds the cached node, and other servers' rows are untouched. |
| MatterObserver.ChangesAlternate | threadlens/collectors/matter_server.py:401-413 | In a legal history, unavailable and recovered alternate within one lifetime of a node. |
| MatterObserver.HistoriesAgree | threadlens/collectors/matter_server.py:375-524 | In every run, reports given up between decision and storage included: the histories stay legal with the cached availability as their latest entry after every step, if and only if at every step the probe writes keep the cached availability (writes for a node under a stored report of its own may be anything) and a report that is given up leaves the cache saying what it said. |
| NodeContents.CacheHoldsTheLastReport | threadlens/collectors/matter_server.py:375-595 | In every run: after each step the cached availability, product, attribute keys and last-seen time are what the reports said last since the node was last removed, if and only if no probe write changes them. |
| NodeContents.ReportDecides | threadlens/collectors/matter_server.py:394-413 | A report decides "seen" for an unknown node, and a change exactly if it names the other availability. |
| NodeContents.CacheHoldsTheLastWrite | threadlens/collectors/matter_server.py:375-595 | In every run the cached unsupported paths of a node are those of the last copy that a probe run wrote of it, except that a stored report undoes what was written while it was suspended, and that an unknown node starts with none. |
| NodeContents.ConnectionFollowsTheSignals | threadlens/collectors/matter_server.py:286-313 | In every run the observer is connected exactly if it was so signalled last, and the connection transitions it decides are these signals without repetitions. |
| MatterObserver.QuietReportsMayBeGivenUp | threadlens/collectors/matter_server.py:415-424 | A report given up after its decision keeps history and cache in agreement if and only if it decided nothing. |
| MatterObserver.PersistAgreesIff | threadlens/collectors/matter_server.py:589-595 | A probe write keeps history and cache in agreement if and only if its copy has the cached availability. |
| MatterObserver.StaleWriteRepeatsATransition | threadlens/collectors/matter_server.py:589-595 | A copy taken before a node went down and written afterwards makes the next report decide "unavailable" again. |
| MatterObserver.GivenUpRepeatsATransition | threadlens/collectors/matter_server.py:155-180 | A report given up after its decision, when the observer stops or the storage raises, decides the same again when it comes again, after a restart as well. |
| MatterObserver.ConnectionAlternates | threadlens/collectors/matter_server.py:286-318 | In every run connected and disconnected alternate and the flag is the latest. |
| MatterObserver.LearnedSurvives | threadlens/collectors/matter_server.py:460-595 | A path learned about a node survives every report, stored or given up, every reconnect and restart, every probe write for other nodes, and every probe write of the node whose copy has the path. |
| MatterObserver.WriteDuringReportIsLost | threadlens/collectors/matter_server.py:415-502 | A probe write for a node while its report is suspended leaves no trace; what it learned is lost. |
| MatterObserver.RepeatedReportRestartsTheClock | threadlens/collectors/matter_server.py:390-392 | A repeated "unavailable" report moves last-unavailable to now and records nothing. |
| NodeDowntime.ClockIsTheLatestReport | threadlens/collectors/matter_server.py:375-595 | In every run: after each step the cached last-unavailable is the time of the latest stored report saying "unavailable" since the node was last removed, if and only if no probe write changes it. |
| MatterObserver.FirstLoad | threadlens/collectors/matter_server.py:146-151 | After the first load the cache mirrors the rows and all histories start from them. |
| Reconnect.RunObserver | threadlens/collectors/matter_server.py:166-182 | The loop waits, after each session, the initial time following a clean close and the capped doubling following a run of failures, and stops when the observer stops; after k earlier failures in a row a wait is min(initial * 2^k, max) if and only if initial <= max or k >= 1. |
| Reconnect.BackoffIsCapped | threadlens/collectors/matter_server.py:175-179 | The variable that the loop doubles and caps after each failure is min(initial * 2^k, max) after k failures in a row, once k is positive. |
| Reconnect.CappedDoubling | threadlens/collectors/matter_server.py:175-179 | The wait after any sessions that end in k + 1 failures is min(initial * 2^k, max) if and only if initial <= max or k >= 1. |
| Reconnect.WaitsSettle | threadlens/collectors/matter_server.py:178 | Once the earlier failures in a row number max/initial or more, the wait is max. |
| EventPriority.CombineParts | threadlens/report/generator.py:592-598 | With a focus the result is the last of the focused events followed by the last of the others in what room is left. |
| EventPriority.PrioritisedKeepsTheBest | threadlens/report/generator.py:581-598 | For any limit from one on: exactly min(limit, n) events are kept, of each class the most recent in their order, and a focused event is dropped only when everything kept is focused. |

## Left out

- HTTP, websocket, zeroconf, MQTT and SQLite input and output; asyncio's own machinery beyond atomic steps in any order.
- Routes, dashboards' texts and cards, MQTT discovery, report serialisation, redaction, the command line and the web interface.
- Classification of error text as "unsupported": the device's answer carries it as a flag. Likewise whether a product name mentions a blind or shade.
- Text handling beyond ASCII in integer parsing and stripping, and the slugs of service ids.
- The 24-hour probe counters, ping and Thread identity capture inside a probe run; a completed run is one step of the runner.
- Extraction of extended PAN id and address from TREL TXT records, and the stored copies of the mDNS caches.
- Role-changed and dataset-changed events, capabilities and counters of border routers; TREL rows keep only what classification reads and writes.
- Debouncing of border-router, network and Matter events: histories hold the decided transitions. Histories are kept per subject, so their order across subjects is not modelled.
- Futures are numbered in order of creation; durations are exact differences, not truncated milliseconds, and error details are not shortened.
- Rounding of the offline total and median to whole seconds, and the choice of the cycle-count source.
- Home Assistant enrichment and Thread identity correlation, which write node rows behind the observer's cache.
- Suspensions of the Matter observer other than the one between deciding and storing a report: cache and row are written together, in the order the storage queue gives them, and nothing is given up between the two.
- Health sections of the summary that only count, and the labels of reasons.
- TotalCountsOfflineTicks: is the case without transitions later than now; TotalIsExactWhen covers the others.
- TrelMirrorsMdns: is the case of ids that determine the type and handlers that complete one by one; TrelMirrorsExactlyWhen and AnyOrderMirrorsExactlyWhen cover the others.
