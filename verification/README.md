# Jumpway, verified

A Dafny model of the parts of Jumpway where several pieces of code have to agree, or where shared
state changes step by step, with proofs of what they keep. `dafny verify dfyconfig.toml` checks all
of it.

**Traffic statistics** (`Counters`, `Registry*`, `Aggregates`, `Snapshots`). Counters are heap objects
shared by maps, hop lists and open connections. `RegistryState` gives the state of the whole registry
and its invariant, `RegistrySteps` every atomic step (what the registry's lock, or a counter's lock,
makes atomic), `RegistryRuns`, `RegistryProperties` and `RegistryPeaks` what holds after any number of
steps in any order, and `RegistryChanges` what only certain steps may change. The class in `Registry.dfy` does these steps in place, with the loops of the program, and
each of its methods is proved to be one of them. Times are integer nanoseconds; rates are exact
quotients truncated toward zero.

**The rule editor against the server** (`Config`, `Validate`, `RuleEditor`, `Editor*`,
`ConfigsService`). The browser form re-implements on drafts what the server checks on whole
configurations, and spells legacy credentials out as explicit protocols. The two are modelled apart,
each with its own loops, and proved to agree in what they accept, what they refuse and what an input
means. Whether a URL parses and whether a cipher is supported are parameters (`Env`), and so is
JavaScript's `Number` (`Browser`). Both sides share one class of whitespace.

**Reconciling running rules** (`ReloadSteps`, `Reload`, `ReloadChanges`, `Serve`, `VirtualSteps`,
`Virtual`, `Channels`, `SystemProxy`). A reload stops stale runtimes, waits for them, syncs the statistics and starts what is
missing, while runtimes report and exit at any moment. `Serve` is the relisten loop of every rule,
`Virtual` the in-process network where dials meet accepts. `Channels` runs the reload, the loops and the
network together. `SystemProxy` is the switch of the operating system's proxy setting, on the rules a
reload shows. The text form of a fingerprint is the pair of the rule and, for proxy rules, the no-proxy
list.

**The status poller** (`PollerSteps`, `Poller`). The closure variables of `createPoller`, with promise
handlers, timer, visibility, subscribers and refreshes as events in any order.

Five things the proofs found:

- A stored rule whose Shadowsocks entry has a username with a colon, as a file edited by hand can hold
  one, opens in the form, passes it untouched and is refused by the server, since the form neither shows
  nor checks that username (`ColonSlipsThrough`). With that, unsupported ciphers and unparsable URLs set
  apart, the form accepts exactly what the server accepts (`CreateAgrees`, `UpdateAgrees`).
- The latest latency of a hop depends on the order of its URLs exactly when two of its counters, both
  dialed at the latest instant of all, differ in latency (`LatencyIndependentOfOrder`); every other
  figure of a hop is independent of the order. `TieShowsOrder` is the smallest such tie.
- The wait after the first of several listen failures is the initial one even if that exceeds the
  maximum, so the doubling sequence is capped from the start exactly when it does not (`DelaysDouble`).
- After the end the system proxy stays off, whatever follows, exactly if no restore meets a rule without
  a name that is a local HTTP proxy with an address (`OffNeedsNames`). No reload ever shows a rule without
  a name (`RulesNamed`), so it does stay off (`OffAfterStop`).
- An end that comes before the first accepted configuration finds no root context to cancel and is
  forgotten: told to end, the application still reloads and starts a runtime that runs on
  (`EarlyEndForgotten`). The last end takes hold of the runtimes in place exactly if a configuration was
  accepted before it (`EndTakesHold`); an end that took hold is final (`EndIsFinal`).

## Model

| member | source | states |
|---|---|---|
| `Counters.RatesAccountForBytes` | metrics/counter.go:94-133 | over any run of one counter since it was made or reset, rate times window never adds up to more than the bytes, and with a clock that never goes back (rate + 1) times window covers all bytes a tick has seen, in both directions of traffic |
| `Counters.TickSeesAll` | metrics/counter.go:94-110 | after a tick that advances the clock, (rate + 1) times window covers every byte counted |
| `Counters.DialsAddUp` | metrics/counter.go:55-69 | dials that did not fail are the successful ones, and latencySum is the time of exactly those |
| `Counters.FiguresAddUp` | metrics/counter.go:37-92 | bytes each way, opens, open connections, dials and failures are the sums of what the events add |
| `Counters.TimesAreLatest` | metrics/counter.go:37-92 | the last activity and the last bytes each way are the latest times of their events, whatever order these come in |
| `Counters.LatencyIsLatest` | metrics/counter.go:55-69 | the latency and time of the last dial are those of the latest successful dial, the one told of last among equals |
| `Counters.TickedSane` | metrics/counter.go:94-110 | a tick starts the next window at its own time, keeps the bytes, and raises each peak to the new rate if that is higher, whatever the clock did |
| `Counters.WindowRates` | metrics/counter.go:94-110 | a tick that finds the clock gone on shows the bytes of its window per second, rounded down; gone back, it shows no rate; standing still, it changes nothing |
| `Counters.Counter.Open` | metrics/counter.go:37-44 | one more open connection, of the generation returned; lastActive is the latest time seen |
| `Counters.Counter.Close` | metrics/counter.go:46-53 | the active value drops only for a connection of the current generation |
| `Counters.Counter.Dial` | metrics/counter.go:55-69 | failures count as dials without latency; a success sets the latest latency unless a later dial has |
| `Counters.Counter.AddBytes` | metrics/counter.go:75-92 | bytes of one direction, and the latest times |
| `Counters.Counter.Tick` | metrics/counter.go:94-110 | rates of the window; a clock that went back measures zero, one that stood still changes nothing |
| `Counters.Counter.Reset` | metrics/counter.go:112-133 | all figures zero, the window at the given time, the next generation |
| `RegistryRuns.InvAlways` | metrics/registry.go:109-284 | the whole invariant (which counter sits under which key, tracked connections, counting, windows, peaks, bytes) holds in every state of every run |
| `RegistryRuns.KeepRuleDial` | metrics/dialer.go:81-127 | a dial through a whole rule keeps the invariant, tracked or not, whatever target it evicts |
| `RegistryProofs.KeepRecord` | metrics/conn.go:37-47 | traffic on a connection keeps the invariant: its target's bytes still cover those of all tracked connections |
| `RegistryProofs.KeepCloseCount` | metrics/conn.go:49-58 | the first half of a close keeps the invariant |
| `RegistryProofs.KeepUntrack` | metrics/dialer.go:122-126 | so does dropping the entry |
| `RegistryTargets.KeepLooked` | metrics/registry.go:197-220 | a lookup keeps the invariant and grows targets plus evictions by one for a new key and by nothing for a known one |
| `RegistryTargets.KeepTrack` | metrics/dialer.go:104-121 | a connection that joins the live set keeps the invariant |
| `RegistryClock.KeepTick` | metrics/registry.go:262-284 | a tick keeps the invariant: raised peaks cover the new rates and the peaks of all URLs |
| `RegistryClock.KeepReset` | metrics/registry.go:222-247 | a reset keeps the invariant |
| `RegistryHops.KeepAddHopUrl` | metrics/registry.go:179-195 | registering a hop URL lazily keeps the invariant |
| `RegistrySync.KeepSync` | metrics/registry.go:109-157 | a new configuration, with URLs and rules added, removed or reordered, keeps the invariant |
| `RegistryProperties.ActiveCountsConnections` | metrics/counter.go:37-53 | at every step active is the number of unclosed connections of the current generation, total that of all of them, so 0 <= active <= total, and failures never exceed dials |
| `RegistryProperties.PeaksCover` | metrics/registry.go:270-283 | at every step a hop's retained peak is at least the sum of the rates of its distinct counters and at least each counter's own peak |
| `RegistryPeaks.PeakIsHighest` | metrics/registry.go:270-283 | in every state of every run a retained peak is the highest rate its hop showed after any tick since the last reset, for as long as the hop has been at its place, and zero if there was none: no less and no more |
| `RegistryProperties.TrackedBelong` | metrics/dialer.go:100-126 | every tracked connection belongs to the rule object registered under its name and has not been dropped |
| `RegistryChanges.OnlyDialsAndClosesChangeLive` | metrics/dialer.go:86-127 | in every step: a connection is tracked by its own successful dial of a registered rule, under the next id and with what that dial knew, and goes by its own close or with its rule; a reset only gives it a new start |
| `RegistryChanges.DialLive` | metrics/dialer.go:86-127 | a successful dial yields a new connection on its target's counter whose writes flow up; it is tracked exactly if its rule is still registered |
| `RegistryProperties.IdsNeverReused` | metrics/dialer.go:104-121 | an id given out once names the same connection ever after |
| `RegistryProperties.RemovedForGood` | metrics/registry.go:109-133 | a removed rule object never comes back, even when its name does |
| `RegistryProperties.LateDialUntracked` | metrics/dialer.go:86-127 | a dial that ends after its rule was removed is not tracked, even if the name was added again |
| `RegistryProperties.CloseDropsOnlyItsOwn` | metrics/dialer.go:122-126 | a close removes the entry of its own connection and no other |
| `RegistryProperties.BytesCover` | metrics/conn.go:37-47 | at every step and in each direction a counter's bytes are at least the sum of those of the live connections that write to it, across eviction, sync, close and reset |
| `RegistryProperties.TargetsBounded` | metrics/registry.go:197-220 | no rule ever holds more than 1000 targets |
| `RegistryChanges.OnlyDialsAndResetsChangeTargets` | metrics/registry.go:197-239 | in every step: a target is added only by a dial to it, keeps its counter, and goes only by an eviction (idle ones and the least recently active first) or by a reset when no live connection names it; a new configuration drops none |
| `RegistryChanges.OnlyDialersAndConfigurationsChangeHops` | metrics/registry.go:135-195 | in every step: the counter of a hop URL comes with a dialer or a configuration that has the URL at that place, stays the same counter, and goes with a configuration that has it no more |
| `RegistryProperties.OnePlaceEach` | metrics/registry.go:286-296 | no counter is found under two keys, in two rules or with two connections, so a walk over all counters meets each once |
| `RegistryProperties.VisibleInWindow` | metrics/registry.go:262-269 | every counter a snapshot can show measures from the registry's last tick |
| `RegistryProperties.EventsExplain` | metrics/counter.go:37-110 | between resets a counter is what the opens, closes, dials, bytes and ticks of the run make of it, and nothing else touches it |
| `RegistryProperties.HistoryExplains` | metrics/counter.go:33-133 | in every state of every run every counter is what its own events since it was last made or reset make of a fresh counter, be it a rule's, a hop's, a target's or a connection's |
| `RegistryProperties.RatesNeverOvercount` | metrics/counter.go:94-133 | in every state of every run of the registry, for every counter since it was made or last reset, the making dial included: rate times window never adds up to more than the bytes, and if the clock never went back (rate + 1) times window covers the bytes ticks have seen |
| `RegistryProperties.TickCoversBytes` | metrics/registry.go:262-269 | right after a tick that advances a clock that never went back, (rate + 1) times window covers every byte a visible counter has counted since it was made or last reset |
| `RegistryProperties.LatencyAddsUp` | metrics/counter.go:55-69 | in every state of every run of the registry, for every counter since it was made or last reset: dials that did not fail are its successful ones, and latencySum is the time of exactly those |
| `RegistryProperties.FiguresExplained` | metrics/counter.go:37-92 | in every state of every run, for every counter since it was made or last reset: its sums, last times and latency are those of its own events |
| `RegistryProperties.OrderedAlways` | metrics/registry.go:109-127 | the list of names shown is the set of registered rules, each once |
| `RegistryChanges.RulesAreConfigured` | metrics/registry.go:109-133 | in every state the rules registered are those of the last configuration, and none before the first |
| `RegistryClock.ResetKeepsNamedTargets` | metrics/registry.go:228-239 | a reset keeps a target exactly when it was there and a live connection of the same rule has that address and via |
| `RegistryClock.ResetZeroes` | metrics/registry.go:222-247 | after a reset every visible counter is as new but for its generation, hop peaks and evictions are zero, tracked connections start anew, and connections, names and counters out of sight are as before |
| `RegistryClock.OldCloseIsHarmless` | metrics/counter.go:46-53 | closing a connection opened before a reset leaves the new active count at zero |
| `RegistrySync.DetachedStaysDetached` | metrics/registry.go:109-133 | a sync never registers an unregistered rule object again |
| `Registry.Registry.constructor` | metrics/registry.go:98-107 | an empty, valid registry whose first window starts now |
| `Registry.Registry.Record` | metrics/conn.go:37-47 | bytes flow up exactly when the accepting side reads or the dialing side writes, into the counter and the connection's own one and into no other; the registry stays valid |
| `Registry.Registry.NewConn` | metrics/conn.go:21-23 | a connection opened on its counter, in that counter's generation |
| `Registry.Registry.Connect` | metrics/conn.go:72-78 | a connection a wrapped listener accepts, or a hop's dial yields (metrics/dialer.go:37), is counted by the wrapped counter, and the registry stays valid |
| `Registry.Registry.HopDial` | metrics/dialer.go:24-36 | the end of a dial through one hop is counted; what it yields comes as a step of its own (`Connect`), so a reset may fall between |
| `Registry.Registry.Target` | metrics/registry.go:197-220 | the known counter, or a new one after at most one eviction: of an idle target if there is one, and of a least recently active one of its class, whatever the order of the map |
| `Registry.Registry.FindVictim` | metrics/registry.go:202-213 | the loop over targets in any order finds such a victim: idle if any target is, and among those like it the least recently active |
| `Registry.Registry.Track` | metrics/dialer.go:90-121 | the entry gets the next id, the route as dialed or inferred, and a counter of its own |
| `Registry.Registry.RuleDial` | metrics/dialer.go:81-127 | the end of a dial is that step of the model, and the registry stays valid |
| `Registry.Registry.HopRates` | metrics/registry.go:273-278 | the rates of a hop with each distinct counter added once |
| `Registry.Registry.Tick` | metrics/registry.go:262-284 | the loops over counters and hops make exactly the tick of the model, and the registry stays valid |
| `Registry.Registry.Reset` | metrics/registry.go:222-247 | the same for a reset |
| `Registry.Registry.Wrap` | metrics/registry.go:179-195 | a known URL keeps its counter, a new one joins its hop, which is made if need be |
| `Registry.Registry.Close` | metrics/conn.go:49-58 | closes once: the counter learns of it, then the entry goes; again it does nothing |
| `Registry.Registry.Disconnect` | metrics/registry.go:165-173 | finds the connection exactly when its id is tracked, closes it as `Close` does, and removes that entry alone |
| `Registry.Registry.SyncWay` | metrics/registry.go:135-157 | hops keep peaks by position, URLs their counters by key, new keys get new counters, and no other key remains |
| `Registry.Registry.Sync` | metrics/registry.go:109-133 | the loops make exactly the sync of the model: rules of known names keep their objects and targets, other entries of the live set go, and the registry stays valid, its list of names included |
| `RegistryParts.UniqueCounters` | metrics/registry.go:62-72 | the distinct counters of a hop in the order its URLs first name them |
| `RegistryParts.UniqueSums` | metrics/registry.go:62-72 | adding each once is the sum over the set, however many URLs share a counter and in whatever order |
| `RegistryParts.RouteOf` | metrics/dialer.go:90-103 | position by position: the URL the hop dialed, else the only text all its URLs share, else none |
| `Aggregates.CounterSnapshot.Add` | metrics/snapshot.go:234-260 | adding one counter's figures to an aggregate |
| `Aggregates.CounterSnapshot.Finish` | metrics/snapshot.go:262-275 | the average over successful dials, and the times that are known |
| `Aggregates.TotalsAdd` | metrics/snapshot.go:234-245 | every total of an aggregate is the exact sum over its counters |
| `Aggregates.MomentsAreLatest` | metrics/snapshot.go:246-258 | every last time of an aggregate is the latest of its counters |
| `Aggregates.AverageAndTimes` | metrics/snapshot.go:262-275 | the average latency is the total latencySum over the total successful dials, none if there are none |
| `Aggregates.OrderMattersOnlyToLatency` | metrics/snapshot.go:234-260 | two listings of the same counters differ in the latest latency at most |
| `Aggregates.LatencyIndependentOfOrder` | metrics/snapshot.go:246-249 | and do not differ at all exactly if those among the counters that no other was dialed after agree on their latency |
| `Aggregates.TieShowsOrder` | metrics/snapshot.go:246-249 | of any two counters dialed once, at one instant, the one listed first shows its latency, so swapping them changes what is shown exactly if the dials took different times |
| `Snapshots.TakeSnapshot` | metrics/snapshot.go:122-162 | shows every registered rule in order with its counter, hops, targets and connections |
| `Snapshots.SnapshotTargets` | metrics/snapshot.go:186-207 | every target once, and none before one with more open connections, or as many and more bytes, or as many of both and an address or else a via that comes first |
| `Snapshots.SnapshotHop` | metrics/snapshot.go:164-184 | its URLs one by one, its distinct counters together, the retained peaks |
| `Snapshots.LiveShownOnce` | metrics/snapshot.go:127-157 | every live connection is shown exactly once, under its own rule, in ascending order of ids, and nothing else is |
| `Snapshots.HopAddsDistinct` | metrics/snapshot.go:174-181 | every total a hop shows but its retained peaks counts each distinct counter once |
| `Snapshots.PeakShownCoversRates` | metrics/snapshot.go:164-184 | a hop is never shown faster than its peak, nor with a peak below one of its URLs' |
| `Sorting.Sort` | metrics/snapshot.go:191-206 | a permutation in which nothing comes after what it should precede |
| `Sorting.BeforeIsLexical` | metrics/snapshot.go:186-207 | one text comes before another exactly if, after a common beginning, it ends or goes on with the smaller character |
| `Config.FillSchemes` | config/config.go:81-106 | the served list: stored or legacy entries with shared credentials and the flat cipher filled in |
| `Validate.Validate` | config/validate.go:14-74 | refuses a configuration exactly when it is missing or not valid (every rule by itself, names, addresses among enabled local rules, the web UI), and the defect it reports is there |
| `Validate.ValidateListenAuth` | config/validate.go:76-151 | no error exactly when the credentials are usable, and the reported defect is there |
| `Validate.ValidateVirtual` | config/validate.go:153-170 | no error exactly when a channel name stands alone and without whitespace or slash |
| `Validate.ValidateWay` | config/validate.go:172-191 | no error exactly when every hop has URLs, all of them parsable and with a scheme |
| `RuleEditor.ReadRule` | app/web/ui/src/lib/ruleEditor.ts:264-361 | the rule a draft sends or all the errors it shows, as a function of draft and context |
| `RuleEditor.ReadAuth` | app/web/ui/src/lib/ruleEditor.ts:237-260 | the credential errors, row by row and shared |
| `EditorMeaning.HiddenInputsIgnored` | app/web/ui/src/lib/ruleEditor.ts:237-361 | any draft reads the same, as the same rule or with the same errors, when every input the form does not show is blanked: credentials where custom ones are off, rows switched off, the address of a channel and the channel of an address, all of the proxy part when forwarding and of the target when not |
| `EditorMeaning.ServesWhatRowsShow` | app/web/ui/src/lib/ruleEditor.ts:279-290 | an accepted proxy draft serves exactly the rows switched on, in order, each with its own username and password where custom ones are on and filled in and else the shared ones |
| `EditorMeaning.WaysComplete` | app/web/ui/src/lib/ruleEditor.ts:206-219 | an accepted way arrives hop by hop, trimmed, without blank rows and with no hop lost, exactly if every hop has a row |
| `EditorMeaning.IdsApart` | app/web/ui/src/lib/ruleEditor.ts:80-90 | opening a rule gives every hop and URL of both ways an id of its own |
| `RuleEditor.ReadWay` | app/web/ui/src/lib/ruleEditor.ts:207-220 | the hops sent and the URL errors |
| `RuleEditor.OwnerOf` | app/web/ui/src/lib/ruleEditor.ts:314-317 | the first other rule that holds an address, if any does |
| `RuleEditor.ParsePort` | app/web/ui/src/lib/ruleEditor.ts:191-196 | a port in range or nothing |
| `RuleEditor.SerializeWay` | app/web/ui/src/lib/way.ts:16-20 | the trimmed hops with a URL left, and nothing else |
| `EditorAgreement.AuthAgrees` | app/web/ui/src/lib/ruleEditor.ts:235-260 | for an explicit list the server accepts the credentials exactly when the form shows no error, no hidden Shadowsocks username has a colon and the ciphers are supported |
| `EditorAgreement.WaysAgree` | app/web/ui/src/lib/ruleEditor.ts:203-220 | what a way without problems sends passes the server exactly if it parses |
| `EditorAgreement.AddressesAgree` | app/web/ui/src/lib/ruleEditor.ts:228-230 | both sides compare the same address text |
| `EditorAgreement.AcceptedRuleOk` | app/web/ui/src/lib/ruleEditor.ts:264-361 | an accepted rule passes the server's checks on single rules exactly if it is servable |
| `EditorAgreement.AcceptedApart` | app/web/ui/src/lib/ruleEditor.ts:302-327 | an accepted rule shares neither name nor address with any other rule |
| `EditorAgreement.AcceptedNotWebUI` | app/web/ui/src/lib/ruleEditor.ts:321-326 | nor the address of the web UI |
| `EditorDecides.FormDecides` | app/web/ui/src/lib/ruleEditor.ts:264-361 | both ways: a draft is accepted and servable exactly if its numbers and channels can be read, the server takes the rule by itself and beside every other rule and the web UI, some protocol is on and no hop is blank; so the form refuses nothing it should not |
| `EditorDecides.WaysExactly` | app/web/ui/src/lib/ruleEditor.ts:206-219 | the form finds no fault with a way, and its URLs parse, exactly if the server takes it and no hop is blank |
| `EditorAgreement.ColonSlipsThrough` | app/web/ui/src/lib/ruleEditor.ts:97-137 | a stored rule that opens in the form, passes it untouched beside itself and any web UI, and is refused by the server |
| `EditorSave.CreateAgrees` | app/web/services/configs/configs.go:141-154 | a new rule accepted against a valid configuration is added, and the configuration as a whole is valid exactly if the rule is servable |
| `EditorSave.UpdateAgrees` | app/web/services/configs/configs.go:173-198 | the same for an edited rule, renamed or not |
| `EditorRoundTrip.SaveUntouched` | app/web/ui/src/lib/ruleEditor.ts:112-137 | every rule the server accepts opens into a draft that saves at once, trimmed and with its protocols spelled out |
| `EditorRoundTrip.MigrationServesTheSame` | app/web/ui/src/lib/ruleEditor.ts:97-110 | spelling out a legacy list and moving the flat cipher change nothing that is served |
| `EditorRoundTrip.MigratedAuthOk` | app/web/ui/src/lib/ruleEditor.ts:97-110 | the migrated credentials are still ones the server accepts |
| `EditorRoundTrip.SavedMeansTheSame` | app/web/ui/src/lib/ruleEditor.ts:338-360 | saving untouched keeps name, switch, entry, exit and everything served exactly if there is no outer whitespace to lose |
| `EditorRoundTrip.ReopenAndSave` | app/web/ui/src/lib/ruleEditor.ts:264-361 | within a valid configuration, beside all peers and the web UI, that save passes the form and the server, leaves a valid configuration and keeps the meaning |
| `ConfigsService.Service.Modify` | app/web/services/configs/configs.go:65-84 | only a valid configuration is ever saved, and any error but a failed reload leaves the stored one alone |
| `ConfigsService.Service.CreateRule` | app/web/services/configs/configs.go:141-154 | appends the rule unless its name is blank or taken: what reaches the store is every stored rule in its place, the new one last, and nothing else changed |
| `ConfigsService.Service.UpdateRule` | app/web/services/configs/configs.go:173-198 | replaces the rule of that name in place, unless the new name is another rule's: every other rule keeps its place and nothing else changes |
| `ConfigsService.Service.DeleteRule` | app/web/services/configs/configs.go:202-213 | removes one rule, the one of that name: the rules before are those after plus that one, all others keep their order, and web UI and no-proxy list stay |
| `ConfigsService.CreatedJoins` | app/web/services/configs/configs.go:141-154 | a rule joins at the end exactly if no stored one has its name |
| `ConfigsService.UpdatedReplaces` | app/web/services/configs/configs.go:173-198 | a rule is replaced in its place exactly if it is there and its new name is its own or free |
| `ConfigsService.DeletedTakesOne` | app/web/services/configs/configs.go:202-213 | a rule is taken out exactly if it is there, and only it |
| `ConfigsService.DeleteKeepsValid` | app/web/services/configs/configs.go:202-213 | deleting a rule never makes a valid configuration invalid |
| `ReloadSteps.ValidPlan` | config/validate.go:21-72 | the enabled rules of a valid configuration have names and share neither names nor local addresses nor channels, and a rule with a channel listens nowhere else |
| `ReloadSteps.InvAlways` | app/tray/reload.go:36-195 | the invariant of the reconciliation holds in every state of every run |
| `ReloadSteps.NothingShared` | app/tray/reload.go:119-195 | two runtimes that have not finished never share a fixed local address, a channel or a name, before, during and after any number of reloads |
| `ReloadSteps.SettledBetweenReloads` | app/tray/reload.go:54-68 | between reloads there is exactly one runtime per enabled rule, started from it as it is and counting on the registered statistics, and any runtime still running is one of these |
| `ReloadSteps.LastAccepted` | app/tray/reload.go:38-58 | and these rules are those of the last accepted configuration |
| `ReloadSteps.UnchangedStays` | app/tray/reload.go:119-131 | a rule keeps its runtime over all reloads that change neither its definition nor, for a proxy, the no-proxy list, and that find it up at the moment they look at it, however often it is down in between; nothing but the end of the application cancels it |
| `ReloadSteps.EndIsFinal` | app/tray/app.go:260-282 | once an end has cancelled the root every runtime is cancelled for good, those a later or concurrent reload starts included |
| `ReloadSteps.RootedSinceAccept` | app/tray/reload.go:45-51 | there is a root to cancel exactly since the first accepted configuration |
| `ReloadSteps.CancelledByEnd` | app/tray/app.go:260-275 | in every state of every run a runtime in place that has not finished is cancelled exactly if some end came after the first accepted configuration, whenever the runtime was started |
| `ReloadSteps.EndTakesHold` | app/tray/app.go:260-275 | so after the last end such a runtime is cancelled exactly if a configuration was accepted before that end |
| `ReloadSteps.EarlyEndForgotten` | app/tray/reload.go:45-51 | a run in which the end comes first and a runtime started afterwards is neither cancelled nor done |
| `ReloadSteps.LookupDecides` | app/tray/reload.go:99-127 | comparing fingerprints by name decides exactly whether the new configuration still wants a runtime |
| `Reload.EnabledRules` | app/tray/reload.go:99-116 | the enabled rules in order and their fingerprints by name; what a fingerprint must tell apart is said by `KeptExactlyIfUnchanged` |
| `ReloadSteps.EnabledAre` | app/tray/reload.go:99-116 | every rule of a plan is an enabled one of the configuration |
| `ReloadSteps.EnabledHas` | app/tray/reload.go:99-116 | and every enabled one is in the plan |
| `Reload.App.LookAt` | app/tray/reload.go:121-131 | a runtime stays exactly if its fingerprint is wanted and it is up; otherwise it is cancelled and forgotten |
| `Reload.App.StopStaleRules` | app/tray/reload.go:119-135 | every runtime is looked at, and everything stopped is done at the end, whatever reports, exits and ends of the application come meanwhile |
| `Reload.App.SyncRuleStates` | app/tray/reload.go:138-152 | states of surviving runtimes are kept, others are new and not running, and the statistics keep the objects of known names |
| `Reload.App.StartRule` | app/tray/reload.go:170-195 | a new runtime on the registered statistics; one that cannot be set up is done at once |
| `Reload.App.Report` | app/tray/reload.go:205-216 | a report sets address, running, attempt and error of its own rule's state alone, and is a step of the model |
| `Reload.App.Quit` | app/tray/app.go:260-275 | is the end of the model: cancels every runtime if there is a root, and changes nothing otherwise |
| `Reload.App.Reload` | app/tray/reload.go:36-82 | an invalid configuration changes nothing but the error; a valid one is applied by the steps of one reload, an end of the application at any moment included, and ends settled, with the states shown being those of the runtimes |
| `Reload.ReloadLeavesUnchanged` | app/tray/reload.go:119-131 | a rule that is up when such a reload looks at it and still wanted keeps its runtime |
| `ReloadChanges.KeptExactlyIfUnchanged` | app/tray/reload.go:97-135 | over one whole reload, in terms of both configurations: a runtime stays exactly if its rule is enabled in both and equal, the no-proxy list is the same when it serves a proxy (and whatever it is when it forwards), and it was up in the one step that looked at it |
| `Serve.ServeWithBackoff` | serve.go:28-70 | for every course of listen answers and cancellations: exactly the expected happenings, every listener closed before the next try and before the return, failures numbered from the last listener with their waits |
| `Serve.Serve` | serve.go:10-26 | with the default waits the n-th failure in a row waits 100 ms times 2^(n-1), at most 30 s |
| `Serve.DelaysDouble` | serve.go:29-67 | the waits are the capped doubling sequence from the first on exactly if the initial one does not exceed the maximum |
| `Serve.StoryTimes` | serve.go:28-67 | over all rounds up to the first cancelled one there are as many tries, reports of an address, reports of a failure and waits as the rounds call for: none after a cancellation, none left out |
| `VirtualSteps.InvAlways` | app/tray/virtual.go:42-99 | the invariant of the virtual network holds in every state of every run |
| `VirtualSteps.OneListenerPerName` | app/tray/virtual.go:42-54 | two listeners that have not ended never share a name |
| `VirtualSteps.DialsMatchAccepts` | app/tray/virtual.go:66-87 | a successful dial has met exactly one accept on the listener it looked up, and the reverse |
| `VirtualSteps.NoMeetingAfterEnd` | app/tray/virtual.go:68-76 | no handoff happens after the listener's end was announced |
| `VirtualSteps.NobodyForgotten` | app/tray/virtual.go:68-87 | nobody waits on an ended listener, nor while the other side waits on the same one |
| `VirtualSteps.CloseTakesOnlyItsOwn` | app/tray/virtual.go:89-99 | a name is given back only by the listener that has it |
| `VirtualSteps.EndIsForGood` | app/tray/virtual.go:89-99 | a closed listener never gets its name again |
| `VirtualSteps.CancelledNeverDials` | app/tray/virtual.go:56-62 | a dial whose context is cancelled before it has found its listener never reaches one |
| `Channels.InvAlways` | app/tray/reload.go:170-195 | in every state of every run of reloads, serving loops and network together, a channel's name is taken only by the loop of an unfinished runtime whose rule listens there |
| `Channels.NeverRefused` | app/tray/virtual.go:42-54 | no loop is ever refused its channel, whatever reloads, reports, exits, ends, dials and accepts come between: an earlier runtime has given the name back by then, and no other asks for it |
| `Virtual.VirtualNetwork.Listen` | app/tray/virtual.go:42-54 | refuses exactly the names in use |
| `Virtual.VirtualNetwork.Lookup` | app/tray/virtual.go:56-65 | finds the listener of the name, unless the context is done |
| `Virtual.VirtualNetwork.Select` | app/tray/virtual.go:68-77 | takes any case that is ready and waits only if none is |
| `Virtual.VirtualNetwork.Accept` | app/tray/virtual.go:80-87 | meets a waiting dial, waits, or fails; on an ended listener it fails |
| `Virtual.VirtualNetwork.End` | app/tray/virtual.go:90-91 | announces the end once and wakes whoever waits |
| `Virtual.VirtualNetwork.Close` | app/tray/virtual.go:89-99 | gives the listener's own name back; a repeated or late close changes nothing |
| `SystemProxy.SettingFollowsSelection` | app/tray/system_proxy.go:24-67 | after the first selection the last address given to the system is the remembered one, through any operations, and a rule stays selected only with an address |
| `SystemProxy.UntouchedBeforeSelection` | app/tray/system_proxy.go:57-67 | before the first selection nobody tells the system anything, whatever is published, restored or stopped, exactly if no restore meets a local proxy with an address and no name |
| `SystemProxy.OffAfterStop` | app/tray/app.go:260-282 | after the end the setting is off and no later operations in any order turn it on |
| `SystemProxy.OffNeedsNames` | app/tray/system_proxy.go:24-67 | after an end, whatever came before and comes after it and whatever rules are named, the setting stays off exactly if no restore meets, first among the rules without a name that are local HTTP proxies, one with an address |
| `SystemProxy.App.RulesNamed` | app/tray/reload.go:138-152 | the rules shown have names, whatever reloads and reports came before |
| `SystemProxy.App.ReloadRules` | app/tray/reload.go:36-58 | a reload keeps the setting's invariant, names included, and acts on it as a publication of rules |
| `SystemProxy.LocalProxyAddress` | app/tray/system_proxy.go:15-22 | where the first rule of the name listens that is an HTTP proxy on an address of this machine, neither remote nor on a channel; nothing if there is none |
| `SystemProxy.LocalProxyIs` | app/tray/reload.go:154-166 | the state made for a rule counts as such a proxy exactly if the rule serves a proxy with HTTP among its protocols, on no chain and no channel |
| `SystemProxy.App.SyncSystemProxySelection` | app/tray/system_proxy.go:24-35 | the selection follows its rule's address and is dropped with it |
| `SystemProxy.App.SelectSystemProxy` | app/tray/system_proxy.go:37-55 | always tells the system, but nothing after the end |
| `SystemProxy.App.RestoreSystemProxy` | app/tray/system_proxy.go:57-67 | tells the system only what changed |
| `SystemProxy.App.Stop` | app/tray/app.go:260-275 | forgets the selection, turns a set proxy off and then cancels the runtimes |
| `PollerSteps.InvAlways` | app/web/ui/src/lib/polling.svelte.ts:56-177 | the poller's invariant holds in every state of every run |
| `PollerSteps.NeverForgotten` | app/web/ui/src/lib/polling.svelte.ts:66-125 | while somebody watches a visible page a timer is armed or a load is under way that will arm it |
| `PollerSteps.OneAcceptable` | app/web/ui/src/lib/polling.svelte.ts:71-105 | at most one load's answer could be accepted, and it is the latest one started |
| `PollerSteps.AcceptedInOrder` | app/web/ui/src/lib/polling.svelte.ts:77-88 | numbers of accepted answers strictly increase and never exceed the number of loads started |
| `PollerSteps.NothingFromBefore` | app/web/ui/src/lib/polling.svelte.ts:56-62 | no load started before a hide or the last unsubscribe changes data, error, answered or failures afterwards |
| `PollerSteps.RefreshFromBefore` | app/web/ui/src/lib/polling.svelte.ts:166-173 | nor does a refresh that was waiting then: when its wait is over it changes nothing at all |
| `PollerSteps.LoadsExactlyWhenDue` | app/web/ui/src/lib/polling.svelte.ts:107-115 | a load is started exactly when the timer, a first subscriber, a page shown or a refresh asks for one, somebody watches a visible page, it is not busy and no load is under way |
| `PollerSteps.RefreshLoadsAfresh` | app/web/ui/src/lib/polling.svelte.ts:166-177 | what a refresh starts is numbered after every load started before the call, and the backoff restarts |
| `PollerSteps.BackoffDoubles` | app/web/ui/src/lib/polling.svelte.ts:64-115 | whenever the timer is armed its wait is min(interval x 2^n, maximum), where n counts, from the events, the failures of current loads since the last accepted value, first subscription, page shown or refresh load; after a load it is armed exactly if somebody watches |
| `PollerSteps.ShowsLatest` | app/web/ui/src/lib/polling.svelte.ts:78-97 | data, error and answered are what the last answer that counts made of them: a value replaces data and clears the error, a failure leaves the data, an abort changes nothing |
| `Poller.Poller.Tick` | app/web/ui/src/lib/polling.svelte.ts:107-115 | fetches, or reschedules while busy or loading, or does nothing unwatched |
| `Poller.Poller.OnVisibility` | app/web/ui/src/lib/polling.svelte.ts:117-125 | restarts on showing, drops everything on hiding, and keeps the invariant |
| `Poller.Poller.Unsubscribe` | app/web/ui/src/lib/polling.svelte.ts:156-164 | the last one drops everything; releasing twice does nothing |
| `Poller.Poller.Refresh` | app/web/ui/src/lib/polling.svelte.ts:166-177 | waits for the load under way, if any, then loads anew |
| `Poller.Poller.Answer` | app/web/ui/src/lib/polling.svelte.ts:79-96 | only a current load's answer counts, and an aborted one is no failure |
| `Poller.Poller.Settle` | app/web/ui/src/lib/polling.svelte.ts:97-102 | the load under way is over exactly if it is still the poller's |
| `Poller.Poller.Reschedule` | app/web/ui/src/lib/polling.svelte.ts:66-69 | after each load the timer is armed anew exactly if somebody watches |

## Left out

- RatesNeverOvercount: bytes moved since the last tick are in no rate yet, so the upper bound is about the bytes ticks have seen; `TickCoversBytes` says that right after a tick these are all bytes.
- Sync: two entries of one name in a configuration; `Validate` refuses them before any sync.
- LookAt: a fingerprint is the pair of rule and no-proxy list instead of the JSON text of both.
- KeptTargets: the loops of a reset over live entries are two, one that restarts them and one that collects the targets they name.
- TakeSnapshot: looking up the process behind a connection, and times and latencies as text or milliseconds.
- Report: a local address comes already made dialable, and a report of a cancelled runtime that the program swallows may still be recorded.
- StartRule: delivering the first listen result, and the error recorded for a chain that cannot be built; whether it can be is left open.
- Reload: the web UI listener and the collection of first errors.
- Record: the atomic additions of one record are one step; their interleaving with a reset of the same counter is not modelled.
- Atomic wrap-around of 64-bit ids, generations and byte counts, and the rounding of rates in floating point.
- Whitespace that Go and JavaScript disagree on (U+0085, U+FEFF), the parsing and redaction of URLs, cipher tables and `Number` on texts: parameters or one shared class.
- Stored ways written as text with `|` or as bare lists: a way is a list of lists of URLs.
- Copying rules, draft snapshots for dirty tracking and the other fields the editor only displays.
- Log lines and menus.
- Chains, dialers, retries, no-proxy matching and proxy protocols: thin layers over libraries that are not part of this model.
- The order in which Go wakes waiting dials or accepts, and the connections themselves once handed over.
- The poller's `onData` callback, and a `load` that throws before it returns a promise.
- Metrics export, HTTP routes, file storage and everything only shown.
