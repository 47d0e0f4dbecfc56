# Statemachine server: a verified model

The statemachine server keeps finite state machines (FSMs) in Redis. A *configuration* lists states and
transitions; a *machine* refers to a configuration by its version id `name:version`, is in one state and carries
the history of the events it accepted. Requests arrive on a channel; a listener stores each event, processes it
with `TxProcessEvent` and stores one outcome for it. Several servers may share one Redis.

The project models that system and proves what it guarantees when any number of calls interleave.

- `Strings`, `Fsm`, `FsmObjects`: the engine. `Fsm` is its meaning on values; `FsmObjects` is the code itself, objects
  on the heap that are updated in place, with `SendEvent`, `Reset` and the validation loops proved against `Fsm`.
- `Keys`, `KeyClashes`, `Flat`, `FlatRuns`, `FlatSets`: the five key constructors, exactly which names make two keys one string, and
  the proof that servers on the single string keyspace run in lockstep with servers on a typed store. The other
  modules speak of the typed store; for separator-free names the lockstep carries what they say to string keys, and
  `FlatRuns` and `FlatSets` state the main results there.
- `Redis`, `Server`: commands and replies, a write counter per key for WATCH, and the concurrent system. Every call is a
  process with a program counter that issues one command per step; a run is *any* sequence of steps, where any
  command may be lost, before or after Redis executed it. EXEC therefore has its three results: committed,
  aborted, and an error with unknown effect.
- `Atomicity`, `AtomicCommits`, `Updates`, `Calls`, `Exhaustion`: the "no races" promise of `TxProcessEvent`, and its
  progress.
- `Results`: what the result of a call says, and what an undisturbed call does.
- `Configs`, `Catalog`, `Replacement`: configurations, who refers to them, and when one is replaced.
- `StateIndex`, `IndexExactness`, `Serial`: the sets of machines by state.
- `Undisturbed`, `Witnesses`: what each call does when nobody disturbs it, and the runs in which a promise fails.
- `Errors`: how errors are recognised from their texts.
- `Client`, `Listener`, `Queries`: the store's calls, the listening loop and the list calls as the imperative
  programs they are. A `RedisStore` object builds the keys, members and records of its own commands from its arguments
  and replies, and issues them while a script of other calls' actions and lost commands plays against it. They are
  proved to be the commands of its process in the concurrent system, so what holds of every run holds of the programs.

## Where the promise does not hold

The model follows the code where the code and its documentation differ; each difference is proved.

- `TxProcessEvent` promises no races (`pkg/storage/types.go:91-93`). The *record* keeps the promise, on string keys
  for configuration names without `:` and `#` (`FlatRuns.FlatCommitIsOneSend`, `FlatRuns.FlatNoLostUpdates`). The
  *sets by state* do not: they are changed before EXEC and outside the transaction
  (`pkg/storage/redis_store.go:313`), so an attempt that aborts leaves its change behind.
  `Witnesses.SomeRunLeavesIndexWrong` is a run of four answered calls that ends with the sets wrong;
  `Witnesses.RaceLeavesIndexExactIff` and `Witnesses.RetriedRaceLeavesIndexExactIff` say from the two events alone
  exactly when such a race leaves them right, and `IndexExactness.IndexIsExact` under which runs they are.
- Nothing keeps separators out of names (`pkg/api/fsm.go:130-157`), and then the record's promise ends too: machine `c`
  of `a#b` and machine `b#c` of `a` are one key. `KeyClashes.KeysMeetIff` says exactly which names let two entities
  share a key, for every pair of kinds; `FlatRuns.PutsReachOtherNameIff` that putting machines of one name makes
  machines of another appear exactly for the names that clash.
- A configuration name may hold a `:`. Creating a machine then writes its record under the part of the name before the
  `:` (`pkg/storage/redis_store.go:235`) and its set entry under the whole name (`pkg/grpc/grpc_server.go:199`).
  `Witnesses.CreationIsSoundIff` has the run; `StateIndex.IndexIsSound` says of any run that a set entry has grounds in
  its own machine exactly for names without `:`, and `Configs.MachinesReferToConfigurations` that the name in a
  machine's key is its configuration's exactly for those.
- `PutFiniteStateMachine` also overwrites a machine that exists, and names no old state to `UpdateState`.
  `Witnesses.PutLeavesIndexExactIff` says exactly when the sets are still right after it.
- `PutConfig` checks and writes in separate commands and reads a check that fails as "not there", so `already exists`
  is no guarantee: `Witnesses.OverlappingPutsReplace` and `Witnesses.UnansweredCheckReplaces` have a stored
  configuration replaced. `Replacement.PutReplacesIff` says of any put exactly when its SET replaces something, and
  `Replacement.NeverChangesIff` of any run exactly when nothing is. Answered checks and no overlapping puts of one id
  are enough (`Catalog.StoredConfigurationNeverChanges`).
- `PutConfig` also ignores the errors of its two set additions, so `GetAllConfigs` need not return "all the
  `Configurations` that exist" (`pkg/storage/types.go:55-56`): `Witnesses.LostAdditionsLeaveUnlisted` has a put that
  succeeds and a configuration that is stored and not listed. `Catalog.ListedIffAdded` is the exact condition.
- The listener dereferences the transition of an event it has stored (`pkg/pubsub/listener.go:67-68`). A request whose
  event has none stops it: no outcome is written and no later request is taken
  (`Listener.EventWithoutTransitionStopsTheListener`). `Listener.EventsListener.ListenForMessages` says exactly at which
  request it stops, and everything else of the requests before that one.
- `CheckValid` does not look at the targets of transitions (`pkg/api/fsm.go:143`), so a valid machine may become
  invalid. `Fsm.RunsStayValidIffTargetsDeclared` says exactly for which configurations that cannot happen.
- The store's constructor promises that `get` and `put` are retried up to maxRetries times
  (`pkg/storage/redis_store.go:390-391`). The loops count down and stop at zero, so this holds exactly for a maxRetries
  of at least one; below that every timeout costs one more command, without limit (`Client.RetryLimitKeptIff`).

## Model

| member | source | states |
|---|---|---|
| Strings.SplitJoin | pkg/storage/redis_store.go:235 | when the left part has no separator, splitting at the first one undoes joining with it |
| Fsm.FirstMatch | pkg/api/fsm.go:79-80 | the transition found fits state and event and no earlier one in the list does; none is found exactly when none fits |
| Fsm.SendEventMeaning | pkg/api/fsm.go:74-89 | an event is accepted if and only if some transition leaves the machine's state on it; the first such one gives the new state, and the event with that transition's ends, otherwise field by field as sent, is added to the history |
| Fsm.NewMachineMeaning | pkg/api/fsm.go:58-70 | a machine is made if and only if name and version are given, with the id made of both, the starting state and no history |
| Fsm.HasState | pkg/api/fsm.go:100-103 | true exactly for the two ends of a transition |
| Fsm.VersionIdNamesItsConfiguration | pkg/api/fsm.go:96-98 | splitting a version id gives the name back if and only if the name has no `:` |
| Fsm.VersionIdInjective | pkg/api/fsm.go:96-98 | for colon-free names, version ids agree exactly when names and versions do |
| Fsm.HistoryIsPath | pkg/api/fsm.go:58-94 | after any mix of accepted events, refused events and resets the history is a connected path of first-match transitions from the starting state to the current state, made of events sent since the last reset, in order |
| Fsm.ValidityKept | pkg/api/fsm.go:115-122 | where first-match targets are declared, any run of events and resets keeps a valid machine valid |
| Fsm.RunsStayValidIffTargetsDeclared | pkg/api/fsm.go:124-157 | for a valid configuration, all runs keep all valid machines valid if and only if first-match transitions out of declared states end in declared states |
| Fsm.ValidConfigurationMayLeaveItsStates | pkg/api/fsm.go:130-157 | some configuration that `CheckValid` accepts leads a machine out of its declared states |
| FsmObjects.EventMsg.Clone | pkg/api/fsm.go:75-78 | the clone is a fresh deep copy with the same content |
| FsmObjects.ConfiguredStateMachine.SendEvent | pkg/api/fsm.go:74-89 | the record in place becomes what `Fsm.SendEvent` says, only the machine's own record changes, a refusal changes nothing, and the new history entry is fresh |
| FsmObjects.ConfiguredStateMachine.Reset | pkg/api/fsm.go:91-94 | the machine is back in the starting state with no history, under the same configuration id |
| FsmObjects.NewStateMachine | pkg/api/fsm.go:58-70 | refused if and only if name or version is missing; otherwise a fresh machine with the id made of both, in the starting state, with an empty history |
| FsmObjects.Overwrite | pkg/api/fsm.go:75-78 | a caller that overwrites every field of an event of its own does not alter any history |
| FsmObjects.SendAndOverwrite | pkg/api/fsm.go:74-89 | the event may be overwritten right after it was sent: the machine is still what sending the original made it |
| FsmObjects.CfgHasState | pkg/api/fsm.go:105-113 | true exactly for the declared states |
| FsmObjects.CheckValid | pkg/api/fsm.go:130-157 | accepts exactly the configurations with a name, states, a declared starting state and every state at either end of some transition, and otherwise names the first thing that is wrong |
| FsmObjects.CheckMachine | pkg/api/fsm.go:115-122 | accepts exactly the machines with a valid configuration, a declared state and the id made of that configuration's name and version |
| Keys.ConfigIdKey | pkg/storage/keys.go:27-33 | every configuration id has a safe key; it is a configuration record's key exactly when the id has a `:` |
| Keys.VersionIdKey | pkg/storage/redis_store.go:185 | for colon-free names, a version id leads to the record of its own name and version |
| Keys.KeysAreFormatted | pkg/storage/keys.go:15-57 | the key of each kind, letter by letter, on an example |
| Keys.EncodeInjective | pkg/storage/keys.go:31-57 | for separator-free names, and any ids, states and versions, all key families are injective and pairwise disjoint |
| KeyClashes.RecordMeetsVersionSetIff | pkg/storage/redis_store.go:185-191 | a configuration record's key is a version set's key if and only if the set's name is the record's version id |
| KeyClashes.KeysMeetIff | pkg/storage/keys.go:31-57 | for every pair of kinds (machines, state sets, events, outcomes, configuration records, version sets, the set of names) and any names, two different keys can be one string if and only if the names clash as spelled out |
| Flat.FlatRunsInLockstep | pkg/storage/keys.go:31-57 | for separator-free names, every run on the flat string keyspace gives every process the replies, and every key the value and counter, of the run on typed keys |
| FlatRuns.FlatRunsAreWellTyped | pkg/storage/redis_store.go:231-336 | on string keys, for separator-free names: each key holds its own kind of value |
| FlatRuns.FlatRunRefinesAtomicMachine | pkg/storage/redis_store.go:277-336 | the refinement on string keys, for separator-free names: each machine and configuration is what the atomic machine holds after the run's writes, each commit accepted by the record it finds under a configuration put for it earlier in the run |
| FlatRuns.FlatNoLostUpdates | pkg/storage/redis_store.go:282-306 | no lost updates under the key `NewKeyForMachine` builds, for separator-free names |
| FlatRuns.FlatCommitIsOneSend | pkg/storage/redis_store.go:277-336 | on string keys, for separator-free names: a committing EXEC is one `SendEvent` on the record stored at that instant under that machine's key, under a configuration that was stored at an instant of the call after the record was read; no other machine's or configuration's key changes |
| FlatRuns.PutsReachOtherNameIff | pkg/storage/keys.go:36-39 | putting machines of one name makes a machine of another name appear in some run if and only if the names clash |
| FlatSets.FlatIndexIsSound | pkg/storage/redis_store.go:292-313 | index soundness on string keys, for separator-free names |
| FlatSets.FlatIndexIsExact | pkg/storage/redis_store.go:253-336 | index exactness on string keys, for separator-free names, under the conditions of `IndexIsExact` |
| FlatSets.FlatMachinesReferToConfigurations | pkg/grpc/grpc_server.go:169-204 | referential integrity on string keys, for separator-free names: the configuration under the key of a machine's configuration id has that id and the name in the machine's key |
| FlatSets.FlatListingsAreExact | pkg/storage/redis_store.go:195-216 | the listings on string keys, for separator-free names, under the conditions of `ListingsAreExact` |
| Redis.CounterDetectsChange | pkg/storage/redis_store.go:325 | the write counter never falls, and a key whose counter stood still did not change |
| Server.RunsAreWellTyped | pkg/storage/redis_store.go:231-336 | in every run on typed keys each key family holds only its own kind of value; `FlatRuns.FlatRunsAreWellTyped` has it on string keys |
| Atomicity.RunsAreLocked | pkg/storage/redis_store.go:277-325 | in every run, while the version an attempt watched still stands, the record is the one it read and its plan is `SendEvent` on that record |
| Atomicity.StepIsAtomic | pkg/storage/redis_store.go:277-336 | every step of the concurrent system is one atomic write or none |
| Atomicity.RunRefinesAtomicMachine | pkg/storage/redis_store.go:277-336 | refinement: in every run on typed keys the records are those an atomic machine reaches by the same writes, each commit accepted by the record it finds, under a configuration put for it earlier in the run (`CommitIsOneSend` ties it to the call); `FlatRuns.FlatRunRefinesAtomicMachine` has it on string keys |
| AtomicCommits.CommitIsOneSend | pkg/storage/redis_store.go:277-336 | a committing EXEC is one `SendEvent` of its own event on the record stored at that instant, and changes no other machine or configuration; in every run the configuration was stored at an instant of the call, at or after one when the record was this one, and where checks are answered and puts of one id do not overlap it is the one stored at the commit; on typed keys, and `FlatRuns.FlatCommitIsOneSend` has it on string keys |
| Updates.NoLostUpdates | pkg/storage/redis_store.go:282-306 | at every point of every run a machine is the first-match replay of its committed events in commit order from the record it was last put with, and its history is that record's history followed by exactly those events; on typed keys, and `FlatRuns.FlatNoLostUpdates` has it on string keys |
| Updates.StateIsReplayUnderStoredConfiguration | pkg/storage/redis_store.go:288-306 | when no configuration was replaced, that replay is the engine's run under the one configuration the machine names |
| Updates.RejectionsAreTrue | pkg/storage/redis_store.go:282-296 | a refusal, a missing machine and a missing configuration are each true of the store at instants when they were read, while the call was in progress |
| Updates.PlansWereRead | pkg/storage/redis_store.go:282-296 | whatever an attempt is about to write was computed from a record and a configuration that the store held at instants when the call was in progress |
| Calls.OneCommitPerCall | pkg/storage/redis_store.go:322-335 | a nil result means exactly one commit; refusals, failed lookups and exhausted retries mean none; any other error at most one |
| Calls.CounterCountsWrites | pkg/storage/redis_store.go:325 | between two instants of a run the counter of a machine grows by exactly the writes to it |
| Calls.ExecDecidedByItsWindow | pkg/storage/redis_store.go:299-330 | EXEC commits if and only if nobody wrote the machine since this attempt's WATCH, and aborts if and only if somebody did |
| Calls.CommitWindowsAreDisjoint | pkg/storage/redis_store.go:299-330 | the WATCH-to-EXEC windows of two commits on one machine never overlap |
| Calls.AttemptsArePaidFor | pkg/storage/redis_store.go:322-335 | every attempt already made cost a write of its own, by another call, to the same machine |
| Calls.RetriesExceededNeedsThreeWrites | pkg/storage/redis_store.go:322-335 | "retries exceeded" takes at least three writes by others during the call; with fewer the call never exhausts its retries |
| Exhaustion.ThreeWritesExhaustACall | pkg/storage/redis_store.go:322-335 | the bound is tight: for every colon-free configuration and every event accepted in its starting state, some run exhausts a call with exactly three writes by others |
| Results.CallEndsIff | pkg/storage/redis_store.go:50-336 | from any state and for every kind of call, its next command ends it with a result if and only if the cause of that result is there, told from the fate of the command and what the store holds |
| Results.EventCallEndsIff | pkg/storage/redis_store.go:277-336 | the same for event calls: not found exactly when an answered lookup finds nothing, refused exactly when the configuration found has no such transition, retries exceeded exactly at the third aborted EXEC, a store failure exactly when a command is lost or meets another kind of value |
| Results.CreationEndsIff | pkg/grpc/grpc_server.go:169-204 | the same for creating calls |
| Results.ConfigPutEndsIff | pkg/storage/redis_store.go:181-193 | the same for puts of configurations: "already exists" exactly when an answered check finds the id |
| Results.SaveEndsIff | pkg/storage/redis_store.go:94-131 | the same for events, outcomes and bare records |
| Results.EveryEndHasItsCause | pkg/storage/redis_store.go:50-336 | in every run, a call that has ended did so at one of its own commands, which had the cause of its result |
| Results.FailuresAreReal | pkg/storage/redis_store.go:50-336 | in every run, a call ends with a store failure or a broken lookup only if one of its own commands was not answered or met a key of another kind |
| Results.MissingMachineIsReported | pkg/storage/redis_store.go:282-286 | from any state, an undisturbed event call for a machine that is not there ends in "not found" and writes nothing |
| Results.MissingConfigurationIsReported | pkg/storage/redis_store.go:288-291 | from any state, an undisturbed event call whose machine's configuration is not there says so and writes nothing |
| Results.RefusalIsReported | pkg/storage/redis_store.go:294-296 | from any state, an undisturbed event call is refused when no transition leaves the machine's state on the event, and writes nothing |
| Results.CreationWithoutConfiguration | pkg/grpc/grpc_server.go:173-177 | from any state, an undisturbed creation whose configuration is not there says so and writes nothing |
| Results.StoredConfigurationIsRefused | pkg/storage/redis_store.go:186-188 | from any state, an undisturbed put of a stored id ends in "already exists" and writes nothing |
| Results.NewConfigurationIsStored | pkg/storage/redis_store.go:185-192 | from any state, an undisturbed put of an id not stored succeeds, and the configuration is stored and in both listings |
| Results.UndisturbedSave | pkg/storage/redis_store.go:231-365 | from any state, an undisturbed put of a record, an event or an outcome stores that value under its own key and changes nothing else |
| Results.CreatedAsAsked | pkg/grpc/grpc_server.go:187-199 | in every run, what a creating call stores and indexes has the id and history asked for, the state asked for if one was and else the starting state of a configuration found during the call, and goes under that configuration's name |
| Configs.ConfigurationsAreStoredUnderTheirIds | pkg/storage/redis_store.go:181-193 | where names are colon-free, every stored configuration is stored under its own name and version |
| Configs.RunsAreFiled | pkg/storage/redis_store.go:181-193 | in every run, for any names, every stored configuration is stored under its own version id, and a creating call past its lookup holds a name whose part before the first `:` is the one its record goes under |
| Configs.NoRecordUnderColon | pkg/storage/redis_store.go:231-238 | in every run, for any names, no machine record sits under a name with a `:` |
| Configs.MachinesReferToConfigurations | pkg/grpc/grpc_server.go:169-204 | in every run through the API, for any names, each stored machine names a stored configuration with that very version id; the name in the machine's key is that configuration's if and only if the name has no `:`, so always where names are colon-free |
| Catalog.StoredConfigurationNeverChanges | pkg/storage/redis_store.go:181-193 | with answered checks and no overlapping puts of one id, a stored configuration is the same at every later point |
| Catalog.EveryStoredConfigurationIsCurrent | pkg/storage/redis_store.go:181-193 | in such runs whatever was ever stored under an id is what is stored there now |
| Catalog.CheckedRunsNeverReplace | pkg/storage/redis_store.go:186-188 | such runs never store two different configurations under one id |
| Catalog.StoredConfigurationsAreListed | pkg/storage/redis_store.go:190-192 | where all set additions reach Redis, each stored configuration is in the name set and in its version set at every intermediate step |
| Catalog.ListingsAreAccountedFor | pkg/storage/redis_store.go:190-192 | in every run each listed name and version comes from a put that went past its check |
| Catalog.ListingsAreExact | pkg/storage/redis_store.go:195-216 | where all set additions reach Redis and names are colon-free, with no put in progress and none failed, names and versions are listed if and only if they are stored |
| Catalog.ListedNameIsStored | pkg/storage/redis_store.go:190-192 | whatever additions are lost, with colon-free names, no put in progress and none failed, a listed name is that of a stored configuration |
| Catalog.ListedVersionIsStored | pkg/storage/redis_store.go:191-192 | likewise a listed version id is that of a stored configuration of this name |
| Catalog.ListedIffAdded | pkg/storage/redis_store.go:190-191 | in every run, for any names, a name or version id is listed if and only if some set addition of it was executed |
| Catalog.ConfigurationListedIff | pkg/storage/redis_store.go:190-216 | in every run a configuration is in both listings if and only if both additions of it were executed |
| Replacement.LastPutDecides | pkg/storage/redis_store.go:181-193 | at any point of any run, what is stored under an id is what was put there last since any given instant, or what was there then |
| Replacement.NoPutIffNone | pkg/storage/redis_store.go:181-193 | the latest put since an instant is missing exactly when no action since then puts |
| Replacement.CheckFoundNothing | pkg/storage/redis_store.go:186-188 | a check that was answered and let the put pass found nothing stored |
| Replacement.PutReplacesIff | pkg/storage/redis_store.go:186-192 | past its check, a put has something other than its own configuration under its id if and only if another call put a different one since the check and nobody put after it, or nothing was put and the check went unanswered while a different one was there |
| Replacement.ReplacedIff | pkg/storage/redis_store.go:186-192 | an action replaces a stored configuration if and only if it is the SET of such a put |
| Replacement.NeverChangesIff | pkg/storage/redis_store.go:186-192 | over a whole run what is stored under an id never changes if and only if no such SET occurs |
| StateIndex.IndexChange | pkg/storage/redis_store.go:253-275 | where names are colon-free, only a machine's own calls move it between sets, into or out of the one state they name |
| StateIndex.IndexIsSound | pkg/storage/redis_store.go:231-313 | in every run, aborted attempts included and for any names, an entry of a set is justified by the machine under the name's part before the first `:`, whose record held the state or held one from which a first-match transition of a configuration put for it leads there; it is justified by its own machine if and only if the name has no `:`, so always where names are colon-free |
| IndexExactness.IndexIsExact | pkg/storage/redis_store.go:253-336 | with colon-free names, machines created once, events starting after creation returned and set-changing attempts committing: whenever no attempt on the machine stands between its set change and EXEC and its creation is not in progress, it is in the set of a non-empty state if and only if its record is in that state |
| IndexExactness.IndexRefinesScan | pkg/storage/redis_store.go:240-251 | where the sets are exact, the members of a set are what a full scan by name and state finds |
| IndexExactness.ExecLeavesIndexExactIff | pkg/storage/redis_store.go:299-319 | for any attempt at its EXEC, whatever others did to the sets: after a commit they are exact if and only if the machine is in the set of the new state alone, without one if and only if they were before; `Witnesses.RaceLeavesIndexExactIff` has the condition on the events themselves |
| Serial.SerialRunsAreClean | pkg/pubsub/listener.go:42-86 | calls made one at a time, all answered, meet the conditions of `IndexIsExact`: no attempt ever aborts |
| Serial.SerialQueriesAreScans | pkg/storage/redis_store.go:240-251 | between the calls of such a run, with colon-free names, every set is what a full scan finds |
| Witnesses.OverlappingPutsReplace | pkg/storage/redis_store.go:186-192 | for any two configurations with one id, some run stores the first and then replaces it by the second |
| Witnesses.UnansweredCheckReplaces | pkg/storage/redis_store.go:186-192 | for any two configurations with one id, with nothing else in progress, some run loses one check and replaces the first by the second |
| Witnesses.LostAdditionsLeaveUnlisted | pkg/storage/redis_store.go:190-192 | for every configuration, some run has its one put succeed, nothing in progress, and the configuration stored and not listed |
| Undisturbed.UndisturbedPut | pkg/grpc/grpc_server.go:169-204 | from any state and for any name, an undisturbed put of a machine succeeds and stores the configuration id and history asked for, with the state asked for if there is one and else the starting state, under the name the id starts with; it adds one entry for that state, under the configuration's own name, and changes no other record or entry; the two names are one if and only if the latter has no `:` |
| Witnesses.PutLeavesIndexExactIff | pkg/grpc/grpc_server.go:187-202 | where the sets are exact for the machine, an undisturbed put leaves them exact if and only if the machine had the very state it is put in, a defaulted starting state included, or it had none and the configuration's name has no `:` |
| Witnesses.CreationIsSoundIff | pkg/grpc/grpc_server.go:193-199 | for every configuration with a starting state, putting it and creating a machine, every command answered, leaves an entry that is justified, has a record and is exact if and only if the name has no `:` |
| Undisturbed.UndisturbedCallCommits | pkg/storage/redis_store.go:277-336 | from any state, a call nobody disturbs commits on an event its machine accepts, and takes the machine out of the set of the old state and into that of the new one, where these are not empty |
| Witnesses.RaceLeavesIndexExactIff | pkg/storage/redis_store.go:299-330 | two events race on any machine whose sets are exact; the second commits before the first one's EXEC, and the first one's retry is refused: the sets end up exact if and only if the first event's target is empty, the old state or the winner's target |
| Witnesses.RetriedRaceLeavesIndexExactIff | pkg/storage/redis_store.go:299-330 | the same race with the retry accepted: exact if and only if the first target is empty, the old state, the winner's target or the retry's |
| Witnesses.AbortedAttemptLeavesStaleEntry | pkg/storage/redis_store.go:299-319 | from any state, exact or not, when the loser's retry is refused and its first target is none of those, the machine stays in the set of a state it is not in |
| Witnesses.SomeRunLeavesIndexWrong | pkg/storage/redis_store.go:313 | some run of answered calls ends with nothing in progress and the sets wrong |
| Errors.RecognisedIffTrimmedKeyIsOneWord | pkg/storage/types.go:32-49 | a not-found error is recognised if and only if its key, trimmed, is non-empty and free of whitespace |
| Errors.MatcherDecidesPattern | pkg/storage/types.go:37-49 | the matching program accepts exactly the texts of the pattern |
| Errors.WhitespaceSplitsKeys | pkg/storage/types.go:37-49 | a key with one character between two letters is recognised if and only if that character is not tab, newline, form feed, carriage return or space |
| Errors.ErrorsAreWorded | pkg/storage/types.go:28-35 | the error texts, letter by letter, on an example each |
| Errors.WrappedTextIsNotRecognised | pkg/storage/types.go:37-49 | a text with inner whitespace, wrapped as a missing key, is not recognised |
| Errors.BrokenLookupIsNotRecognised | pkg/storage/redis_store.go:81-85 | a store error wrapped as a missing key is not recognised, whatever its text |
| Errors.EventErrorClassification | pkg/storage/redis_store.go:282-296 | a failed machine lookup is recognised for whitespace-free keys; a missing configuration, a configuration lookup that broke, a refusal and exhausted retries never are |
| Client.EndedCallsStay | pkg/storage/redis_store.go:325-333 | a call that has ended stays as it ended, whatever runs later |
| Client.PutLeavesOldOrNew | pkg/storage/redis_store.go:94-131 | whatever times out, executed or not, an undisturbed `put` of an event, an outcome, a machine or a configuration leaves the old or the new value, and the new one when it returns nil |
| Client.RetryLimitKeptIff | pkg/storage/redis_store.go:50-131 | the number of commands stays within maxRetries if and only if that is at least one; below, it is one more than time out in a row |
| Client.LookupErrorsAreWorded | pkg/storage/redis_store.go:65-89 | the text of a failed lookup: "not found", the raw error after the last timeout or for a record that does not parse, a store error otherwise |
| Client.RemoveErrorIsWorded | pkg/storage/redis_store.go:260-262 | the text of a failed removal from a set, letter by letter, on an example |
| Client.AddErrorIsWorded | pkg/storage/redis_store.go:269-271 | the text of a failed addition to a set, letter by letter, on an example |
| Client.RedisStore.Get | pkg/storage/redis_store.go:50-92 | under any timeouts the loop issues exactly the number of GETs of its key that `RetryLimitKeptIff` is about, gives up exactly when the limit is reached, and its process goes on with the last reply |
| Client.RedisStore.Store | pkg/storage/redis_store.go:94-131 | the loop issues exactly that number of SETs of its key and value; "retries exceeded" exactly when the limit is reached, a store error exactly when the SET after the timeouts is lost, nil otherwise, each with its own text; and it ends its process with the result it returns |
| Client.RedisStore.Put | pkg/storage/redis_store.go:351-365 | a call that is one `put` and nothing else: one saving call of the run, under a number of its own, with this key and value, ended as returned |
| Client.RedisStore.PutStateMachine | pkg/storage/redis_store.go:231-238 | one put of the record under the name its configuration id starts with, ended as returned |
| Client.RedisStore.PutEvent | pkg/storage/redis_store.go:351-357 | one put of the event, with or without a transition, under its configuration and id, ended as returned |
| Client.RedisStore.AddEventOutcome | pkg/storage/redis_store.go:359-365 | one put of the outcome under its configuration and event id, ended as returned |
| Client.RedisStore.PutConfig | pkg/storage/redis_store.go:181-193 | the EXISTS, the two SADDs and the SETs it builds from the configuration are those of one put-configuration call of the run, which ends as returned |
| Client.RedisStore.PutFiniteStateMachine | pkg/grpc/grpc_server.go:169-204 | the GET, the SETs of the defaulted record and the SADD it builds are those of one creating call of the run, which ends as returned |
| Client.RedisStore.UpdateState | pkg/storage/redis_store.go:253-275 | the SREM and SADD built from its arguments, empty states skipped, are the ones its process is at, and take it past the sets or end it with the error text of the one that failed |
| Client.RedisStore.Attempt | pkg/storage/redis_store.go:280-321 | one attempt, with the GETs and the new record it computes, ends the call with the result and error text returned, or leaves it at the next WATCH; with every command answered and nobody else about, the result and the record left follow from what it finds, case by case |
| Client.RedisStore.Pipelined | pkg/storage/redis_store.go:299-320 | the sets are moved before the EXEC that writes the record passed to it; only an aborted EXEC is tried again |
| Client.RedisStore.TxProcessEvent | pkg/storage/redis_store.go:277-336 | under any interleaving and any losses the commands it builds are those of one event call of the run, and it returns that call's result and error text; with every command answered and nobody else about, a missing machine, a missing configuration and a refused event are each returned as such with the store unchanged, and any other event is committed |
| Listener.ReportedCode | pkg/pubsub/listener.go:69-75 | Ok exactly for a nil result; FsmNotFound for a failed machine lookup under a whitespace-free key; never for a missing configuration, a refusal or exhausted retries, and for a configuration lookup that broke only if it timed out with a one-word text |
| Listener.AllStayTruthful | pkg/pubsub/listener.go:42-86 | what was reported about earlier requests stays true whatever runs later |
| Listener.EventsListener.ReportOutcome | pkg/pubsub/listener.go:88-93 | exactly one outcome write, under the response's event id and configuration |
| Listener.EventsListener.PostNotificationAndReportOutcome | pkg/pubsub/listener.go:29-40 | posts the response if there is a channel, and makes one outcome write |
| Listener.AnsweredDidNotStop | pkg/pubsub/listener.go:61-68 | of the requests that were answered, none with an event without a transition had it stored |
| Listener.EventsListener.Process | pkg/pubsub/listener.go:46-84 | the response has the code and details that the calls made for the request deserve, and those calls are exactly the ones it names, in order; or the request is well formed, its event has no transition and was stored, and there is no response; with every command answered, an event for a machine that is not there, under names without whitespace, gets `FsmNotFound` |
| Listener.EventsListener.ListenForMessages | pkg/pubsub/listener.go:42-86 | for every request sequence: it stops at a request if and only if that is the first well-formed one with an event, without a transition, that was stored; for the requests before it, or all of them, one truthful entry per request in order, the store calls are exactly theirs with one outcome write each, and the notifications are the responses that are not Ok |
| Listener.EventsListener.Handle | pkg/pubsub/listener.go:44-85 | one turn of the loop: an entry for the request, or a stop; from any state of the store, with every command answered, a request for a machine that is not there, under names without whitespace, is answered with `FsmNotFound` |
| Listener.EveryEntryIsSpelledOut | pkg/pubsub/listener.go:42-106 | for every entry: the outcome is written under the request's own configuration and event id, empty without an event, and carries the request's configuration and machine id; the event stored and the one processed are the request's field by field; each way to end has its own code and text |
| Listener.EntryIsAddressed | pkg/pubsub/listener.go:88-106 | the address of the outcome and of the event, for one entry |
| Listener.EntryIsWorded | pkg/pubsub/listener.go:46-84 | the code and the text, letter by letter, for one entry |
| Listener.NotifiedIffNotOk | pkg/pubsub/listener.go:29-40 | a response is notified if and only if it is that of some entry and not Ok |
| Listener.EventWithoutTransitionStopsTheListener | pkg/pubsub/listener.go:61-68 | for every such request at the head of the channel and any requests behind it, every command answered: the event is stored, no outcome is written, nothing is notified, no request is answered |
| Listener.OutcomesMatchCommits | pkg/pubsub/listener.go:63-84 | Ok if and only if storing the event and processing it both succeeded, and then the call committed exactly once; other results committed as `OneCommitPerCall` says |
| Listener.CommitsNeverExceedRequests | pkg/pubsub/listener.go:69-84 | the calls that committed are distinct, committed once each, and number at least the Oks and at most the requests taken |
| Queries.GetAllInState | pkg/grpc/grpc_server.go:224-237 | each member of the set once; the two missing arguments are refused; a failed lookup lists nothing |
| Queries.StreamAllInstate | pkg/grpc/grpc_server.go:254-274 | a missing configuration name and a missing state are told apart and send nothing; a set that cannot be read sends nothing and is no error; a stream that completes sends every member once with its record; any other error names its cause: a missing record or a lookup that broke, or the stream itself |
| Queries.StreamRefinesScan | pkg/grpc/grpc_server.go:254-274 | over exact sets a completed stream sends exactly what a full scan finds, once each, in the requested state, and no record is missing |
| Queries.StreamAllConfigurations | pkg/grpc/grpc_server.go:276-294 | a missing name sends nothing and is refused; a set that cannot be read sends nothing and is no error; a stream that completes sends the stored configuration of every listed version, and nothing else; a lookup error means a missing record or a lookup that broke |

## Left out

- The Redis client library: connections, TLS, cluster routing and its own retries. Its WATCH, EXEC and the three results of EXEC are the environment of the model.
- Protobuf and Base64 marshalling: the store holds typed records.
- The SQS subscriber and publisher: the channel is an arbitrary sequence of requests, repeats included.
- gRPC `Health`, deadlines, status codes, TLS setup, `SendEvent` and the calls that only read one record. A creating call that stops at its deadline is a process that takes no further step.
- The validity check in front of `PutConfiguration`: configurations are put unchecked, so every result holds for invalid ones too.
- Generated ids and timestamps: ids are given, and events have no timestamp.
- Times to live, log output, random backoff and clocks: a timeout is a choice of the environment.
- Startup, shutdown, the command line client, Docker and Helm files and the example programs.
- `UpdateState` called by outside callers: it is modelled inside the two calls of the server that use it.
- Client.RedisStore.Get: a GET that times out and is tried again changes nothing in Redis, so the concurrent system sees only the last one of the loop.
- IndexExactness.IndexIsExact: needs set-changing attempts to commit and machines to be created once; `Witnesses.SomeRunLeavesIndexWrong` shows that without this the sets can be wrong.
