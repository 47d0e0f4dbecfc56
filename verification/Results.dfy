/**
 What the result of a call says. Each result has one cause, a reply to a command of the call itself, and each cause has
 that result; so the result of a call that nobody disturbs follows from what is in the store.
 */
module Results {
  import opened Strings
  import opened Fsm
  import opened Keys
  import opened Redis
  import opened Server
  import opened Configs
  import opened Catalog
  import opened Undisturbed

  // ---------------------------------------------------------------- causes

  /** A lookup of `k` that is not answered, or meets another kind of value. */
  predicate Breaks(r: Redis<Key>, k: Key, d: Delivery, isRight: bool) {
    d.Lost? || (k in r.data && !isRight)
  }

  predicate FindsNothing(r: Redis<Key>, k: Key, d: Delivery) {
    d.Delivered? && k !in r.data
  }

  /** Why an event call ends with `result` at its next command, whose fate is `d`. */
  predicate EventCause(s: State<Key>, p: nat, d: Delivery, result: Result)
    requires Live(s, p) && s.procs[p].Tx?
  {
    var pc, cfg, id, r := s.procs[p].tx, s.procs[p].cfg, s.procs[p].id, s.store;
    var k := MachineKey(cfg, id);
    match result
    case Success => pc.Executing? && d.Delivered? && Ver(r, k) == pc.plan.ver
    case RetriesExceeded => pc.Executing? && d.Delivered? && Ver(r, k) != pc.plan.ver && pc.attempt >= 2
    case Refused =>
      && pc.ReadingConfig? && d.Delivered?
      && var c := ConfigAt(r, KeyForConfigId(pc.was.configId));
         c.Some? && SendEvent(c.value, pc.was, s.procs[p].evt).None?
    case MachineNotFound(broken) =>
      && pc.ReadingMachine?
      && if broken then Breaks(r, k, d, MachineAt(r, k).Some?) else FindsNothing(r, k, d)
    case ConfigNotFound(broken) =>
      && pc.ReadingConfig?
      && var i := KeyForConfigId(pc.was.configId);
         if broken then Breaks(r, i, d, ConfigAt(r, i).Some?) else FindsNothing(r, i, d)
    case StoreFailure =>
      || ((pc.Watching? || pc.Executing?) && d.Lost?)
      || (pc.Removing? && (d.Lost? || !HoldsSet(r, StateKey(cfg, pc.plan.was.state))))
      || (pc.Adding? && (d.Lost? || !HoldsSet(r, StateKey(cfg, pc.plan.next.state))))
    case AlreadyExists => false
  }

  /** Why a SET in `put` ends it with `result`, with `left` tries to go. */
  predicate PutCause(left: int, d: Delivery, result: Result) {
    match result
    case Success => d.Delivered?
    case RetriesExceeded => d.Lost? && d.timeout && left == 1
    case StoreFailure => d.Lost? && !d.timeout
    case _ => false
  }

  predicate CreateCause(s: State<Key>, p: nat, d: Delivery, result: Result)
    requires Live(s, p) && s.procs[p].Create?
  {
    var pc, i, r := s.procs[p].create, KeyForConfigId(s.procs[p].fsm.configId), s.store;
    match pc
    case LookingUp =>
      || (result == ConfigNotFound(true) && Breaks(r, i, d, ConfigAt(r, i).Some?))
      || (result == ConfigNotFound(false) && FindsNothing(r, i, d))
    case Storing(_, m, left) => PutCause(left, d, result) && (result == Success ==> m.state == "")
    case Indexing(name, m) =>
      result == if d.Delivered? && HoldsSet(r, StateKey(name, m.state)) then Success else StoreFailure
  }

  predicate ConfigCause(s: State<Key>, p: nat, d: Delivery, result: Result)
    requires Live(s, p) && s.procs[p].Configure?
  {
    match s.procs[p].conf
    case Checking =>
      result == AlreadyExists && d.Delivered? && KeyForConfigId(VersionId(s.procs[p].config)) in s.store.data
    case StoringConfig(left) => PutCause(left, d, result)
    case _ => false
  }

  predicate Cause(s: State<Key>, p: nat, d: Delivery, result: Result)
    requires Live(s, p)
  {
    match s.procs[p]
    case Tx(_, _, _, _) => EventCause(s, p, d, result)
    case Create(_, _, _) => CreateCause(s, p, d, result)
    case Configure(_, _) => ConfigCause(s, p, d, result)
    case Save(_, _, pc) => PutCause(pc.left, d, result)
  }

  // ---------------------------------------------------------------- ends

  /** Call `p` has ended with this result. */
  predicate Ended(s: State<Key>, p: nat, result: Result) {
    p in s.procs && IsDone(s.procs[p]) && ResultOf(s.procs[p]) == result
  }

  lemma EventCallEndsIff(s: State<Key>, p: nat, d: Delivery, result: Result)
    requires Live(s, p) && s.procs[p].Tx?
    ensures Ended(Step(s, Go(p, d)), p, result) <==> EventCause(s, p, d, result)
  {
  }

  lemma CreationEndsIff(s: State<Key>, p: nat, d: Delivery, result: Result)
    requires Live(s, p) && s.procs[p].Create?
    ensures Ended(Step(s, Go(p, d)), p, result) <==> CreateCause(s, p, d, result)
  {
  }

  lemma ConfigPutEndsIff(s: State<Key>, p: nat, d: Delivery, result: Result)
    requires Live(s, p) && s.procs[p].Configure?
    ensures Ended(Step(s, Go(p, d)), p, result) <==> ConfigCause(s, p, d, result)
  {
  }

  lemma SaveEndsIff(s: State<Key>, p: nat, d: Delivery, result: Result)
    requires Live(s, p) && s.procs[p].Save?
    ensures Ended(Step(s, Go(p, d)), p, result) <==> PutCause(s.procs[p].save.left, d, result)
  {
  }

  /** From any state, the next command of a call ends it with a result if and only if that result's cause is there. */
  lemma CallEndsIff(s: State<Key>, p: nat, d: Delivery, result: Result)
    requires Live(s, p)
    ensures Ended(Step(s, Go(p, d)), p, result) <==> Cause(s, p, d, result)
  {
    match s.procs[p]
    case Tx(_, _, _, _) => EventCallEndsIff(s, p, d, result);
    case Create(_, _, _) => CreationEndsIff(s, p, d, result);
    case Configure(_, _) => ConfigPutEndsIff(s, p, d, result);
    case Save(_, _, _) => SaveEndsIff(s, p, d, result);
  }

  /** Action `i` of the run is a command of `p` with the cause of `result`. */
  predicate CausedAt(n: int, trace: seq<Action>, i: nat, p: nat, result: Result)
    requires i < |trace|
  {
    var s := Run(n, trace[..i]);
    trace[i].Go? && trace[i].p == p && Live(s, p) && Cause(s, p, trace[i].d, result)
  }

  /** In every run, a call that has ended did so at one of its own commands, which had the cause of its result. */
  lemma {:induction false} EveryEndHasItsCause(n: int, trace: seq<Action>, p: nat, result: Result)
    requires Ended(Run(n, trace), p, result)
    ensures exists i: nat :: i < |trace| && CausedAt(n, trace, i, p, result)
  {
    var pre, a, last := Front(trace), Last(trace), |trace| - 1;
    var s := Run(n, pre);
    assert trace[..last] == pre;
    if Ended(s, p, result) {
      EveryEndHasItsCause(n, pre, p, result);
      var i: nat :| i < |pre| && CausedAt(n, pre, i, p, result);
      assert pre[..i] == trace[..i];
      assert CausedAt(n, trace, i, p, result);
    } else {
      EndsByOwnStep(s, a, p, result);
      CallEndsIff(s, p, a.d, result);
      assert CausedAt(n, trace, last, p, result);
    }
  }

  lemma EndsByOwnStep(s: State<Key>, a: Action, p: nat, result: Result)
    requires !Ended(s, p, result) && Ended(Step(s, a), p, result)
    ensures a.Go? && a.p == p && Live(s, p)
  {
  }

  /** Action `i` is a command of `p` that was not answered, or met a key of another kind. */
  predicate TroubleAt(n: int, trace: seq<Action>, i: nat, p: nat)
    requires i < |trace|
  {
    var s := Run(n, trace[..i]);
    && trace[i].Go? && trace[i].p == p && Live(s, p)
    && (trace[i].d.Lost? || MeetsOtherKind(s.store, NextCmd(s.procs[p])))
  }

  /** The command reads or changes a key that holds another kind of value. */
  predicate MeetsOtherKind(r: Redis<Key>, c: Cmd<Key>) {
    match c
    case Get(k) => k in r.data && (k.MachineKey? ==> !r.data[k].Machine?) && (!k.MachineKey? ==> !r.data[k].Config?)
    case SAdd(k, _) => !HoldsSet(r, k)
    case SRem(k, _) => !HoldsSet(r, k)
    case _ => false
  }

  /** A store failure or a broken lookup is never invented: some command of the call was in trouble. */
  lemma FailuresAreReal(n: int, trace: seq<Action>, p: nat, result: Result)
    requires Ended(Run(n, trace), p, result) && result in {StoreFailure, MachineNotFound(true), ConfigNotFound(true)}
    ensures exists i: nat :: i < |trace| && TroubleAt(n, trace, i, p)
  {
    EveryEndHasItsCause(n, trace, p, result);
    var i: nat :| i < |trace| && CausedAt(n, trace, i, p, result);
    CauseIsTrouble(Run(n, trace[..i]), p, trace[i].d, result);
    assert TroubleAt(n, trace, i, p);
  }

  lemma CauseIsTrouble(s: State<Key>, p: nat, d: Delivery, result: Result)
    requires Live(s, p) && Cause(s, p, d, result) &&
        result in {StoreFailure, MachineNotFound(true), ConfigNotFound(true)}
    ensures d.Lost? || MeetsOtherKind(s.store, NextCmd(s.procs[p]))
  {
    if s.procs[p].Tx? && s.procs[p].tx.ReadingConfig? {
      ConfigIdKey(s.procs[p].tx.was.configId);
    } else if s.procs[p].Create? {
      ConfigIdKey(s.procs[p].fsm.configId);
    }
  }

  // ---------------------------------------------------------------- calls that nobody disturbs

  /** An event for a machine that is not there: the call says so, and writes nothing. */
  lemma MissingMachineIsReported(s: State<Key>, p: nat, k: Key, evt: Event)
    requires WellTyped(s) && k.MachineKey? && p !in s.procs && MachineAt(s.store, k).None?
    ensures var s' := Perform(s, p, TxProcessEvent(k.id, k.cfg, evt), 2);
            s'.store == s.store && SameOthers(s, s', p) && Ended(s', p, MachineNotFound(false))
  {
    var s0 := Step(s, Begin(p, TxProcessEvent(k.id, k.cfg, evt)));
    DriveOnce(s0, p, 0);
    DriveOnce(s0, p, 1);
    var s1 := Drive(s0, p, 1);
    assert s1.store == s.store && s1.procs[p] == Tx(k.id, k.cfg, evt, ReadingMachine(0, Ver(s.store, k)));
  }

  /**
   An event for a machine whose configuration is not there: the call says so, and writes nothing. The lookup breaks
   only where the id names a set, having no `:`.
   */
  lemma MissingConfigurationIsReported(s: State<Key>, p: nat, k: Key, evt: Event, m: FiniteStateMachine)
    requires WellTyped(s) && k.MachineKey? && p !in s.procs && MachineAt(s.store, k) == Some(m)
    requires ConfigAt(s.store, KeyForConfigId(m.configId)).None?
    ensures var s' := Perform(s, p, TxProcessEvent(k.id, k.cfg, evt), 3);
            && s'.store == s.store && SameOthers(s, s', p)
            && Ended(s', p, ConfigNotFound(KeyForConfigId(m.configId) in s.store.data))
            && (':' in m.configId ==> Ended(s', p, ConfigNotFound(false)))
  {
    var s0 := Step(s, Begin(p, TxProcessEvent(k.id, k.cfg, evt)));
    DriveOnce(s0, p, 0);
    DriveOnce(s0, p, 1);
    DriveOnce(s0, p, 2);
    var s1, s2 := Drive(s0, p, 1), Drive(s0, p, 2);
    assert s1.store == s.store && s1.procs[p] == Tx(k.id, k.cfg, evt, ReadingMachine(0, Ver(s.store, k)));
    assert s2.store == s.store && s2.procs[p] == Tx(k.id, k.cfg, evt, ReadingConfig(0, Ver(s.store, k), m));
    ConfigIdKey(m.configId);
  }

  /** An event that no transition of the configuration takes from the machine's state: refused, and nothing written. */
  lemma RefusalIsReported(s: State<Key>, p: nat, k: Key, evt: Event, m: FiniteStateMachine, c: Configuration)
    requires WellTyped(s) && k.MachineKey? && p !in s.procs && Finds(s, k, m, c, Ver(s.store, k))
    requires forall t :: t in c.transitions ==> t.from != m.state || t.event != evt.transition.event
    ensures var s' := Perform(s, p, TxProcessEvent(k.id, k.cfg, evt), 3);
            s'.store == s.store && SameOthers(s, s', p) && Ended(s', p, Refused)
  {
    SendEventMeaning(c, m, evt);
    CallStands(s, p, k, evt, Plan(Ver(s.store, k), m, c, m));
    ReadsUpToRemoval(Step(s, Begin(p, TxProcessEvent(k.id, k.cfg, evt))), p, k, evt, m, c, 0);
  }

  /** Creating a machine whose configuration is not there: the call says so, and writes nothing. */
  lemma CreationWithoutConfiguration(s: State<Key>, p: nat, id: string, fsm: FiniteStateMachine)
    requires WellTyped(s) && p !in s.procs && ConfigAt(s.store, KeyForConfigId(fsm.configId)).None?
    ensures var s' := Perform(s, p, PutFiniteStateMachine(id, fsm), 1);
            && s'.store == s.store && SameOthers(s, s', p)
            && Ended(s', p, ConfigNotFound(KeyForConfigId(fsm.configId) in s.store.data))
  {
    DriveOnce(Step(s, Begin(p, PutFiniteStateMachine(id, fsm))), p, 0);
    ConfigIdKey(fsm.configId);
  }

  /** Putting a configuration whose id is stored: refused, and nothing written. */
  lemma StoredConfigurationIsRefused(s: State<Key>, p: nat, c: Configuration)
    requires p !in s.procs && ConfigAt(s.store, KeyForConfigId(VersionId(c))).Some?
    ensures var s' := Perform(s, p, PutConfig(c), 1);
            s'.store == s.store && SameOthers(s, s', p) && Ended(s', p, AlreadyExists)
  {
    DriveOnce(Step(s, Begin(p, PutConfig(c))), p, 0);
  }

  /** Putting a configuration whose id is not stored: it is stored and in both listings. */
  lemma NewConfigurationIsStored(s: State<Key>, p: nat, c: Configuration)
    requires WellTyped(s) && p !in s.procs && ConfigAt(s.store, KeyForConfigId(VersionId(c))).None?
    ensures var s' := Perform(s, p, PutConfig(c), 4);
            && SameOthers(s, s', p) && Ended(s', p, Success)
            && ConfigAt(s'.store, KeyForConfigId(VersionId(c))) == Some(c)
            && c.name in MembersOf(s'.store, NamesKey) && VersionId(c) in MembersOf(s'.store, VersionsKey(c.name))
  {
    var s0 := Step(s, Begin(p, PutConfig(c)));
    ConfigIdKey(VersionId(c));
    assert VersionId(c)[|c.name|] == ':';
    WellTypedStep(s, Begin(p, PutConfig(c)));
    DriveOnce(s0, p, 0);
    var s1 := Drive(s0, p, 1);
    assert s1.store == s.store && s1.procs[p] == Configure(c, AddingName) && SameOthers(s, s1, p);
    WellTypedStep(s0, Go(p, Delivered));
    ListsName(s1, p, c);
    DriveOnce(s0, p, 1);
    ListsVersion(Drive(s0, p, 2), p, c);
    DriveOnce(s0, p, 2);
    StoresConfiguration(Drive(s0, p, 3), p, c);
    DriveOnce(s0, p, 3);
  }

  lemma ListsName(s: State<Key>, p: nat, c: Configuration)
    requires WellTyped(s) && p in s.procs && s.procs[p] == Configure(c, AddingName)
    ensures var s' := Step(s, Go(p, Delivered));
            && WellTyped(s') && SameOthers(s, s', p) && s'.procs[p] == Configure(c, AddingVersion)
            && c.name in MembersOf(s'.store, NamesKey)
  {
    WellTypedStep(s, Go(p, Delivered));
    SetChange(s, Go(p, Delivered), NamesKey);
  }

  lemma ListsVersion(s: State<Key>, p: nat, c: Configuration)
    requires WellTyped(s) && p in s.procs && s.procs[p] == Configure(c, AddingVersion)
    ensures var s' := Step(s, Go(p, Delivered));
            && WellTyped(s') && SameOthers(s, s', p) && s'.procs[p] == Configure(c, StoringConfig(s.maxRetries))
            && VersionId(c) in MembersOf(s'.store, VersionsKey(c.name))
            && MembersOf(s'.store, NamesKey) == MembersOf(s.store, NamesKey)
  {
    WellTypedStep(s, Go(p, Delivered));
    SetChange(s, Go(p, Delivered), NamesKey);
    SetChange(s, Go(p, Delivered), VersionsKey(c.name));
  }

  lemma StoresConfiguration(s: State<Key>, p: nat, c: Configuration)
    requires WellTyped(s) && p in s.procs && s.procs[p].Configure? && s.procs[p].config == c
    requires s.procs[p].conf.StoringConfig?
    ensures var s' := Step(s, Go(p, Delivered));
            && SameOthers(s, s', p) && Ended(s', p, Success)
            && ConfigAt(s'.store, KeyForConfigId(VersionId(c))) == Some(c)
            && MembersOf(s'.store, NamesKey) == MembersOf(s.store, NamesKey)
            && MembersOf(s'.store, VersionsKey(c.name)) == MembersOf(s.store, VersionsKey(c.name))
  {
    SetChange(s, Go(p, Delivered), NamesKey);
    SetChange(s, Go(p, Delivered), VersionsKey(c.name));
  }

  /** The calls that only put: the value is stored under its own key, and nothing else changes. */
  lemma UndisturbedSave(s: State<Key>, p: nat, call: Call)
    requires p !in s.procs && (call.PutStateMachine? || call.PutEvent? || call.AddEventOutcome?)
    ensures var s' := Perform(s, p, call, 1);
            && SameOthers(s, s', p) && Ended(s', p, Success)
            && s'.store.data == match call
                 case PutStateMachine(id, fsm) => s.store.data[MachineKey(NameOf(fsm.configId), id) := Machine(fsm)]
                 case PutEvent(cfg, evt) => s.store.data[EventKey(cfg, evt.id) := Stored(evt)]
                 case AddEventOutcome(cfg, id, outcome) => s.store.data[OutcomeKey(cfg, id) := Outcome(outcome)]
                 case _ => s.store.data
  {
    DriveOnce(Step(s, Begin(p, call)), p, 0);
  }

  // ---------------------------------------------------------------- what is created, in any run

  /** At an instant when `p` was in progress, configuration `c` was stored under this id. */
  ghost predicate FoundDuring(n: int, trace: seq<Action>, p: nat, configId: string, c: Configuration) {
    exists j: nat :: j <= |trace| && Live(Run(n, trace[..j]), p)
      && ConfigAt(Run(n, trace[..j]).store, KeyForConfigId(configId)) == Some(c)
  }

  /** The record is the one asked for, with the starting state of `c` only if no state was asked for. */
  predicate AsAsked(fsm: FiniteStateMachine, c: Configuration, m: FiniteStateMachine) {
    && m.configId == fsm.configId && m.history == fsm.history
    && m.state == if fsm.state != "" then fsm.state else c.startingState
  }

  lemma FoundDuringGrows(n: int, trace: seq<Action>, p: nat, configId: string, c: Configuration)
    requires trace != [] && FoundDuring(n, Front(trace), p, configId, c)
    ensures FoundDuring(n, trace, p, configId, c)
  {
    var pre := Front(trace);
    var j: nat :| j <= |pre| && Live(Run(n, pre[..j]), p)
      && ConfigAt(Run(n, pre[..j]).store, KeyForConfigId(configId)) == Some(c);
    assert pre[..j] == trace[..j];
  }

  /** In every run, whatever a creating call stores and indexes is the record asked for. */
  lemma {:induction false} CreatedAsAsked(n: int, trace: seq<Action>, p: nat)
    requires p in Run(n, trace).procs && Run(n, trace).procs[p].Create?
    requires Run(n, trace).procs[p].create.Storing? || Run(n, trace).procs[p].create.Indexing?
    ensures var proc := Run(n, trace).procs[p];
            exists c :: FoundDuring(n, trace, p, proc.fsm.configId, c) && proc.create.name == c.name
              && AsAsked(proc.fsm, c, proc.create.machine)
  {
    var pre, s := Front(trace), Run(n, Front(trace));
    var proc := Run(n, trace).procs[p];
    CreateMoves(s, Last(trace), p);
    if s.procs[p].create.LookingUp? {
      var c := ConfigAt(s.store, KeyForConfigId(proc.fsm.configId)).value;
      LookupIsAsAsked(s, Last(trace), p);
      assert pre[..|pre|] == pre;
      assert FoundDuring(n, pre, p, proc.fsm.configId, c);
      FoundDuringGrows(n, trace, p, proc.fsm.configId, c);
    } else {
      CreatedAsAsked(n, pre, p);
      var c :| FoundDuring(n, pre, p, proc.fsm.configId, c) && proc.create.name == c.name
        && AsAsked(proc.fsm, c, proc.create.machine);
      FoundDuringGrows(n, trace, p, proc.fsm.configId, c);
    }
  }

  lemma LookupIsAsAsked(s: State<Key>, a: Action, p: nat)
    requires p in s.procs && s.procs[p].Create? && s.procs[p].create.LookingUp?
    requires Step(s, a).procs[p].Create? && Step(s, a).procs[p].create.Storing?
    ensures var c := ConfigAt(s.store, KeyForConfigId(s.procs[p].fsm.configId));
            && Live(s, p) && c.Some? && Step(s, a).procs[p].create.name == c.value.name
            && AsAsked(s.procs[p].fsm, c.value, Step(s, a).procs[p].create.machine)
  {
  }
}
