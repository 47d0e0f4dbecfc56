/**
 The server as a concurrent system. Every call of the API is a process that issues one Redis
 command at a time; any number of processes interleave, and every command may be delivered, lost
 before it is executed, or executed with its reply lost. A run is any sequence of actions.
 */
module Server {
  import opened Strings
  import opened Fsm
  import opened Keys
  import opened Redis

  datatype Call =
    | TxProcessEvent(id: string, cfg: string, evt: Event)
    | PutFiniteStateMachine(id: string, fsm: FiniteStateMachine)
    | PutConfig(config: Configuration)
    | PutStateMachine(id: string, fsm: FiniteStateMachine)
    | PutEvent(cfg: string, event: EventRecord)
    | AddEventOutcome(cfg: string, eventId: string, outcome: EventOutcome)

  /** How a call ends. `lookupFailed` tells a lookup that broke from one that found nothing. */
  datatype Result =
    | Success
    | MachineNotFound(lookupFailed: bool)
    | ConfigNotFound(lookupFailed: bool)
    | Refused
    | RetriesExceeded
    | StoreFailure
    | AlreadyExists

  /** What an attempt computed: the watched version, the machine it read and the one it will write. */
  datatype Plan = Plan(ver: nat, was: FiniteStateMachine, cfg: Configuration, next: FiniteStateMachine)

  datatype TxPc =
    | Watching(attempt: nat)
    | ReadingMachine(attempt: nat, ver: nat)
    | ReadingConfig(attempt: nat, ver: nat, was: FiniteStateMachine)
    | Removing(attempt: nat, plan: Plan)
    | Adding(attempt: nat, plan: Plan)
    | Executing(attempt: nat, plan: Plan)
    | TxDone(result: Result)

  datatype CreatePc =
    | LookingUp
    | Storing(name: string, machine: FiniteStateMachine, left: int)
    | Indexing(name: string, machine: FiniteStateMachine)
    | CreateDone(result: Result)

  datatype ConfigPc =
    | Checking
    | AddingName
    | AddingVersion
    | StoringConfig(left: int)
    | ConfigDone(result: Result)

  datatype SavePc = Saving(left: int) | SaveDone(result: Result)

  datatype Proc =
    | Tx(id: string, cfg: string, evt: Event, tx: TxPc)
    | Create(id: string, fsm: FiniteStateMachine, create: CreatePc)
    | Configure(config: Configuration, conf: ConfigPc)
    | Save(k: Key, v: Value, save: SavePc)

  /** DefaultMaxRetries: the attempts `TxProcessEvent` makes. */
  const TX_ATTEMPTS: nat := 3

  function Start(maxRetries: int, call: Call): Proc {
    match call
    case TxProcessEvent(id, cfg, evt) => Tx(id, cfg, evt, Watching(0))
    case PutFiniteStateMachine(id, fsm) => Create(id, fsm, LookingUp)
    case PutConfig(c) => Configure(c, Checking)
    case PutStateMachine(id, fsm) => Save(MachineKey(NameOf(fsm.configId), id), Machine(fsm), Saving(maxRetries))
    case PutEvent(cfg, evt) => Save(EventKey(cfg, evt.id), Stored(evt), Saving(maxRetries))
    case AddEventOutcome(cfg, id, o) => Save(OutcomeKey(cfg, id), Outcome(o), Saving(maxRetries))
  }

  predicate IsDone(proc: Proc) {
    match proc
    case Tx(_, _, _, pc) => pc.TxDone?
    case Create(_, _, pc) => pc.CreateDone?
    case Configure(_, pc) => pc.ConfigDone?
    case Save(_, _, pc) => pc.SaveDone?
  }

  function ResultOf(proc: Proc): Result
    requires IsDone(proc)
  {
    match proc
    case Tx(_, _, _, pc) => pc.result
    case Create(_, _, pc) => pc.result
    case Configure(_, pc) => pc.result
    case Save(_, _, pc) => pc.result
  }

  function ConfigurationKey(c: Configuration): Key {
    KeyForConfigId(VersionId(c))
  }

  /** The machine that a creating call writes to. */
  function CreatedKey(id: string, fsm: FiniteStateMachine): Key {
    MachineKey(NameOf(fsm.configId), id)
  }

  function NextCmd(proc: Proc): Cmd<Key>
    requires !IsDone(proc)
  {
    match proc
    case Tx(id, cfg, _, pc) => (
      match pc
      case Watching(_) => Watch(MachineKey(cfg, id))
      case ReadingMachine(_, _) => Get(MachineKey(cfg, id))
      case ReadingConfig(_, _, was) => Get(KeyForConfigId(was.configId))
      case Removing(_, plan) => SRem(StateKey(cfg, plan.was.state), id)
      case Adding(_, plan) => SAdd(StateKey(cfg, plan.next.state), id)
      case Executing(_, plan) => Exec(MachineKey(cfg, id), plan.ver, Machine(plan.next)))
    case Create(id, fsm, pc) => (
      match pc
      case LookingUp => Get(KeyForConfigId(fsm.configId))
      case Storing(_, m, _) => Set(CreatedKey(id, fsm), Machine(m))
      case Indexing(name, m) => SAdd(StateKey(name, m.state), id))
    case Configure(c, pc) => (
      match pc
      case Checking => Exists(ConfigurationKey(c))
      case AddingName => SAdd(NamesKey, c.name)
      case AddingVersion => SAdd(VersionsKey(c.name), VersionId(c))
      case StoringConfig(_) => Set(ConfigurationKey(c), Config(c)))
    case Save(k, v, _) => Set(k, v)
  }

  // ---------------------------------------------------------------- control flow of each call

  /** One turn of the loop in `put`. */
  datatype PutStep = PutOk | PutAgain(left: int) | PutFailed(result: Result)

  function AfterSet(left: int, r: Reply): PutStep {
    if r.Done? then PutOk
    else if r.Failed? && r.timeout then
      if left - 1 == 0 then PutFailed(RetriesExceeded) else PutAgain(left - 1)
    else PutFailed(StoreFailure)
  }

  /** `UpdateState` skips the removal for an empty old state and the addition for an empty new one. */
  function BeforeRemoval(attempt: nat, plan: Plan): TxPc {
    if plan.was.state != "" then Removing(attempt, plan) else BeforeAddition(attempt, plan)
  }

  function BeforeAddition(attempt: nat, plan: Plan): TxPc {
    if plan.next.state != "" then Adding(attempt, plan) else Executing(attempt, plan)
  }

  function AdvanceTx(pc: TxPc, evt: Event, r: Reply): TxPc
    requires !pc.TxDone?
  {
    match pc
    case Watching(i) => if r.Number? then ReadingMachine(i, r.n) else TxDone(StoreFailure)
    case ReadingMachine(i, ver) =>
      if r.Found? && r.value.Machine? then ReadingConfig(i, ver, r.value.fsm)
      else TxDone(MachineNotFound(!r.Nil?))
    case ReadingConfig(i, ver, was) =>
      if r.Found? && r.value.Config? then
        match SendEvent(r.value.cfg, was, evt)
        case None => TxDone(Refused)
        case Some(next) => BeforeRemoval(i, Plan(ver, was, r.value.cfg, next))
      else TxDone(ConfigNotFound(!r.Nil?))
    case Removing(i, plan) => if r.Done? then BeforeAddition(i, plan) else TxDone(StoreFailure)
    case Adding(i, plan) => if r.Done? then Executing(i, plan) else TxDone(StoreFailure)
    case Executing(i, plan) =>
      if r.Committed? then TxDone(Success)
      else if r.Aborted? then if i + 1 < TX_ATTEMPTS then Watching(i + 1) else TxDone(RetriesExceeded)
      else TxDone(StoreFailure)
  }

  /** Where an event call goes when the EXEC of attempt `i` aborts. */
  function AfterAbort(i: nat): TxPc {
    if i + 1 < TX_ATTEMPTS then Watching(i + 1) else TxDone(RetriesExceeded)
  }

  function Defaulted(fsm: FiniteStateMachine, c: Configuration): FiniteStateMachine {
    if fsm.state == "" then fsm.(state := c.startingState) else fsm
  }

  function AdvanceCreate(pc: CreatePc, fsm: FiniteStateMachine, maxRetries: int, r: Reply): CreatePc
    requires !pc.CreateDone?
  {
    match pc
    case LookingUp =>
      if r.Found? && r.value.Config? then Storing(r.value.cfg.name, Defaulted(fsm, r.value.cfg), maxRetries)
      else CreateDone(ConfigNotFound(!r.Nil?))
    case Storing(name, m, left) => (
      match AfterSet(left, r)
      case PutOk => if m.state != "" then Indexing(name, m) else CreateDone(Success)
      case PutAgain(left') => Storing(name, m, left')
      case PutFailed(e) => CreateDone(e))
    case Indexing(_, _) => CreateDone(if r.Done? then Success else StoreFailure)
  }

  /** An EXISTS that fails reads as zero, and the replies to the two set additions are ignored. */
  function AdvanceConfig(pc: ConfigPc, maxRetries: int, r: Reply): ConfigPc
    requires !pc.ConfigDone?
  {
    match pc
    case Checking => if r == Number(1) then ConfigDone(AlreadyExists) else AddingName
    case AddingName => AddingVersion
    case AddingVersion => StoringConfig(maxRetries)
    case StoringConfig(left) =>
      match AfterSet(left, r)
      case PutOk => ConfigDone(Success)
      case PutAgain(left') => StoringConfig(left')
      case PutFailed(e) => ConfigDone(e)
  }

  function AdvanceSave(left: int, r: Reply): SavePc {
    match AfterSet(left, r)
    case PutOk => SaveDone(Success)
    case PutAgain(left') => Saving(left')
    case PutFailed(e) => SaveDone(e)
  }

  function Advance(maxRetries: int, proc: Proc, r: Reply): Proc
    requires !IsDone(proc)
  {
    match proc
    case Tx(_, _, evt, pc) => proc.(tx := AdvanceTx(pc, evt, r))
    case Create(_, fsm, pc) => proc.(create := AdvanceCreate(pc, fsm, maxRetries, r))
    case Configure(_, pc) => proc.(conf := AdvanceConfig(pc, maxRetries, r))
    case Save(_, _, pc) => proc.(save := AdvanceSave(pc.left, r))
  }

  // ---------------------------------------------------------------- the system

  datatype Delivery = Delivered | Lost(executed: bool, timeout: bool)

  predicate Executed(d: Delivery) {
    d.Delivered? || d.executed
  }

  function Seen<K>(r: Redis<K>, c: Cmd<K>, d: Delivery): Reply {
    if d.Delivered? then Answer(r, c) else Failed(d.timeout)
  }

  datatype State<K> = State(maxRetries: int, store: Redis<K>, procs: map<nat, Proc>)

  datatype Action = Begin(p: nat, call: Call) | Go(p: nat, d: Delivery)

  function Init<K>(maxRetries: int): State<K> {
    State(maxRetries, Redis(map[], map[]), map[])
  }

  /** The process can take its next step. */
  predicate Live<K>(s: State<K>, p: nat) {
    p in s.procs && !IsDone(s.procs[p])
  }

  function Step(s: State<Key>, a: Action): State<Key> {
    match a
    case Begin(p, call) =>
      if p in s.procs then s else s.(procs := s.procs[p := Start(s.maxRetries, call)])
    case Go(p, d) =>
      if !Live(s, p) then s else
        var c := NextCmd(s.procs[p]);
        State(s.maxRetries,
              if Executed(d) then Effect(s.store, c) else s.store,
              s.procs[p := Advance(s.maxRetries, s.procs[p], Seen(s.store, c, d))])
  }

  function Run(maxRetries: int, trace: seq<Action>): State<Key> {
    if trace == [] then Init(maxRetries) else Step(Run(maxRetries, Front(trace)), Last(trace))
  }

  function Front(trace: seq<Action>): seq<Action>
    requires trace != []
  {
    trace[..|trace| - 1]
  }

  function Last(trace: seq<Action>): Action
    requires trace != []
  {
    trace[|trace| - 1]
  }

  // ---------------------------------------------------------------- what a run wrote

  datatype Write =
    | MachinePut(p: nat, k: Key, fsm: FiniteStateMachine)
    | MachineSend(p: nat, k: Key, cfg: Configuration, evt: Event)
    | ConfigPut(p: nat, k: Key, cfg: Configuration)

  /** The write to a machine or a configuration that takes effect in one step. */
  function Emit(s: State<Key>, a: Action): seq<Write> {
    if a.Begin? || !Live(s, a.p) || !Executed(a.d) then [] else
      match NextCmd(s.procs[a.p])
      case Set(k, Machine(fsm)) => [MachinePut(a.p, k, fsm)]
      case Set(k, Config(c)) => [ConfigPut(a.p, k, c)]
      case Exec(k, ver, _) =>
        if Ver(s.store, k) == ver
        then [MachineSend(a.p, k, s.procs[a.p].tx.plan.cfg, s.procs[a.p].evt)] else []
      case _ => []
  }

  function LogOf(maxRetries: int, trace: seq<Action>): seq<Write> {
    if trace == [] then [] else LogOf(maxRetries, Front(trace)) + Emit(Run(maxRetries, Front(trace)), Last(trace))
  }

  // ---------------------------------------------------------------- types in the store

  /** Each key family holds its own kind of value. */
  predicate Typed(k: Key, v: Value) {
    match k
    case MachineKey(_, _) => v.Machine?
    case StateKey(_, _) => v.Members?
    case EventKey(_, _) => v.Stored?
    case OutcomeKey(_, _) => v.Outcome?
    case ConfigKey(_, _) => v.Config?
    case VersionsKey(_) => v.Members?
    case NamesKey => v.Members?
  }

  predicate SavesTyped(proc: Proc) {
    proc.Save? ==> Typed(proc.k, proc.v) && !proc.v.Members? && !proc.v.Config?
  }

  ghost predicate WellTyped(s: State<Key>) {
    && (forall k :: k in s.store.data ==> Typed(k, s.store.data[k]))
    && (forall p :: p in s.procs ==> SavesTyped(s.procs[p]))
  }

  lemma SetsAreTyped(proc: Proc)
    requires !IsDone(proc) && SavesTyped(proc) && NextCmd(proc).Set?
    ensures Typed(NextCmd(proc).k, NextCmd(proc).v) && !NextCmd(proc).v.Members?
  {
    if proc.Configure? {
      ConfigIdKey(VersionId(proc.config));
      assert VersionId(proc.config)[|proc.config.name|] == ':';
    }
  }

  lemma WellTypedStep(s: State<Key>, a: Action)
    requires WellTyped(s)
    ensures WellTyped(Step(s, a))
  {
    var s' := Step(s, a);
    if a.Go? && Live(s, a.p) && Executed(a.d) {
      var c := NextCmd(s.procs[a.p]);
      if c.Set? {
        SetsAreTyped(s.procs[a.p]);
      }
      forall k | k in s'.store.data ensures Typed(k, s'.store.data[k]) {
        CounterDetectsChange(s.store, c, k);
      }
    }
  }

  lemma {:induction false} RunsAreWellTyped(maxRetries: int, trace: seq<Action>)
    ensures WellTyped(Run(maxRetries, trace))
  {
    if trace != [] {
      RunsAreWellTyped(maxRetries, Front(trace));
      WellTypedStep(Run(maxRetries, Front(trace)), Last(trace));
    }
  }

  // ---------------------------------------------------------------- what one step can change

  /** The step executes the next command of its process. */
  predicate Runs(s: State<Key>, a: Action) {
    a.Go? && Live(s, a.p) && Executed(a.d)
  }

  /** A configuration record changes only when a `PutConfig` stores its own. */
  lemma ConfigChange(s: State<Key>, a: Action, k: Key)
    requires WellTyped(s)
    ensures ConfigAt(Step(s, a).store, k) == ConfigAt(s.store, k)
         || (&& Runs(s, a) && s.procs[a.p].Configure? && s.procs[a.p].conf.StoringConfig?
             && k == ConfigurationKey(s.procs[a.p].config)
             && ConfigAt(Step(s, a).store, k) == Some(s.procs[a.p].config))
  {
    if Runs(s, a) && NextCmd(s.procs[a.p]).Set? {
      SetsAreTyped(s.procs[a.p]);
    }
  }

  /** A machine record changes only by a SET of that machine or by an EXEC that commits. */
  lemma MachineChange(s: State<Key>, a: Action, k: Key)
    requires WellTyped(s)
    ensures MachineAt(Step(s, a).store, k) == MachineAt(s.store, k)
         || (&& Runs(s, a) && k.MachineKey?
             && var c := NextCmd(s.procs[a.p]);
                && (c.Set? || (c.Exec? && Ver(s.store, k) == c.ver))
                && c.k == k && c.v.Machine? && MachineAt(Step(s, a).store, k) == Some(c.v.fsm))
  {
    if Runs(s, a) && NextCmd(s.procs[a.p]).Set? {
      SetsAreTyped(s.procs[a.p]);
    }
  }

  /** A set changes only by an addition to it or a removal from it. */
  lemma SetChange(s: State<Key>, a: Action, k: Key)
    requires WellTyped(s) && (k.StateKey? || k.VersionsKey? || k.NamesKey?)
    ensures MembersOf(Step(s, a).store, k)
         == if Runs(s, a) && NextCmd(s.procs[a.p]).k == k && NextCmd(s.procs[a.p]).SAdd?
            then MembersOf(s.store, k) + {NextCmd(s.procs[a.p]).m}
            else if Runs(s, a) && NextCmd(s.procs[a.p]).k == k && NextCmd(s.procs[a.p]).SRem?
            then MembersOf(s.store, k) - {NextCmd(s.procs[a.p]).m}
            else MembersOf(s.store, k)
    ensures HoldsSet(s.store, k)
  {
    if Runs(s, a) && NextCmd(s.procs[a.p]).Set? {
      SetsAreTyped(s.procs[a.p]);
    }
  }
}
