/**
 `TxProcessEvent` promises that there are no races when updating a machine. Whatever interleaves,
 the store holds what an atomic machine holds after the same writes, each commit being one
 `SendEvent` on the record stored at that instant; no update is lost; every rejection was true.
 */
module Atomicity {
  import opened Strings
  import opened Fsm
  import opened Keys
  import opened Redis
  import opened Server

  // ---------------------------------------------------------------- optimistic locking

  predicate HasPlan(pc: TxPc) {
    pc.Removing? || pc.Adding? || pc.Executing?
  }

  function MachineOf(proc: Proc): Key
    requires proc.Tx?
  {
    MachineKey(proc.cfg, proc.id)
  }

  /** What an attempt knows: while the watched version stands, the machine is still the one it read. */
  ghost predicate AttemptOk(r: Redis<Key>, k: Key, evt: Event, pc: TxPc) {
    && (pc.ReadingMachine? ==> pc.ver <= Ver(r, k))
    && (pc.ReadingConfig? ==> pc.ver <= Ver(r, k) && (pc.ver == Ver(r, k) ==> MachineAt(r, k) == Some(pc.was)))
    && (HasPlan(pc) ==>
          && pc.plan.ver <= Ver(r, k)
          && (pc.plan.ver == Ver(r, k) ==> MachineAt(r, k) == Some(pc.plan.was))
          && SendEvent(pc.plan.cfg, pc.plan.was, evt) == Some(pc.plan.next)
          && (pc.Removing? ==> pc.plan.was.state != "")
          && (pc.Adding? ==> pc.plan.next.state != ""))
  }

  ghost predicate Locked(s: State<Key>) {
    forall p :: p in s.procs && s.procs[p].Tx? ==>
      AttemptOk(s.store, MachineOf(s.procs[p]), s.procs[p].evt, s.procs[p].tx)
  }

  lemma AttemptSurvives(r: Redis<Key>, c: Cmd<Key>, k: Key, evt: Event, pc: TxPc)
    requires AttemptOk(r, k, evt, pc)
    ensures AttemptOk(Effect(r, c), k, evt, pc)
  {
    CounterDetectsChange(r, c, k);
  }

  lemma AttemptAdvances(r: Redis<Key>, proc: Proc, d: Delivery)
    requires proc.Tx? && !IsDone(proc) && AttemptOk(r, MachineOf(proc), proc.evt, proc.tx)
    ensures AttemptOk(r, MachineOf(proc), proc.evt, AdvanceTx(proc.tx, proc.evt, Seen(r, NextCmd(proc), d)))
  {
  }

  lemma LockedStep(s: State<Key>, a: Action)
    requires Locked(s)
    ensures Locked(Step(s, a))
  {
    var s' := Step(s, a);
    forall p | p in s'.procs && s'.procs[p].Tx?
      ensures AttemptOk(s'.store, MachineOf(s'.procs[p]), s'.procs[p].evt, s'.procs[p].tx)
    {
      if a.Go? && Live(s, a.p) {
        var q := s'.procs[p];
        if p == a.p {
          AttemptAdvances(s.store, s.procs[p], a.d);
        }
        assert AttemptOk(s.store, MachineOf(q), q.evt, q.tx);
        AttemptSurvives(s.store, NextCmd(s.procs[a.p]), MachineOf(q), q.evt, q.tx);
      }
    }
  }

  lemma {:induction false} RunsAreLocked(n: int, trace: seq<Action>)
    ensures Locked(Run(n, trace))
  {
    if trace != [] {
      RunsAreLocked(n, Front(trace));
      LockedStep(Run(n, Front(trace)), Last(trace));
    }
  }

  // ---------------------------------------------------------------- the atomic machine

  datatype Spec = Spec(machines: map<Key, FiniteStateMachine>, configs: map<Key, Configuration>)

  /** One write, done atomically. */
  function AtomicStep(a: Spec, w: Write): Spec {
    match w
    case MachinePut(_, k, fsm) => a.(machines := a.machines[k := fsm])
    case ConfigPut(_, k, c) => a.(configs := a.configs[k := c])
    case MachineSend(_, k, c, evt) =>
      if k in a.machines && SendEvent(c, a.machines[k], evt).Some?
      then a.(machines := a.machines[k := SendEvent(c, a.machines[k], evt).value]) else a
  }

  function Replay(log: seq<Write>): Spec {
    if log == [] then Spec(map[], map[]) else AtomicStep(Replay(log[..|log| - 1]), log[|log| - 1])
  }

  predicate WasStored(log: seq<Write>, k: Key, c: Configuration) {
    exists i :: 0 <= i < |log| && log[i].ConfigPut? && log[i].k == k && log[i].cfg == c
  }

  /** A commit is allowed where the machine exists, and accepts the event under a configuration stored for it. */
  predicate Allowed(log: seq<Write>, w: Write) {
    w.MachineSend? ==>
      && w.k in Replay(log).machines
      && SendEvent(w.cfg, Replay(log).machines[w.k], w.evt).Some?
      && WasStored(log, KeyForConfigId(Replay(log).machines[w.k].configId), w.cfg)
  }

  ghost predicate Legal(log: seq<Write>) {
    forall i :: 0 <= i < |log| ==> Allowed(log[..i], log[i])
  }

  /** What the store says about machines and configurations. */
  function View(r: Redis<Key>): Spec {
    Spec(map k | k in r.data && r.data[k].Machine? :: r.data[k].fsm,
         map k | k in r.data && r.data[k].Config? :: r.data[k].cfg)
  }

  ghost predicate ConfigsLogged(s: State<Key>, log: seq<Write>) {
    && (forall k :: ConfigAt(s.store, k).Some? ==> WasStored(log, k, ConfigAt(s.store, k).value))
    && (forall p :: p in s.procs && s.procs[p].Tx? && HasPlan(s.procs[p].tx) ==>
          WasStored(log, KeyForConfigId(s.procs[p].tx.plan.was.configId), s.procs[p].tx.plan.cfg))
  }

  lemma WasStoredGrows(log: seq<Write>, more: seq<Write>, k: Key, c: Configuration)
    requires WasStored(log, k, c)
    ensures WasStored(log + more, k, c)
  {
    var i :| 0 <= i < |log| && log[i].ConfigPut? && log[i].k == k && log[i].cfg == c;
    assert (log + more)[i] == log[i];
  }

  lemma StoredConfigIsLogged(s: State<Key>, a: Action, log: seq<Write>, k: Key)
    requires ConfigsLogged(s, log) && ConfigAt(Step(s, a).store, k).Some?
    ensures WasStored(log + Emit(s, a), k, ConfigAt(Step(s, a).store, k).value)
  {
    if ConfigAt(Step(s, a).store, k) == ConfigAt(s.store, k) {
      WasStoredGrows(log, Emit(s, a), k, ConfigAt(s.store, k).value);
    } else {
      assert (log + Emit(s, a))[|log|] == Emit(s, a)[0];
    }
  }

  lemma PlannedConfigIsLogged(s: State<Key>, a: Action, log: seq<Write>, p: nat)
    requires ConfigsLogged(s, log) && p in Step(s, a).procs && Step(s, a).procs[p].Tx? &&
        HasPlan(Step(s, a).procs[p].tx)
    ensures var plan := Step(s, a).procs[p].tx.plan;
        WasStored(log + Emit(s, a), KeyForConfigId(plan.was.configId), plan.cfg)
  {
    var plan := Step(s, a).procs[p].tx.plan;
    var k := KeyForConfigId(plan.was.configId);
    if s.procs[p].tx.ReadingConfig? {
      assert ConfigAt(s.store, k) == Some(plan.cfg);
    }
    assert WasStored(log, k, plan.cfg);
    WasStoredGrows(log, Emit(s, a), k, plan.cfg);
  }

  lemma ConfigsLoggedStep(s: State<Key>, a: Action, log: seq<Write>)
    requires ConfigsLogged(s, log)
    ensures ConfigsLogged(Step(s, a), log + Emit(s, a))
  {
    var s' := Step(s, a);
    forall k | ConfigAt(s'.store, k).Some? ensures WasStored(log + Emit(s, a), k, ConfigAt(s'.store, k).value) {
      StoredConfigIsLogged(s, a, log, k);
    }
    forall p | p in s'.procs && s'.procs[p].Tx? && HasPlan(s'.procs[p].tx)
      ensures WasStored(log + Emit(s, a), KeyForConfigId(s'.procs[p].tx.plan.was.configId), s'.procs[p].tx.plan.cfg)
    {
      PlannedConfigIsLogged(s, a, log, p);
    }
  }

  lemma ViewAfterSet(r: Redis<Key>, k: Key, v: Value)
    requires Typed(k, v) && (k in r.data ==> Typed(k, r.data[k]))
    ensures var a, a' := View(r), View(Put(r, k, v));
            && (v.Machine? ==> a' == a.(machines := a.machines[k := v.fsm]))
            && (v.Config? ==> a' == a.(configs := a.configs[k := v.cfg]))
            && (!v.Machine? && !v.Config? ==> a' == a)
  {
    var a, a' := View(r), View(Put(r, k, v));
    if v.Machine? {
      assert a'.machines == a.machines[k := v.fsm] && a'.configs == a.configs;
    } else if v.Config? {
      assert a'.machines == a.machines && a'.configs == a.configs[k := v.cfg];
    } else {
      assert a'.machines == a.machines && a'.configs == a.configs;
    }
  }

  lemma ViewAfterSetChange(r: Redis<Key>, c: Cmd<Key>)
    requires c.SAdd? || c.SRem?
    ensures View(Effect(r, c)) == View(r)
  {
    assert View(Effect(r, c)).machines == View(r).machines;
    assert View(Effect(r, c)).configs == View(r).configs;
  }

  /** Each step of the system is one atomic write or none. */
  lemma StepIsAtomic(s: State<Key>, a: Action)
    requires Locked(s) && WellTyped(s)
    ensures |Emit(s, a)| <= 1
    ensures View(Step(s, a).store) ==
            if Emit(s, a) == [] then View(s.store) else AtomicStep(View(s.store), Emit(s, a)[0])
    ensures Emit(s, a) != [] && Emit(s, a)[0].MachineSend? ==>
              && s.procs[a.p].Tx? && s.procs[a.p].tx.Executing?
              && var w, proc := Emit(s, a)[0], s.procs[a.p];
                 && w == MachineSend(a.p, MachineOf(proc), proc.tx.plan.cfg, proc.evt)
                 && w.k in View(s.store).machines
                 && View(s.store).machines[w.k] == proc.tx.plan.was
                 && SendEvent(w.cfg, proc.tx.plan.was, w.evt) == Some(proc.tx.plan.next)
  {
    if a.Go? && Live(s, a.p) && Executed(a.d) {
      var proc := s.procs[a.p];
      var c := NextCmd(proc);
      if c.Set? {
        SetsAreTyped(proc);
        ViewAfterSet(s.store, c.k, c.v);
      } else if c.Exec? {
        assert AttemptOk(s.store, MachineOf(proc), proc.evt, proc.tx);
        ViewAfterSet(s.store, c.k, c.v);
      } else if c.SAdd? || c.SRem? {
        ViewAfterSetChange(s.store, c);
      }
    }
  }

  /**
   The refinement: in every run, the machines and configurations in Redis are those the atomic
   machine reaches through the run's writes, and every one of those writes was allowed.
   */
  lemma {:induction false} RunRefinesAtomicMachine(n: int, trace: seq<Action>)
    ensures View(Run(n, trace).store) == Replay(LogOf(n, trace))
    ensures Legal(LogOf(n, trace))
    ensures ConfigsLogged(Run(n, trace), LogOf(n, trace))
  {
    if trace != [] {
      var s, a, log := Run(n, Front(trace)), Last(trace), LogOf(n, Front(trace));
      RunRefinesAtomicMachine(n, Front(trace));
      RunsAreLocked(n, Front(trace));
      RunsAreWellTyped(n, Front(trace));
      StepIsAtomic(s, a);
      ConfigsLoggedStep(s, a, log);
      var more := Emit(s, a);
      if more == [] {
        assert log + more == log;
      } else {
        assert log + more == log + [more[0]];
        LegalSnoc(log, more[0]);
      }
    }
  }

  lemma LegalSnoc(log: seq<Write>, w: Write)
    requires Legal(log) && Allowed(log, w)
    ensures Legal(log + [w]) && Replay(log + [w]) == AtomicStep(Replay(log), w)
  {
    assert (log + [w])[..|log|] == log;
    forall i | 0 <= i < |log + [w]| ensures Allowed((log + [w])[..i], (log + [w])[i]) {
      assert i < |log| ==> (log + [w])[..i] == log[..i] && (log + [w])[i] == log[i];
    }
  }
}
