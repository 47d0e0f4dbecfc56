/**
 The machines-by-state sets. In every run, aborted and failed attempts included, an id sits in the
 set of a state only if its machine was put in that state, or a transition out of a state it really
 held leads there.
 */
module StateIndex {
  import opened Strings
  import opened Fsm
  import opened Keys
  import opened Redis
  import opened Server
  import opened Atomicity
  import opened Configs

  /** Machine `k` is in the set of machines in state `x`. */
  predicate InIndex(r: Redis<Key>, k: Key, x: string)
    requires k.MachineKey?
  {
    k.id in MembersOf(r, StateKey(k.cfg, x))
  }

  predicate OnMachine(proc: Proc, k: Key) {
    (proc.Tx? && MachineOf(proc) == k) || (proc.Create? && CreatedKey(proc.id, proc.fsm) == k)
  }

  /** The state whose set the process is about to add its machine to. */
  predicate Adds(proc: Proc, x: string) {
    (proc.Tx? && proc.tx.Adding? && x == proc.tx.plan.next.state) ||
      (proc.Create? && proc.create.Indexing? && x == proc.create.machine.state)
  }

  predicate Removes(proc: Proc, x: string) {
    proc.Tx? && proc.tx.Removing? && x == proc.tx.plan.was.state
  }

  /** Where names have no `:`, only the processes of a machine move it between the sets, one state at a time. */
  lemma IndexChange(s: State<Key>, a: Action, k: Key, x: string)
    requires WellTyped(s) && Named(s) && k.MachineKey?
    ensures InIndex(Step(s, a).store, k, x)
         == if Runs(s, a) && OnMachine(s.procs[a.p], k) && Adds(s.procs[a.p], x) then true
            else if Runs(s, a) && OnMachine(s.procs[a.p], k) && Removes(s.procs[a.p], x) then false
            else InIndex(s.store, k, x)
  {
    SetChange(s, a, StateKey(k.cfg, x));
    if Runs(s, a) {
      assert CreateRefers(s.store, s.procs[a.p]);
    }
  }

  // ---------------------------------------------------------------- soundness

  /** Machine `k` was `m` at some point of the run. */
  ghost predicate EverHeld(n: int, trace: seq<Action>, k: Key, m: FiniteStateMachine) {
    exists i: nat :: i <= |trace| && MachineAt(Run(n, trace[..i]).store, k) == Some(m)
  }

  lemma HeldStays(n: int, trace: seq<Action>, k: Key, m: FiniteStateMachine)
    requires trace != [] && EverHeld(n, Front(trace), k, m)
    ensures EverHeld(n, trace, k, m)
  {
    var i: nat :| i <= |Front(trace)| && MachineAt(Run(n, Front(trace)[..i]).store, k) == Some(m);
    assert Front(trace)[..i] == trace[..i];
  }

  lemma HeldAtLast(n: int, trace: seq<Action>, k: Key, m: FiniteStateMachine)
    requires MachineAt(Run(n, trace).store, k) == Some(m)
    ensures EverHeld(n, trace, k, m)
  {
    assert trace[..|trace|] == trace;
  }

  /** A stored configuration takes `m` to state `x`. */
  ghost predicate LeadsTo(log: seq<Write>, m: FiniteStateMachine, x: string) {
    exists c, evt :: WasStored(log, KeyForConfigId(m.configId), c) && SendEvent(c, m, evt).Some? &&
      SendEvent(c, m, evt).value.state == x
  }

  ghost predicate Justified(n: int, trace: seq<Action>, k: Key, x: string) {
    exists m :: EverHeld(n, trace, k, m) && (m.state == x || LeadsTo(LogOf(n, trace), m, x))
  }

  lemma JustifiedStays(n: int, trace: seq<Action>, k: Key, x: string)
    requires trace != [] && Justified(n, Front(trace), k, x)
    ensures Justified(n, trace, k, x)
  {
    var log, more := LogOf(n, Front(trace)), Emit(Run(n, Front(trace)), Last(trace));
    var m :| EverHeld(n, Front(trace), k, m) && (m.state == x || LeadsTo(log, m, x));
    HeldStays(n, trace, k, m);
    if m.state != x {
      var c, evt :| WasStored(log, KeyForConfigId(m.configId), c) && SendEvent(c, m, evt).Some? &&
        SendEvent(c, m, evt).value.state == x;
      WasStoredGrows(log, more, KeyForConfigId(m.configId), c);
      assert LeadsTo(log + more, m, x);
    }
  }

  /** What a process of the machine has read or written was in the store. */
  ghost predicate Grounded(n: int, trace: seq<Action>, proc: Proc) {
    && (proc.Tx? && proc.tx.ReadingConfig? ==> EverHeld(n, trace, MachineOf(proc), proc.tx.was))
    && (proc.Tx? && HasPlan(proc.tx) ==> EverHeld(n, trace, MachineOf(proc), proc.tx.plan.was))
    && (proc.Create? && proc.create.Indexing? ==>
      EverHeld(n, trace, CreatedKey(proc.id, proc.fsm), proc.create.machine))
  }

  lemma GroundedStays(n: int, trace: seq<Action>, proc: Proc)
    requires trace != [] && Grounded(n, Front(trace), proc)
    ensures Grounded(n, trace, proc)
  {
    if proc.Tx? && proc.tx.ReadingConfig? {
      HeldStays(n, trace, MachineOf(proc), proc.tx.was);
    } else if proc.Tx? && HasPlan(proc.tx) {
      HeldStays(n, trace, MachineOf(proc), proc.tx.plan.was);
    } else if proc.Create? && proc.create.Indexing? {
      HeldStays(n, trace, CreatedKey(proc.id, proc.fsm), proc.create.machine);
    }
  }

  lemma GroundedMoves(n: int, trace: seq<Action>)
    requires trace != [] && Last(trace).Go? && Live(Run(n, Front(trace)), Last(trace).p)
    requires Grounded(n, Front(trace), Run(n, Front(trace)).procs[Last(trace).p])
    ensures Grounded(n, trace, Run(n, trace).procs[Last(trace).p])
  {
    var pre, a := Front(trace), Last(trace);
    var s := Run(n, pre);
    var proc := s.procs[a.p];
    var proc' := Run(n, trace).procs[a.p];
    if proc.Tx? && proc.tx.ReadingMachine? && proc'.tx.ReadingConfig? {
      HeldAtLast(n, pre, MachineOf(proc), proc'.tx.was);
      HeldStays(n, trace, MachineOf(proc), proc'.tx.was);
    } else if proc.Tx? && proc.tx.ReadingConfig? {
      HeldStays(n, trace, MachineOf(proc), proc.tx.was);
    } else if proc.Tx? && HasPlan(proc.tx) {
      HeldStays(n, trace, MachineOf(proc), proc.tx.plan.was);
    } else if proc.Create? && proc'.create.Indexing? {
      HeldAtLast(n, trace, CreatedKey(proc.id, proc.fsm), proc'.create.machine);
    }
  }

  lemma {:induction false} ProcsAreGrounded(n: int, trace: seq<Action>, p: nat)
    requires p in Run(n, trace).procs
    ensures Grounded(n, trace, Run(n, trace).procs[p])
  {
    var s, a := Run(n, Front(trace)), Last(trace);
    if p in s.procs {
      ProcsAreGrounded(n, Front(trace), p);
      if a.Go? && a.p == p && Live(s, p) {
        GroundedMoves(n, trace);
      } else {
        GroundedStays(n, trace, s.procs[p]);
      }
    }
  }

  /** The machine whose record a set entry of `k` speaks of: that of the name up to its first `:`. */
  function Home(k: Key): Key
    requires k.MachineKey?
  {
    MachineKey(Before(k.cfg, ':'), k.id)
  }

  lemma HomeIsItselfIff(k: Key)
    requires k.MachineKey?
    ensures Home(k) == k <==> ':' !in k.cfg
  {
    if ':' in k.cfg {
      JoinSplit(k.cfg, ':');
    }
  }

  lemma {:induction false} JustifiedOnlyUnderPlainName(n: int, trace: seq<Action>, k: Key, x: string)
    requires k.MachineKey? && Justified(n, trace, k, x)
    ensures ':' !in k.cfg
  {
    var m :| EverHeld(n, trace, k, m) && (m.state == x || LeadsTo(LogOf(n, trace), m, x));
    var i: nat :| i <= |trace| && MachineAt(Run(n, trace[..i]).store, k) == Some(m);
    NoRecordUnderColon(n, trace[..i]);
  }

  /** The call that puts an entry into a set has grounds for it in the record of the set's home. */
  lemma EntryIsGrounded(n: int, trace: seq<Action>, a: Action, k: Key, x: string)
    requires k.MachineKey? && !InIndex(Run(n, trace).store, k, x) && InIndex(Step(Run(n, trace), a).store, k, x)
    ensures Justified(n, trace, Home(k), x)
  {
    var s := Run(n, trace);
    RunsAreWellTyped(n, trace);
    RunsAreFiled(n, trace);
    SetChange(s, a, StateKey(k.cfg, x));
    var proc := s.procs[a.p];
    assert CreateFiled(s.store, proc);
    var home := if proc.Tx? then MachineOf(proc) else CreatedKey(proc.id, proc.fsm);
    AdditionIsJustified(n, trace, a.p, home, x);
    JustifiedOnlyUnderPlainName(n, trace, home, x);
    HomeIsItselfIff(home);
  }

  lemma {:induction false} EntriesAreGrounded(n: int, trace: seq<Action>, k: Key, x: string)
    requires k.MachineKey? && InIndex(Run(n, trace).store, k, x)
    ensures Justified(n, trace, Home(k), x)
  {
    var pre, a := Front(trace), Last(trace);
    if InIndex(Run(n, pre).store, k, x) {
      EntriesAreGrounded(n, pre, k, x);
    } else {
      EntryIsGrounded(n, pre, a, k, x);
    }
    JustifiedStays(n, trace, Home(k), x);
  }

  /**
   Index soundness, in every run and for any names. An entry always has grounds in the record of the machine under the
   name's part before the first `:`. So it has grounds in its own machine if and only if the name has no `:`; and where
   no configuration's name has one, every entry does.
   */
  lemma IndexIsSound(n: int, trace: seq<Action>, k: Key, x: string)
    requires k.MachineKey? && InIndex(Run(n, trace).store, k, x)
    ensures Justified(n, trace, Home(k), x)
    ensures Justified(n, trace, k, x) <==> ':' !in k.cfg
    ensures NamedRun(trace) ==> Justified(n, trace, k, x)
  {
    EntriesAreGrounded(n, trace, k, x);
    HomeIsItselfIff(k);
    if Justified(n, trace, k, x) {
      JustifiedOnlyUnderPlainName(n, trace, k, x);
    }
    if NamedRun(trace) {
      NamedEntriesAreGrounded(n, trace, k, x);
    }
  }

  lemma {:induction false} NamedEntriesAreGrounded(n: int, trace: seq<Action>, k: Key, x: string)
    requires NamedRun(trace) && k.MachineKey? && InIndex(Run(n, trace).store, k, x)
    ensures Justified(n, trace, k, x)
  {
    var pre, a := Front(trace), Last(trace);
    var s := Run(n, pre);
    RunsAreWellTyped(n, pre);
    ConfigurationsAreStoredUnderTheirIds(n, pre);
    IndexChange(s, a, k, x);
    if InIndex(s.store, k, x) {
      NamedEntriesAreGrounded(n, pre, k, x);
    } else {
      AdditionIsJustified(n, pre, a.p, k, x);
    }
    JustifiedStays(n, trace, k, x);
  }

  lemma AdditionIsJustified(n: int, trace: seq<Action>, p: nat, k: Key, x: string)
    requires p in Run(n, trace).procs && OnMachine(Run(n, trace).procs[p], k) && Adds(Run(n, trace).procs[p], x)
    ensures Justified(n, trace, k, x)
  {
    var s := Run(n, trace);
    var proc := s.procs[p];
    ProcsAreGrounded(n, trace, p);
    if proc.Tx? {
      RunRefinesAtomicMachine(n, trace);
      RunsAreLocked(n, trace);
      var plan := proc.tx.plan;
      assert AttemptOk(s.store, MachineOf(proc), proc.evt, proc.tx);
      assert WasStored(LogOf(n, trace), KeyForConfigId(plan.was.configId), plan.cfg);
      assert LeadsTo(LogOf(n, trace), plan.was, x);
    }
  }
}
