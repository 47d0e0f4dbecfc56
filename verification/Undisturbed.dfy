/** Calls that nobody disturbs: what each one does from any state of the system, step by step, every reply delivered. */
module Undisturbed {
  import opened Strings
  import opened Fsm
  import opened Keys
  import opened Redis
  import opened Server
  import opened Configs
  import opened StateIndex
  import opened IndexExactness

  /** Process `p` takes `k` steps undisturbed, every reply delivered. */
  function Drive(s: State<Key>, p: nat, k: nat): State<Key> {
    if k == 0 then s else Step(Drive(s, p, k - 1), Go(p, Delivered))
  }

  function Burst(p: nat, k: nat): seq<Action> {
    if k == 0 then [] else Burst(p, k - 1) + [Go(p, Delivered)]
  }

  lemma RunSnoc(n: int, trace: seq<Action>, a: Action)
    ensures Run(n, trace + [a]) == Step(Run(n, trace), a)
  {
    assert Front(trace + [a]) == trace;
  }

  lemma {:induction false} RunBurst(n: int, trace: seq<Action>, p: nat, k: nat)
    ensures Run(n, trace + Burst(p, k)) == Drive(Run(n, trace), p, k)
  {
    if k == 0 {
      assert trace + [] == trace;
    } else {
      RunBurst(n, trace, p, k - 1);
      assert trace + Burst(p, k) == (trace + Burst(p, k - 1)) + [Go(p, Delivered)];
      RunSnoc(n, trace + Burst(p, k - 1), Go(p, Delivered));
    }
  }

  /** Begin a call and run it for `k` steps. */
  function Perform(s: State<Key>, p: nat, call: Call, k: nat): State<Key> {
    Drive(Step(s, Begin(p, call)), p, k)
  }

  lemma RunPerform(n: int, trace: seq<Action>, p: nat, call: Call, k: nat)
    ensures Run(n, trace + [Begin(p, call)] + Burst(p, k)) == Perform(Run(n, trace), p, call, k)
  {
    RunSnoc(n, trace, Begin(p, call));
    RunBurst(n, trace + [Begin(p, call)], p, k);
  }

  lemma {:induction false} DriveSum(s: State<Key>, p: nat, a: nat, b: nat)
    ensures Drive(s, p, a + b) == Drive(Drive(s, p, a), p, b)
  {
    if b > 0 {
      DriveSum(s, p, a, b - 1);
      DriveOnce(s, p, a + b - 1);
      DriveOnce(Drive(s, p, a), p, b - 1);
    }
  }

  lemma DriveOnce(s: State<Key>, p: nat, k: nat)
    ensures Drive(s, p, k + 1) == Step(Drive(s, p, k), Go(p, Delivered))
  {
  }

  lemma {:induction false} DriveWellTyped(s: State<Key>, p: nat, k: nat)
    requires WellTyped(s)
    ensures WellTyped(Drive(s, p, k))
  {
    if k > 0 {
      DriveWellTyped(s, p, k - 1);
      WellTypedStep(Drive(s, p, k - 1), Go(p, Delivered));
    }
  }

  lemma PerformWellTyped(s: State<Key>, p: nat, call: Call, k: nat)
    requires WellTyped(s)
    ensures WellTyped(Perform(s, p, call, k))
  {
    WellTypedStep(s, Begin(p, call));
    DriveWellTyped(Step(s, Begin(p, call)), p, k);
  }

  lemma {:induction false} DriveKeys(s: State<Key>, p: nat, k: nat)
    ensures Drive(s, p, k).procs.Keys == s.procs.Keys
  {
    if k > 0 {
      DriveKeys(s, p, k - 1);
    }
  }

  ghost predicate Polite(trace: seq<Action>) {
    forall i :: 0 <= i < |trace| && trace[i].Go? ==> trace[i].d.Delivered?
  }

  lemma {:induction false} BurstPolite(p: nat, k: nat)
    ensures Polite(Burst(p, k))
  {
    if k > 0 {
      BurstPolite(p, k - 1);
    }
  }

  lemma PoliteBegin(trace: seq<Action>, p: nat, call: Call, k: nat)
    requires Polite(trace)
    ensures Polite(trace + [Begin(p, call)] + Burst(p, k))
  {
    BurstPolite(p, k);
  }

  // ---------------------------------------------------------------- configurations

  /** Past its existence check, a put stores its configuration whatever is there. */
  lemma CheckedPutStores(s: State<Key>, p: nat)
    requires p in s.procs && s.procs[p].Configure? && s.procs[p].conf.AddingName?
    ensures var s' := Drive(s, p, 3);
            && ConfigAt(s'.store, ConfigurationKey(s.procs[p].config)) == Some(s.procs[p].config)
            && forall q :: q != p && q in s.procs ==> q in s'.procs && s'.procs[q] == s.procs[q]
  {
    var s1, s2 := Drive(s, p, 1), Drive(s, p, 2);
    assert s1 == Step(Drive(s, p, 0), Go(p, Delivered));
    assert s1.procs[p].conf == AddingVersion;
    assert s2.procs[p].conf == StoringConfig(s.maxRetries);
    assert Drive(s, p, 3) == Step(s2, Go(p, Delivered));
  }

  lemma ConfigurationGetsStored(n: int, c: Configuration)
    ensures var s := Perform(Init(n), 0, PutConfig(c), 4);
            && ConfigAt(s.store, ConfigurationKey(c)) == Some(c)
            && (forall k: Key :: k.MachineKey? || k.StateKey? ==> k !in s.store.data)
            && s.procs == map[0 := Configure(c, ConfigDone(Success))]
  {
    ConfigIdKey(VersionId(c));
    assert VersionId(c)[|c.name|] == ':';
    var s0 := Step(Init(n), Begin(0, PutConfig(c)));
    var s1, s2, s3 := Drive(s0, 0, 1), Drive(s0, 0, 2), Drive(s0, 0, 3);
    assert s1 == Step(Drive(s0, 0, 0), Go(0, Delivered));
    assert s1.store == s0.store && s1.procs == map[0 := Configure(c, AddingName)];
    assert s2.procs == map[0 := Configure(c, AddingVersion)];
    assert forall k: Key :: k.MachineKey? || k.StateKey? ==> k !in s2.store.data;
    assert s3.procs == map[0 := Configure(c, StoringConfig(n))];
    assert forall k: Key :: k.MachineKey? || k.StateKey? ==> k !in s3.store.data;
  }

  // ---------------------------------------------------------------- machines

  predicate SameOthers(s: State<Key>, s': State<Key>, p: nat) {
    s'.procs.Keys == s.procs.Keys + {p} && forall q | q != p && q in s.procs :: s'.procs[q] == s.procs[q]
  }

  /** The creating call up to its addition to the set: nothing but the record has changed. */
  lemma PutsRecord(s: State<Key>, p: nat, id: string, fsm: FiniteStateMachine, c: Configuration)
    requires p !in s.procs && ConfigAt(s.store, KeyForConfigId(fsm.configId)) == Some(c)
    ensures var m, s' := Defaulted(fsm, c), Perform(s, p, PutFiniteStateMachine(id, fsm), 2);
            && s'.store == Put(s.store, CreatedKey(id, fsm), Machine(m)) && SameOthers(s, s', p)
            && s'.procs[p] == Create(id, fsm, if m.state != "" then Indexing(c.name, m) else CreateDone(Success))
  {
    var s0 := Step(s, Begin(p, PutFiniteStateMachine(id, fsm)));
    var s1, s2 := Drive(s0, p, 1), Drive(s0, p, 2);
    assert s1 == Step(Drive(s0, p, 0), Go(p, Delivered));
    assert s1.store == s.store && s1.procs[p].create == Storing(c.name, Defaulted(fsm, c), s.maxRetries);
    assert s2 == Step(s1, Go(p, Delivered));
  }

  /** The entry goes into a set of the configuration's own name, which need not be the name in the machine's key. */
  lemma AddsEntry(s: State<Key>, p: nat, j: Key, fsm: FiniteStateMachine, m: FiniteStateMachine)
    requires WellTyped(s) && j.MachineKey? && p in s.procs
    requires s.procs[p] == Create(j.id, fsm, if m.state != "" then Indexing(j.cfg, m) else CreateDone(Success))
    ensures var s' := Step(s, Go(p, Delivered));
            && s'.procs == s.procs[p := Create(j.id, fsm, CreateDone(Success))]
            && (forall k :: MachineAt(s'.store, k) == MachineAt(s.store, k))
            && (forall k :: ConfigAt(s'.store, k) == ConfigAt(s.store, k))
            && (forall k: Key, y :: k.MachineKey? ==>
                  InIndex(s'.store, k, y) == ((k == j && y == m.state && y != "") || InIndex(s.store, k, y)))
  {
    var s' := Step(s, Go(p, Delivered));
    forall k: Key, y | k.MachineKey?
      ensures InIndex(s'.store, k, y) == ((k == j && y == m.state && y != "") || InIndex(s.store, k, y))
    {
      SetChange(s, Go(p, Delivered), StateKey(k.cfg, y));
    }
    forall k ensures MachineAt(s'.store, k) == MachineAt(s.store, k) && ConfigAt(s'.store, k) == ConfigAt(s.store, k) {
      MachineChange(s, Go(p, Delivered), k);
      ConfigChange(s, Go(p, Delivered), k);
    }
  }

  /**
   What an undisturbed put of a machine does from any state, whatever its configuration is called and whether or not
   the machine exists: it succeeds, stores the record as asked, with the starting state only if no state was asked for,
   under the name that the configuration id starts with, and adds an entry for that state to a set under the
   configuration's name, and nothing else. The two names are one if and only if the configuration's has no `:`.
   */
  lemma UndisturbedPut(s: State<Key>, p: nat, id: string, fsm: FiniteStateMachine, c: Configuration)
    requires WellTyped(s) && p !in s.procs && ConfigAt(s.store, KeyForConfigId(fsm.configId)) == Some(c)
    ensures var k, j := MachineKey(NameOf(fsm.configId), id), MachineKey(c.name, id);
            var state := if fsm.state != "" then fsm.state else c.startingState;
            var s' := Perform(s, p, PutFiniteStateMachine(id, fsm), 3);
            && SameOthers(s, s', p) && s'.procs[p] == Create(id, fsm, CreateDone(Success))
            && MachineAt(s'.store, k) == Some(FiniteStateMachine(fsm.configId, state, fsm.history))
            && (forall i :: i != k ==> MachineAt(s'.store, i) == MachineAt(s.store, i))
            && (forall i :: ConfigAt(s'.store, i) == ConfigAt(s.store, i))
            && (forall i: Key, x :: i.MachineKey? ==>
                  (InIndex(s'.store, i, x) <==> (i == j && x == state && x != "") || InIndex(s.store, i, x)))
            && (VersionId(c) == fsm.configId ==> (j == k <==> ':' !in c.name))
  {
    var s0, m := Step(s, Begin(p, PutFiniteStateMachine(id, fsm))), Defaulted(fsm, c);
    PutsRecord(s, p, id, fsm, c);
    PerformWellTyped(s, p, PutFiniteStateMachine(id, fsm), 2);
    AddsEntry(Drive(s0, p, 2), p, MachineKey(c.name, id), fsm, m);
    DriveOnce(s0, p, 2);
    NameOfVersionId(c);
    AfterRecordPut(s, CreatedKey(id, fsm), m);
  }

  lemma AfterRecordPut(s: State<Key>, k: Key, m: FiniteStateMachine)
    requires WellTyped(s) && k.MachineKey?
    ensures var r' := Put(s.store, k, Machine(m));
            && MachineAt(r', k) == Some(m) && (forall i :: i != k ==> MachineAt(r', i) == MachineAt(s.store, i))
            && (forall i :: ConfigAt(r', i) == ConfigAt(s.store, i))
            && (forall i: Key, x :: i.MachineKey? ==> InIndex(r', i, x) == InIndex(s.store, i, x))
  {
  }

  // ---------------------------------------------------------------- events

  /** The machine, its configuration and its version, as a call finds them. */
  predicate Finds(s: State<Key>, k: Key, m: FiniteStateMachine, c: Configuration, ver: nat)
    requires k.MachineKey?
  {
    MachineAt(s.store, k) == Some(m) && ConfigAt(s.store, KeyForConfigId(m.configId)) == Some(c) &&
      Ver(s.store, k) == ver
  }

  lemma ReadsUpToRemoval(s: State<Key>, p: nat, k: Key, evt: Event, m: FiniteStateMachine, c: Configuration, i: nat)
    requires k.MachineKey? && p in s.procs && s.procs[p] == Tx(k.id, k.cfg, evt, Watching(i)) &&
        Finds(s, k, m, c, Ver(s.store, k))
    ensures var s' := Drive(s, p, 3);
            && s'.store == s.store
            && SameOthers(s, s', p)
            && s'.procs[p] == Tx(k.id, k.cfg, evt,
                 match SendEvent(c, m, evt)
                 case None => TxDone(Refused)
                 case Some(next) => BeforeRemoval(i, Plan(Ver(s.store, k), m, c, next)))
  {
    var s1, s2 := Drive(s, p, 1), Drive(s, p, 2);
    assert s1 == Step(Drive(s, p, 0), Go(p, Delivered));
    assert s1.store == s.store && s1.procs[p].tx == ReadingMachine(i, Ver(s.store, k));
    assert s2.store == s.store && s2.procs[p].tx == ReadingConfig(i, Ver(s.store, k), m);
    assert Drive(s, p, 3) == Step(s2, Go(p, Delivered));
  }

  /** The commands that moving out of or into the set of a state takes. */
  function Steps(state: string): nat {
    if state != "" then 1 else 0
  }

  /** The commands of an attempt before its EXEC. */
  function Length(plan: Plan): nat {
    3 + Steps(plan.was.state) + Steps(plan.next.state)
  }

  /** Between the two stores the machine was taken out of the set of `was` and put into that of `next`. */
  ghost predicate Moved(r: Redis<Key>, r': Redis<Key>, k: Key, was: string, next: string)
    requires k.MachineKey?
  {
    forall y :: InIndex(r', k, y) == ((y == next && y != "") || (InIndex(r, k, y) && (y != was || y == "")))
  }

  /** The attempt `i` of a call on `k` stands at `pc`, and the machine is the one its plan starts from. */
  ghost predicate Stands(s: State<Key>, p: nat, k: Key, evt: Event, plan: Plan, pc: TxPc) {
    && WellTyped(s) && k.MachineKey? && p in s.procs && s.procs[p] == Tx(k.id, k.cfg, evt, pc)
    && Finds(s, k, plan.was, plan.cfg, plan.ver)
  }

  lemma LeavesOldSet(s: State<Key>, p: nat, k: Key, evt: Event, plan: Plan, i: nat)
    requires Stands(s, p, k, evt, plan, BeforeRemoval(i, plan))
    ensures var s' := Drive(s, p, Steps(plan.was.state));
            && Stands(s', p, k, evt, plan, BeforeAddition(i, plan)) && SameOthers(s, s', p)
            && (forall y :: InIndex(s'.store, k, y) == (InIndex(s.store, k, y) && (y != plan.was.state || y == "")))
  {
    if plan.was.state != "" {
      var s' := Step(s, Go(p, Delivered));
      assert Drive(s, p, 1) == Step(Drive(s, p, 0), Go(p, Delivered)) == s';
      WellTypedStep(s, Go(p, Delivered));
      SetChange(s, Go(p, Delivered), StateKey(k.cfg, plan.was.state));
      forall y ensures InIndex(s'.store, k, y) == (InIndex(s.store, k, y) && (y != plan.was.state || y == "")) {
        SetChange(s, Go(p, Delivered), StateKey(k.cfg, y));
      }
    }
  }

  lemma EntersNewSet(s: State<Key>, p: nat, k: Key, evt: Event, plan: Plan, i: nat)
    requires Stands(s, p, k, evt, plan, BeforeAddition(i, plan))
    ensures var s' := Drive(s, p, Steps(plan.next.state));
            && Stands(s', p, k, evt, plan, Executing(i, plan)) && SameOthers(s, s', p)
            && (forall y :: InIndex(s'.store, k, y) == ((y == plan.next.state && y != "") || InIndex(s.store, k, y)))
  {
    if plan.next.state != "" {
      var s' := Step(s, Go(p, Delivered));
      assert Drive(s, p, 1) == Step(Drive(s, p, 0), Go(p, Delivered)) == s';
      WellTypedStep(s, Go(p, Delivered));
      SetChange(s, Go(p, Delivered), StateKey(k.cfg, plan.next.state));
      forall y ensures InIndex(s'.store, k, y) == ((y == plan.next.state && y != "") || InIndex(s.store, k, y)) {
        SetChange(s, Go(p, Delivered), StateKey(k.cfg, y));
      }
    }
  }

  /** Up to its EXEC an attempt takes its machine out of the old set and puts it into the new one. */
  lemma AttemptUpToExec(s: State<Key>, p: nat, k: Key, evt: Event, plan: Plan, i: nat)
    requires Stands(s, p, k, evt, plan, Watching(i)) && SendEvent(plan.cfg, plan.was, evt) == Some(plan.next)
    ensures var s' := Drive(s, p, Length(plan));
            && Stands(s', p, k, evt, plan, Executing(i, plan)) && SameOthers(s, s', p)
            && Moved(s.store, s'.store, k, plan.was.state, plan.next.state)
  {
    ReadsUpToRemoval(s, p, k, evt, plan.was, plan.cfg, i);
    DriveWellTyped(s, p, 3);
    var s3 := Drive(s, p, 3);
    LeavesOldSet(s3, p, k, evt, plan, i);
    var s4 := Drive(s3, p, Steps(plan.was.state));
    DriveSum(s, p, 3, Steps(plan.was.state));
    EntersNewSet(s4, p, k, evt, plan, i);
    DriveSum(s, p, 3 + Steps(plan.was.state), Steps(plan.next.state));
  }

  lemma Commits(s: State<Key>, p: nat, k: Key, evt: Event, plan: Plan, i: nat)
    requires Stands(s, p, k, evt, plan, Executing(i, plan)) && SendEvent(plan.cfg, plan.was, evt) == Some(plan.next)
    ensures var s' := Step(s, Go(p, Delivered));
            && Finds(s', k, plan.next, plan.cfg, plan.ver + 1) && SameOthers(s, s', p)
            && SameIndex(s.store, s'.store, k)
            && s'.procs[p] == Tx(k.id, k.cfg, evt, TxDone(Success))
  {
  }

  /** An attempt nobody interferes with commits and moves its machine. */
  lemma AttemptCommits(s: State<Key>, p: nat, k: Key, evt: Event, plan: Plan, i: nat)
    requires Stands(s, p, k, evt, plan, Watching(i)) && SendEvent(plan.cfg, plan.was, evt) == Some(plan.next)
    ensures var s' := Drive(s, p, Length(plan) + 1);
            && WellTyped(s') && Finds(s', k, plan.next, plan.cfg, plan.ver + 1) && SameOthers(s, s', p)
            && s'.procs[p] == Tx(k.id, k.cfg, evt, TxDone(Success))
            && Moved(s.store, s'.store, k, plan.was.state, plan.next.state)
  {
    AttemptUpToExec(s, p, k, evt, plan, i);
    Commits(Drive(s, p, Length(plan)), p, k, evt, plan, i);
    DriveOnce(s, p, Length(plan));
    DriveWellTyped(s, p, Length(plan) + 1);
  }

  lemma CallStands(s: State<Key>, p: nat, k: Key, evt: Event, plan: Plan)
    requires WellTyped(s) && k.MachineKey? && p !in s.procs && Finds(s, k, plan.was, plan.cfg, plan.ver)
    ensures var s0 := Step(s, Begin(p, TxProcessEvent(k.id, k.cfg, evt)));
            Stands(s0, p, k, evt, plan, Watching(0)) && s0.store == s.store && SameOthers(s, s0, p)
  {
    WellTypedStep(s, Begin(p, TxProcessEvent(k.id, k.cfg, evt)));
  }

  /**
   A call nobody interferes with, from any state: it commits, and its machine is in the set of the new state and no
   longer in that of the old one; the empty state has no set.
   */
  lemma UndisturbedCallCommits(s: State<Key>, p: nat, k: Key, evt: Event, plan: Plan)
    requires WellTyped(s) && k.MachineKey? && p !in s.procs && Finds(s, k, plan.was, plan.cfg, plan.ver)
    requires SendEvent(plan.cfg, plan.was, evt) == Some(plan.next)
    ensures var s' := Perform(s, p, TxProcessEvent(k.id, k.cfg, evt), Length(plan) + 1);
            && WellTyped(s') && Finds(s', k, plan.next, plan.cfg, plan.ver + 1) && SameOthers(s, s', p)
            && s'.procs[p] == Tx(k.id, k.cfg, evt, TxDone(Success))
            && Moved(s.store, s'.store, k, plan.was.state, plan.next.state)
  {
    CallStands(s, p, k, evt, plan);
    AttemptCommits(Step(s, Begin(p, TxProcessEvent(k.id, k.cfg, evt))), p, k, evt, plan, 0);
  }

  /** The EXEC of an attempt whose machine was written since. */
  lemma Aborts(s: State<Key>, p: nat, k: Key, evt: Event, plan: Plan, i: nat)
    requires k.MachineKey? && p in s.procs && s.procs[p] == Tx(k.id, k.cfg, evt, Executing(i, plan))
    requires Ver(s.store, k) != plan.ver
    ensures var s' := Drive(s, p, 1);
            && s'.store == s.store && SameOthers(s, s', p)
            && s'.procs[p] == Tx(k.id, k.cfg, evt, AfterAbort(i))
  {
    DriveOnce(s, p, 0);
    AbortReply(s.store, k, plan.ver, Machine(plan.next));
    AbortAdvances(s.maxRetries, s.procs[p]);
    assert NextCmd(s.procs[p]) == Exec(k, plan.ver, Machine(plan.next));
  }

  lemma AbortReply(r: Redis<Key>, k: Key, ver: nat, v: Value)
    requires Ver(r, k) != ver
    ensures Answer(r, Exec(k, ver, v)) == Aborted && Effect(r, Exec(k, ver, v)) == r
  {
  }

  lemma AbortAdvances(n: int, proc: Proc)
    requires proc.Tx? && proc.tx.Executing?
    ensures Advance(n, proc, Aborted) == proc.(tx := AfterAbort(proc.tx.attempt))
  {
  }
}
