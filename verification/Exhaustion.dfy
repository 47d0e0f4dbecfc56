/** Three interfering writes are enough to exhaust the retries of a call: the bound on its progress is tight. */
module Exhaustion {
  import opened Strings
  import opened Fsm
  import opened Keys
  import opened Redis
  import opened Server
  import opened Calls
  import opened Configs
  import opened Undisturbed
  import opened Witnesses

  // ---------------------------------------------------------------- one attempt, written over

  /** Another call stores the record again, unchanged. */
  lemma SameRecordAgain(s: State<Key>, q: nat, k: Key, m: FiniteStateMachine)
    requires k.MachineKey? && q !in s.procs && NameOf(m.configId) == k.cfg
    ensures var s' := Perform(s, q, PutStateMachine(k.id, m), 1);
            s'.store == Put(s.store, k, Machine(m)) && SameOthers(s, s', q) && IsDone(s'.procs[q])
  {
    DriveOnce(Step(s, Begin(q, PutStateMachine(k.id, m))), q, 0);
  }

  /** An attempt up to its EXEC, the write, and the EXEC that aborts. */
  function Round(s: State<Key>, p: nat, q: nat, k: Key, plan: Plan): State<Key>
    requires k.MachineKey?
  {
    Drive(Perform(Drive(s, p, Length(plan)), q, PutStateMachine(k.id, plan.was), 1), p, 1)
  }

  lemma RoundAborts(s: State<Key>, p: nat, q: nat, k: Key, evt: Event, plan: Plan, i: nat)
    requires Stands(s, p, k, evt, plan, Watching(i)) && SendEvent(plan.cfg, plan.was, evt) == Some(plan.next)
    requires q !in s.procs && NameOf(plan.was.configId) == k.cfg
    ensures var s' := Round(s, p, q, k, plan);
            && Stands(s', p, k, evt, plan.(ver := plan.ver + 1), AfterAbort(i))
            && s'.procs.Keys == s.procs.Keys + {p, q}
  {
    AttemptUpToExec(s, p, k, evt, plan, i);
    var s1 := Drive(s, p, Length(plan));
    SameRecordAgain(s1, q, k, plan.was);
    PerformWellTyped(s1, q, PutStateMachine(k.id, plan.was), 1);
    var s2 := Perform(s1, q, PutStateMachine(k.id, plan.was), 1);
    FoundAgain(s1.store, k, plan);
    Aborts(s2, p, k, evt, plan, i);
    DriveWellTyped(s2, p, 1);
  }

  lemma FoundAgain(r: Redis<Key>, k: Key, plan: Plan)
    requires k.MachineKey? && ConfigAt(r, KeyForConfigId(plan.was.configId)) == Some(plan.cfg) && Ver(r, k) == plan.ver
    ensures var r' := Put(r, k, Machine(plan.was));
            && MachineAt(r', k) == Some(plan.was) && Ver(r', k) == plan.ver + 1
            && ConfigAt(r', KeyForConfigId(plan.was.configId)) == Some(plan.cfg)
  {
  }

  function RoundTrace(t: seq<Action>, p: nat, q: nat, k: Key, plan: Plan): seq<Action>
    requires k.MachineKey?
  {
    t + Burst(p, Length(plan)) + [Begin(q, PutStateMachine(k.id, plan.was))] + Burst(q, 1) + Burst(p, 1)
  }

  lemma RoundTraceRuns(n: int, t: seq<Action>, p: nat, q: nat, k: Key, plan: Plan)
    requires k.MachineKey?
    ensures Run(n, RoundTrace(t, p, q, k, plan)) == Round(Run(n, t), p, q, k, plan)
  {
    RunBurst(n, t, p, Length(plan));
    var t1 := t + Burst(p, Length(plan));
    RunPerform(n, t1, q, PutStateMachine(k.id, plan.was), 1);
    RunBurst(n, t1 + [Begin(q, PutStateMachine(k.id, plan.was))] + Burst(q, 1), p, 1);
  }

  // ---------------------------------------------------------------- counting interference

  lemma InterferenceSnoc(n: int, t: seq<Action>, a: Action, p: nat)
    ensures Interference(n, t, p) <= Interference(n, t + [a], p) <= Interference(n, t, p) + 1
    ensures a.p == p || a.Begin? ==> Interference(n, t + [a], p) == Interference(n, t, p)
  {
    assert Front(t + [a]) == t;
  }

  lemma {:induction false} OwnStepsDoNotInterfere(n: int, t: seq<Action>, p: nat, c: nat)
    ensures Interference(n, t + Burst(p, c), p) == Interference(n, t, p)
  {
    BurstSnoc(t, p, c);
    if c > 0 {
      OwnStepsDoNotInterfere(n, t, p, c - 1);
      var before := t + Burst(p, c - 1);
      assert Interference(n, before + [Go(p, Delivered)], p) == Interference(n, before, p) by {
        InterferenceSnoc(n, before, Go(p, Delivered), p);
      }
    }
  }

  lemma BurstSnoc(t: seq<Action>, p: nat, c: nat)
    ensures t + Burst(p, c) == if c == 0 then t else (t + Burst(p, c - 1)) + [Go(p, Delivered)]
  {
  }

  lemma RoundInterferesOnce(n: int, t: seq<Action>, p: nat, q: nat, k: Key, plan: Plan)
    requires k.MachineKey?
    ensures Interference(n, RoundTrace(t, p, q, k, plan), p) <= Interference(n, t, p) + 1
  {
    var begin := Begin(q, PutStateMachine(k.id, plan.was));
    var t1 := t + Burst(p, Length(plan));
    OwnStepsDoNotInterfere(n, t, p, Length(plan));
    InterferenceSnoc(n, t1, begin, p);
    InterferenceSnoc(n, t1 + [begin], Go(q, Delivered), p);
    assert Burst(q, 1) == [Go(q, Delivered)];
    OwnStepsDoNotInterfere(n, t1 + [begin] + Burst(q, 1), p, 1);
  }

  lemma {:induction false} NoInterferenceBeforeCall(n: int, t: seq<Action>, p: nat)
    requires p !in Run(n, t).procs
    ensures Interference(n, t, p) == 0
  {
    if t != [] {
      NoInterferenceBeforeCall(n, Front(t), p);
    }
  }

  // ---------------------------------------------------------------- three of them

  lemma RoundRun(n: int, t: seq<Action>, p: nat, q: nat, k: Key, evt: Event, plan: Plan, i: nat)
    returns (t': seq<Action>)
    requires Stands(Run(n, t), p, k, evt, plan, Watching(i)) && SendEvent(plan.cfg, plan.was, evt) == Some(plan.next)
    requires q !in Run(n, t).procs && NameOf(plan.was.configId) == k.cfg
    ensures Stands(Run(n, t'), p, k, evt, plan.(ver := plan.ver + 1), AfterAbort(i))
    ensures Run(n, t').procs.Keys == Run(n, t).procs.Keys + {p, q}
    ensures Interference(n, t', p) <= Interference(n, t, p) + 1
  {
    t' := RoundTrace(t, p, q, k, plan);
    RoundTraceRuns(n, t, p, q, k, plan);
    RoundAborts(Run(n, t), p, q, k, evt, plan, i);
    RoundInterferesOnce(n, t, p, q, k, plan);
  }

  /** The numbers below `q`. */
  function Upto(q: nat): (r: set<nat>)
    ensures forall p: nat :: p in r <==> p < q
  {
    if q == 0 then {} else Upto(q - 1) + {q - 1}
  }

  /** Attempt `i` of call `p` is about to begin, with one write by others for each attempt made. */
  ghost predicate Due(n: int, t: seq<Action>, p: nat, q: nat, k: Key, evt: Event, plan: Plan, i: nat) {
    && Stands(Run(n, t), p, k, evt, plan, Watching(i)) && Interference(n, t, p) <= i
    && SendEvent(plan.cfg, plan.was, evt) == Some(plan.next) && NameOf(plan.was.configId) == k.cfg
    && p < q && Run(n, t).procs.Keys == Upto(q)
  }

  /** Call `p` has run out of retries, with no more writes by others than attempts. */
  predicate Spent(n: int, t: seq<Action>, p: nat, k: Key, evt: Event) {
    && k.MachineKey? && p in Run(n, t).procs
    && Run(n, t).procs[p] == Tx(k.id, k.cfg, evt, TxDone(RetriesExceeded)) && Interference(n, t, p) <= TX_ATTEMPTS
  }

  lemma NextRound(n: int, t: seq<Action>, p: nat, q: nat, k: Key, evt: Event, plan: Plan, i: nat)
    returns (t': seq<Action>)
    requires i < TX_ATTEMPTS && Due(n, t, p, q, k, evt, plan, i)
    ensures if i + 1 < TX_ATTEMPTS then Due(n, t', p, q + 1, k, evt, plan.(ver := plan.ver + 1), i + 1)
            else Spent(n, t', p, k, evt)
  {
    t' := RoundRun(n, t, p, q, k, evt, plan, i);
    assert Upto(q) + {p, q} == Upto(q + 1);
  }

  /** Every attempt from number `i` on is written over, by calls numbered from `q` on. */
  lemma {:induction false} Rounds(n: int, t: seq<Action>, p: nat, q: nat, k: Key, evt: Event, plan: Plan, i: nat)
    returns (trace: seq<Action>)
    requires i < TX_ATTEMPTS && Due(n, t, p, q, k, evt, plan, i)
    ensures Spent(n, trace, p, k, evt)
    decreases TX_ATTEMPTS - i
  {
    trace := NextRound(n, t, p, q, k, evt, plan, i);
    if i + 1 < TX_ATTEMPTS {
      trace := Rounds(n, trace, p, q + 1, k, evt, plan.(ver := plan.ver + 1), i + 1);
    }
  }

  lemma NotFewer(n: int, trace: seq<Action>, p: nat, k: Key, evt: Event)
    requires Spent(n, trace, p, k, evt)
    ensures Exhausted(n, trace, p, k, evt)
  {
    RetriesExceededNeedsThreeWrites(n, trace, p);
  }

  lemma CallBegins(n: int, t: seq<Action>, k: Key, evt: Event, plan: Plan) returns (t': seq<Action>)
    requires k.MachineKey? && Run(n, t).procs.Keys == {0, 1} && Finds(Run(n, t), k, plan.was, plan.cfg, plan.ver)
    ensures Stands(Run(n, t'), 2, k, evt, plan, Watching(0)) && Run(n, t').procs.Keys == {0, 1, 2}
    ensures Interference(n, t', 2) == 0
  {
    var begin := Begin(2, TxProcessEvent(k.id, k.cfg, evt));
    RunsAreWellTyped(n, t);
    CallStands(Run(n, t), 2, k, evt, plan);
    RunSnoc(n, t, begin);
    NoInterferenceBeforeCall(n, t, 2);
    InterferenceSnoc(n, t, begin, 2);
    t' := t + [begin];
  }

  lemma ExhaustingRun(n: int, t: seq<Action>, k: Key, evt: Event, plan: Plan) returns (trace: seq<Action>)
    requires k.MachineKey? && Run(n, t).procs.Keys == {0, 1} && Finds(Run(n, t), k, plan.was, plan.cfg, plan.ver)
    requires SendEvent(plan.cfg, plan.was, evt) == Some(plan.next) && NameOf(plan.was.configId) == k.cfg
    ensures Exhausted(n, trace, 2, k, evt)
  {
    trace := CallBegins(n, t, k, evt, plan);
    assert Upto(3) == {0, 1, 2};
    trace := Rounds(n, trace, 2, 3, k, evt, plan, 0);
    NotFewer(n, trace, 2, k, evt);
  }

  /** Call `p` has run out of retries, and others wrote its machine exactly three times meanwhile. */
  predicate Exhausted(n: int, trace: seq<Action>, p: nat, k: Key, evt: Event) {
    && k.MachineKey? && p in Run(n, trace).procs
    && Run(n, trace).procs[p] == Tx(k.id, k.cfg, evt, TxDone(RetriesExceeded))
    && Interference(n, trace, p) == 3
  }

  /**
   The bound is tight: for every configuration with a colon-free name and every event that its machines accept in the
   starting state, some run exhausts a call with exactly three writes by others.
   */
  lemma ThreeWritesExhaustACall(n: int, c: Configuration, id: string, evt: Event)
    requires ':' !in c.name && SendEvent(c, FiniteStateMachine(VersionId(c), c.startingState, []), evt).Some?
    ensures exists trace, p :: Exhausted(n, trace, p, MachineKey(c.name, id), evt)
  {
    var k, m := MachineKey(c.name, id), FiniteStateMachine(VersionId(c), c.startingState, []);
    NameOfVersionId(c);
    CreationFinds(n, c, id);
    var plan := Plan(Ver(Run(n, Creation(c, id)).store, k), m, c, SendEvent(c, m, evt).value);
    var trace := ExhaustingRun(n, Creation(c, id), k, evt, plan);
  }
}
