/**
 One call at a time, as a single listener on an otherwise idle store makes them: such runs meet the conditions
 under which the sets of machines by state are exact.
 */
module Serial {
  import opened Keys
  import opened Redis
  import opened Server
  import opened Atomicity
  import opened Configs
  import opened IndexExactness

  ghost predicate Quiet(s: State<Key>) {
    forall p :: p in s.procs ==> IsDone(s.procs[p])
  }

  /** A call begins only when none is in progress, no machine is put twice, and every command is answered. */
  ghost predicate SerialStep(s: State<Key>, a: Action) {
    match a
    case Begin(p, call) =>
      && (p in s.procs || Quiet(s))
      && !call.PutStateMachine?
      && (call.PutFiniteStateMachine? ==>
            forall q :: q in s.procs && s.procs[q].Create? ==>
              CreatedKey(s.procs[q].id, s.procs[q].fsm) != CreatedKey(call.id, call.fsm))
    case Go(_, d) => d.Delivered?
  }

  ghost predicate SerialRun(n: int, trace: seq<Action>) {
    trace == [] || (SerialRun(n, Front(trace)) && SerialStep(Run(n, Front(trace)), Last(trace)))
  }

  /** The version an attempt watched is still the machine's. */
  predicate Current(r: Redis<Key>, proc: Proc) {
    proc.Tx? ==>
      && (proc.tx.ReadingMachine? || proc.tx.ReadingConfig? ==> proc.tx.ver == Ver(r, MachineOf(proc)))
      && (HasPlan(proc.tx) ==> proc.tx.plan.ver == Ver(r, MachineOf(proc)))
  }

  ghost predicate Alone(s: State<Key>) {
    && (forall p, q :: Live(s, p) && Live(s, q) ==> p == q)
    && (forall p :: Live(s, p) ==> Current(s.store, s.procs[p]))
  }

  lemma AloneStep(s: State<Key>, a: Action)
    requires Alone(s) && SerialStep(s, a)
    ensures Alone(Step(s, a))
  {
    var s' := Step(s, a);
    forall p | Live(s', p) ensures Current(s'.store, s'.procs[p]) {
      if a.Go? && Live(s, a.p) {
        assert Live(s, p);
      }
    }
    forall p, q | Live(s', p) && Live(s', q) ensures p == q {
      if a.Go? {
        assert Live(s, p) && Live(s, q);
      }
    }
  }

  lemma SerialStepIsClean(s: State<Key>, a: Action)
    requires Alone(s) && SerialStep(s, a) && WellTyped(s)
    ensures CleanStep(s, a)
  {
  }

  lemma {:induction false} SerialRunsAreClean(n: int, trace: seq<Action>)
    requires SerialRun(n, trace)
    ensures CleanRun(n, trace) && Alone(Run(n, trace))
  {
    if trace != [] {
      SerialRunsAreClean(n, Front(trace));
      RunsAreWellTyped(n, Front(trace));
      AloneStep(Run(n, Front(trace)), Last(trace));
      SerialStepIsClean(Run(n, Front(trace)), Last(trace));
    }
  }

  /**
   Between the calls of such a run, the set of any state holds exactly the machines a full scan finds in that state.
   */
  lemma SerialQueriesAreScans(n: int, trace: seq<Action>, cfg: string, x: string)
    requires SerialRun(n, trace) && NamedRun(trace) && Quiet(Run(n, trace)) && x != ""
    ensures MembersOf(Run(n, trace).store, StateKey(cfg, x)) == Scan(Run(n, trace).store, cfg, x)
  {
    SerialRunsAreClean(n, trace);
    forall id ensures Exact(Run(n, trace).store, MachineKey(cfg, id)) {
      IndexIsExact(n, trace, MachineKey(cfg, id));
    }
    IndexRefinesScan(Run(n, trace).store, cfg, x);
  }
}
