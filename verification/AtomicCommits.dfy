/** What a commit is, seen from the store alone. */
module AtomicCommits {
  import opened Strings
  import opened Fsm
  import opened Keys
  import opened Redis
  import opened Server
  import opened Atomicity
  import opened Updates
  import opened Calls
  import opened Catalog

  /** Between the two stores, machine `k` took `evt` under `c`, and no other machine or configuration changed. */
  ghost predicate OneSend(r: Redis<Key>, r': Redis<Key>, k: Key, c: Configuration, evt: Event) {
    && MachineAt(r, k).Some?
    && SendEvent(c, MachineAt(r, k).value, evt).Some?
    && MachineAt(r', k) == SendEvent(c, MachineAt(r, k).value, evt)
    && (forall j :: j != k ==> MachineAt(r', j) == MachineAt(r, j))
    && (forall j :: ConfigAt(r', j) == ConfigAt(r, j))
  }

  lemma SnapshotStep(n: int, trace: seq<Action>, i: nat)
    requires i < |trace|
    ensures Run(n, trace[..i + 1]) == Step(Run(n, trace[..i]), trace[i])
  {
    assert Front(trace[..i + 1]) == trace[..i] && Last(trace[..i + 1]) == trace[i];
  }

  lemma ViewsAgree(r: Redis<Key>, j: Key)
    ensures MachineAt(r, j) == if j in View(r).machines then Some(View(r).machines[j]) else None
    ensures ConfigAt(r, j) == if j in View(r).configs then Some(View(r).configs[j]) else None
  {
  }

  /**
   However many calls interleave, a committing EXEC of `p` is one `SendEvent` of its event on the record stored at
   that very instant, under a configuration that was stored for that record while the call was in progress. Where
   existence checks are answered and puts of one id do not overlap, it is the configuration stored at that instant.
   */
  lemma CommitIsOneSend(n: int, trace: seq<Action>, i: nat, p: nat, k: Key)
    requires i < |trace| && CommitAt(n, trace, i, p, k)
    ensures var s, s' := Run(n, trace[..i]), Run(n, trace[..i + 1]);
            && p in s.procs && s.procs[p].Tx? && MachineOf(s.procs[p]) == k
            && exists c ::
                 && OneSend(s.store, s'.store, k, c, s.procs[p].evt)
                 && LookedUp(n, trace[..i], p, k, MachineAt(s.store, k).value, Some(c))
                 && var key := KeyForConfigId(MachineAt(s.store, k).value.configId);
                    && WasStored(LogOf(n, trace[..i]), key, c)
                    && (CheckedRun(n, trace[..i]) ==> ConfigAt(s.store, key) == Some(c))
  {
    var pre := trace[..i];
    var s := Run(n, pre);
    SnapshotStep(n, trace, i);
    RunsAreLocked(n, pre);
    RunsAreWellTyped(n, pre);
    RunRefinesAtomicMachine(n, pre);
    StepIsAtomic(s, trace[i]);
    var c := s.procs[p].tx.plan.cfg;
    forall j ensures j != k ==> MachineAt(Step(s, trace[i]).store, j) == MachineAt(s.store, j) {
      ViewsAgree(s.store, j);
      ViewsAgree(Step(s, trace[i]).store, j);
    }
    forall j ensures ConfigAt(Step(s, trace[i]).store, j) == ConfigAt(s.store, j) {
      ViewsAgree(s.store, j);
      ViewsAgree(Step(s, trace[i]).store, j);
    }
    PlansWereRead(n, pre, p);
    if CheckedRun(n, pre) {
      EveryStoredConfigurationIsCurrent(n, pre, KeyForConfigId(MachineAt(s.store, k).value.configId), c);
    }
    assert OneSend(s.store, Step(s, trace[i]).store, k, c, s.procs[p].evt);
  }
}
