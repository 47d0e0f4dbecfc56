/**
 What is promised about machines, said of the string keyspace itself: under the key that `NewKeyForMachine` builds, for
 servers whose configuration names hold no separator. For other names the promise fails, exactly where names clash.
 */
module FlatRuns {
  import opened Strings
  import opened Fsm
  import opened Keys
  import opened KeyClashes
  import opened Redis
  import opened Server
  import opened Atomicity
  import opened Updates
  import opened Calls
  import opened Configs
  import opened Catalog
  import opened AtomicCommits
  import opened Flat

  // ---------------------------------------------------------------- what a flat run wrote

  /** The write to a machine or a configuration that takes effect in one step. */
  function FlatEmit(s: State<string>, a: Action): seq<Write> {
    if a.Begin? || !Live(s, a.p) || !Executed(a.d) then [] else
      match NextCmd(s.procs[a.p])
      case Set(k, Machine(fsm)) => [MachinePut(a.p, k, fsm)]
      case Set(k, Config(c)) => [ConfigPut(a.p, k, c)]
      case Exec(k, ver, _) =>
        if Ver(s.store, Encode(k)) == ver
        then [MachineSend(a.p, k, s.procs[a.p].tx.plan.cfg, s.procs[a.p].evt)] else []
      case _ => []
  }

  function FlatLog(n: int, trace: seq<Action>): seq<Write> {
    if trace == [] then [] else FlatLog(n, Front(trace)) + FlatEmit(FlatRun(n, Front(trace)), Last(trace))
  }

  lemma SafePrefix(trace: seq<Action>, i: nat)
    requires SafeRun(trace) && i <= |trace|
    ensures SafeRun(trace[..i]) && NamedRun(trace[..i])
  {
    forall j | 0 <= j < i ensures SafeAction(trace[..i][j]) && NamedAction(trace[..i][j]) {
      assert SafeAction(trace[j]);
    }
  }

  lemma EmitsTheSame(n: int, trace: seq<Action>, a: Action)
    requires SafeRun(trace)
    ensures FlatEmit(FlatRun(n, trace), a) == Emit(Run(n, trace), a)
  {
    var s, f := Run(n, trace), FlatRun(n, trace);
    FlatRunsInLockstep(n, trace);
    SafePrefix(trace, |trace|);
    assert trace[..|trace|] == trace;
    ConfigurationsAreStoredUnderTheirIds(n, trace);
    if a.Go? && Live(s, a.p) {
      NextKeyIsSafe(s.store, s.procs[a.p]);
      assert AgreeAt(s.store, f.store, NextCmd(s.procs[a.p]).k);
    }
  }

  lemma {:induction false} LogsTheSame(n: int, trace: seq<Action>)
    requires SafeRun(trace)
    ensures FlatLog(n, trace) == LogOf(n, trace)
  {
    if trace != [] {
      SafePrefix(trace, |trace| - 1);
      LogsTheSame(n, Front(trace));
      EmitsTheSame(n, Front(trace), Last(trace));
    }
  }

  /** Under the key of a safe machine or configuration the flat store holds what the typed store holds. */
  lemma SameRecords(n: int, trace: seq<Action>, k: Key)
    requires SafeRun(trace) && Safe(k)
    ensures MachineAt(FlatRun(n, trace).store, Encode(k)) == MachineAt(Run(n, trace).store, k)
    ensures ConfigAt(FlatRun(n, trace).store, Encode(k)) == ConfigAt(Run(n, trace).store, k)
    ensures FlatRun(n, trace).procs == Run(n, trace).procs
  {
    FlatRunsInLockstep(n, trace);
    assert AgreeAt(Run(n, trace).store, FlatRun(n, trace).store, k);
  }

  // ---------------------------------------------------------------- the promises

  /** Each string key of a safe entity holds that entity's kind of value. */
  lemma FlatRunsAreWellTyped(n: int, trace: seq<Action>, k: Key)
    requires SafeRun(trace) && Safe(k) && Encode(k) in FlatRun(n, trace).store.data
    ensures Typed(k, FlatRun(n, trace).store.data[Encode(k)])
  {
    FlatRunsInLockstep(n, trace);
    RunsAreWellTyped(n, trace);
    assert AgreeAt(Run(n, trace).store, FlatRun(n, trace).store, k);
  }

  /**
   The refinement on string keys: each machine and configuration is what the atomic machine holds, and every write
   was allowed.
   */
  lemma FlatRunRefinesAtomicMachine(n: int, trace: seq<Action>)
    requires SafeRun(trace)
    ensures Legal(FlatLog(n, trace))
    ensures var f, spec := FlatRun(n, trace).store, Replay(FlatLog(n, trace));
            forall k :: Safe(k) ==>
              && MachineAt(f, Encode(k)) == (if k in spec.machines then Some(spec.machines[k]) else None)
              && ConfigAt(f, Encode(k)) == (if k in spec.configs then Some(spec.configs[k]) else None)
  {
    LogsTheSame(n, trace);
    RunRefinesAtomicMachine(n, trace);
    forall k | Safe(k)
      ensures MachineAt(FlatRun(n, trace).store, Encode(k)) == MachineAt(Run(n, trace).store, k)
      ensures ConfigAt(FlatRun(n, trace).store, Encode(k)) == ConfigAt(Run(n, trace).store, k)
    {
      SameRecords(n, trace, k);
    }
    forall k | Safe(k)
      ensures var f, spec := FlatRun(n, trace).store, Replay(FlatLog(n, trace));
              && MachineAt(f, Encode(k)) == (if k in spec.machines then Some(spec.machines[k]) else None)
              && ConfigAt(f, Encode(k)) == (if k in spec.configs then Some(spec.configs[k]) else None)
    {
      ViewsAgree(Run(n, trace).store, k);
    }
  }

  /** No lost updates on string keys. */
  lemma FlatNoLostUpdates(n: int, trace: seq<Action>, id: string, cfg: string)
    requires SafeRun(trace) && SeparatorFree(cfg)
    ensures var k, log := MachineKey(cfg, id), FlatLog(n, trace);
            var m := MachineAt(FlatRun(n, trace).store, NewKeyForMachine(id, cfg));
            && (m.Some? <==> Origin(log, k).Some?)
            && (forall i :: 0 <= i < |Commits(log, k)| ==> Commits(log, k)[i].MachineSend? && Commits(log, k)[i] in log)
            && (m.Some? ==>
                  && m.value == ReplayCommits(Origin(log, k).value, Commits(log, k))
                  && Carries(m.value, Origin(log, k).value, Commits(log, k)))
  {
    LogsTheSame(n, trace);
    SameRecords(n, trace, MachineKey(cfg, id));
    NoLostUpdates(n, trace, MachineKey(cfg, id));
  }

  /** Action `i` of the flat run is an EXEC of `p` that commits on machine `id` of `cfg`. */
  predicate FlatCommitAt(n: int, trace: seq<Action>, i: nat, p: nat, id: string, cfg: string)
    requires i < |trace|
  {
    var w := FlatEmit(FlatRun(n, trace[..i]), trace[i]);
    trace[i].p == p && w != [] && w[0].MachineSend? && w[0].k == MachineKey(cfg, id)
  }

  /** Between the two stores, the machine took `evt` under `c`; no other machine and no configuration changed. */
  ghost predicate FlatOneSend(
      r: Redis<string>, r': Redis<string>, id: string, cfg: string, c: Configuration, evt: Event)
  {
    var key := NewKeyForMachine(id, cfg);
    && MachineAt(r, key).Some?
    && SendEvent(c, MachineAt(r, key).value, evt).Some?
    && MachineAt(r', key) == SendEvent(c, MachineAt(r, key).value, evt)
    && (forall k :: Safe(k) && k != MachineKey(cfg, id) ==> MachineAt(r', Encode(k)) == MachineAt(r, Encode(k)))
    && (forall k :: Safe(k) ==> ConfigAt(r', Encode(k)) == ConfigAt(r, Encode(k)))
  }

  /**
   While call `p` was in progress, the machine under `key` was `m` and then, or at once, its configuration was `c`.
   */
  ghost predicate FlatLookedUp(n: int, trace: seq<Action>, p: nat, key: string, m: FiniteStateMachine,
      c: Configuration) {
    exists i: nat, j: nat :: i <= j <= |trace| && FlatHeld(n, trace, i, p, key, m) && FlatRead(n, trace, j, p, m, c)
  }

  predicate FlatHeld(n: int, trace: seq<Action>, i: nat, p: nat, key: string, m: FiniteStateMachine)
    requires i <= |trace|
  {
    Live(FlatRun(n, trace[..i]), p) && MachineAt(FlatRun(n, trace[..i]).store, key) == Some(m)
  }

  predicate FlatRead(n: int, trace: seq<Action>, j: nat, p: nat, m: FiniteStateMachine, c: Configuration)
    requires j <= |trace|
  {
    Live(FlatRun(n, trace[..j]), p) && ConfigAt(FlatRun(n, trace[..j]).store, NewKeyForConfig(m.configId)) == Some(c)
  }

  lemma LookedUpIsFlat(
      n: int, trace: seq<Action>, p: nat, id: string, cfg: string, m: FiniteStateMachine, c: Configuration)
    requires SafeRun(trace) && SeparatorFree(cfg) && LookedUp(n, trace, p, MachineKey(cfg, id), m, Some(c))
    ensures FlatLookedUp(n, trace, p, NewKeyForMachine(id, cfg), m, c)
  {
    var i: nat, j: nat :| i <= j <= |trace| && Held(n, trace, i, p, MachineKey(cfg, id), Some(m))
      && Read(n, trace, j, p, m, Some(c));
    SafePrefix(trace, i);
    SafePrefix(trace, j);
    ConfigIdKey(m.configId);
    SameRecords(n, trace[..i], MachineKey(cfg, id));
    SameRecords(n, trace[..j], KeyForConfigId(m.configId));
    assert FlatHeld(n, trace, i, p, NewKeyForMachine(id, cfg), m) && FlatRead(n, trace, j, p, m, c);
  }

  /** A commit on string keys is one `SendEvent` on the record stored at that instant. */
  lemma FlatCommitIsOneSend(n: int, trace: seq<Action>, i: nat, p: nat, id: string, cfg: string)
    requires SafeRun(trace) && SeparatorFree(cfg) && i < |trace| && FlatCommitAt(n, trace, i, p, id, cfg)
    ensures var f, f' := FlatRun(n, trace[..i]), FlatRun(n, trace[..i + 1]);
            && p in f.procs && f.procs[p].Tx? && f.procs[p].id == id && f.procs[p].cfg == cfg
            && exists c ::
                 && FlatOneSend(f.store, f'.store, id, cfg, c, f.procs[p].evt)
                 && FlatLookedUp(n, trace[..i], p, NewKeyForMachine(id, cfg),
                                 MachineAt(f.store, NewKeyForMachine(id, cfg)).value, c)
                 && var configId := MachineAt(f.store, NewKeyForMachine(id, cfg)).value.configId;
                    && WasStored(FlatLog(n, trace[..i]), KeyForConfigId(configId), c)
                    && (CheckedRun(n, trace[..i]) ==> ConfigAt(f.store, NewKeyForConfig(configId)) == Some(c))
  {
    var k := MachineKey(cfg, id);
    SafePrefix(trace, i);
    SafePrefix(trace, i + 1);
    EmitsTheSame(n, trace[..i], trace[i]);
    LogsTheSame(n, trace[..i]);
    assert CommitAt(n, trace, i, p, k);
    CommitIsOneSend(n, trace, i, p, k);
    SameRecords(n, trace[..i], k);
    var s, s' := Run(n, trace[..i]), Run(n, trace[..i + 1]);
    var c :|
      && OneSend(s.store, s'.store, k, c, s.procs[p].evt)
      && LookedUp(n, trace[..i], p, k, MachineAt(s.store, k).value, Some(c))
      && var key := KeyForConfigId(MachineAt(s.store, k).value.configId);
         && WasStored(LogOf(n, trace[..i]), key, c)
         && (CheckedRun(n, trace[..i]) ==> ConfigAt(s.store, key) == Some(c));
    OneSendIsFlat(n, trace, i, id, cfg, c, s.procs[p].evt);
    LookedUpIsFlat(n, trace[..i], p, id, cfg, MachineAt(s.store, k).value, c);
    var configId := MachineAt(s.store, k).value.configId;
    ConfigIdKey(configId);
    SameRecords(n, trace[..i], KeyForConfigId(configId));
  }

  lemma OneSendIsFlat(n: int, trace: seq<Action>, i: nat, id: string, cfg: string, c: Configuration, evt: Event)
    requires i < |trace| && SafeRun(trace[..i]) && SafeRun(trace[..i + 1]) && SeparatorFree(cfg)
    requires OneSend(Run(n, trace[..i]).store, Run(n, trace[..i + 1]).store, MachineKey(cfg, id), c, evt)
    ensures FlatOneSend(FlatRun(n, trace[..i]).store, FlatRun(n, trace[..i + 1]).store, id, cfg, c, evt)
  {
    var r, r' := FlatRun(n, trace[..i]).store, FlatRun(n, trace[..i + 1]).store;
    SameRecords(n, trace[..i], MachineKey(cfg, id));
    SameRecords(n, trace[..i + 1], MachineKey(cfg, id));
    forall k | Safe(k)
      ensures k != MachineKey(cfg, id) ==> MachineAt(r', Encode(k)) == MachineAt(r, Encode(k))
      ensures ConfigAt(r', Encode(k)) == ConfigAt(r, Encode(k))
    {
      SameRecords(n, trace[..i], k);
      SameRecords(n, trace[..i + 1], k);
    }
  }

  // ---------------------------------------------------------------- names that clash

  /** All calls of the run put machines of configuration `m`. */
  ghost predicate OnlyPuts(trace: seq<Action>, m: string) {
    forall i :: 0 <= i < |trace| && trace[i].Begin? ==>
      trace[i].call.PutStateMachine? && NameOf(trace[i].call.fsm.configId) == m
  }

  ghost predicate OnlyMachinesOf(s: State<string>, m: string) {
    && (forall p :: p in s.procs ==> s.procs[p].Save? && s.procs[p].k.MachineKey? && s.procs[p].k.cfg == m)
    && (forall key :: key in s.store.data ==> exists id :: key == NewKeyForMachine(id, m))
  }

  lemma {:induction false} OnlyMachinesArePut(n: int, trace: seq<Action>, m: string)
    requires OnlyPuts(trace, m)
    ensures OnlyMachinesOf(FlatRun(n, trace), m)
  {
    if trace != [] {
      var pre, a := Front(trace), Last(trace);
      OnlyMachinesArePut(n, pre, m);
      var s, s' := FlatRun(n, pre), FlatRun(n, trace);
      forall key | key in s'.store.data ensures exists id :: key == NewKeyForMachine(id, m) {
        if key !in s.store.data {
          assert key == NewKeyForMachine(s.procs[a.p].k.id, m);
        }
      }
    }
  }

  lemma OnePut(n: int, id: string, fsm: FiniteStateMachine) returns (trace: seq<Action>)
    ensures OnlyPuts(trace, NameOf(fsm.configId))
    ensures MachineAt(FlatRun(n, trace).store, NewKeyForMachine(id, NameOf(fsm.configId))) == Some(fsm)
  {
    var begin, go := Begin(0, PutStateMachine(id, fsm)), Go(0, Delivered);
    trace := [begin, go];
    assert Front(trace) == [begin] && Front([begin]) == [];
    assert FlatRun(n, [begin]) == FlatStep(Init(n), begin);
    assert FlatRun(n, trace) == FlatStep(FlatRun(n, [begin]), go);
  }

  /**
   Where the promise ends: putting machines of `m` alone can bring a machine of another name `n` into being, which was
   never put, if and only if the two names clash.
   */
  lemma PutsReachOtherNameIff(r: int, n: string, m: string)
    requires n != m && ':' !in m
    ensures (exists trace, id ::
               OnlyPuts(trace, m) && MachineAt(FlatRun(r, trace).store, NewKeyForMachine(id, n)).Some?)
            <==> Clash(Machines(n), Machines(m))
  {
    KeysMeetIff(Machines(n), Machines(m));
    if trace, id :| OnlyPuts(trace, m) && MachineAt(FlatRun(r, trace).store, NewKeyForMachine(id, n)).Some? {
      OnlyMachinesArePut(r, trace, m);
      var id' :| NewKeyForMachine(id, n) == NewKeyForMachine(id', m);
      MeetingKeysClash(MachineKey(n, id), MachineKey(m, id'));
    }
    if Meet(Machines(n), Machines(m)) {
      var k, l :| PlaceOf(k) == Machines(n) && PlaceOf(l) == Machines(m) && k != l && Encode(k) == Encode(l);
      SplitJoin(m, ':', "v");
      var trace := OnePut(r, l.id, FiniteStateMachine(m + ":" + "v", "s", []));
      assert NewKeyForMachine(k.id, n) == NewKeyForMachine(l.id, m);
    }
  }
}
