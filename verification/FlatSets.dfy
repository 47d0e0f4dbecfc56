/**
 What is promised about sets, said of the string keyspace: the sets of machines by state, the configurations machines
 refer to, and the listings, for servers whose configuration names hold no separator.
 */
module FlatSets {
  import opened Strings
  import opened Fsm
  import opened Keys
  import opened Redis
  import opened Server
  import opened Configs
  import opened Catalog
  import opened StateIndex
  import opened IndexExactness
  import opened Flat
  import opened FlatRuns

  lemma SameMembers(n: int, trace: seq<Action>, k: Key)
    requires SafeRun(trace) && Safe(k)
    ensures MembersOf(FlatRun(n, trace).store, Encode(k)) == MembersOf(Run(n, trace).store, k)
  {
    FlatRunsInLockstep(n, trace);
    assert AgreeAt(Run(n, trace).store, FlatRun(n, trace).store, k);
  }

  lemma SafeRunsAreNamed(trace: seq<Action>)
    requires SafeRun(trace)
    ensures NamedRun(trace)
  {
    SafePrefix(trace, |trace|);
    assert trace[..|trace|] == trace;
  }

  /** The machine of this id is in the set of machines in state `x`. */
  predicate FlatInIndex(f: Redis<string>, id: string, cfg: string, x: string) {
    id in MembersOf(f, NewKeyForMachinesByState(cfg, x))
  }

  /** At some point of the run the machine's record was `m`. */
  ghost predicate FlatEverHeld(n: int, trace: seq<Action>, id: string, cfg: string, m: FiniteStateMachine) {
    exists i: nat :: i <= |trace| && MachineAt(FlatRun(n, trace[..i]).store, NewKeyForMachine(id, cfg)) == Some(m)
  }

  /** Index soundness on string keys. */
  lemma FlatIndexIsSound(n: int, trace: seq<Action>, id: string, cfg: string, x: string)
    requires SafeRun(trace) && SeparatorFree(cfg) && FlatInIndex(FlatRun(n, trace).store, id, cfg, x)
    ensures exists m :: FlatEverHeld(n, trace, id, cfg, m) && (m.state == x || LeadsTo(FlatLog(n, trace), m, x))
  {
    var k := MachineKey(cfg, id);
    SameMembers(n, trace, StateKey(cfg, x));
    SafeRunsAreNamed(trace);
    IndexIsSound(n, trace, k, x);
    LogsTheSame(n, trace);
    var m :| EverHeld(n, trace, k, m) && (m.state == x || LeadsTo(LogOf(n, trace), m, x));
    var i: nat :| i <= |trace| && MachineAt(Run(n, trace[..i]).store, k) == Some(m);
    SafePrefix(trace, i);
    SameRecords(n, trace[..i], k);
    assert FlatEverHeld(n, trace, id, cfg, m);
  }

  /** Index exactness on string keys, under the conditions of `IndexIsExact`. */
  lemma FlatIndexIsExact(n: int, trace: seq<Action>, id: string, cfg: string, x: string)
    requires SafeRun(trace) && SeparatorFree(cfg) && CleanRun(n, trace) && Idle(Run(n, trace), MachineKey(cfg, id))
    ensures var f := FlatRun(n, trace).store;
            var m := MachineAt(f, NewKeyForMachine(id, cfg));
            FlatInIndex(f, id, cfg, x) <==> x != "" && m.Some? && m.value.state == x
  {
    var k := MachineKey(cfg, id);
    SameMembers(n, trace, StateKey(cfg, x));
    SameRecords(n, trace, k);
    SafeRunsAreNamed(trace);
    IndexIsExact(n, trace, k);
    assert InIndex(Run(n, trace).store, k, x) <==> x == StateOf(Run(n, trace).store, k) && x != "";
  }

  /** Referential integrity on string keys. */
  lemma FlatMachinesReferToConfigurations(n: int, trace: seq<Action>, id: string, cfg: string)
    requires SafeRun(trace) && ApiRun(trace) && SeparatorFree(cfg)
    ensures var f := FlatRun(n, trace).store;
            var m := MachineAt(f, NewKeyForMachine(id, cfg));
            m.Some? ==>
              var c := ConfigAt(f, NewKeyForConfig(m.value.configId));
              c.Some? && VersionId(c.value) == m.value.configId && c.value.name == cfg
  {
    var k := MachineKey(cfg, id);
    SameRecords(n, trace, k);
    SafeRunsAreNamed(trace);
    MachinesReferToConfigurations(n, trace);
    var m := MachineAt(Run(n, trace).store, k);
    if m.Some? {
      ConfigIdKey(m.value.configId);
      SameRecords(n, trace, KeyForConfigId(m.value.configId));
    }
  }

  /** What `GetAllConfigs` and `GetAllVersions` read, under the conditions of `ListingsAreExact`. */
  lemma FlatListingsAreExact(n: int, trace: seq<Action>, m: string, v: string)
    requires SafeRun(trace) && AddedRun(n, trace) && CatalogQuiet(Run(n, trace)) && ':' !in m
    ensures var f := FlatRun(n, trace).store;
            && (m in MembersOf(f, CONFIGS_PREFIX) <==> exists w :: ConfigAt(f, NewKeyForConfig(m + ":" + w)).Some?)
            && (m + ":" + v in MembersOf(f, NewKeyForConfig(m)) <==> ConfigAt(f, NewKeyForConfig(m + ":" + v)).Some?)
  {
    var r, f := Run(n, trace).store, FlatRun(n, trace).store;
    SameMembers(n, trace, NamesKey);
    SameMembers(n, trace, VersionsKey(m));
    SafeRunsAreNamed(trace);
    ListingsAreExact(n, trace, m, v);
    forall w ensures ConfigAt(f, NewKeyForConfig(m + ":" + w)) == ConfigAt(r, ConfigKey(m, w)) {
      SameRecords(n, trace, ConfigKey(m, w));
      assert Encode(ConfigKey(m, w)) == NewKeyForConfig(m + ":" + w);
    }
    if w :| ConfigAt(r, ConfigKey(m, w)).Some? {
      assert ConfigAt(f, NewKeyForConfig(m + ":" + w)).Some?;
    }
  }
}
