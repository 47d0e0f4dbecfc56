/**
 Configurations: what is stored stays stored, is never replaced, and is listed; and every machine
 created through the API refers to a configuration that is there.
 */
module Configs {
  import opened Strings
  import opened Fsm
  import opened Keys
  import opened Redis
  import opened Server
  import opened Atomicity

  // ---------------------------------------------------------------- configurations under their own id

  /** Every configuration name is free of the version separator. */
  ghost predicate NamedRun(trace: seq<Action>) {
    forall i :: 0 <= i < |trace| ==> NamedAction(trace[i])
  }

  predicate NamedAction(a: Action) {
    a.Begin? && a.call.PutConfig? ==> ':' !in a.call.config.name
  }

  /** Machines are created through `PutFiniteStateMachine` only, never by a bare `PutStateMachine`. */
  ghost predicate ApiRun(trace: seq<Action>) {
    forall i :: 0 <= i < |trace| ==> ApiAction(trace[i])
  }

  predicate ApiAction(a: Action) {
    a.Begin? ==> !a.call.PutStateMachine?
  }

  predicate OwnId(k: Key, c: Configuration) {
    k == ConfigKey(c.name, c.version) && ':' !in c.name
  }

  /** The configuration that `configId` names is stored, carries that id, and is called `name`. */
  predicate Refers(r: Redis<Key>, configId: string, name: string) {
    var c := ConfigAt(r, KeyForConfigId(configId));
    c.Some? && VersionId(c.value) == configId && c.value.name == name == NameOf(configId)
  }

  predicate CreateRefers(r: Redis<Key>, proc: Proc) {
    proc.Create? && (proc.create.Storing? || proc.create.Indexing?) ==>
      proc.create.machine.configId == proc.fsm.configId && Refers(r, proc.fsm.configId, proc.create.name)
  }

  ghost predicate Named(s: State<Key>) {
    && (forall p :: p in s.procs && s.procs[p].Configure? ==> ':' !in s.procs[p].config.name)
    && (forall p :: p in s.procs ==> CreateRefers(s.store, s.procs[p]))
    && (forall k :: ConfigAt(s.store, k).Some? ==> OwnId(k, ConfigAt(s.store, k).value))
  }

  lemma StoredUnderOwnId(r: Redis<Key>, configId: string)
    requires var k := KeyForConfigId(configId); ConfigAt(r, k).Some? ==> OwnId(k, ConfigAt(r, k).value)
    ensures ConfigAt(r, KeyForConfigId(configId)).Some? ==> Refers(r, configId, NameOf(configId))
  {
    var k := KeyForConfigId(configId);
    if ConfigAt(r, k).Some? {
      JoinSplit(configId, ':');
    }
  }

  /** A stored configuration can only be replaced by one that has the same id. */
  lemma RefersSurvives(s: State<Key>, a: Action, configId: string, name: string)
    requires Named(s) && WellTyped(s) && Refers(s.store, configId, name)
    ensures Refers(Step(s, a).store, configId, name)
  {
    var k := KeyForConfigId(configId);
    ConfigChange(s, a, k);
    if ConfigAt(Step(s, a).store, k) != ConfigAt(s.store, k) {
      VersionIdKey(s.procs[a.p].config);
    }
  }

  lemma CreateAdvances(s: State<Key>, proc: Proc, d: Delivery)
    requires Named(s) && proc.Create? && !IsDone(proc) && CreateRefers(s.store, proc)
    ensures CreateRefers(s.store, Advance(s.maxRetries, proc, Seen(s.store, NextCmd(proc), d)))
  {
    StoredUnderOwnId(s.store, proc.fsm.configId);
  }

  lemma CreateStillRefers(s: State<Key>, a: Action, p: nat)
    requires Named(s) && WellTyped(s) && p in Step(s, a).procs
    ensures CreateRefers(Step(s, a).store, Step(s, a).procs[p])
  {
    var proc := Step(s, a).procs[p];
    if p in s.procs {
      assert CreateRefers(s.store, s.procs[p]);
      if a.Go? && a.p == p && Live(s, p) && proc.Create? {
        CreateAdvances(s, s.procs[p], a.d);
      }
      assert CreateRefers(s.store, proc);
      if proc.Create? && (proc.create.Storing? || proc.create.Indexing?) {
        RefersSurvives(s, a, proc.fsm.configId, proc.create.name);
      }
    }
  }

  lemma NamedStep(s: State<Key>, a: Action)
    requires Named(s) && WellTyped(s) && NamedAction(a)
    ensures Named(Step(s, a))
  {
    var s' := Step(s, a);
    forall p | p in s'.procs ensures CreateRefers(s'.store, s'.procs[p]) {
      CreateStillRefers(s, a, p);
    }
    forall k | ConfigAt(s'.store, k).Some? ensures OwnId(k, ConfigAt(s'.store, k).value) {
      ConfigChange(s, a, k);
      if ConfigAt(s'.store, k) != ConfigAt(s.store, k) {
        VersionIdKey(s.procs[a.p].config);
      }
    }
  }

  /** Every stored configuration is stored under its own version id, and creating calls hold on to one that is there. */
  lemma {:induction false} ConfigurationsAreStoredUnderTheirIds(n: int, trace: seq<Action>)
    requires NamedRun(trace)
    ensures Named(Run(n, trace))
  {
    if trace != [] {
      ConfigurationsAreStoredUnderTheirIds(n, Front(trace));
      RunsAreWellTyped(n, Front(trace));
      assert NamedAction(Last(trace));
      NamedStep(Run(n, Front(trace)), Last(trace));
    }
  }

  // ---------------------------------------------------------------- any names

  lemma ConfigIdsKeptApart(a: string, b: string)
    requires KeyForConfigId(a) == KeyForConfigId(b)
    ensures a == b
  {
    ConfigIdKey(a);
    ConfigIdKey(b);
    var prefix := CONFIGS_PREFIX + "#";
    assert NewKeyForConfig(a)[|prefix|..] == a && NewKeyForConfig(b)[|prefix|..] == b;
  }

  /** The record of a machine goes under the part of its configuration's name before the first `:`. */
  lemma NameOfVersionId(c: Configuration)
    ensures NameOf(VersionId(c)) == Before(c.name, ':')
    ensures ':' !in NameOf(VersionId(c))
    ensures NameOf(VersionId(c)) == c.name <==> ':' !in c.name
  {
    VersionIdNamesItsConfiguration(c);
    if ':' in c.name {
      JoinSplit(c.name, ':');
      var a, b := Before(c.name, ':'), After(c.name, ':');
      assert VersionId(c) == a + [':'] + (b + [':'] + c.version);
      SplitJoin(a, ':', b + [':'] + c.version);
    } else {
      assert Before(c.name, ':') == c.name;
    }
  }

  /** A configuration with this id is stored. */
  predicate HasConfig(r: Redis<Key>, configId: string) {
    var c := ConfigAt(r, KeyForConfigId(configId));
    c.Some? && VersionId(c.value) == configId
  }

  predicate CreateFiled(r: Redis<Key>, proc: Proc) {
    proc.Create? && (proc.create.Storing? || proc.create.Indexing?) ==>
      && proc.create.machine.configId == proc.fsm.configId && HasConfig(r, proc.fsm.configId)
      && Before(proc.create.name, ':') == NameOf(proc.fsm.configId)
  }

  ghost predicate Filed(s: State<Key>) {
    && (forall k :: ConfigAt(s.store, k).Some? ==> k == ConfigurationKey(ConfigAt(s.store, k).value))
    && (forall p :: p in s.procs ==> CreateFiled(s.store, s.procs[p]))
  }

  lemma ConfigStays(s: State<Key>, a: Action, configId: string)
    requires WellTyped(s) && HasConfig(s.store, configId)
    ensures HasConfig(Step(s, a).store, configId)
  {
    ConfigChange(s, a, KeyForConfigId(configId));
    if ConfigAt(Step(s, a).store, KeyForConfigId(configId)) != ConfigAt(s.store, KeyForConfigId(configId)) {
      ConfigIdsKeptApart(configId, VersionId(s.procs[a.p].config));
    }
  }

  lemma CreateStaysFiled(s: State<Key>, a: Action, p: nat)
    requires Filed(s) && WellTyped(s) && p in Step(s, a).procs
    ensures CreateFiled(Step(s, a).store, Step(s, a).procs[p])
  {
    var proc := Step(s, a).procs[p];
    if p in s.procs && proc.Create? && (proc.create.Storing? || proc.create.Indexing?) {
      assert CreateFiled(s.store, s.procs[p]);
      CreateMoves(s, a, p);
      if s.procs[p].create.LookingUp? {
        var c := ConfigAt(s.store, KeyForConfigId(proc.fsm.configId)).value;
        ConfigIdsKeptApart(proc.fsm.configId, VersionId(c));
        NameOfVersionId(c);
      }
      ConfigStays(s, a, proc.fsm.configId);
    }
  }

  /** A creating call takes the name from the configuration it looks up, and keeps it. */
  lemma CreateMoves(s: State<Key>, a: Action, p: nat)
    requires p in s.procs && Step(s, a).procs[p].Create?
    requires Step(s, a).procs[p].create.Storing? || Step(s, a).procs[p].create.Indexing?
    ensures s.procs[p].Create? && s.procs[p].fsm == Step(s, a).procs[p].fsm
    ensures var pc, pc', fsm := s.procs[p].create, Step(s, a).procs[p].create, s.procs[p].fsm;
            if pc.LookingUp?
            then var c := ConfigAt(s.store, KeyForConfigId(fsm.configId));
                 c.Some? && pc'.name == c.value.name && pc'.machine.configId == fsm.configId
            else (pc.Storing? || pc.Indexing?) && pc'.name == pc.name && pc'.machine == pc.machine
  {
  }

  lemma {:induction false} RunsAreFiled(n: int, trace: seq<Action>)
    ensures Filed(Run(n, trace))
  {
    if trace != [] {
      var s, a := Run(n, Front(trace)), Last(trace);
      RunsAreFiled(n, Front(trace));
      RunsAreWellTyped(n, Front(trace));
      forall p | p in Step(s, a).procs ensures CreateFiled(Step(s, a).store, Step(s, a).procs[p]) {
        CreateStaysFiled(s, a, p);
      }
      forall k | ConfigAt(Step(s, a).store, k).Some?
        ensures k == ConfigurationKey(ConfigAt(Step(s, a).store, k).value)
      {
        ConfigChange(s, a, k);
      }
    }
  }

  /** Machine records sit under names without `:` only, whatever names configurations have. */
  ghost predicate RecordsUnderPlainNames(s: State<Key>) {
    && (forall p :: p in s.procs && s.procs[p].Save? && s.procs[p].v.Machine? ==>
          s.procs[p].k.MachineKey? && ':' !in s.procs[p].k.cfg)
    && (forall k :: MachineAt(s.store, k).Some? ==> k.MachineKey? && ':' !in k.cfg)
  }

  lemma {:induction false} NoRecordUnderColon(n: int, trace: seq<Action>)
    ensures RecordsUnderPlainNames(Run(n, trace))
  {
    if trace != [] {
      var s, a := Run(n, Front(trace)), Last(trace);
      NoRecordUnderColon(n, Front(trace));
      RunsAreWellTyped(n, Front(trace));
      RunsAreLocked(n, Front(trace));
      forall k | MachineAt(Step(s, a).store, k).Some? ensures k.MachineKey? && ':' !in k.cfg {
        MachineChange(s, a, k);
        if MachineAt(Step(s, a).store, k) != MachineAt(s.store, k) && s.procs[a.p].Tx? {
          assert AttemptOk(s.store, k, s.procs[a.p].evt, s.procs[a.p].tx);
        }
      }
    }
  }

  // ---------------------------------------------------------------- referential integrity

  /** The machine's configuration is stored; its name is the one in the machine's key exactly if it has no `:`. */
  predicate Belongs(r: Redis<Key>, k: Key, m: FiniteStateMachine) {
    && k.MachineKey? && HasConfig(r, m.configId) && k.cfg == NameOf(m.configId)
    && var c := ConfigAt(r, KeyForConfigId(m.configId)).value; (c.name == k.cfg <==> ':' !in c.name)
  }

  lemma BelongsIf(r: Redis<Key>, k: Key, m: FiniteStateMachine)
    requires k.MachineKey? && HasConfig(r, m.configId) && k.cfg == NameOf(m.configId)
    ensures Belongs(r, k, m)
  {
    NameOfVersionId(ConfigAt(r, KeyForConfigId(m.configId)).value);
  }

  ghost predicate Integrity(s: State<Key>) {
    && (forall p :: p in s.procs && s.procs[p].Save? ==> !s.procs[p].v.Machine?)
    && (forall k :: MachineAt(s.store, k).Some? ==> Belongs(s.store, k, MachineAt(s.store, k).value))
  }

  lemma IntegrityOfMachines(s: State<Key>, a: Action, k: Key)
    requires Integrity(s) && Filed(s) && WellTyped(s) && Locked(s) && MachineAt(Step(s, a).store, k).Some?
    ensures Belongs(Step(s, a).store, k, MachineAt(Step(s, a).store, k).value)
  {
    var m := MachineAt(Step(s, a).store, k).value;
    MachineChange(s, a, k);
    if MachineAt(s.store, k) != Some(m) {
      var proc := s.procs[a.p];
      assert CreateFiled(s.store, proc);
      if proc.Tx? {
        assert AttemptOk(s.store, MachineOf(proc), proc.evt, proc.tx);
      }
    }
    ConfigStays(s, a, m.configId);
    BelongsIf(Step(s, a).store, k, m);
  }

  /**
   Referential integrity: in every run through the API, whatever interleaves, whatever is lost and whatever names
   configurations have, each stored machine names a stored configuration whose version id is the machine's
   configuration id. The name in the machine's key is that configuration's name if and only if the name has no `:`;
   where all names are free of it, it always is.
   */
  lemma MachinesReferToConfigurations(n: int, trace: seq<Action>)
    requires ApiRun(trace)
    ensures Integrity(Run(n, trace))
    ensures NamedRun(trace) ==>
              forall k :: MachineAt(Run(n, trace).store, k).Some? ==>
                k.MachineKey? && Refers(Run(n, trace).store, MachineAt(Run(n, trace).store, k).value.configId, k.cfg)
  {
    ApiRunsHaveIntegrity(n, trace);
    if NamedRun(trace) {
      ConfigurationsAreStoredUnderTheirIds(n, trace);
    }
  }

  lemma {:induction false} ApiRunsHaveIntegrity(n: int, trace: seq<Action>)
    requires ApiRun(trace)
    ensures Integrity(Run(n, trace))
  {
    if trace != [] {
      var s, a := Run(n, Front(trace)), Last(trace);
      assert ApiAction(Last(trace));
      ApiRunsHaveIntegrity(n, Front(trace));
      RunsAreFiled(n, Front(trace));
      RunsAreLocked(n, Front(trace));
      RunsAreWellTyped(n, Front(trace));
      forall k | MachineAt(Step(s, a).store, k).Some?
        ensures Belongs(Step(s, a).store, k, MachineAt(Step(s, a).store, k).value)
      {
        IntegrityOfMachines(s, a, k);
      }
    }
  }
}
