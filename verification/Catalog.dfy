/** The catalogue of configurations kept by `PutConfig`: never replaced, always listed, exactly listed when quiet. */
module Catalog {
  import opened Strings
  import opened Fsm
  import opened Keys
  import opened Redis
  import opened Server
  import opened Atomicity
  import opened Updates
  import opened Configs

  // ---------------------------------------------------------------- never replaced

  /** Existence checks are answered, and no `PutConfig` begins while another one for the same id is in progress. */
  ghost predicate ChecksHold(s: State<Key>, a: Action) {
    && (a.Begin? && a.call.PutConfig? && a.p !in s.procs ==>
          forall q :: Putting(s, q) ==> PutId(s, q) != ConfigurationKey(a.call.config))
    && (a.Go? && Putting(s, a.p) && s.procs[a.p].conf.Checking? ==> a.d.Delivered?)
  }

  ghost predicate CheckedRun(n: int, trace: seq<Action>) {
    trace == [] || (CheckedRun(n, Front(trace)) && ChecksHold(Run(n, Front(trace)), Last(trace)))
  }

  predicate Putting(s: State<Key>, p: nat) {
    Live(s, p) && s.procs[p].Configure?
  }

  function PutId(s: State<Key>, p: nat): Key
    requires Putting(s, p)
  {
    ConfigurationKey(s.procs[p].config)
  }

  /** The put owns its id: alone in progress, and nothing but its own configuration is stored there. */
  ghost predicate Owned(s: State<Key>) {
    && (forall p, q :: Putting(s, p) && Putting(s, q) && PutId(s, p) == PutId(s, q) ==> p == q)
    && (forall p :: Putting(s, p) && !s.procs[p].conf.Checking? ==>
          ConfigAt(s.store, PutId(s, p)) in {None, Some(s.procs[p].config)})
  }

  lemma PuttingBefore(s: State<Key>, a: Action, p: nat)
    requires p in s.procs && Putting(Step(s, a), p)
    ensures Putting(s, p) && s.procs[p].config == Step(s, a).procs[p].config
  {
  }

  lemma OneOwner(s: State<Key>, a: Action, p: nat, q: nat)
    requires Owned(s) && ChecksHold(s, a)
    requires Putting(Step(s, a), p) && Putting(Step(s, a), q) && PutId(Step(s, a), p) == PutId(Step(s, a), q)
    ensures p == q
  {
    if p in s.procs {
      PuttingBefore(s, a, p);
    }
    if q in s.procs {
      PuttingBefore(s, a, q);
    }
  }

  lemma OwnedStep(s: State<Key>, a: Action)
    requires WellTyped(s) && Owned(s) && ChecksHold(s, a)
    ensures Owned(Step(s, a))
    ensures forall k :: ConfigAt(s.store, k).Some? ==> ConfigAt(Step(s, a).store, k) == ConfigAt(s.store, k)
  {
    var s' := Step(s, a);
    forall k ensures ConfigAt(s.store, k).Some? ==> ConfigAt(s'.store, k) == ConfigAt(s.store, k) {
      ConfigChange(s, a, k);
    }
    forall p, q | Putting(s', p) && Putting(s', q) && PutId(s', p) == PutId(s', q) ensures p == q {
      OneOwner(s, a, p, q);
    }
    forall p | Putting(s', p) && !s'.procs[p].conf.Checking?
      ensures ConfigAt(s'.store, PutId(s', p)) in {None, Some(s'.procs[p].config)}
    {
      ConfigChange(s, a, PutId(s', p));
      PuttingBefore(s, a, p);
    }
  }

  /** Within such runs a configuration, once stored, is the one stored at every later point. */
  lemma {:induction false} StoredConfigurationNeverChanges(n: int, trace: seq<Action>, i: nat, k: Key)
    requires CheckedRun(n, trace) && i <= |trace|
    ensures Owned(Run(n, trace))
    ensures ConfigAt(Run(n, trace[..i]).store, k).Some? ==>
              ConfigAt(Run(n, trace).store, k) == ConfigAt(Run(n, trace[..i]).store, k)
  {
    if i == |trace| {
      assert trace[..i] == trace;
    }
    if trace != [] {
      var pre := Front(trace);
      var j := if i < |trace| then i else |pre|;
      StoredConfigurationNeverChanges(n, pre, j, k);
      RunsAreWellTyped(n, pre);
      OwnedStep(Run(n, pre), Last(trace));
      assert i < |trace| ==> pre[..i] == trace[..i];
    }
  }

  lemma {:induction false} EveryStoredConfigurationIsCurrent(n: int, trace: seq<Action>, k: Key, c: Configuration)
    requires CheckedRun(n, trace) && WasStored(LogOf(n, trace), k, c)
    ensures ConfigAt(Run(n, trace).store, k) == Some(c)
  {
    var pre, a := Front(trace), Last(trace);
    var s, log := Run(n, pre), LogOf(n, pre);
    StoredConfigurationNeverChanges(n, pre, 0, k);
    RunsAreWellTyped(n, pre);
    OwnedStep(s, a);
    var i :| 0 <= i < |LogOf(n, trace)| && LogOf(n, trace)[i].ConfigPut? && LogOf(n, trace)[i].k == k &&
      LogOf(n, trace)[i].cfg == c;
    if i < |log| {
      assert log[i] == LogOf(n, trace)[i];
      EveryStoredConfigurationIsCurrent(n, pre, k, c);
    } else {
      assert Emit(s, a)[0] == LogOf(n, trace)[i];
      ConfigChange(s, a, k);
    }
  }

  /** So no run of this kind ever stores two configurations under one id. */
  lemma CheckedRunsNeverReplace(n: int, trace: seq<Action>)
    requires CheckedRun(n, trace)
    ensures ConfigsNeverReplaced(LogOf(n, trace))
  {
    var log := LogOf(n, trace);
    forall i, j | 0 <= i < |log| && 0 <= j < |log| && log[i].ConfigPut? && log[j].ConfigPut? && log[i].k == log[j].k
      ensures log[i].cfg == log[j].cfg
    {
      EveryStoredConfigurationIsCurrent(n, trace, log[i].k, log[i].cfg);
      EveryStoredConfigurationIsCurrent(n, trace, log[j].k, log[j].cfg);
    }
  }

  // ---------------------------------------------------------------- listed

  /** Additions to the two listings reach Redis; their replies are ignored and may be lost. */
  predicate AddsHold(s: State<Key>, a: Action) {
    a.Go? && Putting(s, a.p) && !s.procs[a.p].conf.Checking? && !s.procs[a.p].conf.StoringConfig? ==> Executed(a.d)
  }

  predicate AddedRun(n: int, trace: seq<Action>) {
    trace == [] || (AddedRun(n, Front(trace)) && AddsHold(Run(n, Front(trace)), Last(trace)))
  }

  predicate NameListed(r: Redis<Key>, c: Configuration) {
    c.name in MembersOf(r, NamesKey)
  }

  predicate Listed(r: Redis<Key>, c: Configuration) {
    NameListed(r, c) && VersionId(c) in MembersOf(r, VersionsKey(c.name))
  }

  ghost predicate AllListed(s: State<Key>) {
    && (forall k :: ConfigAt(s.store, k).Some? ==> Listed(s.store, ConfigAt(s.store, k).value))
    && (forall p :: p in s.procs && s.procs[p].Configure? ==>
          && (s.procs[p].conf.AddingVersion? ==> NameListed(s.store, s.procs[p].config))
          && (s.procs[p].conf.StoringConfig? ==> Listed(s.store, s.procs[p].config)))
  }

  lemma ListingsOnlyGrow(s: State<Key>, a: Action, c: Configuration)
    requires WellTyped(s)
    ensures NameListed(s.store, c) ==> NameListed(Step(s, a).store, c)
    ensures Listed(s.store, c) ==> Listed(Step(s, a).store, c)
  {
    SetChange(s, a, NamesKey);
    SetChange(s, a, VersionsKey(c.name));
  }

  lemma AllListedStep(s: State<Key>, a: Action)
    requires WellTyped(s) && AllListed(s) && AddsHold(s, a)
    ensures AllListed(Step(s, a))
  {
    var s' := Step(s, a);
    forall k | ConfigAt(s'.store, k).Some? ensures Listed(s'.store, ConfigAt(s'.store, k).value) {
      ConfigChange(s, a, k);
      ListingsOnlyGrow(s, a, ConfigAt(s'.store, k).value);
    }
    forall p | p in s'.procs && s'.procs[p].Configure?
      ensures s'.procs[p].conf.AddingVersion? ==> NameListed(s'.store, s'.procs[p].config)
      ensures s'.procs[p].conf.StoringConfig? ==> Listed(s'.store, s'.procs[p].config)
    {
      ListingsOnlyGrow(s, a, s'.procs[p].config);
      SetChange(s, a, NamesKey);
      SetChange(s, a, VersionsKey(s'.procs[p].config.name));
    }
  }

  /**
   Where all set additions reach Redis,
     each stored configuration is already in both listings at every intermediate step.
   */
  lemma {:induction false} StoredConfigurationsAreListed(n: int, trace: seq<Action>)
    requires AddedRun(n, trace)
    ensures AllListed(Run(n, trace))
  {
    if trace != [] {
      StoredConfigurationsAreListed(n, Front(trace));
      RunsAreWellTyped(n, Front(trace));
      AllListedStep(Run(n, Front(trace)), Last(trace));
    }
  }

  // ---------------------------------------------------------------- exactly listed

  predicate AddedName(proc: Proc) {
    proc.Configure? &&
      (proc.conf.AddingVersion? || proc.conf.StoringConfig? ||
        (proc.conf.ConfigDone? && !proc.conf.result.AlreadyExists?))
  }

  predicate AddedVersion(proc: Proc) {
    proc.Configure? && (proc.conf.StoringConfig? || (proc.conf.ConfigDone? && !proc.conf.result.AlreadyExists?))
  }

  ghost predicate NameComesFromPut(s: State<Key>, m: string) {
    exists p :: p in s.procs && AddedName(s.procs[p]) && s.procs[p].config.name == m
  }

  ghost predicate VersionComesFromPut(s: State<Key>, m: string, v: string) {
    exists p :: p in s.procs && AddedVersion(s.procs[p]) && s.procs[p].config.name == m &&
      VersionId(s.procs[p].config) == v
  }

  ghost predicate Accounted(s: State<Key>) {
    && (forall m :: m in MembersOf(s.store, NamesKey) ==> NameComesFromPut(s, m))
    && (forall m, v :: v in MembersOf(s.store, VersionsKey(m)) ==> VersionComesFromPut(s, m, v))
    && (forall p :: p in s.procs && s.procs[p].Configure? && s.procs[p].conf == ConfigDone(Success) ==>
          ConfigAt(s.store, ConfigurationKey(s.procs[p].config)).Some?)
  }

  lemma PutsStay(s: State<Key>, a: Action, m: string, v: string)
    ensures NameComesFromPut(s, m) ==> NameComesFromPut(Step(s, a), m)
    ensures VersionComesFromPut(s, m, v) ==> VersionComesFromPut(Step(s, a), m, v)
  {
    var s' := Step(s, a);
    if NameComesFromPut(s, m) {
      var p :| p in s.procs && AddedName(s.procs[p]) && s.procs[p].config.name == m;
      assert p in s'.procs && AddedName(s'.procs[p]) && s'.procs[p].config.name == m;
    }
    if VersionComesFromPut(s, m, v) {
      var p :| p in s.procs && AddedVersion(s.procs[p]) && s.procs[p].config.name == m &&
        VersionId(s.procs[p].config) == v;
      assert p in s'.procs && AddedVersion(s'.procs[p]) && s'.procs[p].config == s.procs[p].config;
    }
  }

  lemma AccountedStep(s: State<Key>, a: Action)
    requires WellTyped(s) && Accounted(s)
    ensures Accounted(Step(s, a))
  {
    var s' := Step(s, a);
    forall m | m in MembersOf(s'.store, NamesKey) ensures NameComesFromPut(s', m) {
      SetChange(s, a, NamesKey);
      PutsStay(s, a, m, "");
      if m !in MembersOf(s.store, NamesKey) {
        assert AddedName(s'.procs[a.p]) && s'.procs[a.p].config.name == m;
      }
    }
    forall m, v | v in MembersOf(s'.store, VersionsKey(m)) ensures VersionComesFromPut(s', m, v) {
      SetChange(s, a, VersionsKey(m));
      PutsStay(s, a, m, v);
      if v !in MembersOf(s.store, VersionsKey(m)) {
        assert AddedVersion(s'.procs[a.p]) && s'.procs[a.p].config.name == m && VersionId(s'.procs[a.p].config) == v;
      }
    }
    forall p | p in s'.procs && s'.procs[p].Configure? && s'.procs[p].conf == ConfigDone(Success)
      ensures ConfigAt(s'.store, ConfigurationKey(s'.procs[p].config)).Some?
    {
      ConfigChange(s, a, ConfigurationKey(s'.procs[p].config));
    }
  }

  lemma {:induction false} ListingsAreAccountedFor(n: int, trace: seq<Action>)
    ensures Accounted(Run(n, trace))
  {
    if trace != [] {
      ListingsAreAccountedFor(n, Front(trace));
      RunsAreWellTyped(n, Front(trace));
      AccountedStep(Run(n, Front(trace)), Last(trace));
    }
  }

  /** No put is in progress and none has failed. */
  ghost predicate CatalogQuiet(s: State<Key>) {
    forall p :: p in s.procs && s.procs[p].Configure? ==>
      s.procs[p].conf == ConfigDone(Success) || s.procs[p].conf == ConfigDone(AlreadyExists)
  }

  /** When quiet, in any run, a listed name is that of a stored configuration. */
  lemma ListedNameIsStored(n: int, trace: seq<Action>, m: string)
    requires NamedRun(trace) && CatalogQuiet(Run(n, trace)) && m in MembersOf(Run(n, trace).store, NamesKey)
    ensures exists v :: ConfigAt(Run(n, trace).store, ConfigKey(m, v)).Some?
  {
    var s := Run(n, trace);
    ListingsAreAccountedFor(n, trace);
    ConfigurationsAreStoredUnderTheirIds(n, trace);
    var p :| p in s.procs && AddedName(s.procs[p]) && s.procs[p].config.name == m;
    VersionIdKey(s.procs[p].config);
    assert ConfigAt(s.store, ConfigKey(m, s.procs[p].config.version)).Some?;
  }

  /** When quiet, in any run, a listed version id is that of a stored configuration of this name. */
  lemma ListedVersionIsStored(n: int, trace: seq<Action>, m: string, id: string)
    requires NamedRun(trace) && CatalogQuiet(Run(n, trace)) && id in MembersOf(Run(n, trace).store, VersionsKey(m))
    ensures NameOf(id) == m && ':' in id && ConfigAt(Run(n, trace).store, KeyForConfigId(id)).Some?
  {
    var s := Run(n, trace);
    ListingsAreAccountedFor(n, trace);
    ConfigurationsAreStoredUnderTheirIds(n, trace);
    assert VersionComesFromPut(s, m, id);
    var p :| p in s.procs && AddedVersion(s.procs[p]) && s.procs[p].config.name == m &&
      VersionId(s.procs[p].config) == id;
    VersionIdKey(s.procs[p].config);
    VersionIdNamesItsConfiguration(s.procs[p].config);
    ConfigIdKey(id);
  }

  /**
   When quiet, and where all set additions reached Redis, `GetAllConfigs` and `GetAllVersions` list exactly the
   configurations that are stored.
   */
  lemma ListingsAreExact(n: int, trace: seq<Action>, m: string, v: string)
    requires AddedRun(n, trace) && NamedRun(trace) && CatalogQuiet(Run(n, trace)) && ':' !in m
    ensures var r := Run(n, trace).store;
            && (m in MembersOf(r, NamesKey) <==> exists v' :: ConfigAt(r, ConfigKey(m, v')).Some?)
            && (m + ":" + v in MembersOf(r, VersionsKey(m)) <==> ConfigAt(r, ConfigKey(m, v)).Some?)
            && (forall id :: id in MembersOf(r, VersionsKey(m)) ==> NameOf(id) == m && ':' in id)
  {
    var r := Run(n, trace).store;
    StoredConfigurationsAreListed(n, trace);
    ConfigurationsAreStoredUnderTheirIds(n, trace);
    if m in MembersOf(r, NamesKey) {
      ListedNameIsStored(n, trace, m);
    }
    forall id | id in MembersOf(r, VersionsKey(m))
      ensures NameOf(id) == m && ':' in id && ConfigAt(r, KeyForConfigId(id)).Some?
    {
      ListedVersionIsStored(n, trace, m, id);
    }
    SplitJoin(m, ':', v);
    assert (m + ":" + v)[|m|] == ':';
    assert KeyForConfigId(m + ":" + v) == ConfigKey(m, v);
  }

  // ---------------------------------------------------------------- listed, in any run

  /** Action `i` of the run adds `m` to the set `k`. */
  predicate AddsAt(n: int, trace: seq<Action>, i: nat, k: Key, m: string)
    requires i < |trace|
  {
    var s, a := Run(n, trace[..i]), trace[i];
    Runs(s, a) && NextCmd(s.procs[a.p]) == SAdd(k, m)
  }

  ghost predicate EverAdded(n: int, trace: seq<Action>, k: Key, m: string) {
    exists i: nat :: i < |trace| && AddsAt(n, trace, i, k, m)
  }

  lemma EverAddedSnoc(n: int, trace: seq<Action>, k: Key, m: string)
    requires trace != []
    ensures EverAdded(n, trace, k, m) <==>
            EverAdded(n, Front(trace), k, m) || AddsAt(n, trace, |trace| - 1, k, m)
  {
    var pre := Front(trace);
    forall i: nat | i < |pre| ensures AddsAt(n, trace, i, k, m) == AddsAt(n, pre, i, k, m) {
      assert pre[..i] == trace[..i];
    }
    if i: nat :| i < |pre| && AddsAt(n, pre, i, k, m) {
      assert AddsAt(n, trace, i, k, m);
    }
  }

  /**
   The exact condition, in every run, whatever is lost and whatever names there are: a name or a version id is listed
   if and only if some set addition of it was executed.
   */
  lemma {:induction false} ListedIffAdded(n: int, trace: seq<Action>, k: Key, m: string)
    requires k.NamesKey? || k.VersionsKey?
    ensures m in MembersOf(Run(n, trace).store, k) <==> EverAdded(n, trace, k, m)
  {
    if trace != [] {
      ListedIffAdded(n, Front(trace), k, m);
      RunsAreWellTyped(n, Front(trace));
      SetChange(Run(n, Front(trace)), Last(trace), k);
      EverAddedSnoc(n, trace, k, m);
      assert trace[..|trace| - 1] == Front(trace);
    }
  }

  /** So a configuration is listed, stored or not, if and only if both additions of it were executed. */
  lemma ConfigurationListedIff(n: int, trace: seq<Action>, c: Configuration)
    ensures Listed(Run(n, trace).store, c) <==>
            EverAdded(n, trace, NamesKey, c.name) && EverAdded(n, trace, VersionsKey(c.name), VersionId(c))
  {
    ListedIffAdded(n, trace, NamesKey, c.name);
    ListedIffAdded(n, trace, VersionsKey(c.name), VersionId(c));
  }
}
