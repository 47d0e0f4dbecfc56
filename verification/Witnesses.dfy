/** Runs that show why the hypotheses of the positive results are there, and exactly when they fail. */
module Witnesses {
  import opened Strings
  import opened Fsm
  import opened Keys
  import opened Redis
  import opened Server
  import opened Updates
  import opened Configs
  import opened Catalog
  import opened StateIndex
  import opened IndexExactness
  import opened Undisturbed

  // ---------------------------------------------------------------- overlapping puts of one configuration id

  lemma CheckPasses(s: State<Key>, p: nat, c: Configuration)
    requires p !in s.procs && ConfigurationKey(c) !in s.store.data
    ensures var s' := Perform(s, p, PutConfig(c), 1);
            s'.store == s.store && s'.procs == s.procs[p := Configure(c, AddingName)]
  {
    var s0 := Step(s, Begin(p, PutConfig(c)));
    assert Drive(s0, p, 1) == Step(Drive(s0, p, 0), Go(p, Delivered));
  }

  /** Both puts have passed the existence check. */
  lemma BothChecksPass(n: int, c: Configuration, d: Configuration) returns (trace: seq<Action>)
    requires ConfigurationKey(c) == ConfigurationKey(d)
    ensures Run(n, trace).procs == map[0 := Configure(c, AddingName), 1 := Configure(d, AddingName)]
  {
    var t := [] + [Begin(0, PutConfig(c))] + Burst(0, 1);
    RunPerform(n, [], 0, PutConfig(c), 1);
    CheckPasses(Init(n), 0, c);
    trace := t + [Begin(1, PutConfig(d))] + Burst(1, 1);
    RunPerform(n, t, 1, PutConfig(d), 1);
    CheckPasses(Run(n, t), 1, d);
  }

  lemma SecondPutReplaces(n: int, c: Configuration, d: Configuration) returns (trace: seq<Action>, i: nat)
    requires ConfigurationKey(c) == ConfigurationKey(d)
    ensures i <= |trace|
    ensures ConfigAt(Run(n, trace[..i]).store, ConfigurationKey(c)) == Some(c)
    ensures ConfigAt(Run(n, trace).store, ConfigurationKey(c)) == Some(d)
  {
    var t := BothChecksPass(n, c, d);
    CheckedPutStores(Run(n, t), 0);
    RunBurst(n, t, 0, 3);
    var u := t + Burst(0, 3);
    CheckedPutStores(Run(n, u), 1);
    RunBurst(n, u, 1, 3);
    trace, i := u + Burst(1, 3), |u|;
    assert trace[..i] == u;
  }

  /**
   `PutConfig` checks and writes in separate commands: two overlapping puts of any one id both pass
   the check, and the second replaces what the first stored.
   */
  lemma OverlappingPutsReplace(n: int, c: Configuration, d: Configuration)
    requires ConfigurationKey(c) == ConfigurationKey(d)
    ensures exists trace, i: nat ::
              && i <= |trace|
              && ConfigAt(Run(n, trace[..i]).store, ConfigurationKey(c)) == Some(c)
              && ConfigAt(Run(n, trace).store, ConfigurationKey(c)) == Some(d)
  {
    var trace, i := SecondPutReplaces(n, c, d);
  }

  lemma UnansweredCheckPasses(s: State<Key>, p: nat, d: Configuration)
    requires p !in s.procs
    ensures var s' := Step(Step(s, Begin(p, PutConfig(d))), Go(p, Lost(false, false)));
            s'.store == s.store && s'.procs == s.procs[p := Configure(d, AddingName)]
  {
  }

  lemma PutAfterUnansweredCheck(n: int, c: Configuration, d: Configuration) returns (trace: seq<Action>, i: nat)
    requires ConfigurationKey(c) == ConfigurationKey(d)
    ensures i <= |trace| && (forall p :: p in Run(n, trace[..i]).procs ==> IsDone(Run(n, trace[..i]).procs[p]))
    ensures ConfigAt(Run(n, trace[..i]).store, ConfigurationKey(c)) == Some(c)
    ensures ConfigAt(Run(n, trace).store, ConfigurationKey(c)) == Some(d)
  {
    var t := [] + [Begin(0, PutConfig(c))] + Burst(0, 4);
    RunPerform(n, [], 0, PutConfig(c), 4);
    ConfigurationGetsStored(n, c);
    UnansweredCheckPasses(Run(n, t), 1, d);
    RunSnoc(n, t, Begin(1, PutConfig(d)));
    var u := t + [Begin(1, PutConfig(d))] + [Go(1, Lost(false, false))];
    RunSnoc(n, t + [Begin(1, PutConfig(d))], Go(1, Lost(false, false)));
    CheckedPutStores(Run(n, u), 1);
    RunBurst(n, u, 1, 3);
    trace, i := u + Burst(1, 3), |t|;
    assert trace[..i] == t;
  }

  /**
   An EXISTS that fails reads as "not there": with nothing else in progress, one lost check and a put replaces what
   is stored.
   */
  lemma UnansweredCheckReplaces(n: int, c: Configuration, d: Configuration)
    requires ConfigurationKey(c) == ConfigurationKey(d)
    ensures exists trace, i: nat ::
              && i <= |trace| && (forall p :: p in Run(n, trace[..i]).procs ==> IsDone(Run(n, trace[..i]).procs[p]))
              && ConfigAt(Run(n, trace[..i]).store, ConfigurationKey(c)) == Some(c)
              && ConfigAt(Run(n, trace).store, ConfigurationKey(c)) == Some(d)
  {
    var trace, i := PutAfterUnansweredCheck(n, c, d);
  }

  // ---------------------------------------------------------------- additions that are lost

  /** A put whose two set additions are lost: it goes on, and stores. */
  function UnlistedPut(c: Configuration): seq<Action> {
    [Begin(0, PutConfig(c)), Go(0, Delivered), Go(0, Lost(false, false)), Go(0, Lost(false, false)), Go(0, Delivered)]
  }

  lemma UnlistedPutRuns(n: int, c: Configuration)
    ensures var s := Run(n, UnlistedPut(c));
            && s.procs == map[0 := Configure(c, ConfigDone(Success))]
            && ConfigAt(s.store, ConfigurationKey(c)) == Some(c) && NamesKey !in s.store.data
  {
    var t := UnlistedPut(c);
    ConfigIdKey(VersionId(c));
    assert VersionId(c)[|c.name|] == ':';
    RunSnoc(n, [], t[0]);
    assert t[..1] == [] + [t[0]];
    assert Run(n, t[..1]).store == Redis(map[], map[]) && Run(n, t[..1]).procs == map[0 := Configure(c, Checking)];
    RunSnoc(n, t[..1], t[1]);
    assert t[..2] == t[..1] + [t[1]];
    assert Run(n, t[..2]).store == Redis(map[], map[]) && Run(n, t[..2]).procs == map[0 := Configure(c, AddingName)];
    RunSnoc(n, t[..2], t[2]);
    assert t[..3] == t[..2] + [t[2]];
    assert Run(n, t[..3]).store == Redis(map[], map[]) && Run(n, t[..3]).procs == map[0 := Configure(c, AddingVersion)];
    RunSnoc(n, t[..3], t[3]);
    assert t[..4] == t[..3] + [t[3]];
    RunKeepsRetries(n, t[..3]);
    assert Run(n, t[..4]).store == Redis(map[], map[]);
    assert Run(n, t[..4]).procs == map[0 := Configure(c, StoringConfig(n))];
    RunSnoc(n, t[..4], t[4]);
    assert t == t[..4] + [t[4]];
  }

  /**
   `PutConfig` ignores the errors of its two set additions: for every configuration there is a run in which its one put
   succeeds, nothing is in progress, and the configuration is stored and not listed.
   */
  lemma LostAdditionsLeaveUnlisted(n: int, c: Configuration)
    ensures exists trace ::
              && Run(n, trace).procs == map[0 := Configure(c, ConfigDone(Success))]
              && ConfigAt(Run(n, trace).store, ConfigurationKey(c)) == Some(c)
              && !NameListed(Run(n, trace).store, c) && !Listed(Run(n, trace).store, c)
  {
    UnlistedPutRuns(n, c);
    var trace := UnlistedPut(c);
    assert !NameListed(Run(n, trace).store, c);
  }

  // ---------------------------------------------------------------- a machine put twice

  /**
   `PutFiniteStateMachine` names no old state to `UpdateState`. From any state of the system where the sets are exact
   for the machine, an undisturbed put leaves them exact if and only if the machine had the very state it is put in, or
   it had none, so most often did not exist, and the configuration's name has no `:`.
   */
  lemma PutLeavesIndexExactIff(s: State<Key>, p: nat, id: string, fsm: FiniteStateMachine, c: Configuration)
    requires WellTyped(s) && Filed(s) && p !in s.procs && ConfigAt(s.store, KeyForConfigId(fsm.configId)) == Some(c)
    requires Exact(s.store, CreatedKey(id, fsm))
    ensures var k, state := CreatedKey(id, fsm), if fsm.state != "" then fsm.state else c.startingState;
            var s', was := Perform(s, p, PutFiniteStateMachine(id, fsm), 3), StateOf(s.store, k);
            && (Exact(s'.store, k) <==> was == state || (was == "" && ':' !in c.name))
            && (forall x :: InIndex(s'.store, k, x) <==> x != "" && (x == was || (x == state && ':' !in c.name)))
  {
    UndisturbedPut(s, p, id, fsm, c);
    ConfigIdsKeptApart(VersionId(c), fsm.configId);
    var k, was := CreatedKey(id, fsm), StateOf(s.store, CreatedKey(id, fsm));
    var state := if fsm.state != "" then fsm.state else c.startingState;
    var s' := Perform(s, p, PutFiniteStateMachine(id, fsm), 3);
    forall x ensures InIndex(s'.store, k, x) <==> x != "" && (x == was || (x == state && ':' !in c.name)) {
      assert InIndex(s.store, k, x) <==> x == was && x != "";
    }
    assert StateOf(s'.store, k) == state;
    assert InIndex(s'.store, k, was) <==> was != "";
    assert InIndex(s'.store, k, state) <==> state != "" && (state == was || ':' !in c.name);
  }

  // ---------------------------------------------------------------- names with a colon

  /** A configuration and a machine in its starting state, every command answered. */
  function Creation(c: Configuration, id: string): seq<Action> {
    [] + [Begin(0, PutConfig(c))] + Burst(0, 4)
       + [Begin(1, PutFiniteStateMachine(id, FiniteStateMachine(VersionId(c), "", [])))] + Burst(1, 3)
  }

  lemma CreationRuns(n: int, c: Configuration, id: string)
    ensures Polite(Creation(c, id))
    ensures var s, m := Run(n, Creation(c, id)), FiniteStateMachine(VersionId(c), c.startingState, []);
            && s.procs.Keys == {0, 1} && IsDone(s.procs[0]) && IsDone(s.procs[1])
            && MachineAt(s.store, MachineKey(NameOf(VersionId(c)), id)) == Some(m)
            && (forall x :: InIndex(s.store, MachineKey(c.name, id), x) <==> x == c.startingState && x != "")
  {
    var fsm := FiniteStateMachine(VersionId(c), "", []);
    var t := [] + [Begin(0, PutConfig(c))] + Burst(0, 4);
    RunPerform(n, [], 0, PutConfig(c), 4);
    ConfigurationGetsStored(n, c);
    PoliteBegin([], 0, PutConfig(c), 4);
    RunPerform(n, t, 1, PutFiniteStateMachine(id, fsm), 3);
    RunsAreWellTyped(n, t);
    UndisturbedPut(Run(n, t), 1, id, fsm, c);
    PoliteBegin(t, 1, PutFiniteStateMachine(id, fsm), 3);
  }

  /**
   Creating a machine under a configuration whose name has a `:` leaves an entry in a set that no record answers to: of
   the run that puts the configuration and creates the machine, every command answered, the entry is justified if and
   only if the name has no `:`.
   */
  lemma CreationIsSoundIff(n: int, c: Configuration, id: string)
    requires c.startingState != ""
    ensures var k, trace := MachineKey(c.name, id), Creation(c, id);
            && InIndex(Run(n, trace).store, k, c.startingState)
            && (Justified(n, trace, k, c.startingState) <==> ':' !in c.name)
            && (MachineAt(Run(n, trace).store, k).Some? <==> ':' !in c.name)
            && (Exact(Run(n, trace).store, k) <==> ':' !in c.name)
  {
    var k, trace := MachineKey(c.name, id), Creation(c, id);
    CreationRuns(n, c, id);
    IndexIsSound(n, trace, k, c.startingState);
    NoRecordUnderColon(n, trace);
    NameOfVersionId(c);
    assert InIndex(Run(n, trace).store, k, c.startingState);
  }

  // ---------------------------------------------------------------- an attempt that aborts

  /** Two events that a machine accepts, and two calls not yet begun. */
  ghost predicate Rivals(s: State<Key>, p: nat, q: nat, k: Key, e: Event, f: Event, first: Plan, second: Plan) {
    && WellTyped(s) && k.MachineKey? && p !in s.procs && q !in s.procs && p != q
    && first.was == second.was && first.cfg == second.cfg && first.ver == second.ver
    && Finds(s, k, first.was, first.cfg, first.ver)
    && SendEvent(first.cfg, first.was, e) == Some(first.next)
    && SendEvent(second.cfg, second.was, f) == Some(second.next)
  }

  /** The second event commits between the first one's change to the sets and its EXEC, which then aborts. */
  function Race(s: State<Key>, p: nat, q: nat, k: Key, e: Event, f: Event, first: Plan, second: Plan): State<Key>
    requires k.MachineKey?
  {
    var s1 := Perform(s, p, TxProcessEvent(k.id, k.cfg, e), Length(first));
    Drive(Perform(s1, q, TxProcessEvent(k.id, k.cfg, f), Length(second) + 1), p, 1)
  }

  /** Nothing but the two calls has moved. */
  predicate OnlyThese(s: State<Key>, s': State<Key>, p: nat, q: nat) {
    s'.procs.Keys == s.procs.Keys + {p, q} && forall r | r in s.procs && r != p && r != q :: s'.procs[r] == s.procs[r]
  }

  /** Up to the first call's EXEC, the second one having committed. */
  lemma RaceUpToExec(s: State<Key>, p: nat, q: nat, k: Key, e: Event, f: Event, first: Plan, second: Plan)
    requires Rivals(s, p, q, k, e, f, first, second)
    ensures var s1 := Perform(s, p, TxProcessEvent(k.id, k.cfg, e), Length(first));
            var s2 := Perform(s1, q, TxProcessEvent(k.id, k.cfg, f), Length(second) + 1);
            && WellTyped(s2) && OnlyThese(s, s2, p, q) && Finds(s2, k, second.next, first.cfg, first.ver + 1)
            && s2.procs[p] == Tx(k.id, k.cfg, e, Executing(0, first))
            && s2.procs[q] == Tx(k.id, k.cfg, f, TxDone(Success))
            && Moved(s.store, s1.store, k, first.was.state, first.next.state)
            && Moved(s1.store, s2.store, k, first.was.state, second.next.state)
  {
    CallStands(s, p, k, e, first);
    AttemptUpToExec(Step(s, Begin(p, TxProcessEvent(k.id, k.cfg, e))), p, k, e, first, 0);
    var s1 := Perform(s, p, TxProcessEvent(k.id, k.cfg, e), Length(first));
    UndisturbedCallCommits(s1, q, k, f, second);
  }

  lemma RaceUpToRetry(s: State<Key>, p: nat, q: nat, k: Key, e: Event, f: Event, first: Plan, second: Plan)
    requires Rivals(s, p, q, k, e, f, first, second)
    ensures var s' := Race(s, p, q, k, e, f, first, second);
            && Stands(s', p, k, e, Plan(first.ver + 1, second.next, first.cfg, second.next), Watching(1))
            && OnlyThese(s, s', p, q) && s'.procs[q] == Tx(k.id, k.cfg, f, TxDone(Success))
            && MovedTwice(s.store, s'.store, k, first.was.state, first.next.state, second.next.state)
  {
    RaceUpToExec(s, p, q, k, e, f, first, second);
    var s1 := Perform(s, p, TxProcessEvent(k.id, k.cfg, e), Length(first));
    var s2 := Perform(s1, q, TxProcessEvent(k.id, k.cfg, f), Length(second) + 1);
    Aborts(s2, p, k, e, first, 0);
    DriveWellTyped(s2, p, 1);
    MovesAddUp(s.store, s1.store, s2.store, k, first.was.state, first.next.state, second.next.state);
  }

  /** Between the two stores the machine was moved from `was` to `x`, and then once more from `was` to `y`. */
  ghost predicate MovedTwice(r: Redis<Key>, r': Redis<Key>, k: Key, was: string, x: string, y: string)
    requires k.MachineKey?
  {
    forall z :: InIndex(r', k, z) ==
      ((z == y && z != "") || ((z != was || z == "") && ((z == x && z != "") || InIndex(r, k, z))))
  }

  lemma MovesAddUp(r: Redis<Key>, r1: Redis<Key>, r2: Redis<Key>, k: Key, was: string, x: string, y: string)
    requires k.MachineKey? && Moved(r, r1, k, was, x) && Moved(r1, r2, k, was, y)
    ensures MovedTwice(r, r2, k, was, x, y)
  {
    forall z
      ensures InIndex(r2, k, z) ==
              ((z == y && z != "") || ((z != was || z == "") && ((z == x && z != "") || InIndex(r, k, z))))
    {
      assert InIndex(r1, k, z) == ((z == x && z != "") || (InIndex(r, k, z) && (z != was || z == "")));
    }
  }

  /**
   From a state where the sets are exact, the retry is refused. The race leaves them exact if and only if the first
   event's target is the empty state, the old state or the winner's; otherwise its machine stays in the set of a state
   it is not in, with neither call in progress.
   */
  lemma RaceLeavesIndexExactIff(s: State<Key>, p: nat, q: nat, k: Key, e: Event, f: Event, first: Plan, second: Plan)
    requires Rivals(s, p, q, k, e, f, first, second) && Exact(s.store, k)
    requires SendEvent(first.cfg, second.next, e).None?
    ensures var s' := Drive(Race(s, p, q, k, e, f, first, second), p, 3);
            && OnlyThese(s, s', p, q) && s'.procs[p] == Tx(k.id, k.cfg, e, TxDone(Refused))
            && s'.procs[q] == Tx(k.id, k.cfg, f, TxDone(Success)) && StateOf(s'.store, k) == second.next.state
            && (Exact(s'.store, k) <==> first.next.state in {"", first.was.state, second.next.state})
  {
    var t := Race(s, p, q, k, e, f, first, second);
    RaceUpToRetry(s, p, q, k, e, f, first, second);
    ReadsUpToRemoval(t, p, k, e, second.next, first.cfg, 1);
    ExactAfterRace(s.store, t.store, k, first.was.state, first.next.state, second.next.state);
  }

  lemma ExactAfterRace(r: Redis<Key>, r': Redis<Key>, k: Key, was: string, x: string, y: string)
    requires k.MachineKey? && IndexIs(r, k, was) && MovedTwice(r, r', k, was, x, y)
    ensures forall z :: InIndex(r', k, z) <==> z != "" && (z == y || (z == x && z != was))
    ensures IndexIs(r', k, y) <==> x in {"", was, y}
  {
    assert InIndex(r', k, x) <==> x != "" && (x == y || x != was);
  }

  /** When the retry is accepted instead, the target `z` it moves to is a further state that makes up for the race. */
  lemma RetriedRaceLeavesIndexExactIff(
      s: State<Key>, p: nat, q: nat, k: Key, e: Event, f: Event, first: Plan, second: Plan, retry: Plan)
    requires Rivals(s, p, q, k, e, f, first, second) && Exact(s.store, k)
    requires SendEvent(first.cfg, second.next, e) == Some(retry.next)
    requires retry.ver == first.ver + 1 && retry.was == second.next && retry.cfg == first.cfg
    ensures var s' := Drive(Race(s, p, q, k, e, f, first, second), p, Length(retry) + 1);
            && OnlyThese(s, s', p, q) && s'.procs[p] == Tx(k.id, k.cfg, e, TxDone(Success))
            && s'.procs[q] == Tx(k.id, k.cfg, f, TxDone(Success)) && StateOf(s'.store, k) == retry.next.state
            && (Exact(s'.store, k) <==>
                  first.next.state in {"", first.was.state, second.next.state, retry.next.state})
  {
    var t, x := Race(s, p, q, k, e, f, first, second), first.next.state;
    RaceUpToRetry(s, p, q, k, e, f, first, second);
    AttemptCommits(t, p, k, e, retry, 1);
    ExactAfterRace(s.store, t.store, k, first.was.state, x, second.next.state);
    var s' := Drive(t, p, Length(retry) + 1);
    ExactAfterRetry(t.store, s'.store, k, first.was.state, x, second.next.state, retry.next.state);
  }

  lemma ExactAfterRetry(r: Redis<Key>, r': Redis<Key>, k: Key, was: string, x: string, y: string, z: string)
    requires k.MachineKey? && Moved(r, r', k, y, z)
    requires forall w :: InIndex(r, k, w) <==> w != "" && (w == y || (w == x && w != was))
    ensures IndexIs(r', k, z) <==> x in {"", was, y, z}
  {
    forall w ensures InIndex(r', k, w) <==> w != "" && (w == z || (w == x && w != was && w != y)) {
      assert InIndex(r, k, w) <==> w != "" && (w == y || (w == x && w != was));
    }
    assert InIndex(r', k, x) <==> x != "" && (x == z || (x != was && x != y));
  }

  /** From any state, exact or not, the refused loser of a race leaves its entry behind. */
  lemma AbortedAttemptLeavesStaleEntry(
      s: State<Key>, p: nat, q: nat, k: Key, e: Event, f: Event, first: Plan, second: Plan)
    requires Rivals(s, p, q, k, e, f, first, second) && SendEvent(first.cfg, second.next, e).None?
    requires first.next.state !in {"", first.was.state, second.next.state}
    ensures var s' := Drive(Race(s, p, q, k, e, f, first, second), p, 3);
            && OnlyThese(s, s', p, q) && s'.procs[p] == Tx(k.id, k.cfg, e, TxDone(Refused))
            && s'.procs[q] == Tx(k.id, k.cfg, f, TxDone(Success)) && StateOf(s'.store, k) == second.next.state
            && InIndex(s'.store, k, first.next.state) && !Exact(s'.store, k)
  {
    var t := Race(s, p, q, k, e, f, first, second);
    RaceUpToRetry(s, p, q, k, e, f, first, second);
    ReadsUpToRemoval(t, p, k, e, second.next, first.cfg, 1);
    assert InIndex(t.store, k, first.next.state);
  }

  /** Configuration, machine and the two racing events, as one run. */
  lemma RaceRun(n: int, c: Configuration, id: string, e: Event, f: Event)
    returns (trace: seq<Action>)
    requires ':' !in c.name
    requires var m := FiniteStateMachine(VersionId(c), c.startingState, []);
             && SendEvent(c, m, e).Some? && SendEvent(c, m, f).Some?
             && var x, y := SendEvent(c, m, e).value, SendEvent(c, m, f).value;
                x.state !in {"", m.state, y.state} && SendEvent(c, y, e).None?
    ensures forall p :: p in Run(n, trace).procs ==> IsDone(Run(n, trace).procs[p])
    ensures Polite(trace) && !Exact(Run(n, trace).store, MachineKey(c.name, id))
  {
    var m := FiniteStateMachine(VersionId(c), c.startingState, []);
    var t := Creation(c, id);
    var ver := Ver(Run(n, t).store, MachineKey(c.name, id));
    CreationFinds(n, c, id);
    RunsAreWellTyped(n, t);
    trace := RaceOnMachine(n, t, 2, 3, MachineKey(c.name, id), e, f,
                           Plan(ver, m, c, SendEvent(c, m, e).value), Plan(ver, m, c, SendEvent(c, m, f).value));
  }

  lemma CreationFinds(n: int, c: Configuration, id: string)
    requires ':' !in c.name
    ensures var s, k := Run(n, Creation(c, id)), MachineKey(c.name, id);
            && s.procs.Keys == {0, 1} && IsDone(s.procs[0]) && IsDone(s.procs[1]) && Polite(Creation(c, id))
            && Finds(s, k, FiniteStateMachine(VersionId(c), c.startingState, []), c, Ver(s.store, k))
  {
    CreationRuns(n, c, id);
    NameOfVersionId(c);
    var t := [] + [Begin(0, PutConfig(c))] + Burst(0, 4);
    RunPerform(n, [], 0, PutConfig(c), 4);
    ConfigurationGetsStored(n, c);
    RunsAreWellTyped(n, t);
    RunPerform(n, t, 1, PutFiniteStateMachine(id, FiniteStateMachine(VersionId(c), "", [])), 3);
    PutKeepsConfigurations(Run(n, t), 1, id, FiniteStateMachine(VersionId(c), "", []));
  }

  lemma PutKeepsConfigurations(s: State<Key>, p: nat, id: string, fsm: FiniteStateMachine)
    requires p !in s.procs && WellTyped(s)
    ensures var s' := Perform(s, p, PutFiniteStateMachine(id, fsm), 3);
            forall k :: ConfigAt(s'.store, k) == ConfigAt(s.store, k)
  {
    DriveKeepsConfigurations(Step(s, Begin(p, PutFiniteStateMachine(id, fsm))), p, 3);
  }

  lemma {:induction false} DriveKeepsConfigurations(s: State<Key>, p: nat, k: nat)
    requires WellTyped(s) && p in s.procs && s.procs[p].Create?
    ensures p in Drive(s, p, k).procs && Drive(s, p, k).procs[p].Create?
    ensures forall i :: ConfigAt(Drive(s, p, k).store, i) == ConfigAt(s.store, i)
  {
    if k > 0 {
      DriveKeepsConfigurations(s, p, k - 1);
      DriveWellTyped(s, p, k - 1);
      forall i ensures ConfigAt(Drive(s, p, k).store, i) == ConfigAt(Drive(s, p, k - 1).store, i) {
        ConfigChange(Drive(s, p, k - 1), Go(p, Delivered), i);
      }
    }
  }

  lemma RaceOnMachine(n: int, t: seq<Action>, p: nat, q: nat, k: Key, e: Event, f: Event, first: Plan, second: Plan)
    returns (trace: seq<Action>)
    requires Polite(t) && (forall r :: r in Run(n, t).procs ==> IsDone(Run(n, t).procs[r]))
    requires Rivals(Run(n, t), p, q, k, e, f, first, second) && SendEvent(first.cfg, second.next, e).None?
    requires first.next.state !in {"", first.was.state, second.next.state}
    ensures forall r :: r in Run(n, trace).procs ==> IsDone(Run(n, trace).procs[r])
    ensures Polite(trace) && !Exact(Run(n, trace).store, k)
  {
    AbortedAttemptLeavesStaleEntry(Run(n, t), p, q, k, e, f, first, second);
    trace := RaceTrace(t, p, q, k, e, f, first, second);
    RaceTraceRuns(n, t, p, q, k, e, f, first, second);
    RaceTraceIsPolite(t, p, q, k, e, f, first, second);
  }

  function RaceTrace(t: seq<Action>, p: nat, q: nat, k: Key, e: Event, f: Event, first: Plan, second: Plan): seq<Action>
    requires k.MachineKey?
  {
    t + [Begin(p, TxProcessEvent(k.id, k.cfg, e))] + Burst(p, Length(first))
      + [Begin(q, TxProcessEvent(k.id, k.cfg, f))] + Burst(q, Length(second) + 1) + Burst(p, 1) + Burst(p, 3)
  }

  lemma RaceTraceRuns(
      n: int, t: seq<Action>, p: nat, q: nat, k: Key, e: Event, f: Event, first: Plan, second: Plan)
    requires k.MachineKey?
    ensures Run(n, RaceTrace(t, p, q, k, e, f, first, second))
         == Drive(Race(Run(n, t), p, q, k, e, f, first, second), p, 3)
  {
    var t1 := t + [Begin(p, TxProcessEvent(k.id, k.cfg, e))] + Burst(p, Length(first));
    RunPerform(n, t, p, TxProcessEvent(k.id, k.cfg, e), Length(first));
    var t2 := t1 + [Begin(q, TxProcessEvent(k.id, k.cfg, f))] + Burst(q, Length(second) + 1);
    RunPerform(n, t1, q, TxProcessEvent(k.id, k.cfg, f), Length(second) + 1);
    RunBurst(n, t2, p, 1);
    RunBurst(n, t2 + Burst(p, 1), p, 3);
  }

  lemma RaceTraceIsPolite(t: seq<Action>, p: nat, q: nat, k: Key, e: Event, f: Event, first: Plan, second: Plan)
    requires k.MachineKey? && Polite(t)
    ensures Polite(RaceTrace(t, p, q, k, e, f, first, second))
  {
    PoliteBegin(t, p, TxProcessEvent(k.id, k.cfg, e), Length(first));
    var t1 := t + [Begin(p, TxProcessEvent(k.id, k.cfg, e))] + Burst(p, Length(first));
    PoliteBegin(t1, q, TxProcessEvent(k.id, k.cfg, f), Length(second) + 1);
    BurstPolite(p, 1);
    BurstPolite(p, 3);
  }

  /** A run of four calls, every command answered, that ends with nothing in progress and the index wrong. */
  lemma SomeRunLeavesIndexWrong(n: int)
    ensures exists trace ::
              && (forall p :: p in Run(n, trace).procs ==> IsDone(Run(n, trace).procs[p]))
              && Polite(trace)
              && !Exact(Run(n, trace).store, MachineKey("n", "m"))
  {
    var go, stop := Transition("a", "b", "go"), Transition("a", "c", "stop");
    var c := Configuration("n", "v", ["a", "b", "c"], [go, stop], "a");
    assert c.transitions[1..] == [stop] && [stop][1..] == [];
    assert FirstMatch(c.transitions, "a", "go") == Some(go);
    assert FirstMatch(c.transitions, "a", "stop") == Some(stop);
    assert FirstMatch(c.transitions, "c", "go") == None;
    var e, f := Event("1", Transition("", "", "go"), "", ""), Event("2", Transition("", "", "stop"), "", "");
    var trace := RaceRun(n, c, "m", e, f);
  }

}
