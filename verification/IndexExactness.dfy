/**
 When the machines-by-state sets are exact. `UpdateState` runs before EXEC and outside the
 transaction, so the hypothesis that matters is that an attempt which touches the sets commits.
 */
module IndexExactness {
  import opened Strings
  import opened Keys
  import opened Redis
  import opened Server
  import opened Atomicity
  import opened Configs
  import opened StateIndex

  /** Machine `k` is in the set of `x` and in no other; in none at all when `x` is empty. */
  ghost predicate IndexIs(r: Redis<Key>, k: Key, x: string)
    requires k.MachineKey?
  {
    forall y :: InIndex(r, k, y) <==> y == x && y != ""
  }

  function StateOf(r: Redis<Key>, k: Key): string {
    var m := MachineAt(r, k);
    if m.Some? then m.value.state else ""
  }

  /** The sets say of machine `k` what its record says. */
  ghost predicate Exact(r: Redis<Key>, k: Key)
    requires k.MachineKey?
  {
    IndexIs(r, k, StateOf(r, k))
  }

  // ---------------------------------------------------------------- the runs considered

  /** An attempt between its first change to the sets and its EXEC. */
  predicate Dirty(proc: Proc) {
    && proc.Tx?
    && ((proc.tx.Adding? && proc.tx.plan.was.state != "")
        || (proc.tx.Executing? && (proc.tx.plan.was.state != "" || proc.tx.plan.next.state != "")))
  }

  predicate Creating(proc: Proc) {
    proc.Create? && (proc.create.Storing? || proc.create.Indexing?)
  }

  /** A creating call that ended before it wrote anything. */
  predicate Void(proc: Proc) {
    proc.Create? && proc.create.CreateDone? && proc.create.result.ConfigNotFound?
  }

  predicate CleanBegin(s: State<Key>, call: Call) {
    match call
    case PutFiniteStateMachine(id, fsm) =>
      forall q | q in s.procs && OnMachine(s.procs[q], CreatedKey(id, fsm)) ::
        IsDone(s.procs[q]) && (s.procs[q].Create? ==> Void(s.procs[q]))
    case TxProcessEvent(id, cfg, _) =>
      forall q | q in s.procs && s.procs[q].Create? && OnMachine(s.procs[q], MachineKey(cfg, id)) :: IsDone(s.procs[q])
    case PutStateMachine(_, _) => false
    case _ => true
  }

  /**
   An attempt that changed the sets commits: none of its commands is lost and its EXEC finds the version it watched.
   */
  predicate CleanGo(s: State<Key>, p: nat, d: Delivery)
    requires Live(s, p)
  {
    var proc := s.procs[p];
    match proc
    case Tx(_, _, _, pc) =>
      && (pc.Removing? ==> d.Delivered? || !d.executed)
      && (pc.Adding? ==> d.Delivered? || (pc.plan.was.state == "" && !d.executed))
      && (Dirty(proc) && pc.Executing? ==> Executed(d) && Ver(s.store, MachineOf(proc)) == pc.plan.ver)
    case Create(_, _, _) =>
      var proc' := Advance(s.maxRetries, proc, Seen(s.store, NextCmd(proc), d));
      IsDone(proc') ==> ResultOf(proc') == Success || Void(proc')
    case _ => true
  }

  /**
   Machines are created once and successfully, events start after the creating call returned, attempts that touch the
   sets commit.
   */
  predicate CleanStep(s: State<Key>, a: Action) {
    match a
    case Begin(p, call) => p in s.procs || CleanBegin(s, call)
    case Go(p, d) => Live(s, p) ==> CleanGo(s, p, d)
  }

  predicate CleanRun(n: int, trace: seq<Action>) {
    trace == [] || (CleanRun(n, Front(trace)) && CleanStep(Run(n, Front(trace)), Last(trace)))
  }

  // ---------------------------------------------------------------- creation

  /** Some creating call has begun to write machine `k`. */
  ghost predicate Made(s: State<Key>, k: Key) {
    exists p :: p in s.procs && Wrote(s.procs[p], k)
  }

  predicate Wrote(proc: Proc, k: Key) {
    proc.Create? && OnMachine(proc, k) && !proc.create.LookingUp? && !Void(proc)
  }

  ghost predicate CreatedOnce(s: State<Key>) {
    forall p, q :: p in s.procs && q in s.procs && p != q && s.procs[p].Create? && s.procs[q].Create?
      ==> (CreatedKey(s.procs[p].id, s.procs[p].fsm) == CreatedKey(s.procs[q].id, s.procs[q].fsm) ==>
        Void(s.procs[p]) || Void(s.procs[q]))
  }

  ghost predicate EventsAfterCreation(s: State<Key>) {
    forall p, q :: Live(s, p) && Live(s, q) && s.procs[p].Create? && s.procs[q].Tx? ==>
      CreatedKey(s.procs[p].id, s.procs[p].fsm) != MachineOf(s.procs[q])
  }

  ghost predicate NothingBeforeCreation(s: State<Key>) {
    && (forall p :: p in s.procs && s.procs[p].Save? ==> !s.procs[p].v.Machine?)
    && (forall k: Key, x :: k.MachineKey? && InIndex(s.store, k, x) ==> Made(s, k))
    && (forall k :: MachineAt(s.store, k).Some? ==> Made(s, k))
    && (forall p :: p in s.procs && s.procs[p].Tx? && (s.procs[p].tx.ReadingConfig? || HasPlan(s.procs[p].tx)) ==>
          Made(s, MachineOf(s.procs[p])))
  }

  ghost predicate CreationOk(r: Redis<Key>, proc: Proc) {
    && (Creating(proc) ==> IndexIs(r, CreatedKey(proc.id, proc.fsm), ""))
    && (proc.Create? && proc.create.Indexing? ==>
          proc.create.machine.state != "" && MachineAt(r, CreatedKey(proc.id, proc.fsm)) == Some(proc.create.machine))
  }

  ghost predicate Creations(s: State<Key>) {
    && CreatedOnce(s) && EventsAfterCreation(s) && NothingBeforeCreation(s)
    && forall p :: p in s.procs ==> CreationOk(s.store, s.procs[p])
  }

  lemma MadeStays(s: State<Key>, a: Action, k: Key)
    requires Made(s, k)
    ensures Made(Step(s, a), k)
  {
    var p :| p in s.procs && Wrote(s.procs[p], k);
    assert p in Step(s, a).procs && Wrote(Step(s, a).procs[p], k);
  }

  lemma CreatedOnceStep(s: State<Key>, a: Action)
    requires CreatedOnce(s) && CleanStep(s, a)
    ensures CreatedOnce(Step(s, a))
  {
  }

  lemma EventsAfterCreationStep(s: State<Key>, a: Action)
    requires EventsAfterCreation(s) && CleanStep(s, a)
    ensures EventsAfterCreation(Step(s, a))
  {
  }

  lemma NothingBeforeStep(s: State<Key>, a: Action)
    requires WellTyped(s) && Named(s) && NothingBeforeCreation(s) && CleanStep(s, a)
    ensures NothingBeforeCreation(Step(s, a))
  {
    var s' := Step(s, a);
    forall k: Key, x | k.MachineKey? && InIndex(s'.store, k, x) ensures Made(s', k) {
      IndexChange(s, a, k, x);
      if InIndex(s.store, k, x) || s.procs[a.p].Tx? {
        MadeStays(s, a, k);
      } else {
        assert Wrote(s.procs[a.p], k);
        MadeStays(s, a, k);
      }
    }
    forall k | MachineAt(s'.store, k).Some? ensures Made(s', k) {
      MachineChange(s, a, k);
      if MachineAt(s.store, k).Some? || s.procs[a.p].Tx? {
        MadeStays(s, a, k);
      } else {
        assert Wrote(s.procs[a.p], k);
        MadeStays(s, a, k);
      }
    }
    forall p | p in s'.procs && s'.procs[p].Tx? && (s'.procs[p].tx.ReadingConfig? || HasPlan(s'.procs[p].tx))
      ensures Made(s', MachineOf(s'.procs[p]))
    {
      MadeStays(s, a, MachineOf(s'.procs[p]));
    }
  }

  /** Before a creating call writes, its machine is in no set. */
  lemma NotYetMade(s: State<Key>, p: nat)
    requires Creations(s) && p in s.procs && s.procs[p].Create? && s.procs[p].create.LookingUp?
    ensures IndexIs(s.store, CreatedKey(s.procs[p].id, s.procs[p].fsm), "")
  {
    var k := CreatedKey(s.procs[p].id, s.procs[p].fsm);
    forall q | q in s.procs ensures !Wrote(s.procs[q], k) {
    }
  }

  /** While a creating call is in progress nobody else moves its machine between the sets. */
  lemma SetsWaitForCreation(s: State<Key>, a: Action, p: nat, x: string)
    requires WellTyped(s) && Named(s) && Creations(s) && Live(s, p) && s.procs[p].Create?
    requires a.Go? && a.p == p ==> !s.procs[p].create.Indexing?
    ensures var k := CreatedKey(s.procs[p].id, s.procs[p].fsm);
        InIndex(Step(s, a).store, k, x) == InIndex(s.store, k, x)
  {
    var k := CreatedKey(s.procs[p].id, s.procs[p].fsm);
    IndexChange(s, a, k, x);
    if Runs(s, a) && a.p != p {
      assert s.procs[a.p].Tx? ==> MachineOf(s.procs[a.p]) != k;
    }
  }

  /** Nor does anybody else write its record. */
  lemma RecordWaitsForCreation(s: State<Key>, a: Action, p: nat)
    requires WellTyped(s) && Creations(s) && Live(s, p) && s.procs[p].Create? && !s.procs[p].create.LookingUp?
    requires a.Go? ==> a.p != p
    ensures var k := CreatedKey(s.procs[p].id, s.procs[p].fsm); MachineAt(Step(s, a).store, k) == MachineAt(s.store, k)
  {
    var k := CreatedKey(s.procs[p].id, s.procs[p].fsm);
    MachineChange(s, a, k);
    if Runs(s, a) {
      assert s.procs[a.p].Tx? ==> MachineOf(s.procs[a.p]) != k;
    }
  }

  lemma SetsStayEmpty(s: State<Key>, a: Action, p: nat)
    requires WellTyped(s) && Named(s) && Creations(s) && Live(s, p) && s.procs[p].Create?
    requires a.Go? && a.p == p ==> !s.procs[p].create.Indexing?
    requires IndexIs(s.store, CreatedKey(s.procs[p].id, s.procs[p].fsm), "")
    ensures IndexIs(Step(s, a).store, CreatedKey(s.procs[p].id, s.procs[p].fsm), "")
  {
    var k := CreatedKey(s.procs[p].id, s.procs[p].fsm);
    forall x ensures InIndex(Step(s, a).store, k, x) == InIndex(s.store, k, x) {
      SetsWaitForCreation(s, a, p, x);
    }
  }

  lemma CreationOkStep(s: State<Key>, a: Action, p: nat)
    requires WellTyped(s) && Named(s) && Creations(s) && CleanStep(s, a) && p in Step(s, a).procs
    ensures CreationOk(Step(s, a).store, Step(s, a).procs[p])
  {
    var proc := Step(s, a).procs[p];
    if Creating(proc) {
      assert CreationOk(s.store, s.procs[p]) && Live(s, p);
      if s.procs[p].create.LookingUp? {
        NotYetMade(s, p);
      } else if a.Begin? || a.p != p {
        RecordWaitsForCreation(s, a, p);
      }
      SetsStayEmpty(s, a, p);
    }
  }

  lemma CreationsStep(s: State<Key>, a: Action)
    requires WellTyped(s) && Named(s) && Creations(s) && CleanStep(s, a)
    ensures Creations(Step(s, a))
  {
    CreatedOnceStep(s, a);
    EventsAfterCreationStep(s, a);
    NothingBeforeStep(s, a);
    forall p | p in Step(s, a).procs ensures CreationOk(Step(s, a).store, Step(s, a).procs[p]) {
      CreationOkStep(s, a, p);
    }
  }

  // ---------------------------------------------------------------- attempts

  predicate DirtyOn(s: State<Key>, p: nat, k: Key) {
    p in s.procs && Dirty(s.procs[p]) && MachineOf(s.procs[p]) == k
  }

  predicate CreatingOn(s: State<Key>, p: nat, k: Key) {
    p in s.procs && Creating(s.procs[p]) && OnMachine(s.procs[p], k)
  }

  /** The set a dirty attempt has its machine in: none between removal and addition, then that of the new state. */
  function Pending(proc: Proc): string
    requires Dirty(proc)
  {
    if proc.tx.Adding? then "" else proc.tx.plan.next.state
  }

  /** No creation in progress, and at most one dirty attempt, which can still commit. */
  ghost predicate Orderly(s: State<Key>, k: Key) {
    && (forall p :: !CreatingOn(s, p, k))
    && (forall p :: DirtyOn(s, p, k) ==> s.procs[p].tx.plan.ver == Ver(s.store, k))
    && (forall p, q :: DirtyOn(s, p, k) && DirtyOn(s, q, k) ==> p == q)
  }

  ghost predicate Idle(s: State<Key>, k: Key) {
    forall p :: !DirtyOn(s, p, k) && !CreatingOn(s, p, k)
  }

  ghost predicate Consistent(s: State<Key>, k: Key)
    requires k.MachineKey?
  {
    Orderly(s, k) ==>
      && (forall p :: DirtyOn(s, p, k) ==> IndexIs(s.store, k, Pending(s.procs[p])))
      && (Idle(s, k) ==> Exact(s.store, k))
  }

  /** The process that moves works on machine `k`. */
  predicate Moves(s: State<Key>, a: Action, k: Key) {
    a.Go? && Live(s, a.p) && OnMachine(s.procs[a.p], k)
  }

  ghost predicate SameIndex(r: Redis<Key>, r': Redis<Key>, k: Key)
    requires k.MachineKey?
  {
    forall x :: InIndex(r', k, x) == InIndex(r, k, x)
  }

  ghost predicate Invariants(s: State<Key>) {
    WellTyped(s) && Named(s) && Locked(s) && Creations(s)
  }

  lemma OthersLeaveMachine(s: State<Key>, a: Action, k: Key)
    requires Invariants(s) && k.MachineKey? && !Moves(s, a, k)
    ensures var s' := Step(s, a);
            && SameIndex(s.store, s'.store, k) && MachineAt(s'.store, k) == MachineAt(s.store, k)
            && Ver(s'.store, k) == Ver(s.store, k)
  {
    forall x ensures InIndex(Step(s, a).store, k, x) == InIndex(s.store, k, x) {
      IndexChange(s, a, k, x);
    }
    MachineChange(s, a, k);
    if Runs(s, a) {
      CounterDetectsChange(s.store, NextCmd(s.procs[a.p]), k);
      if NextCmd(s.procs[a.p]).Set? {
        SetsAreTyped(s.procs[a.p]);
      }
    }
  }

  /** Nothing about machine `k` changed, in the store or among the attempts and creations on it. */
  lemma UnchangedStaysConsistent(s: State<Key>, s': State<Key>, k: Key)
    requires k.MachineKey? && Consistent(s, k)
    requires SameIndex(s.store, s'.store, k) && StateOf(s'.store, k) == StateOf(s.store, k)
    requires Ver(s'.store, k) == Ver(s.store, k)
    requires forall p :: DirtyOn(s', p, k) <==> DirtyOn(s, p, k)
    requires forall p :: DirtyOn(s, p, k) && p in s'.procs ==> s'.procs[p] == s.procs[p]
    requires forall p :: CreatingOn(s', p, k) <==> CreatingOn(s, p, k)
    ensures Consistent(s', k)
  {
  }

  lemma OthersKeepProcs(s: State<Key>, a: Action, p: nat, k: Key)
    requires !Moves(s, a, k)
    ensures DirtyOn(Step(s, a), p, k) <==> DirtyOn(s, p, k)
    ensures CreatingOn(Step(s, a), p, k) <==> CreatingOn(s, p, k)
    ensures DirtyOn(s, p, k) ==> p in Step(s, a).procs && Step(s, a).procs[p] == s.procs[p]
  {
    if a.p == p && a.Go? && Live(s, p) {
      var c := NextCmd(s.procs[p]);
      var r := Seen(s.store, c, a.d);
      assert Step(s, a).procs[p] == Advance(s.maxRetries, s.procs[p], r);
      assert OnMachine(Step(s, a).procs[p], k) == OnMachine(s.procs[p], k);
    }
  }

  lemma OtherStep(s: State<Key>, a: Action, k: Key)
    requires Invariants(s) && k.MachineKey? && Consistent(s, k) && !Moves(s, a, k)
    ensures Consistent(Step(s, a), k)
  {
    OthersLeaveMachine(s, a, k);
    var s' := Step(s, a);
    forall p
      ensures DirtyOn(s', p, k) <==> DirtyOn(s, p, k)
      ensures CreatingOn(s', p, k) <==> CreatingOn(s, p, k)
      ensures DirtyOn(s, p, k) && p in s'.procs ==> s'.procs[p] == s.procs[p]
    {
      OthersKeepProcs(s, a, p, k);
    }
    UnchangedStaysConsistent(s, s', k);
  }

  lemma NoCreationDuringEvent(s: State<Key>, p: nat, k: Key)
    requires Creations(s) && Live(s, p) && s.procs[p].Tx? && MachineOf(s.procs[p]) == k
    ensures forall q :: !CreatingOn(s, q, k)
  {
    forall q ensures !CreatingOn(s, q, k) {
      assert Live(s, q) && s.procs[q].Create? ==> CreatedKey(s.procs[q].id, s.procs[q].fsm) != k;
    }
  }

  /** Only `p` moved, the store stood still, and `p` was neither dirty nor creating, before or after. */
  lemma SilentStep(s: State<Key>, s': State<Key>, p: nat, k: Key)
    requires k.MachineKey? && Consistent(s, k) && s'.store == s.store
    requires forall q :: q != p ==> (q in s'.procs <==> q in s.procs) && (q in s.procs ==> s'.procs[q] == s.procs[q])
    requires !DirtyOn(s, p, k) && !DirtyOn(s', p, k) && !CreatingOn(s, p, k) && !CreatingOn(s', p, k)
    ensures Consistent(s', k)
  {
    UnchangedStaysConsistent(s, s', k);
  }

  lemma QuietStaysClean(proc: Proc, r: Reply)
    requires proc.Tx? && !IsDone(proc) && !Dirty(proc)
    requires proc.tx.Watching? || proc.tx.ReadingMachine? || proc.tx.ReadingConfig? || r.Failed?
    ensures !Dirty(proc.(tx := AdvanceTx(proc.tx, proc.evt, r)))
  {
  }

  /** A step of an attempt that writes neither the sets nor the record. */
  lemma QuietEventStep(s: State<Key>, p: nat, d: Delivery, k: Key)
    requires k.MachineKey? && Consistent(s, k) && Live(s, p) && s.procs[p].Tx? && !Dirty(s.procs[p])
    requires s.procs[p].tx.Watching? || s.procs[p].tx.ReadingMachine? || s.procs[p].tx.ReadingConfig? || !Executed(d)
    ensures Consistent(Step(s, Go(p, d)), k)
  {
    QuietStaysClean(s.procs[p], Seen(s.store, NextCmd(s.procs[p]), d));
    SilentStep(s, Step(s, Go(p, d)), p, k);
  }

  lemma RemovalStep(s: State<Key>, p: nat, k: Key)
    requires Invariants(s) && k.MachineKey? && Consistent(s, k) && Live(s, p) && s.procs[p].Tx? &&
        MachineOf(s.procs[p]) == k
    requires s.procs[p].tx.Removing?
    ensures Consistent(Step(s, Go(p, Delivered)), k)
  {
    var s' := Step(s, Go(p, Delivered));
    var plan := s.procs[p].tx.plan;
    SetChange(s, Go(p, Delivered), StateKey(k.cfg, plan.was.state));
    NoCreationDuringEvent(s, p, k);
    CounterDetectsChange(s.store, NextCmd(s.procs[p]), k);
    MachineChange(s, Go(p, Delivered), k);
    assert AttemptOk(s.store, k, s.procs[p].evt, s.procs[p].tx);
    assert DirtyOn(s', p, k);
    if Orderly(s', k) {
      OnlyDirty(s, s', p, k);
      assert Exact(s.store, k);
      forall y ensures InIndex(s'.store, k, y) <==> y == Pending(s'.procs[p]) && y != "" {
        IndexChange(s, Go(p, Delivered), k, y);
      }
    }
  }

  /** When the attempt is the only dirty one afterwards and was clean before, the machine was idle. */
  lemma OnlyDirty(s: State<Key>, s': State<Key>, p: nat, k: Key)
    requires Orderly(s', k) && DirtyOn(s', p, k) && p in s.procs && !Dirty(s.procs[p])
    requires forall q :: q != p ==> (q in s'.procs <==> q in s.procs) && (q in s.procs ==> s'.procs[q] == s.procs[q])
    requires forall q :: !CreatingOn(s, q, k)
    ensures Idle(s, k) && Orderly(s, k)
  {
    forall q ensures !DirtyOn(s, q, k) {
      assert DirtyOn(s, q, k) ==> DirtyOn(s', q, k);
    }
  }

  lemma AdditionStep(s: State<Key>, p: nat, k: Key)
    requires Invariants(s) && k.MachineKey? && Consistent(s, k) && Live(s, p) && s.procs[p].Tx? &&
        MachineOf(s.procs[p]) == k
    requires s.procs[p].tx.Adding?
    ensures Consistent(Step(s, Go(p, Delivered)), k)
  {
    var s' := Step(s, Go(p, Delivered));
    var plan := s.procs[p].tx.plan;
    SetChange(s, Go(p, Delivered), StateKey(k.cfg, plan.next.state));
    NoCreationDuringEvent(s, p, k);
    CounterDetectsChange(s.store, NextCmd(s.procs[p]), k);
    assert AttemptOk(s.store, k, s.procs[p].evt, s.procs[p].tx);
    assert DirtyOn(s', p, k);
    if Orderly(s', k) {
      if Dirty(s.procs[p]) {
        StillOrderly(s, s', p, k);
        assert DirtyOn(s, p, k);
      } else {
        OnlyDirty(s, s', p, k);
        assert Exact(s.store, k);
      }
      assert IndexIs(s.store, k, "");
      forall y ensures InIndex(s'.store, k, y) <==> y == Pending(s'.procs[p]) && y != "" {
        IndexChange(s, Go(p, Delivered), k, y);
      }
    }
  }

  lemma StillOrderly(s: State<Key>, s': State<Key>, p: nat, k: Key)
    requires Orderly(s', k) && DirtyOn(s', p, k) && DirtyOn(s, p, k) && Ver(s'.store, k) == Ver(s.store, k)
    requires s'.procs[p].tx.plan.ver == s.procs[p].tx.plan.ver
    requires forall q :: q != p ==> (q in s'.procs <==> q in s.procs) && (q in s.procs ==> s'.procs[q] == s.procs[q])
    requires forall q :: !CreatingOn(s, q, k)
    ensures Orderly(s, k)
  {
    forall q | DirtyOn(s, q, k) ensures q == p {
      assert DirtyOn(s', q, k);
    }
  }

  /** A commit dooms every other dirty attempt on the machine, so an orderly machine had none. */
  lemma CommitDoomsOthers(s: State<Key>, s': State<Key>, p: nat, k: Key)
    requires Locked(s) && Orderly(s', k) && p in s.procs && s.procs[p].Tx? && MachineOf(s.procs[p]) == k
    requires Ver(s'.store, k) == Ver(s.store, k) + 1
    requires forall q :: q != p ==> (q in s'.procs <==> q in s.procs) && (q in s.procs ==> s'.procs[q] == s.procs[q])
    ensures forall q :: q != p ==> !DirtyOn(s, q, k)
  {
    forall q | q != p ensures !DirtyOn(s, q, k) {
      if q in s.procs && s.procs[q].Tx? && MachineOf(s.procs[q]) == k {
        assert AttemptOk(s.store, k, s.procs[q].evt, s.procs[q].tx);
      }
      assert DirtyOn(s, q, k) ==> DirtyOn(s', q, k);
    }
  }

  /** Alone on the machine and about to commit, an attempt has its machine in the set of the new state only. */
  lemma SetsBeforeCommit(s: State<Key>, p: nat, k: Key)
    requires Creations(s) && Locked(s) && k.MachineKey? && Consistent(s, k) && Live(s, p) && s.procs[p].Tx? &&
        MachineOf(s.procs[p]) == k
    requires s.procs[p].tx.Executing? && Ver(s.store, k) == s.procs[p].tx.plan.ver
    requires forall q :: q != p ==> !DirtyOn(s, q, k)
    ensures IndexIs(s.store, k, s.procs[p].tx.plan.next.state)
  {
    NoCreationDuringEvent(s, p, k);
    assert Orderly(s, k);
    if Dirty(s.procs[p]) {
      assert DirtyOn(s, p, k);
    } else {
      assert AttemptOk(s.store, k, s.procs[p].evt, s.procs[p].tx);
      assert Idle(s, k);
    }
  }

  lemma CommitEffect(s: State<Key>, p: nat, d: Delivery, k: Key)
    requires WellTyped(s) && Named(s) && k.MachineKey? && Live(s, p) && s.procs[p].Tx? && MachineOf(s.procs[p]) == k
    requires s.procs[p].tx.Executing? && Executed(d) && Ver(s.store, k) == s.procs[p].tx.plan.ver
    ensures var s' := Step(s, Go(p, d));
            && SameIndex(s.store, s'.store, k) && StateOf(s'.store, k) == s.procs[p].tx.plan.next.state
            && Ver(s'.store, k) == Ver(s.store, k) + 1 && !DirtyOn(s', p, k)
  {
    forall x ensures InIndex(Step(s, Go(p, d)).store, k, x) == InIndex(s.store, k, x) {
      IndexChange(s, Go(p, d), k, x);
    }
  }

  lemma CommitStep(s: State<Key>, p: nat, d: Delivery, k: Key)
    requires Invariants(s) && k.MachineKey? && Consistent(s, k) && Live(s, p) && s.procs[p].Tx? &&
        MachineOf(s.procs[p]) == k
    requires s.procs[p].tx.Executing? && Executed(d) && Ver(s.store, k) == s.procs[p].tx.plan.ver
    ensures Consistent(Step(s, Go(p, d)), k)
  {
    var s' := Step(s, Go(p, d));
    CommitEffect(s, p, d, k);
    if Orderly(s', k) {
      CommitDoomsOthers(s, s', p, k);
      SetsBeforeCommit(s, p, k);
      assert Exact(s'.store, k);
      NothingPending(s', k);
    }
  }

  lemma NothingPending(s: State<Key>, k: Key)
    requires k.MachineKey? && Exact(s.store, k) && forall q :: !DirtyOn(s, q, k)
    ensures Consistent(s, k)
  {
  }

  /** An EXEC without index changes behind it that does not commit. */
  lemma AbortStep(s: State<Key>, p: nat, d: Delivery, k: Key)
    requires k.MachineKey? && Consistent(s, k) && Live(s, p) && s.procs[p].Tx? && MachineOf(s.procs[p]) == k
    requires s.procs[p].tx.Executing? && !Dirty(s.procs[p]) && Ver(s.store, k) != s.procs[p].tx.plan.ver
    ensures Consistent(Step(s, Go(p, d)), k)
  {
    var s' := Step(s, Go(p, d));
    assert s'.store == s.store && !s'.procs[p].tx.Adding? && !s'.procs[p].tx.Executing?;
    SilentStep(s, s', p, k);
  }

  lemma EventStep(s: State<Key>, p: nat, d: Delivery, k: Key)
    requires Invariants(s) && k.MachineKey? && Consistent(s, k) && Live(s, p) && s.procs[p].Tx? &&
        MachineOf(s.procs[p]) == k
    requires CleanGo(s, p, d)
    ensures Consistent(Step(s, Go(p, d)), k)
  {
    var pc := s.procs[p].tx;
    if pc.Removing? && d.Delivered? {
      RemovalStep(s, p, k);
    } else if pc.Adding? && d.Delivered? {
      AdditionStep(s, p, k);
    } else if pc.Executing? && Executed(d) && Ver(s.store, k) == pc.plan.ver {
      CommitStep(s, p, d, k);
    } else if pc.Executing? && Executed(d) {
      AbortStep(s, p, d, k);
    } else {
      QuietEventStep(s, p, d, k);
    }
  }

  // ---------------------------------------------------------------- creating calls

  lemma NoEventDuringCreation(s: State<Key>, p: nat, d: Delivery, k: Key)
    requires Creations(s) && Live(s, p) && s.procs[p].Create? && OnMachine(s.procs[p], k)
    ensures forall q :: !DirtyOn(s, q, k) && !DirtyOn(Step(s, Go(p, d)), q, k)
  {
    forall q ensures !DirtyOn(s, q, k) && !DirtyOn(Step(s, Go(p, d)), q, k) {
      assert Live(s, q) && s.procs[q].Tx? ==> MachineOf(s.procs[q]) != k;
    }
  }

  /** The creating call ends with its machine stored and in the set of its state. */
  lemma CreationEnds(s: State<Key>, p: nat, d: Delivery, k: Key)
    requires Invariants(s) && k.MachineKey? && Live(s, p) && Creating(s.procs[p]) && OnMachine(s.procs[p], k)
    requires CleanGo(s, p, d) && Step(s, Go(p, d)).procs[p].create.CreateDone?
    ensures Exact(Step(s, Go(p, d)).store, k)
  {
    var s' := Step(s, Go(p, d));
    assert CreationOk(s.store, s.procs[p]);
    MachineChange(s, Go(p, d), k);
    assert StateOf(s'.store, k) == s.procs[p].create.machine.state;
    forall y ensures InIndex(s'.store, k, y) <==> y == StateOf(s'.store, k) && y != "" {
      IndexChange(s, Go(p, d), k, y);
    }
  }

  lemma StillCreating(s: State<Key>, p: nat, k: Key)
    requires k.MachineKey? && CreatingOn(s, p, k)
    ensures Consistent(s, k)
  {
  }

  lemma CreateStep(s: State<Key>, p: nat, d: Delivery, k: Key)
    requires Invariants(s) && k.MachineKey? && Consistent(s, k) && Live(s, p) && s.procs[p].Create? &&
        OnMachine(s.procs[p], k)
    requires CleanGo(s, p, d)
    ensures Consistent(Step(s, Go(p, d)), k)
  {
    var s' := Step(s, Go(p, d));
    NoEventDuringCreation(s, p, d, k);
    if Creating(s'.procs[p]) {
      StillCreating(s', p, k);
    } else if Creating(s.procs[p]) {
      CreationEnds(s, p, d, k);
      NothingPending(s', k);
    } else {
      VoidCreationStep(s, p, d, k);
    }
  }

  lemma VoidCreationStep(s: State<Key>, p: nat, d: Delivery, k: Key)
    requires k.MachineKey? && Consistent(s, k) && Live(s, p) && s.procs[p].Create?
    requires s.procs[p].create.LookingUp? && !Creating(Step(s, Go(p, d)).procs[p])
    ensures Consistent(Step(s, Go(p, d)), k)
  {
    SilentStep(s, Step(s, Go(p, d)), p, k);
  }

  lemma ConsistentStep(s: State<Key>, a: Action, k: Key)
    requires Invariants(s) && k.MachineKey? && Consistent(s, k) && CleanStep(s, a)
    ensures Consistent(Step(s, a), k)
  {
    if !Moves(s, a, k) {
      OtherStep(s, a, k);
    } else if s.procs[a.p].Tx? {
      EventStep(s, a.p, a.d, k);
    } else {
      CreateStep(s, a.p, a.d, k);
    }
  }

  lemma {:induction false} CleanRunsKeepInvariants(n: int, trace: seq<Action>)
    requires CleanRun(n, trace) && NamedRun(trace)
    ensures Invariants(Run(n, trace))
  {
    RunsAreLocked(n, trace);
    RunsAreWellTyped(n, trace);
    ConfigurationsAreStoredUnderTheirIds(n, trace);
    if trace != [] {
      CleanRunsKeepInvariants(n, Front(trace));
      CreationsStep(Run(n, Front(trace)), Last(trace));
    }
  }

  lemma {:induction false} CleanRunsAreConsistent(n: int, trace: seq<Action>, k: Key)
    requires CleanRun(n, trace) && NamedRun(trace) && k.MachineKey?
    ensures Consistent(Run(n, trace), k)
  {
    if trace != [] {
      CleanRunsAreConsistent(n, Front(trace), k);
      CleanRunsKeepInvariants(n, Front(trace));
      ConsistentStep(Run(n, Front(trace)), Last(trace), k);
    }
  }

  /**
   In a run where machines are created once, events start after their machine's creating call
   returned, and attempts that touch the sets commit: whenever no attempt on the machine stands between
   its index change and its EXEC, the id is in the set of a state exactly when its record is in that state.
   */
  lemma IndexIsExact(n: int, trace: seq<Action>, k: Key)
    requires CleanRun(n, trace) && NamedRun(trace) && k.MachineKey?
    requires Idle(Run(n, trace), k)
    ensures Exact(Run(n, trace).store, k)
  {
    CleanRunsAreConsistent(n, trace, k);
    assert Orderly(Run(n, trace), k);
  }

  // ---------------------------------------------------------------- the index as a query

  /** A full table scan by configuration name and state. */
  function Scan(r: Redis<Key>, cfg: string, x: string): set<string> {
    set k | k in r.data && k.MachineKey? && k.cfg == cfg && r.data[k].Machine? && r.data[k].fsm.state == x :: k.id
  }

  /** Where the sets are exact, `GetAllInState` answers what the scan would. */
  lemma IndexRefinesScan(r: Redis<Key>, cfg: string, x: string)
    requires x != "" && forall id :: Exact(r, MachineKey(cfg, id))
    ensures MembersOf(r, StateKey(cfg, x)) == Scan(r, cfg, x)
  {
    forall id ensures id in MembersOf(r, StateKey(cfg, x)) <==> id in Scan(r, cfg, x) {
      var k := MachineKey(cfg, id);
      assert Exact(r, k);
      assert id in MembersOf(r, StateKey(cfg, x)) <==> InIndex(r, k, x);
      assert id in Scan(r, cfg, x) <==> k in r.data && r.data[k].Machine? && r.data[k].fsm.state == x;
    }
  }

  /** What follows when the EXEC of `p`, issued now, takes effect. */
  predicate ExecCommits(s: State<Key>, p: nat, d: Delivery)
    requires Live(s, p) && s.procs[p].Tx? && s.procs[p].tx.Executing?
  {
    Executed(d) && Ver(s.store, MachineOf(s.procs[p])) == s.procs[p].tx.plan.ver
  }

  /**
   Any attempt issues its EXEC, whatever other attempts have done to the sets. A commit leaves them exact when and only
   when the machine is in the set of the new state alone; without a commit they are exact when and only when they were.
   For an attempt whose addition still stands, that is: the machine is in no further set, and either the EXEC commits
   or the record happens to be in the new state anyway.
   */
  lemma ExecLeavesIndexExactIff(s: State<Key>, p: nat, d: Delivery)
    requires WellTyped(s) && Named(s) && Live(s, p) && s.procs[p].Tx? && s.procs[p].tx.Executing?
    ensures var k, x := MachineOf(s.procs[p]), s.procs[p].tx.plan.next.state;
            && (Exact(Step(s, Go(p, d)).store, k) <==>
                  if ExecCommits(s, p, d) then IndexIs(s.store, k, x) else Exact(s.store, k))
            && (x != "" && InIndex(s.store, k, x) ==>
                  (Exact(Step(s, Go(p, d)).store, k) <==>
                     IndexIs(s.store, k, x) && (ExecCommits(s, p, d) || StateOf(s.store, k) == x)))
  {
    var s', k, x := Step(s, Go(p, d)), MachineOf(s.procs[p]), s.procs[p].tx.plan.next.state;
    forall y ensures InIndex(s'.store, k, y) == InIndex(s.store, k, y) {
      IndexChange(s, Go(p, d), k, y);
    }
    MachineChange(s, Go(p, d), k);
    assert StateOf(s'.store, k) == if ExecCommits(s, p, d) then x else StateOf(s.store, k);
    SameSets(s.store, s'.store, k, StateOf(s'.store, k));
    if x != "" && InIndex(s.store, k, x) && Exact(s.store, k) {
      assert StateOf(s.store, k) == x;
    }
  }

  lemma SameSets(r: Redis<Key>, r': Redis<Key>, k: Key, x: string)
    requires k.MachineKey? && SameIndex(r, r', k)
    ensures IndexIs(r', k, x) <==> IndexIs(r, k, x)
  {
    if IndexIs(r, k, x) {
      forall y ensures InIndex(r', k, y) <==> y == x && y != "" {
        assert InIndex(r', k, y) == InIndex(r, k, y);
      }
    }
    if IndexIs(r', k, x) {
      forall y ensures InIndex(r, k, y) <==> y == x && y != "" {
        assert InIndex(r', k, y) == InIndex(r, k, y);
      }
    }
  }
}
