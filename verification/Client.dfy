/**
 The store's calls as the programs they are: loops over Redis commands with local variables. Each
 method drives its process through the concurrent system, under any interleaving with other calls
 and any loss of commands, so what holds of every run of the system holds of the programs.
 */
module Client {
  import opened Strings
  import opened Fsm
  import opened Keys
  import opened Redis
  import opened Server
  import opened Atomicity
  import opened Updates
  import opened Errors

  /** The environment at one command: what other calls do first, then what becomes of the command. */
  datatype Tick = Tick(others: seq<Action>, d: Delivery, text: string)

  /** The script after `k` commands; once it has run out, every command is delivered. */
  function Remaining(script: seq<Tick>, k: nat): seq<Tick> {
    if k <= |script| then script[k..] else []
  }

  predicate TimesOut(tick: Tick) {
    tick.d.Lost? && tick.d.timeout
  }

  /** How many commands in a row will time out. */
  function Timeouts(script: seq<Tick>): nat {
    if script == [] || !TimesOut(script[0]) then 0 else 1 + Timeouts(script[1..])
  }

  /**
   The commands that `get` and `put` issue: one more than time out in a row, cut off at `maxRetries` only if that is
   positive.
   */
  function Tries(maxRetries: int, script: seq<Tick>): nat {
    if 1 <= maxRetries <= Timeouts(script) then maxRetries else Timeouts(script) + 1
  }

  /** After `issued` commands that all timed out, `rest` of the script is left. */
  predicate AllTimedOut(script: seq<Tick>, rest: seq<Tick>, issued: nat) {
    issued <= |script| && rest == script[issued..] && Timeouts(script) == issued + Timeouts(rest)
  }

  lemma NextTick(script: seq<Tick>, rest: seq<Tick>, issued: nat)
    requires AllTimedOut(script, rest, issued)
    ensures Remaining(rest, 1) == Remaining(script, issued + 1)
    ensures rest != [] ==> issued < |script| && rest[0] == script[issued]
    ensures rest != [] && TimesOut(rest[0]) ==>
              AllTimedOut(script, Remaining(rest, 1), issued + 1) && issued < Timeouts(script)
    ensures rest == [] || !TimesOut(rest[0]) ==> Timeouts(script) == issued
    ensures rest == [] ==> issued == |script|
  {
  }

  /** The retry limit is kept for every script if and only if it is at least one; below that there is no limit. */
  lemma RetryLimitKeptIff(maxRetries: int, script: seq<Tick>)
    ensures Tries(maxRetries, script) <= maxRetries <==> maxRetries >= 1
    ensures maxRetries < 1 || maxRetries > Timeouts(script) ==> Tries(maxRetries, script) == Timeouts(script) + 1
    ensures 1 <= maxRetries <= Timeouts(script) ==> Tries(maxRetries, script) == maxRetries
  {
  }

  // ---------------------------------------------------------------- call numbers

  lemma {:induction false} Bounded(ps: set<nat>) returns (b: nat)
    ensures forall p :: p in ps ==> p < b
  {
    b := 0;
    if ps != {} {
      var q :| q in ps;
      b := Bounded(ps - {q});
      if b <= q {
        b := q + 1;
      }
      forall p | p in ps ensures p < b {
        assert p != q ==> p in ps - {q};
      }
    }
  }

  lemma FreshNumber(procs: map<nat, Proc>)
    ensures exists p: nat :: p !in procs
  {
    var b := Bounded(procs.Keys);
    assert b !in procs;
  }

  /** A call that has ended stays as it ended. */
  lemma {:induction false} EndedCallsStay(n: int, before: seq<Action>, after: seq<Action>, p: nat)
    requires before <= after && p in Run(n, before).procs
    ensures p in Run(n, after).procs
    ensures IsDone(Run(n, before).procs[p]) ==> Run(n, after).procs[p] == Run(n, before).procs[p]
  {
    if before != after {
      assert before <= Front(after);
      EndedCallsStay(n, before, Front(after), p);
    }
  }

  /** The calls a client has made, in order. */
  datatype Ledger = NoCalls | Opened(earlier: Ledger, call: nat)

  predicate Has(calls: Ledger, p: nat) {
    calls.Opened? && (calls.call == p || Has(calls.earlier, p))
  }

  /** The calls are under way or ended, and no number is used twice. */
  predicate Owned(calls: Ledger, procs: map<nat, Proc>) {
    calls.NoCalls? || (Owned(calls.earlier, procs) && calls.call in procs && !Has(calls.earlier, calls.call))
  }

  lemma {:induction false} OwnedStays(calls: Ledger, procs: map<nat, Proc>, more: map<nat, Proc>)
    requires Owned(calls, procs) && procs.Keys <= more.Keys
    ensures Owned(calls, more)
  {
    if calls.Opened? {
      OwnedStays(calls.earlier, procs, more);
      assert calls.call in procs.Keys;
    }
  }

  lemma {:induction false} OwnedCallsExist(calls: Ledger, procs: map<nat, Proc>)
    requires Owned(calls, procs)
    ensures forall p :: Has(calls, p) ==> p in procs
  {
    if calls.Opened? {
      OwnedCallsExist(calls.earlier, procs);
    }
  }

  // ---------------------------------------------------------------- error texts

  function RemoveError(cfgName: string, id: string, state: string, text: string): string {
    "cannot remove FSM [" + cfgName + "#" + id + "] from state set `" + state + "`: " + text
  }

  function AddError(cfgName: string, id: string, state: string, text: string): string {
    "cannot add FSM [" + cfgName + "#" + id + "] to state set `" + state + "`: " + text
  }

  lemma RemoveErrorIsWorded()
    ensures RemoveError("orders", "42", "open", "EOF") == "cannot remove FSM [orders#42] from state set `open`: EOF"
  {
    assert "cannot remove FSM [" + "orders" + "#" + "42" == "cannot remove FSM [orders#42";
    var head := "cannot remove FSM [orders#42] from state set `open";
    assert "cannot remove FSM [orders#42" + "] from state set `" + "open" == head;
  }

  lemma AddErrorIsWorded()
    ensures AddError("orders", "42", "open", "EOF") == "cannot add FSM [orders#42] to state set `open`: EOF"
  {
    assert "cannot add FSM [" + "orders" + "#" + "42" == "cannot add FSM [orders#42";
    assert "cannot add FSM [orders#42" + "] to state set `" + "open" == "cannot add FSM [orders#42] to state set `open";
  }

  /** The error of a lookup that broke: raw or wrapped. */
  function BrokenText(text: string, raw: bool): string {
    if raw then text else GenericStoreError(text)
  }

  /** What an event call returns, as text. */
  ghost predicate TxText(id: string, cfgName: string, err: Result, text: string) {
    && (err.MachineNotFound? ==> text == NotFoundError(NewKeyForMachine(id, cfgName)))
    && (err == ConfigNotFound(false) ==>
          exists configId :: text == NotFoundError(NotFoundError(NewKeyForConfig(configId))))
    && (err == ConfigNotFound(true) ==> exists broken, raw :: text == NotFoundError(BrokenText(broken, raw)))
    && (err == Refused ==> text == UNEXPECTED_TRANSITION)
    && (err == RetriesExceeded ==> text == TOO_MANY_ATTEMPTS)
  }

  /** The error a lookup returns: "not found", or that of a lookup that broke. */
  function LookupText(key: string, r: Reply, text: string): string {
    if r.Nil? then NotFoundError(key) else BrokenText(text, (r.Failed? && r.timeout) || r.Found?)
  }

  /** Not found, the raw error after the last timeout or for a record that does not parse, a store error otherwise. */
  lemma LookupErrorsAreWorded(key: string, r: Reply, text: string)
    ensures r.Nil? ==> LookupText(key, r, text) == "key " + key + " not found"
    ensures r.Failed? && r.timeout ==> LookupText(key, r, text) == text
    ensures r.Found? ==> LookupText(key, r, text) == text
    ensures (r.Failed? && !r.timeout) || r.WrongType? ==> LookupText(key, r, text) == "store error: " + text
  {
  }

  /** What `put` returns, as text. */
  ghost predicate PutText(err: Result, text: string) {
    && (err == Success ==> text == "")
    && (err == RetriesExceeded ==> text == TOO_MANY_ATTEMPTS)
    && (err == StoreFailure ==> exists raw :: text == GenericStoreError(raw))
  }

  lemma LookupTexts(id: string, cfgName: string, configId: string, r: Reply, text: string)
    ensures TxText(id, cfgName, ConfigNotFound(!r.Nil?), NotFoundError(LookupText(NewKeyForConfig(configId), r, text)))
  {
    if !r.Nil? {
      assert LookupText(NewKeyForConfig(configId), r, text) == BrokenText(text, (r.Failed? && r.timeout) || r.Found?);
    }
  }

  // ---------------------------------------------------------------- processes inside `put`

  predicate IsPutting(proc: Proc) {
    match proc
    case Tx(_, _, _, _) => false
    case Create(_, _, pc) => pc.Storing?
    case Configure(_, pc) => pc.StoringConfig?
    case Save(_, _, pc) => pc.Saving?
  }

  function WithLeft(proc: Proc, left: int): Proc
    requires IsPutting(proc)
  {
    match proc
    case Create(_, _, pc) => proc.(create := pc.(left := left))
    case Configure(_, _) => proc.(conf := StoringConfig(left))
    case Save(_, _, _) => proc.(save := Saving(left))
  }

  /** Where a process goes when its `put` returns `err`. */
  function PutEnd(proc: Proc, err: Result): Proc
    requires IsPutting(proc)
  {
    match proc
    case Create(_, _, pc) =>
      var nonempty := pc.machine.state != "";
      proc.(create := if err == Success && nonempty then Indexing(pc.name, pc.machine) else CreateDone(err))
    case Configure(_, _) => proc.(conf := ConfigDone(err))
    case Save(_, _, _) => proc.(save := SaveDone(err))
  }

  // ---------------------------------------------------------------- what a `put` leaves behind

  function Follow(s: State<Key>, acts: seq<Action>): State<Key> {
    if acts == [] then s else Step(Follow(s, Front(acts)), Last(acts))
  }

  /** No other process touches `k`. */
  predicate Undisturbed(s: State<Key>, acts: seq<Action>, p: nat, k: Key) {
    acts == [] ||
    (Undisturbed(s, Front(acts), p, k) &&
     var t := Follow(s, Front(acts)); Last(acts).p != p ==> SameAt(t.store, Step(t, Last(acts)).store, k))
  }

  /** The same call, in its `put` or past it. */
  predicate SamePut(proc: Proc, q: Proc)
    requires IsPutting(proc)
  {
    match proc
    case Create(id, fsm, pc) =>
      q.Create? && q.id == id && q.fsm == fsm && !q.create.LookingUp? &&
        (IsPutting(q) ==> q.create.machine == pc.machine)
    case Configure(c, _) => q.Configure? && q.config == c && (IsPutting(q) || IsDone(q))
    case Save(k, v, _) => q.Save? && q.k == k && q.v == v
  }

  /** The `put` has returned nil. */
  predicate PutReturnedNil(q: Proc) {
    match q
    case Tx(_, _, _, _) => false
    case Create(_, _, pc) => pc.Indexing? || pc == CreateDone(Success)
    case Configure(_, pc) => pc == ConfigDone(Success)
    case Save(_, _, pc) => pc == SaveDone(Success)
  }

  predicate Holds(r: Redis<Key>, k: Key, v: Value) {
    k in r.data && r.data[k] == v
  }

  /**
   Whatever times out and whether or not a timed-out SET was executed, a `put` nobody interferes with
   leaves the old value or the new one under its key, and the new one when it returns nil.
   */
  lemma {:induction false} PutLeavesOldOrNew(s: State<Key>, acts: seq<Action>, p: nat)
    requires p in s.procs && IsPutting(s.procs[p]) && Undisturbed(s, acts, p, NextCmd(s.procs[p]).k)
    ensures var s', k, v := Follow(s, acts), NextCmd(s.procs[p]).k, NextCmd(s.procs[p]).v;
            && p in s'.procs && SamePut(s.procs[p], s'.procs[p])
            && (SameAt(s.store, s'.store, k) || Holds(s'.store, k, v))
            && (PutReturnedNil(s'.procs[p]) ==> Holds(s'.store, k, v))
  {
    if acts != [] {
      PutLeavesOldOrNew(s, Front(acts), p);
      PutStep(s, Follow(s, Front(acts)), Last(acts), p);
    }
  }

  lemma PutStep(s: State<Key>, t: State<Key>, a: Action, p: nat)
    requires p in s.procs && IsPutting(s.procs[p]) && p in t.procs && SamePut(s.procs[p], t.procs[p])
    requires var k, v := NextCmd(s.procs[p]).k, NextCmd(s.procs[p]).v;
             && (a.p != p ==> SameAt(t.store, Step(t, a).store, k))
             && (SameAt(s.store, t.store, k) || Holds(t.store, k, v))
             && (PutReturnedNil(t.procs[p]) ==> Holds(t.store, k, v))
    ensures var t', k, v := Step(t, a), NextCmd(s.procs[p]).k, NextCmd(s.procs[p]).v;
            && p in t'.procs && SamePut(s.procs[p], t'.procs[p])
            && (SameAt(s.store, t'.store, k) || Holds(t'.store, k, v))
            && (PutReturnedNil(t'.procs[p]) ==> Holds(t'.store, k, v))
  {
    if a.Go? && a.p == p && Live(t, p) && IsPutting(t.procs[p]) {
      assert NextCmd(t.procs[p]) == NextCmd(s.procs[p]);
    }
  }

  // ---------------------------------------------------------------- processes inside `UpdateState`

  /** The process is about to move machine `id` of `cfgName` from one set to another; an empty state is skipped. */
  predicate IsUpdating(proc: Proc, cfgName: string, id: string, oldState: string, newState: string) {
    match proc
    case Tx(i, cfg, _, pc) =>
      && i == id && cfg == cfgName
      && (pc.Removing? || pc.Adding? || pc.Executing?)
      && (pc.Removing? ==> oldState == pc.plan.was.state != "" && newState == pc.plan.next.state)
      && (pc.Adding? ==> oldState == "" && newState == pc.plan.next.state != "")
      && (pc.Executing? ==> oldState == newState == "")
    case Create(i, _, pc) =>
      && i == id && oldState == "" && (pc.Indexing? || pc == CreateDone(Success))
      && (if pc.Indexing? then pc.name == cfgName && newState == pc.machine.state != "" else newState == "")
    case _ => false
  }

  /** Where a process goes when its `UpdateState` returns. */
  function UpdateEnd(proc: Proc, ok: bool): Proc
    requires (proc.Tx? && HasPlan(proc.tx)) || proc.Create?
  {
    match proc
    case Tx(_, _, _, pc) => proc.(tx := if ok then Executing(pc.attempt, pc.plan) else TxDone(StoreFailure))
    case Create(_, _, _) => proc.(create := CreateDone(if ok then Success else StoreFailure))
  }

  // ---------------------------------------------------------------- with every command answered and nobody else about

  /** No record, and no machine's version, differs. */
  ghost predicate SameRecords(r: Redis<Key>, r': Redis<Key>) {
    && (forall k :: MachineAt(r', k) == MachineAt(r, k) && ConfigAt(r', k) == ConfigAt(r, k))
    && (forall k: Key :: k.MachineKey? ==> Ver(r', k) == Ver(r, k))
  }

  lemma SetsMoveAlone(s: State<Key>, c: Cmd<Key>)
    requires WellTyped(s) && (c.SAdd? || c.SRem?) && c.k.StateKey?
    ensures Answer(s.store, c) == Done && SameRecords(s.store, Effect(s.store, c))
  {
  }

  /** How an event call ends, and what it leaves, from what it finds. */
  predicate Sequential(r: Redis<Key>, r': Redis<Key>, id: string, cfgName: string, evt: Event, err: Result) {
    var k := MachineKey(cfgName, id);
    if MachineAt(r, k).None? then err == MachineNotFound(false) && r' == r
    else
      var m := MachineAt(r, k).value;
      var c := ConfigAt(r, KeyForConfigId(m.configId));
      if c.None? then err.ConfigNotFound? && r' == r
      else if SendEvent(c.value, m, evt).None? then err == Refused && r' == r
      else err == Success && MachineAt(r', k) == SendEvent(c.value, m, evt)
  }

  datatype Attempted = Ended(err: Result, text: string) | Retry

  class RedisStore {
    /** The shared Redis, and every call on every server that uses it. */
    var sys: State<Key>
    /** What the environment will do at this client's next commands. */
    var script: seq<Tick>
    const maxRetries: int
    ghost var trace: seq<Action>
    /** The calls this client has made, in order. */
    ghost var calls: Ledger

    ghost predicate Valid()
      reads this
    {
      sys == Run(maxRetries, trace) && Owned(calls, sys.procs)
    }

    constructor (maxRetries: int, script: seq<Tick>)
      ensures Valid() && trace == [] && calls == NoCalls && this.maxRetries == maxRetries && this.script == script
    {
      this.maxRetries := maxRetries;
      this.script := script;
      this.sys := Init(maxRetries);
      this.trace := [];
      this.calls := NoCalls;
    }

    method Act(a: Action)
      requires Valid()
      modifies `sys, `trace
      ensures Valid() && trace == old(trace) + [a] && sys == Step(old(sys), a)
    {
      sys := Step(sys, a);
      trace := trace + [a];
      assert Front(trace) == old(trace);
      OwnedStays(calls, old(sys.procs), sys.procs);
    }

    /** Begin a call under a number not in use. */
    method Open(call: Call) returns (p: nat)
      requires Valid()
      modifies `sys, `trace, `calls
      ensures Valid() && old(trace) <= trace && calls == Opened(old(calls), p) && sys.store == old(sys.store)
      ensures p !in old(sys.procs) && sys.procs == old(sys.procs)[p := Start(maxRetries, call)]
    {
      FreshNumber(sys.procs);
      RunKeepsRetries(maxRetries, trace);
      p :| p !in sys.procs;
      OwnedCallsExist(calls, sys.procs);
      Act(Begin(p, call));
      calls := Opened(calls, p);
    }

    /** Other calls act, and the fate of this call's next command is drawn. */
    method Await(p: nat) returns (d: Delivery, text: string)
      requires Valid() && Live(sys, p)
      modifies this
      ensures Valid() && old(trace) <= trace && calls == old(calls) && Live(sys, p) && sys.procs[p] == old(sys.procs[p])
      ensures script == Remaining(old(script), 1) && d == if old(script) == [] then Delivered else old(script)[0].d
      ensures old(script) == [] ==> sys == old(sys)
    {
      if script == [] {
        return Delivered, "";
      }
      var tick := script[0];
      script := script[1..];
      var i := 0;
      while i < |tick.others|
        invariant 0 <= i <= |tick.others| && Valid() && old(trace) <= trace && calls == old(calls)
        invariant Live(sys, p) && sys.procs[p] == old(sys.procs[p]) && script == old(script)[1..]
      {
        if tick.others[i].p != p {
          Act(tick.others[i]);
        }
        i := i + 1;
      }
      return tick.d, tick.text;
    }

    /** The command `c`, with the reply this client sees. */
    method Issue(p: nat, c: Cmd<Key>, d: Delivery) returns (r: Reply)
      requires Valid() && Live(sys, p) && c == NextCmd(sys.procs[p])
      modifies `sys, `trace
      ensures Valid() && old(trace) <= trace && p in sys.procs
      ensures r == Seen(old(sys.store), c, d) && sys.procs[p] == Advance(maxRetries, old(sys.procs[p]), r)
      ensures sys.store == if Executed(d) then Effect(old(sys.store), c) else old(sys.store)
    {
      RunKeepsRetries(maxRetries, trace);
      r := Seen(sys.store, c, d);
      Act(Go(p, d));
    }

    method Command(p: nat, c: Cmd<Key>) returns (r: Reply, text: string)
      requires Valid() && Live(sys, p) && c == NextCmd(sys.procs[p])
      modifies this
      ensures Valid() && old(trace) <= trace && calls == old(calls) && p in sys.procs
      ensures sys.procs[p] == Advance(maxRetries, old(sys.procs[p]), r) && script == Remaining(old(script), 1)
      ensures r.Failed? && r.timeout <==> old(script) != [] && TimesOut(old(script)[0])
      ensures r.Failed? <==> old(script) != [] && old(script)[0].d.Lost?
      ensures c.Set? && !r.Failed? ==> r.Done?
      ensures old(script) == [] ==> r == Answer(old(sys.store), c) && sys.store == Effect(old(sys.store), c)
    {
      var d;
      d, text := Await(p);
      r := Issue(p, c, d);
    }

    /** The loop of `get`: a lookup that times out is tried again while attempts are left. */
    method Get(p: nat, k: Key) returns (r: Reply, text: string, issued: nat)
      requires Valid() && Live(sys, p) && NextCmd(sys.procs[p]) == Cmd.Get(k)
      modifies this
      ensures Valid() && old(trace) <= trace && calls == old(calls) && p in sys.procs
      ensures sys.procs[p] == Advance(maxRetries, old(sys.procs[p]), r)
      ensures script == Remaining(old(script), issued) && issued == Tries(maxRetries, old(script))
      ensures r.Failed? && r.timeout <==> 1 <= maxRetries <= Timeouts(old(script))
      ensures old(script) == [] ==> r == Answer(old(sys.store), Cmd.Get(k)) && sys.store == old(sys.store)
    {
      var attemptsLeft := maxRetries;
      issued := 0;
      while true
        invariant Valid() && old(trace) <= trace && calls == old(calls)
        invariant Live(sys, p) && sys.procs[p] == old(sys.procs[p])
        invariant old(script) == [] ==> sys == old(sys)
        invariant issued == maxRetries - attemptsLeft && (maxRetries >= 1 ==> attemptsLeft >= 1)
        invariant AllTimedOut(old(script), script, issued)
        decreases |script|
      {
        attemptsLeft := attemptsLeft - 1;
        issued := issued + 1;
        NextTick(old(script), script, issued - 1);
        var d;
        d, text := Await(p);
        if !d.Delivered? && d.timeout && attemptsLeft != 0 {
          continue;
        }
        r := Issue(p, Cmd.Get(k), d);
        return;
      }
    }

    /** One SET of `put`, with `left` tries to go. */
    method TrySet(p: nat, k: Key, v: Value, ghost proc: Proc, ghost left: int) returns (r: Reply, text: string)
      requires Valid() && p in sys.procs && IsPutting(proc) && sys.procs[p] == WithLeft(proc, left)
      requires NextCmd(proc) == Set(k, v)
      modifies this
      ensures Valid() && old(trace) <= trace && calls == old(calls) && p in sys.procs
      ensures r.Done? || r.Failed?
      ensures r.Failed? <==> old(script) != [] && old(script)[0].d.Lost?
      ensures r.Failed? && r.timeout <==> old(script) != [] && TimesOut(old(script)[0])
      ensures sys.procs[p] ==
              if r.Done? then PutEnd(proc, Success)
              else if !r.timeout then PutEnd(proc, StoreFailure)
              else if left == 1 then PutEnd(proc, RetriesExceeded)
              else WithLeft(proc, left - 1)
      ensures script == Remaining(old(script), 1)
      ensures old(script) == [] ==> sys.store == Effect(old(sys.store), Set(k, v))
    {
      r, text := Command(p, Set(k, v));
    }

    /** The loop of `put`: a SET that times out, executed or not, is sent again while attempts are left. */
    method Store(p: nat, k: Key, v: Value) returns (err: Result, text: string, issued: nat)
      requires Valid() && p in sys.procs && IsPutting(sys.procs[p])
      requires sys.procs[p] == WithLeft(sys.procs[p], maxRetries) && NextCmd(sys.procs[p]) == Set(k, v)
      modifies this
      ensures Valid() && old(trace) <= trace && calls == old(calls) && p in sys.procs
      ensures sys.procs[p] == PutEnd(old(sys.procs[p]), err) && err in {Success, RetriesExceeded, StoreFailure}
      ensures PutText(err, text)
      ensures script == Remaining(old(script), issued) && issued == Tries(maxRetries, old(script))
      ensures var first := Timeouts(old(script));
              && (err == RetriesExceeded <==> 1 <= maxRetries <= first)
              && (err == StoreFailure <==>
                    !(1 <= maxRetries <= first) && first < |old(script)| && old(script)[first].d.Lost?)
      ensures old(script) == [] ==> sys.store == Effect(old(sys.store), Set(k, v))
    {
      var attemptsLeft := maxRetries;
      issued := 0;
      while true
        invariant Valid() && old(trace) <= trace && calls == old(calls) && p in sys.procs
        invariant sys.procs[p] == WithLeft(old(sys.procs[p]), attemptsLeft)
        invariant old(script) == [] ==> sys == old(sys)
        invariant issued == maxRetries - attemptsLeft && (maxRetries >= 1 ==> attemptsLeft >= 1)
        invariant AllTimedOut(old(script), script, issued)
        decreases |script|
      {
        attemptsLeft := attemptsLeft - 1;
        issued := issued + 1;
        NextTick(old(script), script, issued - 1);
        var r;
        r, text := TrySet(p, k, v, old(sys.procs[p]), attemptsLeft + 1);
        if !r.Done? {
          if r.Failed? && r.timeout {
            if attemptsLeft == 0 {
              return RetriesExceeded, TOO_MANY_ATTEMPTS, issued;
            }
          } else {
            return StoreFailure, GenericStoreError(text), issued;
          }
        } else {
          return Success, "", issued;
        }
      }
    }

    /** A call that is one `put` and nothing else. */
    method Put(call: Call, k: Key, v: Value) returns (p: nat, err: Result, text: string)
      requires Valid() && Start(maxRetries, call) == Save(k, v, Saving(maxRetries))
      modifies this
      ensures Valid() && old(trace) <= trace && calls == Opened(old(calls), p) && p !in old(sys.procs) && p in sys.procs
      ensures sys.procs[p] == Save(k, v, SaveDone(err)) && PutText(err, text)
      ensures old(script) == [] ==> err == Success && script == [] && sys.store == Effect(old(sys.store), Set(k, v))
    {
      var issued;
      p := Open(call);
      err, text, issued := Store(p, k, v);
    }

    method PutStateMachine(id: string, fsm: FiniteStateMachine) returns (p: nat, err: Result, text: string)
      requires Valid()
      modifies this
      ensures Valid() && old(trace) <= trace && calls == Opened(old(calls), p) && p !in old(sys.procs) && p in sys.procs
      ensures sys.procs[p] == Save(MachineKey(NameOf(fsm.configId), id), Machine(fsm), SaveDone(err))
    {
      p, err, text := Put(Call.PutStateMachine(id, fsm), MachineKey(NameOf(fsm.configId), id), Machine(fsm));
    }

    method PutEvent(evt: EventRecord, cfgName: string) returns (p: nat, err: Result, text: string)
      requires Valid()
      modifies this
      ensures Valid() && old(trace) <= trace && calls == Opened(old(calls), p) && p !in old(sys.procs) && p in sys.procs
      ensures sys.procs[p] == Save(EventKey(cfgName, evt.id), Stored(evt), SaveDone(err)) && PutText(err, text)
      ensures old(script) == [] ==>
                && err == Success && script == []
                && sys.store == Effect(old(sys.store), Set(EventKey(cfgName, evt.id), Stored(evt)))
    {
      p, err, text := Put(Call.PutEvent(cfgName, evt), EventKey(cfgName, evt.id), Stored(evt));
    }

    method AddEventOutcome(id: string, cfgName: string, outcome: EventOutcome)
      returns (p: nat, err: Result, text: string)
      requires Valid()
      modifies this
      ensures Valid() && old(trace) <= trace && calls == Opened(old(calls), p) && p !in old(sys.procs) && p in sys.procs
      ensures sys.procs[p] == Save(OutcomeKey(cfgName, id), Outcome(outcome), SaveDone(err))
    {
      p, err, text := Put(Call.AddEventOutcome(cfgName, id, outcome), OutcomeKey(cfgName, id), Outcome(outcome));
    }

    /** Check, list the name, list the version, store; only a check that says "there" stops it. */
    method PutConfig(cfg: Configuration) returns (p: nat, err: Result)
      requires Valid()
      modifies this
      ensures Valid() && old(trace) <= trace && calls == Opened(old(calls), p) && p !in old(sys.procs) && p in sys.procs
      ensures sys.procs[p] == Configure(cfg, ConfigDone(err))
    {
      var key := KeyForConfigId(VersionId(cfg));
      p := Open(Call.PutConfig(cfg));
      var r, text := Command(p, Exists(key));
      if r == Number(1) {
        return p, AlreadyExists;
      }
      List(p, cfg);
      var issued;
      err, text, issued := Store(p, key, Config(cfg));
    }

    /** The two additions to the listings; what becomes of them is ignored. */
    method List(p: nat, cfg: Configuration)
      requires Valid() && p in sys.procs && sys.procs[p] == Configure(cfg, AddingName)
      modifies this
      ensures Valid() && old(trace) <= trace && calls == old(calls) && p in sys.procs
      ensures sys.procs[p] == Configure(cfg, StoringConfig(maxRetries))
    {
      var r, text := Command(p, SAdd(NamesKey, cfg.name));
      r, text := Command(p, SAdd(VersionsKey(cfg.name), VersionId(cfg)));
    }

    /** Look up the configuration, default the state, store the record, then add it to the set of its state. */
    method PutFiniteStateMachine(id: string, fsm: FiniteStateMachine) returns (p: nat, err: Result)
      requires Valid()
      modifies this
      ensures Valid() && old(trace) <= trace && calls == Opened(old(calls), p) && p !in old(sys.procs) && p in sys.procs
      ensures sys.procs[p] == Create(id, fsm, CreateDone(err))
    {
      p := Open(Call.PutFiniteStateMachine(id, fsm));
      var r, text, issued := Get(p, KeyForConfigId(fsm.configId));
      if !(r.Found? && r.value.Config?) {
        return p, ConfigNotFound(!r.Nil?);
      }
      var cfg := r.value.cfg;
      var machine := fsm;
      if machine.state == "" {
        machine := machine.(state := cfg.startingState);
      }
      err, text, issued := Store(p, MachineKey(NameOf(machine.configId), id), Machine(machine));
      if err == Success {
        var ok;
        ok, text := UpdateState(p, cfg.name, id, "", machine.state);
        err := if ok then Success else StoreFailure;
      }
    }

    /** Out of the set of the old state, then into the set of the new one; an empty state is skipped. */
    method UpdateState(p: nat, cfgName: string, id: string, oldState: string, newState: string)
      returns (ok: bool, text: string)
      requires Valid() && p in sys.procs && IsUpdating(sys.procs[p], cfgName, id, oldState, newState)
      modifies this
      ensures Valid() && old(trace) <= trace && calls == old(calls) && p in sys.procs
      ensures sys.procs[p] == UpdateEnd(old(sys.procs[p]), ok)
      ensures !ok ==>
                || (oldState != "" && exists raw :: text == RemoveError(cfgName, id, oldState, raw))
                || (newState != "" && exists raw :: text == AddError(cfgName, id, newState, raw))
      ensures old(script) == [] ==> ok && script == [] && SameRecords(old(sys.store), sys.store)
    {
      text := "";
      var r;
      RunsAreWellTyped(maxRetries, trace);
      if oldState != "" {
        SetsMoveAlone(sys, SRem(StateKey(cfgName, oldState), id));
        r, text := Command(p, SRem(StateKey(cfgName, oldState), id));
        if !r.Done? {
          return false, RemoveError(cfgName, id, oldState, text);
        }
      }
      assert IsUpdating(sys.procs[p], cfgName, id, "", newState);
      RunsAreWellTyped(maxRetries, trace);
      if newState != "" {
        SetsMoveAlone(sys, SAdd(StateKey(cfgName, newState), id));
        r, text := Command(p, SAdd(StateKey(cfgName, newState), id));
        if !r.Done? {
          return false, AddError(cfgName, id, newState, text);
        }
      }
      return true, text;
    }

    /** One attempt, after its WATCH saw version `ver`: read, compute, then the transaction. */
    method Attempt(p: nat, id: string, cfgName: string, evt: Event, ver: nat, ghost i: nat) returns (a: Attempted)
      requires Valid() && p in sys.procs && sys.procs[p] == Tx(id, cfgName, evt, ReadingMachine(i, ver))
      modifies this
      ensures Valid() && old(trace) <= trace && calls == old(calls) && p in sys.procs
      ensures a.Ended? ==> sys.procs[p] == Tx(id, cfgName, evt, TxDone(a.err)) && TxText(id, cfgName, a.err, a.text)
      ensures a.Retry? ==> sys.procs[p] == Tx(id, cfgName, evt, AfterAbort(i))
      ensures old(script) == [] && Ver(old(sys.store), MachineKey(cfgName, id)) == ver ==>
                a.Ended? && script == [] && Sequential(old(sys.store), sys.store, id, cfgName, evt, a.err)
    {
      RunsAreWellTyped(maxRetries, trace);
      var r, text, issued := Get(p, MachineKey(cfgName, id));
      if !(r.Found? && r.value.Machine?) {
        return Ended(MachineNotFound(!r.Nil?), NotFoundError(NewKeyForMachine(id, cfgName)));
      }
      var fsm := r.value.fsm;
      r, text, issued := Get(p, KeyForConfigId(fsm.configId));
      if !(r.Found? && r.value.Config?) {
        LookupTexts(id, cfgName, fsm.configId, r, text);
        return Ended(ConfigNotFound(!r.Nil?), NotFoundError(LookupText(NewKeyForConfig(fsm.configId), r, text)));
      }
      var cfg := r.value.cfg;
      var next := SendEvent(cfg, fsm, evt);
      if next.None? {
        return Ended(Refused, UNEXPECTED_TRANSITION);
      }
      a := Pipelined(p, id, cfgName, evt, ver, fsm.state, next.value, i, Plan(ver, fsm, cfg, next.value));
    }

    /** The transaction: queue the new record, move the machine between the sets at once, then EXEC. */
    method Pipelined(p: nat, id: string, cfgName: string, evt: Event, ver: nat, oldState: string,
        fsm: FiniteStateMachine, ghost i: nat, ghost plan: Plan) returns (a: Attempted)
      requires Valid() && p in sys.procs && sys.procs[p] == Tx(id, cfgName, evt, BeforeRemoval(i, plan))
      requires plan.ver == ver && plan.was.state == oldState && plan.next == fsm
      modifies this
      ensures Valid() && old(trace) <= trace && calls == old(calls) && p in sys.procs
      ensures a.Ended? ==> sys.procs[p] == Tx(id, cfgName, evt, TxDone(a.err)) && a.err in {Success, StoreFailure}
      ensures a.Retry? ==> sys.procs[p] == Tx(id, cfgName, evt, AfterAbort(i))
      ensures old(script) == [] && Ver(old(sys.store), MachineKey(cfgName, id)) == ver ==>
                && a.Ended? && a.err == Success && script == []
                && MachineAt(sys.store, MachineKey(cfgName, id)) == Some(fsm)
    {
      var queued := Exec(MachineKey(cfgName, id), ver, Machine(fsm));
      var ok, text := UpdateState(p, cfgName, id, oldState, fsm.state);
      if !ok {
        return Ended(StoreFailure, text);
      }
      var r;
      r, text := Command(p, queued);
      if r.Aborted? {
        return Retry;
      }
      return Ended(if r.Committed? then Success else StoreFailure, text);
    }

    /** Optimistic locking: an attempt whose EXEC aborts is made again, three times in all. */
    method TxProcessEvent(id: string, cfgName: string, evt: Event) returns (p: nat, err: Result, text: string)
      requires Valid()
      modifies this
      ensures Valid() && old(trace) <= trace && calls == Opened(old(calls), p) && p !in old(sys.procs) && p in sys.procs
      ensures sys.procs[p] == Tx(id, cfgName, evt, TxDone(err))
      ensures TxText(id, cfgName, err, text)
      ensures old(script) == [] ==> script == [] && Sequential(old(sys.store), sys.store, id, cfgName, evt, err)
    {
      p := Open(Call.TxProcessEvent(id, cfgName, evt));
      var i := 0;
      while i < TX_ATTEMPTS
        invariant 0 <= i <= TX_ATTEMPTS && Valid() && old(trace) <= trace && calls == Opened(old(calls), p) &&
            p in sys.procs
        invariant sys.procs[p] == Tx(id, cfgName, evt, if i < TX_ATTEMPTS then Watching(i) else TxDone(RetriesExceeded))
        invariant old(script) == [] ==> i == 0 && script == [] && sys.store == old(sys.store)
      {
        var r;
        r, text := Command(p, Watch(MachineKey(cfgName, id)));
        if !r.Number? {
          return p, StoreFailure, text;
        }
        var a := Attempt(p, id, cfgName, evt, r.n, i);
        if a.Ended? {
          return p, a.err, a.text;
        }
        i := i + 1;
      }
      return p, RetriesExceeded, TOO_MANY_ATTEMPTS;
    }
  }
}
