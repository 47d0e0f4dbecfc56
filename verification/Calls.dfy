/**
 What one `TxProcessEvent` call does in a concurrent run: it commits at most once, its EXEC is
 decided by the writes inside its own window, and only three other writes can exhaust it.
 */
module Calls {
  import opened Strings
  import opened Keys
  import opened Redis
  import opened Server
  import opened Atomicity

  // ---------------------------------------------------------------- at most one commit

  function CommitsBy(log: seq<Write>, p: nat): nat {
    if log == [] then 0
    else CommitsBy(log[..|log| - 1], p) + (if log[|log| - 1].MachineSend? && log[|log| - 1].p == p then 1 else 0)
  }

  lemma CommitsByEmit(log: seq<Write>, s: State<Key>, a: Action, p: nat)
    ensures CommitsBy(log + Emit(s, a), p) ==
            CommitsBy(log, p) + if Emit(s, a) != [] && Emit(s, a)[0].MachineSend? && a.p == p then 1 else 0
    ensures Emit(s, a) != [] && Emit(s, a)[0].MachineSend? ==>
              s.procs[a.p].Tx? && s.procs[a.p].tx.Executing? && Executed(a.d)
  {
    if Emit(s, a) == [] {
      assert log + Emit(s, a) == log;
    } else {
      assert (log + Emit(s, a))[..|log|] == log;
    }
  }

  /** How many commits a call may have made, given where it stands. */
  predicate CommitsFit(proc: Option<Proc>, commits: nat) {
    if proc.None? || !proc.value.Tx? || !IsDone(proc.value) then commits == 0
    else if ResultOf(proc.value) == Success then commits == 1
    else if ResultOf(proc.value) == StoreFailure then commits <= 1
    else commits == 0
  }

  function ProcAt(s: State<Key>, p: nat): Option<Proc> {
    if p in s.procs then Some(s.procs[p]) else None
  }

  /**
   Every call commits at most once: a nil result means exactly one commit, an unfinished call, a
   refusal, a failed lookup and exhausted retries mean none, and only a store failure leaves it open.
   */
  lemma {:induction false} OneCommitPerCall(n: int, trace: seq<Action>, p: nat)
    ensures CommitsFit(ProcAt(Run(n, trace), p), CommitsBy(LogOf(n, trace), p))
  {
    if trace != [] {
      var s, a := Run(n, Front(trace)), Last(trace);
      OneCommitPerCall(n, Front(trace), p);
      CommitsByEmit(LogOf(n, Front(trace)), s, a, p);
      if a.Go? && a.p == p && Live(s, p) && s.procs[p].Tx? {
        CommitCounts(s, p, a.d);
      }
    }
  }

  /** An EXEC that commits is counted, and no other step of an event call is. */
  lemma CommitCounts(s: State<Key>, p: nat, d: Delivery)
    requires Live(s, p) && s.procs[p].Tx?
    ensures CommitsFit(ProcAt(Step(s, Go(p, d)), p),
                       if Emit(s, Go(p, d)) != [] && Emit(s, Go(p, d))[0].MachineSend? then 1 else 0)
  {
  }

  // ---------------------------------------------------------------- writes to one machine

  predicate Writes(s: State<Key>, a: Action, k: Key) {
    Emit(s, a) != [] && Emit(s, a)[0].k == k
  }

  lemma WritesMoveTheCounter(s: State<Key>, a: Action, k: Key)
    requires k.MachineKey? && WellTyped(s)
    ensures Ver(Step(s, a).store, k) == Ver(s.store, k) + if Writes(s, a, k) then 1 else 0
  {
    if a.Go? && Live(s, a.p) && Executed(a.d) {
      var c := NextCmd(s.procs[a.p]);
      CounterDetectsChange(s.store, c, k);
      if c.Set? {
        SetsAreTyped(s.procs[a.p]);
      }
    }
  }

  /** The writes to `k` at the actions of the run from position `from` on. */
  function WriteCount(n: int, trace: seq<Action>, from: nat, k: Key): nat {
    if |trace| <= from then 0
    else WriteCount(n, Front(trace), from, k) + if Writes(Run(n, Front(trace)), Last(trace), k) then 1 else 0
  }

  lemma {:induction false} CounterCountsWrites(n: int, trace: seq<Action>, from: nat, k: Key)
    requires k.MachineKey? && from <= |trace|
    ensures Ver(Run(n, trace).store, k) == Ver(Run(n, trace[..from]).store, k) + WriteCount(n, trace, from, k)
  {
    if |trace| == from {
      assert trace[..from] == trace;
    } else {
      CounterCountsWrites(n, Front(trace), from, k);
      assert Front(trace)[..from] == trace[..from];
      RunsAreWellTyped(n, Front(trace));
      WritesMoveTheCounter(Run(n, Front(trace)), Last(trace), k);
    }
  }

  /** Action number `i` of the run writes `k`. */
  predicate WritesAt(n: int, trace: seq<Action>, i: nat, k: Key)
    requires i < |trace|
  {
    Writes(Run(n, trace[..i]), trace[i], k)
  }

  lemma {:induction false} NoWriteIffNone(n: int, trace: seq<Action>, from: nat, k: Key)
    ensures WriteCount(n, trace, from, k) == 0 <==> forall i: nat :: from <= i < |trace| ==> !WritesAt(n, trace, i, k)
  {
    if |trace| > from {
      var pre := Front(trace);
      NoWriteIffNone(n, pre, from, k);
      forall i: nat | from <= i < |pre| ensures WritesAt(n, trace, i, k) == WritesAt(n, pre, i, k) {
        assert pre[..i] == trace[..i];
      }
      assert WritesAt(n, trace, |pre|, k) == Writes(Run(n, pre), Last(trace), k);
    }
  }

  // ---------------------------------------------------------------- the window of an attempt

  predicate IsWatch(s: State<Key>, a: Action, p: nat) {
    a == Go(p, Delivered) && Live(s, p) && s.procs[p].Tx? && s.procs[p].tx.Watching?
  }

  /** The number of actions after which the call's latest WATCH had been answered. */
  function WatchTime(n: int, trace: seq<Action>, p: nat): (t: nat)
    ensures t <= |trace|
  {
    if trace == [] then 0
    else if IsWatch(Run(n, Front(trace)), Last(trace), p) then |trace|
    else WatchTime(n, Front(trace), p)
  }

  predicate HasVersion(proc: Proc) {
    proc.Tx? && (proc.tx.ReadingMachine? || proc.tx.ReadingConfig? || HasPlan(proc.tx))
  }

  function Version(proc: Proc): nat
    requires HasVersion(proc)
  {
    if HasPlan(proc.tx) then proc.tx.plan.ver else proc.tx.ver
  }

  lemma {:induction false} VersionSeenAtWatch(n: int, trace: seq<Action>, p: nat)
    requires p in Run(n, trace).procs && HasVersion(Run(n, trace).procs[p])
    ensures var proc, t := Run(n, trace).procs[p], WatchTime(n, trace, p);
            Version(proc) == Ver(Run(n, trace[..t]).store, MachineOf(proc))
  {
    var s, a := Run(n, Front(trace)), Last(trace);
    if IsWatch(s, a, p) {
      assert trace[..|trace|] == trace;
    } else {
      VersionKept(s, a, p);
      VersionSeenAtWatch(n, Front(trace), p);
      var t := WatchTime(n, trace, p);
      assert Front(trace)[..t] == trace[..t];
    }
  }

  lemma VersionKept(s: State<Key>, a: Action, p: nat)
    requires p in Step(s, a).procs && HasVersion(Step(s, a).procs[p]) && !IsWatch(s, a, p)
    ensures p in s.procs && HasVersion(s.procs[p])
    ensures MachineOf(s.procs[p]) == MachineOf(Step(s, a).procs[p])
    ensures Version(s.procs[p]) == Version(Step(s, a).procs[p])
  {
  }

  /**
   EXEC is decided by the attempt's own window: it commits exactly when nobody wrote the machine
   between the attempt's WATCH and now, and aborts exactly when somebody did.
   */
  lemma ExecDecidedByItsWindow(n: int, trace: seq<Action>, p: nat)
    requires p in Run(n, trace).procs && Run(n, trace).procs[p].Tx? && Run(n, trace).procs[p].tx.Executing?
    ensures var s, t := Run(n, trace), WatchTime(n, trace, p);
            var k, reply := MachineOf(s.procs[p]), Answer(s.store, NextCmd(s.procs[p]));
            && (reply == Committed <==> forall i: nat :: t <= i < |trace| ==> !WritesAt(n, trace, i, k))
            && (reply == Aborted <==> exists i: nat :: t <= i < |trace| && WritesAt(n, trace, i, k))
  {
    VersionStandsIff(n, trace, p);
    ExecReply(Run(n, trace), p);
    NoWriteIffNone(n, trace, WatchTime(n, trace, p), MachineOf(Run(n, trace).procs[p]));
  }

  lemma ExecReply(s: State<Key>, p: nat)
    requires p in s.procs && s.procs[p].Tx? && s.procs[p].tx.Executing?
    ensures var reply := Answer(s.store, NextCmd(s.procs[p]));
            && (reply == Committed <==> Ver(s.store, MachineOf(s.procs[p])) == Version(s.procs[p]))
            && (reply == Aborted <==> reply != Committed)
  {
  }

  lemma VersionStandsIff(n: int, trace: seq<Action>, p: nat)
    requires p in Run(n, trace).procs && HasVersion(Run(n, trace).procs[p])
    ensures var s, t := Run(n, trace), WatchTime(n, trace, p);
            var k := MachineOf(s.procs[p]);
            Ver(s.store, k) == Version(s.procs[p]) <==> WriteCount(n, trace, t, k) == 0
  {
    VersionSeenAtWatch(n, trace, p);
    CounterCountsWrites(n, trace, WatchTime(n, trace, p), MachineOf(Run(n, trace).procs[p]));
  }

  /** Action `i` of the run is an EXEC of `p` that commits on `k`. */
  predicate CommitAt(n: int, trace: seq<Action>, i: nat, p: nat, k: Key)
    requires i < |trace|
  {
    var s := Run(n, trace[..i]);
    trace[i].p == p && Emit(s, trace[i]) != [] && Emit(s, trace[i])[0].MachineSend? && Emit(s, trace[i])[0].k == k
  }

  /** Of two commits on one machine, the later one started watching only after the earlier one was in. */
  lemma CommitWindowsAreDisjoint(n: int, trace: seq<Action>, i: nat, p: nat, j: nat, q: nat, k: Key)
    requires i < j < |trace| && CommitAt(n, trace, i, p, k) && CommitAt(n, trace, j, q, k)
    ensures WatchTime(n, trace[..i], p) <= i < WatchTime(n, trace[..j], q) <= j
  {
    var pre := trace[..j];
    assert pre[..i] == trace[..i] && pre[i] == trace[i];
    assert WritesAt(n, pre, i, k);
    var proc := Run(n, pre).procs[q];
    assert MachineOf(proc) == k && Answer(Run(n, pre).store, NextCmd(proc)) == Committed;
    ExecDecidedByItsWindow(n, pre, q);
  }

  // ---------------------------------------------------------------- progress

  /** While call `p` was in progress, the steps at which another process wrote its machine. */
  function Interference(n: int, trace: seq<Action>, p: nat): nat {
    if trace == [] then 0
    else
      var s, a := Run(n, Front(trace)), Last(trace);
      Interference(n, Front(trace), p)
        + if Live(s, p) && s.procs[p].Tx? && a.p != p && Writes(s, a, MachineOf(s.procs[p])) then 1 else 0
  }

  /** Each earlier attempt cost one interfering write; so does every write since the current watch. */
  ghost predicate Paid(r: Redis<Key>, proc: Proc, interference: nat) {
    proc.Tx? ==>
      && (proc.tx.Watching? ==> proc.tx.attempt <= interference)
      && (HasVersion(proc) ==> proc.tx.attempt + Ver(r, MachineOf(proc)) <= interference + Version(proc))
      && (!proc.tx.TxDone? ==> proc.tx.attempt < TX_ATTEMPTS)
      && (proc.tx == TxDone(RetriesExceeded) ==> TX_ATTEMPTS <= interference)
  }

  lemma PaidByOwnStep(s: State<Key>, p: nat, d: Delivery, interference: nat)
    requires Locked(s) && Live(s, p) && s.procs[p].Tx? && Paid(s.store, s.procs[p], interference)
    ensures Paid(Step(s, Go(p, d)).store, Step(s, Go(p, d)).procs[p], interference)
  {
    var proc := s.procs[p];
    assert AttemptOk(s.store, MachineOf(proc), proc.evt, proc.tx);
    CounterDetectsChange(s.store, NextCmd(proc), MachineOf(proc));
  }

  lemma {:induction false} AttemptsArePaidFor(n: int, trace: seq<Action>, p: nat)
    requires p in Run(n, trace).procs
    ensures Paid(Run(n, trace).store, Run(n, trace).procs[p], Interference(n, trace, p))
  {
    var s, a := Run(n, Front(trace)), Last(trace);
    if p in s.procs {
      AttemptsArePaidFor(n, Front(trace), p);
      if a.Go? && a.p == p {
        if Live(s, p) && s.procs[p].Tx? {
          RunsAreLocked(n, Front(trace));
          PaidByOwnStep(s, p, a.d, Interference(n, trace, p));
        }
      } else if s.procs[p].Tx? {
        RunsAreWellTyped(n, Front(trace));
        WritesMoveTheCounter(s, a, MachineOf(s.procs[p]));
      }
    }
  }

  /** "Retries exceeded" takes three writes by others during the call; fewer never exhaust it. */
  lemma RetriesExceededNeedsThreeWrites(n: int, trace: seq<Action>, p: nat)
    requires p in Run(n, trace).procs && Run(n, trace).procs[p].Tx?
    ensures Run(n, trace).procs[p].tx == TxDone(RetriesExceeded) ==> 3 <= Interference(n, trace, p)
    ensures Interference(n, trace, p) < 3 ==> Run(n, trace).procs[p].tx != TxDone(RetriesExceeded)
    ensures !Run(n, trace).procs[p].tx.TxDone? ==> Run(n, trace).procs[p].tx.attempt <= Interference(n, trace, p)
  {
    AttemptsArePaidFor(n, trace, p);
    RunsAreLocked(n, trace);
    var proc := Run(n, trace).procs[p];
    assert AttemptOk(Run(n, trace).store, MachineOf(proc), proc.evt, proc.tx);
  }
}
