/** No lost updates, and no false rejections, in any run. */
module Updates {
  import opened Strings
  import opened Fsm
  import opened Keys
  import opened Redis
  import opened Server
  import opened Atomicity

  // ---------------------------------------------------------------- no lost updates

  /** The record machine `k` was last put with. */
  function Origin(log: seq<Write>, k: Key): Option<FiniteStateMachine> {
    if log == [] then None
    else
      var w := log[|log| - 1];
      if w.MachinePut? && w.k == k then Some(w.fsm) else Origin(log[..|log| - 1], k)
  }

  /** The commits on machine `k` since it was last put, in commit order. */
  function Commits(log: seq<Write>, k: Key): seq<Write> {
    if log == [] then []
    else
      var w, before := log[|log| - 1], log[..|log| - 1];
      if w.k != k then Commits(before, k)
      else if w.MachinePut? then []
      else if w.MachineSend? then Commits(before, k) + [w]
      else Commits(before, k)
  }

  function EventsOf(ws: seq<Write>): seq<Event>
    requires forall i :: 0 <= i < |ws| ==> ws[i].MachineSend?
  {
    seq(|ws|, i requires 0 <= i < |ws| => ws[i].evt)
  }

  /** First-match replay, each event under the configuration its commit used. */
  function ReplayCommits(fsm: FiniteStateMachine, ws: seq<Write>): FiniteStateMachine {
    if ws == [] then fsm
    else
      var before, w := ReplayCommits(fsm, ws[..|ws| - 1]), ws[|ws| - 1];
      if w.MachineSend? && SendEvent(w.cfg, before, w.evt).Some? then SendEvent(w.cfg, before, w.evt).value else before
  }

  lemma {:induction false} CommitsAreSends(log: seq<Write>, k: Key)
    ensures forall i :: 0 <= i < |Commits(log, k)| ==> Commits(log, k)[i].MachineSend? && Commits(log, k)[i] in log
  {
    if log != [] {
      CommitsAreSends(log[..|log| - 1], k);
    }
  }

  lemma LegalPrefix(log: seq<Write>)
    requires log != [] && Legal(log)
    ensures Legal(log[..|log| - 1]) && Allowed(log[..|log| - 1], log[|log| - 1])
  {
    var before := log[..|log| - 1];
    forall i | 0 <= i < |before| ensures Allowed(before[..i], before[i]) {
      assert before[..i] == log[..i] && Allowed(log[..i], log[i]);
    }
    assert Allowed(log[..|log| - 1], log[|log| - 1]);
  }

  lemma {:induction false} ReplayedMachine(log: seq<Write>, k: Key)
    requires Legal(log)
    ensures k in Replay(log).machines <==> Origin(log, k).Some?
    ensures k in Replay(log).machines ==>
        Replay(log).machines[k] == ReplayCommits(Origin(log, k).value, Commits(log, k))
    ensures k in Replay(log).machines ==> Replay(log).machines[k].configId == Origin(log, k).value.configId
    ensures Origin(log, k).None? ==> Commits(log, k) == []
  {
    if log != [] {
      var before, w := log[..|log| - 1], log[|log| - 1];
      LegalPrefix(log);
      ReplayedMachine(before, k);
      if w.k == k && w.MachineSend? {
        assert Commits(log, k)[..|Commits(log, k)| - 1] == Commits(before, k);
      }
    }
  }

  /** `m` carries the history of `fsm` and then exactly the events of `ws`. */
  ghost predicate Carries(m: FiniteStateMachine, fsm: FiniteStateMachine, ws: seq<Write>)
    requires forall i :: 0 <= i < |ws| ==> ws[i].MachineSend?
  {
    UnstampedAll(m.history) == UnstampedAll(fsm.history) + UnstampedAll(EventsOf(ws))
  }

  lemma CarriesOneMore(fsm: FiniteStateMachine, ws: seq<Write>, w: Write)
    requires forall i :: 0 <= i < |ws| ==> ws[i].MachineSend?
    requires Carries(ReplayCommits(fsm, ws), fsm, ws)
    requires w.MachineSend? && SendEvent(w.cfg, ReplayCommits(fsm, ws), w.evt).Some?
    ensures Carries(ReplayCommits(fsm, ws + [w]), fsm, ws + [w])
  {
    var m := ReplayCommits(fsm, ws);
    var m' := SendEvent(w.cfg, m, w.evt).value;
    assert (ws + [w])[..|ws|] == ws;
    UnstampedSnoc(m.history, w.evt, m.state, m'.state);
    UnstampedSnoc(EventsOf(ws), w.evt, "", "");
    assert EventsOf(ws + [w]) == EventsOf(ws) + [w.evt];
  }

  lemma {:induction false} ReplayKeepsEveryEvent(fsm: FiniteStateMachine, log: seq<Write>, k: Key)
    requires Legal(log) && Origin(log, k) == Some(fsm)
    requires forall i :: 0 <= i < |Commits(log, k)| ==> Commits(log, k)[i].MachineSend?
    ensures Carries(ReplayCommits(fsm, Commits(log, k)), fsm, Commits(log, k))
  {
    var before, w := log[..|log| - 1], log[|log| - 1];
    if w.MachinePut? && w.k == k {
      assert UnstampedAll(EventsOf([])) == [];
    } else {
      LegalPrefix(log);
      CommitsAreSends(before, k);
      ReplayKeepsEveryEvent(fsm, before, k);
      if w.k == k && w.MachineSend? {
        ReplayedMachine(before, k);
        CarriesOneMore(fsm, Commits(before, k), w);
      }
    }
  }

  /**
   At every point of every run, a machine that was ever put is the first-match replay of its committed events,
   in commit order, from the record it was last put with, and its history is that record's history
   followed by exactly those events; a machine that was never put is not there.
   */
  lemma NoLostUpdates(n: int, trace: seq<Action>, k: Key)
    requires k.MachineKey?
    ensures var log, m := LogOf(n, trace), MachineAt(Run(n, trace).store, k);
            && (m.Some? <==> Origin(log, k).Some?)
            && (forall i :: 0 <= i < |Commits(log, k)| ==> Commits(log, k)[i].MachineSend? && Commits(log, k)[i] in log)
            && (m.Some? ==>
                  && m.value == ReplayCommits(Origin(log, k).value, Commits(log, k))
                  && Carries(m.value, Origin(log, k).value, Commits(log, k)))
  {
    var log := LogOf(n, trace);
    RunRefinesAtomicMachine(n, trace);
    RunsAreWellTyped(n, trace);
    ReplayedMachine(log, k);
    CommitsAreSends(log, k);
    assert k in View(Run(n, trace).store).machines <==> MachineAt(Run(n, trace).store, k).Some?;
    if Origin(log, k).Some? {
      ReplayKeepsEveryEvent(Origin(log, k).value, log, k);
    }
  }

  // ---------------------------------------------------------------- one configuration per id

  /** No two different configurations were ever stored under one id. */
  ghost predicate ConfigsNeverReplaced(log: seq<Write>) {
    forall i, j :: 0 <= i < |log| && 0 <= j < |log| && log[i].ConfigPut? && log[j].ConfigPut? ==>
      (log[i].k == log[j].k ==> log[i].cfg == log[j].cfg)
  }

  function SendAll(ws: seq<Write>): seq<Op>
    requires forall i :: 0 <= i < |ws| ==> ws[i].MachineSend?
  {
    seq(|ws|, i requires 0 <= i < |ws| => Send(ws[i].evt))
  }

  lemma {:induction false} OneConfigurationReplay(c: Configuration, fsm: FiniteStateMachine, ws: seq<Write>)
    requires forall i :: 0 <= i < |ws| ==> ws[i].MachineSend? && ws[i].cfg == c
    ensures ReplayCommits(fsm, ws) == ApplyAll(c, fsm, SendAll(ws))
  {
    if ws != [] {
      OneConfigurationReplay(c, fsm, ws[..|ws| - 1]);
      assert SendAll(ws)[..|ws| - 1] == SendAll(ws[..|ws| - 1]);
    }
  }

  lemma {:induction false} CommitsUseStoredConfiguration(log: seq<Write>, k: Key, c: Configuration)
    requires Legal(log) && ConfigsNeverReplaced(log) && Origin(log, k).Some?
    requires WasStored(log, KeyForConfigId(Origin(log, k).value.configId), c)
    ensures forall i :: 0 <= i < |Commits(log, k)| ==> Commits(log, k)[i].MachineSend? && Commits(log, k)[i].cfg == c
  {
    CommitsAreSends(log, k);
    forall i | 0 <= i < |Commits(log, k)| ensures Commits(log, k)[i].cfg == c {
      CommitsConfigured(log, k, i);
      var key := KeyForConfigId(Origin(log, k).value.configId);
      var j :| 0 <= j < |log| && log[j].ConfigPut? && log[j].k == key && log[j].cfg == c;
      var j' :| 0 <= j' < |log| && log[j'].ConfigPut? && log[j'].k == key && log[j'].cfg == Commits(log, k)[i].cfg;
    }
  }

  lemma {:induction false} CommitsConfigured(log: seq<Write>, k: Key, i: nat)
    requires Legal(log) && Origin(log, k).Some? && i < |Commits(log, k)|
    ensures Commits(log, k)[i].MachineSend?
    ensures WasStored(log, KeyForConfigId(Origin(log, k).value.configId), Commits(log, k)[i].cfg)
  {
    var before, w := log[..|log| - 1], log[|log| - 1];
    assert before + [w] == log;
    LegalPrefix(log);
    if w.k == k && w.MachineSend? && i == |Commits(before, k)| {
      ReplayedMachine(before, k);
      WasStoredGrows(before, [w], KeyForConfigId(Origin(log, k).value.configId), w.cfg);
    } else {
      CommitsConfigured(before, k, i);
      WasStoredGrows(before, [w], KeyForConfigId(Origin(log, k).value.configId), Commits(log, k)[i].cfg);
    }
  }

  /**
   When no configuration is replaced, a machine is the run of its events under the one configuration its id names
   now.
   */
  lemma StateIsReplayUnderStoredConfiguration(n: int, trace: seq<Action>, k: Key)
    requires k.MachineKey? && ConfigsNeverReplaced(LogOf(n, trace))
    requires MachineAt(Run(n, trace).store, k).Some?
    requires var m := MachineAt(Run(n, trace).store, k).value;
        ConfigAt(Run(n, trace).store, KeyForConfigId(m.configId)).Some?
    ensures var log, m := LogOf(n, trace), MachineAt(Run(n, trace).store, k).value;
            var c := ConfigAt(Run(n, trace).store, KeyForConfigId(m.configId)).value;
            && Origin(log, k).Some?
            && (forall i :: 0 <= i < |Commits(log, k)| ==> Commits(log, k)[i].MachineSend?)
            && m == ApplyAll(c, Origin(log, k).value, SendAll(Commits(log, k)))
  {
    var log, m := LogOf(n, trace), MachineAt(Run(n, trace).store, k).value;
    var c := ConfigAt(Run(n, trace).store, KeyForConfigId(m.configId)).value;
    NoLostUpdates(n, trace, k);
    RunRefinesAtomicMachine(n, trace);
    ReplayedMachine(log, k);
    CommitsUseStoredConfiguration(log, k, c);
    OneConfigurationReplay(c, Origin(log, k).value, Commits(log, k));
  }

  // ---------------------------------------------------------------- rejections

  /** After `i` actions of the run, call `p` was in progress and machine `k` was `m`. */
  predicate Held(n: int, trace: seq<Action>, i: nat, p: nat, k: Key, m: Option<FiniteStateMachine>)
    requires i <= |trace|
  {
    Live(Run(n, trace[..i]), p) && MachineAt(Run(n, trace[..i]).store, k) == m
  }

  ghost predicate HeldDuring(n: int, trace: seq<Action>, p: nat, k: Key, m: Option<FiniteStateMachine>) {
    exists i: nat :: i <= |trace| && Held(n, trace, i, p, k, m)
  }

  /**
   The configuration read at one instant of the call, on a machine held at that or an earlier one, gives this answer.
   */
  ghost predicate LookedUp(n: int, trace: seq<Action>, p: nat, k: Key, m: FiniteStateMachine,
      c: Option<Configuration>) {
    exists i: nat, j: nat :: i <= j <= |trace| && Held(n, trace, i, p, k, Some(m)) && Read(n, trace, j, p, m, c)
  }

  /** After `j` actions call `p` was in progress and the configuration of `m` was `c`. */
  predicate Read(n: int, trace: seq<Action>, j: nat, p: nat, m: FiniteStateMachine, c: Option<Configuration>)
    requires j <= |trace|
  {
    Live(Run(n, trace[..j]), p) && ConfigAt(Run(n, trace[..j]).store, KeyForConfigId(m.configId)) == c
  }

  /** What the end of an event call says about the store during the call. */
  ghost predicate EndIsTrue(n: int, trace: seq<Action>, p: nat, proc: Proc)
    requires proc.Tx?
  {
    && (proc.tx.ReadingConfig? ==> HeldDuring(n, trace, p, MachineOf(proc), Some(proc.tx.was)))
    && (proc.tx == TxDone(Refused) ==>
          exists m, c :: LookedUp(n, trace, p, MachineOf(proc), m, Some(c)) && SendEvent(c, m, proc.evt).None?)
    && (proc.tx == TxDone(MachineNotFound(false)) ==> HeldDuring(n, trace, p, MachineOf(proc), None))
    && (proc.tx == TxDone(ConfigNotFound(false)) ==>
          exists m :: LookedUp(n, trace, p, MachineOf(proc), m, None))
  }

  lemma HeldGrows(n: int, trace: seq<Action>, p: nat, k: Key, m: Option<FiniteStateMachine>)
    requires trace != [] && HeldDuring(n, Front(trace), p, k, m)
    ensures HeldDuring(n, trace, p, k, m)
  {
    var i: nat :| i <= |Front(trace)| && Held(n, Front(trace), i, p, k, m);
    assert Front(trace)[..i] == trace[..i];
    assert Held(n, trace, i, p, k, m);
  }

  lemma LookedUpGrows(n: int, trace: seq<Action>, p: nat, k: Key, m: FiniteStateMachine, c: Option<Configuration>)
    requires trace != [] && LookedUp(n, Front(trace), p, k, m, c)
    ensures LookedUp(n, trace, p, k, m, c)
  {
    var i: nat, j: nat :|
      i <= j <= |Front(trace)| && Held(n, Front(trace), i, p, k, Some(m)) && Read(n, Front(trace), j, p, m, c);
    assert Front(trace)[..i] == trace[..i] && Front(trace)[..j] == trace[..j];
    assert Held(n, trace, i, p, k, Some(m)) && Read(n, trace, j, p, m, c);
  }

  lemma HeldNow(n: int, trace: seq<Action>, p: nat, k: Key)
    requires Live(Run(n, trace), p)
    ensures HeldDuring(n, trace, p, k, MachineAt(Run(n, trace).store, k))
  {
    assert trace[..|trace|] == trace;
    assert Held(n, trace, |trace|, p, k, MachineAt(Run(n, trace).store, k));
  }

  lemma LookedUpNow(n: int, trace: seq<Action>, p: nat, k: Key, m: FiniteStateMachine)
    requires HeldDuring(n, trace, p, k, Some(m)) && Live(Run(n, trace), p)
    ensures LookedUp(n, trace, p, k, m, ConfigAt(Run(n, trace).store, KeyForConfigId(m.configId)))
  {
    var i: nat :| i <= |trace| && Held(n, trace, i, p, k, Some(m));
    assert trace[..|trace|] == trace;
    assert Read(n, trace, |trace|, p, m, ConfigAt(Run(n, trace).store, KeyForConfigId(m.configId)));
  }

  lemma EndStaysTrue(n: int, trace: seq<Action>, p: nat, proc: Proc)
    requires trace != [] && proc.Tx? && EndIsTrue(n, Front(trace), p, proc)
    ensures EndIsTrue(n, trace, p, proc)
  {
    var k := MachineOf(proc);
    if proc.tx.ReadingConfig? {
      HeldGrows(n, trace, p, k, Some(proc.tx.was));
    } else if proc.tx == TxDone(Refused) {
      var m, c :| LookedUp(n, Front(trace), p, k, m, Some(c)) && SendEvent(c, m, proc.evt).None?;
      LookedUpGrows(n, trace, p, k, m, Some(c));
    } else if proc.tx == TxDone(MachineNotFound(false)) {
      HeldGrows(n, trace, p, k, None);
    } else if proc.tx == TxDone(ConfigNotFound(false)) {
      var m :| LookedUp(n, Front(trace), p, k, m, None);
      LookedUpGrows(n, trace, p, k, m, None);
    }
  }

  lemma EndBecomesTrue(n: int, trace: seq<Action>, p: nat, d: Delivery)
    requires Live(Run(n, trace), p) && Run(n, trace).procs[p].Tx?
    requires EndIsTrue(n, trace, p, Run(n, trace).procs[p])
    ensures var s := Run(n, trace);
            EndIsTrue(n, trace, p, Advance(n, s.procs[p], Seen(s.store, NextCmd(s.procs[p]), d)))
  {
    var s := Run(n, trace);
    var proc := s.procs[p];
    var k := MachineOf(proc);
    var r := Seen(s.store, NextCmd(proc), d);
    var pc := AdvanceTx(proc.tx, proc.evt, r);
    assert Advance(n, proc, r) == proc.(tx := pc) && MachineOf(proc.(tx := pc)) == k;
    if proc.tx.ReadingMachine? {
      HeldNow(n, trace, p, k);
    } else if proc.tx.ReadingConfig? {
      LookedUpNow(n, trace, p, k, proc.tx.was);
      if pc == TxDone(Refused) {
        assert LookedUp(n, trace, p, k, proc.tx.was, Some(r.value.cfg)) &&
          SendEvent(r.value.cfg, proc.tx.was, proc.evt).None?;
      } else if pc == TxDone(ConfigNotFound(false)) {
        var was, none: Option<Configuration> := proc.tx.was, None;
        assert ConfigAt(s.store, KeyForConfigId(was.configId)) == none;
        assert LookedUp(n, trace, p, MachineOf(proc.(tx := pc)), was, none);
      }
    } else {
      assert !pc.ReadingConfig? && pc != TxDone(Refused);
    }
  }

  lemma {:induction false} RunKeepsRetries(n: int, trace: seq<Action>)
    ensures Run(n, trace).maxRetries == n
  {
    if trace != [] {
      RunKeepsRetries(n, Front(trace));
    }
  }

  /**
   A refused event, a missing machine and a missing configuration are each true of the store at instants
   inside the call: of the record when it was read and of the configuration when it was read.
   */
  lemma {:induction false} RejectionsAreTrue(n: int, trace: seq<Action>, p: nat)
    requires p in Run(n, trace).procs && Run(n, trace).procs[p].Tx?
    ensures EndIsTrue(n, trace, p, Run(n, trace).procs[p])
  {
    var pre, a := Front(trace), Last(trace);
    var s := Run(n, pre);
    RunKeepsRetries(n, pre);
    if p in s.procs {
      RejectionsAreTrue(n, pre, p);
      if a.Go? && a.p == p && Live(s, p) {
        EndBecomesTrue(n, pre, p, a.d);
      }
      EndStaysTrue(n, trace, p, Run(n, trace).procs[p]);
    }
  }

  // ---------------------------------------------------------------- commits

  /**
   What an attempt has planned, it read during the call: the machine at one instant while it was in progress, and its
   configuration at that or a later one.
   */
  lemma {:induction false} PlansWereRead(n: int, trace: seq<Action>, p: nat)
    requires p in Run(n, trace).procs && Run(n, trace).procs[p].Tx? && HasPlan(Run(n, trace).procs[p].tx)
    ensures var proc := Run(n, trace).procs[p];
            LookedUp(n, trace, p, MachineOf(proc), proc.tx.plan.was, Some(proc.tx.plan.cfg))
  {
    var pre, s := Front(trace), Run(n, Front(trace));
    var was, now := s.procs[p], Run(n, trace).procs[p];
    PlanIsMade(s, Last(trace), p);
    if HasPlan(was.tx) {
      PlansWereRead(n, pre, p);
    } else {
      RejectionsAreTrue(n, pre, p);
      LookedUpNow(n, pre, p, MachineOf(was), was.tx.was);
    }
    LookedUpGrows(n, trace, p, MachineOf(now), now.tx.plan.was, Some(now.tx.plan.cfg));
  }

  /** A plan is made when the configuration is read, and kept from then on. */
  lemma PlanIsMade(s: State<Key>, a: Action, p: nat)
    requires p in Step(s, a).procs && Step(s, a).procs[p].Tx? && HasPlan(Step(s, a).procs[p].tx)
    ensures p in s.procs && s.procs[p].Tx? && MachineOf(s.procs[p]) == MachineOf(Step(s, a).procs[p])
    ensures var pc, plan := s.procs[p].tx, Step(s, a).procs[p].tx.plan;
            if HasPlan(pc) then pc.plan == plan
            else && pc.ReadingConfig? && Live(s, p) && pc.was == plan.was
                 && ConfigAt(s.store, KeyForConfigId(pc.was.configId)) == Some(plan.cfg)
  {
  }
}
