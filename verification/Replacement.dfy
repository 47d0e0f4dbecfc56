/**
 When a stored configuration is replaced. `PutConfig` checks for its id and stores it in separate commands; whether the
 SET replaces something is decided by what was stored since the check, and by whether the check was answered.
 */
module Replacement {
  import opened Strings
  import opened Fsm
  import opened Keys
  import opened Redis
  import opened Server

  // ---------------------------------------------------------------- the latest put

  /** The action stores a configuration under `k`. */
  predicate Puts(s: State<Key>, a: Action, k: Key) {
    Emit(s, a) != [] && Emit(s, a)[0].ConfigPut? && Emit(s, a)[0].k == k
  }

  predicate PutsAt(n: int, trace: seq<Action>, i: nat, k: Key)
    requires i < |trace|
  {
    Puts(Run(n, trace[..i]), trace[i], k)
  }

  /** The latest put under `k` from action `from` on. */
  function LastPut(n: int, trace: seq<Action>, from: nat, k: Key): Option<Write> {
    if |trace| <= from then None
    else
      var s, a := Run(n, Front(trace)), Last(trace);
      if Puts(s, a, k) then Some(Emit(s, a)[0]) else LastPut(n, Front(trace), from, k)
  }

  /** Nothing is put under `k` from action `from` on. */
  ghost predicate NoPutFrom(n: int, trace: seq<Action>, from: nat, k: Key) {
    forall i: nat :: from <= i < |trace| ==> !PutsAt(n, trace, i, k)
  }

  lemma NoPutSnoc(n: int, trace: seq<Action>, from: nat, k: Key)
    requires from < |trace|
    ensures NoPutFrom(n, trace, from, k) <==>
            NoPutFrom(n, Front(trace), from, k) && !Puts(Run(n, Front(trace)), Last(trace), k)
  {
    var pre, last := Front(trace), |trace| - 1;
    PutsAtLast(n, trace, k);
    if NoPutFrom(n, trace, from, k) {
      assert !PutsAt(n, trace, last, k);
      forall i: nat | from <= i < |pre| ensures !PutsAt(n, pre, i, k) {
        PutsAtEarlier(n, trace, i, k);
      }
    }
    if NoPutFrom(n, pre, from, k) && !PutsAt(n, trace, last, k) {
      forall i: nat | from <= i < |trace| ensures !PutsAt(n, trace, i, k) {
        if i < last {
          PutsAtEarlier(n, trace, i, k);
        }
      }
    }
  }

  lemma PutsAtLast(n: int, trace: seq<Action>, k: Key)
    requires trace != []
    ensures PutsAt(n, trace, |trace| - 1, k) == Puts(Run(n, Front(trace)), Last(trace), k)
  {
    assert trace[..|trace| - 1] == Front(trace);
  }

  lemma PutsAtEarlier(n: int, trace: seq<Action>, i: nat, k: Key)
    requires i < |trace| - 1
    ensures PutsAt(n, trace, i, k) == PutsAt(n, Front(trace), i, k)
  {
    assert Front(trace)[..i] == trace[..i];
  }

  lemma {:induction false} NoPutIffNone(n: int, trace: seq<Action>, from: nat, k: Key)
    ensures LastPut(n, trace, from, k).None? <==> NoPutFrom(n, trace, from, k)
  {
    if |trace| > from {
      NoPutIffNone(n, Front(trace), from, k);
      NoPutSnoc(n, trace, from, k);
    }
  }

  /** A put after which there is no other is the last one. */
  lemma {:induction false} LatestIsLast(n: int, trace: seq<Action>, from: nat, k: Key, i: nat)
    requires from <= i < |trace| && PutsAt(n, trace, i, k) && LastPut(n, trace, i + 1, k).None?
    ensures LastPut(n, trace, from, k) == Some(Emit(Run(n, trace[..i]), trace[i])[0])
  {
    var pre := Front(trace);
    if i < |pre| {
      assert pre[..i] == trace[..i];
      LatestIsLast(n, pre, from, k, i);
    }
  }

  lemma {:induction false} LastIsLatest(n: int, trace: seq<Action>, from: nat, k: Key) returns (i: nat)
    requires LastPut(n, trace, from, k).Some?
    ensures from <= i < |trace| && PutsAt(n, trace, i, k) && LastPut(n, trace, i + 1, k).None?
    ensures LastPut(n, trace, from, k) == Some(Emit(Run(n, trace[..i]), trace[i])[0])
  {
    var pre := Front(trace);
    assert trace[..|pre|] == pre;
    if Puts(Run(n, pre), Last(trace), k) {
      i := |pre|;
    } else {
      i := LastIsLatest(n, pre, from, k);
      assert pre[..i] == trace[..i];
    }
  }

  lemma PutIsStored(s: State<Key>, a: Action, k: Key)
    requires WellTyped(s)
    ensures ConfigAt(Step(s, a).store, k) == if Puts(s, a, k) then Some(Emit(s, a)[0].cfg) else ConfigAt(s.store, k)
    ensures Puts(s, a, k) <==>
              && Runs(s, a) && s.procs[a.p].Configure? && s.procs[a.p].conf.StoringConfig?
              && k == ConfigurationKey(s.procs[a.p].config)
    ensures Puts(s, a, k) ==> Emit(s, a)[0] == ConfigPut(a.p, k, s.procs[a.p].config)
  {
    ConfigChange(s, a, k);
  }

  /** What is stored is what was put last, or what was there. */
  lemma {:induction false} LastPutDecides(n: int, trace: seq<Action>, from: nat, k: Key)
    requires from <= |trace|
    ensures ConfigAt(Run(n, trace).store, k) ==
            match LastPut(n, trace, from, k)
            case Some(w) => if w.ConfigPut? then Some(w.cfg) else None
            case None => ConfigAt(Run(n, trace[..from]).store, k)
    ensures LastPut(n, trace, from, k).Some? ==> LastPut(n, trace, from, k).value.ConfigPut?
  {
    if from == |trace| {
      assert trace[..from] == trace;
    } else {
      LastPutDecides(n, Front(trace), from, k);
      assert Front(trace)[..from] == trace[..from];
      RunsAreWellTyped(n, Front(trace));
      PutIsStored(Run(n, Front(trace)), Last(trace), k);
    }
  }

  /** A call only ever puts its own configuration. */
  lemma {:induction false} OwnPuts(n: int, trace: seq<Action>, from: nat, k: Key)
    requires LastPut(n, trace, from, k).Some?
    ensures var w, s := LastPut(n, trace, from, k).value, Run(n, trace);
            w.ConfigPut? && w.p in s.procs && s.procs[w.p].Configure? && s.procs[w.p].config == w.cfg
  {
    var pre := Front(trace);
    RunsAreWellTyped(n, pre);
    PutIsStored(Run(n, pre), Last(trace), k);
    if !Puts(Run(n, pre), Last(trace), k) {
      OwnPuts(n, pre, from, k);
    }
  }

  // ---------------------------------------------------------------- the existence check

  predicate IsCheck(s: State<Key>, a: Action, p: nat) {
    a.Go? && a.p == p && Live(s, p) && s.procs[p].Configure? && s.procs[p].conf.Checking?
  }

  /** When call `p` issued its EXISTS: the number of actions before it. */
  function CheckTime(n: int, trace: seq<Action>, p: nat): (t: nat)
    ensures t <= |trace|
  {
    if trace == [] then 0
    else if IsCheck(Run(n, Front(trace)), Last(trace), p) then |trace| - 1
    else CheckTime(n, Front(trace), p)
  }

  /** Past its existence check and not ended. */
  predicate PastCheck(s: State<Key>, p: nat) {
    Live(s, p) && s.procs[p].Configure? && !s.procs[p].conf.Checking?
  }

  lemma CheckStep(s: State<Key>, a: Action, p: nat)
    requires PastCheck(Step(s, a), p)
    ensures IsCheck(s, a, p) || PastCheck(s, p)
    ensures p in s.procs && s.procs[p].Configure? && s.procs[p].config == Step(s, a).procs[p].config
    ensures IsCheck(s, a, p) && a.d.Delivered? ==> ConfigAt(s.store, ConfigurationKey(s.procs[p].config)).None?
  {
  }

  /** An answered check that let the put pass found nothing. */
  lemma {:induction false} CheckFoundNothing(n: int, trace: seq<Action>, p: nat)
    requires PastCheck(Run(n, trace), p)
    ensures var t, c := CheckTime(n, trace, p), Run(n, trace).procs[p].config;
            && t < |trace| && trace[t].Go? && trace[t].p == p
            && (trace[t].d.Delivered? ==> ConfigAt(Run(n, trace[..t]).store, ConfigurationKey(c)).None?)
  {
    var pre, a := Front(trace), Last(trace);
    assert pre == trace[..|trace| - 1];
    CheckStep(Run(n, pre), a, p);
    if !IsCheck(Run(n, pre), a, p) {
      CheckFoundNothing(n, pre, p);
      var t := CheckTime(n, pre, p);
      assert pre[..t] == trace[..t] && pre[t] == trace[t];
    }
  }

  // ---------------------------------------------------------------- replacement

  /** Action `i` is another call's put of a configuration other than `c`, and nobody puts one after it. */
  ghost predicate LatestIsOthers(n: int, trace: seq<Action>, i: nat, p: nat, c: Configuration)
    requires i < |trace|
  {
    var k, w := ConfigurationKey(c), Emit(Run(n, trace[..i]), trace[i]);
    PutsAt(n, trace, i, k) && w[0].p != p && w[0].cfg != c && NoPutFrom(n, trace, i + 1, k)
  }

  /** The check went unanswered while a different configuration was there. */
  predicate MissedAtCheck(n: int, trace: seq<Action>, t: nat, c: Configuration) {
    && t < |trace| && trace[t].Go? && trace[t].d.Lost?
    && ConfigAt(Run(n, trace[..t]).store, ConfigurationKey(c)) !in {None, Some(c)}
  }

  /**
   Between its check and now, another call put a different configuration under the id of `p` and nobody put one after
   that; or nothing was put, and the check went unanswered while a different configuration was there.
   */
  ghost predicate WindowReplaces(n: int, trace: seq<Action>, p: nat)
    requires p in Run(n, trace).procs && Run(n, trace).procs[p].Configure?
  {
    var c, t := Run(n, trace).procs[p].config, CheckTime(n, trace, p);
    || (exists i: nat :: t <= i < |trace| && LatestIsOthers(n, trace, i, p, c))
    || (NoPutFrom(n, trace, t, ConfigurationKey(c)) && MissedAtCheck(n, trace, t, c))
  }

  lemma OthersPutIsLast(n: int, trace: seq<Action>, t: nat, p: nat, c: Configuration)
    ensures (exists i: nat :: t <= i < |trace| && LatestIsOthers(n, trace, i, p, c)) <==>
            var w := LastPut(n, trace, t, ConfigurationKey(c));
            w.Some? && w.value.ConfigPut? && w.value.p != p && w.value.cfg != c
  {
    var k := ConfigurationKey(c);
    if i: nat :| t <= i < |trace| && LatestIsOthers(n, trace, i, p, c) {
      NoPutIffNone(n, trace, i + 1, k);
      LatestIsLast(n, trace, t, k, i);
    }
    if LastPut(n, trace, t, k).Some? {
      var i := LastIsLatest(n, trace, t, k);
      NoPutIffNone(n, trace, i + 1, k);
      var w := LastPut(n, trace, t, k).value;
      assert w.ConfigPut? && w.p != p && w.cfg != c ==> LatestIsOthers(n, trace, i, p, c);
    }
  }

  /**
   A put past its check has something other than its own configuration under its id if and only if its window says so.
   */
  lemma PutReplacesIff(n: int, trace: seq<Action>, p: nat)
    requires PastCheck(Run(n, trace), p)
    ensures var c := Run(n, trace).procs[p].config;
            ConfigAt(Run(n, trace).store, ConfigurationKey(c)) !in {None, Some(c)} <==> WindowReplaces(n, trace, p)
  {
    var c, t := Run(n, trace).procs[p].config, CheckTime(n, trace, p);
    var k := ConfigurationKey(c);
    CheckFoundNothing(n, trace, p);
    LastPutDecides(n, trace, t, k);
    OthersPutIsLast(n, trace, t, p, c);
    NoPutIffNone(n, trace, t, k);
    if LastPut(n, trace, t, k).Some? {
      OwnPuts(n, trace, t, k);
    }
  }

  /** Action `i` is the SET of a put whose window replaces what is stored under `k`. */
  ghost predicate ReplacingSet(n: int, trace: seq<Action>, i: nat, k: Key)
    requires i < |trace|
  {
    var s, a := Run(n, trace[..i]), trace[i];
    && Runs(s, a) && s.procs[a.p].Configure? && s.procs[a.p].conf.StoringConfig?
    && k == ConfigurationKey(s.procs[a.p].config) && WindowReplaces(n, trace[..i], a.p)
  }

  /** A stored configuration is replaced by an action if and only if that action is such a SET. */
  lemma ReplacedIff(n: int, trace: seq<Action>, i: nat, k: Key)
    requires i < |trace|
    ensures var before, after := ConfigAt(Run(n, trace[..i]).store, k), ConfigAt(Run(n, trace[..i + 1]).store, k);
            before.Some? && after != before <==> ReplacingSet(n, trace, i, k)
  {
    var s, a := Run(n, trace[..i]), trace[i];
    assert Front(trace[..i + 1]) == trace[..i] && Last(trace[..i + 1]) == a;
    RunsAreWellTyped(n, trace[..i]);
    PutIsStored(s, a, k);
    if Puts(s, a, k) {
      PutReplacesIff(n, trace[..i], a.p);
    }
  }

  ghost predicate NeverChanges(n: int, trace: seq<Action>, k: Key) {
    forall i: nat, j: nat :: i <= j <= |trace| && ConfigAt(Run(n, trace[..i]).store, k).Some? ==>
      ConfigAt(Run(n, trace[..j]).store, k) == ConfigAt(Run(n, trace[..i]).store, k)
  }

  lemma {:induction false} KeptBetween(n: int, trace: seq<Action>, i: nat, j: nat, k: Key)
    requires i <= j <= |trace| && ConfigAt(Run(n, trace[..i]).store, k).Some?
    requires forall h: nat :: h < |trace| ==> !ReplacingSet(n, trace, h, k)
    ensures ConfigAt(Run(n, trace[..j]).store, k) == ConfigAt(Run(n, trace[..i]).store, k)
  {
    if i < j {
      KeptBetween(n, trace, i, j - 1, k);
      ReplacedIff(n, trace, j - 1, k);
    }
  }

  /**
   Over a whole run, "already exists" protects what is stored under `k` if and only if no put has a replacing window.
   */
  lemma NeverChangesIff(n: int, trace: seq<Action>, k: Key)
    ensures NeverChanges(n, trace, k) <==> forall i: nat :: i < |trace| ==> !ReplacingSet(n, trace, i, k)
  {
    if forall i: nat :: i < |trace| ==> !ReplacingSet(n, trace, i, k) {
      forall i: nat, j: nat | i <= j <= |trace| && ConfigAt(Run(n, trace[..i]).store, k).Some?
        ensures ConfigAt(Run(n, trace[..j]).store, k) == ConfigAt(Run(n, trace[..i]).store, k)
      {
        KeptBetween(n, trace, i, j, k);
      }
    } else {
      var i: nat :| i < |trace| && ReplacingSet(n, trace, i, k);
      ReplacedIff(n, trace, i, k);
    }
  }
}
