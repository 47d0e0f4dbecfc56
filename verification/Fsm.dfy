/**
 The state machine engine of pkg/api/fsm.go on values: configurations, machines, events,
 the first-match transition, and what any sequence of events does to a machine.
 */
module Fsm {
  import opened Strings

  datatype Transition = Transition(from: string, to: string, event: string)

  datatype Event = Event(id: string, transition: Transition, originator: string, details: string)

  /** An event as it arrives and is stored, which may lack a transition. */
  datatype EventRecord = EventRecord(id: string, transition: Option<Transition>, originator: string, details: string)

  function EventOf(r: EventRecord): Event
    requires r.transition.Some?
  {
    Event(r.id, r.transition.value, r.originator, r.details)
  }

  datatype Configuration = Configuration(
    name: string, version: string, states: seq<string>, transitions: seq<Transition>, startingState: string)

  datatype FiniteStateMachine = FiniteStateMachine(configId: string, state: string, history: seq<Event>)

  const VERSION_SEPARATOR := ':'

  function VersionId(c: Configuration): string {
    c.name + [VERSION_SEPARATOR] + c.version
  }

  /** The configuration name that a machine's configuration id starts with. */
  function NameOf(configId: string): string {
    Before(configId, VERSION_SEPARATOR)
  }

  predicate Fits(t: Transition, state: string, event: string) {
    t.from == state && t.event == event
  }

  predicate IsFirst(ts: seq<Transition>, i: nat, state: string, event: string)
    requires i < |ts|
  {
    Fits(ts[i], state, event) && forall j :: 0 <= j < i ==> !Fits(ts[j], state, event)
  }

  /** The transition the loop of `SendEvent` stops at. */
  function FirstMatch(ts: seq<Transition>, state: string, event: string): (r: Option<Transition>)
    ensures r.Some? ==> exists i :: 0 <= i < |ts| && ts[i] == r.value && IsFirst(ts, i, state, event)
    ensures r.None? <==> forall i :: 0 <= i < |ts| ==> !Fits(ts[i], state, event)
  {
    if ts == [] then None
    else if ts[0].from == state && ts[0].event == event then Some(ts[0])
    else
      assert ts == [ts[0]] + ts[1..];
      FirstMatch(ts[1..], state, event)
  }

  function Stamp(evt: Event, from: string, to: string): Event {
    evt.(transition := evt.transition.(from := from, to := to))
  }

  /** `SendEvent`: the new machine, or nothing when the event is refused. */
  function SendEvent(c: Configuration, fsm: FiniteStateMachine, evt: Event): Option<FiniteStateMachine> {
    match FirstMatch(c.transitions, fsm.state, evt.transition.event)
    case None => None
    case Some(t) =>
      Some(fsm.(state := t.to, history := fsm.history + [Stamp(evt, fsm.state, t.to)]))
  }

  function NewMachine(c: Configuration): Option<FiniteStateMachine> {
    if c.name == "" || c.version == "" then None
    else Some(FiniteStateMachine(VersionId(c), c.startingState, []))
  }

  /** A machine is made exactly when name and version are given: in the starting state, with an empty history. */
  lemma NewMachineMeaning(c: Configuration)
    ensures NewMachine(c).None? <==> c.name == "" || c.version == ""
    ensures NewMachine(c).Some? ==>
              && NewMachine(c).value.configId == c.name + ":" + c.version
              && NewMachine(c).value.state == c.startingState && NewMachine(c).value.history == []
  {
  }

  /**
   An event is accepted exactly when some transition leaves the machine's state on it. The first such one gives the new
   state, and the event, with that transition's ends filled in and otherwise as sent, is added to the history.
   */
  lemma SendEventMeaning(c: Configuration, fsm: FiniteStateMachine, evt: Event)
    ensures var ts, e := c.transitions, evt.transition.event;
            && (SendEvent(c, fsm, evt).Some? <==>
              exists i :: 0 <= i < |ts| && ts[i].from == fsm.state && ts[i].event == e)
            && (forall i | 0 <= i < |ts| && ts[i].from == fsm.state && ts[i].event == e ::
                  (forall j :: 0 <= j < i ==> ts[j].from != fsm.state || ts[j].event != e) ==>
                    SendEvent(c, fsm, evt) == Some(FiniteStateMachine(fsm.configId, ts[i].to,
                      fsm.history + [Event(evt.id, Transition(fsm.state, ts[i].to, e), evt.originator, evt.details)])))
  {
    var ts, e := c.transitions, evt.transition.event;
    var r := FirstMatch(ts, fsm.state, e);
    if r.Some? {
      var i :| 0 <= i < |ts| && ts[i] == r.value && IsFirst(ts, i, fsm.state, e);
      assert Fits(ts[i], fsm.state, e);
      forall k | 0 <= k < |ts| && Fits(ts[k], fsm.state, e) && (forall j :: 0 <= j < k ==> !Fits(ts[j], fsm.state, e))
        ensures k == i
      {
        assert !(i < k) && !(k < i);
      }
    } else {
      forall i | 0 <= i < |ts| ensures ts[i].from != fsm.state || ts[i].event != e {
        assert !Fits(ts[i], fsm.state, e);
      }
    }
  }

  function Reset(c: Configuration, fsm: FiniteStateMachine): FiniteStateMachine {
    fsm.(state := c.startingState, history := [])
  }

  // ---------------------------------------------------------------- version ids

  /** Splitting a version id gives the name back exactly when the name has no separator. */
  lemma VersionIdNamesItsConfiguration(c: Configuration)
    ensures NameOf(VersionId(c)) == c.name <==> VERSION_SEPARATOR !in c.name
  {
    if VERSION_SEPARATOR !in c.name {
      SplitJoin(c.name, VERSION_SEPARATOR, c.version);
    }
  }

  lemma VersionIdInjective(c: Configuration, d: Configuration)
    requires VERSION_SEPARATOR !in c.name && VERSION_SEPARATOR !in d.name
    ensures VersionId(c) == VersionId(d) <==> c.name == d.name && c.version == d.version
  {
    if VersionId(c) == VersionId(d) {
      JoinInjective(c.name, c.version, d.name, d.version, VERSION_SEPARATOR);
    }
  }

  // ---------------------------------------------------------------- runs of a machine

  datatype Op = Send(evt: Event) | Restart

  function Apply(c: Configuration, fsm: FiniteStateMachine, op: Op): FiniteStateMachine {
    match op
    case Restart => Reset(c, fsm)
    case Send(evt) => var r := SendEvent(c, fsm, evt); if r.Some? then r.value else fsm
  }

  function ApplyAll(c: Configuration, fsm: FiniteStateMachine, ops: seq<Op>): FiniteStateMachine {
    if ops == [] then fsm
    else Apply(c, ApplyAll(c, fsm, ops[..|ops| - 1]), ops[|ops| - 1])
  }

  /** `history` is a connected walk from `start` to `end`, each step the first match for its event. */
  ghost predicate IsPath(c: Configuration, start: string, history: seq<Event>, end: string) {
    && (history == [] ==> start == end)
    && (history != [] ==> history[0].transition.from == start && history[|history| - 1].transition.to == end)
    && (forall i :: 0 <= i < |history| ==>
          FirstMatch(c.transitions, history[i].transition.from, history[i].transition.event)
            == Some(history[i].transition))
    && (forall i :: 0 < i < |history| ==> history[i - 1].transition.to == history[i].transition.from)
  }

  /** The events of `ops` since the last restart, in order. */
  function SentSinceRestart(ops: seq<Op>): seq<Event> {
    if ops == [] || ops[|ops| - 1].Restart? then []
    else SentSinceRestart(ops[..|ops| - 1]) + [ops[|ops| - 1].evt]
  }

  /** What the caller supplied in an event: everything but the stamped end points. */
  function Unstamped(evt: Event): Event {
    Stamp(evt, "", "")
  }

  function UnstampedAll(es: seq<Event>): seq<Event> {
    seq(|es|, i requires 0 <= i < |es| => Unstamped(es[i]))
  }

  ghost predicate Subsequence<T>(xs: seq<T>, ys: seq<T>)
  {
    if xs == [] then true
    else if ys == [] then false
    else Subsequence(xs, ys[..|ys| - 1]) ||
         (xs[|xs| - 1] == ys[|ys| - 1] && Subsequence(xs[..|xs| - 1], ys[..|ys| - 1]))
  }

  lemma PathExtends(c: Configuration, start: string, fsm: FiniteStateMachine, evt: Event)
    requires IsPath(c, start, fsm.history, fsm.state)
    requires SendEvent(c, fsm, evt).Some?
    ensures var next := SendEvent(c, fsm, evt).value; IsPath(c, start, next.history, next.state)
  {
    var next := SendEvent(c, fsm, evt).value;
    forall i | 0 <= i < |next.history|
      ensures FirstMatch(c.transitions, next.history[i].transition.from, next.history[i].transition.event)
                == Some(next.history[i].transition)
    {
      assert i < |fsm.history| ==> next.history[i] == fsm.history[i];
    }
  }

  lemma UnstampedSnoc(es: seq<Event>, evt: Event, from: string, to: string)
    ensures UnstampedAll(es + [Stamp(evt, from, to)]) == UnstampedAll(es) + [Unstamped(evt)]
    ensures UnstampedAll(es + [evt]) == UnstampedAll(es) + [Unstamped(evt)]
  {
  }

  lemma SubsequenceSnoc<T>(xs: seq<T>, ys: seq<T>, z: T)
    requires Subsequence(xs, ys)
    ensures Subsequence(xs, ys + [z]) && Subsequence(xs + [z], ys + [z])
  {
    assert (ys + [z])[..|ys|] == ys && (xs + [z])[..|xs|] == xs;
  }

  /**
   Any mix of accepted events, refused events and resets: the history is a connected path of
   first-match transitions from the starting state to the current one, its events are among those
   sent since the last reset, in that order, and the configuration id never moves.
   */
  lemma {:induction false} HistoryIsPath(c: Configuration, ops: seq<Op>)
    requires NewMachine(c).Some?
    ensures var fsm := ApplyAll(c, NewMachine(c).value, ops);
            && IsPath(c, c.startingState, fsm.history, fsm.state)
            && fsm.configId == VersionId(c)
            && Subsequence(UnstampedAll(fsm.history), UnstampedAll(SentSinceRestart(ops)))
  {
    if ops != [] {
      var pre, op := ops[..|ops| - 1], ops[|ops| - 1];
      HistoryIsPath(c, pre);
      var fsm := ApplyAll(c, NewMachine(c).value, pre);
      if op.Send? {
        SubsequenceSnoc(UnstampedAll(fsm.history), UnstampedAll(SentSinceRestart(pre)), Unstamped(op.evt));
        UnstampedSnoc(SentSinceRestart(pre), op.evt, "", "");
        if SendEvent(c, fsm, op.evt).Some? {
          PathExtends(c, c.startingState, fsm, op.evt);
          UnstampedSnoc(fsm.history, op.evt, fsm.state, SendEvent(c, fsm, op.evt).value.state);
        }
      }
    }
  }

  // ---------------------------------------------------------------- validity

  /** Whether a state is either end of a transition. */
  function HasState(t: Transition, state: string): (r: bool)
    ensures r <==> state in {t.from, t.to}
  {
    state == t.from || state == t.to
  }

  /** The declarative reading of configuration validity. */
  ghost predicate ValidConfiguration(c: Configuration) {
    && c.name != ""
    && c.states != []
    && c.startingState != ""
    && c.startingState in c.states
    && forall s :: s in c.states ==> Used(c, s)
  }

  /** Some transition starts or ends in the state. */
  ghost predicate Used(c: Configuration, s: string) {
    exists t :: t in c.transitions && (t.from == s || t.to == s)
  }

  ghost predicate ValidMachine(c: Configuration, fsm: FiniteStateMachine) {
    ValidConfiguration(c) && fsm.state in c.states && fsm.configId == VersionId(c)
  }

  /** No event can move a machine from a declared state to an undeclared one. */
  ghost predicate StaysDeclared(c: Configuration) {
    forall s, e :: s in c.states && FirstMatch(c.transitions, s, e).Some? ==>
      FirstMatch(c.transitions, s, e).value.to in c.states
  }

  ghost predicate RunsStayValid(c: Configuration) {
    forall fsm, ops :: ValidMachine(c, fsm) ==> ValidMachine(c, ApplyAll(c, fsm, ops))
  }

  lemma {:induction false} ValidityKept(c: Configuration, fsm: FiniteStateMachine, ops: seq<Op>)
    requires StaysDeclared(c) && ValidMachine(c, fsm)
    ensures ValidMachine(c, ApplyAll(c, fsm, ops))
  {
    if ops != [] {
      ValidityKept(c, fsm, ops[..|ops| - 1]);
      var mid, op := ApplyAll(c, fsm, ops[..|ops| - 1]), ops[|ops| - 1];
      if op.Send? {
        assert FirstMatch(c.transitions, mid.state, op.evt.transition.event).Some? ==> SendEvent(c, mid, op.evt).Some?;
      }
    }
  }

  /**
   `CheckValid` does not look at transition targets. Every run of events and resets keeps every
   valid machine valid exactly when first-match transitions out of declared states end in declared states.
   */
  lemma RunsStayValidIffTargetsDeclared(c: Configuration)
    requires ValidConfiguration(c)
    ensures RunsStayValid(c) <==> StaysDeclared(c)
  {
    if StaysDeclared(c) {
      forall fsm, ops | ValidMachine(c, fsm) ensures ValidMachine(c, ApplyAll(c, fsm, ops)) {
        ValidityKept(c, fsm, ops);
      }
    }
    if RunsStayValid(c) {
      forall s, e | s in c.states && FirstMatch(c.transitions, s, e).Some?
        ensures FirstMatch(c.transitions, s, e).value.to in c.states
      {
        var fsm := FiniteStateMachine(VersionId(c), s, []);
        var op := Send(Event("", Transition("", "", e), "", ""));
        assert [op][..0] == [];
        assert ApplyAll(c, fsm, [op]) == Apply(c, ApplyAll(c, fsm, []), op);
        assert ValidMachine(c, ApplyAll(c, fsm, [op]));
      }
    }
  }

  /** A configuration that `CheckValid` accepts and one event takes out of its declared states. */
  lemma ValidConfigurationMayLeaveItsStates()
    ensures exists c :: ValidConfiguration(c) && !RunsStayValid(c)
  {
    var t := Transition("a", "b", "go");
    var c := Configuration("n", "v", ["a"], [t], "a");
    assert t in c.transitions;
    assert Used(c, "a");
    assert ValidConfiguration(c);
    assert FirstMatch(c.transitions, "a", "go") == Some(t);
    RunsStayValidIffTargetsDeclared(c);
  }
}
