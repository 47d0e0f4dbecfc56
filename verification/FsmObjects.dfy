/**
 The engine as the objects it works on: messages with fields that callers share and change.
 `ConfiguredStateMachine` keeps its history apart from the events it is sent by cloning them.
 */
module FsmObjects {
  import opened Fsm

  class TransitionMsg {
    var from: string
    var to: string
    var event: string

    constructor (from: string, to: string, event: string)
      ensures this.from == from && this.to == to && this.event == event
    {
      this.from, this.to, this.event := from, to, event;
    }

    function View(): Transition
      reads this
    {
      Transition(from, to, event)
    }
  }

  class EventMsg {
    var id: string
    var transition: TransitionMsg?
    var originator: string
    var details: string

    constructor (id: string, transition: TransitionMsg?, originator: string, details: string)
      ensures this.id == id && this.transition == transition && this.originator == originator && this.details == details
    {
      this.id, this.transition, this.originator, this.details := id, transition, originator, details;
    }

    function View(): Event
      requires transition != null
      reads this, transition
    {
      Event(id, transition.View(), originator, details)
    }

    /** `proto.Clone`: a deep copy. */
    method Clone() returns (c: EventMsg)
      ensures fresh(c) && c.id == id && c.originator == originator && c.details == details
      ensures c.transition == null <==> transition == null
      ensures transition != null ==> fresh(c.transition) && c.View() == View()
    {
      var t: TransitionMsg? := null;
      if transition != null {
        t := new TransitionMsg(transition.from, transition.to, transition.event);
      }
      c := new EventMsg(id, t, originator, details);
    }
  }

  class MachineMsg {
    var configId: string
    var state: string
    var history: seq<EventMsg>

    constructor (configId: string, state: string)
      ensures this.configId == configId && this.state == state && history == []
    {
      this.configId, this.state, this.history := configId, state, [];
    }
  }

  // ---------------------------------------------------------------- histories

  ghost function TransitionsOf(es: seq<EventMsg>): set<TransitionMsg?>
    reads es
  {
    set e | e in es :: e.transition
  }

  ghost predicate Complete(es: seq<EventMsg>)
    reads es
  {
    forall i :: 0 <= i < |es| ==> es[i].transition != null
  }

  ghost function HistoryView(es: seq<EventMsg>): (h: seq<Event>)
    requires Complete(es)
    reads es, TransitionsOf(es)
    ensures |h| == |es| && forall i :: 0 <= i < |es| ==> h[i] == es[i].View()
  {
    if es == [] then []
    else
      var front, last := es[..|es| - 1], es[|es| - 1];
      assert forall e :: e in front ==> e in es && e.transition in TransitionsOf(es);
      assert TransitionsOf(front) <= TransitionsOf(es);
      assert last.transition in TransitionsOf(es);
      HistoryView(front) + [last.View()]
  }

  lemma HistorySnoc(es: seq<EventMsg>, e: EventMsg)
    requires Complete(es) && e.transition != null
    ensures Complete(es + [e]) && HistoryView(es + [e]) == HistoryView(es) + [e.View()]
  {
    assert (es + [e])[..|es|] == es;
  }

  /** Changes to other objects go unnoticed. */
  twostate lemma HistoryStays(es: seq<EventMsg>)
    requires old(Complete(es)) && (forall i :: 0 <= i < |es| ==> unchanged(es[i]) && unchanged(old(es[i].transition)))
    ensures Complete(es) && HistoryView(es) == old(HistoryView(es))
  {
    forall i | 0 <= i < |es| ensures es[i].View() == old(es[i].View()) {
    }
  }

  class ConfiguredStateMachine {
    var config: Configuration
    var fsm: MachineMsg

    constructor (config: Configuration, fsm: MachineMsg)
      ensures this.config == config && this.fsm == fsm
    {
      this.config, this.fsm := config, fsm;
    }

    ghost predicate Valid()
      reads this, fsm, fsm.history
    {
      Complete(fsm.history)
    }

    ghost function View(): FiniteStateMachine
      requires Valid()
      reads this, fsm, fsm.history, TransitionsOf(fsm.history)
    {
      FiniteStateMachine(fsm.configId, fsm.state, HistoryView(fsm.history))
    }

    /** Neither the event nor its transition is part of the history. */
    ghost predicate Apart(evt: EventMsg)
      reads this, fsm, fsm.history, evt
    {
      evt !in fsm.history && (evt.transition == null || evt.transition !in TransitionsOf(fsm.history))
    }

    /** Stamps the event with the transition it makes and appends it to the history. */
    method Take(e: EventMsg, to: string)
      requires Valid() && e.transition != null && Apart(e)
      modifies fsm, e.transition
      ensures Valid() && fsm.configId == old(fsm.configId) && fsm.history == old(fsm.history) + [e]
      ensures var stamped := Stamp(old(e.View()), old(fsm.state), to);
              View() == old(View()).(state := to, history := old(View()).history + [stamped])
    {
      ghost var was := fsm.history;
      e.transition.from := fsm.state;
      e.transition.to := to;
      forall i | 0 <= i < |was| ensures was[i].transition != e.transition {
        assert was[i] in was;
      }
      HistoryStays(was);
      HistorySnoc(was, e);
      fsm.state := to;
      fsm.history := fsm.history + [e];
    }

    /**
     Nothing but the machine's own record changes, and the history entry it gains is a clone. An event
     without a transition is only looked into when some transition leaves the current state.
     */
    method SendEvent(evt: EventMsg) returns (ok: bool)
      requires Valid()
      requires evt.transition == null ==> forall t :: t in config.transitions ==> t.from != fsm.state
      modifies fsm
      ensures Valid() && fsm.configId == old(fsm.configId)
      ensures evt.transition == null ==> !ok
      ensures !ok ==> fsm.state == old(fsm.state) && fsm.history == old(fsm.history)
      ensures ok ==> |fsm.history| == |old(fsm.history)| + 1 && fsm.history[..|fsm.history| - 1] == old(fsm.history)
      ensures ok ==> var e := fsm.history[|fsm.history| - 1]; fresh(e) && fresh(e.transition)
      ensures evt.transition != null ==>
                var r := Fsm.SendEvent(config, old(View()), evt.View());
                ok == r.Some? && View() == if ok then r.value else old(View())
    {
      var newEvent := evt.Clone();
      ghost var ts := config.transitions;
      var i := 0;
      while i < |config.transitions|
        invariant 0 <= i <= |ts| && ts == config.transitions
        invariant unchanged(fsm)
        invariant evt.transition != null ==>
                    && FirstMatch(ts, fsm.state, evt.transition.event)
                       == FirstMatch(ts[i..], fsm.state, evt.transition.event)
                    && newEvent.transition != null && newEvent.View() == evt.View()
      {
        var t := config.transitions[i];
        if t.from == fsm.state && t.event == newEvent.transition.event {
          assert ts[i..][0] == t && Apart(newEvent);
          HistoryStays(fsm.history);
          Take(newEvent, t.to);
          return true;
        }
        assert ts[i..][1..] == ts[i + 1..];
        i := i + 1;
      }
      HistoryStays(fsm.history);
      return false;
    }

    method Reset()
      modifies fsm
      ensures Valid() && fsm.state == config.startingState && fsm.history == [] && fsm.configId == old(fsm.configId)
    {
      fsm.state := config.startingState;
      fsm.history := [];
    }
  }

  method NewStateMachine(config: Configuration) returns (m: ConfiguredStateMachine?)
    ensures m == null <==> config.name == "" || config.version == ""
    ensures m != null ==>
        && m.fsm.configId == config.name + ":" + config.version
        && m.fsm.state == config.startingState && m.fsm.history == []
    ensures m == null <==> NewMachine(config).None?
    ensures m != null ==>
        fresh(m) && fresh(m.fsm) && m.Valid() && m.config == config && m.View() == NewMachine(config).value
  {
    if config.name == "" || config.version == "" {
      return null;
    }
    var fsm := new MachineMsg(config.name + [VERSION_SEPARATOR] + config.version, config.startingState);
    m := new ConfiguredStateMachine(config, fsm);
  }

  /** A caller overwrites every field of an event it holds. */
  method Overwrite(m: ConfiguredStateMachine, evt: EventMsg, id: string, transition: Transition, originator: string,
      details: string)
    requires m.Valid() && m.Apart(evt) && evt.transition != null
    modifies evt, evt.transition
    ensures evt.transition == old(evt.transition) && evt.View() == Event(id, transition, originator, details)
    ensures m.Valid() && m.View() == old(m.View())
  {
    evt.id, evt.originator, evt.details := id, originator, details;
    var t := evt.transition;
    t.from, t.to, t.event := transition.from, transition.to, transition.event;
    ghost var was := m.fsm.history;
    forall i | 0 <= i < |was| ensures was[i] != evt && was[i].transition != t {
      assert was[i] in was;
    }
    HistoryStays(was);
  }

  /** Sending keeps the caller's event apart from the history, so overwriting it later goes unnoticed. */
  method SendAndOverwrite(m: ConfiguredStateMachine, evt: EventMsg, id: string, transition: Transition,
      originator: string, details: string)
    returns (ok: bool)
    requires m.Valid() && m.Apart(evt) && evt.transition != null
    modifies m.fsm, evt, evt.transition
    ensures m.Valid()
    ensures var r := SendEvent(m.config, old(m.View()), old(evt.View()));
            ok == r.Some? && m.View() == if ok then r.value else old(m.View())
  {
    ok := m.SendEvent(evt);
    if ok {
      ghost var h := m.fsm.history;
      assert h == old(m.fsm.history) + [h[|h| - 1]];
    }
    assert m.Apart(evt);
    Overwrite(m, evt, id, transition, originator, details);
  }

  // ---------------------------------------------------------------- validation

  datatype ConfigError =
    | NoError
    | MissingName
    | MissingStates
    | EmptyStartingState
    | MismatchStartingState
    | UnreachableState(state: string)

  method CfgHasState(c: Configuration, state: string) returns (found: bool)
    ensures found <==> state in c.states
  {
    var i := 0;
    while i < |c.states|
      invariant 0 <= i <= |c.states| && state !in c.states[..i]
    {
      if c.states[i] == state {
        return true;
      }
      i := i + 1;
    }
    return false;
  }

  /** `CheckValid` accepts exactly the valid configurations, and otherwise names the first thing that is wrong. */
  method CheckValid(c: Configuration) returns (err: ConfigError)
    ensures err == NoError <==> ValidConfiguration(c)
    ensures err == MissingName <==> c.name == ""
    ensures err == MissingStates <==> c.name != "" && c.states == []
    ensures err == EmptyStartingState <==> c.name != "" && c.states != [] && c.startingState == ""
    ensures err == MismatchStartingState <==>
        c.name != "" && c.states != [] && c.startingState != "" && c.startingState !in c.states
    ensures err.UnreachableState? ==>
              exists i :: 0 <= i < |c.states| && c.states[i] == err.state && !Used(c, err.state) &&
                forall j :: 0 <= j < i ==> Used(c, c.states[j])
  {
    if c.name == "" {
      return MissingName;
    }
    if |c.states| == 0 {
      return MissingStates;
    }
    if c.startingState == "" {
      return EmptyStartingState;
    }
    var known := CfgHasState(c, c.startingState);
    if !known {
      return MismatchStartingState;
    }
    var i := 0;
    while i < |c.states|
      invariant 0 <= i <= |c.states| && forall j :: 0 <= j < i ==> Used(c, c.states[j])
    {
      var s := c.states[i];
      var found := false;
      var j := 0;
      while j < |c.transitions| && !found
        invariant 0 <= j <= |c.transitions| && (found ==> Used(c, s))
        invariant !found ==> forall t :: t in c.transitions[..j] ==> t.from != s && t.to != s
      {
        if HasState(c.transitions[j], s) {
          assert c.transitions[j] in c.transitions;
          found := true;
        }
        j := j + 1;
      }
      if !found {
        assert c.transitions[..j] == c.transitions;
        assert s in c.states && !Used(c, s);
        return UnreachableState(s);
      }
      i := i + 1;
    }
    return NoError;
  }

  /** The check on a machine: its configuration, its state and its configuration id. */
  method CheckMachine(m: ConfiguredStateMachine) returns (valid: bool)
    requires m.Valid()
    ensures valid <==>
        && ValidConfiguration(m.config) && m.fsm.state in m.config.states
        && m.fsm.configId == m.config.name + ":" + m.config.version
    ensures valid <==> ValidMachine(m.config, m.View())
  {
    var err := CheckValid(m.config);
    var known := CfgHasState(m.config, m.fsm.state);
    return err == NoError && known && m.fsm.configId == VersionId(m.config);
  }
}
