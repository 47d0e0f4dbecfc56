/**
 The events listener: for every request taken from the channel, one pass through the store and
 exactly one reported outcome; a notification for each outcome that is not Ok. A stored event
 without a transition stops it.
 */
module Listener {
  import opened Strings
  import opened Fsm
  import opened Keys
  import opened Redis
  import opened Server
  import opened Calls
  import opened Errors
  import opened Client

  datatype EventRequest = EventRequest(event: Option<EventRecord>, config: string, id: string)

  datatype EventResponse = EventResponse(eventId: string, outcome: EventOutcome)

  function EventId(request: EventRequest): string {
    if request.event.Some? then request.event.value.id else ""
  }

  function MakeResponse(request: EventRequest, code: StatusCode, details: string): EventResponse {
    EventResponse(EventId(request), EventOutcome(code, details, request.config, request.id))
  }

  /** How far a request got, with the numbers and results of the calls made for it. */
  datatype Handling =
    | Malformed
    | NoEvent
    | NotStored(put: nat, err: Result, text: string)
    | Processed(put: nat, call: nat, err: Result, text: string)

  /** A request is well formed when it names a machine and a configuration. */
  predicate WellFormed(request: EventRequest) {
    request.id != "" && request.config != ""
  }

  const NO_ID := "no statemachine ID specified"
  const NO_CONFIG := "no Configuration name specified"
  const NOT_STORED := "could not store event: "
  const NIL_EVENT := "could not store event: error storing invalid data: nil event"
  const NOT_UPDATED := "could not update statemachine ["
  const IN_STORE := "] in store: "

  /** The outcome code that a handling deserves. */
  function CodeFor(h: Handling): StatusCode {
    match h
    case Malformed => MissingDestination
    case NoEvent => InternalError
    case NotStored(_, _, _) => InternalError
    case Processed(_, _, err, text) =>
      if err == Success then Ok else if MatchesNotFound(text) then FsmNotFound else InternalError
  }

  function DetailsFor(request: EventRequest, h: Handling): string {
    match h
    case Malformed => if request.id == "" then NO_ID else NO_CONFIG
    case NoEvent => NIL_EVENT
    case NotStored(_, _, text) => NOT_STORED + text
    case Processed(_, _, err, text) =>
      if err == Success then ""
      else NOT_UPDATED + request.config + "#" + request.id + IN_STORE + text
  }

  /** The response is this request's, with the code and details its handling deserves. */
  predicate Answers(response: EventResponse, request: EventRequest, h: Handling) {
    response == MakeResponse(request, CodeFor(h), DetailsFor(request, h))
  }

  /** The event was saved by call `put`, which ended with `err`. */
  predicate EventPut(s: State<Key>, request: EventRequest, put: nat, err: Result) {
    && request.event.Some? && put in s.procs
    && var evt := request.event.value;
       s.procs[put] == Save(EventKey(request.config, evt.id), Stored(evt), SaveDone(err))
  }

  /** The calls made for the request are the ones the handling names, and ended as it says. */
  predicate CallEnded(s: State<Key>, request: EventRequest, h: Handling) {
    match h
    case Malformed => !WellFormed(request)
    case NoEvent => WellFormed(request) && request.event.None?
    case NotStored(put, err, _) => WellFormed(request) && EventPut(s, request, put, err) && err != Success
    case Processed(put, call, err, text) =>
      && WellFormed(request) && EventPut(s, request, put, Success) && call in s.procs
      && request.event.value.transition.Some?
      && s.procs[call] == Tx(request.id, request.config, EventOf(request.event.value), TxDone(err))
  }

  /** A well-formed request whose event has no transition. */
  predicate LacksTransition(request: EventRequest) {
    WellFormed(request) && request.event.Some? && request.event.value.transition.None?
  }

  /** A request with an event for a machine that is not in the store, under names without whitespace. */
  predicate AsksForAbsentMachine(request: EventRequest, r: Redis<Key>) {
    && request.id != "" && request.config != "" && NoSpace(request.id) && NoSpace(request.config)
    && request.event.Some? && request.event.value.transition.Some?
    && MachineAt(r, MachineKey(request.config, request.id)).None?
  }

  /** What one pass through the store comes to: an answer, or a stop after the event was stored by call `put`. */
  datatype Turn = Answered(h: Handling, response: EventResponse) | Stopped(put: nat)

  /** The request that stopped the listener, and the call that stored its event. */
  datatype Stop = Stop(request: EventRequest, put: nat)

  predicate StoppedRightly(s: State<Key>, stop: Stop) {
    LacksTransition(stop.request) && EventPut(s, stop.request, stop.put, Success)
  }

  /** The outcome write `w` was attempted for this response, under its event id and configuration. */
  predicate OutcomeAttempted(s: State<Key>, w: nat, response: EventResponse) {
    && w in s.procs && s.procs[w].Save? && s.procs[w].save.SaveDone?
    && s.procs[w].k == OutcomeKey(response.outcome.config, response.eventId)
    && s.procs[w].v == Outcome(response.outcome)
  }

  /** How a finished event call is reported. */
  lemma ReportedCode(request: EventRequest, h: Handling)
    requires h.Processed? && TxText(request.id, request.config, h.err, h.text)
    ensures h.err == Success <==> CodeFor(h) == Ok
    ensures h.err.MachineNotFound? && NoSpace(request.config) && NoSpace(request.id) ==> CodeFor(h) == FsmNotFound
    ensures h.err in {ConfigNotFound(false), Refused, RetriesExceeded} ==> CodeFor(h) == InternalError
    ensures h.err == ConfigNotFound(true) && CodeFor(h) != InternalError ==>
              exists raw :: h.text == NotFoundError(raw) && Trim(raw) != "" && NoSpace(Trim(raw))
  {
    MatcherDecidesPattern(h.text);
    if h.err == ConfigNotFound(false) {
      var configId :| h.text == NotFoundError(NotFoundError(NewKeyForConfig(configId)));
      EventErrorClassification(request.id, request.config, configId, "");
    } else if h.err == ConfigNotFound(true) {
      var broken, raw :| h.text == NotFoundError(BrokenText(broken, raw));
      RecognisedIffTrimmedKeyIsOneWord(broken);
      EventErrorClassification(request.id, request.config, "", broken);
    } else {
      EventErrorClassification(request.id, request.config, "", "");
    }
  }

  /** One turn of the loop: the request, how it was handled, what was reported and the call that wrote the outcome. */
  datatype Entry = Entry(request: EventRequest, h: Handling, response: EventResponse, write: nat)

  /** The entry tells what happened: the answer fits, the calls ended as it says, the outcome was written. */
  ghost predicate Truthful(s: State<Key>, e: Entry) {
    && Answers(e.response, e.request, e.h)
    && CallEnded(s, e.request, e.h)
    && (e.h.Processed? ==> TxText(e.request.id, e.request.config, e.h.err, e.h.text))
    && OutcomeAttempted(s, e.write, e.response)
  }

  /** What the listener has done so far, turn after turn. */
  datatype History = Idle | Then(before: History, last: Entry)

  ghost predicate AllTruthful(s: State<Key>, es: History) {
    es.Idle? || (AllTruthful(s, es.before) && Truthful(s, es.last))
  }

  function Requests(es: History): seq<EventRequest> {
    if es.Idle? then [] else Requests(es.before) + [es.last.request]
  }

  /** The responses that are not Ok, in order. */
  function NotOk(es: History): seq<EventResponse> {
    if es.Idle? then []
    else NotOk(es.before) + if es.last.response.outcome.code == Ok then [] else [es.last.response]
  }

  /** The store calls made for a request: save the event, then process it. */
  function CallsMade(calls: Ledger, h: Handling): Ledger {
    match h
    case Malformed => calls
    case NoEvent => calls
    case NotStored(put, _, _) => Opened(calls, put)
    case Processed(put, call, _, _) => Opened(Opened(calls, put), call)
  }

  /** All calls, turn after turn, each turn ending with its one outcome write. */
  function CallsOf(calls: Ledger, es: History): Ledger {
    if es.Idle? then calls else Opened(CallsMade(CallsOf(calls, es.before), es.last.h), es.last.write)
  }

  lemma HandlingStays(n: int, before: seq<Action>, after: seq<Action>, request: EventRequest, h: Handling)
    requires before <= after && CallEnded(Run(n, before), request, h)
    ensures CallEnded(Run(n, after), request, h)
  {
    if h.NotStored? || h.Processed? {
      EndedCallsStay(n, before, after, h.put);
    }
    if h.Processed? {
      EndedCallsStay(n, before, after, h.call);
    }
  }

  /** What the entries say stays true whatever runs later. */
  lemma {:induction false} AllStayTruthful(n: int, before: seq<Action>, after: seq<Action>, es: History)
    requires before <= after && AllTruthful(Run(n, before), es)
    ensures AllTruthful(Run(n, after), es)
  {
    if es.Then? {
      AllStayTruthful(n, before, after, es.before);
      HandlingStays(n, before, after, es.last.request, es.last.h);
      EndedCallsStay(n, before, after, es.last.write);
    }
  }

  lemma OneMore(taken: seq<EventRequest>, events: seq<EventRequest>, i: nat)
    requires i < |events|
    ensures taken + events[..i] + [events[i]] == taken + events[..i + 1]
    ensures events[..|events|] == events
  {
  }

  lemma TurnIsTruthful(n: int, before: seq<Action>, mid: seq<Action>, after: seq<Action>, es: History, e: Entry)
    requires before <= mid <= after && AllTruthful(Run(n, before), es)
    requires Answers(e.response, e.request, e.h) && CallEnded(Run(n, mid), e.request, e.h)
    requires e.h.Processed? ==> TxText(e.request.id, e.request.config, e.h.err, e.h.text)
    requires OutcomeAttempted(Run(n, after), e.write, e.response)
    ensures AllTruthful(Run(n, after), Then(es, e))
  {
    AllStayTruthful(n, before, after, es);
    HandlingStays(n, mid, after, e.request, e.h);
  }

  /** Of the requests that were answered, none had its event stored without a transition. */
  ghost predicate NoneStops(es: History) {
    es.Idle? || (NoneStops(es.before) && (LacksTransition(es.last.request) ==> es.last.h.NotStored?))
  }

  lemma {:induction false} AnsweredDidNotStop(s: State<Key>, es: History)
    requires AllTruthful(s, es)
    ensures NoneStops(es)
  {
    if es.Then? {
      AnsweredDidNotStop(s, es.before);
    }
  }

  class EventsListener {
    const store: RedisStore
    /** Whether a notifications channel was configured. */
    const notify: bool
    var notifications: seq<EventResponse>
    /** One entry per request answered so far. */
    ghost var entries: History
    /** The request that stopped the listener, if one did. */
    ghost var stopped: Option<Stop>
    /** The calls made through the store before listening began. */
    ghost const earlier: Ledger

    constructor (store: RedisStore, notify: bool)
      requires store.Valid()
      ensures this.store == store && this.notify == notify && entries == Idle && stopped == None
      ensures earlier == store.calls && Valid()
    {
      this.store := store;
      this.notify := notify;
      notifications := [];
      entries := Idle;
      stopped := None;
      earlier := store.calls;
    }

    /**
     The listener's calls are exactly those of its entries, in order, and after them the one that stored the event of
     the request it stopped at; its notifications are the responses not Ok.
     */
    ghost predicate Valid()
      reads this, store
    {
      && store.Valid()
      && AllTruthful(store.sys, entries)
      && (stopped.None? ==> store.calls == CallsOf(earlier, entries))
      && (stopped.Some? ==>
            store.calls == Opened(CallsOf(earlier, entries), stopped.value.put) &&
              StoppedRightly(store.sys, stopped.value))
      && notifications == if notify then NotOk(entries) else []
    }

    /** Writes the outcome; an error of that write is only logged. */
    method ReportOutcome(response: EventResponse) returns (w: nat)
      requires store.Valid()
      modifies store
      ensures store.Valid() && old(store.trace) <= store.trace && store.calls == Opened(old(store.calls), w)
      ensures OutcomeAttempted(store.sys, w, response)
    {
      var err, text;
      w, err, text := store.AddEventOutcome(response.eventId, response.outcome.config, response.outcome);
    }

    method PostNotificationAndReportOutcome(response: EventResponse) returns (w: nat)
      requires store.Valid()
      modifies store, `notifications
      ensures store.Valid() && old(store.trace) <= store.trace && store.calls == Opened(old(store.calls), w)
      ensures OutcomeAttempted(store.sys, w, response)
      ensures notifications == old(notifications) + if notify then [response] else []
    {
      if notify {
        notifications := notifications + [response];
      }
      w := ReportOutcome(response);
    }

    /** Takes one request through the store: what became of it, and the response to report. */
    method Process(request: EventRequest) returns (t: Turn)
      requires store.Valid()
      modifies store
      ensures store.Valid() && old(store.trace) <= store.trace
      ensures t.Answered? ==>
                && store.calls == CallsMade(old(store.calls), t.h)
                && Answers(t.response, request, t.h) && CallEnded(store.sys, request, t.h)
                && (t.h.Processed? ==> TxText(request.id, request.config, t.h.err, t.h.text))
      ensures t.Stopped? ==>
                && store.calls == Opened(old(store.calls), t.put)
                && StoppedRightly(store.sys, Stop(request, t.put))
      ensures LacksTransition(request) && old(store.script) == [] ==> t.Stopped?
      ensures old(store.script) == [] && AsksForAbsentMachine(request, old(store.sys.store)) ==>
                t.Answered? && t.response.outcome.code == FsmNotFound
    {
      if request.id == "" {
        return Answered(Malformed, MakeResponse(request, MissingDestination, NO_ID));
      }
      if request.config == "" {
        return Answered(Malformed, MakeResponse(request, MissingDestination, NO_CONFIG));
      }
      if request.event.None? {
        return Answered(NoEvent, MakeResponse(request, InternalError, NIL_EVENT));
      }
      var evt := request.event.value;
      var put, err, text := store.PutEvent(evt, request.config);
      if err != Success {
        return Answered(NotStored(put, err, text), MakeResponse(request, InternalError, NOT_STORED + text));
      }
      if evt.transition.None? {
        return Stopped(put);
      }
      ghost var before := store.trace;
      var p;
      p, err, text := store.TxProcessEvent(request.id, request.config, EventOf(evt));
      EndedCallsStay(store.maxRetries, before, store.trace, put);
      ReportedCode(request, Processed(put, p, err, text));
      if err != Success {
        var code := if MatchesNotFound(text) then FsmNotFound else InternalError;
        return Answered(Processed(put, p, err, text), MakeResponse(request, code,
            NOT_UPDATED + request.config + "#" + request.id + IN_STORE + text));
      }
      return Answered(Processed(put, p, err, text), MakeResponse(request, Ok, ""));
    }

    /**
     The listening loop, over the requests that the channel delivers: how many of them were answered. It stops at a
     request if and only if that is the first well-formed one with an event, without a transition, that was stored.
     */
    method ListenForMessages(events: seq<EventRequest>) returns (answered: nat)
      requires Valid() && stopped.None?
      modifies this, store
      ensures Valid() && old(store.trace) <= store.trace && answered <= |events|
      ensures Requests(entries) == old(Requests(entries)) + events[..answered]
      ensures answered < |events| <==> stopped.Some?
      ensures stopped.Some? ==> stopped.value.request == events[answered]
      ensures NoneStops(entries)
      ensures events != [] && LacksTransition(events[0]) && old(store.script) == [] ==>
                answered == 0 && entries == old(entries)
    {
      ghost var taken, start := Requests(entries), entries;
      ghost var doomed := events != [] && LacksTransition(events[0]) && store.script == [];
      var i := 0;
      while i < |events|
        invariant 0 <= i <= |events| && Valid() && stopped.None? && Requests(entries) == taken + events[..i]
        invariant old(store.trace) <= store.trace
        invariant doomed ==> i == 0 && store.script == [] && entries == start
      {
        var alive := Handle(events[i]);
        if !alive {
          AnsweredDidNotStop(store.sys, entries);
          return i;
        }
        OneMore(taken, events, i);
        i := i + 1;
      }
      AnsweredDidNotStop(store.sys, entries);
      return i;
    }

    /** An Ok response is only reported; any other one is also posted as a notification. */
    method Post(response: EventResponse) returns (w: nat)
      requires store.Valid()
      modifies store, `notifications
      ensures store.Valid() && old(store.trace) <= store.trace && store.calls == Opened(old(store.calls), w)
      ensures OutcomeAttempted(store.sys, w, response)
      ensures notifications == old(notifications) + if notify && response.outcome.code != Ok then [response] else []
    {
      if response.outcome.code != Ok {
        w := PostNotificationAndReportOutcome(response);
      } else {
        w := ReportOutcome(response);
      }
    }

    /** One turn of the loop; a request that stops the listener gets no answer. */
    method Handle(request: EventRequest) returns (alive: bool)
      requires Valid() && stopped.None?
      modifies this, store
      ensures Valid() && old(store.trace) <= store.trace
      ensures alive ==> stopped.None? && entries.Then? && Requests(entries) == old(Requests(entries)) + [request]
      ensures !alive ==> stopped.Some? && stopped.value.request == request && entries == old(entries)
      ensures LacksTransition(request) && old(store.script) == [] ==> !alive
      ensures old(store.script) == [] && AsksForAbsentMachine(request, old(store.sys.store)) ==>
                alive && entries.last.request == request && entries.last.response.outcome.code == FsmNotFound
    {
      ghost var before := store.trace;
      var t := Process(request);
      if t.Stopped? {
        AllStayTruthful(store.maxRetries, before, store.trace, entries);
        stopped := Some(Stop(request, t.put));
        return false;
      }
      Answer(request, t.h, t.response, before);
      return true;
    }

    /** Reports the answer to a request, and keeps the entry. */
    method Answer(request: EventRequest, h: Handling, response: EventResponse, ghost before: seq<Action>)
      requires store.Valid() && stopped.None? && before <= store.trace
      requires AllTruthful(Run(store.maxRetries, before), entries)
      requires store.calls == CallsMade(CallsOf(earlier, entries), h)
      requires Answers(response, request, h) && CallEnded(store.sys, request, h)
      requires h.Processed? ==> TxText(request.id, request.config, h.err, h.text)
      requires notifications == if notify then NotOk(entries) else []
      modifies store, `notifications, `entries
      ensures Valid() && old(store.trace) <= store.trace
      ensures entries.Then? && entries.before == old(entries)
      ensures entries.last.request == request && entries.last.response == response
    {
      ghost var mid := store.trace;
      var w := Post(response);
      ghost var e := Entry(request, h, response, w);
      TurnIsTruthful(store.maxRetries, before, mid, store.trace, entries, e);
      entries := Then(entries, e);
    }
  }

  /**
   A server whose first request is such a one, with every command answered: it stores the event, writes no outcome,
   posts no notification, and takes none of the requests behind it.
   */
  method EventWithoutTransitionStopsTheListener(maxRetries: int, notify: bool, bad: EventRequest,
      rest: seq<EventRequest>)
    returns (listener: EventsListener, answered: nat)
    requires LacksTransition(bad)
    ensures listener.Valid() && answered == 0 && listener.entries == Idle && listener.notifications == []
    ensures listener.stopped.Some? && listener.stopped.value.request == bad
    ensures listener.store.calls == Opened(NoCalls, listener.stopped.value.put)
  {
    var store := new RedisStore(maxRetries, []);
    listener := new EventsListener(store, notify);
    answered := listener.ListenForMessages([bad] + rest);
  }

  // ---------------------------------------------------------------- what is written, spelled out

  function StoredId(request: EventRequest): string {
    match request.event
    case Some(r) => r.id
    case None => ""
  }

  /** The outcome goes under the request's configuration and event id, and names that configuration and the machine. */
  ghost predicate Addressed(s: State<Key>, e: Entry) {
    && e.response.eventId == StoredId(e.request)
    && e.response.outcome.config == e.request.config && e.response.outcome.id == e.request.id
    && e.write in s.procs && s.procs[e.write].Save?
    && s.procs[e.write].k == OutcomeKey(e.request.config, StoredId(e.request))
    && s.procs[e.write].v == Outcome(e.response.outcome)
  }

  /** The event that was stored and the one that was processed are the request's, field by field. */
  ghost predicate Passed(s: State<Key>, e: Entry) {
    && (e.h.NotStored? || e.h.Processed? ==>
          && e.request.event.Some? && e.h.put in s.procs && s.procs[e.h.put].Save?
          && s.procs[e.h.put].k == EventKey(e.request.config, e.request.event.value.id)
          && s.procs[e.h.put].v == Stored(e.request.event.value))
    && (e.h.Processed? ==>
          && e.h.call in s.procs && s.procs[e.h.call].Tx? && e.request.event.value.transition.Some?
          && s.procs[e.h.call].id == e.request.id && s.procs[e.h.call].cfg == e.request.config
          && var evt, r := s.procs[e.h.call].evt, e.request.event.value;
             && evt.id == r.id && evt.transition == r.transition.value
             && evt.originator == r.originator && evt.details == r.details)
  }

  /** Each way a request can end has its own code and text. */
  ghost predicate Worded(e: Entry) {
    var code, details := e.response.outcome.code, e.response.outcome.details;
    && (code == MissingDestination <==> e.request.id == "" || e.request.config == "")
    && (e.request.id == "" ==> details == "no statemachine ID specified")
    && (e.request.id != "" && e.request.config == "" ==> details == "no Configuration name specified")
    && (e.request.id != "" && e.request.config != "" && e.request.event.None? ==>
          code == InternalError && details == "could not store event: error storing invalid data: nil event")
    && (e.h.NotStored? ==> code == InternalError && details == "could not store event: " + e.h.text)
    && (e.h.Processed? && e.h.err == Success ==> code == Ok && details == "")
    && (e.h.Processed? && e.h.err != Success ==>
          && code in {FsmNotFound, InternalError}
          && details ==
             "could not update statemachine [" + e.request.config + "#" + e.request.id + "] in store: " + e.h.text)
    && (e.h.Malformed? <==> e.request.id == "" || e.request.config == "")
    && (e.h.NoEvent? <==> e.request.id != "" && e.request.config != "" && e.request.event.None?)
  }

  lemma EntryIsAddressed(s: State<Key>, e: Entry)
    requires Truthful(s, e)
    ensures Addressed(s, e) && Passed(s, e)
  {
  }

  lemma EntryIsWorded(s: State<Key>, e: Entry)
    requires Truthful(s, e)
    ensures Worded(e)
  {
  }

  predicate Holds(es: History, e: Entry) {
    es.Then? && (es.last == e || Holds(es.before, e))
  }

  /** For every entry of the listener, whatever runs later: addressed, passed on and worded as the request demands. */
  lemma {:induction false} EveryEntryIsSpelledOut(s: State<Key>, es: History, e: Entry)
    requires AllTruthful(s, es) && Holds(es, e)
    ensures Addressed(s, e) && Passed(s, e) && Worded(e)
  {
    if es.last == e {
      EntryIsAddressed(s, e);
      EntryIsWorded(s, e);
    } else {
      EveryEntryIsSpelledOut(s, es.before, e);
    }
  }

  /** A response is notified exactly if it is that of some entry and not Ok. */
  lemma {:induction false} NotifiedIffNotOk(es: History, response: EventResponse)
    ensures response in NotOk(es) <==> response.outcome.code != Ok && exists e :: Holds(es, e) && e.response == response
  {
    if es.Then? {
      NotifiedIffNotOk(es.before, response);
      if e :| Holds(es.before, e) && e.response == response {
        assert Holds(es, e);
      }
      assert Holds(es, es.last);
    }
  }

  // ---------------------------------------------------------------- commits

  /**
   An Ok outcome belongs to a call that committed exactly once; a request that was refused, found nothing or ran
   out of retries committed nothing; no request committed twice.
   */
  lemma OutcomesMatchCommits(n: int, trace: seq<Action>, e: Entry)
    requires Truthful(Run(n, trace), e)
    ensures e.response.outcome.code == Ok <==> e.h.Processed? && e.h.err == Success
    ensures e.response.outcome.code == Ok ==>
              EventPut(Run(n, trace), e.request, e.h.put, Success) && CommitsBy(LogOf(n, trace), e.h.call) == 1
    ensures e.h.Processed? ==>
              CommitsBy(LogOf(n, trace), e.h.call) <= if e.h.err in {Success, StoreFailure} then 1 else 0
  {
    if e.h.Processed? {
      OneCommitPerCall(n, trace, e.h.call);
      ReportedCode(e.request, e.h);
    }
  }

  /** The event calls of the entries that committed. */
  function Committed(log: seq<Write>, es: History): set<nat> {
    if es.Idle? then {}
    else
      var h := es.last.h;
      Committed(log, es.before) + if h.Processed? && CommitsBy(log, h.call) > 0 then {h.call} else {}
  }

  function OkCount(es: History): nat {
    if es.Idle? then 0 else OkCount(es.before) + if es.last.response.outcome.code == Ok then 1 else 0
  }

  lemma {:induction false} CommittedAreCalls(log: seq<Write>, earlier: Ledger, es: History)
    ensures forall p :: p in Committed(log, es) ==> Has(CallsOf(earlier, es), p)
  {
    if es.Then? {
      CommittedAreCalls(log, earlier, es.before);
      forall p | p in Committed(log, es) ensures Has(CallsOf(earlier, es), p) {
        MadeCallsAreListed(CallsOf(earlier, es.before), es.last.h, p);
      }
    }
  }

  lemma MadeCallsAreListed(calls: Ledger, h: Handling, p: nat)
    ensures Has(calls, p) || (h.Processed? && p == h.call) ==> Has(CallsMade(calls, h), p)
  {
  }

  lemma MadeCallsAreNew(calls: Ledger, h: Handling, procs: map<nat, Proc>)
    requires Owned(CallsMade(calls, h), procs)
    ensures Owned(calls, procs) && (h.Processed? ==> !Has(calls, h.call))
  {
  }

  /**
   The listener commits at most once for each request it took, and each Ok it reports has a commit of its own:
   the calls that committed are distinct, committed once each, and number between the Oks and the requests.
   */
  lemma {:induction false} CommitsNeverExceedRequests(n: int, trace: seq<Action>, earlier: Ledger, es: History)
    requires AllTruthful(Run(n, trace), es) && Owned(CallsOf(earlier, es), Run(n, trace).procs)
    ensures OkCount(es) <= |Committed(LogOf(n, trace), es)| <= |Requests(es)|
    ensures forall p :: p in Committed(LogOf(n, trace), es) ==> CommitsBy(LogOf(n, trace), p) == 1
  {
    if es.Then? {
      MadeCallsAreNew(CallsOf(earlier, es.before), es.last.h, Run(n, trace).procs);
      CommitsNeverExceedRequests(n, trace, earlier, es.before);
      OutcomesMatchCommits(n, trace, es.last);
      CommittedAreCalls(LogOf(n, trace), earlier, es.before);
    }
  }
}
