/** The listing calls of the gRPC server, over a store that stands still while they run. */
module Queries {
  import opened Strings
  import opened Fsm
  import opened Keys
  import opened Redis
  import opened IndexExactness

  datatype Status = Fine | InvalidArgument | Unimplemented | LookupError | StreamError

  ghost predicate Distinct<T>(xs: seq<T>) {
    forall i, j :: 0 <= i < j < |xs| ==> xs[i] != xs[j]
  }

  /** SMEMBERS: the members in an order of Redis's choosing. */
  method Members(ms: set<string>) returns (ids: seq<string>)
    ensures Distinct(ids) && (forall id :: id in ids <==> id in ms)
  {
    ids := [];
    var left := ms;
    while left != {}
      invariant left <= ms && Distinct(ids) && (forall id :: id in ids <==> id in ms - left)
      decreases |left|
    {
      var id :| id in left;
      assert id !in ids;
      forall i | 0 <= i < |ids| ensures ids[i] != id {
        assert ids[i] in ids;
      }
      ids := ids + [id];
      left := left - {id};
    }
  }

  /** A failed lookup of the set is answered with an empty list. */
  method GetAllInState(r: Redis<Key>, cfg: string, state: string, failed: bool) returns (err: Status, ids: seq<string>)
    ensures err == if cfg == "" then InvalidArgument else if state == "" then Unimplemented else Fine
    ensures Distinct(ids) && (failed ==> ids == [])
    ensures forall id :: id in ids <==> err == Fine && !failed && id in MembersOf(r, StateKey(cfg, state))
  {
    if cfg == "" {
      return InvalidArgument, [];
    }
    if state == "" {
      return Unimplemented, [];
    }
    if failed {
      return Fine, [];
    }
    ids := Members(MembersOf(r, StateKey(cfg, state)));
    return Fine, ids;
  }

  datatype Sent = Sent(id: string, fsm: FiniteStateMachine)

  /** What was sent: machines of the set, each once, each as stored. */
  ghost predicate SentFromSet(r: Redis<Key>, cfg: string, state: string, sent: seq<Sent>) {
    && (forall i :: 0 <= i < |sent| ==>
          sent[i].id in MembersOf(r, StateKey(cfg, state)) &&
            MachineAt(r, MachineKey(cfg, sent[i].id)) == Some(sent[i].fsm))
    && (forall i, j :: 0 <= i < j < |sent| ==> sent[i].id != sent[j].id)
  }

  ghost predicate AllSent(r: Redis<Key>, cfg: string, state: string, sent: seq<Sent>) {
    forall id :: id in MembersOf(r, StateKey(cfg, state)) ==> exists i :: 0 <= i < |sent| && sent[i].id == id
  }

  /** The stream accepts `room` messages before it breaks; the lookups of the ids in `broken` fail. */
  method StreamAllInstate(r: Redis<Key>, cfg: string, state: string, failed: bool, broken: set<string>, room: nat)
    returns (err: Status, sent: seq<Sent>)
    ensures SentFromSet(r, cfg, state, sent) && (forall i :: 0 <= i < |sent| ==> sent[i].id !in broken)
    ensures err == Fine && !failed ==> AllSent(r, cfg, state, sent)
    ensures err == StreamError ==> |sent| == room
    ensures err == LookupError ==>
              exists id :: id in MembersOf(r, StateKey(cfg, state)) &&
                (MachineAt(r, MachineKey(cfg, id)).None? || id in broken)
    ensures err == InvalidArgument <==> cfg == ""
    ensures err == Unimplemented <==> cfg != "" && state == ""
    ensures cfg == "" || state == "" || failed ==> sent == []
    ensures cfg != "" && state != "" && failed ==> err == Fine
  {
    sent := [];
    var ids;
    err, ids := GetAllInState(r, cfg, state, failed);
    if err != Fine {
      return;
    }
    var i := 0;
    while i < |ids|
      invariant 0 <= i <= |ids| && |sent| == i && i <= room && SentFromSet(r, cfg, state, sent)
      invariant forall j :: 0 <= j < i ==> sent[j].id == ids[j] && sent[j].id !in broken
    {
      var m := MachineAt(r, MachineKey(cfg, ids[i]));
      if m.None? || ids[i] in broken {
        assert ids[i] in ids;
        return LookupError, sent;
      }
      if i == room {
        return StreamError, sent;
      }
      assert ids[i] in ids;
      sent := sent + [Sent(ids[i], m.value)];
      i := i + 1;
    }
    if !failed {
      forall id | id in MembersOf(r, StateKey(cfg, state)) ensures exists i :: 0 <= i < |sent| && sent[i].id == id {
        assert id in ids;
        var j :| 0 <= j < |ids| && ids[j] == id;
        assert sent[j].id == id;
      }
    }
  }

  /**
   Over an exact index, a stream that completes sends exactly the machines a full scan would find, once each and in
   the requested state; and no machine in the set is missing, so only a lookup or the stream itself can break.
   */
  lemma StreamRefinesScan(r: Redis<Key>, cfg: string, state: string, sent: seq<Sent>)
    requires state != "" && forall id :: Exact(r, MachineKey(cfg, id))
    requires SentFromSet(r, cfg, state, sent)
    ensures forall i :: 0 <= i < |sent| ==> sent[i].fsm.state == state && sent[i].id in Scan(r, cfg, state)
    ensures AllSent(r, cfg, state, sent) ==> Scan(r, cfg, state) == set i | 0 <= i < |sent| :: sent[i].id
    ensures forall id :: id in MembersOf(r, StateKey(cfg, state)) ==> MachineAt(r, MachineKey(cfg, id)).Some?
  {
    IndexRefinesScan(r, cfg, state);
    forall i | 0 <= i < |sent| ensures sent[i].fsm.state == state && sent[i].id in Scan(r, cfg, state) {
      assert sent[i].id in MembersOf(r, StateKey(cfg, state));
    }
  }

  /**
   Every version listed under a name, each with the configuration stored for it; lookups of the ids in `broken` fail.
   */
  method StreamAllConfigurations(r: Redis<Key>, name: string, failed: bool, broken: set<string>, room: nat)
    returns (err: Status, sent: seq<Configuration>)
    ensures name == "" <==> err == InvalidArgument
    ensures name == "" || failed ==> sent == []
    ensures name != "" && failed ==> err == Fine
    ensures err == Fine && !failed ==> |sent| == |MembersOf(r, VersionsKey(name))|
    ensures err == Fine && !failed ==>
              forall id :: id in MembersOf(r, VersionsKey(name)) ==>
                ConfigAt(r, KeyForConfigId(id)).Some? && ConfigAt(r, KeyForConfigId(id)).value in sent
    ensures forall c :: c in sent ==>
              exists id :: id in MembersOf(r, VersionsKey(name)) - broken && ConfigAt(r, KeyForConfigId(id)) == Some(c)
    ensures err == LookupError ==>
              exists id :: id in MembersOf(r, VersionsKey(name)) &&
                (ConfigAt(r, KeyForConfigId(id)).None? || id in broken)
    ensures err == StreamError ==> |sent| == room
  {
    sent := [];
    if name == "" {
      return InvalidArgument, [];
    }
    if failed {
      return Fine, [];
    }
    var ids := Members(MembersOf(r, VersionsKey(name)));
    DistinctCount(ids, MembersOf(r, VersionsKey(name)));
    var i := 0;
    while i < |ids|
      invariant 0 <= i <= |ids| && |sent| == i
      invariant forall j :: 0 <= j < i ==> ConfigAt(r, KeyForConfigId(ids[j])) == Some(sent[j]) && ids[j] !in broken
    {
      var c := ConfigAt(r, KeyForConfigId(ids[i]));
      if c.None? || ids[i] in broken {
        assert ids[i] in ids;
        return LookupError, sent;
      }
      if i == room {
        return StreamError, sent;
      }
      sent := sent + [c.value];
      i := i + 1;
    }
    return Fine, sent;
  }

  lemma {:induction false} DistinctCount(ids: seq<string>, ms: set<string>)
    requires Distinct(ids) && forall id :: id in ids <==> id in ms
    ensures |ids| == |ms|
  {
    if ids == [] {
      assert ms == {};
    } else {
      var last := ids[|ids| - 1];
      var front := ids[..|ids| - 1];
      assert last in ids && ids == front + [last];
      DistinctCount(front, ms - {last});
    }
  }
}
