/**
 The part of Redis that the store relies on: one map from keys to values, a write counter per key
 (what WATCH compares), and single commands applied atomically.
 */
module Redis {
  import opened Strings
  import opened Fsm

  datatype StatusCode = Ok | MissingDestination | FsmNotFound | InternalError

  datatype EventOutcome = EventOutcome(code: StatusCode, details: string, config: string, id: string)

  datatype Value =
    | Machine(fsm: FiniteStateMachine)
    | Config(cfg: Configuration)
    | Members(ids: set<string>)
    | Stored(event: EventRecord)
    | Outcome(outcome: EventOutcome)

  datatype Redis<K> = Redis(data: map<K, Value>, writes: map<K, nat>)

  /** `Exec` is MULTI / SET k v / EXEC on a connection that saw version `ver` of `k` when it watched it. */
  datatype Cmd<K> =
    | Get(k: K)
    | Exists(k: K)
    | Watch(k: K)
    | Set(k: K, v: Value)
    | SAdd(k: K, m: string)
    | SRem(k: K, m: string)
    | Exec(k: K, ver: nat, v: Value)

  datatype Reply =
    | Nil
    | Found(value: Value)
    | Number(n: nat)
    | Done
    | Committed
    | Aborted
    | WrongType
    | Failed(timeout: bool)

  function Ver<K>(r: Redis<K>, k: K): nat {
    if k in r.writes then r.writes[k] else 0
  }

  function Put<K>(r: Redis<K>, k: K, v: Value): Redis<K> {
    Redis(r.data[k := v], r.writes[k := Ver(r, k) + 1])
  }

  predicate HoldsSet<K>(r: Redis<K>, k: K) {
    k !in r.data || r.data[k].Members?
  }

  function MembersOf<K>(r: Redis<K>, k: K): set<string> {
    if k in r.data && r.data[k].Members? then r.data[k].ids else {}
  }

  /** Redis drops the key of a set that becomes empty. */
  function Remove<K>(r: Redis<K>, k: K, m: string): Redis<K> {
    var left := MembersOf(r, k) - {m};
    Redis(if left == {} then r.data - {k} else r.data[k := Members(left)], r.writes[k := Ver(r, k) + 1])
  }

  function Effect<K>(r: Redis<K>, c: Cmd<K>): Redis<K> {
    match c
    case Get(_) => r
    case Exists(_) => r
    case Watch(_) => r
    case Set(k, v) => Put(r, k, v)
    case SAdd(k, m) => if HoldsSet(r, k) && m !in MembersOf(r, k) then Put(r, k, Members(MembersOf(r, k) + {m})) else r
    case SRem(k, m) => if HoldsSet(r, k) && m in MembersOf(r, k) then Remove(r, k, m) else r
    case Exec(k, ver, v) => if Ver(r, k) == ver then Put(r, k, v) else r
  }

  function Answer<K>(r: Redis<K>, c: Cmd<K>): Reply {
    match c
    case Get(k) => if k !in r.data then Nil else if r.data[k].Members? then WrongType else Found(r.data[k])
    case Exists(k) => Number(if k in r.data then 1 else 0)
    case Watch(k) => Number(Ver(r, k))
    case Set(_, _) => Done
    case SAdd(k, _) => if HoldsSet(r, k) then Done else WrongType
    case SRem(k, _) => if HoldsSet(r, k) then Done else WrongType
    case Exec(k, ver, _) => if Ver(r, k) == ver then Committed else Aborted
  }

  predicate SameAt<K>(r: Redis<K>, r': Redis<K>, k: K) {
    && (k in r.data <==> k in r'.data)
    && (k in r.data ==> r.data[k] == r'.data[k])
  }

  /** What makes WATCH sound: the counter never falls, and a key whose counter stood still did not change. */
  lemma CounterDetectsChange<K>(r: Redis<K>, c: Cmd<K>, k: K)
    ensures Ver(r, k) <= Ver(Effect(r, c), k) <= Ver(r, k) + 1
    ensures Ver(Effect(r, c), k) == Ver(r, k) ==> SameAt(r, Effect(r, c), k)
    ensures c.k != k ==> Ver(Effect(r, c), k) == Ver(r, k)
  {
  }

  function MachineAt<K>(r: Redis<K>, k: K): Option<FiniteStateMachine> {
    if k in r.data && r.data[k].Machine? then Some(r.data[k].fsm) else None
  }

  function ConfigAt<K>(r: Redis<K>, k: K): Option<Configuration> {
    if k in r.data && r.data[k].Config? then Some(r.data[k].cfg) else None
  }
}
