/**
 Redis has one flat keyspace of strings. The same server, running on string keys, goes in lockstep
 with the server on typed keys: every reply, every process and every stored value is the same, as
 long as configuration names hold no separator.
 */
module Flat {
  import opened Fsm
  import opened Keys
  import opened Redis
  import opened Server
  import opened Configs

  function EncodeCmd(c: Cmd<Key>): Cmd<string> {
    match c
    case Get(k) => Get(Encode(k))
    case Exists(k) => Exists(Encode(k))
    case Watch(k) => Watch(Encode(k))
    case Set(k, v) => Set(Encode(k), v)
    case SAdd(k, m) => SAdd(Encode(k), m)
    case SRem(k, m) => SRem(Encode(k), m)
    case Exec(k, ver, v) => Exec(Encode(k), ver, v)
  }

  /** A step of the server on the flat keyspace. */
  function FlatStep(s: State<string>, a: Action): State<string> {
    match a
    case Begin(p, call) =>
      if p in s.procs then s else s.(procs := s.procs[p := Start(s.maxRetries, call)])
    case Go(p, d) =>
      if !Live(s, p) then s else
        var c := EncodeCmd(NextCmd(s.procs[p]));
        State(s.maxRetries,
              if Executed(d) then Effect(s.store, c) else s.store,
              s.procs[p := Advance(s.maxRetries, s.procs[p], Seen(s.store, c, d))])
  }

  function FlatRun(n: int, trace: seq<Action>): State<string> {
    if trace == [] then Init(n) else FlatStep(FlatRun(n, Front(trace)), Last(trace))
  }

  // ---------------------------------------------------------------- stores

  predicate AgreeAt(r: Redis<Key>, f: Redis<string>, k: Key) {
    && (k in r.data <==> Encode(k) in f.data)
    && (k in r.data ==> r.data[k] == f.data[Encode(k)])
    && Ver(r, k) == Ver(f, Encode(k))
  }

  ghost predicate Agree(r: Redis<Key>, f: Redis<string>) {
    forall k :: Safe(k) ==> AgreeAt(r, f, k)
  }

  lemma SameAnswer(r: Redis<Key>, f: Redis<string>, c: Cmd<Key>)
    requires AgreeAt(r, f, c.k)
    ensures Answer(f, EncodeCmd(c)) == Answer(r, c)
  {
  }

  lemma EffectAtKey(r: Redis<Key>, f: Redis<string>, c: Cmd<Key>)
    requires AgreeAt(r, f, c.k)
    ensures AgreeAt(Effect(r, c), Effect(f, EncodeCmd(c)), c.k)
  {
  }

  lemma EffectElsewhere(r: Redis<Key>, f: Redis<string>, c: Cmd<Key>, k: Key)
    requires AgreeAt(r, f, k) && k != c.k && Encode(k) != Encode(c.k)
    ensures AgreeAt(Effect(r, c), Effect(f, EncodeCmd(c)), k)
  {
    CounterDetectsChange(r, c, k);
    CounterDetectsChange(f, EncodeCmd(c), Encode(k));
  }

  lemma EffectsAgree(r: Redis<Key>, f: Redis<string>, c: Cmd<Key>)
    requires Agree(r, f) && Safe(c.k)
    ensures Agree(Effect(r, c), Effect(f, EncodeCmd(c)))
  {
    forall k | Safe(k) ensures AgreeAt(Effect(r, c), Effect(f, EncodeCmd(c)), k) {
      if k == c.k {
        EffectAtKey(r, f, c);
      } else {
        EncodeInjective(k, c.k);
        EffectElsewhere(r, f, c, k);
      }
    }
  }

  // ---------------------------------------------------------------- runs

  /** The configuration names in a call hold no separator. */
  predicate SafeAction(a: Action) {
    a.Begin? ==>
      match a.call
      case TxProcessEvent(_, cfg, _) => SeparatorFree(cfg)
      case PutFiniteStateMachine(_, fsm) => SeparatorFree(NameOf(fsm.configId))
      case PutConfig(c) => SeparatorFree(c.name)
      case PutStateMachine(_, fsm) => SeparatorFree(NameOf(fsm.configId))
      case PutEvent(cfg, _) => SeparatorFree(cfg)
      case AddEventOutcome(cfg, _, _) => SeparatorFree(cfg)
  }

  ghost predicate SafeRun(trace: seq<Action>) {
    forall i :: 0 <= i < |trace| ==> SafeAction(trace[i])
  }

  predicate SafeProc(proc: Proc) {
    match proc
    case Tx(_, cfg, _, _) => SeparatorFree(cfg)
    case Create(_, fsm, _) => SeparatorFree(NameOf(fsm.configId))
    case Configure(c, _) => SeparatorFree(c.name)
    case Save(k, _, _) => Safe(k)
  }

  lemma NextKeyIsSafe(r: Redis<Key>, proc: Proc)
    requires !IsDone(proc) && SafeProc(proc) && CreateRefers(r, proc)
    ensures Safe(NextCmd(proc).k)
  {
    match proc
    case Tx(_, _, _, pc) => if pc.ReadingConfig? { ConfigIdKey(pc.was.configId); }
    case Create(_, fsm, _) => ConfigIdKey(fsm.configId);
    case Configure(c, _) => ConfigIdKey(VersionId(c));
    case Save(_, _, _) =>
  }

  ghost predicate Lockstep(s: State<Key>, f: State<string>) {
    && f.maxRetries == s.maxRetries && f.procs == s.procs && Agree(s.store, f.store)
    && forall p :: p in s.procs ==> SafeProc(s.procs[p])
  }

  lemma LockstepStep(s: State<Key>, f: State<string>, a: Action)
    requires Lockstep(s, f) && Named(s) && SafeAction(a)
    ensures Lockstep(Step(s, a), FlatStep(f, a))
  {
    if a.Go? && Live(s, a.p) {
      var c := NextCmd(s.procs[a.p]);
      NextKeyIsSafe(s.store, s.procs[a.p]);
      SameAnswer(s.store, f.store, c);
      EffectsAgree(s.store, f.store, c);
    }
  }

  /** Every run of the server on the flat keyspace is the run on typed keys. */
  lemma {:induction false} FlatRunsInLockstep(n: int, trace: seq<Action>)
    requires SafeRun(trace)
    ensures Lockstep(Run(n, trace), FlatRun(n, trace))
  {
    if trace != [] {
      FlatRunsInLockstep(n, Front(trace));
      assert SafeAction(Last(trace));
      forall i | 0 <= i < |Front(trace)| ensures NamedAction(Front(trace)[i]) {
        assert SafeAction(trace[i]);
      }
      ConfigurationsAreStoredUnderTheirIds(n, Front(trace));
      LockstepStep(Run(n, Front(trace)), FlatRun(n, Front(trace)), Last(trace));
    }
  }
}
