/**
 The Redis key names of pkg/storage/keys.go. Machines, state sets, events, outcomes and
 configurations share one string keyspace; `Key` is the key a caller means and `Encode` the
 string it becomes. For names without separators no two keys meet.
 */
module Keys {
  import opened Strings
  import opened Fsm

  const CONFIGS_PREFIX := "configs"
  const EVENTS_PREFIX := "events"
  const FSM_PREFIX := "fsm"

  function NewKeyForConfig(id: string): string {
    CONFIGS_PREFIX + "#" + id
  }

  function NewKeyForMachine(id: string, cfgName: string): string {
    FSM_PREFIX + ":" + cfgName + "#" + id
  }

  function NewKeyForMachinesByState(cfgName: string, state: string): string {
    FSM_PREFIX + ":" + cfgName + ":" + "state" + "#" + state
  }

  function NewKeyForEvent(id: string, cfgName: string): string {
    EVENTS_PREFIX + ":" + cfgName + "#" + id
  }

  function NewKeyForOutcome(id: string, cfgName: string): string {
    EVENTS_PREFIX + ":" + cfgName + ":" + "outcome" + "#" + id
  }

  datatype Key =
    | MachineKey(cfg: string, id: string)
    | StateKey(cfg: string, state: string)
    | EventKey(cfg: string, id: string)
    | OutcomeKey(cfg: string, id: string)
    | ConfigKey(name: string, version: string)
    | VersionsKey(name: string)
    | NamesKey

  function Encode(k: Key): string {
    match k
    case MachineKey(cfg, id) => NewKeyForMachine(id, cfg)
    case StateKey(cfg, state) => NewKeyForMachinesByState(cfg, state)
    case EventKey(cfg, id) => NewKeyForEvent(id, cfg)
    case OutcomeKey(cfg, id) => NewKeyForOutcome(id, cfg)
    case ConfigKey(name, version) => NewKeyForConfig(name + ":" + version)
    case VersionsKey(name) => NewKeyForConfig(name)
    case NamesKey => CONFIGS_PREFIX
  }

  /** The formats, on an example of each. */
  lemma KeysAreFormatted()
    ensures NewKeyForConfig("orders:v1") == "configs#orders:v1"
    ensures NewKeyForMachine("42", "orders") == "fsm:orders#42"
    ensures NewKeyForMachinesByState("orders", "open") == "fsm:orders:state#open"
    ensures NewKeyForEvent("e1", "orders") == "events:orders#e1"
    ensures NewKeyForOutcome("e1", "orders") == "events:orders:outcome#e1"
    ensures Encode(NamesKey) == "configs" && Encode(VersionsKey("orders")) == "configs#orders"
    ensures Encode(ConfigKey("orders", "v1")) == "configs#orders:v1"
  {
  }

  predicate SeparatorFree(name: string) {
    ':' !in name && '#' !in name
  }

  predicate Safe(k: Key) {
    match k
    case MachineKey(cfg, _) => SeparatorFree(cfg)
    case StateKey(cfg, _) => SeparatorFree(cfg)
    case EventKey(cfg, _) => SeparatorFree(cfg)
    case OutcomeKey(cfg, _) => SeparatorFree(cfg)
    case ConfigKey(name, _) => ':' !in name
    case VersionsKey(name) => ':' !in name
    case NamesKey => true
  }

  /** The key that `GetConfig(id)` and `PutConfig` reach for an arbitrary configuration id. */
  function KeyForConfigId(id: string): Key {
    if ':' in id then ConfigKey(NameOf(id), After(id, ':')) else VersionsKey(id)
  }

  lemma ConfigIdKey(id: string)
    ensures Encode(KeyForConfigId(id)) == NewKeyForConfig(id)
    ensures Safe(KeyForConfigId(id))
    ensures KeyForConfigId(id).ConfigKey? <==> ':' in id
  {
    if ':' in id {
      JoinSplit(id, ':');
    }
  }

  lemma VersionIdKey(c: Configuration)
    requires ':' !in c.name
    ensures KeyForConfigId(VersionId(c)) == ConfigKey(c.name, c.version)
  {
    SplitJoin(c.name, ':', c.version);
    assert VersionId(c)[|c.name|] == ':';
  }

  // ---------------------------------------------------------------- separation

  /** What stands before the first `#` of a safe key, and what stands after it. */
  function Prefix(k: Key): string {
    match k
    case MachineKey(cfg, _) => FSM_PREFIX + ":" + cfg
    case StateKey(cfg, _) => FSM_PREFIX + ":" + cfg + ":" + "state"
    case EventKey(cfg, _) => EVENTS_PREFIX + ":" + cfg
    case OutcomeKey(cfg, _) => EVENTS_PREFIX + ":" + cfg + ":" + "outcome"
    case ConfigKey(_, _) => CONFIGS_PREFIX
    case VersionsKey(_) => CONFIGS_PREFIX
    case NamesKey => CONFIGS_PREFIX
  }

  function Rest(k: Key): string {
    match k
    case MachineKey(_, id) => id
    case StateKey(_, state) => state
    case EventKey(_, id) => id
    case OutcomeKey(_, id) => id
    case ConfigKey(name, version) => name + ":" + version
    case VersionsKey(name) => name
    case NamesKey => ""
  }

  lemma PrefixRest(k: Key)
    requires Safe(k)
    ensures '#' !in Prefix(k)
    ensures !k.NamesKey? ==> Encode(k) == Prefix(k) + ['#'] + Rest(k)
  {
  }

  predicate IsConfigFamily(k: Key) {
    k.ConfigKey? || k.VersionsKey? || k.NamesKey?
  }

  function Family(k: Key): string
    requires !IsConfigFamily(k)
  {
    if k.MachineKey? || k.StateKey? then FSM_PREFIX else EVENTS_PREFIX
  }

  /** What follows the first `:` of a prefix: the name, and a third component in two of the families. */
  function Tail(k: Key): string
    requires !IsConfigFamily(k)
  {
    if k.StateKey? then k.cfg + ":" + "state" else if k.OutcomeKey? then k.cfg + ":" + "outcome" else k.cfg
  }

  lemma TailParts(k: Key)
    requires Safe(k) && !IsConfigFamily(k)
    ensures Prefix(k) == Family(k) + [':'] + Tail(k) && ':' !in Family(k)
    ensures Before(Tail(k), ':') == k.cfg
    ensures ':' in Tail(k) <==> k.StateKey? || k.OutcomeKey?
  {
    if k.StateKey? {
      SplitJoin(k.cfg, ':', "state");
      assert Tail(k)[|k.cfg|] == ':';
    } else if k.OutcomeKey? {
      SplitJoin(k.cfg, ':', "outcome");
      assert Tail(k)[|k.cfg|] == ':';
    }
  }

  lemma PrefixFamily(k: Key, l: Key)
    requires Safe(k) && Safe(l) && Prefix(k) == Prefix(l)
    requires !IsConfigFamily(k) && !IsConfigFamily(l)
    ensures Rest(k) == Rest(l) ==> k == l
  {
    TailParts(k);
    TailParts(l);
    JoinInjective(Family(k), Tail(k), Family(l), Tail(l), ':');
  }

  lemma ColonMarksFamily(k: Key)
    requires Safe(k)
    ensures ':' in Prefix(k) <==> !IsConfigFamily(k)
  {
    if !IsConfigFamily(k) {
      TailParts(k);
      assert Prefix(k)[|Family(k)|] == ':';
    }
  }

  lemma ColonMarksVersion(k: Key)
    requires Safe(k) && (k.ConfigKey? || k.VersionsKey?)
    ensures ':' in Rest(k) <==> k.ConfigKey?
  {
    if k.ConfigKey? {
      assert Rest(k)[|k.name|] == ':';
    }
  }

  lemma HashMarksNames(k: Key)
    requires Safe(k)
    ensures '#' in Encode(k) <==> !k.NamesKey?
  {
    PrefixRest(k);
    if !k.NamesKey? {
      assert Encode(k)[|Prefix(k)|] == '#';
    }
  }

  /** Every key family is injective and no two families meet. */
  lemma EncodeInjective(k: Key, l: Key)
    requires Safe(k) && Safe(l)
    ensures Encode(k) == Encode(l) ==> k == l
  {
    HashMarksNames(k);
    HashMarksNames(l);
    PrefixRest(k);
    PrefixRest(l);
    if Encode(k) == Encode(l) && !k.NamesKey? {
      JoinInjective(Prefix(k), Rest(k), Prefix(l), Rest(l), '#');
      ColonMarksFamily(k);
      ColonMarksFamily(l);
      if IsConfigFamily(k) {
        ColonMarksVersion(k);
        ColonMarksVersion(l);
        if k.ConfigKey? {
          JoinInjective(k.name, k.version, l.name, l.version, ':');
        }
      } else {
        PrefixFamily(k, l);
      }
    }
  }
}
