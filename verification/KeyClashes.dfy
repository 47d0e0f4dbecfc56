/**
 Nothing keeps separators out of names. Which names let two different things share one Redis key, for every pair of
 kinds of things: machines, state sets, events, outcomes, configuration records, version sets and the set of names.
 */
module KeyClashes {
  import opened Keys

  /** All keys of one kind under one name. */
  datatype Place =
    | Machines(name: string)
    | States(name: string)
    | Events(name: string)
    | Outcomes(name: string)
    | Records(name: string)
    | Versions(name: string)
    | Names

  function PlaceOf(k: Key): Place {
    match k
    case MachineKey(cfg, _) => Machines(cfg)
    case StateKey(cfg, _) => States(cfg)
    case EventKey(cfg, _) => Events(cfg)
    case OutcomeKey(cfg, _) => Outcomes(cfg)
    case ConfigKey(name, _) => Records(name)
    case VersionsKey(name) => Versions(name)
    case NamesKey => Names
  }

  /** The key in a place with this identifier, state or version. */
  function KeyIn(a: Place, x: string): (k: Key)
    ensures PlaceOf(k) == a
  {
    match a
    case Machines(n) => MachineKey(n, x)
    case States(n) => StateKey(n, x)
    case Events(n) => EventKey(n, x)
    case Outcomes(n) => OutcomeKey(n, x)
    case Records(n) => ConfigKey(n, x)
    case Versions(n) => VersionsKey(n)
    case Names => NamesKey
  }

  predicate InConfigs(a: Place) {
    a.Records? || a.Versions? || a.Names?
  }

  predicate InFsm(a: Place) {
    a.Machines? || a.States?
  }

  /** What a key has between its family's `:` and the `#` before its identifier. */
  function Path(a: Place): string
    requires !InConfigs(a)
  {
    match a
    case Machines(n) => n
    case States(n) => n + ":" + "state"
    case Events(n) => n
    case Outcomes(n) => n + ":" + "outcome"
  }

  /** One of the two goes on after the other and the separator. */
  predicate Continues(x: string, y: string, separator: string) {
    x + separator <= y || y + separator <= x
  }

  /**
   The names that clash. Machines and state sets, or events and outcomes: one path is the other or continues it after
   a `#`. Configuration records: one name continues the other after a `:`. A record and a version set: the set's name
   continues the record's after a `:`.
   */
  predicate Clash(a: Place, b: Place) {
    if InConfigs(a) || InConfigs(b) then
      match (a, b)
      case (Records(n), Records(m)) => Continues(n, m, ":")
      case (Records(n), Versions(m)) => n + ":" <= m
      case (Versions(m), Records(n)) => n + ":" <= m
      case _ => false
    else
      InFsm(a) == InFsm(b) && a != b && (Path(a) == Path(b) || Continues(Path(a), Path(b), "#"))
  }

  // ---------------------------------------------------------------- keys that meet

  function Stem(a: Place): string
    requires !InConfigs(a)
  {
    if InFsm(a) then FSM_PREFIX + ":" else EVENTS_PREFIX + ":"
  }

  lemma EncodeParts(k: Key)
    ensures !InConfigs(PlaceOf(k)) ==> Encode(k) == Stem(PlaceOf(k)) + (Path(PlaceOf(k)) + "#" + Rest(k))
    ensures k.ConfigKey? || k.VersionsKey? ==> Encode(k) == (CONFIGS_PREFIX + "#") + Rest(k)
  {
    match k
    case MachineKey(cfg, id) => TwoParts(FSM_PREFIX, cfg, id);
    case StateKey(cfg, state) => ThreeParts(FSM_PREFIX, cfg, "state", state);
    case EventKey(cfg, id) => TwoParts(EVENTS_PREFIX, cfg, id);
    case OutcomeKey(cfg, id) => ThreeParts(EVENTS_PREFIX, cfg, "outcome", id);
    case _ =>
  }

  lemma TwoParts(family: string, name: string, x: string)
    ensures family + ":" + name + "#" + x == (family + ":") + (name + "#" + x)
  {
  }

  lemma ThreeParts(family: string, name: string, kind: string, x: string)
    ensures family + ":" + name + ":" + kind + "#" + x == (family + ":") + (name + ":" + kind + "#" + x)
  {
  }

  lemma FirstLetter(k: Key)
    ensures Encode(k)[0] == if InConfigs(PlaceOf(k)) then 'c' else if InFsm(PlaceOf(k)) then 'f' else 'e'
  {
  }

  /** A record's key is a version set's key exactly when the set's name is the record's version id. */
  lemma RecordMeetsVersionSetIff(n: string, v: string, m: string)
    ensures Encode(ConfigKey(n, v)) == Encode(VersionsKey(m)) <==> m == n + ":" + v
  {
    EncodeParts(ConfigKey(n, v));
    EncodeParts(VersionsKey(m));
    SameRest(CONFIGS_PREFIX + "#", n + ":" + v, m);
  }

  lemma SameRest(a: string, x: string, y: string)
    ensures a + x == a + y <==> x == y
  {
    assert (a + x)[|a|..] == x && (a + y)[|a|..] == y;
  }

  /** Joined strings that agree: one left part is the other or continues it. */
  lemma JoinsMeet(a: string, x: string, b: string, y: string, separator: char)
    requires a + [separator] + x == b + [separator] + y
    ensures a == b || Continues(a, b, [separator])
    ensures a == b ==> x == y
  {
    var s := a + [separator] + x;
    assert s[..|a|] == a && s[..|b|] == b && s[|a| + 1..] == x && s[|b| + 1..] == y;
    assert s[..|a| + 1] == a + [separator] && s[..|b| + 1] == b + [separator];
    if |a| < |b| {
      assert b[..|a| + 1] == s[..|a| + 1];
    } else if |b| < |a| {
      assert a[..|b| + 1] == s[..|b| + 1];
    }
  }

  lemma PathsMeet(k: Key, l: Key)
    requires k != l && Encode(k) == Encode(l) && !InConfigs(PlaceOf(k)) && !InConfigs(PlaceOf(l))
    ensures Clash(PlaceOf(k), PlaceOf(l))
  {
    var a, b := PlaceOf(k), PlaceOf(l);
    FirstLetter(k);
    FirstLetter(l);
    EncodeParts(k);
    EncodeParts(l);
    SameRest(Stem(a), Path(a) + "#" + Rest(k), Path(b) + "#" + Rest(l));
    JoinsMeet(Path(a), Rest(k), Path(b), Rest(l), '#');
  }

  lemma ConfigKeysMeet(k: Key, l: Key)
    requires k != l && Encode(k) == Encode(l) && InConfigs(PlaceOf(k)) && InConfigs(PlaceOf(l))
    ensures Clash(PlaceOf(k), PlaceOf(l))
  {
    EncodeParts(k);
    EncodeParts(l);
    if !k.NamesKey? && !l.NamesKey? {
      SameRest(CONFIGS_PREFIX + "#", Rest(k), Rest(l));
      if k.ConfigKey? && l.ConfigKey? {
        JoinsMeet(k.name, k.version, l.name, l.version, ':');
      } else if k.ConfigKey? {
        RecordMeetsVersionSetIff(k.name, k.version, l.name);
      } else if l.ConfigKey? {
        RecordMeetsVersionSetIff(l.name, l.version, k.name);
      }
    }
  }

  lemma MeetingKeysClash(k: Key, l: Key)
    requires k != l && Encode(k) == Encode(l)
    ensures Clash(PlaceOf(k), PlaceOf(l))
  {
    FirstLetter(k);
    FirstLetter(l);
    if InConfigs(PlaceOf(k)) {
      ConfigKeysMeet(k, l);
    } else {
      PathsMeet(k, l);
    }
  }

  // ---------------------------------------------------------------- clashes that happen

  ghost predicate Meet(a: Place, b: Place) {
    exists k, l :: PlaceOf(k) == a && PlaceOf(l) == b && k != l && Encode(k) == Encode(l)
  }

  lemma MeetIsSymmetric(a: Place, b: Place)
    ensures Meet(a, b) ==> Meet(b, a)
  {
    if Meet(a, b) {
      var k, l :| PlaceOf(k) == a && PlaceOf(l) == b && k != l && Encode(k) == Encode(l);
      assert PlaceOf(l) == b && PlaceOf(k) == a && l != k && Encode(l) == Encode(k);
    }
  }

  lemma Split(x: string, separator: char, y: string) returns (w: string)
    requires x + [separator] <= y
    ensures y == x + [separator] + w
  {
    w := y[|x| + 1..];
  }

  lemma EmbeddedPathsMeet(a: Place, b: Place)
    requires !InConfigs(a) && !InConfigs(b) && InFsm(a) == InFsm(b) && Path(a) + "#" <= Path(b)
    ensures Meet(a, b)
  {
    var w := Split(Path(a), '#', Path(b));
    var k, l := KeyIn(a, w + "#"), KeyIn(b, "");
    EncodeParts(k);
    EncodeParts(l);
    assert Path(a) + "#" + (w + "#") == Path(b) + "#" + "";
    assert PlaceOf(k) == a && PlaceOf(l) == b && k != l && Encode(k) == Encode(l);
  }

  lemma EmbeddedNamesMeet(n: string, m: string)
    requires n + ":" <= m
    ensures Meet(Records(n), Records(m)) && Meet(Records(n), Versions(m))
  {
    var w := Split(n, ':', m);
    assert n + ":" + (w + ":") == m + ":" + "";
    assert Encode(ConfigKey(n, w + ":")) == Encode(ConfigKey(m, ""));
    assert PlaceOf(ConfigKey(n, w + ":")) == Records(n) && PlaceOf(ConfigKey(m, "")) == Records(m);
    RecordMeetsVersionSetIff(n, w, m);
    assert PlaceOf(ConfigKey(n, w)) == Records(n) && PlaceOf(VersionsKey(m)) == Versions(m);
  }

  lemma ClashingPlacesMeet(a: Place, b: Place)
    requires Clash(a, b)
    ensures Meet(a, b)
  {
    MeetIsSymmetric(b, a);
    if InConfigs(a) {
      var n, m := a.name, b.name;
      if n + ":" <= m && a.Records? {
        EmbeddedNamesMeet(n, m);
      } else {
        EmbeddedNamesMeet(m, n);
      }
    } else if Path(a) == Path(b) {
      var k, l := KeyIn(a, ""), KeyIn(b, "");
      EncodeParts(k);
      EncodeParts(l);
      assert PlaceOf(k) == a && PlaceOf(l) == b && k != l && Encode(k) == Encode(l);
    } else if Path(a) + "#" <= Path(b) {
      EmbeddedPathsMeet(a, b);
    } else {
      EmbeddedPathsMeet(b, a);
    }
  }

  /**
   For every pair of kinds and any names: two different keys can be the same string if and only if the names clash.
   */
  lemma KeysMeetIff(a: Place, b: Place)
    ensures Meet(a, b) <==> Clash(a, b)
  {
    if Meet(a, b) {
      var k, l :| PlaceOf(k) == a && PlaceOf(l) == b && k != l && Encode(k) == Encode(l);
      MeetingKeysClash(k, l);
    }
    if Clash(a, b) {
      ClashingPlacesMeet(a, b);
    }
  }
}
