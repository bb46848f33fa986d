/** The configuration store: six published fields, each loaded from the user
    defaults (a string-keyed map of tagged values) or a fixed default, and each
    written back under its own key whenever it is assigned. */
module Settings {

  /** A value as the user defaults hold it. The loader's `as? TimeInterval`
      succeeds only on `Seconds`, its `as? Bool` only on `Flag`. */
  datatype StoredValue = Seconds(seconds: int) | Flag(flag: bool) | Other(text: string)

  type Store = map<string, StoredValue>

  // The key table.
  const BreakIntervalKey := "breakInterval"
  const BreakDurationKey := "breakDuration"
  const IsEnabledKey := "isEnabled"
  const PostureReminderEnabledKey := "postureReminderEnabled"
  const PostureReminderIntervalKey := "postureReminderInterval"
  const PostureReminderDurationKey := "postureReminderDuration"

  const Keys: seq<string> := [BreakIntervalKey, BreakDurationKey, IsEnabledKey,
                              PostureReminderEnabledKey, PostureReminderIntervalKey,
                              PostureReminderDurationKey]

  // The defaults, in seconds.
  const DefaultBreakInterval: int := 20 * 60
  const DefaultBreakDuration: int := 20
  const DefaultIsEnabled: bool := true
  const DefaultPostureReminderEnabled: bool := false
  const DefaultPostureReminderInterval: int := 60
  const DefaultPostureReminderDuration: int := 1

  /** A snapshot of the six fields, as the managers read them. */
  datatype Config = Config(breakInterval: int, breakDuration: int, isEnabled: bool,
                           postureReminderEnabled: bool, postureReminderInterval: int,
                           postureReminderDuration: int)

  /** `object(forKey: key) as? TimeInterval ?? fallback` */
  function SecondsOr(store: Store, key: string, fallback: int): int
  {
    if key in store && store[key].Seconds? then store[key].seconds else fallback
  }

  /** `object(forKey: key) as? Bool ?? fallback` */
  function FlagOr(store: Store, key: string, fallback: bool): bool
  {
    if key in store && store[key].Flag? then store[key].flag else fallback
  }

  /** What `init` reads from a store. */
  function Load(store: Store): Config
  {
    Config(SecondsOr(store, BreakIntervalKey, DefaultBreakInterval),
           SecondsOr(store, BreakDurationKey, DefaultBreakDuration),
           FlagOr(store, IsEnabledKey, DefaultIsEnabled),
           FlagOr(store, PostureReminderEnabledKey, DefaultPostureReminderEnabled),
           SecondsOr(store, PostureReminderIntervalKey, DefaultPostureReminderInterval),
           SecondsOr(store, PostureReminderDurationKey, DefaultPostureReminderDuration))
  }

  /** One assignment to one of the six published fields; also the change event
      that the field's subscribers receive. */
  datatype Setting =
    | BreakInterval(seconds: int)
    | BreakDuration(seconds: int)
    | IsEnabled(on: bool)
    | PostureReminderEnabled(on: bool)
    | PostureReminderInterval(seconds: int)
    | PostureReminderDuration(seconds: int)

  /** The key the field's `didSet` writes to. */
  function KeyOf(s: Setting): string
  {
    match s
    case BreakInterval(_) => BreakIntervalKey
    case BreakDuration(_) => BreakDurationKey
    case IsEnabled(_) => IsEnabledKey
    case PostureReminderEnabled(_) => PostureReminderEnabledKey
    case PostureReminderInterval(_) => PostureReminderIntervalKey
    case PostureReminderDuration(_) => PostureReminderDurationKey
  }

  /** The value the field's `didSet` writes. */
  function Encoded(s: Setting): StoredValue
  {
    match s
    case BreakInterval(v) => Seconds(v)
    case BreakDuration(v) => Seconds(v)
    case IsEnabled(b) => Flag(b)
    case PostureReminderEnabled(b) => Flag(b)
    case PostureReminderInterval(v) => Seconds(v)
    case PostureReminderDuration(v) => Seconds(v)
  }

  /** Whether the loader's cast for the field of `s` accepts `v`. */
  predicate Accepts(s: Setting, v: StoredValue)
  {
    if s.IsEnabled? || s.PostureReminderEnabled? then v.Flag? else v.Seconds?
  }

  /** The same field set to its default. */
  function DefaultOf(s: Setting): Setting
  {
    match s
    case BreakInterval(_) => BreakInterval(DefaultBreakInterval)
    case BreakDuration(_) => BreakDuration(DefaultBreakDuration)
    case IsEnabled(_) => IsEnabled(DefaultIsEnabled)
    case PostureReminderEnabled(_) => PostureReminderEnabled(DefaultPostureReminderEnabled)
    case PostureReminderInterval(_) => PostureReminderInterval(DefaultPostureReminderInterval)
    case PostureReminderDuration(_) => PostureReminderDuration(DefaultPostureReminderDuration)
  }

  /** `s` and `t` assign the same field of the settings, whatever values they
      assign. */
  predicate SameField(s: Setting, t: Setting)
  {
    DefaultOf(s) == DefaultOf(t)
  }

  /** The snapshot with the field of `s` assigned and the other five kept. */
  function Assigned(c: Config, s: Setting): Config
  {
    match s
    case BreakInterval(v) => c.(breakInterval := v)
    case BreakDuration(v) => c.(breakDuration := v)
    case IsEnabled(b) => c.(isEnabled := b)
    case PostureReminderEnabled(b) => c.(postureReminderEnabled := b)
    case PostureReminderInterval(v) => c.(postureReminderInterval := v)
    case PostureReminderDuration(v) => c.(postureReminderDuration := v)
  }

  /** The six keys are pairwise distinct, and each field writes one of them. */
  lemma KeysDistinct()
    ensures |Keys| == 6
    ensures forall i, j :: 0 <= i < j < |Keys| ==> Keys[i] != Keys[j]
    ensures forall s: Setting :: KeyOf(s) in Keys
  {
    // Each pair differs in its length or at one of these positions.
    assert BreakIntervalKey[5] == 'I' && BreakDurationKey[5] == 'D';
    assert PostureReminderEnabledKey[15] == 'E' && PostureReminderIntervalKey[15] == 'I';
    assert PostureReminderEnabledKey[15] == 'E' && PostureReminderDurationKey[15] == 'D';
    assert PostureReminderIntervalKey[15] == 'I' && PostureReminderDurationKey[15] == 'D';
    assert |BreakIntervalKey| == 13 && |IsEnabledKey| == 9 && |PostureReminderEnabledKey| == 22;
    assert |PostureReminderIntervalKey| == 23 && |PostureReminderDurationKey| == 23;
  }

  /** Two settings write the same key exactly when they assign the same field. */
  lemma KeyOfSameField(s: Setting, t: Setting)
    ensures KeyOf(s) == KeyOf(t) <==> SameField(s, t)
  {
    KeysDistinct();
    assert Keys[0] == BreakIntervalKey && Keys[1] == BreakDurationKey && Keys[2] == IsEnabledKey;
    assert Keys[3] == PostureReminderEnabledKey && Keys[4] == PostureReminderIntervalKey;
    assert Keys[5] == PostureReminderDurationKey;
  }

  /** With an empty store every field takes its default: 1200 s between breaks,
      20 s breaks, enabled, posture reminder off, every 60 s for 1 s. */
  lemma LoadEmpty()
    ensures Load(map[]) == Config(1200, 20, true, false, 60, 1)
  {
  }

  /** A stored value of the right type overrides the default of its own field
      and of no other: loading after the write is the old load with that one
      field assigned. This is also the round trip of every assignment. */
  lemma LoadRoundTrip(store: Store, s: Setting)
    ensures Load(store[KeyOf(s) := Encoded(s)]) == Assigned(Load(store), s)
  {
    KeyDistinctFromOthers(s);
  }

  /** A field whose key is absent loads as its default; the others are kept. */
  lemma LoadAbsent(store: Store, s: Setting)
    ensures Load(store - {KeyOf(s)}) == Assigned(Load(store), DefaultOf(s))
  {
    KeyDistinctFromOthers(s);
  }

  /** A stored value of the wrong type (a failed `as?`) counts as absent. */
  lemma LoadWrongType(store: Store, s: Setting, v: StoredValue)
    requires !Accepts(s, v)
    ensures Load(store[KeyOf(s) := v]) == Assigned(Load(store), DefaultOf(s))
  {
    KeyDistinctFromOthers(s);
  }

  lemma KeyDistinctFromOthers(s: Setting)
    ensures s.BreakInterval? <==> KeyOf(s) == BreakIntervalKey
    ensures s.BreakDuration? <==> KeyOf(s) == BreakDurationKey
    ensures s.IsEnabled? <==> KeyOf(s) == IsEnabledKey
    ensures s.PostureReminderEnabled? <==> KeyOf(s) == PostureReminderEnabledKey
    ensures s.PostureReminderInterval? <==> KeyOf(s) == PostureReminderIntervalKey
    ensures s.PostureReminderDuration? <==> KeyOf(s) == PostureReminderDurationKey
  {
    KeysDistinct();
    assert Keys[0] == BreakIntervalKey && Keys[1] == BreakDurationKey && Keys[2] == IsEnabledKey;
    assert Keys[3] == PostureReminderEnabledKey && Keys[4] == PostureReminderIntervalKey;
    assert Keys[5] == PostureReminderDurationKey;
  }

  /** `SettingsManager`: the six fields and the user defaults they write through to. */
  class SettingsManager {
    var store: Store
    var breakInterval: int
    var breakDuration: int
    var isEnabled: bool
    var postureReminderEnabled: bool
    var postureReminderInterval: int
    var postureReminderDuration: int

    /** The current values of the six fields. */
    function Snapshot(): Config
      reads this
    {
      Config(breakInterval, breakDuration, isEnabled, postureReminderEnabled,
             postureReminderInterval, postureReminderDuration)
    }

    /** A fresh load from the store would give the fields' current values. */
    ghost predicate Persisted()
      reads this
    {
      Load(store) == Snapshot()
    }

    /** `init`: each field is the stored value of its key if it has the right
        type, its default otherwise. */
    constructor (defaults: Store)
      ensures store == defaults && Snapshot() == Load(defaults)
      ensures Persisted()
    {
      store := defaults;
      breakInterval := SecondsOr(defaults, BreakIntervalKey, DefaultBreakInterval);
      breakDuration := SecondsOr(defaults, BreakDurationKey, DefaultBreakDuration);
      isEnabled := FlagOr(defaults, IsEnabledKey, DefaultIsEnabled);
      postureReminderEnabled := FlagOr(defaults, PostureReminderEnabledKey, DefaultPostureReminderEnabled);
      postureReminderInterval := SecondsOr(defaults, PostureReminderIntervalKey, DefaultPostureReminderInterval);
      postureReminderDuration := SecondsOr(defaults, PostureReminderDurationKey, DefaultPostureReminderDuration);
    }

    method SetBreakInterval(v: int)
      modifies this
      ensures store == old(store)[BreakIntervalKey := Seconds(v)]
      ensures Snapshot() == old(Snapshot()).(breakInterval := v)
      ensures old(Persisted()) ==> Persisted()
    {
      breakInterval := v;
      store := store[BreakIntervalKey := Seconds(v)];
      LoadRoundTrip(old(store), BreakInterval(v));
    }

    method SetBreakDuration(v: int)
      modifies this
      ensures store == old(store)[BreakDurationKey := Seconds(v)]
      ensures Snapshot() == old(Snapshot()).(breakDuration := v)
      ensures old(Persisted()) ==> Persisted()
    {
      breakDuration := v;
      store := store[BreakDurationKey := Seconds(v)];
      LoadRoundTrip(old(store), BreakDuration(v));
    }

    method SetIsEnabled(b: bool)
      modifies this
      ensures store == old(store)[IsEnabledKey := Flag(b)]
      ensures Snapshot() == old(Snapshot()).(isEnabled := b)
      ensures old(Persisted()) ==> Persisted()
    {
      isEnabled := b;
      store := store[IsEnabledKey := Flag(b)];
      LoadRoundTrip(old(store), IsEnabled(b));
    }

    method SetPostureReminderEnabled(b: bool)
      modifies this
      ensures store == old(store)[PostureReminderEnabledKey := Flag(b)]
      ensures Snapshot() == old(Snapshot()).(postureReminderEnabled := b)
      ensures old(Persisted()) ==> Persisted()
    {
      postureReminderEnabled := b;
      store := store[PostureReminderEnabledKey := Flag(b)];
      LoadRoundTrip(old(store), PostureReminderEnabled(b));
    }

    method SetPostureReminderInterval(v: int)
      modifies this
      ensures store == old(store)[PostureReminderIntervalKey := Seconds(v)]
      ensures Snapshot() == old(Snapshot()).(postureReminderInterval := v)
      ensures old(Persisted()) ==> Persisted()
    {
      postureReminderInterval := v;
      store := store[PostureReminderIntervalKey := Seconds(v)];
      LoadRoundTrip(old(store), PostureReminderInterval(v));
    }

    method SetPostureReminderDuration(v: int)
      modifies this
      ensures store == old(store)[PostureReminderDurationKey := Seconds(v)]
      ensures Snapshot() == old(Snapshot()).(postureReminderDuration := v)
      ensures old(Persisted()) ==> Persisted()
    {
      postureReminderDuration := v;
      store := store[PostureReminderDurationKey := Seconds(v)];
      LoadRoundTrip(old(store), PostureReminderDuration(v));
    }
  }
}
