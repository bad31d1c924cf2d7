/** A read cache bounded in bytes and entries, with one loader per key and clearing by generation. */
module BoundedReadCache {
  import opened Wrappers

  type Value = string

  /** `generation` is the one its loader started in. */
  datatype Entry = Entry(key: string, value: Value, bytes: nat, touchedAt: int, generation: nat)

  /** A load that has been started; `done` once its value or error is known, until its last callback runs. */
  datatype Loader = Loader(key: string, generation: nat, done: bool)

  /** `measure` gives no size when the measured number is not a valid one. */
  datatype Limits = Limits(maxBytes: nat, maxEntries: nat, maxAgeMs: int, measure: Value -> Option<nat>)

  /** Entries in insertion order; `loaders` are all loads whose last callback has not run. */
  datatype State = State(
    entries: seq<Entry>, pending: map<string, nat>, bytes: int, generation: nat, loaders: map<nat, Loader>, nextLoader: nat)

  /** The clock is read once to test the age, and again when an entry is touched. */
  datatype Event =
    | Load(key: string, refresh: bool, now: int, later: int)
    | Get(key: string, now: int, later: int)
    | Loaded(loader: nat, value: Value, now: int)
    | LoadFailed(loader: nat)
    | Finally(loader: nat)
    | Clear

  const EMPTY := State([], map[], 0, 0, map[], 0)

  // ---- Entries ----------------------------------------------------------------------------------

  function Position(entries: seq<Entry>, key: string): (r: nat)
    ensures r <= |entries|
    ensures r < |entries| ==> entries[r].key == key
    ensures r == |entries| ==> forall k :: 0 <= k < |entries| ==> entries[k].key != key
  {
    if entries == [] || entries[0].key == key then 0 else 1 + Position(entries[1..], key)
  }

  function Sum(entries: seq<Entry>): nat {
    if entries == [] then 0 else entries[0].bytes + Sum(entries[1..])
  }

  function Without(entries: seq<Entry>, i: nat): (r: seq<Entry>)
    requires i < |entries|
    ensures |r| == |entries| - 1
  {
    entries[..i] + entries[i + 1..]
  }

  function Removed(s: State, key: string): State {
    var i := Position(s.entries, key);
    if i == |s.entries| then s
    else s.(entries := Without(s.entries, i), bytes := s.bytes - s.entries[i].bytes)
  }

  /** A hit moves the entry to the end. */
  function Touched(s: State, i: nat, now: int): State
    requires i < |s.entries|
  {
    s.(entries := Without(s.entries, i) + [s.entries[i].(touchedAt := now)])
  }

  predicate Fresh(limits: Limits, entry: Entry, now: int) {
    now - entry.touchedAt < limits.maxAgeMs
  }

  predicate Over(limits: Limits, bytes: int, count: nat) {
    bytes > limits.maxBytes || count > limits.maxEntries
  }

  /** Drop the oldest entries until both limits hold. */
  function Evicted(limits: Limits, s: State): (r: State)
    ensures r == s.(entries := r.entries, bytes := r.bytes)
    decreases |s.entries|
  {
    if Over(limits, s.bytes, |s.entries|) && s.entries != []
    then Evicted(limits, s.(entries := s.entries[1..], bytes := s.bytes - s.entries[0].bytes))
    else s
  }

  /** Setting a key that is present keeps its place in the map. */
  function Stored(s: State, entry: Entry): (r: State)
    ensures r == s.(entries := r.entries, bytes := r.bytes)
  {
    var i := Position(s.entries, entry.key);
    s.(entries := if i < |s.entries| then s.entries[i := entry] else s.entries + [entry], bytes := s.bytes + entry.bytes)
  }

  // ---- Steps ------------------------------------------------------------------------------------

  function Started(s: State, key: string): State {
    s.(pending := s.pending[key := s.nextLoader],
       loaders := s.loaders[s.nextLoader := Loader(key, s.generation, false)], nextLoader := s.nextLoader + 1)
  }

  function StartUnlessPending(s: State, key: string): State {
    if key in s.pending then s else Started(s, key)
  }

  function Finished(s: State, loader: nat): State
    requires loader in s.loaders
  {
    s.(loaders := s.loaders[loader := s.loaders[loader].(done := true)])
  }

  function Inserted(limits: Limits, s: State, loader: nat, value: Value, now: int): (r: State)
    requires loader in s.loaders
    ensures r == s.(entries := r.entries, bytes := r.bytes)
  {
    hide Sound, Evicted, Stored, InTouchOrder, Finished;
    var started := s.loaders[loader];
    var size := limits.measure(value);
    if size.Some? && started.generation == s.generation && size.value <= limits.maxBytes
    then Evicted(limits, Stored(s, Entry(started.key, value, size.value, now, started.generation)))
    else s
  }

  function Step(limits: Limits, s: State, event: Event): State {
    match event
    case Load(key, refresh, now, later) =>
      var i := Position(s.entries, key);
      if i < |s.entries| && !refresh && Fresh(limits, s.entries[i], now) then Touched(s, i, later)
      else StartUnlessPending(Removed(s, key), key)
    case Get(key, now, later) =>
      var i := Position(s.entries, key);
      if i < |s.entries| && Fresh(limits, s.entries[i], now) then Touched(s, i, later) else Removed(s, key)
    case Loaded(loader, value, now) =>
      if loader !in s.loaders || s.loaders[loader].done then s
      else Finished(Inserted(limits, s, loader, value, now), loader)
    case LoadFailed(loader) =>
      if loader !in s.loaders || s.loaders[loader].done then s else Finished(s, loader)
    case Finally(loader) =>
      if loader !in s.loaders || !s.loaders[loader].done then s else
      var key := s.loaders[loader].key;
      s.(loaders := s.loaders - {loader},
         pending := if key in s.pending && s.pending[key] == loader then s.pending - {key} else s.pending)
    case Clear => s.(generation := s.generation + 1, entries := [], pending := map[], bytes := 0)
  }

  // ---- Invariant --------------------------------------------------------------------------------

  predicate DistinctKeys(entries: seq<Entry>) {
    forall i, j :: 0 <= i < j < |entries| ==> entries[i].key != entries[j].key
  }

  predicate Holds(entries: seq<Entry>, key: string) {
    exists k :: 0 <= k < |entries| && entries[k].key == key
  }

  predicate WithinLimits(limits: Limits, entries: seq<Entry>, bytes: int) {
    bytes == Sum(entries) && bytes <= limits.maxBytes && |entries| <= limits.maxEntries
  }

  /** One loader per key and generation; those of this generation are the pending ones. */
  predicate SingleFlight(pending: map<string, nat>, loaders: map<nat, Loader>, generation: nat, nextLoader: nat) {
    && (forall id :: id in loaders ==> id < nextLoader && loaders[id].generation <= generation)
    && (forall a, b :: a in loaders && b in loaders && a != b ==>
          loaders[a].key != loaders[b].key || loaders[a].generation != loaders[b].generation)
    && (forall id :: id in loaders && loaders[id].generation == generation ==>
          loaders[id].key in pending && pending[loaders[id].key] == id)
    && (forall key :: key in pending ==> PendingLoad(pending, loaders, generation, key))
  }

  predicate PendingLoad(pending: map<string, nat>, loaders: map<nat, Loader>, generation: nat, key: string)
    requires key in pending
  {
    pending[key] in loaders && loaders[pending[key]].key == key && loaders[pending[key]].generation == generation
  }

  /** While a current load runs, its key has no entry. */
  predicate NotYetStored(entries: seq<Entry>, loaders: map<nat, Loader>, generation: nat) {
    forall id :: id in loaders && loaders[id].generation == generation && !loaders[id].done ==> !Holds(entries, loaders[id].key)
  }

  /** Every entry was loaded after the last clear. */
  predicate LoadedSinceClear(entries: seq<Entry>, generation: nat) {
    forall k :: 0 <= k < |entries| ==> entries[k].generation == generation
  }

  ghost predicate Sound(limits: Limits, s: State) {
    && WithinLimits(limits, s.entries, s.bytes) && DistinctKeys(s.entries)
    && SingleFlight(s.pending, s.loaders, s.generation, s.nextLoader)
    && NotYetStored(s.entries, s.loaders, s.generation) && LoadedSinceClear(s.entries, s.generation)
  }

  /** The map lists its entries from the least to the most recently touched. */
  predicate InTouchOrder(entries: seq<Entry>, clock: int) {
    && (forall i, j :: 0 <= i < j < |entries| ==> entries[i].touchedAt <= entries[j].touchedAt)
    && (forall i :: 0 <= i < |entries| ==> entries[i].touchedAt <= clock)
  }

  // ---- Sums and removal -------------------------------------------------------------------------

  lemma {:induction false} SumConcat(a: seq<Entry>, b: seq<Entry>)
    ensures Sum(a + b) == Sum(a) + Sum(b)
  {
    if a == [] {
      assert a + b == b;
    } else {
      assert (a + b)[1..] == a[1..] + b;
      SumConcat(a[1..], b);
    }
  }

  lemma {:induction false} SumWithout(entries: seq<Entry>, i: nat)
    requires i < |entries|
    ensures Sum(Without(entries, i)) == Sum(entries) - entries[i].bytes
  {
    assert entries == entries[..i] + ([entries[i]] + entries[i + 1..]);
    SumConcat(entries[..i], [entries[i]] + entries[i + 1..]);
    SumConcat([entries[i]], entries[i + 1..]);
    SumConcat(entries[..i], entries[i + 1..]);
  }

  lemma {:induction false} WithoutEntries(entries: seq<Entry>, i: nat, clock: int)
    requires i < |entries| && DistinctKeys(entries)
    ensures DistinctKeys(Without(entries, i))
    ensures forall key :: Holds(Without(entries, i), key) <==> Holds(entries, key) && key != entries[i].key
    ensures InTouchOrder(entries, clock) ==> InTouchOrder(Without(entries, i), clock)
  {
    var rest := Without(entries, i);
    assert forall k :: 0 <= k < i ==> rest[k] == entries[k];
    assert forall k :: i <= k < |rest| ==> rest[k] == entries[k + 1];
    forall key ensures Holds(rest, key) <==> Holds(entries, key) && key != entries[i].key {
      if Holds(entries, key) && key != entries[i].key {
        var k :| 0 <= k < |entries| && entries[k].key == key;
        assert rest[if k < i then k else k - 1].key == key;
      }
    }
  }

  lemma {:induction false} RemovedKeeps(limits: Limits, s: State, key: string, clock: int)
    requires Sound(limits, s)
    ensures Sound(limits, Removed(s, key)) && !Holds(Removed(s, key).entries, key)
    ensures InTouchOrder(s.entries, clock) ==> InTouchOrder(Removed(s, key).entries, clock)
    ensures Removed(s, key).pending == s.pending && Removed(s, key).loaders == s.loaders
  {
    KeyIsLeft(s, key, clock);
    var i := Position(s.entries, key);
    if i < |s.entries| {
      hide Holds, SingleFlight, DistinctKeys, InTouchOrder, Without, Sum;
      SumWithout(s.entries, i);
      WithoutEntries(s.entries, i, clock);
      RestCurrent(s.entries, i, s.generation);
    }
  }

  lemma {:induction false} KeyIsLeft(s: State, key: string, clock: int)
    requires DistinctKeys(s.entries)
    ensures !Holds(Removed(s, key).entries, key)
  {
    var i := Position(s.entries, key);
    if i < |s.entries| { WithoutEntries(s.entries, i, clock); }
  }

  lemma {:induction false} RestCurrent(entries: seq<Entry>, i: nat, generation: nat)
    requires LoadedSinceClear(entries, generation) && i < |entries|
    ensures LoadedSinceClear(Without(entries, i), generation)
  {
  }

  lemma {:induction false} AppendedEntries(entries: seq<Entry>, entry: Entry)
    ensures Sum(entries + [entry]) == Sum(entries) + entry.bytes
    ensures DistinctKeys(entries) && !Holds(entries, entry.key) ==> DistinctKeys(entries + [entry])
    ensures forall key :: Holds(entries + [entry], key) <==> Holds(entries, key) || key == entry.key
    ensures InTouchOrder(entries, entry.touchedAt) ==> InTouchOrder(entries + [entry], entry.touchedAt)
  {
    SumConcat(entries, [entry]);
    var more := entries + [entry];
    assert more[|entries|] == entry;
    forall key ensures Holds(more, key) <==> Holds(entries, key) || key == entry.key {
      if Holds(entries, key) {
        var k :| 0 <= k < |entries| && entries[k].key == key;
        assert more[k].key == key;
      }
    }
  }

  lemma {:induction false} TouchedKeeps(limits: Limits, s: State, i: nat, clock: int, now: int)
    requires Sound(limits, s) && i < |s.entries| && clock <= now
    ensures Sound(limits, Touched(s, i, now))
    ensures InTouchOrder(s.entries, clock) ==> InTouchOrder(Touched(s, i, now).entries, now)
  {
    hide Holds, SingleFlight, DistinctKeys, Without, Sum;
    SumWithout(s.entries, i);
    WithoutEntries(s.entries, i, clock);
    AppendedEntries(Without(s.entries, i), s.entries[i].(touchedAt := now));
    HoldsItself(s.entries, i);
    RestCurrent(s.entries, i, s.generation);
  }

  lemma {:induction false} HoldsItself(entries: seq<Entry>, i: nat)
    requires i < |entries|
    ensures Holds(entries, entries[i].key)
  {
  }

  // ---- Eviction ---------------------------------------------------------------------------------

  /** The newest `k` entries exceed a limit. */
  predicate TooMany(limits: Limits, entries: seq<Entry>, k: nat)
    requires k <= |entries|
  {
    Over(limits, Sum(entries[|entries| - k..]), k)
  }

  /** What is left is the longest run of newest entries that fits. */
  lemma {:induction false} EvictsOldestFirst(limits: Limits, s: State)
    requires s.bytes == Sum(s.entries)
    ensures var after := Evicted(limits, s);
      && |after.entries| <= |s.entries|
      && after.entries == s.entries[|s.entries| - |after.entries|..] && after.bytes == Sum(after.entries)
      && !Over(limits, after.bytes, |after.entries|)
      && forall k :: |after.entries| < k <= |s.entries| ==> TooMany(limits, s.entries, k)
    decreases |s.entries|
  {
    hide TooMany;
    TooManyAll(limits, s.entries);
    if Over(limits, s.bytes, |s.entries|) && s.entries != [] {
      hide Over, Sum;
      var next := s.(entries := s.entries[1..], bytes := s.bytes - s.entries[0].bytes);
      SumTail(s.entries);
      EvictsOldestFirst(limits, next);
      var n := |Evicted(limits, s).entries|;
      SuffixOfTail(s.entries, n);
      forall k | n < k <= |s.entries| ensures TooMany(limits, s.entries, k) {
        if k < |s.entries| {
          SuffixOfTail(s.entries, k);
          TooManyShift(limits, s.entries, k);
        }
      }
    } else {
      assert s.entries[0..] == s.entries;
    }
  }

  lemma {:induction false} SuffixOfTail(entries: seq<Entry>, k: nat)
    requires entries != [] && k <= |entries| - 1
    ensures entries[1..][|entries| - 1 - k..] == entries[|entries| - k..]
  {
  }

  lemma {:induction false} TooManyShift(limits: Limits, entries: seq<Entry>, k: nat)
    requires entries != [] && k <= |entries| - 1 && TooMany(limits, entries[1..], k)
    ensures TooMany(limits, entries, k)
  {
    SuffixOfTail(entries, k);
  }

  lemma {:induction false} TooManyAll(limits: Limits, entries: seq<Entry>)
    ensures TooMany(limits, entries, |entries|) <==> Over(limits, Sum(entries), |entries|)
  {
    assert entries[0..] == entries;
  }

  lemma {:induction false} SumTail(entries: seq<Entry>)
    requires entries != []
    ensures Sum(entries) == entries[0].bytes + Sum(entries[1..])
  {
  }

  lemma {:induction false} SumOne(entry: Entry)
    ensures Sum([entry]) == entry.bytes
  {
    assert [entry][1..] == [];
  }

  lemma {:induction false} SuffixEntries(entries: seq<Entry>, from: nat, clock: int)
    requires from <= |entries|
    ensures DistinctKeys(entries) ==> DistinctKeys(entries[from..])
    ensures InTouchOrder(entries, clock) ==> InTouchOrder(entries[from..], clock)
    ensures forall key :: Holds(entries[from..], key) ==> Holds(entries, key)
  {
  }

  /** The entry just stored fits on its own, so it is the last to stay. */
  lemma {:induction false} NewestStays(limits: Limits, s: State)
    requires s.bytes == Sum(s.entries) && s.entries != [] && limits.maxEntries >= 1
    requires s.entries[|s.entries| - 1].bytes <= limits.maxBytes
    ensures var after := Evicted(limits, s).entries; after != [] && after[|after| - 1] == s.entries[|s.entries| - 1]
  {
    EvictsOldestFirst(limits, s);
    var n := |s.entries|;
    assert s.entries[n - 1..] == [s.entries[n - 1]];
    SumOne(s.entries[n - 1]);
    assert !TooMany(limits, s.entries, 1);
  }

  // ---- Every step -------------------------------------------------------------------------------

  lemma {:induction false} StartKeeps(limits: Limits, s: State, key: string)
    requires Sound(limits, s) && !Holds(s.entries, key)
    ensures Sound(limits, StartUnlessPending(s, key))
  {
    hide Holds, Sum, DistinctKeys, LoadedSinceClear, WithinLimits, SingleFlight;
    if key !in s.pending { StartFlies(s, key); }
  }

  lemma {:induction false} StartFlies(s: State, key: string)
    requires SingleFlight(s.pending, s.loaders, s.generation, s.nextLoader) && key !in s.pending
    ensures var after := Started(s, key); SingleFlight(after.pending, after.loaders, after.generation, after.nextLoader)
  {
  }

  lemma {:induction false} FinishKeeps(limits: Limits, s: State, loader: nat)
    requires Sound(limits, s) && loader in s.loaders
    ensures Sound(limits, Finished(s, loader))
  {
    hide Holds, DistinctKeys, LoadedSinceClear, WithinLimits;
  }

  lemma {:induction false} InsertedKeeps(limits: Limits, s: State, loader: nat, value: Value, now: int)
    requires Sound(limits, s) && loader in s.loaders && !s.loaders[loader].done
    ensures Sound(limits, Finished(Inserted(limits, s, loader, value, now), loader))
    ensures InTouchOrder(s.entries, now) ==> InTouchOrder(Inserted(limits, s, loader, value, now).entries, now)
  {
    hide Sound, Evicted, Stored, InTouchOrder, Finished;
    var started := s.loaders[loader];
    var size := limits.measure(value);
    if size.Some? && started.generation == s.generation && size.value <= limits.maxBytes {
      InsertedFits(limits, s, loader, Entry(started.key, value, size.value, now, started.generation));
    } else {
      FinishKeeps(limits, s, loader);
    }
  }

  lemma {:induction false} InsertedFits(limits: Limits, s: State, loader: nat, entry: Entry)
    requires Sound(limits, s) && loader in s.loaders && !s.loaders[loader].done
    requires s.loaders[loader].key == entry.key && s.loaders[loader].generation == entry.generation == s.generation
    ensures Sound(limits, Finished(Evicted(limits, Stored(s, entry)), loader))
    ensures InTouchOrder(s.entries, entry.touchedAt) ==>
      InTouchOrder(Evicted(limits, Stored(s, entry)).entries, entry.touchedAt)
  {
    hide Holds, Sum, Evicted, Stored, InTouchOrder;
    AppendsNew(s, entry);
    AppendedEntries(s.entries, entry);
    var stored := Stored(s, entry);
    EvictsOldestFirst(limits, stored);
    var after := Evicted(limits, stored);
    SuffixEntries(stored.entries, |stored.entries| - |after.entries|, entry.touchedAt);
    assert LoadedSinceClear(after.entries, after.generation);
  }

  /** A running load of this generation finds no entry under its key. */
  lemma {:induction false} AppendsNew(s: State, entry: Entry)
    requires !Holds(s.entries, entry.key)
    ensures Stored(s, entry).entries == s.entries + [entry] && Stored(s, entry).bytes == s.bytes + entry.bytes
  {
    var i := Position(s.entries, entry.key);
    if i < |s.entries| { HoldsItself(s.entries, i); }
  }

  /** The limits, single flight and freshness after a clear hold after every step, whatever the clock says. */
  lemma {:induction false} StepKeeps(limits: Limits, s: State, event: Event)
    requires Sound(limits, s)
    ensures Sound(limits, Step(limits, s, event))
  {
    match event
    case Load(key, refresh, now, later) =>
      hide Sound, Touched, Removed, StartUnlessPending, Holds;
      var i := Position(s.entries, key);
      if i < |s.entries| && !refresh && Fresh(limits, s.entries[i], now) {
        TouchedKeeps(limits, s, i, later, later);
      } else {
        RemovedKeeps(limits, s, key, now);
        StartKeeps(limits, Removed(s, key), key);
      }
    case Get(key, now, later) =>
      hide Sound, Touched, Removed, Holds;
      var i := Position(s.entries, key);
      if i < |s.entries| && Fresh(limits, s.entries[i], now) {
        TouchedKeeps(limits, s, i, later, later);
      } else {
        RemovedKeeps(limits, s, key, now);
      }
    case Loaded(loader, value, now) =>
      hide Sound, Inserted;
      if loader in s.loaders && !s.loaders[loader].done { InsertedKeeps(limits, s, loader, value, now); }
    case LoadFailed(loader) =>
      hide Sound, Finished;
      if loader in s.loaders && !s.loaders[loader].done { FinishKeeps(limits, s, loader); }
    case Finally(loader) => hide Sound; FinallyKeeps(limits, s, loader);
    case Clear => hide Sound; ClearKeeps(limits, s);
  }

  lemma {:induction false} ClearKeeps(limits: Limits, s: State)
    requires Sound(limits, s)
    ensures Sound(limits, Step(limits, s, Clear))
  {
  }

  lemma {:induction false} FinallyKeeps(limits: Limits, s: State, loader: nat)
    requires Sound(limits, s)
    ensures Sound(limits, Step(limits, s, Finally(loader)))
  {
    hide Holds, Sum, DistinctKeys, LoadedSinceClear, WithinLimits;
  }

  // ---- Runs -------------------------------------------------------------------------------------

  function RunAll(limits: Limits, events: seq<Event>): State {
    if events == [] then EMPTY else Step(limits, RunAll(limits, events[..|events| - 1]), events[|events| - 1])
  }

  function Clock(event: Event, before: int): int {
    match event
    case Load(_, _, _, later) => later
    case Get(_, _, later) => later
    case Loaded(_, _, now) => now
    case _ => before
  }

  function ClockAfter(events: seq<Event>): int {
    if events == [] then 0 else Clock(events[|events| - 1], ClockAfter(events[..|events| - 1]))
  }

  /** The clock never runs backwards, starting from zero. */
  predicate Monotone(events: seq<Event>) {
    events == [] ||
    (Monotone(events[..|events| - 1]) && ClockAfter(events[..|events| - 1]) <= ClockAfter(events))
  }

  lemma {:induction false} EveryRunIsSound(limits: Limits, events: seq<Event>)
    ensures Sound(limits, RunAll(limits, events))
    decreases |events|
  {
    if events == [] {
    } else {
      hide Sound, Step;
      EveryRunIsSound(limits, events[..|events| - 1]);
      StepKeeps(limits, RunAll(limits, events[..|events| - 1]), events[|events| - 1]);
    }
  }

  lemma {:induction false} StepKeepsTouchOrder(limits: Limits, s: State, event: Event, clock: int)
    requires Sound(limits, s) && InTouchOrder(s.entries, clock) && clock <= Clock(event, clock)
    ensures InTouchOrder(Step(limits, s, event).entries, Clock(event, clock))
  {
    hide Sound, Touched, Removed, Holds, Inserted;
    var now := Clock(event, clock);
    assert InTouchOrder(s.entries, now);
    match event
    case Load(key, refresh, _, later) =>
      var i := Position(s.entries, key);
      RemovedKeeps(limits, s, key, later);
      if i < |s.entries| { TouchedKeeps(limits, s, i, clock, later); }
    case Get(key, _, later) =>
      var i := Position(s.entries, key);
      RemovedKeeps(limits, s, key, later);
      if i < |s.entries| { TouchedKeeps(limits, s, i, clock, later); }
    case Loaded(loader, value, _) =>
      if loader in s.loaders && !s.loaders[loader].done { InsertedKeeps(limits, s, loader, value, now); }
    case _ =>
  }

  /** With a monotone clock the map order is the order of use, so what is evicted was used least recently. */
  lemma {:induction false} MapOrderIsTouchOrder(limits: Limits, events: seq<Event>)
    requires Monotone(events)
    ensures InTouchOrder(RunAll(limits, events).entries, ClockAfter(events))
    decreases |events|
  {
    if events != [] {
      hide Step, InTouchOrder;
      var most := events[..|events| - 1];
      MapOrderIsTouchOrder(limits, most);
      EveryRunIsSound(limits, most);
      StepKeepsTouchOrder(limits, RunAll(limits, most), events[|events| - 1], ClockAfter(most));
    }
  }

  /** The entry of the key, read at this time, is younger than the age limit. */
  predicate YoungAt(limits: Limits, entries: seq<Entry>, k: nat, key: string, now: int) {
    k < |entries| && entries[k].key == key && now < entries[k].touchedAt + limits.maxAgeMs
  }

  ghost predicate Young(limits: Limits, entries: seq<Entry>, key: string, now: int) {
    exists k: nat :: YoungAt(limits, entries, k, key, now)
  }

  /** The entry moves to the end with a new time, and nothing else changes. */
  predicate MovedToEnd(s: State, after: State, k: nat, later: int) {
    && k < |s.entries| && after == s.(entries := after.entries) && |after.entries| == |s.entries|
    && after.entries[|s.entries| - 1] == s.entries[k].(touchedAt := later)
    && (forall j :: 0 <= j < k ==> after.entries[j] == s.entries[j])
    && (forall j :: k < j < |s.entries| ==> after.entries[j - 1] == s.entries[j])
  }

  /** The entry of the key, if any, is dropped with its bytes; the others keep their order. */
  predicate Dropped(s: State, after: State, key: string) {
    && after.generation == s.generation
    && ((after.entries == s.entries && after.bytes == s.bytes && !Holds(s.entries, key))
        || exists k :: 0 <= k < |s.entries| && s.entries[k].key == key
             && after.entries == s.entries[..k] + s.entries[k + 1..] && after.bytes == s.bytes - s.entries[k].bytes)
  }

  /** The load in flight for the key stays the one; without one a new load starts. */
  predicate FliesFor(s: State, after: State, key: string) {
    && (key in s.pending ==> after.pending == s.pending && after.loaders == s.loaders)
    && (key !in s.pending ==> after.pending == s.pending[key := s.nextLoader])
    && (key !in s.pending ==> after.loaders == s.loaders[s.nextLoader := Loader(key, s.generation, false)])
  }

  lemma {:induction false} FoundEntry(limits: Limits, s: State, key: string, now: int)
    requires DistinctKeys(s.entries)
    ensures var i := Position(s.entries, key);
      && (i < |s.entries| <==> Holds(s.entries, key))
      && (Young(limits, s.entries, key, now) <==> i < |s.entries| && now - s.entries[i].touchedAt < limits.maxAgeMs)
      && (forall k: nat :: YoungAt(limits, s.entries, k, key, now) ==> k == i)
  {
    var i := Position(s.entries, key);
    if i < |s.entries| && now - s.entries[i].touchedAt < limits.maxAgeMs { assert YoungAt(limits, s.entries, i, key, now); }
  }

  lemma {:induction false} RemovedIsDropped(s: State, key: string)
    ensures Dropped(s, Removed(s, key), key)
  {
    var i := Position(s.entries, key);
    if i < |s.entries| { assert s.entries[i].key == key; }
  }

  /** A young entry hits, unless a refresh is asked for; any other is dropped, and a load flies for the key. */
  lemma {:induction false} LoadByAge(limits: Limits, s: State, key: string, refresh: bool, now: int, later: int)
    requires DistinctKeys(s.entries)
    ensures var after := Step(limits, s, Load(key, refresh, now, later));
      if Young(limits, s.entries, key, now) && !refresh
      then exists k: nat :: YoungAt(limits, s.entries, k, key, now) && MovedToEnd(s, after, k, later)
      else Dropped(s, after, key) && FliesFor(s, after, key)
  {
    hide Position, Dropped;
    FoundEntry(limits, s, key, now);
    RemovedIsDropped(s, key);
    var i := Position(s.entries, key);
    if i < |s.entries| && !refresh && now - s.entries[i].touchedAt < limits.maxAgeMs {
      assert MovedToEnd(s, Touched(s, i, later), i, later);
    } else {
      DropReadsEntries(s, Removed(s, key), StartUnlessPending(Removed(s, key), key), key);
    }
  }

  lemma {:induction false} DropReadsEntries(s: State, a: State, b: State, key: string)
    requires Dropped(s, a, key) && b.entries == a.entries && b.bytes == a.bytes && b.generation == a.generation
    ensures Dropped(s, b, key)
  {
  }

  lemma {:induction false} GetByAge(limits: Limits, s: State, key: string, now: int, later: int)
    requires DistinctKeys(s.entries)
    ensures var after := Step(limits, s, Get(key, now, later));
      if Young(limits, s.entries, key, now)
      then exists k: nat :: YoungAt(limits, s.entries, k, key, now) && MovedToEnd(s, after, k, later)
      else Dropped(s, after, key) && after.pending == s.pending && after.loaders == s.loaders
  {
    hide Position, Dropped;
    FoundEntry(limits, s, key, now);
    RemovedIsDropped(s, key);
    var i := Position(s.entries, key);
    if i < |s.entries| && now - s.entries[i].touchedAt < limits.maxAgeMs {
      assert MovedToEnd(s, Touched(s, i, later), i, later);
    }
  }

  predicate Overflows(limits: Limits, entries: seq<Entry>) {
    Sum(entries) > limits.maxBytes || |entries| > limits.maxEntries
  }

  /** The longest run of newest entries that fits both limits. */
  predicate LongestFitting(limits: Limits, all: seq<Entry>, kept: seq<Entry>) {
    && |kept| <= |all| && kept == all[|all| - |kept|..] && !Overflows(limits, kept)
    && forall first :: 0 <= first < |all| - |kept| ==> Overflows(limits, all[first..])
  }

  lemma {:induction false} EvictedIsLongest(limits: Limits, s: State)
    requires s.bytes == Sum(s.entries)
    ensures LongestFitting(limits, s.entries, Evicted(limits, s).entries)
  {
    hide Evicted, Sum;
    EvictsOldestFirst(limits, s);
    var kept := Evicted(limits, s).entries;
    forall first | 0 <= first < |s.entries| - |kept| ensures Overflows(limits, s.entries[first..]) {
      assert TooMany(limits, s.entries, |s.entries| - first);
    }
  }

  predicate Storable(limits: Limits, s: State, loader: nat, value: Value)
    requires loader in s.loaders
  {
    && limits.measure(value).Some? && limits.measure(value).value <= limits.maxBytes
    && s.loaders[loader].generation == s.generation
  }

  /** A value that arrives is stored exactly when its size is known and fits and nothing was cleared since its load began. */
  lemma {:induction false} LoadedExactly(limits: Limits, s: State, loader: nat, value: Value, now: int)
    requires Sound(limits, s) && loader in s.loaders && !s.loaders[loader].done
    ensures var after := Step(limits, s, Loaded(loader, value, now));
      && after.pending == s.pending && after.loaders == s.loaders[loader := s.loaders[loader].(done := true)]
      && (!Storable(limits, s, loader, value) ==> after.entries == s.entries && after.bytes == s.bytes)
      && (Storable(limits, s, loader, value) ==>
            var entry := Entry(s.loaders[loader].key, value, limits.measure(value).value, now, s.generation);
            LongestFitting(limits, s.entries + [entry], after.entries))
  {
    hide Evicted, Stored, Sum, DistinctKeys, SingleFlight, LoadedSinceClear, LongestFitting;
    if Storable(limits, s, loader, value) {
      var entry := Entry(s.loaders[loader].key, value, limits.measure(value).value, now, s.generation);
      AppendsNew(s, entry);
      SumConcat(s.entries, [entry]);
      SumOne(entry);
      EvictedIsLongest(limits, Stored(s, entry));
    }
  }

  /** A load that started before a clear never changes the entries afterwards. */
  lemma {:induction false} OldLoadStoresNothing(limits: Limits, s: State, loader: nat, value: Value, now: int)
    requires Sound(limits, s) && loader in s.loaders && s.loaders[loader].generation < s.generation
    ensures Step(limits, s, Loaded(loader, value, now)).entries == s.entries
    ensures Step(limits, s, Loaded(loader, value, now)).bytes == s.bytes
    ensures Step(limits, s, Finally(loader)).pending == s.pending
  {
  }

  // ---- The cache itself -------------------------------------------------------------------------

  /** A stored value, the promise of a load in flight, or nothing. */
  datatype Answer = Hit(value: Value) | Promised(loader: nat) | Absent

  class Cache {
    const limits: Limits
    var entries: seq<Entry>
    var pending: map<string, nat>
    var bytes: int
    var generation: nat
    var loaders: map<nat, Loader>
    var nextLoader: nat

    function Now(): State
      reads this
    {
      State(entries, pending, bytes, generation, loaders, nextLoader)
    }

    constructor (limits: Limits)
      ensures this.limits == limits && Now() == EMPTY
    {
      this.limits := limits;
      entries, pending, bytes, generation, loaders, nextLoader := [], map[], 0, 0, map[], 0;
    }

    method Remove(key: string)
      modifies this`entries, this`bytes
      ensures Now() == Removed(old(Now()), key)
    {
      var i := Position(entries, key);
      if i < |entries| {
        bytes := bytes - entries[i].bytes;
        entries := Without(entries, i);
      }
    }

    method Touch(i: nat, now: int) returns (value: Value)
      requires i < |entries|
      modifies this`entries
      ensures Now() == Touched(old(Now()), i, now) && value == old(entries[i].value)
    {
      var cached := entries[i];
      entries := Without(entries, i);
      entries := entries + [cached.(touchedAt := now)];
      return cached.value;
    }

    /** A fresh entry, the load in flight for the key, or a new load: never two loads at once. */
    method Load(key: string, refresh: bool, now: int, later: int) returns (answer: Answer)
      modifies this
      ensures Now() == Step(limits, old(Now()), Event.Load(key, refresh, now, later))
      ensures var i := Position(old(entries), key);
        if i < |old(entries)| && !refresh && now - old(entries)[i].touchedAt < limits.maxAgeMs
        then answer == Hit(old(entries)[i].value)
        else answer == Promised(if key in old(pending) then old(pending)[key] else old(nextLoader))
    {
      var i := Position(entries, key);
      if i < |entries| && !refresh && Fresh(limits, entries[i], now) {
        var value := Touch(i, later);
        return Hit(value);
      }
      Remove(key);
      if key in pending { return Promised(pending[key]); }
      var loader := nextLoader;
      loaders := loaders[loader := Loader(key, generation, false)];
      nextLoader := nextLoader + 1;
      pending := pending[key := loader];
      return Promised(loader);
    }

    method Get(key: string, now: int, later: int) returns (answer: Answer)
      modifies this
      ensures Now() == Step(limits, old(Now()), Event.Get(key, now, later))
      ensures var i := Position(old(entries), key);
        answer == if i < |old(entries)| && now - old(entries)[i].touchedAt < limits.maxAgeMs then Hit(old(entries)[i].value)
                  else if key in old(pending) then Promised(old(pending)[key]) else Absent
    {
      var i := Position(entries, key);
      if i < |entries| && Fresh(limits, entries[i], now) {
        var value := Touch(i, later);
        return Hit(value);
      }
      Remove(key);
      return if key in pending then Promised(pending[key]) else Absent;
    }

    /** The value of a load arrives: store it if nothing was cleared meanwhile, then evict. */
    method OnLoaded(loader: nat, value: Value, now: int)
      requires loader in loaders && !loaders[loader].done
      modifies this
      ensures Now() == Step(limits, old(Now()), Loaded(loader, value, now))
    {
      var started := loaders[loader];
      var size := limits.measure(value);
      if size.Some? && started.generation == generation && size.value <= limits.maxBytes {
        Store(Entry(started.key, value, size.value, now, started.generation));
        Evict();
      }
      loaders := loaders[loader := started.(done := true)];
    }

    method Store(entry: Entry)
      modifies this`entries, this`bytes
      ensures Now() == Stored(old(Now()), entry)
    {
      var i := Position(entries, entry.key);
      entries := if i < |entries| then entries[i := entry] else entries + [entry];
      bytes := bytes + entry.bytes;
    }

    method Evict()
      modifies this`entries, this`bytes
      ensures Now() == Evicted(limits, old(Now()))
    {
      while Over(limits, bytes, |entries|)
        invariant Evicted(limits, Now()) == Evicted(limits, old(Now()))
        invariant unchanged(`pending) && unchanged(`generation) && unchanged(`loaders) && unchanged(`nextLoader)
        decreases |entries|
      {
        if entries == [] { break; }
        var oldest := entries[0];
        assert Position(entries, oldest.key) == 0 && Without(entries, 0) == entries[1..];
        Remove(oldest.key);
      }
    }

    method OnFailed(loader: nat)
      requires loader in loaders && !loaders[loader].done
      modifies this
      ensures Now() == Step(limits, old(Now()), LoadFailed(loader))
    {
      loaders := loaders[loader := loaders[loader].(done := true)];
    }

    method OnFinally(loader: nat)
      requires loader in loaders && loaders[loader].done
      modifies this
      ensures Now() == Step(limits, old(Now()), Finally(loader))
    {
      var key := loaders[loader].key;
      if key in pending && pending[key] == loader { pending := pending - {key}; }
      loaders := loaders - {loader};
    }

    method Clear()
      modifies this
      ensures Now() == Step(limits, old(Now()), Event.Clear)
    {
      generation := generation + 1;
      entries, pending, bytes := [], map[], 0;
    }
  }
}
