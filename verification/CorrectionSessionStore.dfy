/** Sessions by identifier: capacity, optimistic versions and one first-come-first-served lock per session. */
module CorrectionSessionStore {
  import opened Wrappers

  const CAPACITY := 64
  const IDLE_MS := 1800000

  // ---- A lock made of chained promises ----------------------------------------------------------

  /**
   * Promise `t` is the one that ticket `t` resolves when it leaves; ticket `t` waits for promise `t - 1`.
   * `left` counts the tickets that have left.
   */
  datatype Mutex = Mutex(tail: nat, pending: int, resolved: set<nat>, inside: set<nat>, left: nat)

  const FREE := Mutex(0, 0, {0}, {}, 0)

  function Arrived(m: Mutex): Mutex {
    m.(tail := m.tail + 1, pending := m.pending + 1)
  }

  predicate MayEnter(m: Mutex, ticket: nat) {
    1 <= ticket <= m.tail && ticket - 1 in m.resolved && ticket !in m.inside && ticket !in m.resolved
  }

  function Entered(m: Mutex, ticket: nat): Mutex {
    m.(inside := m.inside + {ticket})
  }

  function Departed(m: Mutex, ticket: nat): Mutex {
    m.(inside := m.inside - {ticket}, resolved := m.resolved + {ticket}, pending := m.pending - 1, left := m.left + 1)
  }

  predicate Busy(m: Mutex) {
    m.pending > 0
  }

  /** Tickets leave in the order they came, and only the next one may be inside. */
  predicate ValidMutex(m: Mutex) {
    && m.left <= m.tail && m.pending == m.tail - m.left
    && (forall k: nat :: k <= m.left ==> k in m.resolved) && (forall k :: k in m.resolved ==> k <= m.left)
    && m.inside <= {m.left + 1} && (m.inside != {} ==> m.left < m.tail)
  }

  lemma {:induction false} MutexSteps(m: Mutex, ticket: nat)
    requires ValidMutex(m)
    ensures ValidMutex(Arrived(m)) && Busy(Arrived(m))
    ensures MayEnter(m, ticket) <==> ticket == m.left + 1 <= m.tail && m.inside == {}
    ensures MayEnter(m, ticket) ==> ValidMutex(Entered(m, ticket))
    ensures ticket in m.inside ==> Busy(m) && ticket == m.left + 1 && ValidMutex(Departed(m, ticket))
  {
    if m.inside != {} { assert m.inside == {m.left + 1}; }
  }

  // ---- The store --------------------------------------------------------------------------------

  /** The fields of a session that the store looks at. */
  datatype Info = Info(version: nat, hasUndo: bool)

  datatype Operation = Operation(expected: nat, deletes: bool)

  datatype Outcome = Unchanged | Mutated(hasUndo: bool)

  datatype Success = Success(sessionId: string, expected: nat)

  /**
   * `sessions`, `locks` and `accessedAt` are the three maps of the store. Sessions and locks live on after
   * they leave their map, because an operation may still hold them: `infos` and `mutexes` are the objects.
   * `forgetting` are the deleted sessions whose lock is still to be dropped.
   */
  datatype State = State(
    sessions: seq<string>, locks: set<string>, accessedAt: map<string, int>, infos: map<string, Info>,
    mutexes: map<string, Mutex>, operations: map<(string, nat), Operation>, successes: seq<Success>,
    forgetting: set<string>)

  const EMPTY := State([], {}, map[], map[], map[], map[], [], {})

  datatype Event =
    | MakeRoom(now: int)
    | Add(sessionId: string, hasUndo: bool, now: int)
    | Look(sessionId: string, now: int)
    | Arrive(sessionId: string, operation: Operation)
    | Enter(sessionId: string, ticket: nat, now: int)
    | Leave(sessionId: string, ticket: nat, outcome: Outcome)
    | Forget(sessionId: string)
    | Clear

  predicate Idle(s: State, id: string, now: int) {
    && (id in s.infos ==> !s.infos[id].hasUndo)
    && !(id in s.locks && id in s.mutexes && Busy(s.mutexes[id]))
    && now - (if id in s.accessedAt then s.accessedAt[id] else now) >= IDLE_MS
  }

  function Staying(s: State, ids: seq<string>, now: int): (r: seq<string>)
    ensures |r| <= |ids|
    ensures forall id :: id in r <==> id in ids && !Idle(s, id, now)
  {
    if ids == [] then [] else
    var rest := Staying(s, ids[..|ids| - 1], now);
    if Idle(s, ids[|ids| - 1], now) then rest else rest + [ids[|ids| - 1]]
  }

  function Evicted(s: State, now: int): set<string> {
    set id | id in s.sessions && Idle(s, id, now)
  }

  function Roomier(s: State, now: int): State {
    s.(sessions := Staying(s, s.sessions, now), locks := s.locks - Evicted(s, now),
       accessedAt := s.accessedAt - Evicted(s, now))
  }

  predicate Full(s: State) {
    |s.sessions| >= CAPACITY
  }

  /** Identifiers are never used twice. */
  function Added(s: State, id: string, hasUndo: bool, now: int): State {
    s.(sessions := s.sessions + [id], locks := s.locks + {id}, accessedAt := s.accessedAt[id := now],
       infos := s.infos[id := Info(0, hasUndo)], mutexes := s.mutexes[id := FREE])
  }

  function Looked(s: State, id: string, now: int): State {
    if id in s.sessions then s.(accessedAt := s.accessedAt[id := now]) else s
  }

  /** Why an operation whose turn has come is refused. */
  predicate Refused(s: State, id: string, expected: nat) {
    id !in s.sessions || id !in s.infos || s.infos[id].version != expected
  }

  function WithMutex(s: State, id: string, m: Mutex): State {
    s.(mutexes := s.mutexes[id := m])
  }

  function ArriveStep(s: State, id: string, operation: Operation): State
    requires id in s.mutexes
  {
    var m := Arrived(s.mutexes[id]);
    WithMutex(s, id, m).(operations := s.operations[(id, m.tail) := operation])
  }

  function EnterStep(s: State, id: string, ticket: nat, now: int): State
    requires id in s.mutexes && (id, ticket) in s.operations
  {
    var m := s.mutexes[id];
    if Refused(s, id, s.operations[(id, ticket)].expected)
    then WithMutex(Looked(s, id, now), id, Departed(Entered(m, ticket), ticket))
    else WithMutex(Looked(s, id, now), id, Entered(m, ticket))
  }

  function LeaveStep(s: State, id: string, ticket: nat, outcome: Outcome): State
    requires id in s.mutexes && (id, ticket) in s.operations && id in s.infos
  {
    var left := WithMutex(s, id, Departed(s.mutexes[id], ticket));
    var operation := s.operations[(id, ticket)];
    if operation.deletes then left.(sessions := Without(s.sessions, id), forgetting := s.forgetting + {id})
    else match outcome
      case Unchanged => left
      case Mutated(hasUndo) =>
        left.(infos := s.infos[id := Info(s.infos[id].version + 1, hasUndo)],
              successes := s.successes + [Success(id, operation.expected)])
  }

  function Without(ids: seq<string>, id: string): (r: seq<string>)
    ensures |r| <= |ids|
    ensures forall other :: other in r <==> other in ids && other != id
  {
    if ids == [] then [] else
    var rest := Without(ids[..|ids| - 1], id);
    if ids[|ids| - 1] == id then rest else rest + [ids[|ids| - 1]]
  }

  /** An event that cannot happen in a state leaves it as it is. */
  function Step(s: State, event: Event): State {
    match event
    case MakeRoom(now) => Roomier(s, now)
    case Add(id, hasUndo, now) =>
      var roomier := Roomier(s, now);
      if id in s.infos || Full(roomier) then roomier else Added(roomier, id, hasUndo, now)
    case Look(id, now) => Looked(s, id, now)
    case Arrive(id, operation) =>
      if id !in s.locks || id !in s.mutexes then s else ArriveStep(s, id, operation)
    case Enter(id, ticket, now) =>
      if id in s.mutexes && (id, ticket) in s.operations && MayEnter(s.mutexes[id], ticket)
      then EnterStep(s, id, ticket, now) else s
    case Leave(id, ticket, outcome) =>
      if id in s.mutexes && (id, ticket) in s.operations && ticket in s.mutexes[id].inside && id in s.infos
      then LeaveStep(s, id, ticket, outcome) else s
    case Forget(id) =>
      if id !in s.forgetting then s
      else s.(locks := s.locks - {id}, accessedAt := s.accessedAt - {id}, forgetting := s.forgetting - {id})
    case Clear => s.(sessions := [], locks := {}, accessedAt := map[])
  }

  function RunAll(events: seq<Event>): State {
    if events == [] then EMPTY else Step(RunAll(events[..|events| - 1]), events[|events| - 1])
  }

  // ---- Invariant --------------------------------------------------------------------------------

  predicate Distinct(ids: seq<string>) {
    forall i, j :: 0 <= i < j < |ids| ==> ids[i] != ids[j]
  }

  predicate Known(s: State) {
    && Distinct(s.sessions)
    && (forall id :: id in s.sessions ==> id in s.infos && id in s.locks)
    && (forall id :: id in s.locks ==> id in s.mutexes)
    && s.infos.Keys == s.mutexes.Keys
    && (forall id :: id in s.forgetting ==> id in s.infos && id !in s.sessions)
    && (forall id :: id in s.mutexes ==> ValidMutex(s.mutexes[id]))
  }

  /** An operation that runs has the current version, and every ticket has its operation. */
  predicate Versioned(s: State) {
    && (forall id, ticket: nat :: id in s.mutexes && 1 <= ticket <= s.mutexes[id].tail ==> (id, ticket) in s.operations)
    && (forall id, ticket :: id in s.mutexes && ticket in s.mutexes[id].inside ==>
          (id, ticket) in s.operations && id in s.infos && s.operations[(id, ticket)].expected == s.infos[id].version)
  }

  /** Every success of a session had its own expected version, below the current one. */
  predicate OncePerVersion(s: State) {
    && (forall i :: 0 <= i < |s.successes| ==>
          s.successes[i].sessionId in s.infos && s.successes[i].expected < s.infos[s.successes[i].sessionId].version)
    && (forall i, j :: 0 <= i < j < |s.successes| && s.successes[i].sessionId == s.successes[j].sessionId ==>
          s.successes[i].expected < s.successes[j].expected)
  }

  predicate Sound(s: State) {
    |s.sessions| <= CAPACITY && Known(s) && Versioned(s) && OncePerVersion(s)
  }

  lemma {:induction false} EnterKeeps(s: State, id: string, ticket: nat, now: int)
    requires Sound(s) && id in s.mutexes && (id, ticket) in s.operations && MayEnter(s.mutexes[id], ticket)
    ensures Sound(EnterStep(s, id, ticket, now))
  {
    hide MayEnter, Arrived, ValidMutex, Busy;
    MutexSteps(s.mutexes[id], ticket);
    MutexSteps(Entered(s.mutexes[id], ticket), ticket);
    InsideIsNext(s, id);
    OnlyOneInside(s.mutexes[id], ticket);
  }

  lemma {:induction false} OnlyOneInside(m: Mutex, ticket: nat)
    requires ValidMutex(m) && MayEnter(m, ticket)
    ensures Entered(m, ticket).inside == {ticket} && Departed(Entered(m, ticket), ticket).inside == {}
  {
    MutexSteps(m, ticket);
  }

  lemma {:induction false} InsideIsNext(s: State, id: string)
    requires Known(s) && id in s.mutexes
    ensures forall ticket :: ticket in s.mutexes[id].inside ==> ticket == s.mutexes[id].left + 1
  {
  }

  lemma {:induction false} LeaveKeeps(s: State, id: string, ticket: nat, outcome: Outcome)
    requires Sound(s) && id in s.mutexes && (id, ticket) in s.operations && ticket in s.mutexes[id].inside && id in s.infos
    ensures Sound(LeaveStep(s, id, ticket, outcome))
  {
    hide Arrived, ValidMutex, Busy, MayEnter;
    MutexSteps(s.mutexes[id], ticket);
    InsideIsNext(s, id);
    WithoutDistinct(s.sessions, id);
    assert Departed(s.mutexes[id], ticket).inside == {};
  }

  lemma {:induction false} StayingDistinct(s: State, ids: seq<string>, now: int)
    requires Distinct(ids)
    ensures Distinct(Staying(s, ids, now))
  {
    if ids != [] {
      StayingDistinct(s, ids[..|ids| - 1], now);
      assert ids[|ids| - 1] !in ids[..|ids| - 1];
    }
  }

  lemma {:induction false} WithoutDistinct(ids: seq<string>, id: string)
    requires Distinct(ids)
    ensures Distinct(Without(ids, id))
  {
    if ids != [] {
      WithoutDistinct(ids[..|ids| - 1], id);
      assert ids[|ids| - 1] !in ids[..|ids| - 1];
    }
  }

  lemma {:induction false} RoomierKeeps(s: State, now: int)
    requires Sound(s)
    ensures Sound(Roomier(s, now))
  {
    hide Idle, ValidMutex, Distinct, OncePerVersion;
    StayingDistinct(s, s.sessions, now);
    SameMutexes(s, Roomier(s, now));
  }

  /** Versions and locks only depend on the objects, not on the maps that name them. */
  lemma {:induction false} SameMutexes(s: State, after: State)
    requires after.infos == s.infos && after.mutexes == s.mutexes && after.operations == s.operations
    requires after.successes == s.successes
    ensures Versioned(s) ==> Versioned(after)
    ensures OncePerVersion(s) ==> OncePerVersion(after)
  {
    hide ValidMutex;
  }

  lemma {:induction false} AddedKeeps(s: State, id: string, hasUndo: bool, now: int)
    requires Sound(s) && id !in s.infos && !Full(s)
    ensures Sound(Added(s, id, hasUndo, now))
  {
    hide ValidMutex;
    FreeIsValid();
  }

  lemma {:induction false} ArriveKeeps(s: State, id: string, operation: Operation)
    requires Sound(s) && id in s.mutexes
    ensures Sound(ArriveStep(s, id, operation))
  {
    hide MayEnter, Busy;
    MutexSteps(s.mutexes[id], 0);
  }

  lemma {:induction false} StepKeeps(s: State, event: Event)
    requires Sound(s)
    ensures Sound(Step(s, event))
  {
    hide ValidMutex, EnterStep, LeaveStep, ArriveStep, MayEnter, Idle, Roomier, Added, Known, Versioned, OncePerVersion;
    match event
    case MakeRoom(now) => RoomierKeeps(s, now);
    case Add(id, hasUndo, now) =>
      RoomierKeeps(s, now);
      if id !in s.infos && !Full(Roomier(s, now)) {
        assert Roomier(s, now).infos == s.infos by { RoomierObjects(s, now); }
        AddedKeeps(Roomier(s, now), id, hasUndo, now);
      }
    case Enter(id, ticket, now) =>
      if id in s.mutexes && (id, ticket) in s.operations && MayEnter(s.mutexes[id], ticket) { EnterKeeps(s, id, ticket, now); }
    case Leave(id, ticket, outcome) =>
      if id in s.mutexes && (id, ticket) in s.operations && ticket in s.mutexes[id].inside && id in s.infos {
        LeaveKeeps(s, id, ticket, outcome);
      }
    case Arrive(id, operation) => if id in s.mutexes { ArriveKeeps(s, id, operation); }
    case _ =>
      SameMutexes(s, Step(s, event));
      MapsKeep(s, event);
  }

  lemma {:induction false} RoomierObjects(s: State, now: int)
    ensures Roomier(s, now).infos == s.infos
  {
  }

  lemma {:induction false} MapsKeep(s: State, event: Event)
    requires Known(s) && (event.Look? || event.Forget? || event.Clear?)
    ensures Known(Step(s, event)) && |Step(s, event).sessions| <= |s.sessions|
  {
    hide ValidMutex;
  }

  lemma {:induction false} FreeIsValid()
    ensures ValidMutex(FREE)
  {
  }

  /** Capacity, exclusion and one success per version hold in every interleaving. */
  lemma {:induction false} EveryRunIsSound(events: seq<Event>)
    ensures Sound(RunAll(events))
    decreases |events|
  {
    if events != [] {
      hide Step, Sound;
      EveryRunIsSound(events[..|events| - 1]);
      StepKeeps(RunAll(events[..|events| - 1]), events[|events| - 1]);
    }
  }

  /** At most one operation of a session runs, and two successes never had the same expected version. */
  lemma {:induction false} ExclusionAndVersions(events: seq<Event>, id: string, a: nat, b: nat, i: nat, j: nat)
    ensures var s := RunAll(events);
      && (id in s.mutexes && a in s.mutexes[id].inside && b in s.mutexes[id].inside ==> a == b)
      && (i < |s.successes| && j < |s.successes| && s.successes[i] == s.successes[j] ==> i == j)
  {
    hide RunAll;
    EveryRunIsSound(events);
    var s := RunAll(events);
    if id in s.mutexes { InsideIsNext(s, id); }
  }

  /** Making room never drops a session with history, with work waiting or running, or used within half an hour. */
  lemma {:induction false} EvictionIsSafe(s: State, now: int, id: string)
    requires Sound(s) && id in s.sessions && id !in Roomier(s, now).sessions
    ensures !s.infos[id].hasUndo && s.mutexes[id].pending == 0 && s.mutexes[id].inside == {}
    ensures id in s.accessedAt && now - s.accessedAt[id] >= IDLE_MS
    ensures s.mutexes[id].tail == s.mutexes[id].left
  {
  }

  /** A session nobody waits for, without history, that was not used for half an hour. */
  ghost predicate Abandoned(s: State, id: string, now: int)
    requires Sound(s) && id in s.sessions
  {
    && !s.infos[id].hasUndo && s.mutexes[id].left == s.mutexes[id].tail
    && id in s.accessedAt && s.accessedAt[id] + 1800000 <= now
  }

  /** Making room drops exactly the abandoned sessions, each with its lock and access time. */
  lemma {:induction false} EvictedExactly(s: State, now: int)
    requires Sound(s)
    ensures var after := Step(s, MakeRoom(now));
      && (forall id :: id in after.sessions <==> id in s.sessions && !Abandoned(s, id, now))
      && (forall id :: id in after.locks <==> id in s.locks && (id in s.sessions ==> id in after.sessions))
      && (forall id :: id in after.accessedAt <==> id in s.accessedAt && (id in s.sessions ==> id in after.sessions))
      && (forall id :: id in after.accessedAt ==> after.accessedAt[id] == s.accessedAt[id])
      && after == s.(sessions := after.sessions, locks := after.locks, accessedAt := after.accessedAt)
  {
    forall id | id in s.sessions ensures Idle(s, id, now) <==> Abandoned(s, id, now) {
      assert ValidMutex(s.mutexes[id]);
    }
  }

  /** A new session comes last, with a free lock and no version yet, unless 64 sessions are left after making room. */
  lemma {:induction false} AddExactly(s: State, id: string, hasUndo: bool, now: int)
    requires Sound(s) && id !in s.infos
    ensures var (roomier, after) := (Step(s, MakeRoom(now)), Step(s, Add(id, hasUndo, now)));
      && (|roomier.sessions| >= 64 ==> after == roomier)
      && (|roomier.sessions| < 64 ==> after == roomier.(
            sessions := roomier.sessions + [id], locks := roomier.locks + {id}, accessedAt := roomier.accessedAt[id := now],
            infos := s.infos[id := Info(0, hasUndo)], mutexes := s.mutexes[id := Mutex(0, 0, {0}, {}, 0)]))
  {
    hide Idle, Staying;
  }

  /** The next operation in line starts exactly at a session that is there and has the version it expects. */
  lemma {:induction false} StartsExactly(s: State, id: string, ticket: nat, now: int)
    requires Sound(s) && id in s.mutexes && (id, ticket) in s.operations
    ensures var after := Step(s, Enter(id, ticket, now));
      && (ticket in after.mutexes[id].inside <==>
            || ticket in s.mutexes[id].inside
            || (ticket == s.mutexes[id].left + 1 <= s.mutexes[id].tail && s.mutexes[id].inside == {}
                && id in s.sessions && s.infos[id].version == s.operations[(id, ticket)].expected))
      && after.sessions == s.sessions && after.infos == s.infos && after.successes == s.successes
  {
    hide ValidMutex;
    MutexSteps(s.mutexes[id], ticket);
    if MayEnter(s.mutexes[id], ticket) { OnlyOneInside(s.mutexes[id], ticket); }
  }

  /** Leaving lets the next one in; it counts as a success exactly when it changed a session that stays. */
  lemma {:induction false} LeavesExactly(s: State, id: string, ticket: nat, outcome: Outcome)
    requires Sound(s) && id in s.mutexes && ticket in s.mutexes[id].inside
    ensures (id, ticket) in s.operations && id in s.infos
    ensures var after := Step(s, Leave(id, ticket, outcome));
      var operation := s.operations[(id, ticket)];
      && after.mutexes[id].left == s.mutexes[id].left + 1 && after.mutexes[id].inside == {}
      && (forall other :: other in after.sessions <==> other in s.sessions && !(operation.deletes && other == id))
      && (if !operation.deletes && outcome.Mutated?
          then after.infos == s.infos[id := Info(operation.expected + 1, outcome.hasUndo)]
               && after.successes == s.successes + [Success(id, operation.expected)]
          else after.infos == s.infos && after.successes == s.successes)
  {
    hide ValidMutex;
    MutexSteps(s.mutexes[id], ticket);
    InsideIsNext(s, id);
  }

  /** Only a delete, an eviction or a clear removes a session, and only a full store refuses a new one. */
  lemma {:induction false} SessionsStay(s: State, event: Event, id: string)
    requires Sound(s) && id in s.sessions && id !in Step(s, event).sessions
    ensures event.Clear?
      || (event.Leave? && event.sessionId == id && (id, event.ticket) in s.operations && s.operations[(id, event.ticket)].deletes)
      || ((event.MakeRoom? || event.Add?) && Idle(s, id, event.now))
  {
  }

  lemma {:induction false} NobodyYet(s: State, now: int)
    ensures Staying(s, [], now) == []
  {
  }

  lemma {:induction false} StayingOne(s: State, ids: seq<string>, i: nat, now: int)
    requires i < |ids|
    ensures ids[..i + 1] == ids[..i] + [ids[i]]
    ensures Staying(s, ids[..i + 1], now) == Staying(s, ids[..i], now) + if Idle(s, ids[i], now) then [] else [ids[i]]
  {
    hide Idle;
    assert ids[..i + 1][..i] == ids[..i];
  }

  // ---- The store itself -------------------------------------------------------------------------

  class Store {
    var sessions: seq<string>
    var locks: set<string>
    var accessedAt: map<string, int>
    var infos: map<string, Info>
    var mutexes: map<string, Mutex>
    var operations: map<(string, nat), Operation>
    var successes: seq<Success>
    var forgetting: set<string>

    function Now(): State
      reads this
    {
      State(sessions, locks, accessedAt, infos, mutexes, operations, successes, forgetting)
    }

    constructor ()
      ensures Now() == EMPTY
    {
      sessions, locks, accessedAt, infos, mutexes := [], {}, map[], map[], map[];
      operations, successes, forgetting := map[], [], {};
    }

    /** Drop idle sessions; refuse when the store is still full. */
    method MakeRoom(now: int) returns (refused: bool)
      requires Sound(Now())
      modifies this
      ensures Now() == Step(old(Now()), Event.MakeRoom(now)) && refused == Full(Now())
    {
      hide Idle, Sound, Staying, Known;
      ghost var before := Now();
      var ids := sessions;
      var kept: seq<string> := [];
      NobodyYet(before, now);
      for i := 0 to |ids|
        invariant kept == Staying(before, ids[..i], now)
        invariant Dropped(before, ids[..i], now)
      {
        StayingOne(before, ids, i, now);
        FirstVisit(before, ids, i);
        var idle := IsIdle(before, ids[..i], ids[i], now);
        if idle { Drop(before, ids[..i], ids[i], now); } else { kept := kept + [ids[i]]; }
        assert Dropped(before, ids[..i] + [ids[i]], now);
      }
      assert ids[..|ids|] == ids;
      sessions := kept;
      refused := |sessions| >= CAPACITY;
    }

    /** The locks and access times of the idle sessions among `ids` are gone. */
    ghost predicate Dropped(before: State, ids: seq<string>, now: int)
      reads this
    {
      Now() == before.(locks := before.locks - (set id | id in ids && Idle(before, id, now)),
                       accessedAt := before.accessedAt - (set id | id in ids && Idle(before, id, now)))
    }

    /** Whether a session is idle does not depend on the ones dropped before it. */
    method IsIdle(ghost before: State, ghost dropped: seq<string>, id: string, now: int) returns (idle: bool)
      requires Dropped(before, dropped, now) && id !in dropped
      ensures idle == Idle(before, id, now)
      ensures !idle ==> Dropped(before, dropped + [id], now)
    {
      idle := (id in infos ==> !infos[id].hasUndo)
        && !(id in locks && id in mutexes && Busy(mutexes[id]))
        && now - (if id in accessedAt then accessedAt[id] else now) >= IDLE_MS;
      ghost var gone := set other | other in dropped && Idle(before, other, now);
      assert id !in gone;
      if !idle { assert gone == (set other | other in dropped + [id] && Idle(before, other, now)); }
    }

    method Drop(ghost before: State, ghost dropped: seq<string>, id: string, now: int)
      requires Dropped(before, dropped, now) && Idle(before, id, now)
      modifies this`locks, this`accessedAt
      ensures Dropped(before, dropped + [id], now)
    {
      ghost var gone := set other | other in dropped && Idle(before, other, now);
      assert (set other | other in dropped + [id] && Idle(before, other, now)) == gone + {id};
      locks := locks - {id};
      accessedAt := accessedAt - {id};
    }

    /** A new session needs a free place after making room. */
    method Register(id: string, hasUndo: bool, now: int) returns (refused: bool)
      requires Sound(Now()) && id !in infos
      modifies this
      ensures Now() == Step(old(Now()), Add(id, hasUndo, now))
      ensures refused <==> id !in sessions
    {
      hide Sound, Idle, Roomier;
      RoomierObjects(Now(), now);
      RoomierKeeps(Now(), now);
      NotStaying(Now(), id, now);
      refused := MakeRoom(now);
      if refused { return; }
      accessedAt := accessedAt[id := now];
      sessions := sessions + [id];
      locks := locks + {id};
      infos, mutexes := infos[id := Info(0, hasUndo)], mutexes[id := FREE];
    }

    method Required(id: string, now: int) returns (found: bool)
      modifies this`accessedAt
      ensures Now() == Step(old(Now()), Look(id, now)) && found == (id in sessions)
    {
      found := id in sessions;
      if found { accessedAt := accessedAt[id := now]; }
    }

    /** Join the line of the session's lock; the ticket says after whom. */
    method Queue(id: string, operation: Operation) returns (ticket: Option<nat>)
      requires Sound(Now())
      modifies this
      ensures Now() == Step(old(Now()), Arrive(id, operation))
      ensures ticket == if id in old(locks) then Some(old(mutexes)[id].tail + 1) else None
    {
      if id !in locks { return None; }
      var m := Arrived(mutexes[id]);
      mutexes := mutexes[id := m];
      operations := operations[(id, m.tail) := operation];
      return Some(m.tail);
    }

    /** The operation runs only with the session still there and at the version it expects. */
    method Start(id: string, ticket: nat, now: int) returns (started: bool)
      requires Sound(Now()) && id in mutexes && (id, ticket) in operations && MayEnter(mutexes[id], ticket)
      modifies this
      ensures Now() == Step(old(Now()), Enter(id, ticket, now))
      ensures started <==> id in sessions && infos[id].version == operations[(id, ticket)].expected
    {
      mutexes := mutexes[id := Entered(mutexes[id], ticket)];
      var found := Required(id, now);
      started := found && infos[id].version == operations[(id, ticket)].expected;
      if !started { mutexes := mutexes[id := Departed(mutexes[id], ticket)]; }
    }

    /** The operation ends and lets the next one in. */
    method Finish(id: string, ticket: nat, outcome: Outcome)
      requires Sound(Now()) && id in mutexes && ticket in mutexes[id].inside
      modifies this
      ensures Now() == Step(old(Now()), Leave(id, ticket, outcome))
    {
      var operation := operations[(id, ticket)];
      if operation.deletes {
        sessions := Without(sessions, id);
        forgetting := forgetting + {id};
      } else if outcome.Mutated? {
        infos := infos[id := Info(infos[id].version + 1, outcome.hasUndo)];
        successes := successes + [Success(id, operation.expected)];
      }
      mutexes := mutexes[id := Departed(mutexes[id], ticket)];
    }

    method ForgetLock(id: string)
      requires id in forgetting
      modifies this
      ensures Now() == Step(old(Now()), Forget(id))
    {
      locks := locks - {id};
      accessedAt := accessedAt - {id};
      forgetting := forgetting - {id};
    }

    method Reset()
      modifies this
      ensures Now() == Step(old(Now()), Clear)
    {
      sessions, locks, accessedAt := [], {}, map[];
    }
  }

  lemma {:induction false} FirstVisit(s: State, ids: seq<string>, i: nat)
    requires Sound(s) && ids == s.sessions && i < |ids|
    ensures ids[i] !in ids[..i]
  {
  }

  lemma {:induction false} NotStaying(s: State, id: string, now: int)
    requires Sound(s) && id !in s.infos
    ensures id !in Roomier(s, now).sessions
  {
  }
}
