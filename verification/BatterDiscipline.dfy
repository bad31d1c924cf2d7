/** The batter discipline service and its worker, which keeps the rows of one season between jobs. */
module BatterDiscipline {
  import opened Wrappers
  import opened WorkerRowTransport

  const MAX_QUEUED := 16

  /** A repository answer: no rows when the caller already knows the hash. */
  datatype Snapshot = Snapshot(season: nat, hash: string, rows: Option<seq<Row>>)

  datatype Job = Job(id: nat, season: nat, key: string)

  datatype Message = Message(season: nat, hash: string, rows: Option<seq<Row>>, job: Job, append: bool, complete: bool)

  /** The rows an answer was computed from are part of it here. */
  datatype Response = Response(job: Job, season: nat, hash: string, rows: seq<Row>)

  datatype Cache = Cache(season: nat, hash: string, rows: seq<Row>)

  datatype Worker = Worker(alive: bool, cache: Option<Cache>, inbox: seq<Message>, outbox: seq<Response>)

  datatype Outcome = Resolved(job: Job, hash: string, rows: seq<Row>) | Rejected

  /** `sent` messages of the current job have gone to the worker. */
  datatype Stage = Idle | Fetching(asked: Option<string>) | Running(snapshot: Snapshot, sent: nat) | Failing

  datatype Known = Known(season: nat, hash: string)

  datatype State = State(
    queue: seq<Job>, pending: map<string, nat>, worker: Option<Worker>, known: Option<Known>,
    current: Option<Job>, stage: Stage, closed: bool, nextId: nat, settled: map<nat, Outcome>)

  datatype Event =
    | Analyze(season: nat, key: string)
    | Fetched(snapshot: Option<Snapshot>)
    | Send
    | SendFails
    | WorkerReads
    | WorkerDies
    | Reply(decodes: bool)
    | TimesOut
    | WorkerError
    | WorkerExit
    | Terminated
    | Close

  const EMPTY := State([], map[], None, None, None, Idle, false, 0, map[])

  /** The rows behind a hash. */
  type Data = (nat, string) -> seq<Row>

  // ---- The worker -------------------------------------------------------------------------------

  const FRESH_WORKER := Worker(true, None, [], [])

  /** What the cache becomes, or nothing when the handler throws. */
  function Accumulate(cache: Option<Cache>, m: Message): Option<Cache> {
    if m.rows.None? then
      if cache.Some? && cache.value.season == m.season && cache.value.hash == m.hash then cache else None
    else
      var base := if !m.append then Some(Cache(m.season, m.hash, [])) else cache;
      if base.None? || base.value.season != m.season || base.value.hash != m.hash then None
      else Some(base.value.(rows := base.value.rows + m.rows.value))
  }

  /** The handler for the next message. A thrown error ends the worker. */
  function Read(w: Worker): Worker
    requires w.inbox != []
  {
    var m := w.inbox[0];
    var cache := Accumulate(w.cache, m);
    if cache.None? then w.(alive := false, inbox := w.inbox[1..])
    else w.(cache := cache, inbox := w.inbox[1..],
            outbox := w.outbox + if m.complete then [Response(m.job, cache.value.season, cache.value.hash, cache.value.rows)] else [])
  }

  class DisciplineWorker {
    var cached: Option<Cache>

    constructor ()
      ensures cached == None
    {
      cached := None;
    }

    /** Replace or extend the cached season, check it, and answer the last chunk. */
    method OnMessage(m: Message) returns (thrown: bool, answer: Option<Response>)
      modifies this
      ensures thrown <==> Accumulate(old(cached), m).None?
      ensures !thrown ==> cached == Accumulate(old(cached), m)
      ensures answer == if thrown || !m.complete then None
        else Some(Response(m.job, cached.value.season, cached.value.hash, cached.value.rows))
    {
      if m.rows.Some? {
        if !m.append { cached := Some(Cache(m.season, m.hash, [])); }
        if cached.None? || cached.value.season != m.season || cached.value.hash != m.hash { return true, None; }
        cached := Some(cached.value.(rows := cached.value.rows + m.rows.value));
      }
      if cached.None? || cached.value.season != m.season || cached.value.hash != m.hash { return true, None; }
      return false, if m.complete then Some(Response(m.job, cached.value.season, cached.value.hash, cached.value.rows)) else None;
    }
  }

  // ---- The messages of a job --------------------------------------------------------------------

  function Carry(snapshot: Snapshot, job: Job, chunk: Chunk): Message {
    Message(snapshot.season, snapshot.hash, Some(chunk.rows), job, chunk.append, chunk.complete)
  }

  function Messages(snapshot: Snapshot, job: Job): seq<Message> {
    if snapshot.rows.None? then [Message(snapshot.season, snapshot.hash, None, job, false, true)]
    else
      var chunks := Chunks(snapshot.rows.value);
      seq(|chunks|, i requires 0 <= i < |chunks| => Carry(snapshot, job, chunks[i]))
  }

  // ---- Steps ------------------------------------------------------------------------------------

  /** A promise keeps its first outcome; a settled request is no longer pending. */
  function Settle(s: State, job: Job, outcome: Outcome): State {
    s.(settled := if job.id in s.settled then s.settled else s.settled[job.id := outcome],
       pending := if job.key in s.pending && s.pending[job.key] == job.id then s.pending - {job.key} else s.pending)
  }

  function SettleAll(s: State, jobs: seq<Job>): State
    decreases |jobs|
  {
    if jobs == [] then s else SettleAll(Settle(s, jobs[0], Rejected), jobs[1..])
  }

  function Pumped(s: State): State {
    if s.current.Some? || s.closed || s.queue == [] then s else
    var job := s.queue[0];
    s.(queue := s.queue[1..], current := Some(job),
       stage := Fetching(if s.known.Some? && s.known.value.season == job.season then Some(s.known.value.hash) else None))
  }

  /** The job is lost: the worker and what it was known to hold are dropped. */
  function Fail(s: State): State {
    s.(stage := Failing, known := None, worker := None)
  }

  function FailIfRunning(s: State): State {
    if s.stage.Running? then Fail(s) else s
  }

  function Enqueued(s: State, season: nat, key: string): State {
    s.(queue := s.queue + [Job(s.nextId, season, key)], nextId := s.nextId + 1, pending := s.pending[key := s.nextId])
  }

  function Replied(s: State, decodes: bool): State
    requires s.stage.Running? && s.current.Some? && s.worker.Some? && s.worker.value.outbox != []
  {
    var w, job, snapshot := s.worker.value, s.current.value, s.stage.snapshot;
    var answer := w.outbox[0];
    if !decodes || answer.job != job || answer.season != job.season || answer.hash != snapshot.hash then Fail(s)
    else Pumped(Settle(
      s.(worker := Some(w.(outbox := w.outbox[1..])), known := Some(Known(snapshot.season, snapshot.hash)),
         current := None, stage := Idle),
      job, Resolved(job, answer.hash, answer.rows)))
  }

  function Closed(s: State): State {
    var settled := SettleAll(s.(closed := true, queue := []), s.queue);
    var rejected := if s.current.Some? then Settle(settled, s.current.value, Rejected) else settled;
    var dropped := FailIfRunning(rejected);
    dropped.(known := None, worker := if dropped.worker.Some? then Some(dropped.worker.value.(alive := false)) else None)
  }

  /** An event that cannot happen in a state leaves it as it is. */
  function Step(s: State, event: Event): State {
    match event
    case Analyze(season, key) =>
      if s.closed || key in s.pending || |s.queue| >= MAX_QUEUED then s else Pumped(Enqueued(s, season, key))
    case Fetched(snapshot) =>
      if !s.stage.Fetching? then s
      else if snapshot.None? || s.closed then Fail(s)
      else s.(stage := Running(snapshot.value, 0), worker := if s.worker.None? then Some(FRESH_WORKER) else s.worker)
    case Send =>
      if !s.stage.Running? || s.current.None? || s.worker.None? then s else
      var all := Messages(s.stage.snapshot, s.current.value);
      if s.stage.sent >= |all| then s else
      s.(stage := s.stage.(sent := s.stage.sent + 1),
         worker := Some(s.worker.value.(inbox := s.worker.value.inbox + [all[s.stage.sent]])))
    case WorkerReads =>
      if s.worker.Some? && s.worker.value.alive && s.worker.value.inbox != [] then s.(worker := Some(Read(s.worker.value))) else s
    case WorkerDies => if s.worker.Some? then s.(worker := Some(s.worker.value.(alive := false))) else s
    case Reply(decodes) =>
      if s.stage.Running? && s.current.Some? && s.worker.Some? && s.worker.value.outbox != [] then Replied(s, decodes) else s
    case SendFails => FailIfRunning(s)
    case TimesOut => FailIfRunning(s)
    case WorkerError => FailIfRunning(s.(known := None))
    case WorkerExit => if s.worker.None? then s else FailIfRunning(s.(known := None, worker := None))
    case Terminated =>
      if s.stage != Failing || s.current.None? then s
      else Pumped(Settle(s.(current := None, stage := Idle), s.current.value, Rejected))
    case Close => Closed(s)
  }

  /** The repository answers for the season asked, with the rows of the hash, or none if the hash is the one known. */
  predicate HonestFetch(data: Data, s: State, event: Event) {
    event.Fetched? && event.snapshot.Some? && s.stage.Fetching? && s.current.Some? ==>
      var snapshot := event.snapshot.value;
      && snapshot.season == s.current.value.season
      && (snapshot.rows.Some? ==> snapshot.rows.value == data(snapshot.season, snapshot.hash))
      && (snapshot.rows.None? ==> s.stage.asked == Some(snapshot.hash))
  }

  function RunAll(events: seq<Event>): State {
    if events == [] then EMPTY else Step(RunAll(events[..|events| - 1]), events[|events| - 1])
  }

  predicate HonestRun(data: Data, events: seq<Event>) {
    events == [] ||
    (HonestRun(data, events[..|events| - 1]) && HonestFetch(data, RunAll(events[..|events| - 1]), events[|events| - 1]))
  }

  // ---- Invariant --------------------------------------------------------------------------------

  /** A cache between jobs is empty or holds a whole snapshot. */
  predicate Whole(data: Data, cache: Option<Cache>) {
    cache.Some? ==> cache.value.rows == data(cache.value.season, cache.value.hash)
  }

  predicate HonestSnapshot(data: Data, job: Job, snapshot: Snapshot) {
    snapshot.season == job.season && (snapshot.rows.Some? ==> snapshot.rows.value == data(snapshot.season, snapshot.hash))
  }

  /** The cache once the worker has read `read` messages of a job. */
  predicate CacheAfter(data: Data, snapshot: Snapshot, read: nat, cache: Option<Cache>) {
    if read == 0 then Whole(data, cache)
    else if snapshot.rows.None? then
      cache.Some? && cache.value.season == snapshot.season && cache.value.hash == snapshot.hash && Whole(data, cache)
    else
      read <= |Chunks(snapshot.rows.value)|
      && cache == Some(Cache(snapshot.season, snapshot.hash, Flatten(Chunks(snapshot.rows.value)[..read])))
  }

  predicate AnswersWhole(data: Data, job: Job, snapshot: Snapshot, outbox: seq<Response>) {
    |outbox| <= 1 &&
    (outbox != [] ==> outbox[0] == Response(job, snapshot.season, snapshot.hash, data(snapshot.season, snapshot.hash)))
  }

  /** Messages read by the worker so far. */
  function ReadCount(stage: Stage, worker: Option<Worker>): int {
    if stage.Running? && worker.Some? then stage.sent - |worker.value.inbox| else 0
  }

  predicate RunningWell(data: Data, job: Job, snapshot: Snapshot, sent: nat, w: Worker) {
    var all := Messages(snapshot, job);
    var read := sent - |w.inbox|;
    && HonestSnapshot(data, job, snapshot)
    && 0 <= read <= sent <= |all| && w.inbox == all[read..sent]
    && AnswersWhole(data, job, snapshot, w.outbox)
    && (w.outbox != [] ==> read == |all|)
    && (w.alive ==> CacheAfter(data, snapshot, read, w.cache))
  }

  predicate RestingWell(data: Data, known: Option<Known>, w: Worker) {
    && w.inbox == [] && w.outbox == []
    && (w.alive ==> Whole(data, w.cache))
    && (w.alive && known.Some? ==> Matches(w.cache, known.value))
  }

  predicate TruthfulOutcomes(data: Data, settled: map<nat, Outcome>) {
    forall id :: id in settled && settled[id].Resolved? ==>
      settled[id].job.id == id && settled[id].rows == data(settled[id].job.season, settled[id].hash)
  }

  /** Until a running job replaces it, the cache is the one the service believes in. */
  predicate BelievedWell(known: Option<Known>, stage: Stage, worker: Option<Worker>) {
    stage.Running? && worker.Some? && worker.value.alive && known.Some? ==>
      (ReadCount(stage, worker) == 0 || stage.snapshot.rows.None? ==> Matches(worker.value.cache, known.value))
  }

  predicate Matches(cache: Option<Cache>, known: Known) {
    cache.Some? && cache.value.season == known.season && cache.value.hash == known.hash
  }

  predicate Sound(data: Data, s: State) {
    && (s.stage.Idle? <==> s.current.None?)
    && (s.known.Some? ==> s.worker.Some?)
    && (s.stage.Running? ==> s.worker.Some?)
    && (s.stage.Running? ==> RunningWell(data, s.current.value, s.stage.snapshot, s.stage.sent, s.worker.value))
    && (!s.stage.Running? && s.worker.Some? ==> RestingWell(data, s.known, s.worker.value))
    && (s.stage.Failing? ==> s.known.None? && s.worker.None?)
    && BelievedWell(s.known, s.stage, s.worker) && TruthfulOutcomes(data, s.settled)
  }

  // ---- Every step keeps it ----------------------------------------------------------------------

  /** Reading the next chunk extends the cache by exactly that chunk. */
  lemma {:induction false} ReadAdvances(data: Data, job: Job, snapshot: Snapshot, read: nat, cache: Option<Cache>)
    requires HonestSnapshot(data, job, snapshot) && CacheAfter(data, snapshot, read, cache)
    requires read < |Messages(snapshot, job)|
    ensures var m := Messages(snapshot, job)[read];
      var next := Accumulate(cache, m);
      && (next.Some? ==> CacheAfter(data, snapshot, read + 1, next))
      && (m.complete <==> read + 1 == |Messages(snapshot, job)|)
      && (next.Some? && m.complete ==> next.value == Cache(snapshot.season, snapshot.hash, data(snapshot.season, snapshot.hash)))
  {
    hide Chunks;
    if snapshot.rows.Some? {
      var rows := snapshot.rows.value;
      var chunks := Chunks(rows);
      ChunksCover(rows);
      assert chunks[..read + 1][..read] == chunks[..read];
      assert Flatten(chunks[..read + 1]) == Flatten(chunks[..read]) + chunks[read].rows;
      assert chunks[..|chunks|] == chunks;
    }
  }

  lemma {:induction false} ReadKeeps(data: Data, job: Job, snapshot: Snapshot, sent: nat, w: Worker)
    requires RunningWell(data, job, snapshot, sent, w) && w.alive && w.inbox != []
    ensures RunningWell(data, job, snapshot, sent, Read(w))
  {
    hide CacheAfter, Messages, Accumulate, HonestSnapshot;
    var read := sent - |w.inbox|;
    assert w.inbox[0] == Messages(snapshot, job)[read];
    ReadAdvances(data, job, snapshot, read, w.cache);
    SeasonOf(snapshot, job, read);
  }

  lemma {:induction false} SeasonOf(snapshot: Snapshot, job: Job, i: nat)
    requires i < |Messages(snapshot, job)|
    ensures Messages(snapshot, job)[i].job == job
  {
  }

  lemma {:induction false} SendKeeps(data: Data, job: Job, snapshot: Snapshot, sent: nat, w: Worker)
    requires RunningWell(data, job, snapshot, sent, w) && sent < |Messages(snapshot, job)|
    ensures RunningWell(data, job, snapshot, sent + 1, w.(inbox := w.inbox + [Messages(snapshot, job)[sent]]))
  {
    hide CacheAfter, Messages, HonestSnapshot;
    var read := sent - |w.inbox|;
    assert w.inbox + [Messages(snapshot, job)[sent]] == Messages(snapshot, job)[read..sent + 1];
  }

  lemma {:induction false} SettleAllTruthful(data: Data, s: State, jobs: seq<Job>)
    requires TruthfulOutcomes(data, s.settled)
    ensures var after := SettleAll(s, jobs);
      TruthfulOutcomes(data, after.settled) && after == s.(settled := after.settled, pending := after.pending)
    decreases |jobs|
  {
    if jobs != [] { SettleAllTruthful(data, Settle(s, jobs[0], Rejected), jobs[1..]); }
  }

  lemma {:induction false} PumpKeeps(data: Data, s: State)
    requires Sound(data, s) && s.stage.Idle?
    ensures Sound(data, Pumped(s))
  {
    hide RestingWell, RunningWell, TruthfulOutcomes;
  }

  lemma {:induction false} FetchedKeeps(data: Data, s: State, snapshot: Option<Snapshot>)
    requires Sound(data, s) && HonestFetch(data, s, Fetched(snapshot))
    ensures Sound(data, Step(s, Fetched(snapshot)))
  {
    hide Chunks, Flatten, TruthfulOutcomes;
  }

  lemma {:induction false} RepliedKeeps(data: Data, s: State, decodes: bool)
    requires Sound(data, s) && s.stage.Running? && s.worker.value.outbox != []
    ensures Sound(data, Replied(s, decodes))
  {
    hide Chunks, Flatten;
    var w, job, snapshot := s.worker.value, s.current.value, s.stage.snapshot;
    if w.alive { WholeAtTheEnd(data, job, snapshot, s.stage.sent, w); }
    if Replied(s, decodes) != Fail(s) {
      PumpKeeps(data, Settle(
        s.(worker := Some(w.(outbox := [])), known := Some(Known(snapshot.season, snapshot.hash)), current := None, stage := Idle),
        job, Resolved(job, snapshot.hash, data(job.season, snapshot.hash))));
    }
  }

  /** A worker that has answered holds the whole snapshot. */
  lemma {:induction false} WholeAtTheEnd(data: Data, job: Job, snapshot: Snapshot, sent: nat, w: Worker)
    requires RunningWell(data, job, snapshot, sent, w) && w.alive && sent - |w.inbox| == |Messages(snapshot, job)|
    ensures w.cache == Some(Cache(snapshot.season, snapshot.hash, data(snapshot.season, snapshot.hash)))
  {
    hide Chunks, Flatten;
    if snapshot.rows.Some? {
      ChunksCover(snapshot.rows.value);
      var chunks := Chunks(snapshot.rows.value);
      assert chunks[..|chunks|] == chunks;
    }
  }

  lemma {:induction false} ClosedKeeps(data: Data, s: State)
    requires Sound(data, s)
    ensures Sound(data, Closed(s))
  {
    hide RunningWell;
    SettleAllTruthful(data, s.(closed := true, queue := []), s.queue);
  }

  lemma {:induction false} StepKeeps(data: Data, s: State, event: Event)
    requires Sound(data, s) && HonestFetch(data, s, event)
    ensures Sound(data, Step(s, event))
  {
    hide RunningWell, Closed, Replied, Read, Messages, Matches, ReadCount;
    match event
    case Analyze(season, key) => if s.stage.Idle? { PumpKeeps(data, Enqueued(s, season, key)); }
    case Fetched(snapshot) => FetchedKeeps(data, s, snapshot);
    case Send =>
      if s.stage.Running? && s.stage.sent < |Messages(s.stage.snapshot, s.current.value)| {
        SendKeeps(data, s.current.value, s.stage.snapshot, s.stage.sent, s.worker.value);
        SendCounts(s);
      }
    case WorkerReads =>
      if s.stage.Running? && s.worker.value.alive && s.worker.value.inbox != [] {
        ReadKeeps(data, s.current.value, s.stage.snapshot, s.stage.sent, s.worker.value);
        ReadBelieves(data, s);
      }
    case WorkerDies =>
      if s.stage.Running? { DeadKeeps(data, s.current.value, s.stage.snapshot, s.stage.sent, s.worker.value); }
    case Reply(decodes) => if s.stage.Running? && s.worker.value.outbox != [] { RepliedKeeps(data, s, decodes); }
    case Terminated =>
      if s.stage == Failing && s.current.Some? {
        PumpKeeps(data, Settle(s.(current := None, stage := Idle), s.current.value, Rejected));
      }
    case Close => ClosedKeeps(data, s);
    case _ =>
  }

  lemma {:induction false} SendCounts(s: State)
    requires s.stage.Running? && s.current.Some? && s.worker.Some?
    ensures ReadCount(Step(s, Send).stage, Step(s, Send).worker) == ReadCount(s.stage, s.worker)
  {
    hide Messages;
  }

  lemma {:induction false} ReadBelieves(data: Data, s: State)
    requires Sound(data, s) && s.stage.Running? && s.worker.value.alive && s.worker.value.inbox != []
    ensures BelievedWell(s.known, s.stage, Some(Read(s.worker.value)))
  {
    hide CacheAfter, AnswersWhole, HonestSnapshot, Chunks;
    var w, all := s.worker.value, Messages(s.stage.snapshot, s.current.value);
    assert w.inbox[0] == all[ReadCount(s.stage, s.worker)];
  }

  lemma {:induction false} DeadKeeps(data: Data, job: Job, snapshot: Snapshot, sent: nat, w: Worker)
    requires RunningWell(data, job, snapshot, sent, w)
    ensures RunningWell(data, job, snapshot, sent, w.(alive := false))
  {
  }

  lemma {:induction false} EveryRunIsSound(data: Data, events: seq<Event>)
    requires HonestRun(data, events)
    ensures Sound(data, RunAll(events))
    decreases |events|
  {
    if events != [] {
      hide Step, Sound, HonestFetch;
      EveryRunIsSound(data, events[..|events| - 1]);
      StepKeeps(data, RunAll(events[..|events| - 1]), events[|events| - 1]);
    }
  }

  /** A resolved job was computed from all rows, in order, of the snapshot whose hash it reports. */
  lemma {:induction false} ResolvedFromWholeSnapshot(data: Data, events: seq<Event>, id: nat)
    requires HonestRun(data, events) && id in RunAll(events).settled && RunAll(events).settled[id].Resolved?
    ensures var outcome := RunAll(events).settled[id];
      outcome.job.id == id && outcome.rows == data(outcome.job.season, outcome.hash)
  {
    EveryRunIsSound(data, events);
  }

  // ---- What the known hash promises -------------------------------------------------------------

  /** The live worker holds the whole snapshot that the service believes it holds. */
  predicate BeliefHolds(data: Data, s: State)
    requires s.known.Some? && s.worker.Some?
  {
    s.worker.value.cache
      == Some(Cache(s.known.value.season, s.known.value.hash, data(s.known.value.season, s.known.value.hash)))
  }

  /** The running job has not yet made the worker replace what it holds, or has completed the same snapshot. */
  predicate Untouched(s: State) {
    !s.stage.Running? || ReadCount(s.stage, s.worker) == 0 || s.stage.snapshot.rows.None?
    || (s.known == Some(Known(s.stage.snapshot.season, s.stage.snapshot.hash))
        && ReadCount(s.stage, s.worker) == |Chunks(s.stage.snapshot.rows.value)|)
  }

  /** The belief about a live worker holds exactly then. */
  lemma {:induction false} BeliefExactly(data: Data, s: State)
    requires Sound(data, s) && s.known.Some? && s.worker.Some? && s.worker.value.alive
    ensures BeliefHolds(data, s) <==> Untouched(s)
  {
    hide Chunks, Flatten, Messages;
    if s.stage.Running? && ReadCount(s.stage, s.worker) > 0 && s.stage.snapshot.rows.Some? {
      var rows := s.stage.snapshot.rows.value;
      PrefixIsShorter(rows, ReadCount(s.stage, s.worker));
      ChunksCover(rows);
      assert Chunks(rows)[..|Chunks(rows)|] == Chunks(rows);
    }
  }

  /** With no job running it always holds. */
  lemma {:induction false} BeliefHoldsBetweenJobs(data: Data, events: seq<Event>)
    requires HonestRun(data, events)
    requires var s := RunAll(events); s.known.Some? && s.worker.Some? && s.worker.value.alive && !s.stage.Running?
    ensures BeliefHolds(data, RunAll(events))
  {
    EveryRunIsSound(data, events);
    BeliefExactly(data, RunAll(events));
  }

  /** A season without any rows. */
  function NoRows(): Data {
    (_, _) => []
  }

  lemma {:induction false} OneMore(events: seq<Event>, event: Event)
    ensures RunAll(events + [event]) == Step(RunAll(events), event)
    ensures HonestRun(NoRows(), events + [event]) <==> HonestRun(NoRows(), events) && HonestFetch(NoRows(), RunAll(events), event)
  {
    assert (events + [event])[..|events|] == events;
  }

  const FIRST_SEASON := [Analyze(1, "a"), Fetched(Some(Snapshot(1, "x", Some([])))), Send, WorkerReads, Reply(true)]

  function AfterFirstSeason(): State {
    State([], map[], Some(Worker(true, Some(Cache(1, "x", [])), [], [])), Some(Known(1, "x")), None, Idle, false, 1,
      map[0 := Resolved(Job(0, 1, "a"), "x", [])])
  }

  lemma {:induction false} OneEmptyChunk(snapshot: Snapshot, job: Job)
    requires snapshot.rows == Some([])
    ensures Messages(snapshot, job) == [Message(snapshot.season, snapshot.hash, Some([]), job, false, true)]
  {
  }

  lemma {:induction false} FirstSeasonRuns()
    ensures RunAll(FIRST_SEASON) == AfterFirstSeason() && HonestRun(NoRows(), FIRST_SEASON)
  {
    hide Messages, RunAll, HonestRun;
    var e := FIRST_SEASON;
    var job, snapshot := Job(0, 1, "a"), Snapshot(1, "x", Some([]));
    OneEmptyChunk(snapshot, job);
    RunNothing();
    forall k | 0 <= k < |e|
      ensures RunAll(e[..k + 1]) == Step(RunAll(e[..k]), e[k])
      ensures HonestRun(NoRows(), e[..k + 1]) <==> HonestRun(NoRows(), e[..k]) && HonestFetch(NoRows(), RunAll(e[..k]), e[k])
    {
      OneMore(e[..k], e[k]);
      assert e[..k + 1] == e[..k] + [e[k]];
    }
    assert e[..0] == [] && e[..5] == e;
    assert RunAll(e[..1]) == Step(RunAll(e[..0]), e[0]) && RunAll(e[..2]) == Step(RunAll(e[..1]), e[1]);
    assert RunAll(e[..3]) == Step(RunAll(e[..2]), e[2]) && RunAll(e[..4]) == Step(RunAll(e[..3]), e[3]);
    assert RunAll(e[..5]) == Step(RunAll(e[..4]), e[4]);
    var s2 := State([], map["a" := 0], Some(FRESH_WORKER), None, Some(job), Running(snapshot, 0), false, 1, map[]);
    assert Step(Step(EMPTY, e[0]), e[1]) == s2;
    ReadsOne(s2);
    FirstAnswer();
  }

  lemma {:induction false} FirstAnswer()
    ensures var job := Job(0, 1, "a");
      Step(State([], map["a" := 0], Some(Worker(true, Some(Cache(1, "x", [])), [], [Response(job, 1, "x", [])])), None,
        Some(job), Running(Snapshot(1, "x", Some([])), 1), false, 1, map[]), Reply(true)) == AfterFirstSeason()
  {
    var pending: map<string, nat> := map["a" := 0];
    assert pending - {"a"} == map[];
    assert [Response(Job(0, 1, "a"), 1, "x", [])][1..] == [];
  }

  lemma {:induction false} RunNothing()
    ensures RunAll([]) == EMPTY && HonestRun(NoRows(), [])
  {
  }

  /** A season without rows is read in one message. */
  lemma {:induction false} ReadsOne(s: State)
    requires s.stage.Running? && s.current.Some? && s.stage.sent == 0 && s.stage.snapshot.rows == Some([])
    requires s.worker.Some? && s.worker.value.alive && s.worker.value.inbox == [] && s.worker.value.outbox == []
    ensures var snapshot := s.stage.snapshot;
      Step(Step(s, Send), WorkerReads) == s.(stage := Running(snapshot, 1),
        worker := Some(Worker(true, Some(Cache(snapshot.season, snapshot.hash, [])), [],
          [Response(s.current.value, snapshot.season, snapshot.hash, [])])))
  {
    hide Messages;
    var snapshot, job := s.stage.snapshot, s.current.value;
    OneEmptyChunk(snapshot, job);
    var m := Message(snapshot.season, snapshot.hash, Some([]), job, false, true);
    assert s.worker.value.inbox + [Messages(snapshot, job)[0]] == [m];
    var sent := Step(s, Send);
    assert sent == s.(stage := Running(snapshot, 1), worker := Some(s.worker.value.(inbox := [m])));
    var base: seq<Row> := [];
    assert base + base == base;
    var answer := Response(job, snapshot.season, snapshot.hash, []);
    assert [m][1..] == [] && s.worker.value.outbox + [answer] == [answer];
    assert Accumulate(sent.worker.value.cache, m) == Some(Cache(snapshot.season, snapshot.hash, []));
  }

  /** The next job of another season replaces the cache while the service still believes in the old one. */
  lemma {:induction false} BeliefCanFail()
    ensures var events := FIRST_SEASON + [Analyze(2, "b")] + [Fetched(Some(Snapshot(2, "y", Some([]))))] + [Send] + [WorkerReads];
      var s := RunAll(events);
      && HonestRun(NoRows(), events) && s.known.Some? && s.worker.Some? && s.worker.value.alive
      && !BeliefHolds(NoRows(), s)
  {
    hide Messages, RunAll, HonestRun;
    FirstSeasonRuns();
    var job, snapshot := Job(1, 2, "b"), Snapshot(2, "y", Some([]));
    OneEmptyChunk(snapshot, job);
    var e1 := FIRST_SEASON + [Analyze(2, "b")];
    var e2 := e1 + [Fetched(Some(snapshot))];
    OneMore(FIRST_SEASON, Analyze(2, "b"));
    OneMore(e1, Fetched(Some(snapshot)));
    OneMore(e2, Send);
    OneMore(e2 + [Send], WorkerReads);
    ReadsOne(AfterFirstSeason().(pending := map["b" := 1], nextId := 2, current := Some(job), stage := Running(snapshot, 0)));
  }

  // ---- Every request is accounted for -----------------------------------------------------------

  /** The jobs not yet done, in the order of their requests. */
  function Line(s: State): seq<Job> {
    (if s.current.Some? then [s.current.value] else []) + s.queue
  }

  predicate AmongIds(jobs: seq<Job>, id: nat) {
    exists i :: 0 <= i < |jobs| && jobs[i].id == id
  }

  predicate AmongKeys(jobs: seq<Job>, key: string) {
    exists i :: 0 <= i < |jobs| && jobs[i].key == key
  }

  /** Identifiers are given in order and once. */
  predicate InOrder(line: seq<Job>, nextId: nat) {
    && (forall i, j :: 0 <= i < j < |line| ==> line[i].id < line[j].id)
    && (forall i :: 0 <= i < |line| ==> line[i].id < nextId)
  }

  /** The promises settled are those given out whose jobs are no longer in line. */
  ghost predicate SettledOutside(line: seq<Job>, settled: map<nat, Outcome>, nextId: nat) {
    forall id: nat :: id in settled <==> id < nextId && !AmongIds(line, id)
  }

  /** The keys pending are those of the line, each with the identifier of its job. */
  predicate PendingLine(line: seq<Job>, pending: map<string, nat>) {
    && (forall i :: 0 <= i < |line| ==> line[i].key in pending && pending[line[i].key] == line[i].id)
    && (forall key :: key in pending ==> AmongKeys(line, key))
  }

  /** Closing settles every promise at once. */
  ghost predicate Accounts(line: seq<Job>, s: State) {
    && InOrder(line, s.nextId)
    && SettledOutside(if s.closed then [] else line, s.settled, s.nextId)
    && PendingLine(if s.closed then [] else line, s.pending)
  }

  ghost predicate Accounted(s: State) {
    && Accounts(Line(s), s) && |s.queue| <= MAX_QUEUED && (s.closed ==> s.queue == [])
    && (s.queue != [] ==> s.current.Some?)
    && (s.stage.Idle? <==> s.current.None?)
  }

  lemma {:induction false} SettleHead(line: seq<Job>, settled: map<nat, Outcome>, nextId: nat, outcome: Outcome)
    requires line != [] && InOrder(line, nextId) && SettledOutside(line, settled, nextId)
    ensures line[0].id !in settled
    ensures InOrder(line[1..], nextId) && SettledOutside(line[1..], settled[line[0].id := outcome], nextId)
  {
    assert AmongIds(line, line[0].id);
    forall id: nat ensures AmongIds(line, id) <==> id == line[0].id || AmongIds(line[1..], id) {
      if AmongIds(line, id) && id != line[0].id {
        var i :| 0 <= i < |line| && line[i].id == id;
        assert line[1..][i - 1].id == id;
      }
    }
  }

  lemma {:induction false} ForgetHead(line: seq<Job>, pending: map<string, nat>, nextId: nat)
    requires line != [] && InOrder(line, nextId) && PendingLine(line, pending)
    ensures line[0].key in pending && pending[line[0].key] == line[0].id
    ensures PendingLine(line[1..], pending - {line[0].key})
  {
    forall i | 0 <= i < |line[1..]| ensures line[1..][i].key in pending && line[1..][i].key != line[0].key {
      assert line[1..][i] == line[i + 1];
    }
    forall key | key in pending - {line[0].key} ensures AmongKeys(line[1..], key) {
      var i :| 0 <= i < |line| && line[i].key == key;
      assert line[1..][i - 1].key == key;
    }
  }

  lemma {:induction false} JoinLine(line: seq<Job>, settled: map<nat, Outcome>, pending: map<string, nat>, job: Job)
    requires InOrder(line, job.id) && SettledOutside(line, settled, job.id)
    requires PendingLine(line, pending) && job.key !in pending
    ensures InOrder(line + [job], job.id + 1) && SettledOutside(line + [job], settled, job.id + 1)
    ensures PendingLine(line + [job], pending[job.key := job.id])
  {
    var longer := line + [job];
    assert longer[|line|] == job;
    forall id: nat ensures AmongIds(longer, id) <==> id == job.id || AmongIds(line, id) {
      if AmongIds(line, id) {
        var i :| 0 <= i < |line| && line[i].id == id;
        assert longer[i].id == id;
      }
    }
    forall key | AmongKeys(line, key) ensures AmongKeys(longer, key) {
      var i :| 0 <= i < |line| && line[i].key == key;
      assert longer[i].key == key;
    }
  }

  /** An idle service starts its first job: the line stays. */
  lemma {:induction false} PumpAccounts(s: State)
    requires s.stage.Idle? && s.current.None? && (s.closed ==> s.queue == [])
    requires |s.queue| <= MAX_QUEUED && Accounts(Line(s), s)
    ensures Line(Pumped(s)) == Line(s) && Accounted(Pumped(s))
  {
    hide Accounts;
    assert Line(Pumped(s)) == Line(s);
    AccountsFrame(Line(s), s, Pumped(s));
  }

  lemma {:induction false} AccountsFrame(line: seq<Job>, s: State, after: State)
    requires Accounts(line, s)
    requires after.settled == s.settled && after.pending == s.pending && after.nextId == s.nextId && after.closed == s.closed
    ensures Accounts(line, after)
  {
  }

  /** The job at the head of the line once its outcome is known. */
  function Ended(s: State, worker: Option<Worker>, known: Option<Known>, outcome: Outcome): State
    requires s.current.Some?
  {
    Settle(s.(worker := worker, known := known, current := None, stage := Idle), s.current.value, outcome)
  }

  lemma {:induction false} EndAccounts(s: State, worker: Option<Worker>, known: Option<Known>, outcome: Outcome)
    requires Accounted(s) && s.current.Some?
    ensures var ended, job := Ended(s, worker, known, outcome), s.current.value;
      && ended == s.(worker := worker, known := known, current := None, stage := Idle,
           settled := if s.closed then s.settled else s.settled[job.id := outcome],
           pending := if s.closed then s.pending else s.pending - {job.key})
      && (s.closed ==> job.id in s.settled)
      && Line(ended) == Line(s)[1..] && Line(s)[0] == job && Accounts(Line(ended), ended)
  {
    hide InOrder, SettledOutside, PendingLine;
    var job := s.current.value;
    assert Line(s)[0] == job && Line(s)[1..] == s.queue;
    if s.closed {
      NothingPending(s);
      assert s.queue == [];
    } else {
      SettleHead(Line(s), s.settled, s.nextId, outcome);
      ForgetHead(Line(s), s.pending, s.nextId);
    }
    assert Line(Ended(s, worker, known, outcome)) == s.queue;
    EmptyInOrder(s.nextId);
  }

  lemma {:induction false} EmptyInOrder(nextId: nat)
    ensures InOrder([], nextId)
  {
  }

  lemma {:induction false} NothingPending(s: State)
    requires Accounted(s) && s.closed
    ensures s.pending == map[] && (s.current.Some? ==> s.current.value.id in s.settled)
    ensures forall id: nat :: id in s.settled <==> id < s.nextId
  {
    assert forall key :: key !in s.pending;
    if s.current.Some? { assert Line(s)[0] == s.current.value; }
  }

  predicate Covers(jobs: seq<Job>, key: string, id: nat) {
    exists i :: 0 <= i < |jobs| && jobs[i].key == key && jobs[i].id == id
  }

  /** Rejecting jobs settles those still open and forgets their keys. */
  lemma {:induction false} SettleAllExactly(s: State, jobs: seq<Job>)
    ensures var after := SettleAll(s, jobs);
      && after == s.(settled := after.settled, pending := after.pending)
      && (forall id :: id in after.settled <==> id in s.settled || AmongIds(jobs, id))
      && (forall id :: id in after.settled ==>
            after.settled[id] == if id in s.settled then s.settled[id] else Rejected)
      && (forall key :: key in after.pending <==> key in s.pending && !Covers(jobs, key, s.pending[key]))
      && (forall key :: key in after.pending ==> after.pending[key] == s.pending[key])
    decreases |jobs|
  {
    if jobs != [] {
      var next := Settle(s, jobs[0], Rejected);
      SettleAllExactly(next, jobs[1..]);
      forall id ensures AmongIds(jobs, id) <==> jobs[0].id == id || AmongIds(jobs[1..], id) {
        if AmongIds(jobs, id) && jobs[0].id != id {
          var i :| 0 <= i < |jobs| && jobs[i].id == id;
          assert jobs[1..][i - 1].id == id;
        }
      }
      forall key, id ensures Covers(jobs, key, id) <==> (jobs[0].key == key && jobs[0].id == id) || Covers(jobs[1..], key, id) {
        if Covers(jobs, key, id) && !(jobs[0].key == key && jobs[0].id == id) {
          var i :| 0 <= i < |jobs| && jobs[i].key == key && jobs[i].id == id;
          assert jobs[1..][i - 1].key == key && jobs[1..][i - 1].id == id;
        }
      }
    }
  }

  lemma {:induction false} CloseAccounts(s: State)
    requires Accounted(s)
    ensures Accounted(Closed(s))
    ensures Closed(s).pending == map[] && (forall id: nat :: id in Closed(s).settled <==> id < s.nextId)
  {
    hide Settle, SettleAll, InOrder, PendingLine, SettledOutside;
    var emptied, last := s.(closed := true, queue := []), if s.current.Some? then s.current.value else Job(0, 0, "");
    SettleAllExactly(emptied, s.queue);
    SettleExactly(SettleAll(emptied, s.queue), last, Rejected);
    if s.closed { NothingPending(s); } else { AllSettled(s); NonePending(s); }
    var after := Closed(s);
    assert Line(after) == if s.current.Some? then [last] else [];
    assert s.current.Some? ==> Line(s)[0] == last;
    HeadInOrder(Line(s), Line(after), s.nextId);
    assert forall id: nat :: !AmongIds([], id);
    assert SettledOutside([], after.settled, after.nextId) by { EmptySettled(after.settled, after.nextId); }
  }

  lemma {:induction false} HeadInOrder(line: seq<Job>, head: seq<Job>, nextId: nat)
    requires InOrder(line, nextId) && (head == [] || (line != [] && head == [line[0]]))
    ensures InOrder(head, nextId) && PendingLine([], map[])
  {
  }

  lemma {:induction false} EmptySettled(settled: map<nat, Outcome>, nextId: nat)
    requires forall id: nat :: id in settled <==> id < nextId
    ensures SettledOutside([], settled, nextId)
  {
  }

  /** Every identifier given out is settled, in the queue or that of the current job. */
  lemma {:induction false} AllSettled(s: State)
    requires Accounted(s) && !s.closed
    ensures forall id: nat :: id < s.nextId <==>
      id in s.settled || AmongIds(s.queue, id) || (s.current.Some? && s.current.value.id == id)
  {
    forall id: nat ensures AmongIds(Line(s), id) <==> AmongIds(s.queue, id) || (s.current.Some? && s.current.value.id == id) {
      var k := |Line(s)| - |s.queue|;
      if AmongIds(Line(s), id) {
        var i :| 0 <= i < |Line(s)| && Line(s)[i].id == id;
        if i >= k { assert s.queue[i - k].id == id; }
      }
      if AmongIds(s.queue, id) {
        var i :| 0 <= i < |s.queue| && s.queue[i].id == id;
        assert Line(s)[k + i].id == id;
      }
      if s.current.Some? { assert Line(s)[0] == s.current.value; }
    }
    forall id: nat | AmongIds(Line(s), id) ensures id < s.nextId {
      var i :| 0 <= i < |Line(s)| && Line(s)[i].id == id;
    }
  }

  predicate CoveredBy(s: State, key: string, id: nat) {
    Covers(s.queue, key, id) || (s.current.Some? && s.current.value.key == key && s.current.value.id == id)
  }

  lemma {:induction false} NonePending(s: State)
    requires Accounted(s) && !s.closed
    ensures forall key :: key in s.pending ==> Covers(Line(s), key, s.pending[key])
    ensures forall key, id :: Covers(Line(s), key, id) ==> CoveredBy(s, key, id)
  {
    var k := |Line(s)| - |s.queue|;
    forall key, id | Covers(Line(s), key, id) ensures CoveredBy(s, key, id) {
      var i :| 0 <= i < |Line(s)| && Line(s)[i].key == key && Line(s)[i].id == id;
      if i >= k { assert s.queue[i - k].key == key && s.queue[i - k].id == id; }
    }
    forall key | key in s.pending ensures Covers(Line(s), key, s.pending[key]) {
      var i :| 0 <= i < |Line(s)| && Line(s)[i].key == key;
      assert Line(s)[i].id == s.pending[key];
    }
  }

  lemma {:induction false} SettleExactly(s: State, job: Job, outcome: Outcome)
    ensures var after := Settle(s, job, outcome);
      && after == s.(settled := after.settled, pending := after.pending)
      && (forall id :: id in after.settled <==> id in s.settled || id == job.id)
      && (forall id :: id in after.settled ==>
            after.settled[id] == if id in s.settled then s.settled[id] else outcome)
      && (forall key :: key in after.pending <==> key in s.pending && !(key == job.key && s.pending[key] == job.id))
      && (forall key :: key in after.pending ==> after.pending[key] == s.pending[key])
  {
  }

  lemma {:induction false} AskAccounts(s: State, season: nat, key: string)
    requires Accounted(s)
    ensures Accounted(Step(s, Analyze(season, key)))
  {
    hide InOrder, SettledOutside, PendingLine;
    if !s.closed && key !in s.pending && |s.queue| < MAX_QUEUED {
      var added := Enqueued(s, season, key);
      assert Line(added) == Line(s) + [Job(s.nextId, season, key)];
      JoinLine(Line(s), s.settled, s.pending, Job(s.nextId, season, key));
      if s.current.None? { PumpAccounts(added); }
    }
  }

  lemma {:induction false} StepAccounts(s: State, event: Event)
    requires Accounted(s)
    ensures Accounted(Step(s, event))
  {
    hide Accounts, Settle, Closed, Messages, Read, Pumped;
    match event
    case Analyze(season, key) => AskAccounts(s, season, key);
    case Close => CloseAccounts(s);
    case Reply(decodes) => ReplyAccounts(s, decodes);
    case Terminated =>
      if s.stage == Failing && s.current.Some? {
        EndAccounts(s, s.worker, s.known, Rejected);
        PumpAccounts(Ended(s, s.worker, s.known, Rejected));
      }
    case _ => SameLine(s, Step(s, event));
  }

  lemma {:induction false} ReplyAccounts(s: State, decodes: bool)
    requires Accounted(s)
    ensures Accounted(Step(s, Reply(decodes)))
  {
    hide Accounts, Settle, Pumped;
    if s.stage.Running? && s.worker.Some? && s.worker.value.outbox != [] {
      var w, job, snapshot := s.worker.value, s.current.value, s.stage.snapshot;
      var left, known := Some(w.(outbox := w.outbox[1..])), Some(Known(snapshot.season, snapshot.hash));
      var outcome := Resolved(job, w.outbox[0].hash, w.outbox[0].rows);
      EndAccounts(s, left, known, outcome);
      PumpAccounts(Ended(s, left, known, outcome));
      SameLine(s, Fail(s));
    }
  }

  lemma {:induction false} SameLine(s: State, after: State)
    requires Accounted(s)
    requires after == s.(stage := after.stage, worker := after.worker, known := after.known)
    requires after.stage.Idle? <==> s.stage.Idle?
    ensures Accounted(after)
  {
    hide Accounts;
    assert Line(after) == Line(s);
    AccountsFrame(Line(s), s, after);
  }

  /** In every interleaving each identifier given out is settled or in line, never both while the service is open. */
  lemma {:induction false} EveryRequestIsAccounted(events: seq<Event>)
    ensures Accounted(RunAll(events))
    decreases |events|
  {
    if events != [] {
      hide Step, Accounted;
      EveryRequestIsAccounted(events[..|events| - 1]);
      StepAccounts(RunAll(events[..|events| - 1]), events[|events| - 1]);
    }
  }

  // ---- What one event does ----------------------------------------------------------------------

  /** A request is refused exactly when closed, already pending or the queue is full; others join the end of the line. */
  lemma {:induction false} AskExactly(s: State, season: nat, key: string)
    requires Accounted(s)
    ensures var after := Step(s, Analyze(season, key));
      if s.closed || key in s.pending || |s.queue| >= 16 then after == s
      else
        && Line(after) == Line(s) + [Job(s.nextId, season, key)]
        && after.nextId == s.nextId + 1 && after.pending == s.pending[key := s.nextId]
        && after.settled == s.settled && after.worker == s.worker && after.known == s.known && !after.closed
        && (s.current.Some? ==> after.current == s.current && after.stage == s.stage)
        && (s.current.None? ==> after.current == Some(Job(s.nextId, season, key)) && after.stage.Fetching?)
  {
    hide Accounts;
    var added := Enqueued(s, season, key);
    assert s.current.None? ==> s.queue == [] && added.queue == [Job(s.nextId, season, key)];
    assert Line(Pumped(added)) == Line(s) + [Job(s.nextId, season, key)];
  }

  lemma {:induction false} PumpedKeeps(s: State)
    ensures var after := Pumped(s);
      Line(after) == Line(s) && after == s.(queue := after.queue, current := after.current, stage := after.stage)
  {
    assert Line(Pumped(s)) == Line(s);
  }

  /** A job that starts asks the repository with the known hash exactly when that is a hash of its own season. */
  lemma {:induction false} AskedExactly(s: State, hash: string)
    requires s.current.None? && !s.closed && s.queue != []
    ensures var after := Pumped(s);
      && after.current == Some(s.queue[0]) && after.queue == s.queue[1..]
      && after.stage.Fetching? && (after.stage.asked == Some(hash) <==> s.known == Some(Known(s.queue[0].season, hash)))
      && after == s.(queue := after.queue, current := after.current, stage := after.stage)
  {
  }

  predicate Answers(answer: Response, job: Job, snapshot: Snapshot) {
    answer.job == job && answer.season == job.season && answer.hash == snapshot.hash
  }

  /** A matching answer resolves the job, records the hash and moves the line; any other loses the worker. */
  lemma {:induction false} ReplyExactly(s: State, decodes: bool)
    requires Accounted(s) && !s.closed && s.stage.Running? && s.worker.Some? && s.worker.value.outbox != []
    ensures var after, job := Step(s, Reply(decodes)), s.current.value;
      var answer := s.worker.value.outbox[0];
      if decodes && Answers(answer, job, s.stage.snapshot) then
        && Line(after) == Line(s)[1..]
        && after.settled == s.settled[job.id := Resolved(job, answer.hash, answer.rows)]
        && after.pending == s.pending - {job.key}
        && after.known == Some(Known(s.stage.snapshot.season, answer.hash))
        && after.worker == Some(s.worker.value.(outbox := s.worker.value.outbox[1..]))
      else after == s.(stage := Failing, known := None, worker := None)
  {
    hide Accounts, Settle, Pumped;
    var job, w, snapshot := s.current.value, s.worker.value, s.stage.snapshot;
    var left, known := Some(w.(outbox := w.outbox[1..])), Some(Known(snapshot.season, snapshot.hash));
    var outcome := Resolved(job, w.outbox[0].hash, w.outbox[0].rows);
    EndAccounts(s, left, known, outcome);
    PumpedKeeps(Ended(s, left, known, outcome));
  }

  /** An honest answer that decodes resolves its job with all rows of the snapshot. */
  lemma {:induction false} HonestReplyResolves(data: Data, s: State)
    requires Sound(data, s) && Accounted(s) && !s.closed
    requires s.stage.Running? && s.worker.value.outbox != []
    ensures var after, job, snapshot := Step(s, Reply(true)), s.current.value, s.stage.snapshot;
      && job.id in after.settled
      && after.settled[job.id] == Resolved(job, snapshot.hash, data(job.season, snapshot.hash))
      && after.known == Some(Known(job.season, snapshot.hash))
  {
    hide Step, Accounted, Messages, CacheAfter;
    ReplyExactly(s, true);
  }

  /** Losing the worker leaves the promise open; its end rejects the job and moves the line. */
  lemma {:induction false} TerminatedExactly(s: State)
    requires Accounted(s) && s.stage.Failing?
    ensures var after, job := Step(s, Terminated), s.current.value;
      && Line(after) == Line(s)[1..] && job.id in after.settled
      && after.settled == (if s.closed then s.settled else s.settled[job.id := Rejected])
      && after.pending == (if s.closed then s.pending else s.pending - {job.key})
      && after.known == s.known && after.worker == s.worker
  {
    hide Accounts, Settle, Pumped;
    EndAccounts(s, s.worker, s.known, Rejected);
    PumpedKeeps(Ended(s, s.worker, s.known, Rejected));
  }

  predicate LosesJob(event: Event) {
    event.SendFails? || event.TimesOut? || event.WorkerError? || event.WorkerExit?
  }

  /** A failure loses the worker exactly while a job runs; an exit or an error forgets the known hash in any case. */
  lemma {:induction false} LossExactly(s: State, event: Event)
    requires LosesJob(event) && (event.WorkerExit? ==> s.worker.Some?)
    ensures var after := Step(s, event);
      && (s.stage.Running? ==> after == s.(stage := Failing, known := None, worker := None))
      && (!s.stage.Running? ==> after == s.(
            known := if event.SendFails? || event.TimesOut? then s.known else None,
            worker := if event.WorkerExit? then None else s.worker))
  {
  }

  /** Closing rejects every open promise, empties the line behind the current job and stops the worker. */
  lemma {:induction false} CloseExactly(s: State)
    requires Accounted(s)
    ensures var after := Step(s, Close);
      && after.closed && after.queue == [] && after.pending == map[] && after.current == s.current && after.known == None
      && after.nextId == s.nextId && (forall id: nat :: id in after.settled <==> id < s.nextId)
      && (forall id :: id in after.settled ==>
            after.settled[id] == if id in s.settled then s.settled[id] else Rejected)
      && after.stage == (if s.stage.Running? then Failing else s.stage)
      && after.worker == (if s.stage.Running? || s.worker.None? then None else Some(s.worker.value.(alive := false)))
  {
    hide Settle, SettleAll, Accounts;
    var emptied := s.(closed := true, queue := []);
    CloseAccounts(s);
    SettleAllExactly(emptied, s.queue);
    SettleExactly(SettleAll(emptied, s.queue), if s.current.Some? then s.current.value else Job(0, 0, ""), Rejected);
  }

  predicate Holds(w: Worker, m: Message) {
    w.cache.Some? && w.cache.value.season == m.season && w.cache.value.hash == m.hash
  }

  /** The handler throws exactly when it must extend or reuse a snapshot that is not the one it holds. */
  lemma {:induction false} ReadExactly(w: Worker)
    requires w.inbox != [] && w.alive
    ensures var after, m := Read(w), w.inbox[0];
      && after.inbox == w.inbox[1..]
      && (after.alive <==> Holds(w, m) || (m.rows.Some? && !m.append))
      && (!after.alive ==> after.cache == w.cache && after.outbox == w.outbox)
      && (after.alive ==>
            && after.cache == Some(Cache(m.season, m.hash, after.cache.value.rows))
            && after.cache.value.rows == (if m.rows.None? then w.cache.value.rows
                 else if m.append then w.cache.value.rows + m.rows.value else m.rows.value)
            && after.outbox == w.outbox + (if m.complete then [Response(m.job, m.season, m.hash, after.cache.value.rows)] else []))
  {
    var m := w.inbox[0];
    if m.rows.Some? && !m.append {
      var none: seq<Row> := [];
      assert none + m.rows.value == m.rows.value;
    }
    assert !m.complete ==> w.outbox + [] == w.outbox;
  }

  // ---- The service itself -----------------------------------------------------------------------

  class Service {
    var queue: seq<Job>
    var pending: map<string, nat>
    var worker: Option<Worker>
    var known: Option<Known>
    var current: Option<Job>
    var stage: Stage
    var closed: bool
    var nextId: nat
    var settled: map<nat, Outcome>

    function Now(): State
      reads this
    {
      State(queue, pending, worker, known, current, stage, closed, nextId, settled)
    }

    constructor ()
      ensures Now() == EMPTY
    {
      queue, pending, worker, known, current := [], map[], None, None, None;
      stage, closed, nextId, settled := Idle, false, 0, map[];
    }

    /** Join the running request, refuse, or queue a new job. */
    method RequestAnalysis(season: nat, key: string) returns (id: Option<nat>)
      modifies this
      ensures Now() == Step(old(Now()), Analyze(season, key))
      ensures id == if old(closed) then None
        else if key in old(pending) then Some(old(pending)[key])
        else if |old(queue)| >= MAX_QUEUED then None else Some(old(nextId))
    {
      if closed { return None; }
      if key in pending { return Some(pending[key]); }
      if |queue| >= MAX_QUEUED { return None; }
      var job := Job(nextId, season, key);
      nextId := nextId + 1;
      queue := queue + [job];
      pending := pending[key := job.id];
      Pump();
      return Some(job.id);
    }

    method Pump()
      modifies this
      ensures Now() == Pumped(old(Now()))
    {
      if current.Some? || closed || |queue| == 0 { return; }
      var job := queue[0];
      queue := queue[1..];
      current := Some(job);
      stage := Fetching(if known.Some? && known.value.season == job.season then Some(known.value.hash) else None);
    }

    method SettleJob(job: Job, outcome: Outcome)
      modifies this`settled, this`pending
      ensures Now() == Settle(old(Now()), job, outcome)
    {
      if job.id !in settled { settled := settled[job.id := outcome]; }
      if job.key in pending && pending[job.key] == job.id { pending := pending - {job.key}; }
    }

    /** The run starts on the worker at hand, or on a new one. */
    method OnFetched(snapshot: Option<Snapshot>)
      requires stage.Fetching?
      modifies this
      ensures Now() == Step(old(Now()), Fetched(snapshot))
    {
      if snapshot.None? || closed { Lose(); return; }
      if worker.None? { worker := Some(FRESH_WORKER); }
      stage := Running(snapshot.value, 0);
    }

    method SendNext()
      requires stage.Running? && current.Some? && worker.Some?
      modifies this
      ensures Now() == Step(old(Now()), Send)
    {
      hide Messages;
      var all := Messages(stage.snapshot, current.value);
      if stage.sent < |all| {
        worker := Some(worker.value.(inbox := worker.value.inbox + [all[stage.sent]]));
        stage := Running(stage.snapshot, stage.sent + 1);
      }
    }

    method Lose()
      modifies this`stage, this`known, this`worker
      ensures Now() == Fail(old(Now()))
    {
      known := None;
      worker := None;
      stage := Failing;
    }

    /** Accept the answer only for this job and this snapshot. */
    method OnReply(decodes: bool)
      requires stage.Running? && current.Some? && worker.Some? && worker.value.outbox != []
      modifies this
      ensures Now() == Step(old(Now()), Reply(decodes))
    {
      var job, snapshot, answer := current.value, stage.snapshot, worker.value.outbox[0];
      if !decodes || answer.job != job || answer.season != job.season || answer.hash != snapshot.hash { Lose(); return; }
      worker := Some(worker.value.(outbox := worker.value.outbox[1..]));
      known := Some(Known(snapshot.season, snapshot.hash));
      SettleJob(job, Resolved(job, answer.hash, answer.rows));
      current, stage := None, Idle;
      Pump();
    }

    method OnTimeout()
      modifies this
      ensures Now() == Step(old(Now()), TimesOut)
    {
      if stage.Running? { Lose(); }
    }

    method OnWorkerError()
      modifies this
      ensures Now() == Step(old(Now()), WorkerError)
    {
      known := None;
      if stage.Running? { Lose(); }
    }

    method OnWorkerExit()
      requires worker.Some?
      modifies this
      ensures Now() == Step(old(Now()), WorkerExit)
    {
      worker, known := None, None;
      if stage.Running? { Lose(); }
    }

    /** The lost worker has stopped: the job is rejected and the next one starts. */
    method OnTerminated()
      requires stage == Failing && current.Some?
      modifies this
      ensures Now() == Step(old(Now()), Terminated)
    {
      SettleJob(current.value, Rejected);
      current, stage := None, Idle;
      Pump();
    }

    method Shutdown()
      modifies this
      ensures Now() == Step(old(Now()), Close)
    {
      hide Settle, SettleAll;
      var jobs := queue;
      closed, queue := true, [];
      RejectAll(jobs);
      if current.Some? { SettleJob(current.value, Rejected); }
      if stage.Running? { Lose(); }
      if worker.Some? { worker := Some(worker.value.(alive := false)); }
      known := None;
    }

    method RejectAll(jobs: seq<Job>)
      modifies this`settled, this`pending
      ensures Now() == SettleAll(old(Now()), jobs)
    {
      hide Settle;
      ghost var before := Now();
      for i := 0 to |jobs|
        invariant SettleAll(Now(), jobs[i..]) == SettleAll(before, jobs)
      {
        assert jobs[i..][1..] == jobs[i + 1..] && jobs[i..][0] == jobs[i];
        SettleJob(jobs[i], Rejected);
      }
    }
  }
}
