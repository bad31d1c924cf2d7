/** A bounded pool of computation workers under every interleaving of its callbacks. */
module ComputationPool {
  import opened Wrappers

  datatype Job = Job(id: nat, kind: string)

  /** A worker thread, the job it runs, and whether its timer is set. */
  datatype Slot = Slot(worker: nat, job: Option<Job>, timer: bool)

  datatype Reason = Cancelled | TimedOut | WorkerFailed | Unexpected | NotSent | NotStarted | PoolClosed | Reported

  datatype Outcome = Resolved(kind: string) | Rejected(reason: Reason)

  /** `starts` says which attempts to start a worker succeed. */
  datatype Limits = Limits(concurrency: nat, maxQueued: nat, starts: nat -> bool)

  /**
   * `gone` are the slots that left the set while their worker may still call back, `settled` the first
   * outcome of every promise, `owed` the pumps still to run once a worker has terminated, `dispatched`
   * the jobs given to a worker, in order.
   */
  datatype State = State(
    slots: seq<Slot>, queue: seq<Job>, nextId: nat, closed: bool,
    gone: seq<Slot>, settled: map<nat, Outcome>, owed: nat, attempts: nat, dispatched: seq<nat>)

  datatype Reply = Reply(id: nat, result: Option<string>)

  datatype Event =
    | Run(kind: string, aborted: bool)
    | Cancel(id: nat)
    | Message(worker: nat, reply: Reply)
    | Timeout(worker: nat)
    | Crash(worker: nat)
    | SendFailed(worker: nat)
    | Terminated
    | Close

  predicate ValidLimits(limits: Limits) {
    limits.concurrency >= 1 && limits.maxQueued >= 1
  }

  // ---- Lookups ----------------------------------------------------------------------------------

  function Idle(slots: seq<Slot>): (r: nat)
    ensures r <= |slots|
    ensures r < |slots| ==> slots[r].job.None?
    ensures forall k :: 0 <= k < r ==> slots[k].job.Some?
  {
    if slots == [] || slots[0].job.None? then 0 else 1 + Idle(slots[1..])
  }

  function SlotOf(slots: seq<Slot>, worker: nat): (r: nat)
    ensures r <= |slots|
    ensures r < |slots| ==> slots[r].worker == worker
    ensures r == |slots| ==> forall k :: 0 <= k < |slots| ==> slots[k].worker != worker
  {
    if slots == [] || slots[0].worker == worker then 0 else 1 + SlotOf(slots[1..], worker)
  }

  function Running(slots: seq<Slot>, id: nat): (r: nat)
    ensures r <= |slots|
    ensures r < |slots| ==> slots[r].job.Some? && slots[r].job.value.id == id
    ensures r == |slots| ==> forall k :: 0 <= k < |slots| ==> !Runs(slots[k], id)
  {
    if slots == [] || Runs(slots[0], id) then 0 else 1 + Running(slots[1..], id)
  }

  predicate Runs(slot: Slot, id: nat) {
    slot.job.Some? && slot.job.value.id == id
  }

  function Queued(queue: seq<Job>, id: nat): (r: nat)
    ensures r <= |queue|
    ensures r < |queue| ==> queue[r].id == id
    ensures r == |queue| ==> forall k :: 0 <= k < |queue| ==> queue[k].id != id
  {
    if queue == [] || queue[0].id == id then 0 else 1 + Queued(queue[1..], id)
  }

  function RemoveAt<T>(s: seq<T>, i: nat): (r: seq<T>)
    requires i < |s|
    ensures |r| == |s| - 1
  {
    s[..i] + s[i + 1..]
  }

  /** A promise keeps its first outcome. */
  function Settle(settled: map<nat, Outcome>, id: nat, outcome: Outcome): map<nat, Outcome> {
    if id in settled then settled else settled[id := outcome]
  }

  // ---- Parts of a step --------------------------------------------------------------------------

  function Enqueued(s: State, kind: string): State {
    s.(nextId := s.nextId + 1, queue := s.queue + [Job(s.nextId + 1, kind)])
  }

  function Dispatch(s: State, i: nat): State
    requires i < |s.slots| && s.queue != []
  {
    s.(slots := s.slots[i := s.slots[i].(job := Some(s.queue[0]), timer := true)],
       queue := s.queue[1..], dispatched := s.dispatched + [s.queue[0].id])
  }

  function Start(s: State): State {
    s.(slots := s.slots + [Slot(s.attempts, None, false)], attempts := s.attempts + 1)
  }

  function StartFailed(s: State): State
    requires s.queue != []
  {
    s.(queue := s.queue[1..], settled := Settle(s.settled, s.queue[0].id, Rejected(NotStarted)), attempts := s.attempts + 1)
  }

  function Pumped(limits: Limits, s: State): State
    decreases |s.queue|
  {
    if s.closed || s.queue == [] then s else
    var i := Idle(s.slots);
    if i < |s.slots| then Pumped(limits, Dispatch(s, i))
    else if |s.slots| >= limits.concurrency then s
    else if limits.starts(s.attempts) then Pumped(limits, Dispatch(Start(s), |s.slots|))
    else Pumped(limits, StartFailed(s))
  }

  /** The slot leaves the set; its worker is told to stop and a pump is owed when it has. */
  function Fail(s: State, i: nat, reason: Reason): State
    requires i < |s.slots|
  {
    var slot := s.slots[i];
    s.(slots := RemoveAt(s.slots, i), gone := s.gone + [slot.(timer := false)], owed := s.owed + 1,
       settled := if slot.job.Some? then Settle(s.settled, slot.job.value.id, Rejected(reason)) else s.settled)
  }

  function FailWorker(s: State, worker: nat, reason: Reason): State {
    var i := SlotOf(s.slots, worker);
    if i < |s.slots| then Fail(s, i, reason) else s
  }

  function CancelledInQueue(s: State, i: nat): State
    requires i < |s.queue|
  {
    s.(queue := RemoveAt(s.queue, i), settled := Settle(s.settled, s.queue[i].id, Rejected(Cancelled)))
  }

  predicate Expected(slot: Slot, reply: Reply) {
    slot.job.Some? && slot.job.value.id == reply.id && (reply.result.Some? ==> reply.result.value == slot.job.value.kind)
  }

  function OutcomeOf(reply: Reply): Outcome {
    if reply.result.Some? then Resolved(reply.result.value) else Rejected(Reported)
  }

  /** The handler only looks at the slot: it answers late messages of slots that left the set too. */
  function Answer(limits: Limits, s: State, worker: nat, reply: Reply): State {
    var i := SlotOf(s.slots, worker);
    if i < |s.slots| then
      if !Expected(s.slots[i], reply) then Fail(s, i, Unexpected)
      else Pumped(limits, s.(
        slots := s.slots[i := s.slots[i].(job := None, timer := false)],
        settled := Settle(s.settled, reply.id, OutcomeOf(reply))))
    else
      var j := SlotOf(s.gone, worker);
      if j < |s.gone| && Expected(s.gone[j], reply) then
        Pumped(limits, s.(gone := s.gone[j := s.gone[j].(job := None)], settled := Settle(s.settled, reply.id, OutcomeOf(reply))))
      else s
  }

  function SettleJobs(settled: map<nat, Outcome>, jobs: seq<Job>): map<nat, Outcome>
    decreases |jobs|
  {
    if jobs == [] then settled else SettleJobs(Settle(settled, jobs[0].id, Rejected(PoolClosed)), jobs[1..])
  }

  function SettleSlots(settled: map<nat, Outcome>, slots: seq<Slot>): map<nat, Outcome>
    decreases |slots|
  {
    if slots == [] then settled else SettleSlots(SettleSlot(settled, slots[0]), slots[1..])
  }

  function SettleSlot(settled: map<nat, Outcome>, slot: Slot): map<nat, Outcome> {
    if slot.job.Some? then Settle(settled, slot.job.value.id, Rejected(PoolClosed)) else settled
  }

  function Untimed(slots: seq<Slot>): (r: seq<Slot>)
    ensures |r| == |slots|
  {
    seq(|slots|, i requires 0 <= i < |slots| => slots[i].(timer := false))
  }

  function Closed(s: State): State {
    s.(closed := true, queue := [], slots := [], gone := s.gone + Untimed(s.slots),
       settled := SettleSlots(SettleJobs(s.settled, s.queue), s.slots))
  }

  /** The request is turned away before it becomes a job. */
  predicate TurnedAway(limits: Limits, s: State, aborted: bool) {
    s.closed || aborted || |s.queue| >= limits.maxQueued
  }

  function Step(limits: Limits, s: State, event: Event): State {
    match event
    case Run(kind, aborted) =>
      if TurnedAway(limits, s, aborted) then s
      else Pumped(limits, Enqueued(s, kind))
    case Cancel(id) =>
      var i := Queued(s.queue, id);
      if i < |s.queue| then CancelledInQueue(s, i)
      else
        var k := Running(s.slots, id);
        if k < |s.slots| then Fail(s, k, Cancelled) else s
    case Message(worker, reply) => Answer(limits, s, worker, reply)
    case Timeout(worker) =>
      var i := SlotOf(s.slots, worker);
      if i < |s.slots| && s.slots[i].timer then Fail(s, i, TimedOut) else s
    case Crash(worker) => FailWorker(s, worker, WorkerFailed)
    case SendFailed(worker) => FailWorker(s, worker, NotSent)
    case Terminated => if s.owed == 0 then s else Pumped(limits, s.(owed := s.owed - 1))
    case Close => Closed(s)
  }

  const EMPTY := State([], [], 0, false, [], map[], 0, 0, [])

  function RunAll(limits: Limits, events: seq<Event>): State {
    if events == [] then EMPTY else Step(limits, RunAll(limits, events[..|events| - 1]), events[|events| - 1])
  }

  // ---- Invariant --------------------------------------------------------------------------------

  predicate HasJob(queue: seq<Job>, id: nat) {
    exists k :: 0 <= k < |queue| && queue[k].id == id
  }

  predicate HasRun(slots: seq<Slot>, id: nat) {
    exists k :: 0 <= k < |slots| && Runs(slots[k], id)
  }

  predicate Increasing(queue: seq<Job>) {
    forall i, j :: 0 <= i < j < |queue| ==> queue[i].id < queue[j].id
  }

  predicate OneEach(slots: seq<Slot>) {
    forall i, j :: 0 <= i < j < |slots| && slots[i].job.Some? ==> !Runs(slots[j], slots[i].job.value.id)
  }

  /** Queue and slots hold different jobs, each once, oldest first. */
  predicate Ordered(s: State) {
    && Increasing(s.queue) && OneEach(s.slots)
    && (forall i, k :: 0 <= i < |s.slots| && 0 <= k < |s.queue| && s.slots[i].job.Some? ==>
          s.slots[i].job.value.id < s.queue[k].id)
    && (forall i :: 0 <= i < |s.slots| ==> s.slots[i].timer == s.slots[i].job.Some?)
  }

  predicate Fifo(s: State) {
    && (forall i, j :: 0 <= i < j < |s.dispatched| ==> s.dispatched[i] < s.dispatched[j])
    && (forall i, k :: 0 <= i < |s.dispatched| && 0 <= k < |s.queue| ==> s.dispatched[i] < s.queue[k].id)
    && (forall i :: 0 <= i < |s.dispatched| ==> 1 <= s.dispatched[i] <= s.nextId)
  }

  /** The unsettled promises are exactly the queued and the running jobs. */
  ghost predicate Accounted(s: State) {
    && (forall id: nat :: id in s.settled ==> 1 <= id <= s.nextId)
    && (forall id: nat :: HasJob(s.queue, id) || HasRun(s.slots, id) ==> 1 <= id <= s.nextId && id !in s.settled)
    && (forall id: nat :: 1 <= id <= s.nextId && id !in s.settled ==> HasJob(s.queue, id) || HasRun(s.slots, id))
    && (forall i :: 0 <= i < |s.gone| && s.gone[i].job.Some? ==> s.gone[i].job.value.id in s.settled)
  }

  predicate Workers(s: State) {
    && (forall i :: 0 <= i < |s.slots| ==> s.slots[i].worker < s.attempts)
    && (forall i, j :: 0 <= i < j < |s.slots| ==> s.slots[i].worker != s.slots[j].worker)
  }

  predicate Bounded(limits: Limits, s: State) {
    && |s.slots| <= limits.concurrency && |s.queue| <= limits.maxQueued
    && (s.closed ==> s.queue == [] && s.slots == [])
  }

  ghost predicate Sound(limits: Limits, s: State) {
    Ordered(s) && Fifo(s) && Accounted(s) && Workers(s) && Bounded(limits, s)
  }

  /** Every worker is busy and no more may be started. */
  predicate Saturated(limits: Limits, s: State) {
    |s.slots| == limits.concurrency && forall i :: 0 <= i < |s.slots| ==> s.slots[i].job.Some?
  }

  predicate NoneForgotten(limits: Limits, s: State) {
    s.queue == [] || s.closed || Saturated(limits, s) || s.owed > 0
  }

  /** No outcome is ever replaced. */
  predicate Extends(before: map<nat, Outcome>, after: map<nat, Outcome>) {
    forall id: nat :: id in before ==> id in after && after[id] == before[id]
  }

  // ---- Each part keeps the invariant ------------------------------------------------------------

  lemma {:induction false} JobAppended(queue: seq<Job>, job: Job)
    ensures forall id: nat :: HasJob(queue + [job], id) <==> HasJob(queue, id) || id == job.id
  {
    forall id: nat ensures HasJob(queue + [job], id) <==> HasJob(queue, id) || id == job.id {
      if HasJob(queue, id) {
        var k :| 0 <= k < |queue| && queue[k].id == id;
        assert (queue + [job])[k].id == id;
      }
      assert (queue + [job])[|queue|] == job;
    }
  }

  lemma {:induction false} JobRemoved(queue: seq<Job>, i: nat)
    requires i < |queue| && Increasing(queue)
    ensures forall id: nat :: HasJob(RemoveAt(queue, i), id) <==> HasJob(queue, id) && id != queue[i].id
    ensures HasJob(queue, queue[i].id) && Increasing(RemoveAt(queue, i))
  {
    var rest := RemoveAt(queue, i);
    assert forall k :: 0 <= k < i ==> rest[k] == queue[k];
    assert forall k :: i <= k < |rest| ==> rest[k] == queue[k + 1];
    forall id: nat ensures HasJob(rest, id) <==> HasJob(queue, id) && id != queue[i].id {
      if HasJob(queue, id) && id != queue[i].id {
        var k :| 0 <= k < |queue| && queue[k].id == id;
        assert rest[if k < i then k else k - 1].id == id;
      }
    }
  }

  lemma {:induction false} SlotStarted(slots: seq<Slot>, worker: nat)
    ensures forall id: nat :: HasRun(slots + [Slot(worker, None, false)], id) <==> HasRun(slots, id)
  {
    var more := slots + [Slot(worker, None, false)];
    forall id: nat ensures HasRun(more, id) <==> HasRun(slots, id) {
      if HasRun(slots, id) {
        var k :| 0 <= k < |slots| && Runs(slots[k], id);
        assert Runs(more[k], id);
      }
    }
  }

  lemma {:induction false} SlotBusied(slots: seq<Slot>, i: nat, job: Job, more: seq<Slot>)
    requires i < |slots| && slots[i].job.None? && more == slots[i := slots[i].(job := Some(job), timer := true)]
    ensures forall id: nat :: HasRun(more, id) <==> HasRun(slots, id) || id == job.id
  {
    assert Runs(more[i], job.id);
    forall id: nat ensures HasRun(more, id) <==> HasRun(slots, id) || id == job.id {
      if HasRun(slots, id) {
        var k :| 0 <= k < |slots| && Runs(slots[k], id);
        assert Runs(more[k], id);
      }
      if HasRun(more, id) {
        var k :| 0 <= k < |more| && Runs(more[k], id);
        assert k != i ==> Runs(slots[k], id);
      }
    }
  }

  lemma {:induction false} SlotFreed(slots: seq<Slot>, i: nat)
    requires i < |slots| && slots[i].job.Some? && OneEach(slots)
    ensures var less := slots[i := slots[i].(job := None, timer := false)];
      forall id: nat :: HasRun(less, id) <==> HasRun(slots, id) && id != slots[i].job.value.id
    ensures HasRun(slots, slots[i].job.value.id)
  {
    var less := slots[i := slots[i].(job := None, timer := false)];
    assert Runs(slots[i], slots[i].job.value.id);
    forall id: nat ensures HasRun(less, id) <==> HasRun(slots, id) && id != slots[i].job.value.id {
      if HasRun(slots, id) && id != slots[i].job.value.id {
        var k :| 0 <= k < |slots| && Runs(slots[k], id);
        assert Runs(less[k], id);
      }
      if HasRun(less, id) {
        var k :| 0 <= k < |less| && Runs(less[k], id);
        assert k != i && Runs(slots[k], id);
      }
    }
  }

  lemma {:induction false} SlotRemoved(slots: seq<Slot>, i: nat)
    requires i < |slots| && OneEach(slots)
    ensures forall id: nat :: HasRun(RemoveAt(slots, i), id) <==> HasRun(slots, id) && !Runs(slots[i], id)
    ensures slots[i].job.Some? ==> HasRun(slots, slots[i].job.value.id)
  {
    var rest := RemoveAt(slots, i);
    assert forall k :: 0 <= k < i ==> rest[k] == slots[k];
    assert forall k :: i <= k < |rest| ==> rest[k] == slots[k + 1];
    forall id: nat ensures HasRun(rest, id) <==> HasRun(slots, id) && !Runs(slots[i], id) {
      if HasRun(slots, id) && !Runs(slots[i], id) {
        var k :| 0 <= k < |slots| && Runs(slots[k], id);
        assert Runs(rest[if k < i then k else k - 1], id);
      }
      if HasRun(rest, id) {
        var k :| 0 <= k < |rest| && Runs(rest[k], id);
        assert Runs(slots[if k < i then k else k + 1], id);
      }
    }
    assert slots[i].job.Some? ==> Runs(slots[i], slots[i].job.value.id);
  }

  lemma {:induction false} ActiveIds(s: State)
    requires Accounted(s)
    ensures forall k :: 0 <= k < |s.queue| ==> 1 <= s.queue[k].id <= s.nextId && s.queue[k].id !in s.settled
    ensures forall k :: 0 <= k < |s.slots| && s.slots[k].job.Some? ==>
      1 <= s.slots[k].job.value.id <= s.nextId && s.slots[k].job.value.id !in s.settled
  {
    forall k | 0 <= k < |s.queue| ensures HasJob(s.queue, s.queue[k].id) {}
    forall k | 0 <= k < |s.slots| && s.slots[k].job.Some? ensures HasRun(s.slots, s.slots[k].job.value.id) {
      assert Runs(s.slots[k], s.slots[k].job.value.id);
    }
  }

  lemma {:induction false} EnqueueKeeps(limits: Limits, s: State, kind: string)
    requires Sound(limits, s) && !s.closed && |s.queue| < limits.maxQueued
    ensures Sound(limits, Enqueued(s, kind))
  {
    hide HasJob, HasRun;
    ActiveIds(s);
    JobAppended(s.queue, Job(s.nextId + 1, kind));
  }

  lemma {:induction false} DispatchKeeps(limits: Limits, s: State, i: nat)
    requires Sound(limits, s) && !s.closed && s.queue != [] && i < |s.slots| && s.slots[i].job.None?
    ensures Sound(limits, Dispatch(s, i))
  {
    DispatchOrders(limits, s, i);
    DispatchAccounts(s, i);
  }

  lemma {:induction false} DispatchOrders(limits: Limits, s: State, i: nat)
    requires Sound(limits, s) && !s.closed && s.queue != [] && i < |s.slots| && s.slots[i].job.None?
    ensures var after := Dispatch(s, i); Ordered(after) && Fifo(after) && Workers(after) && Bounded(limits, after)
  {
    hide HasJob, HasRun;
    ActiveIds(s);
  }

  lemma {:induction false} DispatchAccounts(s: State, i: nat)
    requires Ordered(s) && Accounted(s) && s.queue != [] && i < |s.slots| && s.slots[i].job.None?
    ensures Accounted(Dispatch(s, i))
  {
    hide HasJob, HasRun, Ordered;
    assert RemoveAt(s.queue, 0) == s.queue[1..];
    FirstIsIncreasing(s);
    JobRemoved(s.queue, 0);
    SlotBusied(s.slots, i, s.queue[0], Dispatch(s, i).slots);
  }

  lemma {:induction false} FirstIsIncreasing(s: State)
    requires Ordered(s)
    ensures Increasing(s.queue)
  {
  }

  lemma {:induction false} StartKeeps(limits: Limits, s: State)
    requires Sound(limits, s) && !s.closed && |s.slots| < limits.concurrency
    ensures Sound(limits, Start(s))
  {
    hide HasJob, HasRun;
    SlotStarted(s.slots, s.attempts);
  }

  lemma {:induction false} StartFailedKeeps(limits: Limits, s: State)
    requires Sound(limits, s) && !s.closed && s.queue != []
    ensures Sound(limits, StartFailed(s))
  {
    hide HasJob;
    assert RemoveAt(s.queue, 0) == s.queue[1..];
    JobRemoved(s.queue, 0);
    assert !HasRun(s.slots, s.queue[0].id);
  }

  /** Pumping keeps the invariant and leaves jobs queued only when every worker is busy. */
  lemma {:induction false} PumpKeeps(limits: Limits, s: State)
    requires Sound(limits, s)
    ensures Sound(limits, Pumped(limits, s))
    ensures var after := Pumped(limits, s); after.closed || after.queue == [] || Saturated(limits, after)
    ensures Extends(s.settled, Pumped(limits, s).settled)
    decreases |s.queue|
  {
    hide Ordered, Fifo, Accounted, Workers;
    if !s.closed && s.queue != [] {
      var i := Idle(s.slots);
      if i < |s.slots| {
        DispatchKeeps(limits, s, i);
        PumpKeeps(limits, Dispatch(s, i));
      } else if |s.slots| < limits.concurrency {
        if limits.starts(s.attempts) {
          StartKeeps(limits, s);
          DispatchKeeps(limits, Start(s), |s.slots|);
          PumpKeeps(limits, Dispatch(Start(s), |s.slots|));
        } else {
          StartFailedKeeps(limits, s);
          PumpKeeps(limits, StartFailed(s));
        }
      }
    }
  }

  lemma {:induction false} CancelQueuedKeeps(limits: Limits, s: State, i: nat)
    requires Sound(limits, s) && i < |s.queue|
    ensures Sound(limits, CancelledInQueue(s, i)) && Extends(s.settled, CancelledInQueue(s, i).settled)
  {
    CancelQueuedOrders(limits, s, i);
    CancelQueuedAccounts(s, i);
  }

  lemma {:induction false} CancelQueuedOrders(limits: Limits, s: State, i: nat)
    requires Sound(limits, s) && i < |s.queue|
    ensures var after := CancelledInQueue(s, i); Ordered(after) && Fifo(after) && Workers(after) && Bounded(limits, after)
  {
    hide Accounted, Runs;
    var rest := RemoveAt(s.queue, i);
    assert forall k :: 0 <= k < i ==> rest[k] == s.queue[k];
    assert forall k :: i <= k < |rest| ==> rest[k] == s.queue[k + 1];
  }

  lemma {:induction false} CancelQueuedAccounts(s: State, i: nat)
    requires Ordered(s) && Accounted(s) && i < |s.queue|
    ensures Accounted(CancelledInQueue(s, i)) && Extends(s.settled, CancelledInQueue(s, i).settled)
  {
    hide HasJob, RemoveAt;
    JobRemoved(s.queue, i);
    assert !HasRun(s.slots, s.queue[i].id);
  }

  lemma {:induction false} FailKeeps(limits: Limits, s: State, i: nat, reason: Reason)
    requires Sound(limits, s) && i < |s.slots|
    ensures Sound(limits, Fail(s, i, reason)) && Extends(s.settled, Fail(s, i, reason).settled)
    ensures Fail(s, i, reason).owed > 0
  {
    FailOrders(limits, s, i, reason);
    FailAccounts(s, i, reason);
  }

  lemma {:induction false} FailOrders(limits: Limits, s: State, i: nat, reason: Reason)
    requires Sound(limits, s) && i < |s.slots|
    ensures var after := Fail(s, i, reason); Ordered(after) && Fifo(after) && Workers(after) && Bounded(limits, after)
  {
    hide Accounted, Runs, Settle;
    var rest := RemoveAt(s.slots, i);
    assert forall k :: 0 <= k < i ==> rest[k] == s.slots[k];
    assert forall k :: i <= k < |rest| ==> rest[k] == s.slots[k + 1];
  }

  lemma {:induction false} FailAccounts(s: State, i: nat, reason: Reason)
    requires Ordered(s) && Accounted(s) && i < |s.slots|
    ensures Accounted(Fail(s, i, reason))
  {
    hide HasRun, RemoveAt;
    ActiveIds(s);
    SlotRemoved(s.slots, i);
    if s.slots[i].job.Some? {
      assert !HasJob(s.queue, s.slots[i].job.value.id);
    }
  }

  lemma {:induction false} CompleteKeeps(limits: Limits, s: State, i: nat, outcome: Outcome)
    requires Sound(limits, s) && i < |s.slots| && s.slots[i].job.Some?
    ensures Sound(limits, s.(
      slots := s.slots[i := s.slots[i].(job := None, timer := false)],
      settled := Settle(s.settled, s.slots[i].job.value.id, outcome)))
  {
    hide HasRun;
    ActiveIds(s);
    SlotFreed(s.slots, i);
    assert !HasJob(s.queue, s.slots[i].job.value.id);
  }

  lemma {:induction false} LateReplyKeeps(limits: Limits, s: State, j: nat, outcome: Outcome)
    requires Sound(limits, s) && j < |s.gone| && s.gone[j].job.Some?
    ensures var id := s.gone[j].job.value.id;
      Settle(s.settled, id, outcome) == s.settled && Sound(limits, s.(gone := s.gone[j := s.gone[j].(job := None)]))
  {
    hide HasRun, HasJob;
  }

  lemma {:induction false} SettledJobs(settled: map<nat, Outcome>, jobs: seq<Job>)
    ensures Extends(settled, SettleJobs(settled, jobs))
    ensures forall id: nat :: id in SettleJobs(settled, jobs) <==>
      id in settled || HasJob(jobs, id)
    decreases |jobs|
  {
    if jobs != [] { SettledJobs(Settle(settled, jobs[0].id, Rejected(PoolClosed)), jobs[1..]); }
  }

  lemma {:induction false} SettledSlots(settled: map<nat, Outcome>, slots: seq<Slot>)
    ensures Extends(settled, SettleSlots(settled, slots))
    ensures forall id: nat :: id in SettleSlots(settled, slots) <==>
      id in settled || HasRun(slots, id)
    decreases |slots|
  {
    if slots != [] { SettledSlots(SettleSlot(settled, slots[0]), slots[1..]); }
  }

  lemma {:induction false} CloseKeeps(limits: Limits, s: State)
    requires Sound(limits, s)
    ensures Closed(s).closed && Sound(limits, Closed(s)) && Extends(s.settled, Closed(s).settled)
    ensures forall id: nat :: 1 <= id <= s.nextId ==> id in Closed(s).settled
  {
    hide HasRun, HasJob;
    ActiveIds(s);
    var after := Closed(s);
    SettledJobs(s.settled, s.queue);
    SettledSlots(SettleJobs(s.settled, s.queue), s.slots);
    NobodyActive();
    GoneSettled(s.slots, Untimed(s.slots));
    assert forall id: nat :: id in after.settled <==> id in s.settled || HasJob(s.queue, id) || HasRun(s.slots, id);
  }

  lemma {:induction false} NobodyActive()
    ensures forall id: nat :: !HasJob([], id) && !HasRun([], id)
  {
  }

  lemma {:induction false} GoneSettled(slots: seq<Slot>, gone: seq<Slot>)
    requires gone == Untimed(slots)
    ensures forall k :: 0 <= k < |gone| && gone[k].job.Some? ==> HasRun(slots, gone[k].job.value.id)
  {
    assert forall k :: 0 <= k < |gone| && gone[k].job.Some? ==> Runs(slots[k], gone[k].job.value.id);
  }

  // ---- Every interleaving -----------------------------------------------------------------------

  lemma {:induction false} AnswerKeeps(limits: Limits, s: State, worker: nat, reply: Reply)
    requires Sound(limits, s) && NoneForgotten(limits, s)
    ensures Sound(limits, Answer(limits, s, worker, reply)) && NoneForgotten(limits, Answer(limits, s, worker, reply))
    ensures Extends(s.settled, Answer(limits, s, worker, reply).settled)
  {
    hide Ordered, Fifo, Accounted, Workers, Pumped, Saturated, Bounded;
    var i := SlotOf(s.slots, worker);
    if i < |s.slots| {
      if !Expected(s.slots[i], reply) {
        FailKeeps(limits, s, i, Unexpected);
      } else {
        CompleteKeeps(limits, s, i, OutcomeOf(reply));
        PumpKeeps(limits, s.(slots := s.slots[i := s.slots[i].(job := None, timer := false)],
          settled := Settle(s.settled, reply.id, OutcomeOf(reply))));
      }
    } else {
      var j := SlotOf(s.gone, worker);
      if j < |s.gone| && Expected(s.gone[j], reply) {
        LateReplyKeeps(limits, s, j, OutcomeOf(reply));
        PumpKeeps(limits, s.(gone := s.gone[j := s.gone[j].(job := None)]));
      }
    }
  }

  lemma {:induction false} StepKeeps(limits: Limits, s: State, event: Event)
    requires Sound(limits, s) && NoneForgotten(limits, s)
    ensures Sound(limits, Step(limits, s, event)) && NoneForgotten(limits, Step(limits, s, event))
    ensures Extends(s.settled, Step(limits, s, event).settled)
  {
    hide Sound, Pumped, Answer, Fail, Settle, Closed;
    match event
    case Run(kind, aborted) =>
      if !TurnedAway(limits, s, aborted) {
        EnqueueKeeps(limits, s, kind);
        PumpKeeps(limits, Enqueued(s, kind));
      }
    case Cancel(id) =>
      var i := Queued(s.queue, id);
      var k := Running(s.slots, id);
      if i < |s.queue| { CancelQueuedKeeps(limits, s, i); }
      else if k < |s.slots| { FailKeeps(limits, s, k, Cancelled); }
    case Message(worker, reply) => AnswerKeeps(limits, s, worker, reply);
    case Timeout(worker) =>
      var i := SlotOf(s.slots, worker);
      if i < |s.slots| { FailKeeps(limits, s, i, TimedOut); }
    case Crash(worker) =>
      var i := SlotOf(s.slots, worker);
      if i < |s.slots| { FailKeeps(limits, s, i, WorkerFailed); }
    case SendFailed(worker) =>
      var i := SlotOf(s.slots, worker);
      if i < |s.slots| { FailKeeps(limits, s, i, NotSent); }
    case Terminated =>
      if s.owed > 0 {
        OwedKeeps(limits, s);
        PumpKeeps(limits, s.(owed := s.owed - 1));
      }
    case Close => CloseKeeps(limits, s);
  }

  lemma {:induction false} OwedKeeps(limits: Limits, s: State)
    requires Sound(limits, s) && s.owed > 0
    ensures Sound(limits, s.(owed := s.owed - 1))
  {
    var after := s.(owed := s.owed - 1);
    hide HasRun, HasJob;
  }

  /** All of it holds after every run, and the outcomes of a shorter run are never replaced. */
  lemma {:induction false} EveryRunIsSound(limits: Limits, events: seq<Event>, n: nat)
    requires ValidLimits(limits) && n <= |events|
    ensures Sound(limits, RunAll(limits, events)) && NoneForgotten(limits, RunAll(limits, events))
    ensures Extends(RunAll(limits, events[..n]).settled, RunAll(limits, events).settled)
    decreases |events|
  {
    hide Step, Sound;
    if events == [] {
      EmptyIsSound(limits);
    } else if n == |events| {
      assert events[..n] == events;
      EveryRunIsSound(limits, events[..|events| - 1], 0);
      StepKeeps(limits, RunAll(limits, events[..|events| - 1]), events[|events| - 1]);
    } else {
      var most := events[..|events| - 1];
      assert most[..n] == events[..n];
      EveryRunIsSound(limits, most, n);
      StepKeeps(limits, RunAll(limits, most), events[|events| - 1]);
    }
  }

  lemma {:induction false} EmptyIsSound(limits: Limits)
    ensures Sound(limits, EMPTY)
  {
  }

  /** Once closed, every promise ever handed out is settled, whatever still happens. */
  lemma {:induction false} ClosedRunSettlesAll(limits: Limits, events: seq<Event>, id: nat)
    requires ValidLimits(limits) && RunAll(limits, events).closed
    requires 1 <= id <= RunAll(limits, events).nextId
    ensures id in RunAll(limits, events).settled
  {
    EveryRunIsSound(limits, events, 0);
  }

  predicate NoneTimed(slots: seq<Slot>) {
    forall i :: 0 <= i < |slots| ==> !slots[i].timer
  }

  lemma {:induction false} PumpKeepsGone(limits: Limits, s: State)
    ensures Pumped(limits, s).gone == s.gone
    decreases |s.queue|
  {
    if !s.closed && s.queue != [] {
      var i := Idle(s.slots);
      if i < |s.slots| {
        PumpKeepsGone(limits, Dispatch(s, i));
      } else if |s.slots| < limits.concurrency {
        if limits.starts(s.attempts) {
          PumpKeepsGone(limits, Dispatch(Start(s), |s.slots|));
        } else {
          PumpKeepsGone(limits, StartFailed(s));
        }
      }
    }
  }

  lemma {:induction false} StepClearsTimers(limits: Limits, s: State, event: Event)
    requires NoneTimed(s.gone)
    ensures NoneTimed(Step(limits, s, event).gone)
  {
    hide Pumped;
    match event
    case Run(kind, _) => PumpKeepsGone(limits, Enqueued(s, kind));
    case Message(worker, reply) =>
      var i, j := SlotOf(s.slots, worker), SlotOf(s.gone, worker);
      if i < |s.slots| {
        PumpKeepsGone(limits, s.(slots := s.slots[i := s.slots[i].(job := None, timer := false)],
          settled := Settle(s.settled, reply.id, OutcomeOf(reply))));
      } else if j < |s.gone| {
        PumpKeepsGone(limits, s.(gone := s.gone[j := s.gone[j].(job := None)],
          settled := Settle(s.settled, reply.id, OutcomeOf(reply))));
      }
    case Terminated => if s.owed > 0 { PumpKeepsGone(limits, s.(owed := s.owed - 1)); }
    case _ =>
  }

  /** No timer of a slot that left the set is running, in any interleaving. */
  lemma {:induction false} NoStrayTimer(limits: Limits, events: seq<Event>)
    ensures NoneTimed(RunAll(limits, events).gone)
    decreases |events|
  {
    if events != [] {
      NoStrayTimer(limits, events[..|events| - 1]);
      StepClearsTimers(limits, RunAll(limits, events[..|events| - 1]), events[|events| - 1]);
    }
  }

  /** A promise is resolved only by a reply to its own job, with a result of the kind it asked for. */
  lemma {:induction false} ResolvedByOwnReply(limits: Limits, s: State, event: Event, id: nat)
    requires Sound(limits, s) && id !in s.settled && id in Step(limits, s, event).settled
    requires Step(limits, s, event).settled[id].Resolved?
    ensures event.Message? && event.reply.id == id
    ensures var k := SlotOf(s.slots, event.worker);
      && k < |s.slots| && Runs(s.slots[k], id)
      && s.slots[k].job.value.kind == Step(limits, s, event).settled[id].kind
  {
    hide Ordered, Fifo, Accounted, Workers, Pumped;
    match event
    case Run(kind, aborted) =>
      if !TurnedAway(limits, s, aborted) {
        PumpResolvesNothing(limits, Enqueued(s, kind));
      }
    case Message(worker, reply) =>
      var i := SlotOf(s.slots, worker);
      if i < |s.slots| {
        PumpResolvesNothing(limits, s.(slots := s.slots[i := s.slots[i].(job := None, timer := false)],
          settled := Settle(s.settled, reply.id, OutcomeOf(reply))));
      } else {
        var j := SlotOf(s.gone, worker);
        if j < |s.gone| && Expected(s.gone[j], reply) {
          LateReplyKeeps(limits, s, j, OutcomeOf(reply));
          PumpResolvesNothing(limits, s.(gone := s.gone[j := s.gone[j].(job := None)]));
        }
      }
    case Terminated =>
      if s.owed > 0 { PumpResolvesNothing(limits, s.(owed := s.owed - 1)); }
    case Close =>
      JobsResolveNothing(s.settled, s.queue);
      SlotsResolveNothing(SettleJobs(s.settled, s.queue), s.slots);
    case _ =>
  }

  /** What an event means for the job that a worker runs, if anything. */
  function VerdictOn(slot: Slot, job: Job, event: Event): Option<Outcome> {
    match event
    case Message(worker, reply) =>
      if worker != slot.worker then None
      else if reply.id != job.id then Some(Rejected(Unexpected))
      else (match reply.result
            case None => Some(Rejected(Reported))
            case Some(kind) => Some(if kind == job.kind then Resolved(kind) else Rejected(Unexpected)))
    case Timeout(worker) => if worker == slot.worker then Some(Rejected(TimedOut)) else None
    case Crash(worker) => if worker == slot.worker then Some(Rejected(WorkerFailed)) else None
    case SendFailed(worker) => if worker == slot.worker then Some(Rejected(NotSent)) else None
    case Cancel(id) => if id == job.id then Some(Rejected(Cancelled)) else None
    case Close => Some(Rejected(PoolClosed))
    case _ => None
  }

  /** A pump settles queued jobs only, as not started. */
  lemma {:induction false} PumpSettles(limits: Limits, s: State, id: nat)
    ensures var after := Pumped(limits, s).settled;
      && (id in s.settled ==> id in after && after[id] == s.settled[id])
      && (id in after && id !in s.settled ==> HasJob(s.queue, id) && after[id] == Rejected(NotStarted))
    decreases |s.queue|
  {
    if !s.closed && s.queue != [] {
      QueueTail(s.queue, id);
      var i := Idle(s.slots);
      if i < |s.slots| { PumpSettles(limits, Dispatch(s, i), id); }
      else if |s.slots| < limits.concurrency {
        if limits.starts(s.attempts) { PumpSettles(limits, Dispatch(Start(s), |s.slots|), id); }
        else { PumpSettles(limits, StartFailed(s), id); }
      }
    }
  }

  lemma {:induction false} QueueTail(queue: seq<Job>, id: nat)
    requires queue != []
    ensures HasJob(queue, id) <==> queue[0].id == id || HasJob(queue[1..], id)
  {
    if HasJob(queue, id) {
      var k :| 0 <= k < |queue| && queue[k].id == id;
      assert k > 0 ==> queue[1..][k - 1].id == id;
    }
    if HasJob(queue[1..], id) {
      var k :| 0 <= k < |queue| - 1 && queue[1..][k].id == id;
      assert queue[k + 1].id == id;
    }
  }

  lemma {:induction false} JobsClosed(settled: map<nat, Outcome>, jobs: seq<Job>, id: nat)
    ensures var after := SettleJobs(settled, jobs);
      && (id in settled ==> id in after && after[id] == settled[id])
      && (id !in settled ==> (id in after <==> HasJob(jobs, id)) && (id in after ==> after[id] == Rejected(PoolClosed)))
    decreases |jobs|
  {
    if jobs != [] {
      QueueTail(jobs, id);
      JobsClosed(Settle(settled, jobs[0].id, Rejected(PoolClosed)), jobs[1..], id);
    }
  }

  lemma {:induction false} SlotsClosed(settled: map<nat, Outcome>, slots: seq<Slot>, id: nat)
    ensures var after := SettleSlots(settled, slots);
      && (id in settled ==> id in after && after[id] == settled[id])
      && (id !in settled ==> (id in after <==> HasRun(slots, id)) && (id in after ==> after[id] == Rejected(PoolClosed)))
    decreases |slots|
  {
    if slots != [] {
      SlotsTail(slots, id);
      SlotsClosed(SettleSlot(settled, slots[0]), slots[1..], id);
    }
  }

  lemma {:induction false} SlotsTail(slots: seq<Slot>, id: nat)
    requires slots != []
    ensures HasRun(slots, id) <==> Runs(slots[0], id) || HasRun(slots[1..], id)
  {
    if HasRun(slots, id) {
      var k :| 0 <= k < |slots| && Runs(slots[k], id);
      assert k > 0 ==> Runs(slots[1..][k - 1], id);
    }
    if HasRun(slots[1..], id) {
      var k :| 0 <= k < |slots| - 1 && Runs(slots[1..][k], id);
      assert Runs(slots[k + 1], id);
    }
  }

  /** A running job has its own worker, is not queued and not settled. */
  lemma {:induction false} RunningIsAlone(limits: Limits, s: State, k: nat)
    requires Sound(limits, s) && k < |s.slots| && s.slots[k].job.Some?
    ensures var id := s.slots[k].job.value.id;
      && SlotOf(s.slots, s.slots[k].worker) == k && Running(s.slots, id) == k && s.slots[k].timer && !s.closed
      && id !in s.settled && !HasJob(s.queue, id) && HasRun(s.slots, id) && id <= s.nextId
      && (forall j :: 0 <= j < |s.slots| && j != k ==> s.slots[j].worker != s.slots[k].worker && !Runs(s.slots[j], id))
      && (forall j :: 0 <= j < |s.gone| ==> !Runs(s.gone[j], id))
  {
    var id := s.slots[k].job.value.id;
    assert Runs(s.slots[k], id);
    ActiveIds(s);
  }

  /** The promise of a running job is settled by exactly these events, and with these outcomes. */
  lemma {:induction false} RunningSettles(limits: Limits, s: State, event: Event, k: nat)
    requires Sound(limits, s) && k < |s.slots| && s.slots[k].job.Some?
    ensures var job := s.slots[k].job.value;
      var verdict, after := VerdictOn(s.slots[k], job, event), Step(limits, s, event).settled;
      && job.id !in s.settled
      && (verdict.Some? ==> job.id in after && after[job.id] == verdict.value)
      && (verdict.None? ==> job.id !in after)
  {
    hide Ordered, Fifo, Accounted, Workers, Pumped, Sound, HasJob, HasRun;
    var job := s.slots[k].job.value;
    RunningIsAlone(limits, s, k);
    match event
    case Run(kind, aborted) =>
      EnqueuedIsAnother(s, kind, job.id);
      PumpSettles(limits, Enqueued(s, kind), job.id);
    case Message(worker, reply) =>
      var i, j := SlotOf(s.slots, worker), SlotOf(s.gone, worker);
      if i < |s.slots| {
        PumpSettles(limits, s.(slots := s.slots[i := s.slots[i].(job := None, timer := false)],
          settled := Settle(s.settled, reply.id, OutcomeOf(reply))), job.id);
      } else if j < |s.gone| {
        PumpSettles(limits, s.(gone := s.gone[j := s.gone[j].(job := None)],
          settled := Settle(s.settled, reply.id, OutcomeOf(reply))), job.id);
      }
    case Terminated =>
      if s.owed > 0 { PumpSettles(limits, s.(owed := s.owed - 1), job.id); }
    case Close =>
      JobsClosed(s.settled, s.queue, job.id);
      SlotsClosed(SettleJobs(s.settled, s.queue), s.slots, job.id);
    case Cancel(id) => QueuedIsThere(s.queue, id);
    case _ =>
  }

  lemma {:induction false} EnqueuedIsAnother(s: State, kind: string, id: nat)
    requires id <= s.nextId && !HasJob(s.queue, id)
    ensures !HasJob(Enqueued(s, kind).queue, id) && Enqueued(s, kind).settled == s.settled
  {
    JobAppended(s.queue, Job(s.nextId + 1, kind));
  }

  lemma {:induction false} QueuedIsThere(queue: seq<Job>, id: nat)
    ensures Queued(queue, id) < |queue| <==> HasJob(queue, id)
  {
  }

  /** The promise of a queued job is settled by its own cancellation, by closing, or when no worker could be started. */
  lemma {:induction false} QueuedSettles(limits: Limits, s: State, event: Event, k: nat)
    requires Sound(limits, s) && k < |s.queue|
    ensures var id := s.queue[k].id;
      var after := Step(limits, s, event).settled;
      && id !in s.settled
      && (event == Cancel(id) ==> id in after && after[id] == Rejected(Cancelled))
      && (event == Close ==> id in after && after[id] == Rejected(PoolClosed))
      && (id in after && event != Cancel(id) && event != Close ==> after[id] == Rejected(NotStarted))
  {
    hide Fifo, Workers, Pumped, HasRun;
    var id := s.queue[k].id;
    ActiveIds(s);
    assert HasJob(s.queue, id);
    match event
    case Run(kind, aborted) => PumpSettles(limits, Enqueued(s, kind), id);
    case Message(worker, reply) =>
      var i, j := SlotOf(s.slots, worker), SlotOf(s.gone, worker);
      if i < |s.slots| {
        PumpSettles(limits, s.(slots := s.slots[i := s.slots[i].(job := None, timer := false)],
          settled := Settle(s.settled, reply.id, OutcomeOf(reply))), id);
      } else if j < |s.gone| {
        PumpSettles(limits, s.(gone := s.gone[j := s.gone[j].(job := None)],
          settled := Settle(s.settled, reply.id, OutcomeOf(reply))), id);
      }
    case Terminated =>
      if s.owed > 0 { PumpSettles(limits, s.(owed := s.owed - 1), id); }
    case Close =>
      JobsClosed(s.settled, s.queue, id);
      SlotsClosed(SettleJobs(s.settled, s.queue), s.slots, id);
    case _ =>
  }

  lemma {:induction false} JobsResolveNothing(settled: map<nat, Outcome>, jobs: seq<Job>)
    ensures forall id: nat :: id in SettleJobs(settled, jobs) && id !in settled ==> SettleJobs(settled, jobs)[id].Rejected?
    ensures Extends(settled, SettleJobs(settled, jobs))
    decreases |jobs|
  {
    if jobs != [] { JobsResolveNothing(Settle(settled, jobs[0].id, Rejected(PoolClosed)), jobs[1..]); }
  }

  lemma {:induction false} SlotsResolveNothing(settled: map<nat, Outcome>, slots: seq<Slot>)
    ensures forall id: nat :: id in SettleSlots(settled, slots) && id !in settled ==> SettleSlots(settled, slots)[id].Rejected?
    ensures Extends(settled, SettleSlots(settled, slots))
    decreases |slots|
  {
    if slots != [] { SlotsResolveNothing(SettleSlot(settled, slots[0]), slots[1..]); }
  }

  lemma {:induction false} PumpResolvesNothing(limits: Limits, s: State)
    ensures Extends(s.settled, Pumped(limits, s).settled)
    ensures forall id: nat :: id in Pumped(limits, s).settled && id !in s.settled ==> Pumped(limits, s).settled[id].Rejected?
    decreases |s.queue|
  {
    if !s.closed && s.queue != [] {
      var i := Idle(s.slots);
      if i < |s.slots| { PumpResolvesNothing(limits, Dispatch(s, i)); }
      else if |s.slots| < limits.concurrency {
        if limits.starts(s.attempts) { PumpResolvesNothing(limits, Dispatch(Start(s), |s.slots|)); }
        else { PumpResolvesNothing(limits, StartFailed(s)); }
      }
    }
  }

  // ---- The pool itself --------------------------------------------------------------------------

  datatype Refusal = AlreadyClosed | AlreadyCancelled | Busy

  lemma {:induction false} ShorterQueue(s: State, i: nat)
    requires s.queue != []
    ensures i < |s.slots| ==> |Dispatch(s, i).queue| < |s.queue|
    ensures |StartFailed(s).queue| < |s.queue|
  {
  }

  lemma {:induction false} StartedLength(s: State)
    ensures |Start(s).slots| == |s.slots| + 1 && Start(s).queue == s.queue
  {
  }

  class Pool {
    const limits: Limits
    var slots: seq<Slot>
    var queue: seq<Job>
    var nextId: nat
    var closed: bool
    var gone: seq<Slot>
    var settled: map<nat, Outcome>
    var owed: nat
    var attempts: nat
    var dispatched: seq<nat>

    function Current(): State
      reads this
    {
      State(slots, queue, nextId, closed, gone, settled, owed, attempts, dispatched)
    }

    constructor (limits: Limits)
      requires ValidLimits(limits)
      ensures this.limits == limits && Current() == EMPTY
    {
      this.limits := limits;
      slots, queue, nextId, closed, gone := [], [], 0, false, [];
      settled, owed, attempts, dispatched := map[], 0, 0, [];
    }

    /** A refused request leaves the pool alone; an accepted one gets the next identifier. */
    method Run(kind: string, aborted: bool) returns (r: Result<nat, Refusal>)
      modifies this
      ensures Current() == Step(limits, old(Current()), Event.Run(kind, aborted))
      ensures r == if old(closed) then Err(AlreadyClosed) else if aborted then Err(AlreadyCancelled)
        else if |old(queue)| >= limits.maxQueued then Err(Busy) else Ok(old(nextId) + 1)
    {
      if closed { return Err(AlreadyClosed); }
      if aborted { return Err(AlreadyCancelled); }
      if |queue| >= limits.maxQueued { return Err(Busy); }
      nextId := nextId + 1;
      var id := nextId;
      queue := queue + [Job(id, kind)];
      Pump();
      return Ok(id);
    }

    method Cancel(id: nat)
      modifies this
      ensures Current() == Step(limits, old(Current()), Event.Cancel(id))
    {
      var index := Queued(queue, id);
      if index < |queue| {
        queue := RemoveAt(queue, index);
        Reject(id, Cancelled);
      } else {
        var slot := Running(slots, id);
        if slot < |slots| { FailSlot(slot, Cancelled); }
      }
    }

    method Reject(id: nat, reason: Reason)
      modifies this`settled
      ensures settled == Settle(old(settled), id, Rejected(reason))
    {
      if id !in settled { settled := settled[id := Rejected(reason)]; }
    }

    /** Start a worker for the next job; a job whose worker cannot start is rejected. */
    method Spawn() returns (started: bool)
      requires queue != []
      modifies this
      ensures started <==> limits.starts(old(attempts))
      ensures Current() == if started then Start(old(Current())) else StartFailed(old(Current()))
    {
      started := limits.starts(attempts);
      if started {
        slots := slots + [Slot(attempts, None, false)];
      } else {
        var failed := queue[0];
        queue := queue[1..];
        Reject(failed.id, NotStarted);
      }
      attempts := attempts + 1;
    }

    method Assign(slot: nat)
      requires queue != [] && slot < |slots|
      modifies this
      ensures Current() == Dispatch(old(Current()), slot)
    {
      var job := queue[0];
      queue := queue[1..];
      slots := slots[slot := slots[slot].(job := Some(job), timer := true)];
      dispatched := dispatched + [job.id];
    }

    /** Hand queued jobs to idle or new workers until the queue is empty or every worker is busy. */
    method Pump()
      modifies this
      ensures Current() == Pumped(limits, old(Current()))
    {
      hide Idle, Dispatch, Start, StartFailed;
      while !closed && |queue| > 0
        invariant Pumped(limits, Current()) == Pumped(limits, old(Current()))
        decreases |queue|
      {
        ghost var before := Current();
        var slot := Idle(slots);
        if slot == |slots| {
          if |slots| >= limits.concurrency { return; }
          var started := Spawn();
          if !started {
            assert Pumped(limits, before) == Pumped(limits, Current());
            ShorterQueue(before, 0);
            continue;
          }
        }
        ghost var middle := Current();
        StartedLength(before);
        Assign(slot);
        ShorterQueue(middle, slot);
        assert Pumped(limits, before) == Pumped(limits, Current());
      }
    }

    method FailSlot(i: nat, reason: Reason)
      requires i < |slots|
      modifies this
      ensures Current() == Fail(old(Current()), i, reason)
    {
      var slot := slots[i];
      slots := RemoveAt(slots, i);
      gone := gone + [slot.(timer := false)];
      if slot.job.Some? { Reject(slot.job.value.id, reason); }
      owed := owed + 1;
    }

    method OnMessage(worker: nat, reply: Reply)
      modifies this
      ensures Current() == Step(limits, old(Current()), Message(worker, reply))
    {
      var i := SlotOf(slots, worker);
      if i < |slots| {
        if !Expected(slots[i], reply) { FailSlot(i, Unexpected); return; }
        slots := slots[i := slots[i].(job := None, timer := false)];
      } else {
        var j := SlotOf(gone, worker);
        if j == |gone| || !Expected(gone[j], reply) { return; }
        gone := gone[j := gone[j].(job := None)];
      }
      settled := Settle(settled, reply.id, OutcomeOf(reply));
      Pump();
    }

    method OnTimeout(worker: nat)
      modifies this
      ensures Current() == Step(limits, old(Current()), Timeout(worker))
    {
      var i := SlotOf(slots, worker);
      if i < |slots| && slots[i].timer { FailSlot(i, TimedOut); }
    }

    method OnCrash(worker: nat)
      modifies this
      ensures Current() == Step(limits, old(Current()), Crash(worker))
    {
      var i := SlotOf(slots, worker);
      if i < |slots| { FailSlot(i, WorkerFailed); }
    }

    method OnSendFailed(worker: nat)
      modifies this
      ensures Current() == Step(limits, old(Current()), SendFailed(worker))
    {
      var i := SlotOf(slots, worker);
      if i < |slots| { FailSlot(i, NotSent); }
    }

    method OnTerminated()
      modifies this
      ensures Current() == Step(limits, old(Current()), Terminated)
    {
      if owed > 0 {
        owed := owed - 1;
        Pump();
      }
    }

    method Shutdown()
      modifies this
      ensures Current() == Step(limits, old(Current()), Close)
    {
      closed := true;
      var jobs, all := queue, slots;
      queue := [];
      RejectJobs(jobs);
      slots := [];
      gone := gone + Untimed(all);
      RejectSlots(all);
    }

    method RejectJobs(jobs: seq<Job>)
      modifies this`settled
      ensures settled == SettleJobs(old(settled), jobs)
    {
      for i := 0 to |jobs|
        invariant SettleJobs(settled, jobs[i..]) == SettleJobs(old(settled), jobs)
      {
        assert jobs[i..][1..] == jobs[i + 1..];
        Reject(jobs[i].id, PoolClosed);
      }
    }

    method RejectSlots(all: seq<Slot>)
      modifies this`settled
      ensures settled == SettleSlots(old(settled), all)
    {
      for i := 0 to |all|
        invariant SettleSlots(settled, all[i..]) == SettleSlots(old(settled), all)
      {
        assert all[i..][1..] == all[i + 1..];
        if all[i].job.Some? { Reject(all[i].job.value.id, PoolClosed); }
      }
    }
  }
}
