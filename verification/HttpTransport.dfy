/** Requests spaced by a shared rate limiter and retried with doubling pauses. */
module HttpTransport {
  import opened Wrappers

  // ---- The limiter ------------------------------------------------------------------------------

  /**
   * Waiters pass one at a time in the order they came: `tail` have come, `left` have passed, and `sleeping`
   * is when the one inside may go on. `grants` are the clock readings at which a request was let through.
   */
  datatype Limiter = Limiter(
    tail: nat, left: nat, sleeping: Option<real>, nextRequestAt: real, grants: seq<real>, clock: real)

  const IDLE := Limiter(0, 0, None, 0.0, [], 0.0)

  /** `now` is read for the delay, `later` for the grant. */
  datatype Event =
    | Arrive
    | Enter(aborted: bool, now: real, later: real)
    | Wake(now: real)
    | Abort

  function Granted(l: Limiter, interval: real, now: real): Limiter {
    l.(left := l.left + 1, sleeping := None, nextRequestAt := now + interval, grants := l.grants + [now], clock := now)
  }

  /** An aborted waiter lets the next one in. */
  function Released(l: Limiter): Limiter {
    l.(left := l.left + 1, sleeping := None)
  }

  function Step(interval: real, l: Limiter, event: Event): Limiter {
    match event
    case Arrive => l.(tail := l.tail + 1)
    case Enter(aborted, now, later) =>
      if l.left == l.tail || l.sleeping.Some? then l
      else if aborted then Released(l)
      else if l.nextRequestAt - now > 0.0 then l.(sleeping := Some(now + (l.nextRequestAt - now)), clock := now)
      else Granted(l, interval, later)
    case Wake(now) => if l.sleeping.None? then l else Granted(l, interval, now)
    case Abort => if l.sleeping.None? then l else Released(l)
  }

  /** The clock does not run backwards and a sleep never ends early. */
  predicate Timely(l: Limiter, event: Event) {
    match event
    case Enter(_, now, later) => l.clock <= now <= later
    case Wake(now) => l.clock <= now && (l.sleeping.Some? ==> l.sleeping.value <= now)
    case _ => true
  }

  function RunAll(interval: real, events: seq<Event>): Limiter {
    if events == [] then IDLE else Step(interval, RunAll(interval, events[..|events| - 1]), events[|events| - 1])
  }

  predicate TimelyRun(interval: real, events: seq<Event>) {
    events == [] ||
    (TimelyRun(interval, events[..|events| - 1]) && Timely(RunAll(interval, events[..|events| - 1]), events[|events| - 1]))
  }

  // ---- Spacing ----------------------------------------------------------------------------------

  predicate Spaced(interval: real, grants: seq<real>) {
    forall i, j :: 0 <= i < j < |grants| ==> grants[i] + interval <= grants[j]
  }

  predicate Sound(interval: real, l: Limiter) {
    && l.left <= l.tail && (l.sleeping.Some? ==> l.left < l.tail && l.sleeping.value == l.nextRequestAt)
    && Spaced(interval, l.grants)
    && (forall i :: 0 <= i < |l.grants| ==> l.grants[i] + interval <= l.nextRequestAt)
  }

  lemma {:induction false} StepKeeps(interval: real, l: Limiter, event: Event)
    requires interval > 0.0 && Sound(interval, l) && Timely(l, event)
    ensures Sound(interval, Step(interval, l, event))
  {
  }

  lemma {:induction false} EveryRunIsSpaced(interval: real, events: seq<Event>)
    requires interval > 0.0 && TimelyRun(interval, events)
    ensures Sound(interval, RunAll(interval, events))
    decreases |events|
  {
    if events != [] {
      hide Step, Timely, Sound;
      EveryRunIsSpaced(interval, events[..|events| - 1]);
      StepKeeps(interval, RunAll(interval, events[..|events| - 1]), events[|events| - 1]);
    } else {
      IdleIsSound(interval);
    }
  }

  lemma {:induction false} IdleIsSound(interval: real)
    ensures Sound(interval, IDLE)
  {
  }

  function CountIn(grants: seq<real>, from: real, to: real): nat {
    if grants == [] then 0
    else CountIn(grants[..|grants| - 1], from, to) + if from <= grants[|grants| - 1] <= to then 1 else 0
  }

  lemma {:induction false} CountBefore(grants: seq<real>, from: real, to: real, last: real)
    requires last <= to && forall i :: 0 <= i < |grants| ==> grants[i] <= last
    ensures CountIn(grants, from, to) == CountIn(grants, from, last)
  {
    if grants != [] { CountBefore(grants[..|grants| - 1], from, to, last); }
  }

  lemma {:induction false} CountNone(grants: seq<real>, from: real, to: real)
    requires to < from
    ensures CountIn(grants, from, to) == 0
  {
    if grants != [] { CountNone(grants[..|grants| - 1], from, to); }
  }

  function Span(interval: real, n: nat): real {
    if n == 0 then 0.0 else Span(interval, n - 1) + interval
  }

  lemma {:induction false} SpanIsProduct(interval: real, n: nat)
    ensures Span(interval, n) == n as real * interval
  {
    if n > 0 {
      SpanIsProduct(interval, n - 1);
      assert n as real == (n - 1) as real + 1.0;
      Distribute((n - 1) as real, interval);
    }
  }

  lemma {:induction false} Distribute(x: real, y: real)
    ensures (x + 1.0) * y == x * y + y
  {
  }

  /** `n` spaced grants span at least `n - 1` intervals. */
  lemma {:induction false} SpacedCount(interval: real, grants: seq<real>, from: real, to: real)
    requires interval > 0.0 && Spaced(interval, grants) && from <= to
    ensures Span(interval, CountIn(grants, from, to)) <= to - from + interval
    decreases |grants|
  {
    if grants != [] {
      var rest, last := grants[..|grants| - 1], grants[|grants| - 1];
      if from <= last <= to {
        CountBefore(rest, from, to, last - interval);
        if from <= last - interval {
          SpacedCount(interval, rest, from, last - interval);
        } else {
          CountNone(rest, from, last - interval);
        }
      } else {
        SpacedCount(interval, rest, from, to);
      }
    }
  }

  /** Any window of this length sees at most one grant more than it holds whole intervals. */
  lemma {:induction false} WindowBound(interval: real, events: seq<Event>, from: real, length: real)
    requires interval > 0.0 && length >= 0.0 && TimelyRun(interval, events)
    ensures CountIn(RunAll(interval, events).grants, from, from + length) <= (length / interval).Floor + 1
  {
    hide RunAll, TimelyRun, CountIn;
    EveryRunIsSpaced(interval, events);
    var n := CountIn(RunAll(interval, events).grants, from, from + length);
    SpacedCount(interval, RunAll(interval, events).grants, from, from + length);
    SpanIsProduct(interval, n);
    DivideCount(n, interval, length);
  }

  lemma {:induction false} DivideCount(n: nat, interval: real, length: real)
    requires interval > 0.0 && n as real * interval <= length + interval
    ensures n <= (length / interval).Floor + 1
  {
    var q := length / interval;
    assert q * interval == length;
    if n as real - 1.0 > q {
      ProductPositive(n as real - 1.0 - q, interval);
      assert false;
    }
    assert (n - 1) as real <= q;
  }

  lemma {:induction false} ProductPositive(x: real, y: real)
    requires x > 0.0 && y > 0.0
    ensures x * y > 0.0
  {
  }

  /** The event makes the waiter whose turn it is give up, before its wait or during it. */
  predicate GivesUp(l: Limiter, event: Event) {
    || (event.Abort? && l.sleeping.Some?)
    || (event.Enter? && event.aborted && l.sleeping.None? && l.left != l.tail)
  }

  function Aborts(interval: real, events: seq<Event>): nat {
    if events == [] then 0
    else
      var earlier, last := events[..|events| - 1], events[|events| - 1];
      Aborts(interval, earlier) + if GivesUp(RunAll(interval, earlier), last) then 1 else 0
  }

  function Arrivals(events: seq<Event>): nat {
    if events == [] then 0
    else Arrivals(events[..|events| - 1]) + if events[|events| - 1].Arrive? then 1 else 0
  }

  /**
   * Every waiter that came was let through once, gave up once, or still waits, and the next slot is one interval
   * after the last grant however many gave up since.
   */
  lemma {:induction false} AbortsTakeNoSlot(interval: real, events: seq<Event>)
    ensures var l := RunAll(interval, events);
      && l.left == |l.grants| + Aborts(interval, events) && l.left <= l.tail == Arrivals(events)
      && (l.sleeping.Some? ==> l.left < l.tail)
      && l.nextRequestAt == if l.grants == [] then 0.0 else l.grants[|l.grants| - 1] + interval
    decreases |events|
  {
    if events != [] {
      AbortsTakeNoSlot(interval, events[..|events| - 1]);
    }
  }

  // ---- Retries ----------------------------------------------------------------------------------

  datatype Reply = Success(value: string) | Retryable | Fatal

  datatype Attempt = AbortedBefore | AbortedDuring | Answered(reply: Reply, abortedInPause: bool)

  datatype Ending = Value(value: string) | WasAborted | Failed | Exhausted

  function Pow2(n: nat): (r: nat)
    ensures r >= 1
  {
    if n == 0 then 1 else 2 * Pow2(n - 1)
  }

  /** The pauses asked for after the first `n` attempts, together. */
  function Pauses(base: nat, n: nat): nat {
    if n == 0 then 0 else Pauses(base, n - 1) + base * Pow2(n - 1)
  }

  lemma {:induction false} PausesDouble(base: nat, n: nat)
    ensures Pauses(base, n) == base * (Pow2(n) - 1)
  {
    if n > 0 {
      PausesDouble(base, n - 1);
      assert base * (Pow2(n - 1) - 1) + base * Pow2(n - 1) == base * (2 * Pow2(n - 1) - 1);
    }
  }

  lemma {:induction false} PausesGrow(base: nat, n: nat, m: nat)
    requires n <= m
    ensures Pauses(base, n) <= Pauses(base, m)
  {
    if n < m {
      PausesGrow(base, n, m - 1);
      assert base * Pow2(m - 1) >= 0;
    }
  }

  /** The attempt failed in a way that allows another one. */
  predicate GoesOn(attempt: Attempt) {
    attempt == Answered(Retryable, false)
  }

  predicate AllGoOn(attempt: nat -> Attempt, n: nat) {
    forall k :: 1 <= k <= n ==> GoesOn(attempt(k))
  }

  predicate EndsWith(attempt: Attempt, reply: Reply) {
    attempt.Answered? && attempt.reply == reply
  }

  /** The signal was seen aborted before a fetch, during it, or in the pause after it. */
  predicate AbortSeen(attempt: nat -> Attempt, maxAttempts: nat, fetches: nat) {
    || (AllGoOn(attempt, fetches) && attempt(fetches + 1) == AbortedBefore)
    || (1 <= fetches && AllGoOn(attempt, fetches - 1)
        && (attempt(fetches) == AbortedDuring || (fetches < maxAttempts && attempt(fetches) == Answered(Retryable, true))))
  }

  /**
   * What one request does when its attempts, counted from one, go as `attempt` says: how it ends, how many
   * fetches it made and how long it asked to pause.
   */
  method Request(maxAttempts: nat, base: nat, attempt: nat -> Attempt) returns (ending: Ending, fetches: nat, paused: nat)
    requires maxAttempts >= 1 && base >= 1
    ensures fetches <= maxAttempts
    ensures paused <= base * (Pow2(maxAttempts - 1) - 1)
    ensures ending.Exhausted? ==> fetches == maxAttempts && paused == base * (Pow2(maxAttempts - 1) - 1)
    ensures ending.Exhausted? <==> AllGoOn(attempt, maxAttempts - 1) && EndsWith(attempt(maxAttempts), Retryable)
    ensures ending.Failed? ==> 1 <= fetches && AllGoOn(attempt, fetches - 1) && EndsWith(attempt(fetches), Fatal)
    ensures ending.WasAborted? ==> AbortSeen(attempt, maxAttempts, fetches)
    ensures ending.Value? ==>
      1 <= fetches && AllGoOn(attempt, fetches - 1) && EndsWith(attempt(fetches), Success(ending.value))
  {
    fetches, paused := 0, 0;
    PausesDouble(base, maxAttempts - 1);
    var k := 1;
    while k <= maxAttempts
      invariant 1 <= k <= maxAttempts + 1 && fetches == k - 1
      invariant forall i :: 1 <= i < k && i < maxAttempts ==> GoesOn(attempt(i))
      invariant k == maxAttempts + 1 ==> attempt(maxAttempts).Answered? && attempt(maxAttempts).reply == Retryable
      invariant paused == Pauses(base, if k <= maxAttempts then k - 1 else maxAttempts - 1)
    {
      PausesGrow(base, k - 1, maxAttempts - 1);
      var outcome := attempt(k);
      if outcome == AbortedBefore { return WasAborted, fetches, paused; }
      fetches := fetches + 1;
      if outcome == AbortedDuring { return WasAborted, fetches, paused; }
      match outcome.reply {
        case Success(value) => return Value(value), fetches, paused;
        case Fatal => return Failed, fetches, paused;
        case Retryable =>
      }
      if k < maxAttempts {
        paused := paused + base * Pow2(k - 1);
        PausesGrow(base, k, maxAttempts - 1);
        if outcome.abortedInPause { return WasAborted, fetches, paused; }
      }
      k := k + 1;
    }
    return Exhausted, fetches, paused;
  }

  // ---- The transport ----------------------------------------------------------------------------

  class RateLimiter {
    const interval: real
    var tail: nat
    var left: nat
    var sleeping: Option<real>
    var nextRequestAt: real
    var grants: seq<real>
    var clock: real

    function Now(): Limiter
      reads this
    {
      Limiter(tail, left, sleeping, nextRequestAt, grants, clock)
    }

    constructor (requestsPerSecond: real)
      requires requestsPerSecond > 0.0
      ensures Now() == IDLE && interval == 1000.0 / requestsPerSecond
    {
      interval := 1000.0 / requestsPerSecond;
      tail, left, sleeping, nextRequestAt, grants, clock := 0, 0, None, 0.0, [], 0.0;
    }

    method Join()
      modifies this
      ensures Now() == Step(interval, old(Now()), Arrive)
    {
      tail := tail + 1;
    }

    /** The promise before has resolved: give up, sleep, or take the slot. */
    method TakeTurn(aborted: bool, now: real, later: real) returns (granted: bool)
      requires left < tail && sleeping.None?
      modifies this
      ensures Now() == Step(interval, old(Now()), Enter(aborted, now, later))
      ensures granted <==> !aborted && old(nextRequestAt) <= now
    {
      if aborted { GiveUp(); return false; }
      var delay := if nextRequestAt - now > 0.0 then nextRequestAt - now else 0.0;
      if delay > 0.0 {
        sleeping := Some(now + delay);
        clock := now;
        return false;
      }
      Take(later);
      return true;
    }

    method Take(now: real)
      modifies this
      ensures Now() == Granted(old(Now()), interval, now)
    {
      nextRequestAt := now + interval;
      grants := grants + [now];
      left, sleeping, clock := left + 1, None, now;
    }

    method GiveUp()
      modifies this
      ensures Now() == Released(old(Now()))
    {
      left, sleeping := left + 1, None;
    }

    method WakeUp(now: real)
      requires sleeping.Some?
      modifies this
      ensures Now() == Step(interval, old(Now()), Wake(now))
    {
      Take(now);
    }

    method AbortSleep()
      requires sleeping.Some?
      modifies this
      ensures Now() == Step(interval, old(Now()), Abort)
    {
      GiveUp();
    }
  }
}
