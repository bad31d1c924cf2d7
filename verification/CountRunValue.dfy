/** Run values by count: a half-inning is split into transitions whose values must add up. */
module CountRunValue {
  import opened Wrappers
  import opened LinearAlgebra

  datatype Half = Top | Bottom

  datatype Runner = Runner(runnerId: string, pitcherId: string)

  datatype State = State(
    inning: nat, half: Half, halfActive: bool, balls: nat, strikes: nat, outs: nat,
    awayScore: nat, homeScore: nat, batterId: Option<string>, pitcherId: Option<string>,
    awayPitcherId: Option<string>, homePitcherId: Option<string>, paId: Option<string>,
    first: Option<Runner>, second: Option<Runner>, third: Option<Runner>)

  datatype Call = InPlayCall | HitByPitchCall | NoPitch | OtherCall

  datatype Pitch = Pitch(id: string, call: Call, actual: bool, inPlay: bool)

  datatype PlateResult =
    | Single | Double | Triple | HomeRun | Walk | IntentionalWalk | HitByPitch | Strikeout | FieldOut
    | SacrificeBunt | SacrificeFly | FielderChoice | ReachedOnError | Interference | DoublePlay
    | TriplePlay | OtherResult

  datatype Kind = HalfInningStart | PitchKind | PlateResultKind | Review | Administrative | OtherKind

  datatype Play = Play(
    playId: string, kind: Kind, applied: bool, inning: nat, half: Half,
    before: State, after: State, result: Option<PlateResult>, pitch: Option<Pitch>)

  datatype Transition = Transition(
    plays: seq<Play>, before: State, after: State, pitch: bool, terminalLinked: bool, unsupportedLink: bool)

  // ---- Splitting a half into transitions --------------------------------------------------------

  predicate EndsInPlay(result: PlateResult) {
    result in {Single, Double, Triple, HomeRun, FieldOut, SacrificeBunt, SacrificeFly, FielderChoice,
               ReachedOnError, DoublePlay, TriplePlay}
  }

  /** The last pitch of a completed plate appearance is compatible with its result. */
  predicate HasTerminalPitch(result: Option<PlateResult>, afterBalls: nat, afterStrikes: nat, pitch: Pitch) {
    match result
    case Some(Strikeout) => afterStrikes == 3
    case Some(Walk) => afterBalls == 4
    case Some(HitByPitch) => pitch.call == HitByPitchCall
    case Some(r) => EndsInPlay(r) && pitch.inPlay
    case None => false
  }

  /** Annotations may be skipped, but may not hide a state change. */
  predicate IsAnnotation(play: Play) {
    (play.kind == Review || play.kind == Administrative) && play.before == play.after
  }

  function AnnotationEnd(half: seq<Play>, next: nat): (r: nat)
    requires next <= |half|
    ensures next <= r <= |half|
    ensures forall j :: next <= j < r ==> IsAnnotation(half[j])
    ensures r < |half| ==> !IsAnnotation(half[r])
    decreases |half| - next
  {
    if next < |half| && IsAnnotation(half[next]) then AnnotationEnd(half, next + 1) else next
  }

  predicate Links(play: Play, plate: Play)
    requires play.pitch.Some?
  {
    && plate.applied && plate.kind == PlateResultKind && play.after.paId.Some?
    && plate.before.paId == play.after.paId
    && plate.before.batterId == play.after.batterId
    && plate.before.pitcherId == play.after.pitcherId
    && HasTerminalPitch(plate.result, play.after.balls, play.after.strikes, play.pitch.value)
  }

  predicate MayLink(play: Play) {
    play.applied && play.pitch.Some? && play.pitch.value.call != NoPitch
  }

  /** The index of the last play of the transition that starts at `i`. */
  function TransitionEnd(half: seq<Play>, i: nat): (r: nat)
    requires i < |half|
    ensures i <= r < |half|
  {
    if MayLink(half[i]) then
      var next := AnnotationEnd(half, i + 1);
      if next < |half| && Links(half[i], half[next]) then next else i
    else i
  }

  function MakeTransition(half: seq<Play>, i: nat, end: nat): Transition
    requires i <= end < |half|
  {
    var play, linked := half[i], end > i;
    Transition(half[i..end + 1], play.before, half[end].after,
      play.pitch.Some? && play.pitch.value.actual, linked,
      || (play.kind == PitchKind && play.pitch.None?)
      || (play.pitch.Some? && !linked
          && (play.pitch.value.inPlay || play.pitch.value.call == HitByPitchCall
              || play.after.balls > 3 || play.after.strikes > 2)))
  }

  function Transitions(half: seq<Play>, i: nat): seq<Transition>
    requires i <= |half|
    decreases |half| - i
  {
    if i == |half| then [] else
      var end := TransitionEnd(half, i);
      [MakeTransition(half, i, end)] + Transitions(half, end + 1)
  }

  method CountValueTransitions(half: seq<Play>) returns (result: seq<Transition>)
    ensures result == Transitions(half, 0)
  {
    hide MakeTransition, Links, IsAnnotation;
    result := [];
    var i := 0;
    while i < |half|
      invariant i <= |half| && result + Transitions(half, i) == Transitions(half, 0)
    {
      var end := FindEnd(half, i);
      var t := MakeTransition(half, i, end);
      Prepend(result, t, Transitions(half, end + 1));
      result := result + [t];
      i := end + 1;
    }
  }

  lemma {:induction false} Prepend<T>(a: seq<T>, x: T, b: seq<T>)
    ensures a + ([x] + b) == (a + [x]) + b
  {}

  /** Looks past annotations for the plate result that ends with this pitch. */
  method FindEnd(half: seq<Play>, i: nat) returns (end: nat)
    requires i < |half|
    ensures end == TransitionEnd(half, i)
  {
    hide Links, IsAnnotation;
    var play := half[i];
    end := i;
    if play.applied && play.pitch.Some? && play.pitch.value.call != NoPitch {
      var next := i + 1;
      while next < |half| && IsAnnotation(half[next])
        invariant i + 1 <= next <= |half| && AnnotationEnd(half, next) == AnnotationEnd(half, i + 1)
      {
        next := next + 1;
      }
      if next < |half| && Links(play, half[next]) { end := next; }
    }
  }

  function Plays(transitions: seq<Transition>): seq<Play> {
    if transitions == [] then [] else transitions[0].plays + Plays(transitions[1..])
  }

  /** A transition spans its own plays. */
  ghost predicate Spans(t: Transition) {
    |t.plays| > 0 && t.before == t.plays[0].before && t.after == t.plays[|t.plays| - 1].after
  }

  lemma {:induction false} MadeSpans(half: seq<Play>, i: nat, end: nat)
    requires i <= end < |half|
    ensures var t := MakeTransition(half, i, end);
      Spans(t) && t.plays == half[i..end + 1] && t.plays[0] == half[i] && t.before == half[i].before && t.after == half[end].after
  {}

  /** Nothing is lost, duplicated or reordered. */
  lemma {:induction false} TransitionsPartition(half: seq<Play>, i: nat)
    requires i <= |half|
    ensures Plays(Transitions(half, i)) == half[i..]
    ensures forall t :: t in Transitions(half, i) ==> Spans(t)
    decreases |half| - i
  {
    hide MakeTransition, TransitionEnd, Spans, Transitions, Plays;
    TransitionsEnd(half);
    if i < |half| {
      var end := TransitionEnd(half, i);
      var t, rest := MakeTransition(half, i, end), Transitions(half, end + 1);
      MadeSpans(half, i, end);
      TransitionsPartition(half, end + 1);
      TransitionsCons(half, i);
      PlaysCons(t, rest);
      Rejoined(half, i, end + 1);
    }
  }

  lemma {:induction false} TransitionsEnd(half: seq<Play>)
    ensures Transitions(half, |half|) == [] && Plays([]) == []
  {
  }

  lemma {:induction false} TransitionsCons(half: seq<Play>, i: nat)
    requires i < |half|
    ensures var end := TransitionEnd(half, i);
      Transitions(half, i) == [MakeTransition(half, i, end)] + Transitions(half, end + 1)
  {
    hide MakeTransition, TransitionEnd;
  }

  lemma {:induction false} PlaysCons(t: Transition, rest: seq<Transition>)
    ensures Plays([t] + rest) == t.plays + Plays(rest)
  {
    assert ([t] + rest)[1..] == rest;
  }

  lemma {:induction false} Rejoined(half: seq<Play>, i: nat, k: nat)
    requires i <= k <= |half|
    ensures half[i..] == half[i..k] + half[k..]
  {
  }

  /** In a linked transition only annotations stand between the pitch and its plate result. */
  lemma {:induction false} LinkedShape(half: seq<Play>, i: nat)
    requires i < |half| && TransitionEnd(half, i) > i
    ensures MayLink(half[i]) && Links(half[i], half[TransitionEnd(half, i)])
    ensures forall j :: i < j < TransitionEnd(half, i) ==> IsAnnotation(half[j])
  {}

  // ---- Exactly which pitches are linked ---------------------------------------------------------

  /** The plate result at `j` ends with the pitch at `i`, and only annotations stand between them. */
  ghost predicate EndsWithPitch(half: seq<Play>, i: nat, j: nat) {
    && i < j < |half| && half[i].applied && half[i].pitch.Some? && half[i].pitch.value.call != NoPitch
    && (forall k :: i < k < j ==> half[k].kind in {Review, Administrative} && half[k].before == half[k].after)
    && half[j].applied && half[j].kind == PlateResultKind
    && half[i].after.paId.Some? && half[j].before.paId == half[i].after.paId
    && half[j].before.batterId == half[i].after.batterId && half[j].before.pitcherId == half[i].after.pitcherId
    && half[j].result.Some? && Completes(half[j].result.value, half[i].after.balls, half[i].after.strikes, half[i].pitch.value)
  }

  /** A third strike, a fourth ball, a hit batter, or a ball in play with a result of one. */
  ghost predicate Completes(result: PlateResult, balls: nat, strikes: nat, pitch: Pitch) {
    match result
    case Strikeout => strikes == 3
    case Walk => balls == 4
    case HitByPitch => pitch.call == HitByPitchCall
    case IntentionalWalk | Interference | OtherResult => false
    case _ => pitch.inPlay
  }

  lemma {:induction false} LinkedExactly(half: seq<Play>, i: nat, j: nat)
    requires i < |half| && i < j
    ensures TransitionEnd(half, i) == j <==> EndsWithPitch(half, i, j)
  {
    if MayLink(half[i]) {
      var next := AnnotationEnd(half, i + 1);
      if EndsWithPitch(half, i, j) {
        assert next == j;
      }
    }
  }

  /** The plays before the transition at `n`. */
  function Offset(ts: seq<Transition>, n: nat): nat
    requires n <= |ts|
  {
    if n == 0 then 0 else |ts[0].plays| + Offset(ts[1..], n - 1)
  }

  /** A transition of the plays `i` to `j`: linked exactly when its plate result ends with its pitch. */
  ghost predicate TransitionFits(half: seq<Play>, t: Transition, i: nat, j: nat) {
    && i <= j < |half| && t.plays == half[i..j + 1] && t.before == half[i].before && t.after == half[j].after
    && (t.terminalLinked <==> i < j)
    && (if i < j then EndsWithPitch(half, i, j) else forall k: nat :: !EndsWithPitch(half, i, k))
    && (t.pitch <==> half[i].pitch.Some? && half[i].pitch.value.actual)
    && (t.unsupportedLink <==>
          || (half[i].kind == PitchKind && half[i].pitch.None?)
          || (i == j && half[i].pitch.Some? && (half[i].pitch.value.inPlay || half[i].pitch.value.call == HitByPitchCall
                || half[i].after.balls >= 4 || half[i].after.strikes >= 3)))
  }

  lemma {:induction false} MadeFits(half: seq<Play>, i: nat)
    requires i < |half|
    ensures TransitionFits(half, MakeTransition(half, i, TransitionEnd(half, i)), i, TransitionEnd(half, i))
  {
    hide EndsWithPitch, TransitionEnd;
    var end := TransitionEnd(half, i);
    forall k: nat | i < k ensures end == k <==> EndsWithPitch(half, i, k) { LinkedExactly(half, i, k); }
    forall k: nat | EndsWithPitch(half, i, k) ensures i < k { EndsLater(half, i, k); }
  }

  lemma {:induction false} EndsLater(half: seq<Play>, i: nat, k: nat)
    requires EndsWithPitch(half, i, k)
    ensures i < k
  {
  }

  lemma {:induction false} TransitionsFit(half: seq<Play>, start: nat, n: nat)
    requires start <= |half| && n < |Transitions(half, start)|
    ensures FitsAt(half, Transitions(half, start), n, start)
    decreases n
  {
    hide TransitionFits, MakeTransition, TransitionEnd, Transitions;
    NothingAfter(half);
    var end := TransitionEnd(half, start);
    var t, rest := MakeTransition(half, start, end), Transitions(half, end + 1);
    MadeFits(half, start);
    MadeSpans(half, start, end);
    TransitionsCons(half, start);
    if n > 0 {
      TransitionsFit(half, end + 1, n - 1);
      FitsBehind(half, t, rest, n - 1, start);
    }
  }

  lemma {:induction false} NothingAfter(half: seq<Play>)
    ensures Transitions(half, |half|) == []
  {
  }

  ghost predicate FitsAt(half: seq<Play>, ts: seq<Transition>, n: nat, start: nat)
    requires n < |ts|
  {
    var i := start + Offset(ts, n);
    |ts[n].plays| > 0 && TransitionFits(half, ts[n], i, i + |ts[n].plays| - 1)
  }

  lemma {:induction false} FitsBehind(half: seq<Play>, t: Transition, rest: seq<Transition>, n: nat, start: nat)
    requires n < |rest| && FitsAt(half, rest, n, start + |t.plays|)
    ensures FitsAt(half, [t] + rest, n + 1, start)
  {
    hide TransitionFits;
    assert ([t] + rest)[1..] == rest;
  }

  /** Only pitches carry pitch data. */
  ghost predicate PitchesOnly(half: seq<Play>) {
    forall k :: 0 <= k < |half| && half[k].pitch.Some? ==> half[k].kind == PitchKind
  }

  lemma {:induction false} LinkIsFound(half: seq<Play>, start: nat, i: nat, j: nat) returns (n: nat)
    requires PitchesOnly(half) && start <= i && EndsWithPitch(half, i, j)
    ensures start <= |half| && n < |Transitions(half, start)| && Transitions(half, start)[n].plays == half[i..j + 1]
    decreases i - start
  {
    hide MakeTransition, TransitionEnd, EndsWithPitch;
    LinkIsPitch(half, i, j);
    var end := TransitionEnd(half, start);
    var t, rest := MakeTransition(half, start, end), Transitions(half, end + 1);
    MadeSpans(half, start, end);
    assert Transitions(half, start) == [t] + rest && ([t] + rest)[1..] == rest;
    if start == i {
      LinkedExactly(half, i, j);
      n := 0;
    } else {
      if start < end {
        LinkedExactly(half, start, end);
        InnerIsNoPitch(half, start, end, i);
      }
      var m := LinkIsFound(half, end + 1, i, j);
      n := m + 1;
    }
  }

  lemma {:induction false} LinkIsPitch(half: seq<Play>, i: nat, j: nat)
    requires PitchesOnly(half) && EndsWithPitch(half, i, j)
    ensures i < j < |half| && half[i].kind == PitchKind
  {
  }

  lemma {:induction false} InnerIsNoPitch(half: seq<Play>, start: nat, end: nat, i: nat)
    requires EndsWithPitch(half, start, end) && start < i < |half| && half[i].kind == PitchKind
    ensures end < i
  {
  }

  /** The transitions of a half: each fits its plays, and every plate result that ends with a pitch is in one with it. */
  lemma {:induction false} TransitionsExactly(half: seq<Play>)
    ensures forall n :: 0 <= n < |Transitions(half, 0)| ==> FitsAt(half, Transitions(half, 0), n, 0)
    ensures PitchesOnly(half) ==> forall i: nat, j: nat :: EndsWithPitch(half, i, j) ==>
      exists n :: 0 <= n < |Transitions(half, 0)| && Transitions(half, 0)[n].plays == half[i..j + 1]
  {
    hide EndsWithPitch, TransitionFits, Transitions, PitchesOnly;
    forall n | 0 <= n < |Transitions(half, 0)| ensures FitsAt(half, Transitions(half, 0), n, 0) {
      TransitionsFit(half, 0, n);
    }
    if PitchesOnly(half) {
      forall i: nat, j: nat | EndsWithPitch(half, i, j)
        ensures i < j < |half| && exists n :: 0 <= n < |Transitions(half, 0)| && Transitions(half, 0)[n].plays == half[i..j + 1]
      {
        LinkIsPitch(half, i, j);
        var n := LinkIsFound(half, 0, i, j);
      }
    }
  }

  // ---- Values -----------------------------------------------------------------------------------

  datatype Model = Model(ready: bool, trainedThrough: int, cells: seq<Option<real>>)

  datatype Status = NotApplied | Boundary | IncompleteHalf | UnsupportedLink | UnsupportedState | Supported

  datatype Row = Row(
    plays: seq<Play>, pitch: bool, terminalLinked: bool, runs: int,
    beforeRE: Option<real>, afterRE: Option<real>, value: Option<real>, status: Status)

  datatype HalfValue = HalfValue(
    complete: bool, referenceOnly: bool, runs: int, startRE: Option<real>,
    pitchValue: Option<real>, nonPitchValue: Option<real>, valueSum: Option<real>, conserved: Option<bool>)

  function AttackScore(state: State, half: Half): nat {
    if half == Top then state.awayScore else state.homeScore
  }

  function BaseMask(state: State): nat {
    (if state.first.None? then 0 else 1) + (if state.second.None? then 0 else 2) + if state.third.None? then 0 else 4
  }

  function CountStateIndex(state: State): nat {
    (state.outs * 8 + BaseMask(state)) * 12 + state.balls * 3 + state.strikes
  }

  predicate ValidCountState(state: State) {
    state.outs < 3 && state.balls < 4 && state.strikes < 3
  }

  predicate Available(model: Option<Model>, season: int) {
    model.Some? && model.value.ready && season == model.value.trainedThrough + 1
  }

  /** Run expectancy of a state: zero with three outs, else the trained cell if there is one. */
  function RunExpectancy(state: State, model: Option<Model>, season: int): Option<real> {
    if state.outs == 3 then Some(0.0)
    else if Available(model, season) && ValidCountState(state) && CountStateIndex(state) < |model.value.cells| then
      model.value.cells[CountStateIndex(state)]
    else None
  }

  function LastApplied(half: seq<Play>): Option<Play> {
    if half == [] then None
    else if half[|half| - 1].applied then Some(half[|half| - 1]) else LastApplied(half[..|half| - 1])
  }

  predicate Complete(half: seq<Play>) {
    && half != []
    && half[0].kind == HalfInningStart && half[0].applied && half[0].after.outs == 0
    && half[0].after.first.None? && half[0].after.second.None? && half[0].after.third.None?
    && LastApplied(half).Some?
    && LastApplied(half).value.after.inning == half[0].inning
    && LastApplied(half).value.after.half == half[0].half
    && LastApplied(half).value.after.outs == 3
  }

  function MakeRow(t: Transition, complete: bool, model: Option<Model>, season: int): Row
    requires Spans(t)
  {
    var lead := t.plays[0];
    var beforeRE, afterRE := RunExpectancy(t.before, model, season), RunExpectancy(t.after, model, season);
    var delta := if lead.kind == HalfInningStart then 0 else AttackScore(t.after, lead.half) - AttackScore(t.before, lead.half);
    var status :=
      if !lead.applied then NotApplied
      else if lead.kind == HalfInningStart then Boundary
      else if !complete then IncompleteHalf
      else if t.unsupportedLink then UnsupportedLink
      else if beforeRE.None? || afterRE.None? then UnsupportedState
      else Supported;
    Row(t.plays, t.pitch, t.terminalLinked, delta, beforeRE, afterRE,
      if status == Supported then Some(delta as real + afterRE.value - beforeRE.value) else None, status)
  }

  function MakeRows(ts: seq<Transition>, complete: bool, model: Option<Model>, season: int): (rows: seq<Row>)
    requires forall t :: t in ts ==> Spans(t)
    ensures |rows| == |ts|
  {
    if ts == [] then [] else [MakeRow(ts[0], complete, model, season)] + MakeRows(ts[1..], complete, model, season)
  }

  predicate Usable(rows: seq<Row>) {
    forall r :: r in rows ==> r.status == Supported || r.status == Boundary || r.status == NotApplied
  }

  function RowValue(row: Row): real {
    if row.value.Some? then row.value.value else 0.0
  }

  function SumOf(rows: seq<Row>, pitch: bool): real {
    if rows == [] then 0.0 else (if rows[0].pitch == pitch then RowValue(rows[0]) else 0.0) + SumOf(rows[1..], pitch)
  }

  const CONSERVATION_TOLERANCE: real := 0.00000001

  function Both(x: Option<real>, y: Option<real>): Option<real> {
    if x.None? || y.None? then None else Some(x.value + y.value)
  }

  /** The summary of one half; None when the half has no play or no applied play. */
  function Evaluate(half: seq<Play>, model: Option<Model>, season: int): Option<(seq<Row>, HalfValue)> {
    if half == [] || LastApplied(half).None? then None else
      TransitionsPartition(half, 0);
      var first, last := half[0], LastApplied(half).value;
      var complete := Complete(half);
      var startRE := RunExpectancy(first.after, model, season);
      var runs := AttackScore(last.after, first.half) - AttackScore(first.after, first.half);
      var rows := MakeRows(Transitions(half, 0), complete, model, season);
      var supported := startRE.Some? && complete && Usable(rows);
      var pitchValue := if supported then Some(SumOf(rows, true)) else None;
      var nonPitchValue := if supported then Some(SumOf(rows, false)) else None;
      var valueSum := Both(pitchValue, nonPitchValue);
      var conserved := if valueSum.None? || startRE.None? then None
        else Some(Abs(valueSum.value - (runs as real - startRE.value)) < CONSERVATION_TOLERANCE);
      Some((rows, HalfValue(complete, first.inning > 8, runs, startRE, pitchValue, nonPitchValue, valueSum, conserved)))
  }

  function AllHalves(groups: seq<seq<Play>>, model: Option<Model>, season: int, k: nat): seq<HalfValue>
    requires k <= |groups|
  {
    if k == 0 then [] else
      var rest, half := AllHalves(groups, model, season, k - 1), Evaluate(groups[k - 1], model, season);
      if half.Some? then rest + [half.value.1] else rest
  }

  function AllRows(groups: seq<seq<Play>>, model: Option<Model>, season: int, k: nat): seq<Row>
    requires k <= |groups|
  {
    if k == 0 then [] else
      var rest, half := AllRows(groups, model, season, k - 1), Evaluate(groups[k - 1], model, season);
      if half.Some? then rest + half.value.0 else rest
  }

  // ---- What states and rows are worth -----------------------------------------------------------

  function Bit(b: bool): nat {
    if b then 1 else 0
  }

  /** Outs, then third, second and first base, then balls, then strikes. */
  function CountDigits(state: State): seq<nat> {
    [state.outs, Bit(state.third.Some?), Bit(state.second.Some?), Bit(state.first.Some?), state.balls, state.strikes]
  }

  predicate LessAt(x: seq<nat>, y: seq<nat>, k: nat) {
    k < |x| == |y| && x[k] < y[k] && forall m :: 0 <= m < k ==> x[m] == y[m]
  }

  ghost predicate CountBefore(a: State, b: State) {
    exists k: nat :: LessAt(CountDigits(a), CountDigits(b), k)
  }

  predicate SameCount(a: State, b: State) {
    && a.outs == b.outs && (a.third.Some? <==> b.third.Some?) && (a.second.Some? <==> b.second.Some?)
    && (a.first.Some? <==> b.first.Some?) && a.balls == b.balls && a.strikes == b.strikes
  }

  /** The 288 count states are numbered in that order, without gaps at either end. */
  lemma {:induction false} IndexIsOrder(a: State, b: State)
    requires ValidCountState(a) && ValidCountState(b)
    ensures CountBefore(a, b) <==> CountStateIndex(a) < CountStateIndex(b)
    ensures SameCount(a, b) <==> CountStateIndex(a) == CountStateIndex(b)
    ensures CountStateIndex(a) < 288
  {
    hide CountStateIndex, CountDigits;
    var x, y := CountDigits(a), CountDigits(b);
    IndexOfDigits(a);
    IndexOfDigits(b);
    if CountBefore(a, b) {
      var k: nat :| LessAt(x, y, k);
      LessIsSmaller(x, y, k);
    } else if CountBefore(b, a) {
      var k: nat :| LessAt(y, x, k);
      LessIsSmaller(y, x, k);
    } else {
      NeitherLess(a, b, x, y, 6);
    }
  }

  function DigitsValue(x: seq<nat>): nat
    requires |x| == 6
  {
    96 * x[0] + 48 * x[1] + 24 * x[2] + 12 * x[3] + 3 * x[4] + x[5]
  }

  predicate ValidDigits(x: seq<nat>) {
    |x| == 6 && x[0] < 3 && x[1] < 2 && x[2] < 2 && x[3] < 2 && x[4] < 4 && x[5] < 3
  }

  lemma {:induction false} IndexOfDigits(a: State)
    requires ValidCountState(a)
    ensures ValidDigits(CountDigits(a)) && CountStateIndex(a) == DigitsValue(CountDigits(a)) < 288
    ensures forall b :: SameCount(a, b) <==> CountDigits(a) == CountDigits(b)
  {
    forall b ensures SameCount(a, b) <==> CountDigits(a) == CountDigits(b) {
      var x, y := CountDigits(a), CountDigits(b);
      assert x == y <==> x[0] == y[0] && x[1] == y[1] && x[2] == y[2] && x[3] == y[3] && x[4] == y[4] && x[5] == y[5];
    }
  }

  lemma {:induction false} LessIsSmaller(x: seq<nat>, y: seq<nat>, k: nat)
    requires ValidDigits(x) && ValidDigits(y) && LessAt(x, y, k)
    ensures DigitsValue(x) < DigitsValue(y)
  {
  }

  lemma {:induction false} NeitherLess(a: State, b: State, x: seq<nat>, y: seq<nat>, k: nat)
    requires x == CountDigits(a) && y == CountDigits(b) && k <= 6
    requires !CountBefore(a, b) && !CountBefore(b, a)
    ensures x[..k] == y[..k]
  {
    if k > 0 {
      NeitherLess(a, b, x, y, k - 1);
      assert forall m :: 0 <= m < k - 1 ==> x[m] == x[..k - 1][m] && y[m] == y[..k - 1][m];
      assert !LessAt(x, y, k - 1) && !LessAt(y, x, k - 1);
    }
  }

  /** The model speaks for the season after its training, and for valid counts only. */
  lemma {:induction false} ExpectancyExactly(state: State, model: Option<Model>, season: int, x: real)
    ensures RunExpectancy(state, model, season) == Some(x) <==>
      || (state.outs == 3 && x == 0.0)
      || (state.outs < 3 && state.balls < 4 && state.strikes < 3
          && model.Some? && model.value.ready && season - model.value.trainedThrough == 1
          && CountStateIndex(state) < |model.value.cells| && model.value.cells[CountStateIndex(state)] == Some(x))
  {
  }

  /** The play at `i` is the last applied one. */
  predicate LastAppliedAt(half: seq<Play>, i: nat) {
    i < |half| && half[i].applied && forall k :: i < k < |half| ==> !half[k].applied
  }

  lemma {:induction false} LastAppliedExactly(half: seq<Play>)
    ensures forall i: nat :: LastAppliedAt(half, i) ==> LastApplied(half) == Some(half[i])
    ensures LastApplied(half).Some? ==> exists i: nat :: LastAppliedAt(half, i)
  {
    hide LastApplied, LastAppliedAt;
    LastAppliedUnfolds(half);
    forall i: nat { LastAppliedInside(half, i); }
    if half != [] {
      var n := |half| - 1;
      if half[n].applied {
        forall i: nat ensures LastAppliedAt(half, i) <==> i == n { LastAppliedThere(half, i); }
        assert LastAppliedAt(half, n);
      } else {
        LastAppliedExactly(half[..n]);
        forall i: nat ensures LastAppliedAt(half, i) <==> LastAppliedAt(half[..n], i) && i < n { LastAppliedShorter(half, i); }
        forall i: nat | LastAppliedAt(half, i) ensures LastApplied(half) == Some(half[i]) {
          assert half[..n][i] == half[i];
        }
        if LastApplied(half).Some? {
          var i: nat :| LastAppliedAt(half[..n], i);
          LastAppliedInside(half[..n], i);
          assert LastAppliedAt(half, i);
        }
      }
    }
  }

  lemma {:induction false} AppliedIsFound(half: seq<Play>)
    ensures LastApplied(half).Some? <==> exists i :: 0 <= i < |half| && half[i].applied
  {
    if i :| 0 <= i < |half| && half[i].applied { LastAppliedSome(half, i); }
    LastAppliedExactly(half);
    if LastApplied(half).Some? {
      var i: nat :| LastAppliedAt(half, i);
      assert half[i].applied;
    }
  }

  lemma {:induction false} LastAppliedSome(half: seq<Play>, i: nat)
    requires i < |half| && half[i].applied
    ensures LastApplied(half).Some?
    decreases |half|
  {
    if i < |half| - 1 { LastAppliedSome(half[..|half| - 1], i); }
  }

  lemma {:induction false} LastAppliedUnfolds(half: seq<Play>)
    ensures LastApplied(half) == if half == [] then None
      else if half[|half| - 1].applied then Some(half[|half| - 1]) else LastApplied(half[..|half| - 1])
  {
  }

  lemma {:induction false} LastAppliedInside(half: seq<Play>, i: nat)
    ensures LastAppliedAt(half, i) ==> i < |half|
  {
  }

  lemma {:induction false} LastAppliedThere(half: seq<Play>, i: nat)
    requires half != [] && half[|half| - 1].applied
    ensures LastAppliedAt(half, i) <==> i == |half| - 1
  {
  }

  lemma {:induction false} LastAppliedShorter(half: seq<Play>, i: nat)
    requires half != [] && !half[|half| - 1].applied
    ensures LastAppliedAt(half, i) <==> LastAppliedAt(half[..|half| - 1], i) && i < |half| - 1
  {
    var n := |half| - 1;
    assert forall k :: 0 <= k < n ==> half[..n][k] == half[k];
    if i < n && LastAppliedAt(half, i) {
      assert forall k :: i < k < n ==> !half[..n][k].applied;
    }
  }

  /** Begun with empty bases and nobody out, and ended in the same half with three outs. */
  ghost predicate WholeHalf(half: seq<Play>) {
    && |half| > 0 && half[0].applied && half[0].kind == HalfInningStart && half[0].after.outs == 0
    && half[0].after.first == half[0].after.second == half[0].after.third == None
    && exists i: nat :: LastAppliedAt(half, i) && half[i].after.outs == 3
         && half[i].after.inning == half[0].inning && half[i].after.half == half[0].half
  }

  lemma {:induction false} CompleteExactly(half: seq<Play>)
    ensures Complete(half) <==> WholeHalf(half)
  {
    hide LastApplied, LastAppliedAt;
    LastAppliedExactly(half);
  }

  /** Runs of the batting team and the change of expectancy, for applied plays with a known state on either side. */
  ghost predicate RowFits(row: Row, t: Transition, complete: bool, model: Option<Model>, season: int)
    requires Spans(t)
  {
    var lead, before, after := t.plays[0], RunExpectancy(t.before, model, season), RunExpectancy(t.after, model, season);
    && row.plays == t.plays && row.pitch == t.pitch && row.terminalLinked == t.terminalLinked
    && row.beforeRE == before && row.afterRE == after
    && (lead.kind == HalfInningStart ==> row.runs == 0)
    && (lead.kind != HalfInningStart && lead.half == Top ==> row.runs == t.after.awayScore - t.before.awayScore)
    && (lead.kind != HalfInningStart && lead.half == Bottom ==> row.runs == t.after.homeScore - t.before.homeScore)
    && (row.value.Some? <==> lead.applied && lead.kind != HalfInningStart && complete && !t.unsupportedLink && before.Some? && after.Some?)
    && (row.value.Some? ==> row.value.value == row.runs as real + after.value - before.value)
    && (row.status == Supported <==> row.value.Some?)
    && (row.status == NotApplied <==> !lead.applied)
    && (row.status == Boundary <==> lead.applied && lead.kind == HalfInningStart)
    && (row.status == IncompleteHalf <==> lead.applied && lead.kind != HalfInningStart && !complete)
    && (row.status == UnsupportedLink <==> lead.applied && lead.kind != HalfInningStart && complete && t.unsupportedLink)
  }

  lemma {:induction false} RowExactly(t: Transition, complete: bool, model: Option<Model>, season: int)
    requires Spans(t)
    ensures RowFits(MakeRow(t, complete, model, season), t, complete, model, season)
  {
    hide RunExpectancy;
  }

  /** The rows that are pitches, or those that are not, and what rows are worth together. */
  function Chosen(rows: seq<Row>, pitch: bool): seq<Row> {
    if rows == [] then [] else
      var last := rows[|rows| - 1];
      Chosen(rows[..|rows| - 1], pitch) + if last.pitch == pitch then [last] else []
  }

  function Worth(rows: seq<Row>): real {
    if rows == [] then 0.0
    else Worth(rows[..|rows| - 1]) + match rows[|rows| - 1].value case Some(v) => v case None => 0.0
  }

  lemma {:induction false} SumLast(rows: seq<Row>, row: Row, pitch: bool)
    ensures SumOf(rows + [row], pitch) == SumOf(rows, pitch) + if row.pitch == pitch then RowValue(row) else 0.0
  {
    if rows == [] {
      assert rows + [row] == [row];
    } else {
      assert (rows + [row])[1..] == rows[1..] + [row];
      SumLast(rows[1..], row, pitch);
    }
  }

  lemma {:induction false} WorthLast(rows: seq<Row>, row: Row)
    ensures Worth(rows + [row]) == Worth(rows) + RowValue(row)
  {
    assert (rows + [row])[..|rows|] == rows;
  }

  lemma {:induction false} ChosenLast(rows: seq<Row>, row: Row, pitch: bool)
    ensures Chosen(rows + [row], pitch) == Chosen(rows, pitch) + if row.pitch == pitch then [row] else []
  {
    assert (rows + [row])[..|rows|] == rows;
  }

  lemma {:induction false} SumIsWorth(rows: seq<Row>, pitch: bool)
    ensures SumOf(rows, pitch) == Worth(Chosen(rows, pitch))
  {
    if rows != [] {
      hide SumOf, Worth, Chosen, RowValue;
      var before, last := rows[..|rows| - 1], rows[|rows| - 1];
      SumIsWorth(before, pitch);
      assert rows == before + [last];
      SumLast(before, last, pitch);
      ChosenLast(before, last, pitch);
      WorthLast(Chosen(before, pitch), last);
      assert Chosen(before, pitch) + [] == Chosen(before, pitch);
    }
  }

  lemma {:induction false} RowsAlign(ts: seq<Transition>, complete: bool, model: Option<Model>, season: int)
    requires forall t :: t in ts ==> Spans(t)
    ensures forall n :: 0 <= n < |ts| ==>
      Spans(ts[n]) && RowFits(MakeRows(ts, complete, model, season)[n], ts[n], complete, model, season)
  {
    hide RowFits, Spans;
    if ts != [] {
      RowExactly(ts[0], complete, model, season);
      RowsAlign(ts[1..], complete, model, season);
      var rest := MakeRows(ts[1..], complete, model, season);
      forall n | 0 <= n < |ts|
        ensures Spans(ts[n]) && RowFits(MakeRows(ts, complete, model, season)[n], ts[n], complete, model, season)
      {
        assert ts[n] in ts;
        if n > 0 { assert ts[1..][n - 1] == ts[n] && MakeRows(ts, complete, model, season)[n] == rest[n - 1]; }
      }
    }
  }

  /** Every applied play after the half start lies in a transition with known states and no unlinked ending pitch. */
  ghost predicate Valued(half: seq<Play>, model: Option<Model>, season: int) {
    forall t :: t in Transitions(half, 0) && |t.plays| > 0 && t.plays[0].applied && t.plays[0].kind != HalfInningStart ==>
      !t.unsupportedLink && RunExpectancy(t.before, model, season).Some? && RunExpectancy(t.after, model, season).Some?
  }

  /** What is reported of a half with an applied play; a value sum exactly for a whole half of valued transitions. */
  ghost predicate HalfFits(half: seq<Play>, rows: seq<Row>, v: HalfValue, model: Option<Model>, season: int, last: nat) {
    && LastAppliedAt(half, last) && v.startRE == RunExpectancy(half[0].after, model, season)
    && (v.complete <==> WholeHalf(half)) && (v.referenceOnly <==> half[0].inning >= 9)
    && (half[0].half == Top ==> v.runs == half[last].after.awayScore - half[0].after.awayScore)
    && (half[0].half == Bottom ==> v.runs == half[last].after.homeScore - half[0].after.homeScore)
    && (v.valueSum.Some? <==> WholeHalf(half) && v.startRE.Some? && Valued(half, model, season))
    && (v.valueSum.Some? ==>
          && v.pitchValue == Some(Worth(Chosen(rows, true))) && v.nonPitchValue == Some(Worth(Chosen(rows, false)))
          && v.valueSum == Some(v.pitchValue.value + v.nonPitchValue.value))
    && (v.conserved.Some? <==> v.valueSum.Some?)
    && (v.conserved.Some? ==>
          var gap := v.valueSum.value - (v.runs as real - v.startRE.value);
          v.conserved.value <==> -0.00000001 < gap < 0.00000001)
  }

  lemma {:induction false} UsableExactly(half: seq<Play>, complete: bool, model: Option<Model>, season: int)
    requires forall t :: t in Transitions(half, 0) ==> Spans(t)
    requires complete
    ensures Usable(MakeRows(Transitions(half, 0), complete, model, season)) <==> Valued(half, model, season)
  {
    hide RunExpectancy, Transitions, MakeRows, MakeRow;
    var ts := Transitions(half, 0);
    var rows := MakeRows(ts, complete, model, season);
    RowsAlign(ts, complete, model, season);
    forall n | 0 <= n < |ts| ensures ts[n] in ts && rows[n] in rows {}
  }

  lemma {:induction false} EvaluateExactly(half: seq<Play>, model: Option<Model>, season: int)
    ensures Evaluate(half, model, season).Some? <==> exists i :: 0 <= i < |half| && half[i].applied
    ensures Evaluate(half, model, season).Some? ==>
      var (rows, v) := Evaluate(half, model, season).value;
      exists last: nat :: HalfFits(half, rows, v, model, season, last)
  {
    hide RunExpectancy, Transitions, MakeRows, Complete, WholeHalf, LastApplied, LastAppliedAt, SumOf, Worth, Chosen, Usable, Valued, Plays;
    LastAppliedExactly(half);
    AppliedIsFound(half);
    if Evaluate(half, model, season).Some? {
      TransitionsPartition(half, 0);
      CompleteExactly(half);
      var (rows, v) := Evaluate(half, model, season).value;
      SumIsWorth(rows, true);
      SumIsWorth(rows, false);
      if v.complete { UsableExactly(half, v.complete, model, season); }
      var last: nat :| LastAppliedAt(half, last);
      assert HalfFits(half, rows, v, model, season, last);
    }
  }

  // ---- Conservation -----------------------------------------------------------------------------

  /** A half as the game compiler seals it: states chain, rejected plays change nothing, and the
      start of the half is its first play only and carries no pitch. */
  ghost predicate Sealed(half: seq<Play>) {
    && (forall i :: 0 <= i < |half| - 1 ==> half[i].after == half[i + 1].before)
    && (forall i :: 0 <= i < |half| ==> (!half[i].applied ==> half[i].before == half[i].after) && half[i].half == half[0].half)
    && (forall i :: 0 < i < |half| ==> !half[i].applied || half[i].kind != HalfInningStart)
    && (half != [] && half[0].kind == HalfInningStart ==> half[0].pitch.None?)
  }

  /** The state in which the transition at `i` starts; after the last play, the final state. */
  function StateAt(half: seq<Play>, i: nat): State
    requires half != [] && i <= |half|
  {
    if i < |half| then half[i].before else half[|half| - 1].after
  }

  /** Runs so far plus expected runs: what a supported transition changes by its value. */
  function Potential(state: State, half: Half, model: Option<Model>, season: int): real
    requires RunExpectancy(state, model, season).Some?
  {
    AttackScore(state, half) as real + RunExpectancy(state, model, season).value
  }

  lemma {:induction false} TransitionStates(half: seq<Play>, i: nat)
    requires Sealed(half) && i < |half|
    ensures MakeTransition(half, i, TransitionEnd(half, i)).after == StateAt(half, TransitionEnd(half, i) + 1)
  {}

  /** From any transition on, the values add up to the change of the potential. */
  lemma {:induction false} ValuesTelescope(half: seq<Play>, i: nat, complete: bool, model: Option<Model>, season: int)
    requires Sealed(half) && 0 < i <= |half|
    requires RunExpectancy(StateAt(half, i), model, season).Some?
    requires forall t :: t in Transitions(half, i) ==> Spans(t)
    requires Usable(MakeRows(Transitions(half, i), complete, model, season))
    ensures RunExpectancy(StateAt(half, |half|), model, season).Some?
    ensures var rows := MakeRows(Transitions(half, i), complete, model, season);
      SumOf(rows, true) + SumOf(rows, false)
        == Potential(StateAt(half, |half|), half[0].half, model, season) - Potential(StateAt(half, i), half[0].half, model, season)
    decreases |half| - i
  {
    hide MakeTransition, TransitionEnd, RunExpectancy, Spans, MakeRow, Sealed;
    if i < |half| {
      var end := TransitionEnd(half, i);
      var t, rest := MakeTransition(half, i, end), Transitions(half, end + 1);
      MadeSpans(half, i, end);
      assert Transitions(half, i) == [t] + rest;
      assert ([t] + rest)[1..] == rest;
      var row, rows := MakeRow(t, complete, model, season), MakeRows(rest, complete, model, season);
      assert MakeRows([t] + rest, complete, model, season) == [row] + rows;
      assert ([row] + rows)[1..] == rows;
      assert row in [row] + rows;
      StepTelescopes(half, i, t, complete, model, season);
      assert Usable(rows) by {
        assert forall r :: r in rows ==> r in [row] + rows;
      }
      ValuesTelescope(half, end + 1, complete, model, season);
    }
  }

  /** One usable row changes the potential by its value, and leaves an expectancy to go on from. */
  lemma {:induction false} StepTelescopes(
      half: seq<Play>, i: nat, t: Transition, complete: bool, model: Option<Model>, season: int)
    requires Sealed(half) && 0 < i < |half| && t == MakeTransition(half, i, TransitionEnd(half, i)) && Spans(t)
    requires RunExpectancy(StateAt(half, i), model, season).Some?
    requires Usable([MakeRow(t, complete, model, season)])
    ensures RunExpectancy(StateAt(half, TransitionEnd(half, i) + 1), model, season).Some?
    ensures RowValue(MakeRow(t, complete, model, season))
      == Potential(StateAt(half, TransitionEnd(half, i) + 1), half[0].half, model, season)
       - Potential(StateAt(half, i), half[0].half, model, season)
  {
    hide RunExpectancy;
    MadeSpans(half, i, TransitionEnd(half, i));
    TransitionStates(half, i);
    assert MakeRow(t, complete, model, season) in [MakeRow(t, complete, model, season)];
  }

  lemma {:induction false} FinalState(half: seq<Play>)
    requires Sealed(half) && LastApplied(half).Some?
    ensures half != [] && LastApplied(half).value.after == half[|half| - 1].after
    decreases |half|
  {
    var n := |half|;
    if !half[n - 1].applied {
      var shorter := half[..n - 1];
      FinalState(shorter);
    }
  }

  /** The half start is a transition of its own without a value. */
  lemma {:induction false} StartRow(half: seq<Play>, model: Option<Model>, season: int)
    requires Sealed(half) && half != [] && half[0].kind == HalfInningStart && half[0].applied
    requires forall t :: t in Transitions(half, 0) ==> Spans(t)
    ensures forall t :: t in Transitions(half, 1) ==> Spans(t)
    ensures var rows, rest := MakeRows(Transitions(half, 0), true, model, season), MakeRows(Transitions(half, 1), true, model, season);
      && SumOf(rows, true) == SumOf(rest, true) && SumOf(rows, false) == SumOf(rest, false)
      && (Usable(rows) ==> Usable(rest))
  {
    hide RunExpectancy;
    assert TransitionEnd(half, 0) == 0;
    var t, later := MakeTransition(half, 0, 0), Transitions(half, 1);
    TransitionsCons(half, 0);
    MadeSpans(half, 0, 0);
    assert forall u :: u in later ==> u in [t] + later;
    MakeRowsCons(t, later, model, season);
    var row, rest := MakeRow(t, true, model, season), MakeRows(later, true, model, season);
    assert ([row] + rest)[1..] == rest;
    assert forall r :: r in rest ==> r in [row] + rest;
  }

  lemma {:induction false} MakeRowsCons(t: Transition, later: seq<Transition>, model: Option<Model>, season: int)
    requires Spans(t) && forall u :: u in later ==> Spans(u)
    ensures MakeRows([t] + later, true, model, season) == [MakeRow(t, true, model, season)] + MakeRows(later, true, model, season)
  {
    assert ([t] + later)[1..] == later;
  }

  /** Conservation: whenever a value sum is produced it is runs minus the starting expectancy. */
  lemma {:induction false} ValuesConserved(half: seq<Play>, model: Option<Model>, season: int)
    requires Sealed(half) && Evaluate(half, model, season).Some?
    ensures var v := Evaluate(half, model, season).value.1;
      v.valueSum.Some? ==> v.startRE.Some? && v.valueSum.value == v.runs as real - v.startRE.value && v.conserved == Some(true)
  {
    hide MakeTransition, TransitionEnd, Transitions, MakeRow, MakeRows, SumOf, Usable, Spans, Plays, LastApplied;
    TransitionsPartition(half, 0);
    var v := Evaluate(half, model, season).value.1;
    if v.valueSum.Some? {
      StartRow(half, model, season);
      StartEnds(half);
      ValuesTelescope(half, 1, true, model, season);
      FinalState(half);
    }
  }

  lemma {:induction false} StartEnds(half: seq<Play>)
    requires Sealed(half) && half != []
    ensures StateAt(half, 1) == half[0].after
  {
  }

  /** The pitch and non-pitch values split the sum. */
  lemma {:induction false} ValuesSplit(half: seq<Play>, model: Option<Model>, season: int)
    requires Sealed(half) && Evaluate(half, model, season).Some?
    requires Evaluate(half, model, season).value.1.valueSum.Some?
    ensures var v := Evaluate(half, model, season).value.1;
      v.pitchValue.Some? && v.nonPitchValue.Some? && v.startRE.Some?
      && v.pitchValue.value + v.nonPitchValue.value + v.startRE.value == v.runs as real
  {
    ValuesConserved(half, model, season);
  }

  // ---- The response --------------------------------------------------------------------------------

  /** The plays of some rows, in order. */
  function RowPlays(rows: seq<Row>): seq<Play> {
    if rows == [] then [] else RowPlays(rows[..|rows| - 1]) + rows[|rows| - 1].plays
  }

  /** The halves that have an applied play, one after the other. */
  function EvaluablePlays(groups: seq<seq<Play>>): seq<Play> {
    if groups == [] then [] else
      var last := groups[|groups| - 1];
      EvaluablePlays(groups[..|groups| - 1]) + if LastApplied(last).Some? then last else []
  }

  lemma {:induction false} RowPlaysConcat(a: seq<Row>, b: seq<Row>)
    ensures RowPlays(a + b) == RowPlays(a) + RowPlays(b)
  {
    hide RowPlays;
    if b == [] {
      assert a + b == a;
      NoRows();
    } else {
      var before, last := b[..|b| - 1], b[|b| - 1];
      RowPlaysConcat(a, before);
      assert b == before + [last] && a + b == (a + before) + [last];
      RowPlaysLast(a + before, last);
      RowPlaysLast(before, last);
    }
  }

  lemma {:induction false} RowPlaysLast(rows: seq<Row>, row: Row)
    ensures RowPlays(rows + [row]) == RowPlays(rows) + row.plays
  {
    assert (rows + [row])[..|rows|] == rows;
  }

  lemma {:induction false} RowPlaysOne(row: Row)
    ensures RowPlays([row]) == row.plays
  {
    assert RowPlays([row][..0]) == [];
  }

  lemma {:induction false} RowsKeepPlays(ts: seq<Transition>, complete: bool, model: Option<Model>, season: int)
    requires forall t :: t in ts ==> Spans(t)
    ensures RowPlays(MakeRows(ts, complete, model, season)) == Plays(ts)
  {
    hide Spans, MakeRow, RowPlays;
    if ts == [] {
      NoRows();
    } else {
      var row, rest := MakeRow(ts[0], complete, model, season), MakeRows(ts[1..], complete, model, season);
      RowsKeepPlays(ts[1..], complete, model, season);
      RowPlaysConcat([row], rest);
      RowPlaysOne(row);
      RowOfTransition(ts[0], complete, model, season);
    }
  }

  lemma {:induction false} NoRows()
    ensures RowPlays([]) == []
  {
  }

  lemma {:induction false} RowOfTransition(t: Transition, complete: bool, model: Option<Model>, season: int)
    requires Spans(t)
    ensures MakeRow(t, complete, model, season).plays == t.plays
  {
  }

  /** The rows of a half hold exactly its plays. */
  lemma {:induction false} EvaluateKeepsPlays(half: seq<Play>, model: Option<Model>, season: int)
    requires Evaluate(half, model, season).Some?
    ensures RowPlays(Evaluate(half, model, season).value.0) == half
  {
    hide Spans, MakeRow, MakeRows, RowPlays, Transitions, Plays, Complete, LastApplied, SumOf, Usable, RunExpectancy;
    TransitionsPartition(half, 0);
    RowsKeepPlays(Transitions(half, 0), Complete(half), model, season);
    assert half[0..] == half;
  }

  /** The response lists every play of every evaluable half once, in order. */
  lemma {:induction false} ResponseKeepsPlays(groups: seq<seq<Play>>, model: Option<Model>, season: int, k: nat)
    requires k <= |groups|
    ensures RowPlays(AllRows(groups, model, season, k)) == EvaluablePlays(groups[..k])
  {
    hide Evaluate, RowPlays, LastApplied;
    NoRows();
    if k > 0 {
      ResponseKeepsPlays(groups, model, season, k - 1);
      assert groups[..k][..k - 1] == groups[..k - 1];
      var half := groups[k - 1];
      EvaluatedWhen(half, model, season);
      if Evaluate(half, model, season).Some? {
        EvaluateKeepsPlays(half, model, season);
        RowPlaysConcat(AllRows(groups, model, season, k - 1), Evaluate(half, model, season).value.0);
      }
    }
  }

  lemma {:induction false} EvaluatedWhen(half: seq<Play>, model: Option<Model>, season: int)
    ensures Evaluate(half, model, season).Some? <==> LastApplied(half).Some?
  {
  }

  /** When the compiler sealed every half, no half of the response reports a violated conservation. */
  lemma {:induction false} ResponseConserved(groups: seq<seq<Play>>, model: Option<Model>, season: int, k: nat)
    requires k <= |groups| && forall g :: 0 <= g < k ==> Sealed(groups[g])
    ensures forall h :: 0 <= h < |AllHalves(groups, model, season, k)| ==>
      AllHalves(groups, model, season, k)[h].conserved != Some(false)
  {
    hide Evaluate, Sealed;
    if k > 0 {
      ResponseConserved(groups, model, season, k - 1);
      if Evaluate(groups[k - 1], model, season).Some? { HalfConserved(groups[k - 1], model, season); }
    }
  }

  lemma {:induction false} HalfConserved(half: seq<Play>, model: Option<Model>, season: int)
    requires Sealed(half) && Evaluate(half, model, season).Some?
    ensures Evaluate(half, model, season).value.1.conserved != Some(false)
  {
    hide Sealed, MakeRows, Transitions, Complete, LastApplied, SumOf, Usable, RunExpectancy;
    ValuesConserved(half, model, season);
  }

  /** The response: every evaluable half in order, and all their rows. */
  method EvaluateCountRunValues(groups: seq<seq<Play>>, model: Option<Model>, season: int)
      returns (halves: seq<HalfValue>, rows: seq<Row>)
    ensures halves == AllHalves(groups, model, season, |groups|)
    ensures rows == AllRows(groups, model, season, |groups|)
    ensures RowPlays(rows) == EvaluablePlays(groups)
    ensures (forall g :: 0 <= g < |groups| ==> Sealed(groups[g])) ==>
      forall h :: 0 <= h < |halves| ==> halves[h].conserved != Some(false)
  {
    hide Evaluate, Sealed, RowPlays, EvaluablePlays;
    halves, rows := [], [];
    for i := 0 to |groups|
      invariant halves == AllHalves(groups, model, season, i)
      invariant rows == AllRows(groups, model, season, i)
    {
      var half := Evaluate(groups[i], model, season);
      if half.Some? {
        halves := halves + [half.value.1];
        rows := rows + half.value.0;
      }
    }
    assert groups[..|groups|] == groups;
    ResponseKeepsPlays(groups, model, season, |groups|);
    if forall g :: 0 <= g < |groups| ==> Sealed(groups[g]) {
      ResponseConserved(groups, model, season, |groups|);
    }
  }
}
