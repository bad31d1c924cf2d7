/** Tracking candidates: which recorded pitch each one describes, and in which plate appearance. */
module TrackingCommands {
  import opened Wrappers
  import opened GameDocument

  /** The pitch a candidate stands for, directly or through the candidate it duplicates. */
  function ResolvedPitch(c: Candidate, candidates: seq<Candidate>): Option<string> {
    match c.resolution
    case Linked(pitch) => Some(pitch)
    case Duplicate(canonical) =>
      var target := FindCandidate(candidates, canonical);
      if target.Some? && target.value.resolution.Linked? then Some(target.value.resolution.pitchEventId) else None
    case _ => None
  }

  // ---- Setting one resolution -------------------------------------------------------------------

  function Resolved(candidates: seq<Candidate>, trackingId: string, resolution: Resolution): (r: seq<Candidate>)
    ensures |r| == |candidates|
  {
    seq(|candidates|, i requires 0 <= i < |candidates| =>
      if candidates[i].trackingId == trackingId then candidates[i].(resolution := resolution) else candidates[i])
  }

  function UpdateResolution(d: Document, trackingId: string, resolution: Resolution): Result<Document, Error> {
    if resolution.Linked? && !IsPitch(d, resolution.pitchEventId) then Err(NotAPitch)
    else if FindCandidate(d.candidates, trackingId).None? then Err(TrackingMissing)
    else Ok(d.(candidates := Resolved(d.candidates, trackingId, resolution)))
  }

  predicate IsPitch(d: Document, id: string) {
    var event := FindEvent(d, id);
    event.Some? && event.value.payload.Pitch?
  }

  lemma {:induction false} ResolutionKeepsValid(d: Document, trackingId: string, resolution: Resolution)
    requires Valid(d) && UpdateResolution(d, trackingId, resolution).Ok?
    requires resolution.Duplicate? ==>
      resolution.canonicalTrackingId != trackingId && FindCandidate(d.candidates, resolution.canonicalTrackingId).Some?
    ensures Valid(UpdateResolution(d, trackingId, resolution).value)
    ensures TrackingIds(UpdateResolution(d, trackingId, resolution).value.candidates) == TrackingIds(d.candidates)
  {
    var after := Resolved(d.candidates, trackingId, resolution);
    assert TrackingIds(after) == TrackingIds(d.candidates);
    if resolution.Linked? {
      var event := FindEvent(d, resolution.pitchEventId).value;
      var i :| 0 <= i < |d.events| && d.events[i] == event;
      assert HasPitch(d.events, resolution.pitchEventId);
    }
    if resolution.Duplicate? {
      var target := FindCandidate(d.candidates, resolution.canonicalTrackingId).value;
      var i :| 0 <= i < |d.candidates| && d.candidates[i] == target;
      assert TrackingIds(d.candidates)[i] == resolution.canonicalTrackingId;
    }
  }

  // ---- Excluding the candidates of a pitch that goes away ---------------------------------------

  predicate LinkedTo(c: Candidate, pitch: string) {
    c.resolution == Linked(pitch)
  }

  predicate DirectlyLinked(candidates: seq<Candidate>, trackingId: string, pitch: string) {
    exists i :: 0 <= i < |candidates| && candidates[i].trackingId == trackingId && LinkedTo(candidates[i], pitch)
  }

  function ExcludedOne(c: Candidate, candidates: seq<Candidate>, pitch: string, note: string): Candidate {
    if LinkedTo(c, pitch)
       || (c.resolution.Duplicate? && DirectlyLinked(candidates, c.resolution.canonicalTrackingId, pitch))
    then c.(resolution := Excluded("manual_other", Some(note))) else c
  }

  function ExcludedForPitch(candidates: seq<Candidate>, pitch: string, note: string): (r: seq<Candidate>)
    ensures |r| == |candidates|
  {
    seq(|candidates|, i requires 0 <= i < |candidates| => ExcludedOne(candidates[i], candidates, pitch, note))
  }

  /** Afterwards no candidate resolves to the pitch, and the others are as they were. */
  lemma {:induction false} ExclusionDetaches(candidates: seq<Candidate>, pitch: string, note: string)
    requires Distinct(TrackingIds(candidates))
    ensures TrackingIds(ExcludedForPitch(candidates, pitch, note)) == TrackingIds(candidates)
    ensures forall i :: 0 <= i < |candidates| ==>
      ResolvedPitch(ExcludedForPitch(candidates, pitch, note)[i], ExcludedForPitch(candidates, pitch, note)) != Some(pitch)
    ensures forall i :: 0 <= i < |candidates| && ResolvedPitch(candidates[i], candidates) != Some(pitch) ==>
      ExcludedForPitch(candidates, pitch, note)[i] == candidates[i]
  {
    var after := ExcludedForPitch(candidates, pitch, note);
    assert TrackingIds(after) == TrackingIds(candidates);
    forall i | 0 <= i < |candidates| ensures ResolvedPitch(after[i], after) != Some(pitch) {
      if after[i].resolution.Duplicate? && ResolvedPitch(after[i], after) == Some(pitch) {
        assert false;
      }
    }
    forall i | 0 <= i < |candidates| && ResolvedPitch(candidates[i], candidates) != Some(pitch)
      ensures after[i] == candidates[i]
    {
      var c := candidates[i];
      if c.resolution.Duplicate? && DirectlyLinked(candidates, c.resolution.canonicalTrackingId, pitch) {
        var j :| 0 <= j < |candidates| && candidates[j].trackingId == c.resolution.canonicalTrackingId
          && LinkedTo(candidates[j], pitch);
        FindsCandidateAt(candidates, j);
        assert false;
      }
    }
  }

  /** Dropping or changing a row keeps every link valid once the candidates of that row are excluded. */
  lemma {:induction false} ExclusionKeepsLinks(
      before: seq<RelayEvent>, after: seq<RelayEvent>, candidates: seq<Candidate>, pitch: string, note: string)
    requires LinksToPitches(before, candidates) && DuplicatesResolve(candidates)
    requires Distinct(TrackingIds(candidates)) && TrackingSequenced(candidates)
    requires forall id :: HasPitch(before, id) && id != pitch ==> HasPitch(after, id)
    ensures LinksToPitches(after, ExcludedForPitch(candidates, pitch, note))
    ensures DuplicatesResolve(ExcludedForPitch(candidates, pitch, note))
    ensures TrackingSequenced(ExcludedForPitch(candidates, pitch, note))
  {
    ExclusionDetaches(candidates, pitch, note);
  }

  // ---- Repairing plate appearances that no longer exist -----------------------------------------

  predicate CanReconcile(c: Candidate, candidates: seq<Candidate>) {
    match c.resolution
    case Linked(_) => true
    case Duplicate(canonical) =>
      var target := FindCandidate(candidates, canonical);
      target.Some? && target.value.resolution.Linked?
      && c.plateAppearanceEventId == target.value.plateAppearanceEventId
    case _ => false
  }

  /** The plate appearance the compiler gives to the pitch a candidate stands for. */
  function CompiledAppearance(c: Candidate, candidates: seq<Candidate>, facts: seq<PitchFact>): Option<string> {
    var pitch := ResolvedPitch(c, candidates);
    if pitch.None? then None else Appearance(facts, pitch.value)
  }

  function Appearance(facts: seq<PitchFact>, pitch: string): Option<string> {
    var fact := FindFact(facts, pitch);
    if fact.None? || !fact.value.actual then None else fact.value.plateAppearanceEventId
  }

  predicate Orphaned(c: Candidate, events: seq<RelayEvent>) {
    c.plateAppearanceEventId.Some? && c.plateAppearanceEventId.value !in EventIds(events)
  }

  predicate Repairable(c: Candidate, d: Document, facts: seq<PitchFact>) {
    Orphaned(c, d.events) && CanReconcile(c, d.candidates) && CompiledAppearance(c, d.candidates, facts).Some?
  }

  function Repair(c: Candidate, d: Document, facts: seq<PitchFact>): (r: Candidate)
    ensures r == c.(plateAppearanceEventId := r.plateAppearanceEventId)
  {
    if Repairable(c, d, facts)
    then c.(plateAppearanceEventId := CompiledAppearance(c, d.candidates, facts)) else c
  }

  function Repaired(d: Document, facts: seq<PitchFact>): (r: seq<Candidate>)
    ensures |r| == |d.candidates|
  {
    seq(|d.candidates|, i requires 0 <= i < |d.candidates| => Repair(d.candidates[i], d, facts))
  }

  predicate AnyRepairable(d: Document, facts: seq<PitchFact>) {
    exists i :: 0 <= i < |d.candidates| && Repairable(d.candidates[i], d, facts)
  }

  function Reconcile(env: Environment, d: Document): Result<Document, Error> {
    match env.compile(d)
    case Err(e) => Err(e)
    case Ok(replay) =>
      if AnyRepairable(d, replay.pitchFacts) then Ok(d.(candidates := Repaired(d, replay.pitchFacts)))
      else Err(NothingToReconcile)
  }

  /** The counting loop computes exactly the specified repair. */
  method ReconcileContexts(env: Environment, d: Document) returns (r: Result<Document, Error>)
    ensures r == Reconcile(env, d)
  {
    var compiled := env.compile(d);
    if compiled.Err? { return Err(compiled.error); }
    var facts := compiled.value.pitchFacts;
    var repaired, i := 0, 0;
    var candidates: seq<Candidate> := [];
    while i < |d.candidates|
      invariant i <= |d.candidates|
      invariant candidates == Repaired(d, facts)[..i]
      invariant repaired >= 0
      invariant repaired > 0 <==> exists k :: 0 <= k < i && Repairable(d.candidates[k], d, facts)
    {
      var c := d.candidates[i];
      if Repairable(c, d, facts) {
        repaired := repaired + 1;
        candidates := candidates + [c.(plateAppearanceEventId := CompiledAppearance(c, d.candidates, facts))];
      } else {
        candidates := candidates + [c];
      }
      i := i + 1;
    }
    if repaired == 0 { return Err(NothingToReconcile); }
    assert candidates == Repaired(d, facts);
    return Ok(d.(candidates := candidates));
  }

  lemma {:induction false} FoundAfterMap(before: seq<Candidate>, after: seq<Candidate>, id: string) returns (k: nat)
    requires |before| == |after| && TrackingIds(before) == TrackingIds(after) && Distinct(TrackingIds(before))
    requires id in TrackingIds(before)
    ensures k < |before| && before[k].trackingId == id
    ensures FindCandidate(before, id) == Some(before[k]) && FindCandidate(after, id) == Some(after[k])
  {
    k :| 0 <= k < |before| && TrackingIds(before)[k] == id;
    assert TrackingIds(after)[k] == id;
    FindsCandidateAt(before, k);
    FindsCandidateAt(after, k);
  }

  /** Changing only plate appearances leaves what every candidate stands for. */
  predicate OnlyAppearancesDiffer(before: seq<Candidate>, after: seq<Candidate>) {
    |before| == |after| && forall i :: 0 <= i < |before| ==>
      after[i] == before[i].(plateAppearanceEventId := after[i].plateAppearanceEventId)
  }

  lemma {:induction false} AppearancesDoNotResolve(before: seq<Candidate>, after: seq<Candidate>)
    requires OnlyAppearancesDiffer(before, after) && Distinct(TrackingIds(before))
    ensures TrackingIds(after) == TrackingIds(before)
    ensures forall i :: 0 <= i < |before| ==> ResolvedPitch(after[i], after) == ResolvedPitch(before[i], before)
  {
    assert TrackingIds(after) == TrackingIds(before);
    forall i | 0 <= i < |before| ensures ResolvedPitch(after[i], after) == ResolvedPitch(before[i], before) {
      if before[i].resolution.Duplicate? {
        var id := before[i].resolution.canonicalTrackingId;
        if id in TrackingIds(before) {
          var k := FoundAfterMap(before, after, id);
        }
      }
    }
  }

  lemma {:induction false} AppearancesKeepValid(d: Document, after: seq<Candidate>)
    requires Valid(d) && OnlyAppearancesDiffer(d.candidates, after)
    ensures Valid(d.(candidates := after)) && TrackingIds(after) == TrackingIds(d.candidates)
  {
    AppearancesDoNotResolve(d.candidates, after);
  }

  /** A duplicate that shares its canonical's plate appearance still shares it after a repair. */
  lemma {:induction false} RepairKeepsDuplicates(d: Document, facts: seq<PitchFact>, i: nat, k: nat)
    requires Valid(d) && i < |d.candidates| && k < |d.candidates|
    requires d.candidates[i].resolution == Duplicate(d.candidates[k].trackingId)
    requires d.candidates[k].resolution.Linked?
    requires d.candidates[i].plateAppearanceEventId == d.candidates[k].plateAppearanceEventId
    ensures Repaired(d, facts)[i].plateAppearanceEventId == Repaired(d, facts)[k].plateAppearanceEventId
  {
    FindsCandidateAt(d.candidates, k);
  }

  /** Every repair names an event of the ledger. */
  predicate RepairsNameEvents(d: Document, facts: seq<PitchFact>) {
    forall i :: 0 <= i < |d.candidates| && Repairable(d.candidates[i], d, facts) ==> NamesEvent(d.candidates[i], d, facts)
  }

  predicate NamesEvent(c: Candidate, d: Document, facts: seq<PitchFact>) {
    var appearance := CompiledAppearance(c, d.candidates, facts);
    appearance.Some? && appearance.value in EventIds(d.events)
  }

  lemma {:induction false} NotRepairableAgain(d: Document, facts: seq<PitchFact>, i: nat)
    requires Valid(d) && i < |d.candidates| && RepairsNameEvents(d, facts)
    ensures !Repairable(Repaired(d, facts)[i], d.(candidates := Repaired(d, facts)), facts)
  {
    hide FindCandidate, FindFact, EventIds;
    var after := Repaired(d, facts);
    var c := d.candidates[i];
    AppearancesDoNotResolve(d.candidates, after);
    assert CompiledAppearance(after[i], after, facts) == CompiledAppearance(c, d.candidates, facts);
    if c.resolution.Duplicate? {
      var k := FoundAfterMap(d.candidates, after, c.resolution.canonicalTrackingId);
      assert d.candidates[k].resolution.Linked? ==>
        CompiledAppearance(d.candidates[k], d.candidates, facts) == CompiledAppearance(c, d.candidates, facts);
    }
  }

  lemma {:induction false} RepairableAgain(d: Document, facts: seq<PitchFact>, i: nat)
    requires Valid(d) && i < |d.candidates| && Repairable(d.candidates[i], d, facts)
    requires !NamesEvent(d.candidates[i], d, facts)
    ensures Repairable(Repaired(d, facts)[i], d.(candidates := Repaired(d, facts)), facts)
  {
    hide FindCandidate, FindFact, EventIds;
    var after := Repaired(d, facts);
    var c := d.candidates[i];
    AppearancesDoNotResolve(d.candidates, after);
    assert CompiledAppearance(after[i], after, facts) == CompiledAppearance(c, d.candidates, facts);
    if c.resolution.Duplicate? {
      var k := FoundAfterMap(d.candidates, after, c.resolution.canonicalTrackingId);
      RepairKeepsDuplicates(d, facts, i, k);
    }
  }

  /** A second repair finds nothing to do exactly when the first one named rows of the ledger. */
  lemma {:induction false} ReconcileSettles(env: Environment, d: Document)
    requires Valid(d) && Reconcile(env, d).Ok?
    requires var again := env.compile(Reconcile(env, d).value);
      again.Ok? && again.value.pitchFacts == env.compile(d).value.pitchFacts
    ensures Reconcile(env, Reconcile(env, d).value) == Err(NothingToReconcile)
      <==> RepairsNameEvents(d, env.compile(d).value.pitchFacts)
  {
    hide Repairable, CompiledAppearance, EventIds;
    var facts := env.compile(d).value.pitchFacts;
    var after := d.(candidates := Repaired(d, facts));
    if RepairsNameEvents(d, facts) {
      forall i | 0 <= i < |d.candidates| ensures !Repairable(after.candidates[i], after, facts) {
        NotRepairableAgain(d, facts, i);
      }
    } else {
      var i :| 0 <= i < |d.candidates| && Repairable(d.candidates[i], d, facts)
        && !NamesEvent(d.candidates[i], d, facts);
      RepairableAgain(d, facts, i);
    }
  }

  // ---- Following an edit ------------------------------------------------------------------------

  /** The candidate agreed with the compiler before, kept its pitch, and the pitch changed appearance. */
  function Follow(
      c: Candidate, before: Document, beforeFacts: seq<PitchFact>, after: Document, afterFacts: seq<PitchFact>): (r: Candidate)
    ensures r == c.(plateAppearanceEventId := r.plateAppearanceEventId)
  {
    var previous := FindCandidate(before.candidates, c.trackingId);
    if previous.None? then c else
    var from := ResolvedPitch(previous.value, before.candidates);
    var to := ResolvedPitch(c, after.candidates);
    if from.None? || from != to then c else
    var was, now := Appearance(beforeFacts, from.value), Appearance(afterFacts, from.value);
    if was.None? || now.None? || previous.value.plateAppearanceEventId != was
       || c.plateAppearanceEventId != previous.value.plateAppearanceEventId || was == now
    then c else c.(plateAppearanceEventId := now)
  }

  function Followed(
      before: Document, beforeFacts: seq<PitchFact>, after: Document, afterFacts: seq<PitchFact>): (r: seq<Candidate>)
    ensures |r| == |after.candidates|
    ensures OnlyAppearancesDiffer(after.candidates, r)
  {
    seq(|after.candidates|, i requires 0 <= i < |after.candidates| =>
      Follow(after.candidates[i], before, beforeFacts, after, afterFacts))
  }

  /** The loop with its `changed` flag: an unchanged document is returned as it is. */
  method FollowContexts(before: Document, beforeFacts: seq<PitchFact>, after: Document, afterFacts: seq<PitchFact>)
    returns (r: Document, changed: bool)
    ensures r == after.(candidates := Followed(before, beforeFacts, after, afterFacts))
    ensures changed <==> r != after
  {
    changed := false;
    var candidates: seq<Candidate> := [];
    ghost var followed := Followed(before, beforeFacts, after, afterFacts);
    for i := 0 to |after.candidates|
      invariant candidates == followed[..i]
      invariant changed <==> followed[..i] != after.candidates[..i]
    {
      var c := after.candidates[i];
      var next := Follow(c, before, beforeFacts, after, afterFacts);
      assert followed[..i + 1] == followed[..i] + [next] && after.candidates[..i + 1] == after.candidates[..i] + [c];
      if next != c { changed := true; }
      candidates := candidates + [next];
    }
    assert followed[..|after.candidates|] == followed && after.candidates[..|after.candidates|] == after.candidates;
    r := if changed then after.(candidates := candidates) else after;
  }

  /** A candidate that named the compiler's plate appearance before, whose pitch is still an actual pitch. */
  predicate AgreedAndStable(
      i: nat, before: Document, beforeFacts: seq<PitchFact>, after: Document, afterFacts: seq<PitchFact>)
    requires i < |after.candidates|
  {
    var c := after.candidates[i];
    var previous := FindCandidate(before.candidates, c.trackingId);
    && previous.Some?
    && ResolvedPitch(previous.value, before.candidates) == ResolvedPitch(c, after.candidates)
    && CompiledAppearance(previous.value, before.candidates, beforeFacts).Some?
    && previous.value.plateAppearanceEventId == CompiledAppearance(previous.value, before.candidates, beforeFacts)
    && CompiledAppearance(c, after.candidates, afterFacts).Some?
  }

  /** It agrees afterwards unless the edit itself rewrote its plate appearance to something else. */
  lemma {:induction false} FollowAgrees(
      i: nat, before: Document, beforeFacts: seq<PitchFact>, after: Document, afterFacts: seq<PitchFact>)
    requires i < |after.candidates| && Distinct(TrackingIds(after.candidates))
    requires AgreedAndStable(i, before, beforeFacts, after, afterFacts)
    ensures var c := after.candidates[i];
      var previous := FindCandidate(before.candidates, c.trackingId).value;
      var candidates := Followed(before, beforeFacts, after, afterFacts);
      candidates[i].plateAppearanceEventId == CompiledAppearance(candidates[i], candidates, afterFacts) <==>
        c.plateAppearanceEventId == previous.plateAppearanceEventId
        || c.plateAppearanceEventId == CompiledAppearance(c, after.candidates, afterFacts)
  {
    AppearancesDoNotResolve(after.candidates, Followed(before, beforeFacts, after, afterFacts));
  }

  /** A duplicate that shared its canonical's plate appearance, and still does, follows with it. */
  lemma {:induction false} FollowKeepsDuplicates(
      i: nat, k: nat, before: Document, beforeFacts: seq<PitchFact>, after: Document, afterFacts: seq<PitchFact>)
    requires i < |after.candidates| && k < |after.candidates|
    requires Distinct(TrackingIds(after.candidates)) && Distinct(TrackingIds(before.candidates))
    requires after.candidates[k].resolution.Linked?
    requires after.candidates[i].resolution == Duplicate(after.candidates[k].trackingId)
    requires after.candidates[i].plateAppearanceEventId == after.candidates[k].plateAppearanceEventId
    requires var di := FindCandidate(before.candidates, after.candidates[i].trackingId);
      var dk := FindCandidate(before.candidates, after.candidates[k].trackingId);
      di.Some? && dk.Some? && dk.value.resolution.Linked? && di.value.resolution == Duplicate(dk.value.trackingId)
      && di.value.plateAppearanceEventId == dk.value.plateAppearanceEventId
    ensures Followed(before, beforeFacts, after, afterFacts)[i].plateAppearanceEventId
      == Followed(before, beforeFacts, after, afterFacts)[k].plateAppearanceEventId
  {
    FindsCandidateAt(after.candidates, k);
  }
}
