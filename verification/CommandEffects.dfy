/** What every correction command does to the ledger, entry by entry, and exactly when it is refused. */
module CommandEffects {
  import opened Wrappers
  import opened GameDocument
  import opened TrackingCommands
  import opened Commands

  // ---- Rows by their positions ------------------------------------------------------------------

  predicate RowIs(events: seq<RelayEvent>, j: nat, id: string) {
    j < |events| && events[j].identity.eventId == id
  }

  ghost predicate SomeRow(events: seq<RelayEvent>, id: string) {
    exists j: nat :: RowIs(events, j, id)
  }

  /** `event` stands at `j`, and the rows behind it have moved up by one. */
  predicate RowInserted(before: seq<RelayEvent>, after: seq<RelayEvent>, j: nat, event: RelayEvent) {
    && j <= |before| && |after| == |before| + 1 && after[j] == event.(sequence := j)
    && (forall k :: 0 <= k < j ==> after[k] == before[k])
    && (forall k :: j <= k < |before| ==> after[k + 1] == before[k].(sequence := k + 1))
  }

  predicate RowRemoved(before: seq<RelayEvent>, after: seq<RelayEvent>, j: nat) {
    && j < |before| && |after| == |before| - 1
    && (forall k :: 0 <= k < j ==> after[k] == before[k])
    && (forall k :: j < k < |before| ==> after[k - 1] == before[k].(sequence := k - 1))
  }

  predicate RowChanged(before: seq<RelayEvent>, after: seq<RelayEvent>, j: nat, row: RelayEvent) {
    && j < |before| && |after| == |before| && after[j] == row
    && (forall k :: 0 <= k < |before| && k != j ==> after[k] == before[k])
  }

  lemma {:induction false} NamedRow(events: seq<RelayEvent>, id: string)
    ensures id in EventIds(events) <==> SomeRow(events, id)
    ensures RequiredIndex(events, id).Ok? <==> SomeRow(events, id)
    ensures RequiredIndex(events, id).Ok? ==> RowIs(events, RequiredIndex(events, id).value, id)
    ensures RequiredIndex(events, id).Err? ==> RequiredIndex(events, id).error == EventMissing
  {
    if j: nat :| RowIs(events, j, id) { assert EventIds(events)[j] == id; }
    if id in EventIds(events) {
      var j :| 0 <= j < |events| && EventIds(events)[j] == id;
      assert RowIs(events, j, id);
    }
  }

  lemma {:induction false} OneRow(d: Document, id: string, j: nat)
    requires Valid(d) && RowIs(d.events, j, id)
    ensures RequiredIndex(d.events, id) == Ok(j) && FindEvent(d, id) == Some(d.events[j])
  {
    var i := IndexOf(EventIds(d.events), id);
    assert EventIds(d.events)[j] == id;
    assert i <= j;
  }

  // ---- Adding, deleting and moving rows ---------------------------------------------------------

  ghost predicate PlacedBefore(before: seq<RelayEvent>, after: seq<RelayEvent>, next: Option<string>, event: RelayEvent) {
    if next.None? then RowInserted(before, after, |before|, event)
    else exists j: nat :: RowIs(before, j, next.value) && RowInserted(before, after, j, event)
  }

  lemma {:induction false} PlacedExactly(events: seq<RelayEvent>, event: RelayEvent, next: Option<string>)
    requires Sequenced(events)
    ensures var r := Placed(events, event, next);
      && (r.Ok? <==> next.None? || SomeRow(events, next.value))
      && (r.Err? ==> r.error == EventMissing)
      && (r.Ok? ==> PlacedBefore(events, Stamped(r.value), next, event))
  {
    hide RequiredIndex;
    if next.Some? {
      NamedRow(events, next.value);
      if SomeRow(events, next.value) {
        var j := RequiredIndex(events, next.value).value;
        assert RowInserted(events, Stamped(InsertedAt(events, j, event)), j, event);
      }
    }
  }

  /** A manual row with a new identifier, put before a row that exists or at the end. */
  lemma {:induction false} AddExactly(env: Environment, d: Document, event: RelayEvent, next: Option<string>)
    requires Valid(d)
    ensures var r := ApplyAtomic(env, d, AddEvent(event, next));
      && (r == Err(NotManual) <==> event.identity.kind != Manual)
      && (r == Err(EventIdTaken) <==> event.identity.kind == Manual && SomeRow(d.events, event.identity.eventId))
      && (r == Err(EventMissing) <==> event.identity.kind == Manual && !SomeRow(d.events, event.identity.eventId)
                                      && next.Some? && !SomeRow(d.events, next.value))
      && (r.Err? ==> r.error in {NotManual, EventIdTaken, EventMissing})
      && (r.Ok? ==> r.value == d.(events := r.value.events) && PlacedBefore(d.events, r.value.events, next, event))
  {
    hide Placed, SomeRow, Stamped;
    NamedRow(d.events, event.identity.eventId);
    PlacedExactly(d.events, event, next);
  }

  /** The candidate as deleting or converting the pitch leaves it. */
  ghost predicate DetachedFrom(c: Candidate, candidates: seq<Candidate>, pitch: string, note: string, after: Candidate) {
    after == if ResolvedPitch(c, candidates) == Some(pitch)
      then c.(resolution := Excluded("manual_other", Some(note))) else c
  }

  ghost predicate AllDetached(before: seq<Candidate>, after: seq<Candidate>, pitch: string, note: string) {
    |after| == |before| && forall k :: 0 <= k < |before| ==> DetachedFrom(before[k], before, pitch, note, after[k])
  }

  lemma {:induction false} ExcludedAreDetached(d: Document, pitch: string, note: string)
    requires Valid(d)
    ensures AllDetached(d.candidates, ExcludedForPitch(d.candidates, pitch, note), pitch, note)
  {
    ExclusionDetaches(d.candidates, pitch, note);
    var after := ExcludedForPitch(d.candidates, pitch, note);
    forall k | 0 <= k < |d.candidates| && ResolvedPitch(d.candidates[k], d.candidates) == Some(pitch)
      ensures after[k] == d.candidates[k].(resolution := Excluded("manual_other", Some(note)))
    {
      var c := d.candidates[k];
      if c.resolution.Duplicate? {
        var target := FindCandidate(d.candidates, c.resolution.canonicalTrackingId).value;
        var j :| 0 <= j < |d.candidates| && d.candidates[j] == target;
        assert DirectlyLinked(d.candidates, c.resolution.canonicalTrackingId, pitch);
      }
    }
  }

  ghost predicate RowDeleted(d: Document, after: Document, id: string, j: nat) {
    && RowIs(d.events, j, id) && RowRemoved(d.events, after.events, j)
    && after == d.(events := after.events, candidates := after.candidates)
    && if d.events[j].payload.Pitch? then AllDetached(d.candidates, after.candidates, id, DELETED_NOTE)
       else after.candidates == d.candidates
  }

  /** Whatever resolved to a deleted pitch is excluded with a note. */
  lemma {:induction false} DeleteExactly(env: Environment, d: Document, id: string)
    requires Valid(d)
    ensures var r := ApplyAtomic(env, d, DeleteEvent(id));
      && (r.Err? <==> !SomeRow(d.events, id)) && (r.Err? ==> r == Err(EventMissing))
      && (r.Ok? ==> exists j: nat :: RowDeleted(d, r.value, id, j))
  {
    hide RequiredIndex, ExcludedForPitch, AllDetached;
    NamedRow(d.events, id);
    ExcludedAreDetached(d, id, DELETED_NOTE);
    var r := ApplyAtomic(env, d, DeleteEvent(id));
    if r.Ok? {
      var j := RequiredIndex(d.events, id).value;
      assert RowDeleted(d, r.value, id, j);
    }
  }

  /** The row is taken out and put where it was asked for; before itself it stays, known or not. */
  ghost predicate RowMoved(before: seq<RelayEvent>, after: seq<RelayEvent>, id: string, next: Option<string>) {
    if next == Some(id) then after == before
    else exists i: nat, rest :: RowIs(before, i, id) && RowRemoved(before, rest, i) && PlacedBefore(rest, after, next, before[i])
  }

  lemma {:induction false} SomeOther(events: seq<RelayEvent>, rest: seq<RelayEvent>, i: nat, id: string)
    requires RowRemoved(events, rest, i) && events[i].identity.eventId != id
    ensures SomeRow(rest, id) <==> SomeRow(events, id)
  {
    if j: nat :| RowIs(events, j, id) { assert RowIs(rest, if j < i then j else j - 1, id); }
    if j: nat :| RowIs(rest, j, id) {
      assert j >= i ==> rest[j] == events[j + 1].(sequence := j);
      assert RowIs(events, if j < i then j else j + 1, id);
    }
  }

  lemma {:induction false} StampedPlaced(events: seq<RelayEvent>, event: RelayEvent, next: Option<string>)
    ensures var (r, s) := (Placed(events, event, next), Placed(Stamped(events), event, next));
      && (r.Ok? <==> s.Ok?) && (r.Ok? ==> Stamped(r.value) == Stamped(s.value)) && (r.Err? ==> r == s)
  {
    hide IndexOf, EventIds, RequiredIndex;
    StampedIndex(events, if next.Some? then next.value else "");
    if next.None? {
      StampedInserted(events, |events|, event);
    } else if RequiredIndex(events, next.value).Ok? {
      StampedInserted(events, RequiredIndex(events, next.value).value, event);
    }
  }

  lemma {:induction false} StampedIndex(events: seq<RelayEvent>, id: string)
    ensures RequiredIndex(Stamped(events), id) == RequiredIndex(events, id)
  {
    hide IndexOf;
    assert EventIds(Stamped(events)) == EventIds(events);
  }

  lemma {:induction false} StampedInserted(events: seq<RelayEvent>, j: nat, event: RelayEvent)
    requires j <= |events|
    ensures Stamped(InsertedAt(Stamped(events), j, event)) == Stamped(InsertedAt(events, j, event))
  {
  }

  lemma {:induction false} MoveExactly(env: Environment, d: Document, id: string, next: Option<string>)
    requires Valid(d)
    ensures var r := ApplyAtomic(env, d, MoveEvent(id, next));
      && (r.Ok? <==> next == Some(id) || (SomeRow(d.events, id) && (next.None? || SomeRow(d.events, next.value))))
      && (r.Err? ==> r == Err(EventMissing))
      && (r.Ok? ==> r.value == d.(events := r.value.events) && RowMoved(d.events, r.value.events, id, next))
  {
    hide RequiredIndex, Placed, Stamped, SomeRow, EventIds;
    var r := ApplyAtomic(env, d, MoveEvent(id, next));
    NamedRow(d.events, id);
    if next == Some(id) {
      StampedFixed(d.events);
    } else if SomeRow(d.events, id) {
      var i := RequiredIndex(d.events, id).value;
      var rest := RemovedAt(d.events, i);
      StampedPlaced(rest, d.events[i], next);
      PlacedExactly(Stamped(rest), d.events[i], next);
      StampedRemoved(d.events, i);
      if next.Some? { SomeOther(d.events, Stamped(rest), i, next.value); }
    }
  }

  lemma {:induction false} StampedRemoved(events: seq<RelayEvent>, i: nat)
    requires Sequenced(events) && i < |events|
    ensures RowRemoved(events, Stamped(RemovedAt(events, i)), i)
  {
  }

  // ---- Changing one row -------------------------------------------------------------------------

  /** Identity and place stay; of a row from the source, so do the observed state and the text it is not given anew. */
  predicate RowMerged(current: RelayEvent, replacement: RelayEvent, merged: RelayEvent) {
    && merged.identity == current.identity && merged.sequence == current.sequence
    && merged.payload == replacement.payload && merged.inning == replacement.inning && merged.top == replacement.top
    && (current.identity.kind == Manual ==>
          merged.relayText == replacement.relayText && merged.observedStateAfter == replacement.observedStateAfter)
    && (current.identity.kind == Source ==>
          && merged.observedStateAfter == current.observedStateAfter
          && merged.relayText == if replacement.relayText.Some? then replacement.relayText else current.relayText)
  }

  ghost predicate RowReplaced(env: Environment, d: Document, after: Document, id: string, replacement: RelayEvent, j: nat, merged: RelayEvent) {
    && RowIs(d.events, j, id) && RowMerged(d.events[j], replacement, merged) && env.eventSchema(merged)
    && RowChanged(d.events, after.events, j, merged)
    && after == d.(events := after.events, candidates := after.candidates)
    && if d.events[j].payload.Pitch? && !replacement.payload.Pitch?
       then AllDetached(d.candidates, after.candidates, id, REPLACED_NOTE) else after.candidates == d.candidates
  }

  ghost predicate SchemaRefuses(env: Environment, d: Document, id: string, replacement: RelayEvent) {
    exists j: nat, merged ::
      RowIs(d.events, j, id) && RowMerged(d.events[j], replacement, merged) && !env.eventSchema(merged)
  }

  lemma {:induction false} MergedExactly(current: RelayEvent, replacement: RelayEvent, merged: RelayEvent)
    ensures RowMerged(current, replacement, merged) <==> merged == Merged(current, replacement)
  {
  }

  lemma {:induction false} StampedChanged(events: seq<RelayEvent>, j: nat, row: RelayEvent)
    requires Sequenced(events) && j < |events| && row.sequence == j
    ensures RowChanged(events, Stamped(events[j := row]), j, row)
  {
  }

  lemma {:induction false} ReplaceExactly(env: Environment, d: Document, id: string, replacement: RelayEvent)
    requires Valid(d)
    ensures var r := ApplyAtomic(env, d, ReplaceEvent(id, replacement));
      && (r == Err(EventMissing) <==> !SomeRow(d.events, id))
      && (r.Err? ==> r.error in {EventMissing, Refused})
      && (r == Err(Refused) <==> SchemaRefuses(env, d, id, replacement))
      && (r.Ok? ==> exists j: nat, merged :: RowReplaced(env, d, r.value, id, replacement, j, merged))
  {
    hide RequiredIndex, ExcludedForPitch, AllDetached, Merged, RowMerged, RowChanged, Stamped;
    NamedRow(d.events, id);
    ExcludedAreDetached(d, id, REPLACED_NOTE);
    var r := ApplyAtomic(env, d, ReplaceEvent(id, replacement));
    if SomeRow(d.events, id) {
      var j := RequiredIndex(d.events, id).value;
      var merged := Merged(d.events[j], replacement);
      forall i: nat, other | RowIs(d.events, i, id) && RowMerged(d.events[i], replacement, other) ensures i == j && other == merged {
        OneRow(d, id, i);
        MergedExactly(d.events[i], replacement, other);
      }
      MergedExactly(d.events[j], replacement, merged);
      MergedKeepsPlace(d.events[j], replacement, merged);
      StampedChanged(d.events, j, merged);
      if env.eventSchema(merged) {
        assert RowReplaced(env, d, r.value, id, replacement, j, merged);
      } else {
        assert SchemaRefuses(env, d, id, replacement);
      }
    }
  }

  lemma {:induction false} MergedKeepsPlace(current: RelayEvent, replacement: RelayEvent, merged: RelayEvent)
    requires RowMerged(current, replacement, merged)
    ensures merged.sequence == current.sequence
  {
  }

  ghost predicate RowObserved(env: Environment, d: Document, after: Document, id: string, observed: ObservedState, j: nat) {
    && RowIs(d.events, j, id) && d.events[j].identity.kind == Source
    && var corrected := ObservedAs(d.events[j], observed);
       && env.eventSchema(corrected) && RowChanged(d.events, after.events, j, corrected)
       && after == d.(events := after.events)
  }

  /** An empty observation is no observation. */
  function ObservedAs(event: RelayEvent, observed: ObservedState): RelayEvent {
    if |observed| == 0 then event.(observedStateAfter := None) else event.(observedStateAfter := Some(observed))
  }

  lemma {:induction false} ObserveExactly(env: Environment, d: Document, id: string, observed: ObservedState)
    requires Valid(d)
    ensures var r := ApplyAtomic(env, d, UpdateObservedState(id, observed));
      && (r == Err(EventMissing) <==> !SomeRow(d.events, id))
      && (r == Err(NotSource) <==> exists j: nat :: RowIs(d.events, j, id) && d.events[j].identity.kind != Source)
      && (r == Err(Refused) <==> exists j: nat :: RowIs(d.events, j, id) && d.events[j].identity.kind == Source
                                   && !env.eventSchema(ObservedAs(d.events[j], observed)))
      && (r.Err? ==> r.error in {EventMissing, NotSource, Refused})
      && (r.Ok? ==> exists j: nat :: RowObserved(env, d, r.value, id, observed, j))
  {
    hide RequiredIndex, RowChanged, Stamped;
    NamedRow(d.events, id);
    var r := ApplyAtomic(env, d, UpdateObservedState(id, observed));
    if SomeRow(d.events, id) {
      var j := RequiredIndex(d.events, id).value;
      forall i: nat | RowIs(d.events, i, id) ensures i == j { OneRow(d, id, i); }
      StampedChanged(d.events, j, ObservedAs(d.events[j], observed));
      assert |observed| == 0 <==> observed == map[];
      if r.Ok? { assert RowObserved(env, d, r.value, id, observed, j); }
    }
  }

  // ---- Rosters and official records -------------------------------------------------------------

  predicate PlayerAt(players: seq<RosterPlayer>, j: nat, id: string) {
    j < |players| && players[j].playerId == id
  }

  ghost predicate Listed(players: seq<RosterPlayer>, id: string) {
    exists j: nat :: PlayerAt(players, j, id)
  }

  predicate PlayerChanged(before: seq<RosterPlayer>, after: seq<RosterPlayer>, j: nat, player: RosterPlayer) {
    && j < |before| && |after| == |before| && after[j] == player
    && (forall k :: 0 <= k < |before| && k != j ==> after[k] == before[k])
  }

  /** One player of one side changes, nothing else. */
  ghost predicate RosterChanged(d: Document, after: Document, side: Side, j: nat, player: RosterPlayer) {
    match side
    case Away => PlayerChanged(d.away, after.away, j, player) && after == d.(away := after.away)
    case Home => PlayerChanged(d.home, after.home, j, player) && after == d.(home := after.home)
  }

  function SideOf(d: Document, side: Side): seq<RosterPlayer> {
    match side case Away => d.away case Home => d.home
  }

  lemma {:induction false} ListedPlayer(players: seq<RosterPlayer>, id: string)
    ensures var i := IndexOf(PlayerIds(players), id);
      (i < |players| <==> Listed(players, id)) && (i < |players| ==> PlayerAt(players, i, id))
  {
    var i := IndexOf(PlayerIds(players), id);
    if j: nat :| PlayerAt(players, j, id) { assert PlayerIds(players)[j] == id; }
    if i < |players| { assert PlayerAt(players, i, id); }
  }

  lemma {:induction false} RosterExactly(env: Environment, d: Document, side: Side, id: string, player: RosterPlayer)
    ensures var r := ApplyAtomic(env, d, UpdateRosterPlayer(side, id, player));
      && (r == Err(PlayerIdChanged) <==> player.playerId != id)
      && (r == Err(PlayerMissing) <==> player.playerId == id && !Listed(SideOf(d, side), id))
      && (r.Err? ==> r.error in {PlayerIdChanged, PlayerMissing})
      && (r.Ok? ==> exists j: nat :: PlayerAt(SideOf(d, side), j, id) && RosterChanged(d, r.value, side, j, player))
  {
    hide IndexOf;
    ListedPlayer(SideOf(d, side), id);
    var r := ApplyAtomic(env, d, UpdateRosterPlayer(side, id, player));
    if r.Ok? { assert RosterChanged(d, r.value, side, IndexOf(PlayerIds(SideOf(d, side)), id), player); }
  }

  ghost predicate PositionsSet(d: Document, after: Document, side: Side, id: string, positions: seq<string>, j: nat) {
    && PlayerAt(SideOf(d, side), j, id)
    && RosterChanged(d, after, side, j, SideOf(d, side)[j].(positions := positions))
  }

  lemma {:induction false} PositionExactly(env: Environment, d: Document, side: Side, id: string, positions: seq<string>)
    ensures var r := ApplyAtomic(env, d, UpdateRosterPosition(side, id, positions));
      && (r.Err? <==> !Listed(SideOf(d, side), id)) && (r.Err? ==> r == Err(PlayerMissing))
      && (r.Ok? ==> exists j: nat :: PositionsSet(d, r.value, side, id, positions, j))
  {
    hide IndexOf;
    ListedPlayer(SideOf(d, side), id);
    var r := ApplyAtomic(env, d, UpdateRosterPosition(side, id, positions));
    if r.Ok? {
      var j := IndexOf(PlayerIds(SideOf(d, side)), id);
      assert PositionsSet(d, r.value, side, id, positions, j);
    }
  }

  /** The first line of the player is replaced; a player without a line gets one at the end. */
  ghost predicate RecordSet(before: seq<OfficialRecord>, after: seq<OfficialRecord>, record: OfficialRecord) {
    || (after == before + [record] && forall k :: 0 <= k < |before| ==> before[k].playerId != record.playerId)
    || exists j: nat :: j < |before| && before[j].playerId == record.playerId && after == before[j := record]
         && forall k :: 0 <= k < j ==> before[k].playerId != record.playerId
  }

  lemma {:induction false} RecordSetExactly(records: seq<OfficialRecord>, id: string, record: OfficialRecord)
    ensures var r := UpdatedRecords(records, id, record);
      && (r.Err? <==> record.playerId != id) && (r.Err? ==> r.error == PlayerIdChanged)
      && (r.Ok? ==> RecordSet(records, r.value, record))
  {
    hide IndexOf;
    assert forall k :: 0 <= k < |records| ==> RecordIds(records)[k] == records[k].playerId;
  }

  lemma {:induction false} RecordExactly(env: Environment, d: Document, id: string, record: OfficialRecord)
    ensures var r := ApplyAtomic(env, d, UpdateBatterRecord(id, record));
      && (r.Err? <==> record.playerId != id) && (r.Err? ==> r == Err(PlayerIdChanged))
      && (r.Ok? ==> r.value == d.(batters := r.value.batters) && RecordSet(d.batters, r.value.batters, record))
    ensures var r := ApplyAtomic(env, d, UpdatePitcherRecord(id, record));
      && (r.Err? <==> record.playerId != id) && (r.Err? ==> r == Err(PlayerIdChanged))
      && (r.Ok? ==> r.value == d.(pitchers := r.value.pitchers) && RecordSet(d.pitchers, r.value.pitchers, record))
  {
    hide UpdatedRecords, RecordSet;
    RecordSetExactly(d.batters, id, record);
    RecordSetExactly(d.pitchers, id, record);
  }

  // ---- Resolving candidates ---------------------------------------------------------------------

  predicate CandidateAt(candidates: seq<Candidate>, j: nat, id: string) {
    j < |candidates| && candidates[j].trackingId == id
  }

  ghost predicate Tracked(candidates: seq<Candidate>, id: string) {
    exists j: nat :: CandidateAt(candidates, j, id)
  }

  /** Linked to the pitch, or a duplicate of a candidate that is. */
  ghost predicate StandsFor(c: Candidate, candidates: seq<Candidate>, pitch: string) {
    || c.resolution == Linked(pitch)
    || (c.resolution.Duplicate?
        && exists j: nat :: CandidateAt(candidates, j, c.resolution.canonicalTrackingId)
             && candidates[j].resolution == Linked(pitch))
  }

  lemma {:induction false} TrackedCandidate(candidates: seq<Candidate>, id: string)
    ensures FindCandidate(candidates, id).Some? <==> Tracked(candidates, id)
  {
    if j: nat :| CandidateAt(candidates, j, id) { assert TrackingIds(candidates)[j] == id; }
    if id in TrackingIds(candidates) {
      var j :| 0 <= j < |candidates| && TrackingIds(candidates)[j] == id;
      assert CandidateAt(candidates, j, id);
    }
  }

  lemma {:induction false} StandsForExactly(c: Candidate, candidates: seq<Candidate>, pitch: string)
    requires Distinct(TrackingIds(candidates))
    ensures ResolvedPitch(c, candidates) == Some(pitch) <==> StandsFor(c, candidates, pitch)
  {
    if c.resolution.Duplicate? {
      var id := c.resolution.canonicalTrackingId;
      TrackedCandidate(candidates, id);
      forall j: nat | CandidateAt(candidates, j, id) ensures FindCandidate(candidates, id) == Some(candidates[j]) {
        FindsCandidateAt(candidates, j);
      }
    }
  }

  /** Only the named candidate changes, and of it only the resolution. */
  ghost predicate ResolutionSet(d: Document, after: Document, id: string, resolution: Resolution) {
    && after == d.(candidates := after.candidates) && |after.candidates| == |d.candidates|
    && Tracked(d.candidates, id)
    && (forall k :: 0 <= k < |d.candidates| ==>
          after.candidates[k] ==
            if d.candidates[k].trackingId == id then d.candidates[k].(resolution := resolution) else d.candidates[k])
  }

  ghost predicate NowStandsFor(d: Document, after: Document, id: string, pitch: string) {
    |after.candidates| == |d.candidates| && forall k :: 0 <= k < |d.candidates| && d.candidates[k].trackingId == id ==>
      ResolvedPitch(after.candidates[k], after.candidates) == Some(pitch)
  }

  ghost predicate SomePitch(events: seq<RelayEvent>, id: string) {
    exists j: nat :: RowIs(events, j, id) && events[j].payload.Pitch?
  }

  lemma {:induction false} PitchExactly(d: Document, id: string)
    requires Valid(d)
    ensures IsPitch(d, id) <==> SomePitch(d.events, id)
  {
    NamedRow(d.events, id);
    if j: nat :| RowIs(d.events, j, id) && d.events[j].payload.Pitch? { OneRow(d, id, j); }
    if IsPitch(d, id) {
      var j: nat :| RowIs(d.events, j, id);
      OneRow(d, id, j);
    }
  }

  lemma {:induction false} UpdateExactly(d: Document, id: string, resolution: Resolution)
    requires Valid(d)
    ensures var r := UpdateResolution(d, id, resolution);
      && (r == Err(NotAPitch) <==> resolution.Linked? && !SomePitch(d.events, resolution.pitchEventId))
      && (r == Err(TrackingMissing) <==>
            (resolution.Linked? ==> SomePitch(d.events, resolution.pitchEventId)) && !Tracked(d.candidates, id))
      && (r.Err? ==> r.error in {NotAPitch, TrackingMissing})
      && (r.Ok? ==> ResolutionSet(d, r.value, id, resolution))
  {
    hide IsPitch, SomePitch, Valid;
    TrackedCandidate(d.candidates, id);
    if resolution.Linked? { PitchExactly(d, resolution.pitchEventId); }
  }

  /** A linked candidate stands for the pitch it was linked to. */
  lemma {:induction false} LinkExactly(env: Environment, d: Document, id: string, pitch: string)
    requires Valid(d)
    ensures var r := ApplyAtomic(env, d, LinkTracking(id, pitch));
      && (r == Err(NotAPitch) <==> !SomePitch(d.events, pitch))
      && (r == Err(TrackingMissing) <==> SomePitch(d.events, pitch) && !Tracked(d.candidates, id))
      && (r.Err? ==> r.error in {NotAPitch, TrackingMissing})
      && (r.Ok? ==> ResolutionSet(d, r.value, id, Linked(pitch)) && NowStandsFor(d, r.value, id, pitch))
  {
    hide UpdateResolution, SomePitch;
    UpdateExactly(d, id, Linked(pitch));
  }

  /** A duplicate stands for whatever its canonical candidate is linked to. */
  lemma {:induction false} DuplicateExactly(env: Environment, d: Document, id: string, canonical: string)
    requires Valid(d)
    ensures var r := ApplyAtomic(env, d, MarkDuplicate(id, canonical));
      && (r == Err(SelfDuplicate) <==> id == canonical)
      && (r == Err(TrackingMissing) <==> id != canonical && !(Tracked(d.candidates, canonical) && Tracked(d.candidates, id)))
      && (r.Err? ==> r.error in {SelfDuplicate, TrackingMissing})
      && (r.Ok? ==> ResolutionSet(d, r.value, id, Duplicate(canonical)))
      && (r.Ok? ==> forall j: nat :: CandidateAt(d.candidates, j, canonical) && d.candidates[j].resolution.Linked? ==>
                      NowStandsFor(d, r.value, id, d.candidates[j].resolution.pitchEventId))
  {
    hide UpdateResolution, Valid;
    TrackedCandidate(d.candidates, canonical);
    UpdateExactly(d, id, Duplicate(canonical));
    var r := ApplyAtomic(env, d, MarkDuplicate(id, canonical));
    if r.Ok? {
      SameIdsDistinct(d, r.value, id, Duplicate(canonical));
      forall j: nat | CandidateAt(d.candidates, j, canonical) && d.candidates[j].resolution.Linked?
        ensures NowStandsFor(d, r.value, id, d.candidates[j].resolution.pitchEventId)
      {
        forall k | 0 <= k < |d.candidates| && d.candidates[k].trackingId == id
          ensures ResolvedPitch(r.value.candidates[k], r.value.candidates) == Some(d.candidates[j].resolution.pitchEventId)
        {
          assert CandidateAt(r.value.candidates, j, canonical);
          StandsForExactly(r.value.candidates[k], r.value.candidates, d.candidates[j].resolution.pitchEventId);
        }
      }
    }
  }

  lemma {:induction false} SameIdsDistinct(d: Document, after: Document, id: string, resolution: Resolution)
    requires Valid(d) && ResolutionSet(d, after, id, resolution)
    ensures Distinct(TrackingIds(after.candidates))
  {
    assert TrackingIds(after.candidates) == TrackingIds(d.candidates);
  }

  /** Excluded and unlinked candidates stand for nothing. */
  lemma {:induction false} ReleaseExactly(env: Environment, d: Document, id: string, reason: string, note: Option<string>)
    requires Valid(d)
    ensures var r := ApplyAtomic(env, d, ExcludeTracking(id, reason, note));
      && (r.Err? <==> !Tracked(d.candidates, id)) && (r.Err? ==> r == Err(TrackingMissing))
      && (r.Ok? ==> ResolutionSet(d, r.value, id, Excluded(reason, note)))
    ensures var r := ApplyAtomic(env, d, UnlinkTracking(id));
      && (r.Err? <==> !Tracked(d.candidates, id)) && (r.Err? ==> r == Err(TrackingMissing))
      && (r.Ok? ==> ResolutionSet(d, r.value, id, Pending))
  {
    hide UpdateResolution, Valid;
    UpdateExactly(d, id, Excluded(reason, note));
    UpdateExactly(d, id, Pending);
  }

  // ---- Repairing and following plate appearances ------------------------------------------------

  /** The compiler puts the pitch, an actual one, into this plate appearance; the last fact of a pitch counts. */
  ghost predicate Assigned(facts: seq<PitchFact>, pitch: string, appearance: string) {
    exists f: nat :: LastFact(facts, pitch, appearance, f)
  }

  predicate LastFact(facts: seq<PitchFact>, pitch: string, appearance: string, f: nat) {
    && f < |facts| && facts[f] == PitchFact(pitch, true, Some(appearance))
    && forall g :: f < g < |facts| ==> facts[g].pitchId != pitch
  }

  lemma {:induction false} AssignedExactly(facts: seq<PitchFact>, pitch: string, appearance: string)
    ensures Appearance(facts, pitch) == Some(appearance) <==> Assigned(facts, pitch, appearance)
  {
    if facts != [] {
      var n := |facts| - 1;
      if facts[n].pitchId != pitch {
        AssignedExactly(facts[..n], pitch, appearance);
        if Assigned(facts[..n], pitch, appearance) {
          var f: nat :| LastFact(facts[..n], pitch, appearance, f);
          assert forall g :: f < g < n ==> facts[g] == facts[..n][g];
          assert LastFact(facts, pitch, appearance, f);
        }
        if f: nat :| LastFact(facts, pitch, appearance, f) {
          assert LastFact(facts[..n], pitch, appearance, f);
        }
      } else if facts[n] == PitchFact(pitch, true, Some(appearance)) {
        assert LastFact(facts, pitch, appearance, n);
      }
    }
  }

  /** The candidate names no row; it or the linked candidate it duplicates with the same context has a compiled appearance. */
  ghost predicate RepairsTo(d: Document, facts: seq<PitchFact>, c: Candidate, appearance: string) {
    && c.plateAppearanceEventId.Some? && !SomeRow(d.events, c.plateAppearanceEventId.value)
    && (exists pitch :: StandsFor(c, d.candidates, pitch) && Assigned(facts, pitch, appearance))
    && (c.resolution.Duplicate? ==>
          exists j: nat :: CandidateAt(d.candidates, j, c.resolution.canonicalTrackingId)
            && d.candidates[j].plateAppearanceEventId == c.plateAppearanceEventId)
  }

  lemma {:induction false} RepairsExactly(d: Document, facts: seq<PitchFact>, c: Candidate, appearance: string)
    requires Valid(d)
    ensures RepairsTo(d, facts, c, appearance) <==>
      Repairable(c, d, facts) && CompiledAppearance(c, d.candidates, facts) == Some(appearance)
  {
    hide Assigned, Appearance, StandsFor, ResolvedPitch, SomeRow;
    if c.plateAppearanceEventId.Some? { NamedRow(d.events, c.plateAppearanceEventId.value); }
    forall pitch ensures ResolvedPitch(c, d.candidates) == Some(pitch) <==> StandsFor(c, d.candidates, pitch) {
      StandsForExactly(c, d.candidates, pitch);
    }
    forall pitch ensures Appearance(facts, pitch) == Some(appearance) <==> Assigned(facts, pitch, appearance) {
      AssignedExactly(facts, pitch, appearance);
    }
    ResolvedMeansLinked(d, c);
    if c.resolution.Duplicate? {
      forall j: nat | CandidateAt(d.candidates, j, c.resolution.canonicalTrackingId)
        ensures FindCandidate(d.candidates, c.resolution.canonicalTrackingId) == Some(d.candidates[j])
      {
        FindsCandidateAt(d.candidates, j);
      }
      TrackedCandidate(d.candidates, c.resolution.canonicalTrackingId);
    }
  }

  lemma {:induction false} ResolvedMeansLinked(d: Document, c: Candidate)
    ensures ResolvedPitch(c, d.candidates).Some? <==>
      c.resolution.Linked? || (c.resolution.Duplicate?
        && FindCandidate(d.candidates, c.resolution.canonicalTrackingId).Some?
        && FindCandidate(d.candidates, c.resolution.canonicalTrackingId).value.resolution.Linked?)
  {
  }

  ghost predicate CandidateRepaired(d: Document, facts: seq<PitchFact>, c: Candidate, after: Candidate) {
    || (after == c && forall appearance :: !RepairsTo(d, facts, c, appearance))
    || exists appearance :: RepairsTo(d, facts, c, appearance) && after == c.(plateAppearanceEventId := Some(appearance))
  }

  lemma {:induction false} OneRepaired(d: Document, facts: seq<PitchFact>, c: Candidate)
    requires Valid(d)
    ensures CandidateRepaired(d, facts, c, Repair(c, d, facts))
    ensures Repairable(c, d, facts) <==> exists appearance :: RepairsTo(d, facts, c, appearance)
  {
    hide Repairable, CompiledAppearance, RepairsTo, Valid;
    forall appearance ensures RepairsTo(d, facts, c, appearance) <==>
      Repairable(c, d, facts) && CompiledAppearance(c, d.candidates, facts) == Some(appearance)
    {
      RepairsExactly(d, facts, c, appearance);
    }
    if Repairable(c, d, facts) { RepairableHasAppearance(d, facts, c); }
  }

  lemma {:induction false} RepairableHasAppearance(d: Document, facts: seq<PitchFact>, c: Candidate)
    requires Repairable(c, d, facts)
    ensures CompiledAppearance(c, d.candidates, facts).Some?
  {
  }

  ghost predicate ReconcileAnswers(d: Document, facts: seq<PitchFact>, r: Result<Document, Error>) {
    match r
    case Err(e) =>
      && e == NothingToReconcile
      && forall k, appearance :: 0 <= k < |d.candidates| ==> !RepairsTo(d, facts, d.candidates[k], appearance)
    case Ok(after) =>
      && (exists k, appearance :: 0 <= k < |d.candidates| && RepairsTo(d, facts, d.candidates[k], appearance))
      && after == d.(candidates := after.candidates) && |after.candidates| == |d.candidates|
      && forall k :: 0 <= k < |d.candidates| ==> CandidateRepaired(d, facts, d.candidates[k], after.candidates[k])
  }

  /** A repair needs something to repair, and touches nothing but the plate appearances of lost candidates. */
  lemma {:induction false} ReconcileExactly(env: Environment, d: Document)
    requires Valid(d)
    ensures var r := ApplyAtomic(env, d, ReconcileTracking);
      && (env.compile(d).Err? ==> r == Err(env.compile(d).error))
      && (env.compile(d).Ok? ==> ReconcileAnswers(d, env.compile(d).value.pitchFacts, r))
  {
    hide Repairable, RepairsTo, CandidateRepaired, Repair, Valid;
    if env.compile(d).Ok? {
      var facts := env.compile(d).value.pitchFacts;
      forall k | 0 <= k < |d.candidates|
        ensures CandidateRepaired(d, facts, d.candidates[k], Repair(d.candidates[k], d, facts))
        ensures Repairable(d.candidates[k], d, facts) <==> exists appearance :: RepairsTo(d, facts, d.candidates[k], appearance)
      {
        OneRepaired(d, facts, d.candidates[k]);
      }
    }
  }

  /** The candidate stood for an actual pitch in the compiled plate appearance, and that pitch is now in this one. */
  ghost predicate FollowsTo(
      before: Document, beforeFacts: seq<PitchFact>, after: Document, afterFacts: seq<PitchFact>, c: Candidate, now: string)
  {
    exists j: nat, pitch, was ::
      && CandidateAt(before.candidates, j, c.trackingId)
      && StandsFor(before.candidates[j], before.candidates, pitch) && StandsFor(c, after.candidates, pitch)
      && Assigned(beforeFacts, pitch, was) && Assigned(afterFacts, pitch, now)
      && before.candidates[j].plateAppearanceEventId == Some(was) == c.plateAppearanceEventId
  }

  /** After an edit exactly these candidates follow their pitch. */
  lemma {:induction false} FollowExactly(
      before: Document, beforeFacts: seq<PitchFact>, after: Document, afterFacts: seq<PitchFact>, c: Candidate)
    requires Distinct(TrackingIds(before.candidates)) && Distinct(TrackingIds(after.candidates))
    ensures var r := Follow(c, before, beforeFacts, after, afterFacts);
      || (r == c && forall now :: !FollowsTo(before, beforeFacts, after, afterFacts, c, now))
      || exists now :: FollowsTo(before, beforeFacts, after, afterFacts, c, now) && r == c.(plateAppearanceEventId := Some(now))
  {
    hide Assigned, Appearance, StandsFor, ResolvedPitch, FindCandidate;
    forall j: nat | CandidateAt(before.candidates, j, c.trackingId)
      ensures FindCandidate(before.candidates, c.trackingId) == Some(before.candidates[j])
    {
      FindsCandidateAt(before.candidates, j);
    }
    TrackedCandidate(before.candidates, c.trackingId);
    forall pitch, b: Candidate
      ensures ResolvedPitch(b, before.candidates) == Some(pitch) <==> StandsFor(b, before.candidates, pitch)
      ensures ResolvedPitch(b, after.candidates) == Some(pitch) <==> StandsFor(b, after.candidates, pitch)
    {
      StandsForExactly(b, before.candidates, pitch);
      StandsForExactly(b, after.candidates, pitch);
    }
    forall pitch, appearance
      ensures Appearance(beforeFacts, pitch) == Some(appearance) <==> Assigned(beforeFacts, pitch, appearance)
      ensures Appearance(afterFacts, pitch) == Some(appearance) <==> Assigned(afterFacts, pitch, appearance)
    {
      AssignedExactly(beforeFacts, pitch, appearance);
      AssignedExactly(afterFacts, pitch, appearance);
    }
  }

  // ---- A whole correction -----------------------------------------------------------------------

  /** One ledger after another, each made from the one before by the next command. */
  ghost predicate Ledgers(env: Environment, ds: seq<Document>, commands: seq<Command>) {
    |ds| == |commands| + 1 && forall k :: 0 <= k < |commands| ==> ApplyAtomic(env, ds[k], commands[k]) == Ok(ds[k + 1])
  }

  ghost predicate LeadsTo(env: Environment, d: Document, commands: seq<Command>, after: Document) {
    exists ds :: Ledgers(env, ds, commands) && ds[0] == d && ds[|commands|] == after
  }

  /** A batch is accepted exactly when every command is accepted on the ledger the ones before it left. */
  lemma {:induction false} BatchExactly(env: Environment, d: Document, commands: seq<Command>, after: Document)
    ensures ApplyAll(env, d, commands) == Ok(after) <==> LeadsTo(env, d, commands, after)
    decreases |commands|
  {
    hide ApplyAtomic;
    if commands == [] {
      assert Ledgers(env, [d], commands);
      if LeadsTo(env, d, commands, after) { assert after == d; }
    } else {
      var next := ApplyAtomic(env, d, commands[0]);
      if next.Ok? {
        BatchExactly(env, next.value, commands[1..], after);
        if LeadsTo(env, next.value, commands[1..], after) {
          var ds :| Ledgers(env, ds, commands[1..]) && ds[0] == next.value && ds[|commands| - 1] == after;
          FirstLedger(env, d, ds, commands);
        }
      }
      if ds :| Ledgers(env, ds, commands) && ds[0] == d && ds[|commands|] == after {
        LaterLedgers(env, ds, commands);
        assert next.value == ds[1..][0] && ds[1..][|commands| - 1] == after;
      }
    }
  }

  lemma {:induction false} FirstLedger(env: Environment, d: Document, ds: seq<Document>, commands: seq<Command>)
    requires commands != [] && Ledgers(env, ds, commands[1..]) && ApplyAtomic(env, d, commands[0]) == Ok(ds[0])
    ensures Ledgers(env, [d] + ds, commands) && ([d] + ds)[0] == d && ([d] + ds)[|commands|] == ds[|commands| - 1]
  {
    hide ApplyAtomic;
    var all := [d] + ds;
    forall k | 0 <= k < |commands| ensures ApplyAtomic(env, all[k], commands[k]) == Ok(all[k + 1]) {
      if k > 0 { assert commands[1..][k - 1] == commands[k] && all[k] == ds[k - 1] && all[k + 1] == ds[k]; }
    }
  }

  lemma {:induction false} LaterLedgers(env: Environment, ds: seq<Document>, commands: seq<Command>)
    requires commands != [] && Ledgers(env, ds, commands)
    ensures Ledgers(env, ds[1..], commands[1..]) && ApplyAtomic(env, ds[0], commands[0]) == Ok(ds[1])
  {
    hide ApplyAtomic;
    forall k | 0 <= k < |commands| - 1 ensures ApplyAtomic(env, ds[1..][k], commands[1..][k]) == Ok(ds[1..][k + 1]) {
      assert ApplyAtomic(env, ds[k + 1], commands[k + 1]) == Ok(ds[k + 2]);
    }
  }

  /** The candidate followed its pitch, or there was nothing to follow. */
  ghost predicate CandidateFollowed(
      before: Document, beforeFacts: seq<PitchFact>, after: Document, afterFacts: seq<PitchFact>, c: Candidate, now: Candidate)
  {
    || (now == c && forall appearance :: !FollowsTo(before, beforeFacts, after, afterFacts, c, appearance))
    || exists appearance :: FollowsTo(before, beforeFacts, after, afterFacts, c, appearance)
         && now == c.(plateAppearanceEventId := Some(appearance))
  }

  /** The edited ledger, in which the candidates that agreed follow their pitches, with its own compile. */
  ghost predicate Corrected(env: Environment, d: Document, before: Replay, raw: Document, replay: Replay, result: Correction) {
    && result.document == raw.(candidates := result.document.candidates)
    && |result.document.candidates| == |raw.candidates|
    && (forall k :: 0 <= k < |raw.candidates| ==>
          CandidateFollowed(d, before.pitchFacts, raw, replay.pitchFacts, raw.candidates[k], result.document.candidates[k]))
    && env.documentSchema(result.document) && env.compile(result.document) == Ok(result.replay)
  }

  /** What a correction answers, from the schema of its batch to the compile of the corrected ledger. */
  lemma {:induction false} CorrectionExactly(env: Environment, d: Document, before: Replay, commands: seq<Command>)
    requires Valid(d)
    ensures var r := ApplyCorrection(env, d, before, commands);
      && (!env.commandSchema(commands) ==> r == Err(Refused))
      && (env.commandSchema(commands) && ApplyAll(env, d, commands).Err? ==> r == Err(ApplyAll(env, d, commands).error))
    ensures forall raw :: env.commandSchema(commands) && ApplyAll(env, d, commands) == Ok(raw) ==>
      var r := ApplyCorrection(env, d, before, commands);
      && (!env.documentSchema(raw) ==> r == Err(Refused))
      && (env.documentSchema(raw) && env.compile(raw).Err? ==> r == Err(env.compile(raw).error))
      && (r.Ok? ==> env.compile(raw).Ok? && Corrected(env, d, before, raw, env.compile(raw).value, r.value))
  {
    hide ApplyAll, Followed, CandidateFollowed, Valid;
    if ApplyAll(env, d, commands).Ok? {
      var raw := ApplyAll(env, d, commands).value;
      StructureNeverRefused(env, d, commands);
      if env.compile(raw).Ok? { FollowedAll(d, before.pitchFacts, raw, env.compile(raw).value.pitchFacts); }
    }
  }

  lemma {:induction false} FollowedAll(
      before: Document, beforeFacts: seq<PitchFact>, after: Document, afterFacts: seq<PitchFact>)
    requires Valid(before) && Valid(after)
    ensures var followed := Followed(before, beforeFacts, after, afterFacts);
      |followed| == |after.candidates| && forall k :: 0 <= k < |followed| ==>
        CandidateFollowed(before, beforeFacts, after, afterFacts, after.candidates[k], followed[k])
  {
    hide Follow, FollowsTo;
    forall k | 0 <= k < |after.candidates|
      ensures CandidateFollowed(before, beforeFacts, after, afterFacts, after.candidates[k],
        Followed(before, beforeFacts, after, afterFacts)[k])
    {
      FollowExactly(before, beforeFacts, after, afterFacts, after.candidates[k]);
    }
  }

  /** Without a compile of its own the ledger is decoded and compiled first. */
  lemma {:induction false} LedgerExactly(env: Environment, d: Document, commands: seq<Command>)
    ensures var r := ApplyToLedger(env, d, commands);
      && (!(env.documentSchema(d) && WellFormed(d)) ==> r == Err(Refused))
      && (env.documentSchema(d) && WellFormed(d) && env.compile(d).Err? ==> r == Err(env.compile(d).error))
      && (env.documentSchema(d) && WellFormed(d) && env.compile(d).Ok? ==>
            r == ApplyCorrection(env, d, env.compile(d).value, commands))
  {
    hide WellFormed, ApplyCorrection;
    DecodeExactly(env, d);
  }
}
