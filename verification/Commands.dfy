/** The correction commands: edits of the ledger that keep its cross-references intact. */
module Commands {
  import opened Wrappers
  import opened GameDocument
  import opened TrackingCommands

  const DELETED_NOTE := "연결된 원장 투구 행이 삭제되었습니다."
  const REPLACED_NOTE := "연결된 원장 투구 행이 비투구 행으로 교체되었습니다."

  // ---- Rows -------------------------------------------------------------------------------------

  function Stamped(events: seq<RelayEvent>): (r: seq<RelayEvent>)
    ensures |r| == |events| && Sequenced(r)
  {
    seq(|events|, i requires 0 <= i < |events| => events[i].(sequence := i))
  }

  lemma {:induction false} StampedKeepsRows(events: seq<RelayEvent>)
    ensures EventIds(Stamped(events)) == EventIds(events)
    ensures forall id :: HasPitch(Stamped(events), id) <==> HasPitch(events, id)
  {
    assert EventIds(Stamped(events)) == EventIds(events);
    forall id ensures HasPitch(Stamped(events), id) <==> HasPitch(events, id) {
      if HasPitch(events, id) {
        var i :| 0 <= i < |events| && events[i].identity.eventId == id && events[i].payload.Pitch?;
        assert Stamped(events)[i].payload.Pitch?;
      }
    }
  }

  lemma {:induction false} StampedFixed(events: seq<RelayEvent>)
    requires Sequenced(events)
    ensures Stamped(events) == events
  {
  }

  function WithEvents(d: Document, events: seq<RelayEvent>): Document {
    d.(events := Stamped(events))
  }

  /** Where `id` stands, if anywhere. */
  function RequiredIndex(events: seq<RelayEvent>, id: string): (r: Result<nat, Error>)
    ensures r.Ok? ==> r.value < |events| && events[r.value].identity.eventId == id
    ensures r.Ok? <==> id in EventIds(events)
  {
    var i := IndexOf(EventIds(events), id);
    if i < |events| then Ok(i) else Err(EventMissing)
  }

  function InsertedAt(events: seq<RelayEvent>, i: nat, event: RelayEvent): (r: seq<RelayEvent>)
    requires i <= |events|
    ensures |r| == |events| + 1 && r[i] == event
  {
    events[..i] + [event] + events[i..]
  }

  function RemovedAt(events: seq<RelayEvent>, i: nat): (r: seq<RelayEvent>)
    requires i < |events|
    ensures |r| == |events| - 1
  {
    events[..i] + events[i + 1..]
  }

  /** The rows with `event` put directly before the named row, or last when none is named. */
  function Placed(events: seq<RelayEvent>, event: RelayEvent, before: Option<string>): (r: Result<seq<RelayEvent>, Error>)
    ensures r.Ok? ==> |r.value| == |events| + 1
    ensures r.Ok? <==> before.None? || before.value in EventIds(events)
  {
    match before
    case None => Ok(InsertedAt(events, |events|, event))
    case Some(id) =>
      match RequiredIndex(events, id)
      case Err(e) => Err(e)
      case Ok(i) => Ok(InsertedAt(events, i, event))
  }

  function Inserted(events: seq<RelayEvent>, event: RelayEvent, before: Option<string>): Result<seq<RelayEvent>, Error> {
    if event.identity.kind != Manual then Err(NotManual)
    else if event.identity.eventId in EventIds(events) then Err(EventIdTaken)
    else Placed(events, event, before)
  }

  method InsertEvent(events: seq<RelayEvent>, event: RelayEvent, before: Option<string>)
    returns (r: Result<seq<RelayEvent>, Error>)
    ensures r == Inserted(events, event, before)
  {
    if event.identity.kind != Manual { return Err(NotManual); }
    if event.identity.eventId in EventIds(events) { return Err(EventIdTaken); }
    var result := events;
    if before.None? {
      result := result + [event];
      assert result == InsertedAt(events, |events|, event);
    } else {
      var index := RequiredIndex(result, before.value);
      if index.Err? { return Err(index.error); }
      result := result[..index.value] + [event] + result[index.value..];
    }
    return Ok(result);
  }

  function Moved(events: seq<RelayEvent>, id: string, before: Option<string>): Result<seq<RelayEvent>, Error> {
    if before == Some(id) then Ok(events) else
    match RequiredIndex(events, id)
    case Err(e) => Err(e)
    case Ok(i) => Placed(RemovedAt(events, i), events[i], before)
  }

  method MoveRow(events: seq<RelayEvent>, id: string, before: Option<string>) returns (r: Result<seq<RelayEvent>, Error>)
    ensures r == Moved(events, id, before)
  {
    if before == Some(id) { return Ok(events); }
    var result := events;
    var source := RequiredIndex(result, id);
    if source.Err? { return Err(source.error); }
    var event := result[source.value];
    result := result[..source.value] + result[source.value + 1..];
    assert result == RemovedAt(events, source.value);
    if before.None? {
      result := result + [event];
      assert result == InsertedAt(RemovedAt(events, source.value), |events| - 1, event);
    } else {
      var index := RequiredIndex(result, before.value);
      if index.Err? { return Err(index.error); }
      result := result[..index.value] + [event] + result[index.value..];
    }
    return Ok(result);
  }

  /** A replacement keeps the identity and place of the row, and what the provider observed there. */
  function Merged(current: RelayEvent, replacement: RelayEvent): RelayEvent {
    var common := replacement.(identity := current.identity, sequence := current.sequence);
    if current.identity.kind == Source then
      common.(
        relayText := if replacement.relayText.Some? || current.relayText.None? then replacement.relayText else current.relayText,
        observedStateAfter := current.observedStateAfter)
    else common
  }

  function Replaced(env: Environment, d: Document, id: string, replacement: RelayEvent): Result<Document, Error> {
    match RequiredIndex(d.events, id)
    case Err(e) => Err(e)
    case Ok(i) =>
      var current := d.events[i];
      var merged := Merged(current, replacement);
      if !env.eventSchema(merged) then Err(Refused) else
      var replaced := WithEvents(d, d.events[i := merged]);
      if current.payload.Pitch? && !replacement.payload.Pitch?
      then Ok(replaced.(candidates := ExcludedForPitch(d.candidates, id, REPLACED_NOTE)))
      else Ok(replaced)
  }

  function Deleted(d: Document, id: string): Result<Document, Error> {
    match RequiredIndex(d.events, id)
    case Err(e) => Err(e)
    case Ok(i) =>
      var without := WithEvents(d, RemovedAt(d.events, i));
      if d.events[i].payload.Pitch?
      then Ok(without.(candidates := ExcludedForPitch(d.candidates, id, DELETED_NOTE)))
      else Ok(without)
  }

  function Observed(env: Environment, d: Document, id: string, observed: ObservedState): Result<Document, Error> {
    match RequiredIndex(d.events, id)
    case Err(e) => Err(e)
    case Ok(i) =>
      if d.events[i].identity.kind != Source then Err(NotSource) else
      var corrected := d.events[i].(observedStateAfter := if observed == map[] then None else Some(observed));
      if !env.eventSchema(corrected) then Err(Refused) else Ok(WithEvents(d, d.events[i := corrected]))
  }

  // ---- Rosters and official records -------------------------------------------------------------

  function UpdatedRoster(
      players: seq<RosterPlayer>, playerId: string, player: RosterPlayer): (r: Result<seq<RosterPlayer>, Error>)
    ensures r.Ok? ==> |r.value| == |players| && PlayerIds(r.value) == PlayerIds(players)
  {
    if player.playerId != playerId then Err(PlayerIdChanged) else
    var i := IndexOf(PlayerIds(players), playerId);
    if i == |players| then Err(PlayerMissing) else Ok(players[i := player])
  }

  function Roster(d: Document, side: Side): seq<RosterPlayer> {
    if side == Away then d.away else d.home
  }

  function WithPlayer(d: Document, side: Side, playerId: string, player: RosterPlayer): Result<Document, Error> {
    match UpdatedRoster(Roster(d, side), playerId, player)
    case Err(e) => Err(e)
    case Ok(players) => Ok(if side == Away then d.(away := players) else d.(home := players))
  }

  function WithPositions(d: Document, side: Side, playerId: string, positions: seq<string>): Result<Document, Error> {
    var players := Roster(d, side);
    var i := IndexOf(PlayerIds(players), playerId);
    if i == |players| then Err(PlayerMissing) else WithPlayer(d, side, playerId, players[i].(positions := positions))
  }

  function UpdatedRecords(
      records: seq<OfficialRecord>, playerId: string, record: OfficialRecord): (r: Result<seq<OfficialRecord>, Error>)
    ensures r.Ok? <==> record.playerId == playerId
  {
    if record.playerId != playerId then Err(PlayerIdChanged) else
    var i := IndexOf(RecordIds(records), playerId);
    Ok(if i == |records| then records + [record] else records[i := record])
  }

  /** Exactly the named player's line changes, and player identifiers stay distinct. */
  lemma {:induction false} RecordUpdated(records: seq<OfficialRecord>, playerId: string, record: OfficialRecord)
    requires record.playerId == playerId
    ensures var after := UpdatedRecords(records, playerId, record).value;
      && FindRecord(after, playerId) == Some(record)
      && (forall other :: other != playerId ==> FindRecord(after, other) == FindRecord(records, other))
      && (Distinct(RecordIds(records)) ==> Distinct(RecordIds(after)))
  {
    var after := UpdatedRecords(records, playerId, record).value;
    var i := IndexOf(RecordIds(records), playerId);
    if i == |records| {
      assert RecordIds(after) == RecordIds(records) + [playerId];
      assert playerId !in RecordIds(records);
      forall other ensures IndexOf(RecordIds(after), other) ==
        if other in RecordIds(records) then IndexOf(RecordIds(records), other)
        else if other == playerId then |records| else |records| + 1
      {
        IndexOfAppended(RecordIds(records), playerId, other);
      }
    } else {
      assert RecordIds(after) == RecordIds(records);
    }
  }

  lemma {:induction false} IndexOfAppended(ids: seq<string>, last: string, id: string)
    ensures IndexOf(ids + [last], id) ==
      if id in ids then IndexOf(ids, id) else if id == last then |ids| else |ids| + 1
  {
    var r := IndexOf(ids + [last], id);
    var s := IndexOf(ids, id);
    assert s < |ids| ==> (ids + [last])[s] == id;
    assert r < |ids| ==> ids[r] == id;
    assert (ids + [last])[|ids|] == last;
  }

  // ---- One command ------------------------------------------------------------------------------

  function ApplyAtomic(env: Environment, d: Document, command: Command): Result<Document, Error> {
    match command
    case AddEvent(event, before) => WithRows(d, Inserted(d.events, event, before))
    case DeleteEvent(id) => Deleted(d, id)
    case ReplaceEvent(id, event) => Replaced(env, d, id, event)
    case UpdateObservedState(id, observed) => Observed(env, d, id, observed)
    case MoveEvent(id, before) => WithRows(d, Moved(d.events, id, before))
    case UpdateRosterPlayer(side, id, player) => WithPlayer(d, side, id, player)
    case UpdateRosterPosition(side, id, positions) => WithPositions(d, side, id, positions)
    case UpdateBatterRecord(id, record) =>
      (match UpdatedRecords(d.batters, id, record) case Err(e) => Err(e) case Ok(r) => Ok(d.(batters := r)))
    case UpdatePitcherRecord(id, record) =>
      (match UpdatedRecords(d.pitchers, id, record) case Err(e) => Err(e) case Ok(r) => Ok(d.(pitchers := r)))
    case LinkTracking(id, pitch) => UpdateResolution(d, id, Linked(pitch))
    case MarkDuplicate(id, canonical) =>
      if id == canonical then Err(SelfDuplicate)
      else if FindCandidate(d.candidates, canonical).None? then Err(TrackingMissing)
      else UpdateResolution(d, id, Duplicate(canonical))
    case ExcludeTracking(id, reason, note) => UpdateResolution(d, id, Excluded(reason, note))
    case UnlinkTracking(id) => UpdateResolution(d, id, Pending)
    case ReconcileTracking => Reconcile(env, d)
  }

  function WithRows(d: Document, rows: Result<seq<RelayEvent>, Error>): Result<Document, Error> {
    match rows case Err(e) => Err(e) case Ok(events) => Ok(WithEvents(d, events))
  }

  // ---- What rows a command leaves ---------------------------------------------------------------

  lemma {:induction false} RowsKeepValid(d: Document, events: seq<RelayEvent>)
    requires Valid(d) && Distinct(EventIds(events))
    requires forall id :: HasPitch(d.events, id) ==> HasPitch(events, id)
    ensures Valid(WithEvents(d, events))
  {
    StampedKeepsRows(events);
  }

  lemma {:induction false} RowsKeepValidWithout(d: Document, events: seq<RelayEvent>, pitch: string, note: string)
    requires Valid(d) && Distinct(EventIds(events))
    requires forall id :: HasPitch(d.events, id) && id != pitch ==> HasPitch(events, id)
    ensures Valid(WithEvents(d, events).(candidates := ExcludedForPitch(d.candidates, pitch, note)))
    ensures TrackingIds(ExcludedForPitch(d.candidates, pitch, note)) == TrackingIds(d.candidates)
  {
    StampedKeepsRows(events);
    ExclusionDetaches(d.candidates, pitch, note);
    ExclusionKeepsLinks(d.events, Stamped(events), d.candidates, pitch, note);
  }

  lemma {:induction false} InsertedRows(events: seq<RelayEvent>, i: nat, event: RelayEvent)
    requires i <= |events| && Distinct(EventIds(events)) && event.identity.eventId !in EventIds(events)
    ensures Distinct(EventIds(InsertedAt(events, i, event)))
    ensures forall id :: HasPitch(events, id) ==> HasPitch(InsertedAt(events, i, event), id)
  {
    var r := InsertedAt(events, i, event);
    assert forall k :: 0 <= k < |r| ==> r[k] == if k < i then events[k] else if k == i then event else events[k - 1];
    forall a, b | 0 <= a < b < |r| ensures EventIds(r)[a] != EventIds(r)[b] {
      assert a != i ==> EventIds(r)[a] == EventIds(events)[if a < i then a else a - 1];
      assert b != i ==> EventIds(r)[b] == EventIds(events)[if b < i then b else b - 1];
    }
    forall id | HasPitch(events, id) ensures HasPitch(r, id) {
      var k :| 0 <= k < |events| && events[k].identity.eventId == id && events[k].payload.Pitch?;
      assert r[if k < i then k else k + 1] == events[k];
    }
  }

  lemma {:induction false} RemovedIds(events: seq<RelayEvent>, i: nat)
    requires i < |events|
    ensures EventIds(RemovedAt(events, i)) == EventIds(events)[..i] + EventIds(events)[i + 1..]
  {
  }

  lemma {:induction false} DistinctWithout(ids: seq<string>, i: nat)
    requires i < |ids| && Distinct(ids)
    ensures Distinct(ids[..i] + ids[i + 1..]) && ids[i] !in ids[..i] + ids[i + 1..]
    ensures forall id :: id in ids && id != ids[i] ==> id in ids[..i] + ids[i + 1..]
  {
    assert ids == ids[..i] + [ids[i]] + ids[i + 1..];
  }

  lemma {:induction false} RemovedPitches(events: seq<RelayEvent>, i: nat)
    requires i < |events|
    ensures forall id :: HasPitch(events, id) && id != events[i].identity.eventId ==> HasPitch(RemovedAt(events, i), id)
  {
    var r := RemovedAt(events, i);
    forall id | HasPitch(events, id) && id != events[i].identity.eventId ensures HasPitch(r, id) {
      var k :| 0 <= k < |events| && events[k].identity.eventId == id && events[k].payload.Pitch?;
      assert r[if k < i then k else k - 1] == events[k];
    }
  }

  lemma {:induction false} RemovedRows(events: seq<RelayEvent>, i: nat)
    requires i < |events| && Distinct(EventIds(events))
    ensures Distinct(EventIds(RemovedAt(events, i)))
    ensures events[i].identity.eventId !in EventIds(RemovedAt(events, i))
    ensures forall id :: id in EventIds(events) && id != events[i].identity.eventId ==> id in EventIds(RemovedAt(events, i))
    ensures forall id :: HasPitch(events, id) && id != events[i].identity.eventId ==> HasPitch(RemovedAt(events, i), id)
    ensures InsertedAt(RemovedAt(events, i), i, events[i]) == events
  {
    hide HasPitch, Distinct;
    RemovedIds(events, i);
    DistinctWithout(EventIds(events), i);
    RemovedPitches(events, i);
  }

  lemma {:induction false} UpdatedRow(events: seq<RelayEvent>, i: nat, event: RelayEvent)
    requires i < |events| && event.identity == events[i].identity
    ensures EventIds(events[i := event]) == EventIds(events)
    ensures forall id :: HasPitch(events, id) && (id != event.identity.eventId || event.payload.Pitch?) ==>
      HasPitch(events[i := event], id)
  {
    forall id | HasPitch(events, id) && (id != event.identity.eventId || event.payload.Pitch?)
      ensures HasPitch(events[i := event], id)
    {
      var k :| 0 <= k < |events| && events[k].identity.eventId == id && events[k].payload.Pitch?;
      assert events[i := event][k].payload.Pitch?;
    }
  }

  // ---- Every command keeps the ledger valid -----------------------------------------------------

  lemma {:induction false} MoveRows(events: seq<RelayEvent>, id: string, before: Option<string>)
    requires Distinct(EventIds(events)) && Moved(events, id, before).Ok?
    ensures Distinct(EventIds(Moved(events, id, before).value))
    ensures forall p :: HasPitch(events, p) ==> HasPitch(Moved(events, id, before).value, p)
  {
    if before != Some(id) {
      var i := RequiredIndex(events, id).value;
      var removed := RemovedAt(events, i);
      RemovedRows(events, i);
      var j := if before.None? then |removed| else RequiredIndex(removed, before.value).value;
      InsertedRows(removed, j, events[i]);
      forall p | HasPitch(events, p) ensures HasPitch(Moved(events, id, before).value, p) {
        var k :| 0 <= k < |events| && events[k].identity.eventId == p && events[k].payload.Pitch?;
        if p == id {
          assert EventIds(events)[k] == EventIds(events)[i];
          assert InsertedAt(removed, j, events[i])[j] == events[i];
        }
      }
    }
  }

  lemma {:induction false} ReplaceKeepsValid(env: Environment, d: Document, id: string, event: RelayEvent)
    requires Valid(d) && Replaced(env, d, id, event).Ok?
    ensures Valid(Replaced(env, d, id, event).value)
    ensures TrackingIds(Replaced(env, d, id, event).value.candidates) == TrackingIds(d.candidates)
  {
    var i := RequiredIndex(d.events, id).value;
    var merged := Merged(d.events[i], event);
    UpdatedRow(d.events, i, merged);
    if d.events[i].payload.Pitch? && !event.payload.Pitch? {
      RowsKeepValidWithout(d, d.events[i := merged], id, REPLACED_NOTE);
    } else {
      forall p | HasPitch(d.events, p) ensures HasPitch(d.events[i := merged], p) {
        var k :| 0 <= k < |d.events| && d.events[k].identity.eventId == p && d.events[k].payload.Pitch?;
        assert EventIds(d.events)[k] == p && EventIds(d.events)[i] == id;
      }
      RowsKeepValid(d, d.events[i := merged]);
    }
  }

  lemma {:induction false} DeleteKeepsValid(d: Document, id: string)
    requires Valid(d) && Deleted(d, id).Ok?
    ensures Valid(Deleted(d, id).value)
    ensures TrackingIds(Deleted(d, id).value.candidates) == TrackingIds(d.candidates)
  {
    var i := RequiredIndex(d.events, id).value;
    RemovedRows(d.events, i);
    if d.events[i].payload.Pitch? {
      RowsKeepValidWithout(d, RemovedAt(d.events, i), id, DELETED_NOTE);
    } else {
      forall p | HasPitch(d.events, p) ensures HasPitch(RemovedAt(d.events, i), p) {
        var k :| 0 <= k < |d.events| && d.events[k].identity.eventId == p && d.events[k].payload.Pitch?;
        assert EventIds(d.events)[k] == p && EventIds(d.events)[i] == id;
      }
      RowsKeepValid(d, RemovedAt(d.events, i));
    }
  }

  lemma {:induction false} RowCommandKeepsValid(env: Environment, d: Document, command: Command)
    requires Valid(d) && ApplyAtomic(env, d, command).Ok?
    requires command.AddEvent? || command.UpdateObservedState? || command.MoveEvent?
    ensures Valid(ApplyAtomic(env, d, command).value)
    ensures ApplyAtomic(env, d, command).value.candidates == d.candidates
  {
    match command
    case AddEvent(event, before) =>
      var j := if before.None? then |d.events| else RequiredIndex(d.events, before.value).value;
      InsertedRows(d.events, j, event);
      RowsKeepValid(d, InsertedAt(d.events, j, event));
    case UpdateObservedState(id, observed) =>
      var i := RequiredIndex(d.events, id).value;
      var corrected := d.events[i].(observedStateAfter := if observed == map[] then None else Some(observed));
      UpdatedRow(d.events, i, corrected);
      forall p | HasPitch(d.events, p) ensures HasPitch(d.events[i := corrected], p) {
        var k :| 0 <= k < |d.events| && d.events[k].identity.eventId == p && d.events[k].payload.Pitch?;
        assert EventIds(d.events)[k] == p && EventIds(d.events)[i] == id;
      }
      RowsKeepValid(d, d.events[i := corrected]);
    case MoveEvent(id, before) =>
      MoveRows(d.events, id, before);
      RowsKeepValid(d, Moved(d.events, id, before).value);
  }

  lemma {:induction false} RosterKeepsValid(d: Document, side: Side, playerId: string, player: RosterPlayer)
    requires Valid(d) && WithPlayer(d, side, playerId, player).Ok?
    ensures Valid(WithPlayer(d, side, playerId, player).value)
    ensures WithPlayer(d, side, playerId, player).value.candidates == d.candidates
  {
  }

  /** Unique identifiers, canonical sequences, the tracking list and every link survive any command. */
  lemma {:induction false} CommandKeepsValid(env: Environment, d: Document, command: Command)
    requires Valid(d) && ApplyAtomic(env, d, command).Ok?
    ensures Valid(ApplyAtomic(env, d, command).value)
    ensures TrackingIds(ApplyAtomic(env, d, command).value.candidates) == TrackingIds(d.candidates)
  {
    hide Valid, Decodable, LinksToPitches, Deleted, Replaced, Observed, Inserted, Moved, WithPlayer, UpdateResolution, Repaired;
    match command
    case AddEvent(_, _) => RowCommandKeepsValid(env, d, command);
    case UpdateObservedState(_, _) => RowCommandKeepsValid(env, d, command);
    case MoveEvent(_, _) => RowCommandKeepsValid(env, d, command);
    case DeleteEvent(id) => DeleteKeepsValid(d, id);
    case ReplaceEvent(id, event) => ReplaceKeepsValid(env, d, id, event);
    case UpdateRosterPlayer(side, id, player) => RosterKeepsValid(d, side, id, player);
    case UpdateRosterPosition(side, id, positions) =>
      var players := Roster(d, side);
      RosterKeepsValid(d, side, id, players[IndexOf(PlayerIds(players), id)].(positions := positions));
    case UpdateBatterRecord(id, record) => RecordKeepsValid(d, id, record);
    case UpdatePitcherRecord(id, record) => RecordKeepsValid(d, id, record);
    case LinkTracking(id, pitch) => ResolutionKeepsValid(d, id, Linked(pitch));
    case MarkDuplicate(id, canonical) => ResolutionKeepsValid(d, id, Duplicate(canonical));
    case ExcludeTracking(id, reason, note) => ResolutionKeepsValid(d, id, Excluded(reason, note));
    case UnlinkTracking(id) => ResolutionKeepsValid(d, id, Pending);
    case ReconcileTracking => RepairKeepsValid(d, env.compile(d).value.pitchFacts);
  }

  lemma {:induction false} RepairKeepsValid(d: Document, facts: seq<PitchFact>)
    requires Valid(d)
    ensures Valid(d.(candidates := Repaired(d, facts))) && TrackingIds(Repaired(d, facts)) == TrackingIds(d.candidates)
  {
    AppearancesKeepValid(d, Repaired(d, facts));
  }

  lemma {:induction false} RecordKeepsValid(d: Document, playerId: string, record: OfficialRecord)
    requires Valid(d) && record.playerId == playerId
    ensures Valid(d.(batters := UpdatedRecords(d.batters, playerId, record).value))
    ensures Valid(d.(pitchers := UpdatedRecords(d.pitchers, playerId, record).value))
  {
    RecordUpdated(d.batters, playerId, record);
    RecordUpdated(d.pitchers, playerId, record);
  }

  // ---- What one command does --------------------------------------------------------------------

  /** After a pitch row is deleted, or turned into another row, no candidate resolves to it. */
  lemma {:induction false} DetachedFromLostPitch(env: Environment, d: Document, command: Command)
    requires Valid(d) && ApplyAtomic(env, d, command).Ok?
    requires (command.DeleteEvent? || (command.ReplaceEvent? && !command.event.payload.Pitch?)) && IsPitch(d, command.eventId)
    ensures var after := ApplyAtomic(env, d, command).value.candidates;
      |after| == |d.candidates| && forall i :: 0 <= i < |after| ==>
        && ResolvedPitch(after[i], after) != Some(command.eventId)
        && (ResolvedPitch(d.candidates[i], d.candidates) != Some(command.eventId) ==> after[i] == d.candidates[i])
  {
    ExclusionDetaches(d.candidates, command.eventId, if command.DeleteEvent? then DELETED_NOTE else REPLACED_NOTE);
  }

  /** In a valid ledger whatever a candidate stands for is a recorded pitch. */
  lemma {:induction false} ResolvedPitchExists(d: Document, i: nat)
    requires Valid(d) && i < |d.candidates| && ResolvedPitch(d.candidates[i], d.candidates).Some?
    ensures HasPitch(d.events, ResolvedPitch(d.candidates[i], d.candidates).value)
  {
    var c := d.candidates[i];
    if c.resolution.Duplicate? {
      var target := FindCandidate(d.candidates, c.resolution.canonicalTrackingId).value;
      var k :| 0 <= k < |d.candidates| && d.candidates[k] == target;
    }
  }

  lemma {:induction false} RemoveInserted(events: seq<RelayEvent>, j: nat, event: RelayEvent)
    requires Sequenced(events) && j <= |events|
    ensures Stamped(RemovedAt(Stamped(InsertedAt(events, j, event)), j)) == events
  {
    var grown := InsertedAt(events, j, event);
    var shrunk := RemovedAt(Stamped(grown), j);
    forall k | 0 <= k < |events| ensures Stamped(shrunk)[k] == events[k] {
      var was := if k < j then k else k + 1;
      assert shrunk[k] == Stamped(grown)[was] && grown[was] == events[k];
    }
  }

  lemma {:induction false} InsertedIndex(events: seq<RelayEvent>, j: nat, event: RelayEvent)
    requires j <= |events| && event.identity.eventId !in EventIds(events)
    ensures RequiredIndex(Stamped(InsertedAt(events, j, event)), event.identity.eventId) == Ok(j)
  {
    var grown := Stamped(InsertedAt(events, j, event));
    assert EventIds(grown)[j] == event.identity.eventId;
    forall k | 0 <= k < |grown| && k != j ensures EventIds(grown)[k] != event.identity.eventId {
      assert EventIds(grown)[k] == EventIds(events)[if k < j then k else k - 1];
    }
  }

  lemma {:induction false} NothingToExclude(d: Document, id: string, note: string)
    requires Valid(d) && id !in EventIds(d.events)
    ensures ExcludedForPitch(d.candidates, id, note) == d.candidates
  {
    NoSuchPitch(d.events, id);
    forall k | 0 <= k < |d.candidates| ensures ExcludedOne(d.candidates[k], d.candidates, id, note) == d.candidates[k] {
    }
  }

  /** Adding a row and deleting it again gives back the whole ledger. */
  lemma {:induction false} AddThenDelete(env: Environment, d: Document, event: RelayEvent, before: Option<string>)
    requires Valid(d) && ApplyAtomic(env, d, AddEvent(event, before)).Ok?
    ensures ApplyAtomic(env, ApplyAtomic(env, d, AddEvent(event, before)).value, DeleteEvent(event.identity.eventId)) == Ok(d)
  {
    hide InsertedAt, RemovedAt, Stamped, RequiredIndex, ExcludedForPitch, EventIds;
    var j := if before.None? then |d.events| else RequiredIndex(d.events, before.value).value;
    RemoveInserted(d.events, j, event);
    InsertedIndex(d.events, j, event);
    NothingToExclude(d, event.identity.eventId, DELETED_NOTE);
  }

  lemma {:induction false} NoSuchPitch(events: seq<RelayEvent>, id: string)
    requires id !in EventIds(events)
    ensures !HasPitch(events, id)
  {
    assert forall k :: 0 <= k < |events| ==> EventIds(events)[k] == events[k].identity.eventId;
  }

  // ---- Moving a row -----------------------------------------------------------------------------

  function Others(events: seq<RelayEvent>, id: string): seq<RelayEvent> {
    if events == [] then [] else
    var rest := Others(events[..|events| - 1], id);
    if events[|events| - 1].identity.eventId == id then rest else rest + [events[|events| - 1]]
  }

  lemma {:induction false} OthersConcat(a: seq<RelayEvent>, b: seq<RelayEvent>, id: string)
    ensures Others(a + b, id) == Others(a, id) + Others(b, id)
  {
    if b == [] {
      assert a + b == a;
    } else {
      OthersConcat(a, b[..|b| - 1], id);
      assert (a + b)[..|a + b| - 1] == a + b[..|b| - 1];
    }
  }

  lemma {:induction false} OthersAll(events: seq<RelayEvent>, id: string)
    requires forall k :: 0 <= k < |events| ==> events[k].identity.eventId != id
    ensures Others(events, id) == events
  {
    if events != [] {
      OthersAll(events[..|events| - 1], id);
      assert events == events[..|events| - 1] + [events[|events| - 1]];
    }
  }

  lemma {:induction false} OthersInserted(events: seq<RelayEvent>, j: nat, event: RelayEvent)
    requires j <= |events| && event.identity.eventId !in EventIds(events)
    ensures Others(InsertedAt(events, j, event), event.identity.eventId) == events
  {
    var id := event.identity.eventId;
    assert forall k :: 0 <= k < |events| ==> EventIds(events)[k] == events[k].identity.eventId;
    OthersAll(events[..j], id);
    OthersAll(events[j..], id);
    OthersConcat(events[..j] + [event], events[j..], id);
    OthersConcat(events[..j], [event], id);
    assert Others([event], id) == [] by { assert Others([event][..0], id) == []; }
    assert events == events[..j] + events[j..];
  }

  lemma {:induction false} InsertedContents(events: seq<RelayEvent>, j: nat, event: RelayEvent)
    requires j <= |events|
    ensures multiset(InsertedAt(events, j, event)) == multiset(events) + multiset{event}
  {
    assert events == events[..j] + events[j..];
  }

  predicate DirectlyBefore(events: seq<RelayEvent>, id: string, next: string) {
    exists k :: 0 < k < |events| && events[k].identity.eventId == next && events[k - 1].identity.eventId == id
  }

  lemma {:induction false} PlacedWhere(events: seq<RelayEvent>, event: RelayEvent, before: Option<string>)
    requires Placed(events, event, before).Ok? && event.identity.eventId !in EventIds(events)
    ensures var placed := Placed(events, event, before).value;
      && multiset(placed) == multiset(events) + multiset{event}
      && Others(placed, event.identity.eventId) == events
      && (before.None? ==> placed[|events|] == event)
      && (before.Some? ==> DirectlyBefore(placed, event.identity.eventId, before.value))
  {
    hide Others;
    var j := if before.None? then |events| else RequiredIndex(events, before.value).value;
    OthersInserted(events, j, event);
    InsertedContents(events, j, event);
    var placed := InsertedAt(events, j, event);
    assert before.Some? ==> placed[j + 1] == events[j];
  }

  /** The row goes directly before the named one, or last; all rows remain and the others keep their order. */
  lemma {:induction false} MoveReorders(events: seq<RelayEvent>, id: string, before: Option<string>)
    requires Distinct(EventIds(events)) && Moved(events, id, before).Ok?
    ensures var moved := Moved(events, id, before).value;
      && multiset(moved) == multiset(events)
      && Others(moved, id) == Others(events, id)
      && (before == Some(id) ==> moved == events)
      && (before.None? ==> |moved| > 0 && moved[|moved| - 1].identity.eventId == id)
      && (before.Some? && before.value != id ==> DirectlyBefore(moved, id, before.value))
  {
    hide Others, EventIds, Placed, InsertedAt, RemovedAt, DirectlyBefore;
    if before != Some(id) {
      var i := RequiredIndex(events, id).value;
      RemovedRows(events, i);
      PlacedWhere(RemovedAt(events, i), events[i], before);
      OthersInserted(RemovedAt(events, i), i, events[i]);
      InsertedContents(RemovedAt(events, i), i, events[i]);
    }
  }

  /** Moving before itself is accepted without looking the row up; otherwise both rows must exist. */
  lemma {:induction false} MoveDefined(events: seq<RelayEvent>, id: string, before: Option<string>)
    requires Distinct(EventIds(events))
    ensures Moved(events, id, before).Ok? <==>
      before == Some(id) || (id in EventIds(events) && (before.None? || before.value in EventIds(events)))
  {
    hide EventIds, RemovedAt;
    if before != Some(id) && id in EventIds(events) {
      var i := RequiredIndex(events, id).value;
      RemovedRows(events, i);
      RemovedIds(events, i);
    }
  }

  // ---- A whole correction -----------------------------------------------------------------------

  function ApplyAll(env: Environment, d: Document, commands: seq<Command>): Result<Document, Error>
    decreases |commands|
  {
    if commands == [] then Ok(d) else
    match ApplyAtomic(env, d, commands[0])
    case Err(e) => Err(e)
    case Ok(next) => ApplyAll(env, next, commands[1..])
  }

  function Resequenced(d: Document): Document {
    WithEvents(d, d.events).(candidates :=
      seq(|d.candidates|, i requires 0 <= i < |d.candidates| => d.candidates[i].(sequence := i)))
  }

  datatype Correction = Correction(document: Document, replay: Replay)

  /** A single command is a batch of one. */
  function ApplyCorrection(
      env: Environment, d: Document, before: Replay, commands: seq<Command>): Result<Correction, Error> {
    if !env.commandSchema(commands) then Err(Refused) else
    match ApplyAll(env, d, commands)
    case Err(e) => Err(e)
    case Ok(raw) =>
      match Decode(env, Resequenced(raw))
      case Err(e) => Err(e)
      case Ok(provisional) =>
        match env.compile(provisional)
        case Err(e) => Err(e)
        case Ok(replay) =>
          var followed := provisional.(candidates := Followed(d, before.pitchFacts, provisional, replay.pitchFacts));
          if followed == provisional then Ok(Correction(provisional, replay)) else
          match Decode(env, followed)
          case Err(e) => Err(e)
          case Ok(corrected) =>
            match env.compile(corrected)
            case Err(e) => Err(e)
            case Ok(again) => Ok(Correction(corrected, again))
  }

  lemma {:induction false} BatchKeepsValid(env: Environment, d: Document, commands: seq<Command>)
    requires Valid(d) && ApplyAll(env, d, commands).Ok?
    ensures Valid(ApplyAll(env, d, commands).value)
    ensures TrackingIds(ApplyAll(env, d, commands).value.candidates) == TrackingIds(d.candidates)
    decreases |commands|
  {
    hide ApplyAtomic, Valid;
    if commands != [] {
      CommandKeepsValid(env, d, commands[0]);
      BatchKeepsValid(env, ApplyAtomic(env, d, commands[0]).value, commands[1..]);
    }
  }

  lemma {:induction false} ValidIsSequenced(d: Document)
    requires Valid(d)
    ensures Resequenced(d) == d
  {
    StampedFixed(d.events);
  }

  /** A batch of accepted commands never produces a ledger whose structure the decoder refuses. */
  lemma {:induction false} StructureNeverRefused(env: Environment, d: Document, commands: seq<Command>)
    requires Valid(d) && ApplyAll(env, d, commands).Ok?
    ensures var raw := ApplyAll(env, d, commands).value;
      Resequenced(raw) == raw && Valid(raw) && (Decode(env, raw).Ok? <==> env.documentSchema(raw))
  {
    BatchKeepsValid(env, d, commands);
    ValidIsSequenced(ApplyAll(env, d, commands).value);
  }

  /** The entry point for a command given without a compile. */
  function ApplyToLedger(env: Environment, input: Document, commands: seq<Command>): Result<Correction, Error> {
    match Decode(env, input)
    case Err(e) => Err(e)
    case Ok(d) =>
      match env.compile(d)
      case Err(e) => Err(e)
      case Ok(before) => ApplyCorrection(env, d, before, commands)
  }

  /** A correction leaves a valid ledger with the same candidates in the same order, and its own compile. */
  lemma {:induction false} CorrectionKeepsValid(env: Environment, d: Document, before: Replay, commands: seq<Command>)
    requires Valid(d) && ApplyCorrection(env, d, before, commands).Ok?
    ensures var result := ApplyCorrection(env, d, before, commands).value;
      && Valid(result.document) && env.documentSchema(result.document)
      && TrackingIds(result.document.candidates) == TrackingIds(d.candidates)
      && env.compile(result.document) == Ok(result.replay)
  {
    hide ApplyAll, Valid;
    var raw := ApplyAll(env, d, commands).value;
    StructureNeverRefused(env, d, commands);
    BatchKeepsValid(env, d, commands);
    var replay := env.compile(raw).value;
    AppearancesKeepValid(raw, Followed(d, before.pitchFacts, raw, replay.pitchFacts));
  }

  // ---- Agreement with the compiler --------------------------------------------------------------

  predicate AppearancesKept(before: seq<Candidate>, after: seq<Candidate>) {
    |before| == |after| && forall i :: 0 <= i < |before| ==>
      before[i].trackingId == after[i].trackingId
      && before[i].plateAppearanceEventId == after[i].plateAppearanceEventId
  }

  lemma {:induction false} OnlyReconcileRewrites(env: Environment, d: Document, commands: seq<Command>)
    requires ApplyAll(env, d, commands).Ok?
    requires forall k :: 0 <= k < |commands| ==> !commands[k].ReconcileTracking?
    ensures AppearancesKept(d.candidates, ApplyAll(env, d, commands).value.candidates)
    decreases |commands|
  {
    if commands != [] {
      CommandKeepsAppearances(env, d, commands[0]);
      OnlyReconcileRewrites(env, ApplyAtomic(env, d, commands[0]).value, commands[1..]);
    }
  }

  lemma {:induction false} CommandKeepsAppearances(env: Environment, d: Document, command: Command)
    requires ApplyAtomic(env, d, command).Ok? && !command.ReconcileTracking?
    ensures AppearancesKept(d.candidates, ApplyAtomic(env, d, command).value.candidates)
  {
    hide Stamped, Moved, Inserted, UpdatedRecords, UpdatedRoster, Merged, RemovedAt, RequiredIndex, IsPitch, FindCandidate;
  }

  /** Without a repair among the commands, agreement with the compiler survives every correction. */
  lemma {:induction false} AgreementSurvives(
      env: Environment, d: Document, before: Replay, commands: seq<Command>, raw: Document, replay: Replay, i: nat)
    requires Valid(d) && ApplyCorrection(env, d, before, commands).Ok?
    requires forall k :: 0 <= k < |commands| ==> !commands[k].ReconcileTracking?
    requires ApplyAll(env, d, commands) == Ok(raw) && env.compile(raw) == Ok(replay)
    requires i < |raw.candidates| && AgreedAndStable(i, d, before.pitchFacts, raw, replay.pitchFacts)
    requires ApplyCorrection(env, d, before, commands).value.replay.pitchFacts == replay.pitchFacts
    ensures var result := ApplyCorrection(env, d, before, commands).value;
      && |result.document.candidates| == |d.candidates| == |raw.candidates|
      && result.document.candidates[i].plateAppearanceEventId
        == CompiledAppearance(result.document.candidates[i], result.document.candidates, result.replay.pitchFacts)
  {
    hide ApplyAll, ApplyAtomic, Follow, CompiledAppearance;
    StructureNeverRefused(env, d, commands);
    BatchKeepsValid(env, d, commands);
    OnlyReconcileRewrites(env, d, commands);
    FindsCandidateAt(d.candidates, i);
    FollowAgrees(i, d, before.pitchFacts, raw, replay.pitchFacts);
  }

  // ---- A repair inside a batch can defeat it ----------------------------------------------------

  /** The plate appearance a pitch is thrown in is named by the last start row before the pitch. */
  function LastStart(events: seq<RelayEvent>): Option<string> {
    if events == [] then None
    else if events[|events| - 1].payload == OtherPayload("batter_start", "") then
      Some(events[|events| - 1].identity.eventId)
    else LastStart(events[..|events| - 1])
  }

  function PitchFacts(events: seq<RelayEvent>): seq<PitchFact> {
    if events == [] then []
    else
      var last, earlier := events[|events| - 1], events[..|events| - 1];
      PitchFacts(earlier)
      + if last.payload.Pitch? then [PitchFact(last.identity.eventId, true, LastStart(earlier))] else []
  }

  function LastStartCompiler(d: Document): Result<Replay, Error> {
    Ok(Replay(PitchFacts(d.events), [], [], []))
  }

  const LAST_START := Environment(LastStartCompiler, _ => true, _ => true, _ => true)

  function ExampleRow(id: string, sequence: nat): RelayEvent {
    RelayEvent(Identity(id, Source), sequence, 1, true,
      if id == "p" then Pitch("ball") else OtherPayload("batter_start", ""), None, None)
  }

  function ExampleLedger(ids: seq<string>, appearance: string): Document {
    Document(seq(|ids|, i requires 0 <= i < |ids| => ExampleRow(ids[i], i)),
      [Candidate("t", 0, Some(appearance), Linked("p"))], [], [], [], [], "", "")
  }

  /** The batch deletes the candidate's appearance, repairs it to "b", then moves "c" directly before the pitch. */
  const EXAMPLE_BATCH := [DeleteEvent("a"), ReconcileTracking, MoveEvent("c", Some("p"))]

  lemma {:induction false} StartsHaveNoPitch(events: seq<RelayEvent>)
    requires forall i :: 0 <= i < |events| ==> events[i].payload == OtherPayload("batter_start", "")
    ensures PitchFacts(events) == []
  {
    if events != [] {
      StartsHaveNoPitch(events[..|events| - 1]);
    }
  }

  lemma {:induction false} ExampleFacts(ids: seq<string>, appearance: string)
    requires |ids| >= 2 && ids[|ids| - 1] == "p"
    requires forall i :: 0 <= i < |ids| - 1 ==> ids[i] != "p"
    ensures PitchFacts(ExampleLedger(ids, appearance).events) == [PitchFact("p", true, Some(ids[|ids| - 2]))]
  {
    var events := ExampleLedger(ids, appearance).events;
    var earlier := events[..|ids| - 1];
    StartsHaveNoPitch(earlier);
    assert earlier[|earlier| - 1] == ExampleRow(ids[|ids| - 2], |ids| - 2);
    assert LastStart(earlier) == Some(ids[|ids| - 2]);
    assert events[|events| - 1] == ExampleRow("p", |ids| - 1);
  }

  lemma {:induction false} ExampleIndex(ids: seq<string>, appearance: string, k: nat)
    requires Distinct(ids) && k < |ids|
    ensures RequiredIndex(ExampleLedger(ids, appearance).events, ids[k]) == Ok(k)
  {
    assert EventIds(ExampleLedger(ids, appearance).events) == ids;
  }

  lemma {:induction false} ExampleDeletes()
    ensures ApplyAtomic(LAST_START, ExampleLedger(["c", "b", "a", "p"], "a"), EXAMPLE_BATCH[0])
      == Ok(ExampleLedger(["c", "b", "p"], "a"))
  {
    var d := ExampleLedger(["c", "b", "a", "p"], "a");
    ExampleIndex(["c", "b", "a", "p"], "a", 2);
    assert Stamped(RemovedAt(d.events, 2)) == ExampleLedger(["c", "b", "p"], "a").events;
  }

  lemma {:induction false} ExampleRepairs()
    ensures ApplyAtomic(LAST_START, ExampleLedger(["c", "b", "p"], "a"), EXAMPLE_BATCH[1])
      == Ok(ExampleLedger(["c", "b", "p"], "b"))
  {
    hide PitchFacts;
    var d, r := ExampleLedger(["c", "b", "p"], "a"), ExampleLedger(["c", "b", "p"], "b");
    var facts := LastStartCompiler(d).value.pitchFacts;
    ExampleFacts(["c", "b", "p"], "a");
    assert EventIds(d.events) == ["c", "b", "p"];
    assert Appearance(facts, "p") == Some("b");
    assert Repairable(d.candidates[0], d, facts);
    assert Repaired(d, facts) == r.candidates;
  }

  lemma {:induction false} ExampleMoves()
    ensures ApplyAtomic(LAST_START, ExampleLedger(["c", "b", "p"], "b"), EXAMPLE_BATCH[2])
      == Ok(ExampleLedger(["b", "c", "p"], "b"))
  {
    var d := ExampleLedger(["c", "b", "p"], "b");
    ExampleIndex(["c", "b", "p"], "b", 0);
    var removed := RemovedAt(d.events, 0);
    assert removed == [d.events[1], d.events[2]];
    assert EventIds(removed) == ["b", "p"];
    assert RequiredIndex(removed, "p") == Ok(1);
    assert Stamped(InsertedAt(removed, 1, d.events[0])) == ExampleLedger(["b", "c", "p"], "b").events;
  }

  lemma {:induction false} ExampleRuns()
    ensures ApplyAll(LAST_START, ExampleLedger(["c", "b", "a", "p"], "a"), EXAMPLE_BATCH)
      == Ok(ExampleLedger(["b", "c", "p"], "b"))
  {
    hide ApplyAtomic, ApplyAll, ExampleLedger;
    ExampleDeletes();
    ExampleRepairs();
    ExampleMoves();
    AppliesThree(LAST_START, ExampleLedger(["c", "b", "a", "p"], "a"), ExampleLedger(["c", "b", "p"], "a"),
      ExampleLedger(["c", "b", "p"], "b"), ExampleLedger(["b", "c", "p"], "b"), EXAMPLE_BATCH);
  }

  lemma {:induction false} AppliesThree(
      env: Environment, d0: Document, d1: Document, d2: Document, d3: Document, commands: seq<Command>)
    requires |commands| == 3 && ApplyAtomic(env, d0, commands[0]) == Ok(d1)
    requires ApplyAtomic(env, d1, commands[1]) == Ok(d2) && ApplyAtomic(env, d2, commands[2]) == Ok(d3)
    ensures ApplyAll(env, d0, commands) == Ok(d3)
  {
    hide ApplyAtomic;
    assert commands[1..][0] == commands[1] && commands[1..][1..] == [commands[2]];
    assert ApplyAll(env, d2, [commands[2]]) == ApplyAll(env, d3, [commands[2]][1..]);
    assert ApplyAll(env, d1, commands[1..]) == ApplyAll(env, d2, [commands[2]]);
  }

  lemma {:induction false} ExampleIsValid()
    ensures Valid(ExampleLedger(["c", "b", "a", "p"], "a"))
  {
    var d := ExampleLedger(["c", "b", "a", "p"], "a");
    assert EventIds(d.events) == ["c", "b", "a", "p"];
    assert d.events[3].payload.Pitch? && HasPitch(d.events, "p");
    assert TrackingIds(d.candidates) == ["t"];
  }

  lemma {:induction false} ExampleFollows()
    ensures var d := ExampleLedger(["c", "b", "a", "p"], "a");
      var raw := ExampleLedger(["b", "c", "p"], "b");
      var before, after := LastStartCompiler(d).value.pitchFacts, LastStartCompiler(raw).value.pitchFacts;
      && AgreedAndStable(0, d, before, raw, after)
      && Followed(d, before, raw, after) == raw.candidates
      && CompiledAppearance(raw.candidates[0], raw.candidates, after) == Some("c")
  {
    hide PitchFacts;
    var d, raw := ExampleLedger(["c", "b", "a", "p"], "a"), ExampleLedger(["b", "c", "p"], "b");
    var facts, after := LastStartCompiler(d).value.pitchFacts, LastStartCompiler(raw).value.pitchFacts;
    ExampleFacts(["c", "b", "a", "p"], "a");
    ExampleFacts(["b", "c", "p"], "b");
    assert FindCandidate(d.candidates, "t") == Some(d.candidates[0]);
    assert Appearance(facts, "p") == Some("a") && Appearance(after, "p") == Some("c");
    assert Follow(raw.candidates[0], d, facts, raw, after) == raw.candidates[0];
  }

  /** So agreement before, a stable pitch and a valid ledger are not enough: the repair is what breaks it. */
  lemma {:induction false} RepairDefeatsFollow()
    ensures var d := ExampleLedger(["c", "b", "a", "p"], "a");
      var raw := ExampleLedger(["b", "c", "p"], "b");
      var before, after := LastStartCompiler(d).value, LastStartCompiler(raw).value;
      && Valid(d) && AgreedAndStable(0, d, before.pitchFacts, raw, after.pitchFacts)
      && ApplyCorrection(LAST_START, d, before, EXAMPLE_BATCH) == Ok(Correction(raw, after))
      && raw.candidates[0].plateAppearanceEventId != CompiledAppearance(raw.candidates[0], raw.candidates, after.pitchFacts)
  {
    hide ApplyAll, Valid, AgreedAndStable, Followed, CompiledAppearance, PitchFacts;
    ExampleIsValid();
    ExampleRuns();
    ExampleFollows();
    StructureNeverRefused(LAST_START, ExampleLedger(["c", "b", "a", "p"], "a"), EXAMPLE_BATCH);
  }
}
