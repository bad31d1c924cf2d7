/** The game ledger that corrections edit, and the rules a decoded ledger obeys. */
module GameDocument {
  import opened Wrappers

  datatype IdentityKind = Source | Manual

  datatype Identity = Identity(eventId: string, kind: IdentityKind)

  datatype PlateResult =
    | Single | Double | Triple | HomeRun | Walk | IntentionalWalk | HitByPitch | Strikeout | FieldOut
    | SacrificeBunt | SacrificeFly | FielderChoice | ReachedOnError | Interference | DoublePlay
    | TriplePlay | OtherResult

  datatype PlatePayload = PlatePayload(
    result: PlateResult, batterId: string, pitcherId: string, creditedRbi: Option<int>,
    batterDestination: Option<int>, isBunt: Option<bool>, details: string)

  datatype Payload = Pitch(call: string) | Plate(plate: PlatePayload) | OtherPayload(kind: string, details: string)

  type ObservedState = map<string, string>

  datatype RelayEvent = RelayEvent(
    identity: Identity, sequence: nat, inning: nat, top: bool, payload: Payload,
    relayText: Option<string>, observedStateAfter: Option<ObservedState>)

  datatype Resolution =
    | Pending | Linked(pitchEventId: string) | Duplicate(canonicalTrackingId: string)
    | Excluded(reason: string, note: Option<string>)

  datatype Candidate = Candidate(
    trackingId: string, sequence: nat, plateAppearanceEventId: Option<string>, resolution: Resolution)

  datatype RosterPlayer = RosterPlayer(playerId: string, positions: seq<string>, details: string)

  /** A line of an official box score: the numeric fields that are present. */
  datatype OfficialRecord = OfficialRecord(playerId: string, fields: map<string, int>)

  datatype Document = Document(
    events: seq<RelayEvent>, candidates: seq<Candidate>, away: seq<RosterPlayer>, home: seq<RosterPlayer>,
    batters: seq<OfficialRecord>, pitchers: seq<OfficialRecord>, revisionBase: string, header: string)

  /** What the game compiler reports about a ledger. */
  datatype PitchFact = PitchFact(pitchId: string, actual: bool, plateAppearanceEventId: Option<string>)

  datatype Detail = Detail(field: string, actual: string)

  /** A finding that does not block is a warning. */
  datatype Finding = Finding(
    code: string, category: string, blocking: bool, message: string, eventId: Option<string>,
    eventSequence: Option<nat>, recordIdentity: Option<string>, details: seq<Detail>)

  datatype StatLine = StatLine(playerId: string, fields: map<string, int>)

  datatype Replay = Replay(
    pitchFacts: seq<PitchFact>, batterLines: seq<StatLine>, pitcherLines: seq<StatLine>, findings: seq<Finding>)

  datatype Side = Away | Home

  datatype Command =
    | AddEvent(event: RelayEvent, beforeEventId: Option<string>)
    | DeleteEvent(eventId: string)
    | ReplaceEvent(eventId: string, event: RelayEvent)
    | UpdateObservedState(eventId: string, observed: ObservedState)
    | MoveEvent(eventId: string, beforeEventId: Option<string>)
    | UpdateRosterPlayer(side: Side, playerId: string, player: RosterPlayer)
    | UpdateRosterPosition(side: Side, playerId: string, positions: seq<string>)
    | UpdateBatterRecord(playerId: string, record: OfficialRecord)
    | UpdatePitcherRecord(playerId: string, record: OfficialRecord)
    | LinkTracking(trackingId: string, pitchEventId: string)
    | MarkDuplicate(trackingId: string, canonicalTrackingId: string)
    | ExcludeTracking(trackingId: string, reason: string, note: Option<string>)
    | UnlinkTracking(trackingId: string)
    | ReconcileTracking

  datatype Error =
    | EventMissing | NotManual | EventIdTaken | NotSource | PlayerMissing | PlayerIdChanged | TrackingMissing
    | NotAPitch | SelfDuplicate | NothingToReconcile | Refused | CompilerFailed(message: string)

  /** The compiler and the row schemas, which are not part of this model. */
  datatype Environment = Environment(
    compile: Document -> Result<Replay, Error>, commandSchema: seq<Command> -> bool,
    eventSchema: RelayEvent -> bool, documentSchema: Document -> bool)

  // ---- Identifiers ------------------------------------------------------------------------------

  function EventIds(events: seq<RelayEvent>): (ids: seq<string>)
    ensures |ids| == |events|
  {
    seq(|events|, i requires 0 <= i < |events| => events[i].identity.eventId)
  }

  function TrackingIds(candidates: seq<Candidate>): (ids: seq<string>)
    ensures |ids| == |candidates|
  {
    seq(|candidates|, i requires 0 <= i < |candidates| => candidates[i].trackingId)
  }

  function PlayerIds(players: seq<RosterPlayer>): (ids: seq<string>)
    ensures |ids| == |players|
  {
    seq(|players|, i requires 0 <= i < |players| => players[i].playerId)
  }

  function RecordIds(records: seq<OfficialRecord>): (ids: seq<string>)
    ensures |ids| == |records|
  {
    seq(|records|, i requires 0 <= i < |records| => records[i].playerId)
  }

  predicate Distinct(ids: seq<string>) {
    forall i, j :: 0 <= i < j < |ids| ==> ids[i] != ids[j]
  }

  /** The first position of an identifier, or the length when there is none. */
  function IndexOf(ids: seq<string>, id: string): (r: nat)
    ensures r <= |ids|
    ensures r < |ids| ==> ids[r] == id
    ensures forall j :: 0 <= j < r ==> ids[j] != id
  {
    if ids == [] || ids[0] == id then 0 else 1 + IndexOf(ids[1..], id)
  }

  // ---- Rules of a decoded ledger ----------------------------------------------------------------

  predicate Sequenced(events: seq<RelayEvent>) {
    forall i :: 0 <= i < |events| ==> events[i].sequence == i
  }

  predicate TrackingSequenced(candidates: seq<Candidate>) {
    forall i :: 0 <= i < |candidates| ==> candidates[i].sequence == i
  }

  /** The ledger holds a pitch with this identifier. */
  predicate HasPitch(events: seq<RelayEvent>, id: string) {
    exists i :: 0 <= i < |events| && events[i].identity.eventId == id && events[i].payload.Pitch?
  }

  predicate LinksToPitches(events: seq<RelayEvent>, candidates: seq<Candidate>) {
    forall i :: 0 <= i < |candidates| ==>
      candidates[i].resolution.Linked? ==> HasPitch(events, candidates[i].resolution.pitchEventId)
  }

  predicate DuplicatesResolve(candidates: seq<Candidate>) {
    forall i :: 0 <= i < |candidates| ==> candidates[i].resolution.Duplicate? ==>
      && candidates[i].resolution.canonicalTrackingId != candidates[i].trackingId
      && candidates[i].resolution.canonicalTrackingId in TrackingIds(candidates)
  }

  /** The structural checks of the decoder, which do not look inside one row. */
  predicate Decodable(d: Document) {
    && Distinct(EventIds(d.events)) && Sequenced(d.events)
    && Distinct(TrackingIds(d.candidates)) && TrackingSequenced(d.candidates)
    && DuplicatesResolve(d.candidates)
    && Distinct(PlayerIds(d.away) + PlayerIds(d.home))
    && Distinct(RecordIds(d.batters)) && Distinct(RecordIds(d.pitchers))
  }

  /** The decoder does not check that links name pitches: the commands have to keep that. */
  predicate Valid(d: Document) {
    Decodable(d) && LinksToPitches(d.events, d.candidates)
  }

  function Decode(env: Environment, d: Document): Result<Document, Error> {
    if env.documentSchema(d) && Decodable(d) then Ok(d) else Err(Refused)
  }

  // ---- Lookups ----------------------------------------------------------------------------------

  function FindEvent(d: Document, id: string): (r: Option<RelayEvent>)
    ensures r.Some? ==> r.value in d.events && r.value.identity.eventId == id
    ensures r.None? ==> id !in EventIds(d.events)
  {
    var i := IndexOf(EventIds(d.events), id);
    if i < |d.events| then Some(d.events[i]) else None
  }

  function FindRecord(records: seq<OfficialRecord>, playerId: string): (r: Option<OfficialRecord>)
    ensures r.Some? ==> r.value in records && r.value.playerId == playerId
    ensures r.None? ==> playerId !in RecordIds(records)
  {
    var i := IndexOf(RecordIds(records), playerId);
    if i < |records| then Some(records[i]) else None
  }

  function FindLine(lines: seq<StatLine>, playerId: string): Option<StatLine> {
    if lines == [] then None
    else if lines[0].playerId == playerId then Some(lines[0])
    else FindLine(lines[1..], playerId)
  }

  /** A map built from a list keeps the last entry of a key. */
  function FindFact(facts: seq<PitchFact>, pitchId: string): Option<PitchFact> {
    if facts == [] then None
    else if facts[|facts| - 1].pitchId == pitchId then Some(facts[|facts| - 1])
    else FindFact(facts[..|facts| - 1], pitchId)
  }

  function FindCandidate(candidates: seq<Candidate>, trackingId: string): (r: Option<Candidate>)
    ensures r.Some? ==> r.value in candidates && r.value.trackingId == trackingId
    ensures r.None? <==> trackingId !in TrackingIds(candidates)
  {
    if candidates == [] then None
    else if candidates[|candidates| - 1].trackingId == trackingId then
      assert TrackingIds(candidates)[|candidates| - 1] == trackingId;
      Some(candidates[|candidates| - 1])
    else
      assert TrackingIds(candidates) == TrackingIds(candidates[..|candidates| - 1]) + [candidates[|candidates| - 1].trackingId];
      FindCandidate(candidates[..|candidates| - 1], trackingId)
  }

  lemma {:induction false} FindsCandidateAt(candidates: seq<Candidate>, i: nat)
    requires i < |candidates| && Distinct(TrackingIds(candidates))
    ensures FindCandidate(candidates, candidates[i].trackingId) == Some(candidates[i])
  {
    var found := FindCandidate(candidates, candidates[i].trackingId);
    assert TrackingIds(candidates)[i] == candidates[i].trackingId;
    var j :| 0 <= j < |candidates| && candidates[j] == found.value;
    assert TrackingIds(candidates)[j] == TrackingIds(candidates)[i];
    assert j == i;
  }

  // ---- What the decoder checks ------------------------------------------------------------------

  /** Two different places of a ledger never carry one identifier, places are numbered, and duplicates name others. */
  ghost predicate WellFormed(d: Document) {
    && (forall i, j :: 0 <= i < |d.events| && 0 <= j < |d.events| && d.events[i].identity.eventId == d.events[j].identity.eventId ==> i == j)
    && (forall i :: 0 <= i < |d.events| ==> d.events[i].sequence == i)
    && (forall i, j :: 0 <= i < |d.candidates| && 0 <= j < |d.candidates| && d.candidates[i].trackingId == d.candidates[j].trackingId ==> i == j)
    && (forall i :: 0 <= i < |d.candidates| ==> d.candidates[i].sequence == i)
    && (forall i :: 0 <= i < |d.candidates| && d.candidates[i].resolution.Duplicate? ==>
          exists j :: 0 <= j < |d.candidates| && j != i
            && d.candidates[j].trackingId == d.candidates[i].resolution.canonicalTrackingId)
    && OnePlayerEach(d.away + d.home) && OneRecordEach(d.batters) && OneRecordEach(d.pitchers)
  }

  ghost predicate OnePlayerEach(players: seq<RosterPlayer>) {
    forall i, j :: 0 <= i < |players| && 0 <= j < |players| && players[i].playerId == players[j].playerId ==> i == j
  }

  ghost predicate OneRecordEach(records: seq<OfficialRecord>) {
    forall i, j :: 0 <= i < |records| && 0 <= j < |records| && records[i].playerId == records[j].playerId ==> i == j
  }

  lemma {:induction false} DistinctPlayers(players: seq<RosterPlayer>)
    ensures OnePlayerEach(players) <==> Distinct(PlayerIds(players))
  {
    var ids := PlayerIds(players);
    assert forall i :: 0 <= i < |players| ==> ids[i] == players[i].playerId;
  }

  lemma {:induction false} DistinctRecords(records: seq<OfficialRecord>)
    ensures OneRecordEach(records) <==> Distinct(RecordIds(records))
  {
    var ids := RecordIds(records);
    assert forall i :: 0 <= i < |records| ==> ids[i] == records[i].playerId;
  }

  lemma {:induction false} DuplicatesNameOthers(candidates: seq<Candidate>)
    requires Distinct(TrackingIds(candidates))
    ensures DuplicatesResolve(candidates) <==>
      forall i :: 0 <= i < |candidates| && candidates[i].resolution.Duplicate? ==>
        exists j :: 0 <= j < |candidates| && j != i && candidates[j].trackingId == candidates[i].resolution.canonicalTrackingId
  {
    var ids := TrackingIds(candidates);
    assert forall i :: 0 <= i < |candidates| ==> ids[i] == candidates[i].trackingId;
  }

  /** The decoder accepts exactly the well-formed ledgers whose rows its schemas accept, as they are. */
  lemma {:induction false} DecodeExactly(env: Environment, d: Document)
    ensures Decode(env, d) == (if env.documentSchema(d) && WellFormed(d) then Ok(d) else Err(Refused))
  {
    hide DuplicatesResolve, OnePlayerEach, OneRecordEach;
    DistinctPlayers(d.away + d.home);
    assert PlayerIds(d.away + d.home) == PlayerIds(d.away) + PlayerIds(d.home);
    DistinctRecords(d.batters);
    DistinctRecords(d.pitchers);
    DistinctRows(d.events);
    DistinctCandidates(d.candidates);
    if Distinct(TrackingIds(d.candidates)) { DuplicatesNameOthers(d.candidates); }
  }

  lemma {:induction false} DistinctRows(events: seq<RelayEvent>)
    ensures Distinct(EventIds(events)) <==>
      forall i, j :: 0 <= i < |events| && 0 <= j < |events| && events[i].identity.eventId == events[j].identity.eventId ==> i == j
  {
    var ids := EventIds(events);
    assert forall i :: 0 <= i < |events| ==> ids[i] == events[i].identity.eventId;
  }

  lemma {:induction false} DistinctCandidates(candidates: seq<Candidate>)
    ensures Distinct(TrackingIds(candidates)) <==>
      forall i, j :: 0 <= i < |candidates| && 0 <= j < |candidates| && candidates[i].trackingId == candidates[j].trackingId ==> i == j
  {
    var ids := TrackingIds(candidates);
    assert forall i :: 0 <= i < |candidates| ==> ids[i] == candidates[i].trackingId;
  }

  // ---- What the lookups find --------------------------------------------------------------------

  /** The first line of the player. */
  predicate FirstLine(lines: seq<StatLine>, playerId: string, k: nat) {
    k < |lines| && lines[k].playerId == playerId && forall j :: 0 <= j < k ==> lines[j].playerId != playerId
  }

  lemma {:induction false} FindLineExactly(lines: seq<StatLine>, playerId: string)
    ensures FindLine(lines, playerId).None? <==> forall k :: 0 <= k < |lines| ==> lines[k].playerId != playerId
    ensures FindLine(lines, playerId).Some? ==>
      exists k: nat :: FirstLine(lines, playerId, k) && lines[k] == FindLine(lines, playerId).value
  {
    if lines != [] {
      if lines[0].playerId == playerId {
        assert FirstLine(lines, playerId, 0);
      } else {
        FindLineExactly(lines[1..], playerId);
        assert forall k :: 1 <= k < |lines| ==> lines[k] == lines[1..][k - 1];
        if FindLine(lines, playerId).Some? {
          var k: nat :| FirstLine(lines[1..], playerId, k) && lines[1..][k] == FindLine(lines[1..], playerId).value;
          assert FirstLine(lines, playerId, k + 1);
        }
      }
    }
  }

  predicate FirstRecord(records: seq<OfficialRecord>, playerId: string, k: nat) {
    k < |records| && records[k].playerId == playerId && forall j :: 0 <= j < k ==> records[j].playerId != playerId
  }

  lemma {:induction false} FindRecordExactly(records: seq<OfficialRecord>, playerId: string)
    ensures FindRecord(records, playerId).None? <==> forall k :: 0 <= k < |records| ==> records[k].playerId != playerId
    ensures FindRecord(records, playerId).Some? ==>
      exists k: nat :: FirstRecord(records, playerId, k) && records[k] == FindRecord(records, playerId).value
  {
    var k := IndexOf(RecordIds(records), playerId);
    assert forall j :: 0 <= j < |records| ==> RecordIds(records)[j] == records[j].playerId;
    if k < |records| { assert FirstRecord(records, playerId, k); }
  }
}
