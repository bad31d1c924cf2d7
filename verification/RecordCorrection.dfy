/** Edits synthesised from an official record-correction notice, and why they converge. */
module RecordCorrection {
  import opened Wrappers
  import opened GameDocument
  import opened TrackingCommands
  import opened Commands

  datatype StatCode =
    | PlateAppearances | AtBats | Runs | Hits | Doubles | Triples | HomeRuns | RunsBattedIn | Walks
    | IntentionalWalks | HitByPitches | Strikeouts | SacrificeBunts | SacrificeFlies
    | BattersFaced | OutsPitched | HitsAllowed | RunsAllowed | EarnedRuns | WalksAllowed
    | IntentionalWalksAllowed | HitBatters | StrikeoutsPitched | Pitches | Strikes
    | TotalBases | FieldingErrors | PitcherAtBats | PitcherSacrificeBunts | UnknownStat

  datatype Scope = BatterScope | PitcherScope | FielderScope | UnknownScope

  datatype Support = Direct | Derived | EvidenceOnly | UnknownSupport

  datatype Decision = HitDecision | ErrorDecision | FielderChoiceDecision | UnknownDecision

  datatype StatChange = StatChange(
    participantIndex: Option<nat>, rawStatName: string, statCode: StatCode, scope: Scope,
    beforeValue: nat, afterValue: nat, supportKind: Support)

  datatype Notice = Notice(decisionBefore: Decision, decisionAfter: Decision, statChanges: seq<StatChange>)

  datatype Binding = Binding(eventId: string, batterPlayerId: string, pitcherPlayerId: string, participants: map<nat, string>)

  datatype ChangeKind = EventChange | OfficialBatter | OfficialPitcher | DerivedChange | Evidence

  datatype ChangeState = ToChange | AlreadyApplied | Verified | EvidenceState | Conflict

  datatype Shown = Nothing | Number(value: int) | ResultName(result: PlateResult)

  datatype Change = Change(
    kind: ChangeKind, playerId: Option<string>, field: string, before: Shown, after: Shown, state: ChangeState)

  datatype Reason =
    | NotAPlateResult | OtherParticipants | DecisionMismatch | DestinationMoves | RbiOutOfRange | HitTypeUnknown
    | DecisionUnsupported | DerivedConflict(stat: string) | PlayerUnknown(stat: string) | RecordMissing(stat: string)
    | RecordConflict(stat: string) | NewBlocking(count: nat) | DecisionNotReached | DerivedNotReached(stat: string)
    | RecordNotReached(stat: string) | CompiledNotReached(playerId: string, stat: string) | BatchFailed(error: Error)

  /** `result` is the corrected ledger and compile the preview is drawn from. */
  datatype Built = Built(
    eligible: bool, reasons: seq<Reason>, changes: seq<Change>, batch: Option<seq<Command>>, result: Option<Correction>)

  datatype Descriptor = Descriptor(field: string, omittedValue: Option<int>)

  // ---- Tables -----------------------------------------------------------------------------------

  function BatterField(code: StatCode): Option<Descriptor> {
    match code
    case PlateAppearances => Some(Descriptor("plateAppearances", None))
    case AtBats => Some(Descriptor("atBats", None))
    case Runs => Some(Descriptor("runs", None))
    case Hits => Some(Descriptor("hits", None))
    case Doubles => Some(Descriptor("doubles", Some(0)))
    case Triples => Some(Descriptor("triples", Some(0)))
    case HomeRuns => Some(Descriptor("homeRuns", None))
    case RunsBattedIn => Some(Descriptor("runsBattedIn", None))
    case Walks => Some(Descriptor("walks", None))
    case IntentionalWalks => Some(Descriptor("intentionalWalks", Some(0)))
    case HitByPitches => Some(Descriptor("hitByPitch", Some(0)))
    case Strikeouts => Some(Descriptor("strikeouts", None))
    case SacrificeBunts => Some(Descriptor("sacrificeBunts", Some(0)))
    case SacrificeFlies => Some(Descriptor("sacrificeFlies", Some(0)))
    case _ => None
  }

  function PitcherField(code: StatCode): Option<Descriptor> {
    match code
    case BattersFaced => Some(Descriptor("battersFaced", None))
    case OutsPitched => Some(Descriptor("outsRecorded", None))
    case HitsAllowed => Some(Descriptor("hits", None))
    case RunsAllowed => Some(Descriptor("runs", None))
    case EarnedRuns => Some(Descriptor("earnedRuns", None))
    case WalksAllowed => Some(Descriptor("walks", None))
    case IntentionalWalksAllowed => Some(Descriptor("intentionalWalks", Some(0)))
    case HitBatters => Some(Descriptor("hitByPitch", None))
    case StrikeoutsPitched => Some(Descriptor("strikeouts", None))
    case Pitches => Some(Descriptor("pitches", None))
    case Strikes => Some(Descriptor("strikes", None))
    case _ => None
  }

  /** The words of a statistic in the notice, joined there by underscores. */
  function StatWords(code: StatCode): seq<string> {
    match code
    case PlateAppearances => ["plate", "appearances"]
    case AtBats => ["at", "bats"]
    case Runs => ["runs"]
    case Hits => ["hits"]
    case Doubles => ["doubles"]
    case Triples => ["triples"]
    case HomeRuns => ["home", "runs"]
    case RunsBattedIn => ["runs", "batted", "in"]
    case Walks => ["walks"]
    case IntentionalWalks => ["intentional", "walks"]
    case HitByPitches => ["hit", "by", "pitch"]
    case Strikeouts => ["strikeouts"]
    case SacrificeBunts => ["sacrifice", "bunts"]
    case SacrificeFlies => ["sacrifice", "flies"]
    case BattersFaced => ["batters", "faced"]
    case OutsPitched => ["outs", "pitched"]
    case HitsAllowed => ["hits", "allowed"]
    case RunsAllowed => ["runs", "allowed"]
    case EarnedRuns => ["earned", "runs"]
    case WalksAllowed => ["walks", "allowed"]
    case IntentionalWalksAllowed => ["intentional", "walks", "allowed"]
    case HitBatters => ["hit", "batters"]
    case StrikeoutsPitched => ["strikeouts", "pitched"]
    case Pitches => ["pitches"]
    case Strikes => ["strikes"]
    case TotalBases => ["total", "bases"]
    case FieldingErrors => ["fielding", "errors"]
    case PitcherAtBats => ["pitcher", "at", "bats"]
    case PitcherSacrificeBunts => ["pitcher", "sacrifice", "bunts"]
    case UnknownStat => ["unknown"]
  }

  function Capital(word: string): string {
    if word != "" && 'a' <= word[0] <= 'z' then [(word[0] as int - 32) as char] + word[1..] else word
  }

  function CamelCase(words: seq<string>): string {
    if words == [] then "" else if |words| == 1 then words[0]
    else CamelCase(words[..|words| - 1]) + Capital(words[|words| - 1])
  }

  lemma {:induction false} CamelOfTwo(a: string, b: string)
    ensures CamelCase([a]) == a && CamelCase([a, b]) == a + Capital(b)
  {
    assert [a, b][..1] == [a];
  }

  lemma {:induction false} CamelOfThree(a: string, b: string, c: string)
    ensures CamelCase([a, b, c]) == a + Capital(b) + Capital(c)
  {
    CamelOfTwo(a, b);
    assert [a, b, c][..2] == [a, b];
  }

  /** A batter field is named like its statistic. */
  lemma {:induction false} BatterFieldIsNamed(code: StatCode)
    ensures BatterField(code).Some? ==> BatterField(code).value.field == CamelCase(StatWords(code))
  {
    hide CamelCase;
    TwoWords();
    ThreeWords();
    if |StatWords(code)| == 1 {
      CamelOfTwo(StatWords(code)[0], "");
      assert StatWords(code) == [StatWords(code)[0]];
    }
  }

  lemma {:induction false} TwoWords()
    ensures CamelCase(["plate", "appearances"]) == "plateAppearances" && CamelCase(["at", "bats"]) == "atBats"
    ensures CamelCase(["home", "runs"]) == "homeRuns" && CamelCase(["intentional", "walks"]) == "intentionalWalks"
    ensures CamelCase(["sacrifice", "bunts"]) == "sacrificeBunts" && CamelCase(["sacrifice", "flies"]) == "sacrificeFlies"
  {
    hide CamelCase;
    CamelOfTwo("plate", "appearances");
    CamelOfTwo("at", "bats");
    CamelOfTwo("home", "runs");
    CamelOfTwo("intentional", "walks");
    CamelOfTwo("sacrifice", "bunts");
    CamelOfTwo("sacrifice", "flies");
  }

  lemma {:induction false} ThreeWords()
    ensures CamelCase(["runs", "batted", "in"]) == "runsBattedIn" && CamelCase(["hit", "by", "pitch"]) == "hitByPitch"
  {
    hide CamelCase;
    CamelOfThree("runs", "batted", "in");
    CamelOfThree("hit", "by", "pitch");
  }

  /** Only the fields a record may omit count as zero without it. */
  lemma {:induction false} ZeroWhenOmitted(code: StatCode)
    ensures var batter, mayOmit := BatterField(code), {Doubles, Triples, IntentionalWalks, HitByPitches, SacrificeBunts, SacrificeFlies};
      batter.Some? ==> batter.value.omittedValue == if code in mayOmit then Some(0) else None
    ensures var pitcher := PitcherField(code);
      pitcher.Some? ==> pitcher.value.omittedValue == if code == IntentionalWalksAllowed then Some(0) else None
  {
  }

  /** The words of a pitcher statistic without a last "allowed" or "pitched". */
  function Stem(code: StatCode): seq<string> {
    var words := StatWords(code);
    if |words| > 0 && words[|words| - 1] in {"allowed", "pitched"} then words[..|words| - 1] else words
  }

  /** A pitcher field is named by the stem of its statistic, but for two fields with names of their own. */
  lemma {:induction false} PitcherFieldIsNamed(code: StatCode)
    ensures var name := if code == OutsPitched then "outsRecorded" else if code == HitBatters then "hitByPitch" else CamelCase(Stem(code));
      PitcherField(code).Some? ==> PitcherField(code).value.field == name
  {
    hide CamelCase, Capital, Stem, StatWords;
    OneWordStems();
    TwoWordStems();
    CamelOfTwo("hits", "");
    CamelOfTwo("runs", "");
    CamelOfTwo("walks", "");
    CamelOfTwo("strikeouts", "");
    CamelOfTwo("pitches", "");
    CamelOfTwo("strikes", "");
  }

  lemma {:induction false} OneWordStems()
    ensures Stem(HitsAllowed) == ["hits"] && Stem(RunsAllowed) == ["runs"] && Stem(WalksAllowed) == ["walks"]
    ensures Stem(StrikeoutsPitched) == ["strikeouts"] && Stem(Pitches) == ["pitches"] && Stem(Strikes) == ["strikes"]
  {
  }

  lemma {:induction false} TwoWordStems()
    ensures CamelCase(Stem(BattersFaced)) == "battersFaced" && CamelCase(Stem(EarnedRuns)) == "earnedRuns"
    ensures CamelCase(Stem(IntentionalWalksAllowed)) == "intentionalWalks"
  {
    hide CamelCase;
    CamelOfTwo("batters", "faced");
    CamelOfTwo("earned", "runs");
    CamelOfTwo("intentional", "walks");
    assert Stem(IntentionalWalksAllowed) == ["intentional", "walks"];
  }

  const BATTER_DIRECT := {
    PlateAppearances, AtBats, Runs, Hits, Doubles, Triples, HomeRuns, RunsBattedIn, Walks, IntentionalWalks,
    HitByPitches, Strikeouts, SacrificeBunts, SacrificeFlies}

  const PITCHER_DIRECT := {
    BattersFaced, OutsPitched, HitsAllowed, RunsAllowed, EarnedRuns, WalksAllowed, IntentionalWalksAllowed,
    HitBatters, StrikeoutsPitched, Pitches, Strikes}

  function SupportOf(scope: Scope, code: StatCode): Support {
    if code == UnknownStat || scope == UnknownScope then UnknownSupport
    else if scope == FielderScope then (if code == FieldingErrors then EvidenceOnly else UnknownSupport)
    else if scope == BatterScope then
      if code == TotalBases then Derived else if code in BATTER_DIRECT then Direct else UnknownSupport
    else if code == PitcherAtBats || code == PitcherSacrificeBunts || code == SacrificeFlies then EvidenceOnly
    else if code in PITCHER_DIRECT then Direct else UnknownSupport
  }

  function FieldOf(scope: Scope, code: StatCode): Option<Descriptor> {
    match scope
    case BatterScope => BatterField(code)
    case PitcherScope => PitcherField(code)
    case _ => None
  }

  /** The list of directly supported statistics and the tables of record fields agree. */
  lemma {:induction false} DirectMeansField(scope: Scope, code: StatCode)
    ensures SupportOf(scope, code) == Direct <==> FieldOf(scope, code).Some?
    ensures SupportOf(scope, code) == Derived <==> scope == BatterScope && code == TotalBases
    ensures SupportOf(scope, code) == EvidenceOnly
      <==> (scope == FielderScope && code == FieldingErrors)
           || (scope == PitcherScope && code in {PitcherAtBats, PitcherSacrificeBunts, SacrificeFlies})
  {
    match code
    case PlateAppearances | AtBats | Runs | Hits | Doubles | Triples | HomeRuns | RunsBattedIn | Walks
       | IntentionalWalks | HitByPitches | Strikeouts | SacrificeBunts | SacrificeFlies =>
      assert code in BATTER_DIRECT && code !in PITCHER_DIRECT;
    case BattersFaced | OutsPitched | HitsAllowed | RunsAllowed | EarnedRuns | WalksAllowed
       | IntentionalWalksAllowed | HitBatters | StrikeoutsPitched | Pitches | Strikes =>
      assert code in PITCHER_DIRECT && code !in BATTER_DIRECT;
    case TotalBases | FieldingErrors | PitcherAtBats | PitcherSacrificeBunts | UnknownStat =>
      assert code !in PITCHER_DIRECT && code !in BATTER_DIRECT;
  }

  function EffectiveSupport(stat: StatChange): Support {
    if stat.supportKind == UnknownSupport || stat.supportKind == EvidenceOnly then stat.supportKind
    else SupportOf(stat.scope, stat.statCode)
  }

  /** A notice may say less than the tables allow, never more. */
  lemma {:induction false} SupportIsLimited(stat: StatChange)
    ensures EffectiveSupport(stat) == Direct <==>
      FieldOf(stat.scope, stat.statCode).Some? && (stat.supportKind == Direct || stat.supportKind == Derived)
    ensures EffectiveSupport(stat) == Derived <==>
      stat.scope == BatterScope && stat.statCode == TotalBases && (stat.supportKind == Direct || stat.supportKind == Derived)
  {
    hide SupportOf, FieldOf;
    DirectMeansField(stat.scope, stat.statCode);
  }

  /** Different statistics of a scope are kept in different fields. */
  lemma {:induction false} FieldsAreDistinct(scope: Scope, a: StatCode, b: StatCode)
    requires FieldOf(scope, a).Some? && FieldOf(scope, b).Some? && FieldOf(scope, a).value.field == FieldOf(scope, b).value.field
    ensures a == b
  {
  }

  function Participant(binding: Binding, index: Option<nat>): Option<string> {
    if index.Some? && index.value in binding.participants then Some(binding.participants[index.value]) else None
  }

  function NumericField(fields: map<string, int>, descriptor: Descriptor): Option<int> {
    if descriptor.field in fields then Some(fields[descriptor.field]) else descriptor.omittedValue
  }

  predicate IsHit(result: PlateResult) {
    result in {Single, Double, Triple, HomeRun}
  }

  function DecisionFor(result: PlateResult): Decision {
    if IsHit(result) then HitDecision
    else if result == ReachedOnError || result == SacrificeBunt then ErrorDecision
    else if result == FielderChoice then FielderChoiceDecision
    else UnknownDecision
  }

  function Destination(result: PlateResult, explicit: Option<int>): int {
    if explicit.Some? then explicit.value
    else match result case Double => 2 case Triple => 3 case HomeRun => 4 case _ => 1
  }

  // ---- The result the notice asks for -----------------------------------------------------------

  /** The first change in the list that gives this statistic to the bound batter. */
  function BatterChange(stats: seq<StatChange>, binding: Binding, code: StatCode, rising: bool): Option<StatChange> {
    if stats == [] then None
    else if stats[0].statCode == code && Participant(binding, stats[0].participantIndex) == Some(binding.batterPlayerId)
      && (rising ==> stats[0].afterValue > stats[0].beforeValue) then Some(stats[0])
    else BatterChange(stats[1..], binding, code, rising)
  }

  function TargetResult(notice: Notice, binding: Binding, current: PlateResult): Result<(PlateResult, int), Reason> {
    match notice.decisionAfter
    case FielderChoiceDecision => Ok((FielderChoice, 1))
    case ErrorDecision =>
      Ok((if BatterChange(notice.statChanges, binding, SacrificeBunts, true).None? then ReachedOnError else SacrificeBunt, 1))
    case HitDecision =>
      if IsHit(current) then Ok((current, Destination(current, None))) else
      var bases := BatterChange(notice.statChanges, binding, TotalBases, false);
      if bases.None? then Err(HitTypeUnknown) else
      (match bases.value.afterValue - bases.value.beforeValue
       case 1 => Ok((Single, 1))
       case 2 => Ok((Double, 2))
       case 3 => Ok((Triple, 3))
       case 4 => Ok((HomeRun, 4))
       case _ => Err(HitTypeUnknown))
    case UnknownDecision => Err(DecisionUnsupported)
  }

  // ---- Working state ----------------------------------------------------------------------------

  /** Reasons, changes and the two record maps, in insertion order. */
  datatype Work = Work(reasons: seq<Reason>, changes: seq<Change>, batters: seq<OfficialRecord>, pitchers: seq<OfficialRecord>)

  function Noted(work: Work, change: Change): Work {
    work.(changes := work.changes + [change])
  }

  function Objected(work: Work, reason: Reason): Work {
    work.(reasons := work.reasons + [reason])
  }

  // ---- The plate result -------------------------------------------------------------------------

  /** The new event RBI, or no value when it leaves the allowed range. */
  function CreditedRbi(notice: Notice, binding: Binding, current: Option<int>): Result<Option<int>, Reason> {
    var change := BatterChange(notice.statChanges, binding, RunsBattedIn, false);
    if change.None? || change.value.beforeValue == change.value.afterValue then Ok(current) else
    var next := (if current.Some? then current.value else 0) + change.value.afterValue - change.value.beforeValue;
    if next < 0 || next > 4 then Err(RbiOutOfRange) else Ok(Some(next))
  }

  function OrZero(v: Option<int>): Shown {
    Number(if v.Some? then v.value else 0)
  }

  function Replacement(event: RelayEvent, result: PlateResult, rbi: Option<int>): RelayEvent
    requires event.payload.Plate?
  {
    event.(payload := Plate(event.payload.plate.(
      result := result, creditedRbi := rbi,
      isBunt := if result == SacrificeBunt then Some(true) else event.payload.plate.isBunt)))
  }

  function EventPart(notice: Notice, binding: Binding, event: RelayEvent): (Work, seq<Command>)
    requires event.payload.Plate?
  {
    var empty := Work([], [], [], []);
    var plate := event.payload.plate;
    match TargetResult(notice, binding, plate.result)
    case Err(reason) => (Objected(empty, reason), [])
    case Ok((target, destination)) =>
      var current := DecisionFor(plate.result);
      var shown := Change(EventChange, Some(binding.batterPlayerId), "result", ResultName(plate.result), ResultName(target), ToChange);
      if current != notice.decisionBefore && current != notice.decisionAfter then (Objected(empty, DecisionMismatch), [])
      else if target == plate.result then (Noted(empty, shown.(state := AlreadyApplied)), [])
      else if Destination(plate.result, plate.batterDestination) != destination then (Objected(empty, DestinationMoves), [])
      else
        var credited := CreditedRbi(notice, binding, plate.creditedRbi);
        var rbi := if credited.Ok? then credited.value else plate.creditedRbi;
        var start := if credited.Ok? then empty else Objected(empty, RbiOutOfRange);
        var work := Noted(start, shown);
        (if rbi == plate.creditedRbi then work
         else Noted(work, Change(EventChange, Some(binding.batterPlayerId), "creditedRbi",
                                 OrZero(plate.creditedRbi), OrZero(rbi), ToChange)),
         [ReplaceEvent(binding.eventId, Replacement(event, target, rbi))])
  }

  // ---- One statistic ----------------------------------------------------------------------------

  function TotalBasesOf(replay: Replay, playerId: string): Option<int> {
    var line := FindLine(replay.batterLines, playerId);
    if line.None? then None
    else Some(Field(line.value, "hits") + Field(line.value, "doubles") + 2 * Field(line.value, "triples")
              + 3 * Field(line.value, "homeRuns"))
  }

  function Field(line: StatLine, name: string): int {
    if name in line.fields then line.fields[name] else 0
  }

  function ShownOption(v: Option<int>): Shown {
    if v.Some? then Number(v.value) else Nothing
  }

  function EvidenceStep(work: Work, playerId: Option<string>, stat: StatChange, state: ChangeState): Work {
    Noted(work, Change(Evidence, playerId, stat.rawStatName, Number(stat.beforeValue), Number(stat.afterValue), state))
  }

  function DerivedStep(replay: Replay, binding: Binding, work: Work, playerId: Option<string>, stat: StatChange): Work {
    var batter := if playerId.Some? then playerId.value else binding.batterPlayerId;
    var current := TotalBasesOf(replay, batter);
    var state := if current == Some(stat.afterValue) then Verified
                 else if current == Some(stat.beforeValue) then ToChange else Conflict;
    var noted := Noted(work, Change(DerivedChange, Some(batter), stat.rawStatName, ShownOption(current), Number(stat.afterValue), state));
    if state == Conflict then Objected(noted, DerivedConflict(stat.rawStatName)) else noted
  }

  datatype Verdict = Keep(change: Change) | Objection(change: Change, reason: Reason) | Updated(change: Change, record: OfficialRecord)

  /** What happens to one field of an official line, given the line as already corrected so far. */
  function OfficialVerdict(
      kind: ChangeKind, records: seq<OfficialRecord>, pending: seq<OfficialRecord>, playerId: string,
      descriptor: Option<Descriptor>, stat: StatChange): (r: Verdict)
    ensures r.Updated? ==> r.record.playerId == playerId && FindRecord(records, playerId).Some?
  {
    var original := FindRecord(records, playerId);
    if original.None? || descriptor.None? then
      Objection(Change(kind, Some(playerId), stat.rawStatName, Nothing, Number(stat.afterValue), Conflict), RecordMissing(stat.rawStatName))
    else
      var found := FindRecord(pending, playerId);
      var current := if found.Some? then found.value else original.value;
      var field := descriptor.value.field;
      var value := NumericField(current.fields, descriptor.value);
      var change := Change(kind, Some(playerId), field, ShownOption(value), Number(stat.afterValue), AlreadyApplied);
      if value == Some(stat.afterValue) then Keep(change)
      else if value != Some(stat.beforeValue) && (field in current.fields || descriptor.value.omittedValue.None?) then
        Objection(change.(state := Conflict), RecordConflict(stat.rawStatName))
      else
        Updated(
          change.(state := ToChange,
                  before := if field !in current.fields && value != Some(stat.beforeValue) then Nothing else ShownOption(value)),
          current.(fields := current.fields[field := stat.afterValue]))
  }

  function StatStep(d: Document, replay: Replay, binding: Binding, work: Work, stat: StatChange): Work {
    var playerId := Participant(binding, stat.participantIndex);
    var support := EffectiveSupport(stat);
    if support == EvidenceOnly || support == UnknownSupport then EvidenceStep(work, playerId, stat, EvidenceState)
    else if support == Derived then DerivedStep(replay, binding, work, playerId, stat)
    else if playerId.None? then Objected(EvidenceStep(work, None, stat, Conflict), PlayerUnknown(stat.rawStatName))
    else match stat.scope
      case BatterScope =>
        (match OfficialVerdict(OfficialBatter, d.batters, work.batters, playerId.value, BatterField(stat.statCode), stat)
         case Keep(change) => Noted(work, change)
         case Objection(change, reason) => Objected(Noted(work, change), reason)
         case Updated(change, record) => Noted(work.(batters := UpdatedRecords(work.batters, playerId.value, record).value), change))
      case PitcherScope =>
        (match OfficialVerdict(OfficialPitcher, d.pitchers, work.pitchers, playerId.value, PitcherField(stat.statCode), stat)
         case Keep(change) => Noted(work, change)
         case Objection(change, reason) => Objected(Noted(work, change), reason)
         case Updated(change, record) => Noted(work.(pitchers := UpdatedRecords(work.pitchers, playerId.value, record).value), change))
      case _ => work
  }

  function Scan(d: Document, replay: Replay, binding: Binding, start: Work, stats: seq<StatChange>): Work {
    if stats == [] then start
    else StatStep(d, replay, binding, Scan(d, replay, binding, start, stats[..|stats| - 1]), stats[|stats| - 1])
  }

  function RecordCommands(batters: seq<OfficialRecord>, pitchers: seq<OfficialRecord>): seq<Command> {
    seq(|batters|, i requires 0 <= i < |batters| => UpdateBatterRecord(batters[i].playerId, batters[i]))
    + seq(|pitchers|, i requires 0 <= i < |pitchers| => UpdatePitcherRecord(pitchers[i].playerId, pitchers[i]))
  }

  // ---- Checking the corrected ledger ------------------------------------------------------------

  function OfficialReasons(
      records: seq<OfficialRecord>, lines: seq<StatLine>, playerId: string, descriptor: Option<Descriptor>,
      compiled: bool, stat: StatChange): seq<Reason>
  {
    if descriptor.None? then [] else
    var record := FindRecord(records, playerId);
    var line := FindLine(lines, playerId);
    (if record.Some? && NumericField(record.value.fields, descriptor.value) != Some(stat.afterValue)
     then [RecordNotReached(stat.rawStatName)] else [])
    + (if compiled && (line.None? || descriptor.value.field !in line.value.fields
                       || line.value.fields[descriptor.value.field] != stat.afterValue)
       then [CompiledNotReached(playerId, stat.rawStatName)] else [])
  }

  function StatReasons(d: Document, replay: Replay, binding: Binding, stat: StatChange): seq<Reason> {
    var playerId := Participant(binding, stat.participantIndex);
    var support := EffectiveSupport(stat);
    if support == EvidenceOnly || support == UnknownSupport then []
    else if support == Derived then
      var batter := if playerId.Some? then playerId.value else binding.batterPlayerId;
      if TotalBasesOf(replay, batter) != Some(stat.afterValue) then [DerivedNotReached(stat.rawStatName)] else []
    else if playerId.None? then []
    else match stat.scope
      case BatterScope =>
        OfficialReasons(d.batters, replay.batterLines, playerId.value, BatterField(stat.statCode), true, stat)
      case PitcherScope =>
        OfficialReasons(d.pitchers, replay.pitcherLines, playerId.value, PitcherField(stat.statCode),
          stat.statCode != EarnedRuns, stat)
      case _ => []
  }

  function AllStatReasons(d: Document, replay: Replay, binding: Binding, stats: seq<StatChange>): seq<Reason> {
    if stats == [] then []
    else AllStatReasons(d, replay, binding, stats[..|stats| - 1]) + StatReasons(d, replay, binding, stats[|stats| - 1])
  }

  predicate DecisionReached(d: Document, notice: Notice, binding: Binding) {
    var event := FindEvent(d, binding.eventId);
    event.Some? && event.value.payload.Plate? && DecisionFor(event.value.payload.plate.result) == notice.decisionAfter
  }

  function VerifyReasons(d: Document, replay: Replay, notice: Notice, binding: Binding): seq<Reason> {
    (if DecisionReached(d, notice, binding) then [] else [DecisionNotReached])
    + AllStatReasons(d, replay, binding, notice.statChanges)
  }

  // ---- The proposal -----------------------------------------------------------------------------

  function FindingKey(f: Finding): string {
    f.code + ":" + (if f.eventId.Some? then f.eventId.value else "")
    + ":" + (if f.recordIdentity.Some? then f.recordIdentity.value else "")
  }

  function NewBlockingCount(before: Replay, after: seq<Finding>): (n: nat)
    ensures n == 0 <==> forall i :: 0 <= i < |after| && after[i].blocking ==> BlockedBefore(before, after[i])
  {
    if after == [] then 0 else
    NewBlockingCount(before, after[1..]) + if after[0].blocking && !BlockedBefore(before, after[0]) then 1 else 0
  }

  predicate BlockedBefore(before: Replay, f: Finding) {
    exists i :: 0 <= i < |before.findings| && before.findings[i].blocking && FindingKey(before.findings[i]) == FindingKey(f)
  }

  function Finished(
      env: Environment, d: Document, replay: Replay, notice: Notice, binding: Binding, work: Work,
      commands: seq<Command>): Built {
    if commands == [] then
      Built(false, work.reasons + VerifyReasons(d, replay, notice, binding), work.changes, None, None)
    else match ApplyCorrection(env, d, replay, commands)
      case Err(e) => Built(false, work.reasons + [BatchFailed(e)], work.changes, Some(commands), None)
      case Ok(result) =>
        var blocking := NewBlockingCount(replay, result.replay.findings);
        var reasons := work.reasons + (if blocking > 0 then [NewBlocking(blocking)] else [])
          + VerifyReasons(result.document, result.replay, notice, binding);
        Built(reasons == [], reasons, work.changes, Some(commands), Some(result))
  }

  function Blocked(reason: Reason): Built {
    Built(false, [reason], [], None, None)
  }

  predicate Bound(event: Option<RelayEvent>, binding: Binding) {
    event.Some? && event.value.payload.Plate?
    && event.value.payload.plate.batterId == binding.batterPlayerId
    && event.value.payload.plate.pitcherId == binding.pitcherPlayerId
  }

  function Proposal(env: Environment, d: Document, replay: Replay, notice: Notice, binding: Binding): Built {
    var event := FindEvent(d, binding.eventId);
    if event.None? || !event.value.payload.Plate? then Blocked(NotAPlateResult)
    else if !Bound(event, binding) then Blocked(OtherParticipants)
    else
      var (start, commands) := EventPart(notice, binding, event.value);
      var work := Scan(d, replay, binding, start, notice.statChanges);
      Finished(env, d, replay, notice, binding, work, commands + RecordCommands(work.batters, work.pitchers))
  }

  /** The builder owns a decoded copy of the ledger and its own compile. */
  function Build(env: Environment, input: Document, notice: Notice, binding: Binding): Result<Built, Error> {
    match Decode(env, input)
    case Err(e) => Err(e)
    case Ok(d) =>
      match env.compile(d)
      case Err(e) => Err(e)
      case Ok(replay) => Ok(Proposal(env, d, replay, notice, binding))
  }

  // ---- Building step by step --------------------------------------------------------------------

  /** The loop over the statistics with its growing lists and record maps. */
  method ScanStats(
      d: Document, replay: Replay, binding: Binding, start: Work, stats: seq<StatChange>) returns (work: Work)
    ensures work == Scan(d, replay, binding, start, stats)
  {
    hide StatStep;
    work := start;
    for i := 0 to |stats|
      invariant work == Scan(d, replay, binding, start, stats[..i])
    {
      assert stats[..i + 1][..i] == stats[..i];
      work := StatStep(d, replay, binding, work, stats[i]);
    }
    assert stats[..|stats|] == stats;
  }

  method VerifyAfterState(d: Document, replay: Replay, notice: Notice, binding: Binding, start: seq<Reason>)
    returns (reasons: seq<Reason>)
    ensures reasons == start + VerifyReasons(d, replay, notice, binding)
  {
    hide StatReasons, DecisionReached;
    var stats := notice.statChanges;
    reasons := start;
    if !DecisionReached(d, notice, binding) { reasons := reasons + [DecisionNotReached]; }
    ghost var first := reasons;
    for i := 0 to |stats|
      invariant reasons == first + AllStatReasons(d, replay, binding, stats[..i])
    {
      assert stats[..i + 1][..i] == stats[..i];
      reasons := reasons + StatReasons(d, replay, binding, stats[i]);
    }
    assert stats[..|stats|] == stats;
  }

  method BuildProposal(
      env: Environment, d: Document, replay: Replay, notice: Notice, binding: Binding) returns (built: Built)
    ensures built == Proposal(env, d, replay, notice, binding)
  {
    hide EventPart, Scan, RecordCommands, ApplyCorrection, VerifyReasons, NewBlockingCount, FindEvent;
    var event := FindEvent(d, binding.eventId);
    if event.None? || !event.value.payload.Plate? { return Blocked(NotAPlateResult); }
    if !Bound(event, binding) { return Blocked(OtherParticipants); }
    var (start, commands) := EventPart(notice, binding, event.value);
    var work := ScanStats(d, replay, binding, start, notice.statChanges);
    commands := commands + RecordCommands(work.batters, work.pitchers);
    var reasons := work.reasons;
    if commands == [] {
      reasons := VerifyAfterState(d, replay, notice, binding, reasons);
      return Built(false, reasons, work.changes, None, None);
    }
    var applied := ApplyCorrection(env, d, replay, commands);
    if applied.Err? { return Built(false, reasons + [BatchFailed(applied.error)], work.changes, Some(commands), None); }
    var result := applied.value;
    var blocking := NewBlockingCount(replay, result.replay.findings);
    if blocking > 0 { reasons := reasons + [NewBlocking(blocking)]; }
    reasons := VerifyAfterState(result.document, result.replay, notice, binding, reasons);
    return Built(reasons == [], reasons, work.changes, Some(commands), Some(result));
  }

  // ---- No reasons means every statistic was located and reached ---------------------------------

  /** A direct statistic has a player with an official line. */
  predicate Located(d: Document, binding: Binding, stat: StatChange) {
    EffectiveSupport(stat) == Direct ==>
      && Participant(binding, stat.participantIndex).Some?
      && var player := Participant(binding, stat.participantIndex).value;
         FindRecord(if stat.scope == BatterScope then d.batters else d.pitchers, player).Some?
  }

  lemma {:induction false} StepWithoutReasons(d: Document, replay: Replay, binding: Binding, work: Work, stat: StatChange)
    requires StatStep(d, replay, binding, work, stat).reasons == []
    ensures work.reasons == [] && Located(d, binding, stat)
  {
    hide FindRecord, UpdatedRecords, TotalBasesOf, BatterField, PitcherField;
  }

  lemma {:induction false} ScanWithoutReasons(
      d: Document, replay: Replay, binding: Binding, start: Work, stats: seq<StatChange>)
    requires Scan(d, replay, binding, start, stats).reasons == []
    ensures start.reasons == [] && forall k :: 0 <= k < |stats| ==> Located(d, binding, stats[k])
  {
    hide StatStep, Located;
    if stats != [] {
      var n := |stats| - 1;
      StepWithoutReasons(d, replay, binding, Scan(d, replay, binding, start, stats[..n]), stats[n]);
      ScanWithoutReasons(d, replay, binding, start, stats[..n]);
      assert forall k :: 0 <= k < n ==> stats[..n][k] == stats[k];
    }
  }

  lemma {:induction false} NoStatReasons(d: Document, replay: Replay, binding: Binding, stats: seq<StatChange>)
    requires AllStatReasons(d, replay, binding, stats) == []
    ensures forall k :: 0 <= k < |stats| ==> StatReasons(d, replay, binding, stats[k]) == []
  {
    hide StatReasons;
    if stats != [] {
      var n := |stats| - 1;
      NoStatReasons(d, replay, binding, stats[..n]);
      assert forall k :: 0 <= k < n ==> stats[..n][k] == stats[k];
    }
  }

  // ---- When the scan objects, and what it shows -------------------------------------------------

  function RecordsIn(d: Document, scope: Scope): seq<OfficialRecord> {
    if scope == BatterScope then d.batters else d.pitchers
  }

  /** The value of a field once these statistics have been taken: the last of them that names it, or the line as it was. */
  function ValueAfter(d: Document, binding: Binding, stats: seq<StatChange>, scope: Scope, playerId: string, descriptor: Descriptor): Option<int> {
    if stats == [] then
      var record := FindRecord(RecordsIn(d, scope), playerId);
      if record.None? then None
      else if descriptor.field in record.value.fields then Some(record.value.fields[descriptor.field]) else descriptor.omittedValue
    else if NamesOne(binding, stats[|stats| - 1], scope, playerId, descriptor.field) then Some(stats[|stats| - 1].afterValue)
    else ValueAfter(d, binding, stats[..|stats| - 1], scope, playerId, descriptor)
  }

  /** Nobody has written the field: the line omits it, and each statistic that names it agrees with the default. */
  predicate StillOmitted(d: Document, binding: Binding, stats: seq<StatChange>, scope: Scope, playerId: string, descriptor: Descriptor) {
    && FindRecord(RecordsIn(d, scope), playerId).Some?
    && descriptor.field !in FindRecord(RecordsIn(d, scope), playerId).value.fields
    && forall k :: 0 <= k < |stats| && NamesOne(binding, stats[k], scope, playerId, descriptor.field) ==>
         descriptor.omittedValue == Some(stats[k].afterValue)
  }

  /** The statistic can be taken after those before it: it finds the old or the new value, or a default nobody wrote. */
  predicate Acceptable(d: Document, replay: Replay, binding: Binding, earlier: seq<StatChange>, stat: StatChange) {
    var player := Participant(binding, stat.participantIndex);
    match EffectiveSupport(stat)
    case Direct =>
      && player.Some? && FindRecord(RecordsIn(d, stat.scope), player.value).Some? && FieldOf(stat.scope, stat.statCode).Some?
      && var descriptor := FieldOf(stat.scope, stat.statCode).value;
         var value := ValueAfter(d, binding, earlier, stat.scope, player.value, descriptor);
         || value == Some(stat.afterValue) || value == Some(stat.beforeValue)
         || (descriptor.omittedValue.Some? && StillOmitted(d, binding, earlier, stat.scope, player.value, descriptor))
    case Derived =>
      var total := TotalBasesOf(replay, if player.Some? then player.value else binding.batterPlayerId);
      total == Some(stat.afterValue) || total == Some(stat.beforeValue)
    case _ => true
  }

  /** The working lines hold, for every player and statistic, what the statistics taken so far say. */
  ghost predicate LinesHold(
      d: Document, binding: Binding, stats: seq<StatChange>, scope: Scope, pending: seq<OfficialRecord>)
  {
    forall playerId, code :: FindRecord(RecordsIn(d, scope), playerId).Some? && FieldOf(scope, code).Some? ==>
      LineHolds(d, binding, stats, scope, pending, playerId, FieldOf(scope, code).value)
  }

  ghost predicate LineHolds(
      d: Document, binding: Binding, stats: seq<StatChange>, scope: Scope, pending: seq<OfficialRecord>,
      playerId: string, descriptor: Descriptor)
    requires FindRecord(RecordsIn(d, scope), playerId).Some?
  {
    var line := LineOf(RecordsIn(d, scope), pending, playerId);
    && NumericField(line.fields, descriptor) == ValueAfter(d, binding, stats, scope, playerId, descriptor)
    && (descriptor.field !in line.fields <==> StillOmitted(d, binding, stats, scope, playerId, descriptor))
  }

  function LineOf(records: seq<OfficialRecord>, pending: seq<OfficialRecord>, playerId: string): OfficialRecord
    requires FindRecord(records, playerId).Some?
  {
    if FindRecord(pending, playerId).Some? then FindRecord(pending, playerId).value else FindRecord(records, playerId).value
  }

  lemma {:induction false} OmittedMore(
      d: Document, binding: Binding, stats: seq<StatChange>, stat: StatChange, scope: Scope, playerId: string, descriptor: Descriptor)
    ensures StillOmitted(d, binding, stats + [stat], scope, playerId, descriptor) <==>
      && StillOmitted(d, binding, stats, scope, playerId, descriptor)
      && (NamesOne(binding, stat, scope, playerId, descriptor.field) ==> descriptor.omittedValue == Some(stat.afterValue))
  {
    hide NamesOne;
    assert (stats + [stat])[|stats|] == stat;
    assert forall k :: 0 <= k < |stats| ==> (stats + [stat])[k] == stats[k];
  }

  lemma {:induction false} ValueMore(
      d: Document, binding: Binding, stats: seq<StatChange>, stat: StatChange, scope: Scope, playerId: string, descriptor: Descriptor)
    ensures ValueAfter(d, binding, stats + [stat], scope, playerId, descriptor) ==
      if NamesOne(binding, stat, scope, playerId, descriptor.field) then Some(stat.afterValue)
      else ValueAfter(d, binding, stats, scope, playerId, descriptor)
  {
    assert (stats + [stat])[..|stats|] == stats;
  }

  /** One line, one statistic: the verdict objects exactly when the statistic is not acceptable. */
  lemma {:induction false} VerdictAccepts(
      d: Document, replay: Replay, binding: Binding, earlier: seq<StatChange>, pending: seq<OfficialRecord>,
      kind: ChangeKind, playerId: string, stat: StatChange)
    requires EffectiveSupport(stat) == Direct && FieldOf(stat.scope, stat.statCode).Some?
    requires Participant(binding, stat.participantIndex) == Some(playerId)
    requires LinesHold(d, binding, earlier, stat.scope, pending)
    ensures var verdict := OfficialVerdict(kind, RecordsIn(d, stat.scope), pending, playerId, FieldOf(stat.scope, stat.statCode), stat);
      && (verdict.Objection? <==> !Acceptable(d, replay, binding, earlier, stat))
      && verdict.change.after == Number(stat.afterValue)
      && (verdict.Keep? ==> ValueAfter(d, binding, earlier, stat.scope, playerId, FieldOf(stat.scope, stat.statCode).value)
                              == Some(stat.afterValue))
      && (verdict.Updated? ==>
            && verdict.record.playerId == playerId
            && verdict.record.fields == LineOf(RecordsIn(d, stat.scope), pending, playerId).fields
                 [FieldOf(stat.scope, stat.statCode).value.field := stat.afterValue]
            && ValueAfter(d, binding, earlier, stat.scope, playerId, FieldOf(stat.scope, stat.statCode).value)
                 != Some(stat.afterValue))
  {
    hide FindRecord, FieldOf, EffectiveSupport, ValueAfter, StillOmitted, NumericField;
    if FindRecord(RecordsIn(d, stat.scope), playerId).Some? {
      assert LineHolds(d, binding, earlier, stat.scope, pending, playerId, FieldOf(stat.scope, stat.statCode).value);
    }
  }

  lemma {:induction false} LinesUnnamed(
      d: Document, binding: Binding, earlier: seq<StatChange>, stat: StatChange, scope: Scope, pending: seq<OfficialRecord>)
    requires LinesHold(d, binding, earlier, scope, pending)
    requires EffectiveSupport(stat) != Direct || stat.scope != scope
    ensures LinesHold(d, binding, earlier + [stat], scope, pending)
  {
    hide FindRecord, FieldOf, ValueAfter, StillOmitted, NumericField;
    forall playerId, code | FindRecord(RecordsIn(d, scope), playerId).Some? && FieldOf(scope, code).Some?
      ensures LineHolds(d, binding, earlier + [stat], scope, pending, playerId, FieldOf(scope, code).value)
    {
      var descriptor := FieldOf(scope, code).value;
      assert LineHolds(d, binding, earlier, scope, pending, playerId, descriptor);
      OmittedMore(d, binding, earlier, stat, scope, playerId, descriptor);
      ValueMore(d, binding, earlier, stat, scope, playerId, descriptor);
    }
  }

  lemma {:induction false} LinesKept(
      d: Document, binding: Binding, earlier: seq<StatChange>, stat: StatChange, playerId: string, pending: seq<OfficialRecord>)
    requires LinesHold(d, binding, earlier, stat.scope, pending)
    requires EffectiveSupport(stat) == Direct && FieldOf(stat.scope, stat.statCode).Some?
    requires Participant(binding, stat.participantIndex) == Some(playerId)
    requires ValueAfter(d, binding, earlier, stat.scope, playerId, FieldOf(stat.scope, stat.statCode).value) == Some(stat.afterValue)
    ensures LinesHold(d, binding, earlier + [stat], stat.scope, pending)
  {
    hide FindRecord, FieldOf, ValueAfter, StillOmitted, EffectiveSupport;
    forall other, code | FindRecord(RecordsIn(d, stat.scope), other).Some? && FieldOf(stat.scope, code).Some?
      ensures LineHolds(d, binding, earlier + [stat], stat.scope, pending, other, FieldOf(stat.scope, code).value)
    {
      var descriptor := FieldOf(stat.scope, code).value;
      assert LineHolds(d, binding, earlier, stat.scope, pending, other, descriptor);
      OmittedMore(d, binding, earlier, stat, stat.scope, other, descriptor);
      ValueMore(d, binding, earlier, stat, stat.scope, other, descriptor);
      if NamesOne(binding, stat, stat.scope, other, descriptor.field) { FieldsAreDistinct(stat.scope, code, stat.statCode); }
    }
  }

  lemma {:induction false} LinesUpdated(
      d: Document, binding: Binding, earlier: seq<StatChange>, stat: StatChange, playerId: string,
      pending: seq<OfficialRecord>, record: OfficialRecord)
    requires LinesHold(d, binding, earlier, stat.scope, pending) && record.playerId == playerId
    requires EffectiveSupport(stat) == Direct && FieldOf(stat.scope, stat.statCode).Some?
    requires Participant(binding, stat.participantIndex) == Some(playerId) && FindRecord(RecordsIn(d, stat.scope), playerId).Some?
    requires record.fields == LineOf(RecordsIn(d, stat.scope), pending, playerId).fields
      [FieldOf(stat.scope, stat.statCode).value.field := stat.afterValue]
    requires ValueAfter(d, binding, earlier, stat.scope, playerId, FieldOf(stat.scope, stat.statCode).value) != Some(stat.afterValue)
    ensures LinesHold(d, binding, earlier + [stat], stat.scope, UpdatedRecords(pending, playerId, record).value)
  {
    hide FindRecord, FieldOf, ValueAfter, StillOmitted, EffectiveSupport, UpdatedRecords;
    RecordUpdated(pending, playerId, record);
    var after := UpdatedRecords(pending, playerId, record).value;
    forall other, code | FindRecord(RecordsIn(d, stat.scope), other).Some? && FieldOf(stat.scope, code).Some?
      ensures LineHolds(d, binding, earlier + [stat], stat.scope, after, other, FieldOf(stat.scope, code).value)
    {
      var descriptor := FieldOf(stat.scope, code).value;
      assert LineHolds(d, binding, earlier, stat.scope, pending, other, descriptor);
      OmittedMore(d, binding, earlier, stat, stat.scope, other, descriptor);
      ValueMore(d, binding, earlier, stat, stat.scope, other, descriptor);
      if NamesOne(binding, stat, stat.scope, other, descriptor.field) { FieldsAreDistinct(stat.scope, code, stat.statCode); }
    }
  }

  ghost predicate BothHold(d: Document, binding: Binding, stats: seq<StatChange>, work: Work) {
    LinesHold(d, binding, stats, BatterScope, work.batters) && LinesHold(d, binding, stats, PitcherScope, work.pitchers)
  }

  lemma {:induction false} StepAccepts(
      d: Document, replay: Replay, binding: Binding, earlier: seq<StatChange>, work: Work, stat: StatChange)
    requires work.reasons == [] && BothHold(d, binding, earlier, work)
    ensures StatStep(d, replay, binding, work, stat).reasons == [] <==> Acceptable(d, replay, binding, earlier, stat)
    ensures Acceptable(d, replay, binding, earlier, stat) ==>
      BothHold(d, binding, earlier + [stat], StatStep(d, replay, binding, work, stat))
  {
    hide LinesHold, FindRecord, BatterField, PitcherField, SupportOf, OfficialVerdict, UpdatedRecords, TotalBasesOf, ValueAfter, StillOmitted;
    DirectMeansField(stat.scope, stat.statCode);
    var player := Participant(binding, stat.participantIndex);
    if EffectiveSupport(stat) != Direct {
      LinesUnnamed(d, binding, earlier, stat, BatterScope, work.batters);
      LinesUnnamed(d, binding, earlier, stat, PitcherScope, work.pitchers);
    } else if player.Some? {
      var (kind, pending) := if stat.scope == BatterScope then (OfficialBatter, work.batters) else (OfficialPitcher, work.pitchers);
      VerdictAccepts(d, replay, binding, earlier, pending, kind, player.value, stat);
      LinesUnnamed(d, binding, earlier, stat, if stat.scope == BatterScope then PitcherScope else BatterScope,
        if stat.scope == BatterScope then work.pitchers else work.batters);
      var verdict := OfficialVerdict(kind, RecordsIn(d, stat.scope), pending, player.value, FieldOf(stat.scope, stat.statCode), stat);
      if verdict.Keep? {
        LinesKept(d, binding, earlier, stat, player.value, pending);
      } else if verdict.Updated? {
        LinesUpdated(d, binding, earlier, stat, player.value, pending, verdict.record);
      }
    }
  }

  ghost predicate AllAcceptable(d: Document, replay: Replay, binding: Binding, stats: seq<StatChange>) {
    forall k :: 0 <= k < |stats| ==> Acceptable(d, replay, binding, stats[..k], stats[k])
  }

  lemma {:induction false} LastAcceptable(d: Document, replay: Replay, binding: Binding, stats: seq<StatChange>)
    requires stats != []
    ensures AllAcceptable(d, replay, binding, stats) <==>
      && AllAcceptable(d, replay, binding, stats[..|stats| - 1])
      && Acceptable(d, replay, binding, stats[..|stats| - 1], stats[|stats| - 1])
  {
    hide Acceptable;
    var n := |stats| - 1;
    assert forall k :: 0 <= k < n ==> stats[..n][..k] == stats[..k] && stats[..n][k] == stats[k];
  }

  /** The scan objects to nothing exactly when every statistic can be taken after those before it. */
  lemma {:induction false} ScanAccepts(d: Document, replay: Replay, binding: Binding, start: Work, stats: seq<StatChange>)
    requires start.batters == [] && start.pitchers == []
    ensures Scan(d, replay, binding, start, stats).reasons == []
      <==> start.reasons == [] && AllAcceptable(d, replay, binding, stats)
    ensures Scan(d, replay, binding, start, stats).reasons == [] ==>
      BothHold(d, binding, stats, Scan(d, replay, binding, start, stats))
  {
    hide StatStep, Acceptable, LinesHold;
    if stats == [] {
      NothingTaken(d, binding, BatterScope);
      NothingTaken(d, binding, PitcherScope);
    } else {
      hide AllAcceptable, BothHold;
      var n := |stats| - 1;
      var work := Scan(d, replay, binding, start, stats[..n]);
      ScanAccepts(d, replay, binding, start, stats[..n]);
      LastAcceptable(d, replay, binding, stats);
      if work.reasons == [] {
        StepAccepts(d, replay, binding, stats[..n], work, stats[n]);
        assert stats == stats[..n] + [stats[n]];
      } else if StatStep(d, replay, binding, work, stats[n]).reasons == [] {
        StepWithoutReasons(d, replay, binding, work, stats[n]);
      }
    }
  }

  lemma {:induction false} NothingTaken(d: Document, binding: Binding, scope: Scope)
    ensures LinesHold(d, binding, [], scope, [])
  {
    hide FieldOf;
    forall playerId, code | FindRecord(RecordsIn(d, scope), playerId).Some? && FieldOf(scope, code).Some?
      ensures LineHolds(d, binding, [], scope, [], playerId, FieldOf(scope, code).value) {}
  }

  // ---- A ledger that passed the check needs nothing more ----------------------------------------

  predicate Quiet(changes: seq<Change>) {
    forall i :: 0 <= i < |changes| ==> changes[i].state in {AlreadyApplied, Verified, EvidenceState}
  }

  predicate Settled(work: Work) {
    work.reasons == [] && work.batters == [] && work.pitchers == [] && Quiet(work.changes)
  }

  lemma {:induction false} VerdictOnReached(
      kind: ChangeKind, records: seq<OfficialRecord>, lines: seq<StatLine>, playerId: string,
      descriptor: Option<Descriptor>, compiled: bool, stat: StatChange)
    requires descriptor.Some? && FindRecord(records, playerId).Some?
    requires OfficialReasons(records, lines, playerId, descriptor, compiled, stat) == []
    ensures OfficialVerdict(kind, records, [], playerId, descriptor, stat).Keep?
    ensures OfficialVerdict(kind, records, [], playerId, descriptor, stat).change.state == AlreadyApplied
  {
  }

  lemma {:induction false} QuietStep(d: Document, replay: Replay, binding: Binding, work: Work, stat: StatChange)
    requires Settled(work) && Located(d, binding, stat) && StatReasons(d, replay, binding, stat) == []
    ensures Settled(StatStep(d, replay, binding, work, stat))
  {
    hide SupportOf, FindRecord, FindLine, TotalBasesOf, BatterField, PitcherField, OfficialReasons, OfficialVerdict;
    DirectMeansField(stat.scope, stat.statCode);
    if EffectiveSupport(stat) == Direct {
      var player := Participant(binding, stat.participantIndex).value;
      if stat.scope == BatterScope {
        VerdictOnReached(OfficialBatter, d.batters, replay.batterLines, player, BatterField(stat.statCode), true, stat);
      } else {
        VerdictOnReached(OfficialPitcher, d.pitchers, replay.pitcherLines, player, PitcherField(stat.statCode),
          stat.statCode != EarnedRuns, stat);
      }
    }
  }

  lemma {:induction false} QuietScan(d: Document, replay: Replay, binding: Binding, start: Work, stats: seq<StatChange>)
    requires Settled(start)
    requires forall k :: 0 <= k < |stats| ==> Located(d, binding, stats[k]) && StatReasons(d, replay, binding, stats[k]) == []
    ensures Settled(Scan(d, replay, binding, start, stats))
  {
    hide StatStep, StatReasons, Located, Settled;
    if stats != [] {
      var n := |stats| - 1;
      assert forall k :: 0 <= k < n ==> stats[..n][k] == stats[k];
      QuietScan(d, replay, binding, start, stats[..n]);
      QuietStep(d, replay, binding, Scan(d, replay, binding, start, stats[..n]), stats[n]);
    }
  }

  /** The target is its own target, so a corrected event asks for nothing. */
  lemma {:induction false} TargetIsStable(notice: Notice, binding: Binding, current: PlateResult)
    requires TargetResult(notice, binding, current).Ok?
    ensures TargetResult(notice, binding, TargetResult(notice, binding, current).value.0).Ok?
    ensures TargetResult(notice, binding, TargetResult(notice, binding, current).value.0).value.0
      == TargetResult(notice, binding, current).value.0
  {
  }

  lemma {:induction false} EventPartSettled(notice: Notice, binding: Binding, event: RelayEvent)
    requires event.payload.Plate? && DecisionFor(event.payload.plate.result) == notice.decisionAfter
    requires TargetResult(notice, binding, event.payload.plate.result).Ok?
    requires TargetResult(notice, binding, event.payload.plate.result).value.0 == event.payload.plate.result
    ensures Settled(EventPart(notice, binding, event).0) && EventPart(notice, binding, event).1 == []
  {
  }

  // ---- What the batch leaves in the ledger ------------------------------------------------------

  function Upserted(records: seq<OfficialRecord>, updates: seq<OfficialRecord>): seq<OfficialRecord>
    decreases |updates|
  {
    if updates == [] then records
    else Upserted(UpdatedRecords(records, updates[0].playerId, updates[0]).value, updates[1..])
  }

  lemma {:induction false} UpsertedFinds(records: seq<OfficialRecord>, updates: seq<OfficialRecord>, playerId: string)
    requires Distinct(RecordIds(updates))
    ensures FindRecord(Upserted(records, updates), playerId) ==
      if playerId in RecordIds(updates) then FindRecord(updates, playerId) else FindRecord(records, playerId)
    decreases |updates|
  {
    hide FindRecord, UpdatedRecords;
    if updates != [] {
      var first, rest := updates[0], updates[1..];
      DistinctTail(first, rest);
      assert updates == [first] + rest;
      RecordUpdated(records, first.playerId, first);
      UpsertedFinds(UpdatedRecords(records, first.playerId, first).value, rest, playerId);
      FindRecordCons(first, rest, playerId);
    }
  }

  lemma {:induction false} DistinctTail(first: OfficialRecord, rest: seq<OfficialRecord>)
    ensures RecordIds([first] + rest) == [first.playerId] + RecordIds(rest)
    ensures Distinct(RecordIds([first] + rest)) ==> Distinct(RecordIds(rest)) && first.playerId !in RecordIds(rest)
  {
    var ids := RecordIds([first] + rest);
    assert ids == [first.playerId] + RecordIds(rest);
    assert ids[0] == first.playerId;
    assert forall k :: 0 <= k < |rest| ==> RecordIds(rest)[k] == ids[k + 1];
    if Distinct(ids) && first.playerId in RecordIds(rest) {
      assert false;
    }
  }

  lemma {:induction false} FindRecordCons(first: OfficialRecord, rest: seq<OfficialRecord>, playerId: string)
    ensures FindRecord([first] + rest, playerId) == if first.playerId == playerId then Some(first) else FindRecord(rest, playerId)
  {
    assert RecordIds([first] + rest) == [first.playerId] + RecordIds(rest);
    assert ([first.playerId] + RecordIds(rest))[1..] == RecordIds(rest);
  }

  lemma {:induction false} ApplyConcat(env: Environment, d: Document, a: seq<Command>, b: seq<Command>)
    ensures ApplyAll(env, d, a + b) ==
      match ApplyAll(env, d, a) case Err(e) => Err(e) case Ok(next) => ApplyAll(env, next, b)
    decreases |a|
  {
    hide ApplyAtomic;
    if a == [] {
      assert a + b == b;
    } else {
      assert (a + b)[1..] == a[1..] + b;
      if ApplyAtomic(env, d, a[0]).Ok? { ApplyConcat(env, ApplyAtomic(env, d, a[0]).value, a[1..], b); }
    }
  }

  lemma {:induction false} BattersApplied(env: Environment, d: Document, updates: seq<OfficialRecord>)
    ensures ApplyAll(env, d, RecordCommands(updates, [])) == Ok(d.(batters := Upserted(d.batters, updates)))
    decreases |updates|
  {
    var commands := RecordCommands(updates, []);
    if updates != [] {
      assert commands[1..] == RecordCommands(updates[1..], []);
      BattersApplied(env, d.(batters := UpdatedRecords(d.batters, updates[0].playerId, updates[0]).value), updates[1..]);
    }
  }

  lemma {:induction false} PitchersApplied(env: Environment, d: Document, updates: seq<OfficialRecord>)
    ensures ApplyAll(env, d, RecordCommands([], updates)) == Ok(d.(pitchers := Upserted(d.pitchers, updates)))
    decreases |updates|
  {
    var commands := RecordCommands([], updates);
    if updates != [] {
      assert commands[1..] == RecordCommands([], updates[1..]);
      PitchersApplied(env, d.(pitchers := UpdatedRecords(d.pitchers, updates[0].playerId, updates[0]).value), updates[1..]);
    }
  }

  lemma {:induction false} RecordsApplied(
      env: Environment, d: Document, batters: seq<OfficialRecord>, pitchers: seq<OfficialRecord>)
    ensures ApplyAll(env, d, RecordCommands(batters, pitchers))
      == Ok(d.(batters := Upserted(d.batters, batters), pitchers := Upserted(d.pitchers, pitchers)))
  {
    assert RecordCommands(batters, pitchers) == RecordCommands(batters, []) + RecordCommands([], pitchers);
    ApplyConcat(env, d, RecordCommands(batters, []), RecordCommands([], pitchers));
    BattersApplied(env, d, batters);
    PitchersApplied(env, d.(batters := Upserted(d.batters, batters)), pitchers);
  }

  /** The ledger after a correction: the edited rows and records, decoded and compiled. */
  lemma {:induction false} CorrectionResult(env: Environment, d: Document, before: Replay, commands: seq<Command>)
    requires ApplyCorrection(env, d, before, commands).Ok?
    ensures ApplyAll(env, d, commands).Ok?
    ensures var (raw, result) := (ApplyAll(env, d, commands).value, ApplyCorrection(env, d, before, commands).value);
      && result.document == raw.(events := Stamped(raw.events), candidates := result.document.candidates)
      && Decode(env, result.document) == Ok(result.document)
      && env.compile(result.document) == Ok(result.replay)
  {
    hide ApplyAll, Followed;
  }

  lemma {:induction false} ReplacedRow(env: Environment, d: Document, event: RelayEvent, replacement: RelayEvent)
    requires FindEvent(d, event.identity.eventId) == Some(event)
    requires replacement == event.(payload := replacement.payload) && event.payload.Plate?
    requires ApplyAtomic(env, d, ReplaceEvent(event.identity.eventId, replacement)).Ok?
    ensures var after := ApplyAtomic(env, d, ReplaceEvent(event.identity.eventId, replacement)).value;
      && after == d.(events := after.events)
      && FindEvent(after, event.identity.eventId).Some?
      && FindEvent(after, event.identity.eventId).value.payload == replacement.payload
      && (forall id :: id != event.identity.eventId ==> SameRow(FindEvent(d, id), FindEvent(after, id)))
  {
    var i := RequiredIndex(d.events, event.identity.eventId).value;
    var merged := Merged(d.events[i], replacement);
    UpdatedRow(d.events, i, merged);
    StampedFinds(d, d.events[i := merged]);
  }

  /** The same row, up to its place in the ledger. */
  predicate SameRow(a: Option<RelayEvent>, b: Option<RelayEvent>) {
    match (a, b)
    case (None, None) => true
    case (Some(x), Some(y)) => x.(sequence := 0) == y.(sequence := 0)
    case _ => false
  }

  lemma {:induction false} StampedFinds(d: Document, events: seq<RelayEvent>)
    ensures forall id :: SameRow(FindEvent(d.(events := events), id), FindEvent(WithEvents(d, events), id))
  {
    StampedKeepsRows(events);
  }

  lemma {:induction false} UpsertedKeepsPlayers(
      records: seq<OfficialRecord>, updates: seq<OfficialRecord>, playerId: string)
    requires FindRecord(records, playerId).Some?
    ensures FindRecord(Upserted(records, updates), playerId).Some?
    decreases |updates|
  {
    if updates != [] {
      RecordUpdated(records, updates[0].playerId, updates[0]);
      UpsertedKeepsPlayers(UpdatedRecords(records, updates[0].playerId, updates[0]).value, updates[1..], playerId);
    }
  }

  /** At most one replacement of the bound row, which keeps everything but the payload. */
  predicate ReplacesBound(commands: seq<Command>, event: RelayEvent) {
    commands == [] ||
    (|commands| == 1 && commands[0].ReplaceEvent? && commands[0].eventId == event.identity.eventId
     && commands[0].event == event.(payload := commands[0].event.payload))
  }

  function PayloadAfter(commands: seq<Command>, event: RelayEvent): Payload
    requires ReplacesBound(commands, event)
  {
    if commands == [] then event.payload else commands[0].event.payload
  }

  /** The bound row gets the new payload, the records are updated, and nothing else changes. */
  ghost predicate BatchEffects(
      d: Document, after: Document, event: RelayEvent, payload: Payload, batters: seq<OfficialRecord>, pitchers: seq<OfficialRecord>)
  {
    && FindEvent(after, event.identity.eventId).Some?
    && FindEvent(after, event.identity.eventId).value.payload == payload
    && (forall id :: id != event.identity.eventId ==> SameRow(FindEvent(d, id), FindEvent(after, id)))
    && after.batters == Upserted(d.batters, batters) && after.pitchers == Upserted(d.pitchers, pitchers)
    && after.away == d.away && after.home == d.home && after.revisionBase == d.revisionBase && after.header == d.header
  }

  lemma {:induction false} RowPartApplied(env: Environment, d: Document, event: RelayEvent, commands: seq<Command>)
    requires ReplacesBound(commands, event) && FindEvent(d, event.identity.eventId) == Some(event) && event.payload.Plate?
    requires ApplyAll(env, d, commands).Ok?
    ensures BatchEffects(d, ApplyAll(env, d, commands).value, event, PayloadAfter(commands, event), [], [])
  {
    hide ApplyAtomic;
    if commands != [] {
      assert ApplyAll(env, d, commands) == ApplyAtomic(env, d, commands[0]) by {
        var next := ApplyAtomic(env, d, commands[0]);
        assert next.Ok? ==> ApplyAll(env, next.value, commands[1..]) == next;
      }
      ReplacedRow(env, d, event, commands[0].event);
    }
  }

  lemma {:induction false} BatchApplied(
      env: Environment, d: Document, before: Replay, event: RelayEvent, commands: seq<Command>,
      batters: seq<OfficialRecord>, pitchers: seq<OfficialRecord>)
    requires ReplacesBound(commands, event) && FindEvent(d, event.identity.eventId) == Some(event) && event.payload.Plate?
    requires ApplyCorrection(env, d, before, commands + RecordCommands(batters, pitchers)).Ok?
    ensures BatchEffects(d, ApplyCorrection(env, d, before, commands + RecordCommands(batters, pitchers)).value.document,
      event, PayloadAfter(commands, event), batters, pitchers)
  {
    hide ApplyCorrection, ApplyAll, RecordCommands, FindEvent;
    var all := commands + RecordCommands(batters, pitchers);
    CorrectionResult(env, d, before, all);
    ApplyConcat(env, d, commands, RecordCommands(batters, pitchers));
    RowPartApplied(env, d, event, commands);
    var middle := ApplyAll(env, d, commands).value;
    RecordsApplied(env, middle, batters, pitchers);
    var raw := ApplyAll(env, d, all).value;
    var after := ApplyCorrection(env, d, before, all).value.document;
    FindEventOnlyReadsRows(raw, middle);
    FindEventOnlyReadsRows(after, WithEvents(raw, raw.events));
    StampedFinds(raw, raw.events);
  }

  lemma {:induction false} FindEventOnlyReadsRows(a: Document, b: Document)
    requires a.events == b.events
    ensures forall id :: FindEvent(a, id) == FindEvent(b, id)
  {
  }

  // ---- Convergence ------------------------------------------------------------------------------

  lemma {:induction false} EventPartReplaces(notice: Notice, binding: Binding, event: RelayEvent)
    requires event.payload.Plate? && event.identity.eventId == binding.eventId
    requires EventPart(notice, binding, event).0.reasons == []
    ensures ReplacesBound(EventPart(notice, binding, event).1, event)
    ensures EventPart(notice, binding, event).0.batters == [] && EventPart(notice, binding, event).0.pitchers == []
    ensures TargetResult(notice, binding, event.payload.plate.result).Ok?
    ensures var payload := PayloadAfter(EventPart(notice, binding, event).1, event);
      && payload.Plate?
      && payload.plate.result == TargetResult(notice, binding, event.payload.plate.result).value.0
      && payload.plate.batterId == event.payload.plate.batterId
      && payload.plate.pitcherId == event.payload.plate.pitcherId
  {
  }

  lemma {:induction false} SettledProposal(
      env: Environment, d: Document, replay: Replay, notice: Notice, binding: Binding)
    requires Bound(FindEvent(d, binding.eventId), binding)
    requires var current := FindEvent(d, binding.eventId).value.payload.plate.result;
      TargetResult(notice, binding, current).Ok? && TargetResult(notice, binding, current).value.0 == current
    requires VerifyReasons(d, replay, notice, binding) == []
    requires forall k :: 0 <= k < |notice.statChanges| ==> Located(d, binding, notice.statChanges[k])
    ensures var again := Proposal(env, d, replay, notice, binding);
      again.batch.None? && again.reasons == [] && Quiet(again.changes)
  {
    hide TargetResult, EventPart, Scan, AllStatReasons, Located, FindEvent, StatReasons;
    var event := FindEvent(d, binding.eventId).value;
    EventPartSettled(notice, binding, event);
    NoStatReasons(d, replay, binding, notice.statChanges);
    QuietScan(d, replay, binding, EventPart(notice, binding, event).0, notice.statChanges);
  }

  /** What an eligible proposal is made of. */
  lemma {:induction false} EligibleParts(env: Environment, d: Document, replay: Replay, notice: Notice, binding: Binding)
    requires Proposal(env, d, replay, notice, binding).eligible
    ensures Bound(FindEvent(d, binding.eventId), binding)
    ensures var p := Proposal(env, d, replay, notice, binding);
      var (start, commands) := EventPart(notice, binding, FindEvent(d, binding.eventId).value);
      var work := Scan(d, replay, binding, start, notice.statChanges);
      && p.reasons == [] && work.reasons == []
      && p.batch == Some(commands + RecordCommands(work.batters, work.pitchers))
      && p.result.Some? && ApplyCorrection(env, d, replay, p.batch.value) == Ok(p.result.value)
      && VerifyReasons(p.result.value.document, p.result.value.replay, notice, binding) == []
      && NewBlockingCount(replay, p.result.value.replay.findings) == 0
  {
    hide EventPart, Scan, ApplyCorrection, VerifyReasons, FindEvent, NewBlockingCount;
  }

  /** Proposing again on the ledger an eligible proposal produces finds nothing left to do. */
  lemma {:induction false} EligibleSettles(
      env: Environment, d: Document, replay: Replay, notice: Notice, binding: Binding)
    requires Proposal(env, d, replay, notice, binding).eligible
    ensures Proposal(env, d, replay, notice, binding).result.Some?
    ensures var result := Proposal(env, d, replay, notice, binding).result.value;
      var again := Proposal(env, result.document, result.replay, notice, binding);
      again.batch.None? && again.reasons == [] && Quiet(again.changes)
  {
    hide EventPart, Scan, ApplyCorrection, VerifyReasons, FindEvent, FindRecord, Proposal, TargetResult, RecordCommands, Upserted;
    EligibleParts(env, d, replay, notice, binding);
    var p := Proposal(env, d, replay, notice, binding);
    var event := FindEvent(d, binding.eventId).value;
    var (start, commands) := EventPart(notice, binding, event);
    var work := Scan(d, replay, binding, start, notice.statChanges);
    var after := p.result.value.document;
    ScanWithoutReasons(d, replay, binding, start, notice.statChanges);
    EventPartReplaces(notice, binding, event);
    BatchApplied(env, d, replay, event, commands, work.batters, work.pitchers);
    TargetIsStable(notice, binding, event.payload.plate.result);
    forall k | 0 <= k < |notice.statChanges| ensures Located(after, binding, notice.statChanges[k]) {
      LocatedAfter(d, after, binding, notice.statChanges[k], work.batters, work.pitchers);
    }
    SettledProposal(env, after, p.result.value.replay, notice, binding);
  }

  lemma {:induction false} LocatedAfter(
      d: Document, after: Document, binding: Binding, stat: StatChange, batters: seq<OfficialRecord>, pitchers: seq<OfficialRecord>)
    requires Located(d, binding, stat)
    requires after.batters == Upserted(d.batters, batters) && after.pitchers == Upserted(d.pitchers, pitchers)
    ensures Located(after, binding, stat)
  {
    hide FindRecord, Upserted;
    if EffectiveSupport(stat) == Direct {
      var player := Participant(binding, stat.participantIndex).value;
      if stat.scope == BatterScope { UpsertedKeepsPlayers(d.batters, batters, player); }
      else { UpsertedKeepsPlayers(d.pitchers, pitchers, player); }
    }
  }

  /** The same through the public entry points, which decode and compile the ledger they are given. */
  lemma {:induction false} RebuildProposesNothing(env: Environment, input: Document, notice: Notice, binding: Binding)
    requires Build(env, input, notice, binding).Ok? && Build(env, input, notice, binding).value.eligible
    ensures Build(env, input, notice, binding).value.result.Some?
    ensures var corrected := Build(env, input, notice, binding).value.result.value.document;
      var again := Build(env, corrected, notice, binding);
      again.Ok? && again.value.batch.None? && again.value.reasons == [] && Quiet(again.value.changes)
  {
    hide Proposal, ApplyCorrection;
    var replay := env.compile(input).value;
    EligibleParts(env, input, replay, notice, binding);
    EligibleSettles(env, input, replay, notice, binding);
    CorrectionResult(env, input, replay, Proposal(env, input, replay, notice, binding).batch.value);
  }

  // ---- What an eligible batch achieves ----------------------------------------------------------

  /** The statistic has its corrected value, in the official line and in the compiled one. */
  predicate Reached(d: Document, replay: Replay, binding: Binding, stat: StatChange) {
    var player := Participant(binding, stat.participantIndex);
    match EffectiveSupport(stat)
    case Direct =>
      && player.Some? && FieldOf(stat.scope, stat.statCode).Some?
      && (if stat.scope == BatterScope then InLine(d.batters, replay.batterLines, player.value, stat, true)
          else InLine(d.pitchers, replay.pitcherLines, player.value, stat, stat.statCode != EarnedRuns))
    case Derived =>
      TotalBasesOf(replay, if player.Some? then player.value else binding.batterPlayerId) == Some(stat.afterValue)
    case _ => true
  }

  predicate InLine(records: seq<OfficialRecord>, lines: seq<StatLine>, playerId: string, stat: StatChange, compiled: bool)
    requires FieldOf(stat.scope, stat.statCode).Some?
  {
    var descriptor := FieldOf(stat.scope, stat.statCode).value;
    var record, line := FindRecord(records, playerId), FindLine(lines, playerId);
    && record.Some? && NumericField(record.value.fields, descriptor) == Some(stat.afterValue)
    && (compiled ==> line.Some? && descriptor.field in line.value.fields
                     && line.value.fields[descriptor.field] == stat.afterValue)
  }

  /** The check finds no reason exactly when a located statistic has been reached. */
  lemma {:induction false} NoReasonMeansReached(d: Document, replay: Replay, binding: Binding, stat: StatChange)
    requires Located(d, binding, stat)
    ensures StatReasons(d, replay, binding, stat) == [] <==> Reached(d, replay, binding, stat)
  {
    hide SupportOf, FindRecord, FindLine, TotalBasesOf, BatterField, PitcherField;
    DirectMeansField(stat.scope, stat.statCode);
  }

  /** Every statistic of the notice is reached, and the play is the one the notice decides. */
  lemma {:induction false} EligibleReaches(
      env: Environment, d: Document, replay: Replay, notice: Notice, binding: Binding)
    requires Proposal(env, d, replay, notice, binding).eligible
    ensures Proposal(env, d, replay, notice, binding).result.Some?
    ensures var result := Proposal(env, d, replay, notice, binding).result.value;
      && DecisionReached(result.document, notice, binding)
      && (forall k :: 0 <= k < |notice.statChanges| ==> Reached(result.document, result.replay, binding, notice.statChanges[k]))
      && PlayChanges(FindEvent(d, binding.eventId), FindEvent(result.document, binding.eventId), notice, binding)
  {
    hide EventPart, Scan, ApplyCorrection, AllStatReasons, FindEvent, FindRecord, Proposal, TargetResult, RecordCommands, Upserted,
      Reached, StatReasons, BatterChange, PlayDecided;
    EligibleParts(env, d, replay, notice, binding);
    var result := Proposal(env, d, replay, notice, binding).result.value;
    var event := FindEvent(d, binding.eventId).value;
    var (start, commands) := EventPart(notice, binding, event);
    var work := Scan(d, replay, binding, start, notice.statChanges);
    ScanWithoutReasons(d, replay, binding, start, notice.statChanges);
    EventPartReplaces(notice, binding, event);
    EventPartDecides(notice, binding, event);
    BatchApplied(env, d, replay, event, commands, work.batters, work.pitchers);
    NoStatReasons(result.document, result.replay, binding, notice.statChanges);
    forall k | 0 <= k < |notice.statChanges|
      ensures Reached(result.document, result.replay, binding, notice.statChanges[k])
    {
      LocatedAfter(d, result.document, binding, notice.statChanges[k], work.batters, work.pitchers);
      NoReasonMeansReached(result.document, result.replay, binding, notice.statChanges[k]);
    }
  }

  /** The change gives this statistic to the bound batter. */
  predicate ConcernsBatter(stat: StatChange, binding: Binding, code: StatCode) {
    && stat.statCode == code && stat.participantIndex.Some? && stat.participantIndex.value in binding.participants
    && binding.participants[stat.participantIndex.value] == binding.batterPlayerId
  }

  predicate FirstFor(stats: seq<StatChange>, binding: Binding, code: StatCode, k: nat) {
    k < |stats| && ConcernsBatter(stats[k], binding, code) && forall j :: 0 <= j < k ==> !ConcernsBatter(stats[j], binding, code)
  }

  /** With a new result the event RBI changes by what the notice says, and stays between 0 and 4 if it changes. */
  ghost predicate RbiMoves(before: PlatePayload, after: PlatePayload, notice: Notice, binding: Binding) {
    if before.result == after.result || forall k: nat :: !FirstFor(notice.statChanges, binding, RunsBattedIn, k)
    then after.creditedRbi == before.creditedRbi
    else forall k: nat :: FirstFor(notice.statChanges, binding, RunsBattedIn, k) ==>
      RbiAdds(before.creditedRbi, after.creditedRbi, notice.statChanges[k].afterValue - notice.statChanges[k].beforeValue)
  }

  predicate RbiAdds(before: Option<int>, after: Option<int>, delta: int) {
    if delta == 0 then after == before
    else after.Some? && 0 <= after.value <= 4 && after.value == delta + if before.Some? then before.value else 0
  }

  lemma {:induction false} ChangeFound(stats: seq<StatChange>, binding: Binding, code: StatCode)
    ensures var found := BatterChange(stats, binding, code, false);
      && (found.None? <==> forall k :: 0 <= k < |stats| ==> !ConcernsBatter(stats[k], binding, code))
      && (found.Some? ==> exists k: nat :: FirstFor(stats, binding, code, k) && stats[k] == found.value)
  {
    hide BatterChange, ConcernsBatter;
    ChangeStep(stats, binding, code);
    if stats != [] && !ConcernsBatter(stats[0], binding, code) {
      ChangeFound(stats[1..], binding, code);
      var found := BatterChange(stats[1..], binding, code, false);
      if found.Some? {
        var k: nat :| FirstFor(stats[1..], binding, code, k) && stats[1..][k] == found.value;
        FirstLater(stats, binding, code, k);
      } else {
        assert forall k :: 1 <= k < |stats| ==> stats[k] == stats[1..][k - 1];
      }
    }
  }

  lemma {:induction false} ChangeStep(stats: seq<StatChange>, binding: Binding, code: StatCode)
    ensures stats == [] ==> BatterChange(stats, binding, code, false).None?
    ensures stats != [] && ConcernsBatter(stats[0], binding, code) ==>
      BatterChange(stats, binding, code, false) == Some(stats[0]) && FirstFor(stats, binding, code, 0)
    ensures stats != [] && !ConcernsBatter(stats[0], binding, code) ==>
      BatterChange(stats, binding, code, false) == BatterChange(stats[1..], binding, code, false)
  {
  }

  lemma {:induction false} FirstLater(stats: seq<StatChange>, binding: Binding, code: StatCode, k: nat)
    requires stats != [] && !ConcernsBatter(stats[0], binding, code) && FirstFor(stats[1..], binding, code, k)
    ensures k + 1 < |stats| && stats[k + 1] == stats[1..][k] && FirstFor(stats, binding, code, k + 1)
  {
    hide ConcernsBatter;
    forall j | 0 < j < k + 1 ensures !ConcernsBatter(stats[j], binding, code) { assert stats[j] == stats[1..][j - 1]; }
  }

  lemma {:induction false} RisingFound(stats: seq<StatChange>, binding: Binding, code: StatCode)
    ensures BatterChange(stats, binding, code, true).Some?
      <==> exists k :: 0 <= k < |stats| && ConcernsBatter(stats[k], binding, code) && stats[k].afterValue > stats[k].beforeValue
  {
    if stats != [] {
      RisingFound(stats[1..], binding, code);
      assert forall k :: 1 <= k < |stats| ==> stats[k] == stats[1..][k - 1];
      assert forall k :: 0 <= k < |stats| - 1 ==> stats[1..][k] == stats[k + 1];
    }
  }

  /** The number of bases a hit is worth. */
  ghost predicate IsHitWorth(result: PlateResult, bases: int) {
    match result
    case Single => bases == 1
    case Double => bases == 2
    case Triple => bases == 3
    case HomeRun => bases == 4
    case _ => false
  }

  /** The plate result as the notice alone decides it. */
  ghost predicate ResultDecided(notice: Notice, binding: Binding, before: PlateResult, after: PlateResult) {
    var stats := notice.statChanges;
    match notice.decisionAfter
    case FielderChoiceDecision => after == FielderChoice
    case ErrorDecision =>
      if exists k :: 0 <= k < |stats| && ConcernsBatter(stats[k], binding, SacrificeBunts) && stats[k].afterValue > stats[k].beforeValue
      then after == SacrificeBunt else after == ReachedOnError
    case HitDecision =>
      if before == Single || before == Double || before == Triple || before == HomeRun then after == before
      else HitByBases(stats, binding, after)
    case UnknownDecision => false
  }

  /** The first change of the batter's total bases is by as many bases as the hit is worth. */
  ghost predicate HitByBases(stats: seq<StatChange>, binding: Binding, hit: PlateResult) {
    exists k: nat :: FirstFor(stats, binding, TotalBases, k) && IsHitWorth(hit, stats[k].afterValue - stats[k].beforeValue)
  }

  lemma {:induction false} HitByBasesFound(stats: seq<StatChange>, binding: Binding, hit: PlateResult)
    ensures var found := BatterChange(stats, binding, TotalBases, false);
      HitByBases(stats, binding, hit) <==> found.Some? && IsHitWorth(hit, found.value.afterValue - found.value.beforeValue)
  {
    hide BatterChange, ConcernsBatter, IsHitWorth;
    ChangeFound(stats, binding, TotalBases);
    var found := BatterChange(stats, binding, TotalBases, false);
    if k: nat :| FirstFor(stats, binding, TotalBases, k) && IsHitWorth(hit, stats[k].afterValue - stats[k].beforeValue) {
      var j: nat :| FirstFor(stats, binding, TotalBases, j) && stats[j] == found.value;
      assert j == k;
    }
  }

  lemma {:induction false} HitDecided(notice: Notice, binding: Binding, current: PlateResult, target: PlateResult)
    requires notice.decisionAfter == HitDecision
    ensures ResultDecided(notice, binding, current, target) <==>
      TargetResult(notice, binding, current).Ok? && TargetResult(notice, binding, current).value.0 == target
  {
    hide BatterChange, ConcernsBatter, HitByBases;
    HitByBasesFound(notice.statChanges, binding, target);
  }

  lemma {:induction false} TargetDecided(notice: Notice, binding: Binding, current: PlateResult, target: PlateResult)
    ensures ResultDecided(notice, binding, current, target) <==>
      TargetResult(notice, binding, current).Ok? && TargetResult(notice, binding, current).value.0 == target
  {
    hide BatterChange, ConcernsBatter, HitByBases;
    match notice.decisionAfter
    case ErrorDecision => RisingFound(notice.statChanges, binding, SacrificeBunts);
    case HitDecision => HitDecided(notice, binding, current, target);
    case _ =>
  }

  ghost predicate InDecision(result: PlateResult, decision: Decision) {
    match decision
    case HitDecision => result == Single || result == Double || result == Triple || result == HomeRun
    case ErrorDecision => result == ReachedOnError || result == SacrificeBunt
    case FielderChoiceDecision => result == FielderChoice
    case UnknownDecision =>
      result in {Walk, IntentionalWalk, HitByPitch, Strikeout, FieldOut, SacrificeFly, Interference, DoublePlay, TriplePlay, OtherResult}
  }

  /** The base the batter reached: as recorded, or else by the kind of result. */
  ghost predicate ArrivesAt(recorded: Option<int>, result: PlateResult, base: int) {
    if recorded.Some? then base == recorded.value
    else if IsHitWorth(result, base) then true else base == 1 && !exists bases :: IsHitWorth(result, bases)
  }

  /** The corrected play: decided by the notice, with the batter on the same base. */
  ghost predicate PlayDecided(before: PlatePayload, after: PlatePayload, notice: Notice, binding: Binding) {
    && ResultDecided(notice, binding, before.result, after.result)
    && (InDecision(before.result, notice.decisionBefore) || InDecision(before.result, notice.decisionAfter))
    && (after.result != before.result ==>
          exists base :: ArrivesAt(before.batterDestination, before.result, base) && ArrivesAt(None, after.result, base))
    && RbiMoves(before, after, notice, binding)
    && after == before.(
         result := after.result, creditedRbi := after.creditedRbi,
         isBunt := if after.result == SacrificeBunt && before.result != SacrificeBunt then Some(true) else before.isBunt)
  }

  ghost predicate PlayChanges(before: Option<RelayEvent>, after: Option<RelayEvent>, notice: Notice, binding: Binding) {
    && before.Some? && before.value.payload.Plate? && after.Some? && after.value.payload.Plate?
    && PlayDecided(before.value.payload.plate, after.value.payload.plate, notice, binding)
  }

  lemma {:induction false} DestinationIsArrival(result: PlateResult, recorded: Option<int>, base: int)
    ensures Destination(result, recorded) == base <==> ArrivesAt(recorded, result, base)
  {
    assert result == Single ==> IsHitWorth(result, 1);
    assert result == Double ==> IsHitWorth(result, 2);
    assert result == Triple ==> IsHitWorth(result, 3);
    assert result == HomeRun ==> IsHitWorth(result, 4);
  }

  lemma {:induction false} DecisionIsClass(result: PlateResult, decision: Decision)
    ensures DecisionFor(result) == decision <==> InDecision(result, decision)
  {
  }

  lemma {:induction false} TargetDestination(notice: Notice, binding: Binding, current: PlateResult)
    requires TargetResult(notice, binding, current).Ok?
    ensures var (target, base) := TargetResult(notice, binding, current).value; base == Destination(target, None)
  {
    hide BatterChange;
  }

  lemma {:induction false} CreditedMoves(notice: Notice, binding: Binding, before: PlatePayload, after: PlatePayload)
    requires before.result != after.result
    ensures RbiMoves(before, after, notice, binding) <==> CreditedRbi(notice, binding, before.creditedRbi) == Ok(after.creditedRbi)
  {
    hide BatterChange, ConcernsBatter;
    var stats := notice.statChanges;
    ChangeFound(stats, binding, RunsBattedIn);
    forall j: nat, k: nat | FirstFor(stats, binding, RunsBattedIn, j) && FirstFor(stats, binding, RunsBattedIn, k) ensures j == k {}
  }

  /** The play can be edited exactly when some play is the one the notice decides, and then it becomes that play. */
  lemma {:induction false} EventPartDecides(notice: Notice, binding: Binding, event: RelayEvent)
    requires event.payload.Plate? && event.identity.eventId == binding.eventId
    ensures EventPart(notice, binding, event).0.reasons == []
      <==> exists after :: PlayDecided(event.payload.plate, after, notice, binding)
    ensures EventPart(notice, binding, event).0.reasons == [] ==>
      && ReplacesBound(EventPart(notice, binding, event).1, event)
      && PayloadAfter(EventPart(notice, binding, event).1, event).Plate?
      && PlayDecided(event.payload.plate, PayloadAfter(EventPart(notice, binding, event).1, event).plate, notice, binding)
  {
    hide BatterChange, TargetResult, CreditedRbi, ResultDecided, RbiMoves, ArrivesAt, InDecision, Destination, DecisionFor;
    var before := event.payload.plate;
    DecisionIsClass(before.result, notice.decisionBefore);
    DecisionIsClass(before.result, notice.decisionAfter);
    if EventPart(notice, binding, event).0.reasons == [] {
      EventPartReplaces(notice, binding, event);
      var after := PayloadAfter(EventPart(notice, binding, event).1, event).plate;
      DecidedPlay(notice, binding, event, before, after);
    }
    if after :| PlayDecided(before, after, notice, binding) {
      AcceptedPlay(notice, binding, event, before, after);
    }
  }

  lemma {:induction false} DecidedPlay(
      notice: Notice, binding: Binding, event: RelayEvent, before: PlatePayload, after: PlatePayload)
    requires event.payload == Plate(before) && event.identity.eventId == binding.eventId
    requires EventPart(notice, binding, event).0.reasons == [] && ReplacesBound(EventPart(notice, binding, event).1, event)
    requires PayloadAfter(EventPart(notice, binding, event).1, event) == Plate(after)
    requires InDecision(before.result, notice.decisionBefore) <==> DecisionFor(before.result) == notice.decisionBefore
    requires InDecision(before.result, notice.decisionAfter) <==> DecisionFor(before.result) == notice.decisionAfter
    ensures PlayDecided(before, after, notice, binding)
  {
    hide BatterChange, TargetResult, CreditedRbi, ResultDecided, ArrivesAt, InDecision, Destination, DecisionFor, FirstFor;
    TargetDecided(notice, binding, before.result, after.result);
    if after.result != before.result {
      var base := Destination(before.result, before.batterDestination);
      TargetDestination(notice, binding, before.result);
      DestinationIsArrival(before.result, before.batterDestination, base);
      DestinationIsArrival(after.result, None, base);
      CreditedMoves(notice, binding, before, after);
    }
  }

  lemma {:induction false} AcceptedPlay(
      notice: Notice, binding: Binding, event: RelayEvent, before: PlatePayload, after: PlatePayload)
    requires event.payload == Plate(before) && PlayDecided(before, after, notice, binding)
    requires InDecision(before.result, notice.decisionBefore) <==> DecisionFor(before.result) == notice.decisionBefore
    requires InDecision(before.result, notice.decisionAfter) <==> DecisionFor(before.result) == notice.decisionAfter
    ensures EventPart(notice, binding, event).0.reasons == []
  {
    hide BatterChange, TargetResult, CreditedRbi, ResultDecided, RbiMoves, ArrivesAt, InDecision, Destination, DecisionFor;
    TargetDecided(notice, binding, before.result, after.result);
    if after.result != before.result {
      var base :| ArrivesAt(before.batterDestination, before.result, base) && ArrivesAt(None, after.result, base);
      TargetDestination(notice, binding, before.result);
      DestinationIsArrival(before.result, before.batterDestination, base);
      DestinationIsArrival(after.result, None, base);
      CreditedMoves(notice, binding, before, after);
    }
  }

  /** Total bases weigh each kind of hit by the bases it is worth. */
  lemma {:induction false} TotalBasesWeighHits(replay: Replay, playerId: string, line: StatLine, singles: int)
    requires FindLine(replay.batterLines, playerId) == Some(line)
    requires Field(line, "hits") == singles + Field(line, "doubles") + Field(line, "triples") + Field(line, "homeRuns")
    ensures TotalBasesOf(replay, playerId)
      == Some(singles + 2 * Field(line, "doubles") + 3 * Field(line, "triples") + 4 * Field(line, "homeRuns"))
  {
  }

  // ---- An eligible batch touches only what the notice names -------------------------------------

  /** The notice changes this field of this player's official line. */
  predicate Names(binding: Binding, stats: seq<StatChange>, scope: Scope, playerId: string, field: string) {
    exists k :: 0 <= k < |stats| && NamesOne(binding, stats[k], scope, playerId, field)
  }

  predicate NamesOne(binding: Binding, stat: StatChange, scope: Scope, playerId: string, field: string) {
    && EffectiveSupport(stat) == Direct && stat.scope == scope
    && Participant(binding, stat.participantIndex) == Some(playerId)
    && FieldOf(scope, stat.statCode).Some? && FieldOf(scope, stat.statCode).value.field == field
  }

  predicate SameField(a: OfficialRecord, b: OfficialRecord, field: string) {
    (field in a.fields <==> field in b.fields) && (field in a.fields ==> a.fields[field] == b.fields[field])
  }

  ghost predicate ChangesOnlyNamed(
      before: OfficialRecord, after: OfficialRecord, binding: Binding, stats: seq<StatChange>, scope: Scope) {
    forall field :: !Names(binding, stats, scope, before.playerId, field) ==> SameField(before, after, field)
  }

  /** Every pending line continues an existing one. */
  ghost predicate PendingFits(
      records: seq<OfficialRecord>, pending: seq<OfficialRecord>, binding: Binding, stats: seq<StatChange>, scope: Scope)
  {
    && Distinct(RecordIds(pending))
    && forall id :: FindRecord(pending, id).Some? ==>
         FindRecord(records, id).Some?
         && ChangesOnlyNamed(FindRecord(records, id).value, FindRecord(pending, id).value, binding, stats, scope)
  }

  lemma {:induction false} NamesMore(
      binding: Binding, stats: seq<StatChange>, stat: StatChange, scope: Scope, playerId: string, field: string)
    ensures Names(binding, stats + [stat], scope, playerId, field) <==>
      Names(binding, stats, scope, playerId, field) || NamesOne(binding, stat, scope, playerId, field)
  {
    assert (stats + [stat])[|stats|] == stat;
    if Names(binding, stats, scope, playerId, field) {
      var k :| 0 <= k < |stats| && NamesOne(binding, stats[k], scope, playerId, field);
      assert (stats + [stat])[k] == stats[k];
    }
  }

  lemma {:induction false} PendingWeaker(
      records: seq<OfficialRecord>, pending: seq<OfficialRecord>, binding: Binding, stats: seq<StatChange>, stat: StatChange, scope: Scope)
    requires PendingFits(records, pending, binding, stats, scope)
    ensures PendingFits(records, pending, binding, stats + [stat], scope)
  {
    hide Names, NamesOne, FindRecord;
    forall id, field | FindRecord(pending, id).Some? && !Names(binding, stats + [stat], scope, id, field)
      ensures FindRecord(records, id).Some? && SameField(FindRecord(records, id).value, FindRecord(pending, id).value, field)
    {
      NamesMore(binding, stats, stat, scope, id, field);
    }
  }

  lemma {:induction false} PendingUpdated(
      records: seq<OfficialRecord>, pending: seq<OfficialRecord>, binding: Binding, stats: seq<StatChange>,
      stat: StatChange, kind: ChangeKind, playerId: string)
    requires PendingFits(records, pending, binding, stats, stat.scope)
    requires EffectiveSupport(stat) == Direct && Participant(binding, stat.participantIndex) == Some(playerId)
    requires OfficialVerdict(kind, records, pending, playerId, FieldOf(stat.scope, stat.statCode), stat).Updated?
    ensures var record := OfficialVerdict(kind, records, pending, playerId, FieldOf(stat.scope, stat.statCode), stat).record;
      PendingFits(records, UpdatedRecords(pending, playerId, record).value, binding, stats + [stat], stat.scope)
  {
    hide Names, FindRecord, EffectiveSupport, BatterField, PitcherField;
    PendingWeaker(records, pending, binding, stats, stat, stat.scope);
    var verdict := OfficialVerdict(kind, records, pending, playerId, FieldOf(stat.scope, stat.statCode), stat);
    RecordUpdated(pending, playerId, verdict.record);
    var original := FindRecord(records, playerId).value;
    forall field | !Names(binding, stats + [stat], stat.scope, playerId, field)
      ensures SameField(original, verdict.record, field)
    {
      NamesMore(binding, stats, stat, stat.scope, playerId, field);
    }
  }

  lemma {:induction false} ScanFits(d: Document, replay: Replay, binding: Binding, start: Work, stats: seq<StatChange>)
    requires start.batters == [] && start.pitchers == []
    ensures PendingFits(d.batters, Scan(d, replay, binding, start, stats).batters, binding, stats, BatterScope)
    ensures PendingFits(d.pitchers, Scan(d, replay, binding, start, stats).pitchers, binding, stats, PitcherScope)
  {
    hide PendingFits, OfficialVerdict, EffectiveSupport, Participant, BatterField, PitcherField, UpdatedRecords;
    if stats == [] {
      NothingPendingFits(d.batters, binding, BatterScope);
      NothingPendingFits(d.pitchers, binding, PitcherScope);
    } else {
      var n := |stats| - 1;
      var stat := stats[n];
      var work := Scan(d, replay, binding, start, stats[..n]);
      ScanFits(d, replay, binding, start, stats[..n]);
      assert stats == stats[..n] + [stat];
      PendingWeaker(d.batters, work.batters, binding, stats[..n], stat, BatterScope);
      PendingWeaker(d.pitchers, work.pitchers, binding, stats[..n], stat, PitcherScope);
      var player := Participant(binding, stat.participantIndex);
      if EffectiveSupport(stat) == Direct && player.Some? {
        if stat.scope == BatterScope
           && OfficialVerdict(OfficialBatter, d.batters, work.batters, player.value, BatterField(stat.statCode), stat).Updated? {
          PendingUpdated(d.batters, work.batters, binding, stats[..n], stat, OfficialBatter, player.value);
        } else if stat.scope == PitcherScope
           && OfficialVerdict(OfficialPitcher, d.pitchers, work.pitchers, player.value, PitcherField(stat.statCode), stat).Updated? {
          PendingUpdated(d.pitchers, work.pitchers, binding, stats[..n], stat, OfficialPitcher, player.value);
        }
      }
    }
  }

  lemma {:induction false} NothingPendingFits(records: seq<OfficialRecord>, binding: Binding, scope: Scope)
    ensures PendingFits(records, [], binding, [], scope)
  {
  }

  /** Rows other than the bound one, rosters, players and fields that the notice does not name stay as they were. */
  ghost predicate TouchesOnlyNamed(d: Document, after: Document, notice: Notice, binding: Binding) {
    && (forall id :: id != binding.eventId ==> SameRow(FindEvent(d, id), FindEvent(after, id)))
    && after.away == d.away && after.home == d.home && after.revisionBase == d.revisionBase && after.header == d.header
    && RecordsTouched(d.batters, after.batters, notice, binding, BatterScope)
    && RecordsTouched(d.pitchers, after.pitchers, notice, binding, PitcherScope)
  }

  ghost predicate RecordsTouched(
      before: seq<OfficialRecord>, after: seq<OfficialRecord>, notice: Notice, binding: Binding, scope: Scope)
  {
    forall id :: (FindRecord(before, id).Some? <==> FindRecord(after, id).Some?)
      && (FindRecord(before, id).Some? ==>
            ChangesOnlyNamed(FindRecord(before, id).value, FindRecord(after, id).value, binding, notice.statChanges, scope))
  }

  lemma {:induction false} UpsertTouches(
      records: seq<OfficialRecord>, pending: seq<OfficialRecord>, notice: Notice, binding: Binding, scope: Scope)
    requires PendingFits(records, pending, binding, notice.statChanges, scope)
    ensures RecordsTouched(records, Upserted(records, pending), notice, binding, scope)
  {
    hide Upserted, Names;
    forall id ensures FindRecord(Upserted(records, pending), id) ==
      if FindRecord(pending, id).Some? then FindRecord(pending, id) else FindRecord(records, id)
    {
      UpsertedFinds(records, pending, id);
    }
  }

  /** Every blocking finding has a blocking one with its key before. */
  predicate NothingNewBlocks(before: seq<Finding>, after: seq<Finding>) {
    forall i :: 0 <= i < |after| && after[i].blocking ==>
      exists j :: 0 <= j < |before| && before[j].blocking && FindingKey(before[j]) == FindingKey(after[i])
  }

  lemma {:induction false} NothingNewCounted(replay: Replay, after: seq<Finding>)
    ensures NewBlockingCount(replay, after) == 0 <==> NothingNewBlocks(replay.findings, after)
  {
    hide NewBlockingCount, FindingKey;
    assert NothingNewBlocks(replay.findings, after) <==>
      forall i :: 0 <= i < |after| && after[i].blocking ==> BlockedBefore(replay, after[i]);
  }

  /** No other row, player or field changes, and no blocking finding appears. */
  lemma {:induction false} EligibleIsLocal(
      env: Environment, d: Document, replay: Replay, notice: Notice, binding: Binding)
    requires Proposal(env, d, replay, notice, binding).eligible
    ensures Proposal(env, d, replay, notice, binding).result.Some?
    ensures var result := Proposal(env, d, replay, notice, binding).result.value;
      && TouchesOnlyNamed(d, result.document, notice, binding)
      && NothingNewBlocks(replay.findings, result.replay.findings)
  {
    hide EventPart, Scan, ApplyCorrection, VerifyReasons, FindEvent, FindRecord, Proposal, TargetResult, RecordCommands,
      Upserted, PendingFits, RecordsTouched, NothingNewBlocks;
    EligibleParts(env, d, replay, notice, binding);
    NothingNewCounted(replay, Proposal(env, d, replay, notice, binding).result.value.replay.findings);
    var event := FindEvent(d, binding.eventId).value;
    var (start, commands) := EventPart(notice, binding, event);
    var work := Scan(d, replay, binding, start, notice.statChanges);
    ScanWithoutReasons(d, replay, binding, start, notice.statChanges);
    EventPartReplaces(notice, binding, event);
    BatchApplied(env, d, replay, event, commands, work.batters, work.pitchers);
    ScanFits(d, replay, binding, start, notice.statChanges);
    UpsertTouches(d.batters, work.batters, notice, binding, BatterScope);
    UpsertTouches(d.pitchers, work.pitchers, notice, binding, PitcherScope);
  }

  // ---- Exactly when a proposal is eligible ------------------------------------------------------

  /** The bound row is a plate result of the bound batter and pitcher. */
  predicate PlayOfBinding(event: Option<RelayEvent>, binding: Binding) {
    && event.Some? && event.value.payload.Plate?
    && event.value.payload.plate.batterId == binding.batterPlayerId
    && event.value.payload.plate.pitcherId == binding.pitcherPlayerId
  }

  /** The play and every statistic of the notice fit the ledger as it is. */
  ghost predicate NoticeFits(d: Document, replay: Replay, notice: Notice, binding: Binding) {
    && PlayOfBinding(FindEvent(d, binding.eventId), binding)
    && (exists after :: PlayDecided(FindEvent(d, binding.eventId).value.payload.plate, after, notice, binding))
    && forall k :: 0 <= k < |notice.statChanges| ==>
      Acceptable(d, replay, binding, notice.statChanges[..k], notice.statChanges[k])
  }

  lemma {:induction false} FitsMeansNoReasons(d: Document, replay: Replay, notice: Notice, binding: Binding)
    requires PlayOfBinding(FindEvent(d, binding.eventId), binding)
    ensures NoticeFits(d, replay, notice, binding) <==>
      var (start, _) := EventPart(notice, binding, FindEvent(d, binding.eventId).value);
      Scan(d, replay, binding, start, notice.statChanges).reasons == []
  {
    hide Scan, EventPart, FindEvent, Acceptable, PlayDecided;
    var event := FindEvent(d, binding.eventId).value;
    EventPartNamesNobody(notice, binding, event);
    EventIsNamed(d, binding.eventId);
    EventPartDecides(notice, binding, event);
    ScanAccepts(d, replay, binding, EventPart(notice, binding, event).0, notice.statChanges);
  }

  lemma {:induction false} EventIsNamed(d: Document, id: string)
    requires FindEvent(d, id).Some?
    ensures FindEvent(d, id).value.identity.eventId == id
  {
  }

  lemma {:induction false} EventPartNamesNobody(notice: Notice, binding: Binding, event: RelayEvent)
    requires event.payload.Plate?
    ensures EventPart(notice, binding, event).0.batters == [] && EventPart(notice, binding, event).0.pitchers == []
  {
  }

  /**
   * A proposal is eligible exactly when the notice fits the ledger, its batch is accepted, and the corrected ledger
   * has the new decision, every statistic and no new blocking finding.
   */
  lemma {:induction false} EligibleExactly(env: Environment, d: Document, replay: Replay, notice: Notice, binding: Binding)
    ensures var p := Proposal(env, d, replay, notice, binding);
      p.eligible <==>
        && NoticeFits(d, replay, notice, binding) && p.result.Some?
        && DecisionReached(p.result.value.document, notice, binding)
        && (forall k :: 0 <= k < |notice.statChanges| ==>
              Reached(p.result.value.document, p.result.value.replay, binding, notice.statChanges[k]))
        && NothingNewBlocks(replay.findings, p.result.value.replay.findings)
  {
    hide Scan, EventPart, FindEvent, Acceptable, PlayDecided, ApplyCorrection, RecordCommands, Reached, DecisionReached,
      NothingNewBlocks, NewBlockingCount, NoticeFits, AllStatReasons;
    var p := Proposal(env, d, replay, notice, binding);
    if p.eligible {
      EligibleParts(env, d, replay, notice, binding);
      EligibleReaches(env, d, replay, notice, binding);
      EligibleIsLocal(env, d, replay, notice, binding);
      FitsMeansNoReasons(d, replay, notice, binding);
    } else if p.result.Some? && NoticeFits(d, replay, notice, binding) {
      FitsMeansNoReasons(d, replay, notice, binding);
      var event := FindEvent(d, binding.eventId).value;
      var (start, commands) := EventPart(notice, binding, event);
      var work := Scan(d, replay, binding, start, notice.statChanges);
      var result := p.result.value;
      NothingNewCounted(replay, result.replay.findings);
      ScanWithoutReasons(d, replay, binding, start, notice.statChanges);
      EventPartNamesNobody(notice, binding, event);
      EventIsNamed(d, binding.eventId);
      EventPartReplaces(notice, binding, event);
      BatchApplied(env, d, replay, event, commands, work.batters, work.pitchers);
      if forall k :: 0 <= k < |notice.statChanges| ==> Reached(result.document, result.replay, binding, notice.statChanges[k]) {
        AllReached(d, result.document, result.replay, notice, binding, work.batters, work.pitchers);
      }
    }
  }

  lemma {:induction false} AllReached(
      d: Document, after: Document, replay: Replay, notice: Notice, binding: Binding,
      batters: seq<OfficialRecord>, pitchers: seq<OfficialRecord>)
    requires after.batters == Upserted(d.batters, batters) && after.pitchers == Upserted(d.pitchers, pitchers)
    requires forall k :: 0 <= k < |notice.statChanges| ==> Located(d, binding, notice.statChanges[k])
    requires forall k :: 0 <= k < |notice.statChanges| ==> Reached(after, replay, binding, notice.statChanges[k])
    ensures AllStatReasons(after, replay, binding, notice.statChanges) == []
  {
    hide Located, Reached, StatReasons, Upserted;
    forall k | 0 <= k < |notice.statChanges| ensures StatReasons(after, replay, binding, notice.statChanges[k]) == [] {
      LocatedAfter(d, after, binding, notice.statChanges[k], batters, pitchers);
      NoReasonMeansReached(after, replay, binding, notice.statChanges[k]);
    }
    NothingToSay(after, replay, binding, notice.statChanges);
  }

  lemma {:induction false} NothingToSay(d: Document, replay: Replay, binding: Binding, stats: seq<StatChange>)
    requires forall k :: 0 <= k < |stats| ==> StatReasons(d, replay, binding, stats[k]) == []
    ensures AllStatReasons(d, replay, binding, stats) == []
  {
    hide StatReasons;
    if stats != [] { NothingToSay(d, replay, binding, stats[..|stats| - 1]); }
  }

  // ---- What the proposal shows ------------------------------------------------------------------

  /** The preview of an acceptable statistic: its corrected value, what stands there now, and whether that has to change. */
  ghost predicate ShownStat(
      c: Change, d: Document, replay: Replay, binding: Binding, earlier: seq<StatChange>, stat: StatChange)
  {
    var player := Participant(binding, stat.participantIndex);
    && c.after == Number(stat.afterValue)
    && match EffectiveSupport(stat)
       case Direct =>
         && player.Some? && FieldOf(stat.scope, stat.statCode).Some? && c.playerId == player
         && c.kind == (if stat.scope == BatterScope then OfficialBatter else OfficialPitcher)
         && var descriptor := FieldOf(stat.scope, stat.statCode).value;
            c.field == descriptor.field && ShownValue(c, d, binding, earlier, stat, player.value, descriptor)
       case Derived =>
         var batter := if player.Some? then player.value else binding.batterPlayerId;
         && c.kind == DerivedChange && c.playerId == Some(batter) && c.field == stat.rawStatName
         && TotalBasesOf(replay, batter).Some? && c.before == Number(TotalBasesOf(replay, batter).value)
         && c.state == if c.before == c.after then Verified else ToChange
       case _ =>
         c == Change(Evidence, player, stat.rawStatName, Number(stat.beforeValue), Number(stat.afterValue), EvidenceState)
  }

  /** The value in the line; a default that is neither the old nor the new value is shown as nothing. */
  ghost predicate ShownValue(
      c: Change, d: Document, binding: Binding, earlier: seq<StatChange>, stat: StatChange, playerId: string, descriptor: Descriptor)
  {
    var value := ValueAfter(d, binding, earlier, stat.scope, playerId, descriptor);
    && value.Some?
    && (value == Some(stat.afterValue) ==> c.state == AlreadyApplied && c.before == Number(value.value))
    && (value != Some(stat.afterValue) ==> c.state == ToChange)
    && (value == Some(stat.beforeValue) ==> c.before == Number(value.value))
    && (value != Some(stat.afterValue) && value != Some(stat.beforeValue) ==> c.before == Nothing)
  }

  lemma {:induction false} VerdictShows(
      d: Document, replay: Replay, binding: Binding, earlier: seq<StatChange>, pending: seq<OfficialRecord>,
      kind: ChangeKind, playerId: string, stat: StatChange)
    requires EffectiveSupport(stat) == Direct && FieldOf(stat.scope, stat.statCode).Some?
    requires Participant(binding, stat.participantIndex) == Some(playerId)
    requires LinesHold(d, binding, earlier, stat.scope, pending) && Acceptable(d, replay, binding, earlier, stat)
    ensures var descriptor := FieldOf(stat.scope, stat.statCode).value;
      var c := OfficialVerdict(kind, RecordsIn(d, stat.scope), pending, playerId, Some(descriptor), stat).change;
      && c.kind == kind && c.playerId == Some(playerId) && c.field == descriptor.field && c.after == Number(stat.afterValue)
      && ShownValue(c, d, binding, earlier, stat, playerId, descriptor)
  {
    hide FindRecord, FieldOf, EffectiveSupport, ValueAfter, StillOmitted, NumericField;
    var descriptor := FieldOf(stat.scope, stat.statCode).value;
    assert LineHolds(d, binding, earlier, stat.scope, pending, playerId, descriptor);
    ValuePresent(d, binding, earlier, stat.scope, pending, playerId, descriptor);
  }

  lemma {:induction false} ValuePresent(
      d: Document, binding: Binding, earlier: seq<StatChange>, scope: Scope, pending: seq<OfficialRecord>,
      playerId: string, descriptor: Descriptor)
    requires FindRecord(RecordsIn(d, scope), playerId).Some?
    requires LineHolds(d, binding, earlier, scope, pending, playerId, descriptor)
    ensures var fields := LineOf(RecordsIn(d, scope), pending, playerId).fields;
      NumericField(fields, descriptor) == if descriptor.field in fields then Some(fields[descriptor.field]) else descriptor.omittedValue
  {
  }

  lemma {:induction false} StepShows(
      d: Document, replay: Replay, binding: Binding, earlier: seq<StatChange>, work: Work, stat: StatChange)
    requires BothHold(d, binding, earlier, work) && Acceptable(d, replay, binding, earlier, stat)
    ensures var after := StatStep(d, replay, binding, work, stat);
      && |after.changes| == |work.changes| + 1 && after.changes[..|work.changes|] == work.changes
      && ShownStat(after.changes[|work.changes|], d, replay, binding, earlier, stat)
  {
    hide LinesHold, FindRecord, BatterField, PitcherField, SupportOf, OfficialVerdict, UpdatedRecords, TotalBasesOf, ValueAfter,
      StillOmitted, ShownValue;
    DirectMeansField(stat.scope, stat.statCode);
    var player := Participant(binding, stat.participantIndex);
    if EffectiveSupport(stat) == Direct {
      var (kind, pending) := if stat.scope == BatterScope then (OfficialBatter, work.batters) else (OfficialPitcher, work.pitchers);
      VerdictAccepts(d, replay, binding, earlier, pending, kind, player.value, stat);
      VerdictShows(d, replay, binding, earlier, pending, kind, player.value, stat);
    }
  }

  /** One entry of the preview for every statistic, in order, behind those of the play. */
  lemma {:induction false} ScanShows(d: Document, replay: Replay, binding: Binding, start: Work, stats: seq<StatChange>)
    requires start.batters == [] && start.pitchers == [] && Scan(d, replay, binding, start, stats).reasons == []
    ensures var changes := Scan(d, replay, binding, start, stats).changes;
      && |changes| == |start.changes| + |stats| && changes[..|start.changes|] == start.changes
      && forall k :: 0 <= k < |stats| ==>
           ShownStat(changes[|start.changes| + k], d, replay, binding, stats[..k], stats[k])
  {
    hide StatStep, Acceptable, LinesHold, ShownStat, BothHold;
    ScanAccepts(d, replay, binding, start, stats);
    if stats != [] {
      var n := |stats| - 1;
      var work := Scan(d, replay, binding, start, stats[..n]);
      StepWithoutReasons(d, replay, binding, work, stats[n]);
      ScanAccepts(d, replay, binding, start, stats[..n]);
      ScanShows(d, replay, binding, start, stats[..n]);
      StepShows(d, replay, binding, stats[..n], work, stats[n]);
      assert forall k :: 0 <= k < n ==> stats[..n][..k] == stats[..k] && stats[..n][k] == stats[k];
      var after := Scan(d, replay, binding, start, stats).changes;
      assert forall m :: 0 <= m < |work.changes| ==> after[m] == after[..|work.changes|][m];
    }
  }

  /** The preview of the play: its result, and its event RBI when that changes. */
  ghost predicate ShownPlay(changes: seq<Change>, binding: Binding, before: PlatePayload, after: PlatePayload) {
    var result := Change(EventChange, Some(binding.batterPlayerId), "result", ResultName(before.result), ResultName(after.result),
      if before.result == after.result then AlreadyApplied else ToChange);
    if before.creditedRbi == after.creditedRbi then changes == [result]
    else changes == [result, Change(EventChange, Some(binding.batterPlayerId), "creditedRbi",
      Number(if before.creditedRbi.Some? then before.creditedRbi.value else 0),
      Number(if after.creditedRbi.Some? then after.creditedRbi.value else 0), ToChange)]
  }

  lemma {:induction false} EventPartShows(notice: Notice, binding: Binding, event: RelayEvent)
    requires event.payload.Plate? && event.identity.eventId == binding.eventId
    requires EventPart(notice, binding, event).0.reasons == [] && ReplacesBound(EventPart(notice, binding, event).1, event)
    requires PayloadAfter(EventPart(notice, binding, event).1, event).Plate?
    ensures ShownPlay(EventPart(notice, binding, event).0.changes, binding, event.payload.plate,
      PayloadAfter(EventPart(notice, binding, event).1, event).plate)
  {
    hide BatterChange, TargetResult;
  }

  /** An eligible proposal shows the play as it becomes and every statistic of the notice. */
  lemma {:induction false} EligibleShows(env: Environment, d: Document, replay: Replay, notice: Notice, binding: Binding)
    requires Proposal(env, d, replay, notice, binding).eligible
    ensures var p := Proposal(env, d, replay, notice, binding);
      && p.result.Some? && PlayOfBinding(FindEvent(d, binding.eventId), binding)
      && FindEvent(p.result.value.document, binding.eventId).Some?
      && FindEvent(p.result.value.document, binding.eventId).value.payload.Plate?
      && exists n :: 0 <= n <= |p.changes| == n + |notice.statChanges|
           && ShownPlay(p.changes[..n], binding, FindEvent(d, binding.eventId).value.payload.plate,
                FindEvent(p.result.value.document, binding.eventId).value.payload.plate)
           && ShownStats(p.changes[n..], d, replay, binding, notice.statChanges)
  {
    hide Scan, EventPart, FindEvent, Acceptable, ApplyCorrection, RecordCommands, VerifyReasons, ShownPlay, ShownStat, Upserted,
      PlayDecided;
    EligibleParts(env, d, replay, notice, binding);
    var p := Proposal(env, d, replay, notice, binding);
    var event := FindEvent(d, binding.eventId).value;
    var (start, commands) := EventPart(notice, binding, event);
    var work := Scan(d, replay, binding, start, notice.statChanges);
    EventIsNamed(d, binding.eventId);
    ScanWithoutReasons(d, replay, binding, start, notice.statChanges);
    EventPartReplaces(notice, binding, event);
    EventPartShows(notice, binding, event);
    BatchApplied(env, d, replay, event, commands, work.batters, work.pitchers);
    ScanShows(d, replay, binding, start, notice.statChanges);
    assert p.changes == work.changes by { EligibleChanges(env, d, replay, notice, binding); }
    var n := |start.changes|;
    assert p.changes[..n] == start.changes;
    forall k | 0 <= k < |notice.statChanges|
      ensures ShownStat(p.changes[n..][k], d, replay, binding, notice.statChanges[..k], notice.statChanges[k])
    {
      assert p.changes[n..][k] == work.changes[n + k];
    }
  }

  ghost predicate ShownStats(changes: seq<Change>, d: Document, replay: Replay, binding: Binding, stats: seq<StatChange>) {
    |changes| == |stats| && forall k :: 0 <= k < |stats| ==> ShownStat(changes[k], d, replay, binding, stats[..k], stats[k])
  }

  lemma {:induction false} EligibleChanges(env: Environment, d: Document, replay: Replay, notice: Notice, binding: Binding)
    requires Proposal(env, d, replay, notice, binding).eligible && Bound(FindEvent(d, binding.eventId), binding)
    ensures var (start, _) := EventPart(notice, binding, FindEvent(d, binding.eventId).value);
      Proposal(env, d, replay, notice, binding).changes == Scan(d, replay, binding, start, notice.statChanges).changes
  {
    hide EventPart, Scan, ApplyCorrection, VerifyReasons, FindEvent, NewBlockingCount, RecordCommands;
  }

  // ---- Why a play cannot be edited --------------------------------------------------------------

  /** The base of the batter would be another one. */
  ghost predicate BaseMoves(before: PlatePayload, after: PlateResult) {
    after != before.result && forall base :: !(ArrivesAt(before.batterDestination, before.result, base) && ArrivesAt(None, after, base))
  }

  predicate Only(reasons: seq<Reason>, reason: Reason) {
    |reasons| == 1 && reasons[0] == reason
  }

  /** At most one reason: the notice decides nothing, or the play is another one, or its bases or its RBI do not fit. */
  lemma {:induction false} EventReasons(notice: Notice, binding: Binding, event: RelayEvent, target: PlateResult)
    requires event.payload.Plate?
    ensures var (before, reasons) := (event.payload.plate, EventPart(notice, binding, event).0.reasons);
      && |reasons| <= 1
      && (notice.decisionAfter == UnknownDecision ==> Only(reasons, DecisionUnsupported))
      && (Only(reasons, DecisionUnsupported) ==> notice.decisionAfter == UnknownDecision)
      && (Only(reasons, HitTypeUnknown) ==> notice.decisionAfter == HitDecision && !ResultDecided(notice, binding, before.result, target))
      && (ResultDecided(notice, binding, before.result, target) ==>
            && (Only(reasons, DecisionMismatch) <==>
                  !InDecision(before.result, notice.decisionBefore) && !InDecision(before.result, notice.decisionAfter))
            && (Only(reasons, DestinationMoves) ==> BaseMoves(before, target)))
  {
    hide BatterChange, TargetResult, CreditedRbi, ResultDecided, ArrivesAt, InDecision, Destination, DecisionFor;
    var before := event.payload.plate;
    DecisionIsClass(before.result, notice.decisionBefore);
    DecisionIsClass(before.result, notice.decisionAfter);
    TargetDecided(notice, binding, before.result, target);
    TargetErrors(notice, binding, before.result);
    if TargetResult(notice, binding, before.result).Ok? {
      TargetDestination(notice, binding, before.result);
      forall base ensures Destination(before.result, before.batterDestination) == base
        <==> ArrivesAt(before.batterDestination, before.result, base) {
        DestinationIsArrival(before.result, before.batterDestination, base);
      }
      forall base ensures Destination(target, None) == base <==> ArrivesAt(None, target, base) {
        DestinationIsArrival(target, None, base);
      }
    }
  }

  lemma {:induction false} TargetErrors(notice: Notice, binding: Binding, current: PlateResult)
    ensures var r := TargetResult(notice, binding, current);
      && (r == Err(DecisionUnsupported) <==> notice.decisionAfter == UnknownDecision)
      && (r.Err? && r.error != DecisionUnsupported ==> r.error == HitTypeUnknown && notice.decisionAfter == HitDecision)
  {
    hide BatterChange;
  }
}
