/** One correction session: its ledger, its history and what it shows, under every sequence of requests. */
module CorrectionSession {
  import opened Wrappers
  import opened GameDocument
  import opened Commands
  import opened CorrectionSnapshot

  datatype History = History(before: Document, after: Document)

  datatype Authority = Staging | Quarantine | Superseded

  /** What a client sees. */
  datatype View = View(
    prepared: Prepared, sessionId: string, authority: Authority, snapshotId: Option<string>, gameId: string,
    baseDocumentHash: string, sessionVersion: nat, canUndo: bool, canRedo: bool, dirty: bool)

  datatype Session = Session(
    sessionId: string, gameId: string, baseDocumentHash: string, authority: Authority, snapshotId: Option<string>,
    baseCurrentContentHash: Option<string>, document: Document, replay: Replay, prepared: Prepared,
    storedFindings: seq<StoredFinding>, sessionVersion: nat, undoStack: seq<History>, redoStack: seq<History>,
    cachedSnapshot: Option<View>)

  /** The workspace answers are part of the request. */
  datatype Request =
    | Snapshot
    | Apply(commands: seq<Command>, apply: bool)
    | Undo
    | Redo
    | LoadOriginal(original: Result<Document, Error>)
    | Commit(allowBlocking: bool, saved: bool)

  datatype Refusal = NothingToUndo | NothingToRedo | NothingToSave | StillBlocking | NoSnapshotId | NotSaved | Failed(error: Error)

  // ---- Snapshots --------------------------------------------------------------------------------

  function FreshView(s: Session): View {
    View(s.prepared, s.sessionId, s.authority, s.snapshotId, s.gameId, s.baseDocumentHash, s.sessionVersion,
      s.undoStack != [], s.redoStack != [], s.undoStack != [])
  }

  /** The cached view answers while the version stands still. */
  function ShownView(s: Session): View {
    if s.cachedSnapshot.Some? && s.cachedSnapshot.value.sessionVersion == s.sessionVersion
    then s.cachedSnapshot.value else FreshView(s)
  }

  function Looked(s: Session): Session {
    s.(cachedSnapshot := Some(ShownView(s)))
  }

  // ---- Requests ---------------------------------------------------------------------------------

  function Compile(services: Services, d: Document, stored: seq<StoredFinding>): Result<(Replay, Prepared), Error> {
    match services.env.compile(d)
    case Err(e) => Err(e)
    case Ok(replay) =>
      match Prepare(services, d, replay, stored)
      case Err(e) => Err(e)
      case Ok(prepared) => Ok((replay, prepared))
  }

  /** A ledger is compiled and shown with the stored findings; either step may refuse it. */
  lemma {:induction false} CompileExactly(services: Services, d: Document, stored: seq<StoredFinding>)
    ensures services.env.compile(d).Err? ==> Compile(services, d, stored) == Err(services.env.compile(d).error)
    ensures services.env.compile(d).Ok? ==>
      var replay := services.env.compile(d).value;
      match Prepare(services, d, replay, stored)
      case Err(e) => Compile(services, d, stored) == Err(e)
      case Ok(prepared) => Compile(services, d, stored) == Ok((replay, prepared))
  {
  }

  /** The ledger moves on; every mutation raises the version by one. */
  function MovedTo(
      s: Session, d: Document, compiled: (Replay, Prepared), undo: seq<History>, redo: seq<History>): Session {
    s.(document := d, replay := compiled.0, prepared := compiled.1, undoStack := undo, redoStack := redo,
       sessionVersion := s.sessionVersion + 1)
  }

  function ApplyRequest(services: Services, s: Session, commands: seq<Command>, apply: bool): Result<Session, Refusal> {
    match ApplyToLedger(services.env, s.document, commands)
    case Err(e) => Err(Failed(e))
    case Ok(result) =>
      if !apply then Ok(s) else
      match Prepare(services, result.document, result.replay, s.storedFindings)
      case Err(e) => Err(Failed(e))
      case Ok(prepared) =>
        Ok(MovedTo(s, result.document, (result.replay, prepared), s.undoStack + [History(s.document, result.document)], []))
  }

  function UndoRequest(services: Services, s: Session): Result<Session, Refusal> {
    if s.undoStack == [] then Err(NothingToUndo) else
    var entry := s.undoStack[|s.undoStack| - 1];
    match Compile(services, entry.before, s.storedFindings)
    case Err(e) => Err(Failed(e))
    case Ok(compiled) =>
      Ok(MovedTo(s, entry.before, compiled, s.undoStack[..|s.undoStack| - 1], s.redoStack + [entry]))
  }

  function RedoRequest(services: Services, s: Session): Result<Session, Refusal> {
    if s.redoStack == [] then Err(NothingToRedo) else
    var entry := s.redoStack[|s.redoStack| - 1];
    match Compile(services, entry.after, s.storedFindings)
    case Err(e) => Err(Failed(e))
    case Ok(compiled) =>
      Ok(MovedTo(s, entry.after, compiled, s.undoStack + [entry], s.redoStack[..|s.redoStack| - 1]))
  }

  function LoadRequest(services: Services, s: Session, original: Result<Document, Error>): Result<Session, Refusal> {
    match original
    case Err(e) => Err(Failed(e))
    case Ok(document) =>
      var rebased := document.(revisionBase := s.document.revisionBase);
      match Compile(services, rebased, s.storedFindings)
      case Err(e) => Err(Failed(e))
      case Ok(compiled) => Ok(MovedTo(s, rebased, compiled, s.undoStack + [History(s.document, rebased)], []))
  }

  /** The saved ledger becomes the base. */
  function Rebased(s: Session, committed: seq<StoredFinding>, target: Authority): Session {
    s.(
      baseDocumentHash := s.prepared.draftDocumentHash,
      prepared := s.prepared.(storedFindings := s.prepared.findings),
      authority := target, snapshotId := None, baseCurrentContentHash := None, storedFindings := committed,
      undoStack := [], redoStack := [], sessionVersion := s.sessionVersion + 1)
  }

  function CommitRequest(services: Services, s: Session, allowBlocking: bool, saved: bool): Result<Session, Refusal> {
    var committed := MergedFindings(services, s.storedFindings, s.replay.findings, s.document);
    var blocking := Count(committed, true);
    if s.undoStack == [] && !(s.authority == Quarantine && blocking == 0) && s.authority != Superseded then Err(NothingToSave)
    else if blocking > 0 && !allowBlocking then Err(StillBlocking)
    else if s.authority == Superseded && s.snapshotId.None? then Err(NoSnapshotId)
    else if !saved then Err(NotSaved)
    else Ok(Rebased(s, committed, if blocking > 0 then Quarantine else Staging))
  }

  function Answer(services: Services, s: Session, request: Request): Result<Session, Refusal> {
    match request
    case Snapshot => Ok(s)
    case Apply(commands, apply) => ApplyRequest(services, s, commands, apply)
    case Undo => UndoRequest(services, s)
    case Redo => RedoRequest(services, s)
    case LoadOriginal(original) => LoadRequest(services, s, original)
    case Commit(allowBlocking, saved) => CommitRequest(services, s, allowBlocking, saved)
  }

  predicate Mutates(request: Request) {
    request != Snapshot && (request.Apply? ==> request.apply)
  }

  /** A refused request changes nothing; an answered one ends with a snapshot. */
  function After(services: Services, s: Session, request: Request): Session {
    match Answer(services, s, request)
    case Err(_) => s
    case Ok(next) => Looked(next)
  }

  function RunAll(services: Services, s: Session, requests: seq<Request>): Session {
    if requests == [] then s
    else After(services, RunAll(services, s, requests[..|requests| - 1]), requests[|requests| - 1])
  }

  /** A new session over a stored ledger. */
  function Created(
      services: Services, sessionId: string, gameId: string, d: Document, stored: seq<StoredFinding>,
      authority: Authority, snapshotId: Option<string>, content: Option<string>): Result<Session, Error>
  {
    match Compile(services, d, stored)
    case Err(e) => Err(e)
    case Ok((replay, prepared)) =>
      Ok(Session(sessionId, gameId, prepared.draftDocumentHash, authority, snapshotId, content, d, replay, prepared,
        stored, 0, [], [], None))
  }

  // ---- Invariant --------------------------------------------------------------------------------

  predicate Linked(chain: seq<History>) {
    forall i, j :: 0 <= i && j == i + 1 < |chain| ==> chain[i].after == chain[j].before
  }

  function Reversed(stack: seq<History>): (r: seq<History>)
    ensures |r| == |stack|
    ensures forall i :: 0 <= i < |r| ==> r[i] == stack[|stack| - 1 - i]
  {
    seq(|stack|, i requires 0 <= i < |stack| => stack[|stack| - 1 - i])
  }

  /** Undo history, then what can be redone: one chain of ledgers. */
  function Chain(s: Session): seq<History> {
    s.undoStack + Reversed(s.redoStack)
  }

  /** The current ledger sits in the chain where the undo history ends. */
  predicate Joined(s: Session) {
    && (s.undoStack != [] ==> s.undoStack[|s.undoStack| - 1].after == s.document)
    && (s.redoStack != [] ==> s.redoStack[|s.redoStack| - 1].before == s.document)
  }

  function Bottom(s: Session): Document {
    if s.undoStack == [] then s.document else s.undoStack[0].before
  }

  predicate Compiles(services: Services, s: Session, d: Document) {
    Compile(services, d, s.storedFindings).Ok?
  }

  predicate HistoryCompiles(services: Services, s: Session) {
    && (forall i :: 0 <= i < |s.undoStack| ==> Compiles(services, s, s.undoStack[i].before))
    && (forall i :: 0 <= i < |s.redoStack| ==> Compiles(services, s, s.redoStack[i].after))
  }

  /** What is shown is what preparing the current ledger would give. */
  predicate UpToDate(services: Services, s: Session) {
    Compile(services, s.document, s.storedFindings) == Ok((s.replay, s.prepared))
  }

  predicate CacheHonest(s: Session) {
    s.cachedSnapshot.Some? ==>
      s.cachedSnapshot.value.sessionVersion <= s.sessionVersion
      && (s.cachedSnapshot.value.sessionVersion == s.sessionVersion ==> s.cachedSnapshot.value == FreshView(s))
  }

  predicate Sound(services: Services, s: Session) {
    && Linked(Chain(s)) && Joined(s) && services.hash(Bottom(s)) == s.baseDocumentHash
    && UpToDate(services, s) && HistoryCompiles(services, s) && CacheHonest(s)
  }

  // ---- Every request keeps it -------------------------------------------------------------------

  lemma {:induction false} PushKeeps(services: Services, s: Session, d: Document, compiled: (Replay, Prepared))
    requires Sound(services, s) && Compile(services, d, s.storedFindings) == Ok(compiled)
    ensures Sound(services, MovedTo(s, d, compiled, s.undoStack + [History(s.document, d)], []))
  {
    hide Compile;
    var after := MovedTo(s, d, compiled, s.undoStack + [History(s.document, d)], []);
    assert Chain(after) == s.undoStack + [History(s.document, d)];
    forall i, j | 0 <= i && j == i + 1 < |Chain(after)| ensures Chain(after)[i].after == Chain(after)[j].before {
      if j < |s.undoStack| { assert Chain(s)[i].after == Chain(s)[j].before; }
    }
  }

  lemma {:induction false} UndoKeeps(services: Services, s: Session)
    requires Sound(services, s) && s.undoStack != []
    ensures UndoRequest(services, s).Ok? && Sound(services, UndoRequest(services, s).value)
    ensures Chain(UndoRequest(services, s).value) == Chain(s)
  {
    hide Compile;
    var n := |s.undoStack| - 1;
    var entry := s.undoStack[n];
    assert Compiles(services, s, entry.before);
    var after := UndoRequest(services, s).value;
    assert Reversed(after.redoStack) == [entry] + Reversed(s.redoStack);
    assert Chain(after) == Chain(s);
    if n > 0 { assert Chain(s)[n - 1].after == Chain(s)[n].before; }
    assert Compile(services, s.document, s.storedFindings).Ok?;
  }

  lemma {:induction false} RedoKeeps(services: Services, s: Session)
    requires Sound(services, s) && s.redoStack != []
    ensures RedoRequest(services, s).Ok? && Sound(services, RedoRequest(services, s).value)
    ensures Chain(RedoRequest(services, s).value) == Chain(s)
  {
    hide Compile;
    var n := |s.redoStack| - 1;
    var entry := s.redoStack[n];
    assert Compiles(services, s, entry.after);
    var after := RedoRequest(services, s).value;
    assert Reversed(s.redoStack) == [entry] + Reversed(after.redoStack);
    assert Chain(after) == Chain(s);
    if n > 0 {
      var m := |s.undoStack|;
      assert Chain(s)[m].after == Chain(s)[m + 1].before;
    }
  }

  lemma {:induction false} CommitKeeps(services: Services, s: Session, allowBlocking: bool, saved: bool)
    requires Sound(services, s) && CommitRequest(services, s, allowBlocking, saved).Ok?
    ensures Sound(services, CommitRequest(services, s, allowBlocking, saved).value)
  {
    hide MergedFindings, Count;
    CommitPreparation(services, s.document, s.replay, s.storedFindings);
  }

  lemma {:induction false} ApplyKeeps(services: Services, s: Session, commands: seq<Command>)
    requires Sound(services, s) && ApplyRequest(services, s, commands, true).Ok?
    ensures Sound(services, ApplyRequest(services, s, commands, true).value)
  {
    hide ApplyCorrection, Prepare, Sound;
    var before := services.env.compile(s.document).value;
    CorrectionCompiles(services.env, s.document, before, commands);
    var result := ApplyCorrection(services.env, s.document, before, commands).value;
    PushKeeps(services, s, result.document, Compile(services, result.document, s.storedFindings).value);
  }

  lemma {:induction false} CorrectionCompiles(env: Environment, d: Document, before: Replay, commands: seq<Command>)
    requires ApplyCorrection(env, d, before, commands).Ok?
    ensures var result := ApplyCorrection(env, d, before, commands).value; env.compile(result.document) == Ok(result.replay)
  {
    hide ApplyAll;
  }

  /** Looking never shows anything but the fresh view, and keeps the invariant. */
  lemma {:induction false} LookKeeps(services: Services, s: Session)
    requires Sound(services, s)
    ensures ShownView(s) == FreshView(s) && Sound(services, Looked(s))
  {
    hide Compile;
  }

  lemma {:induction false} AnswerKeeps(services: Services, s: Session, request: Request)
    requires Sound(services, s) && Answer(services, s, request).Ok?
    ensures Sound(services, Answer(services, s, request).value)
    ensures Answer(services, s, request).value.sessionVersion == s.sessionVersion + if Mutates(request) then 1 else 0
  {
    hide Sound, Compile, ApplyToLedger, Prepare, MergedFindings, Count;
    match request
    case Snapshot =>
    case Apply(commands, apply) => if apply { ApplyKeeps(services, s, commands); }
    case Undo => UndoKeeps(services, s);
    case Redo => RedoKeeps(services, s);
    case LoadOriginal(original) =>
      var rebased := original.value.(revisionBase := s.document.revisionBase);
      PushKeeps(services, s, rebased, Compile(services, rebased, s.storedFindings).value);
    case Commit(allowBlocking, saved) => CommitKeeps(services, s, allowBlocking, saved);
  }

  /** After any sequence of requests: one chain to the base, an up-to-date view and an honest cache. */
  lemma {:induction false} EveryRunIsSound(services: Services, s: Session, requests: seq<Request>)
    requires Sound(services, s)
    ensures Sound(services, RunAll(services, s, requests))
    decreases |requests|
  {
    hide Sound, Answer;
    if requests != [] {
      var before := RunAll(services, s, requests[..|requests| - 1]);
      EveryRunIsSound(services, s, requests[..|requests| - 1]);
      var answer := Answer(services, before, requests[|requests| - 1]);
      if answer.Ok? {
        AnswerKeeps(services, before, requests[|requests| - 1]);
        LookKeeps(services, answer.value);
      }
    }
  }

  /** The requests of a run that were answered and change the session. */
  function Successes(services: Services, s: Session, requests: seq<Request>): nat {
    if requests == [] then 0 else
    var last, earlier := requests[|requests| - 1], requests[..|requests| - 1];
    Successes(services, s, earlier)
      + if Mutates(last) && Answer(services, RunAll(services, s, earlier), last).Ok? then 1 else 0
  }

  /** The version counts the successful mutations of the whole run. */
  lemma {:induction false} VersionCounts(services: Services, s: Session, requests: seq<Request>)
    requires Sound(services, s)
    ensures RunAll(services, s, requests).sessionVersion == s.sessionVersion + Successes(services, s, requests)
    decreases |requests|
  {
    hide Sound, Answer;
    if requests != [] {
      var earlier, last := requests[..|requests| - 1], requests[|requests| - 1];
      VersionCounts(services, s, earlier);
      EveryRunIsSound(services, s, earlier);
      if Answer(services, RunAll(services, s, earlier), last).Ok? {
        AnswerKeeps(services, RunAll(services, s, earlier), last);
      }
    }
  }

  lemma {:induction false} CreatedIsSound(
      services: Services, sessionId: string, gameId: string, d: Document, stored: seq<StoredFinding>,
      authority: Authority, snapshotId: Option<string>, content: Option<string>)
    requires Created(services, sessionId, gameId, d, stored, authority, snapshotId, content).Ok?
    ensures Sound(services, Created(services, sessionId, gameId, d, stored, authority, snapshotId, content).value)
  {
  }

  // ---- Undo and redo ----------------------------------------------------------------------------

  /** Everything but the version counter and the cached view. */
  function Core(s: Session): Session {
    s.(sessionVersion := 0, cachedSnapshot := None)
  }

  function UndoTimes(services: Services, s: Session, k: nat): Session {
    if k == 0 then s else After(services, UndoTimes(services, s, k - 1), Undo)
  }

  function RedoTimes(services: Services, s: Session, k: nat): Session
    decreases k
  {
    if k == 0 then s else RedoTimes(services, After(services, s, Redo), k - 1)
  }

  lemma {:induction false} RedoAnswersUndo(services: Services, s: Session)
    requires Sound(services, s) && s.undoStack != []
    ensures Core(After(services, After(services, s, Undo), Redo)) == Core(s)
    ensures After(services, After(services, s, Undo), Redo).sessionVersion == s.sessionVersion + 2
  {
    hide Compile, ShownView, Sound, UndoRequest, RedoRequest;
    UndoKeeps(services, s);
    RedoRequestAnswersUndo(services, s);
  }

  lemma {:induction false} RedoRequestAnswersUndo(services: Services, s: Session)
    requires Sound(services, s) && s.undoStack != [] && UndoRequest(services, s).Ok?
    ensures var undone := Looked(UndoRequest(services, s).value);
      RedoRequest(services, undone) == Ok(s.(sessionVersion := s.sessionVersion + 2, cachedSnapshot := undone.cachedSnapshot))
  {
    hide Compile, ShownView, HistoryCompiles, CacheHonest, Linked;
    var n := |s.undoStack| - 1;
    var undone := Looked(UndoRequest(services, s).value);
    assert undone.redoStack[..|undone.redoStack| - 1] == s.redoStack;
    assert s.undoStack[..n] + [s.undoStack[n]] == s.undoStack;
  }

  lemma {:induction false} RedoReadsCore(services: Services, a: Session, b: Session, k: nat)
    requires Core(a) == Core(b)
    ensures Core(RedoTimes(services, a, k)) == Core(RedoTimes(services, b, k))
    ensures RedoTimes(services, a, k).sessionVersion - a.sessionVersion == RedoTimes(services, b, k).sessionVersion - b.sessionVersion
    decreases k
  {
    hide Compile;
    if k > 0 { RedoReadsCore(services, After(services, a, Redo), After(services, b, Redo), k - 1); }
  }

  /** Undoing never fails while there is history, and each step brings the ledger one link closer to the base. */
  lemma {:induction false} UndoDescends(services: Services, s: Session, k: nat)
    requires Sound(services, s) && k <= |s.undoStack|
    ensures var undone := UndoTimes(services, s, k);
      && Sound(services, undone) && undone.undoStack == s.undoStack[..|s.undoStack| - k]
      && Bottom(undone) == Bottom(s) && undone.baseDocumentHash == s.baseDocumentHash
      && undone.document == (if k == 0 then s.document else s.undoStack[|s.undoStack| - k].before)
      && undone.sessionVersion == s.sessionVersion + k
    decreases k
  {
    hide Compile, Sound, Chain;
    if k > 0 {
      UndoDescends(services, s, k - 1);
      var before := UndoTimes(services, s, k - 1);
      UndoKeeps(services, before);
      LookKeeps(services, UndoRequest(services, before).value);
    }
  }

  /** `k` undos followed by `k` redos give back the session, two versions per pair later. */
  lemma {:induction false} RedosRestore(services: Services, s: Session, k: nat)
    requires Sound(services, s) && k <= |s.undoStack|
    ensures var back := RedoTimes(services, UndoTimes(services, s, k), k);
      Core(back) == Core(s) && back.sessionVersion == s.sessionVersion + 2 * k
    decreases k
  {
    hide After, Sound, Core;
    if k > 0 {
      RedosRestore(services, s, k - 1);
      UndoDescends(services, s, k - 1);
      UndoDescends(services, s, k);
      var before := UndoTimes(services, s, k - 1);
      RedoAnswersUndo(services, before);
      RedoReadsCore(services, After(services, After(services, before, Undo), Redo), before, k - 1);
    }
  }

  /** Undoing everything reaches the ledger the base hash was taken from, with nothing left to save. */
  lemma {:induction false} UndoingAllReachesBase(services: Services, s: Session)
    requires Sound(services, s)
    ensures var base := UndoTimes(services, s, |s.undoStack|);
      && services.hash(base.document) == s.baseDocumentHash && base.undoStack == []
      && base.prepared.draftDocumentHash == s.baseDocumentHash && !FreshView(base).dirty
  {
    UndoDescends(services, s, |s.undoStack|);
  }

  // ---- What a commit promises -------------------------------------------------------------------

  /** The findings a commit would store, and whether one of them blocks. */
  ghost predicate Blocks(services: Services, s: Session) {
    var merged := MergedFindings(services, s.storedFindings, s.replay.findings, s.document);
    exists i :: 0 <= i < |merged| && merged[i].blocking
  }

  /** Accepted exactly with something to save, no unwanted blocking finding, an identifier to supersede, and a saved ledger. */
  lemma {:induction false} CommitExactly(services: Services, s: Session, allowBlocking: bool, saved: bool)
    ensures CommitRequest(services, s, allowBlocking, saved).Ok? <==>
      && (s.undoStack != [] || s.authority == Superseded || (s.authority == Quarantine && !Blocks(services, s)))
      && (Blocks(services, s) ==> allowBlocking) && (s.authority == Superseded ==> s.snapshotId.Some?) && saved
    ensures CommitRequest(services, s, allowBlocking, saved).Ok? ==>
      var next := CommitRequest(services, s, allowBlocking, saved).value;
      && next.authority == (if Blocks(services, s) then Quarantine else Staging)
      && next.storedFindings == MergedFindings(services, s.storedFindings, s.replay.findings, s.document)
      && next.baseDocumentHash == s.prepared.draftDocumentHash && next.undoStack == [] == next.redoStack
      && next.snapshotId == None && next.baseCurrentContentHash == None && next.sessionVersion == s.sessionVersion + 1
      && next.document == s.document && next.replay == s.replay && next.prepared.draftDocument == s.prepared.draftDocument
  {
    hide MergedFindings, Count;
    CountPositive(MergedFindings(services, s.storedFindings, s.replay.findings, s.document), true);
  }

  /** The key of a finding tells whether it blocks. */
  ghost predicate KeyTellsBlocking(services: Services) {
    forall f, g :: services.key(f) == services.key(g) ==> f.blocking == g.blocking
  }

  /** A blocking finding that outlives recomputation, or that the compiler reports, is never staged away. */
  lemma {:induction false} BlockingIsNeverStaged(services: Services, s: Session, f: StoredFinding, allowBlocking: bool, saved: bool)
    requires KeyTellsBlocking(services) && f.blocking
    requires (f in s.storedFindings && Outlives(f, s.document))
          || exists i :: 0 <= i < |s.replay.findings| && ReportedBy(f, s.replay.findings[i])
    requires CommitRequest(services, s, allowBlocking, saved).Ok?
    ensures allowBlocking && CommitRequest(services, s, allowBlocking, saved).value.authority == Quarantine
    ensures HasKey(services.key, CommitRequest(services, s, allowBlocking, saved).value.storedFindings, services.key(f))
  {
    hide MergedFindings, Count, Outlives, ReportedBy, CommitRequest;
    CommitExactly(services, s, allowBlocking, saved);
    MergeHoldsExactly(services, s.storedFindings, s.replay.findings, s.document);
    assert HasKey(services.key, MergedFindings(services, s.storedFindings, s.replay.findings, s.document), services.key(f));
  }

  /** What the caller is told: the refusal, or the view that is now cached and, in a sound session, fresh. */
  predicate Reports(services: Services, before: Session, request: Request, after: Session, r: Result<View, Refusal>) {
    match Answer(services, before, request)
    case Err(e) => r == Err(e)
    case Ok(_) =>
      r.Ok? && after.cachedSnapshot == Some(r.value) && (Sound(services, before) ==> r.value == FreshView(after))
  }

  lemma {:induction false} AnswerShowsFresh(services: Services, before: Session, request: Request)
    requires Answer(services, before, request).Ok?
    ensures var next := Answer(services, before, request).value;
      Reports(services, before, request, Looked(next), Ok(ShownView(next)))
  {
    hide Answer, Sound;
    if Sound(services, before) {
      AnswerKeeps(services, before, request);
      LookKeeps(services, Answer(services, before, request).value);
    }
  }

  // ---- The session object -----------------------------------------------------------------------

  class InternalSession {
    const services: Services
    const sessionId: string
    const gameId: string
    var baseDocumentHash: string
    var authority: Authority
    var snapshotId: Option<string>
    var baseCurrentContentHash: Option<string>
    var document: Document
    var replay: Replay
    var prepared: Prepared
    var storedFindings: seq<StoredFinding>
    var sessionVersion: nat
    var undoStack: seq<History>
    var redoStack: seq<History>
    var cachedSnapshot: Option<View>

    function Now(): Session
      reads this
    {
      Session(sessionId, gameId, baseDocumentHash, authority, snapshotId, baseCurrentContentHash, document, replay,
        prepared, storedFindings, sessionVersion, undoStack, redoStack, cachedSnapshot)
    }

    constructor (services: Services, start: Session)
      ensures this.services == services && Now() == start
    {
      this.services := services;
      sessionId, gameId, baseDocumentHash, authority := start.sessionId, start.gameId, start.baseDocumentHash, start.authority;
      snapshotId, baseCurrentContentHash, document := start.snapshotId, start.baseCurrentContentHash, start.document;
      replay, prepared, storedFindings := start.replay, start.prepared, start.storedFindings;
      sessionVersion, undoStack, redoStack, cachedSnapshot :=
        start.sessionVersion, start.undoStack, start.redoStack, start.cachedSnapshot;
    }

    /** The view handed out is always the fresh one. */
    method TakeSnapshot() returns (view: View)
      modifies this`cachedSnapshot
      ensures Now() == Looked(old(Now())) && view == ShownView(old(Now()))
      ensures Sound(services, old(Now())) ==> view == FreshView(old(Now()))
    {
      ghost var before := Now();
      if Sound(services, before) { LookKeeps(services, before); }
      if cachedSnapshot.Some? && cachedSnapshot.value.sessionVersion == sessionVersion { return cachedSnapshot.value; }
      view := View(prepared, sessionId, authority, snapshotId, gameId, baseDocumentHash, sessionVersion,
        undoStack != [], redoStack != [], undoStack != []);
      cachedSnapshot := Some(view);
    }

    /** The assignments every mutation of the ledger ends with. */
    method MoveTo(d: Document, compiled: (Replay, Prepared), undo: seq<History>, redo: seq<History>)
      modifies this
      ensures Now() == MovedTo(old(Now()), d, compiled, undo, redo)
    {
      undoStack := undo;
      redoStack := redo;
      document := d;
      replay := compiled.0;
      prepared := compiled.1;
      sessionVersion := sessionVersion + 1;
    }

    method Command(commands: seq<Command>, apply: bool) returns (r: Result<View, Refusal>)
      modifies this
      ensures Now() == After(services, old(Now()), Apply(commands, apply))
      ensures Reports(services, old(Now()), Apply(commands, apply), Now(), r)
    {
      hide ApplyToLedger, Prepare, ShownView, Sound, MovedTo;
      var computed := ApplyToLedger(services.env, document, commands);
      if computed.Err? { return Err(Failed(computed.error)); }
      var result := computed.value;
      if apply {
        var shown := Prepare(services, result.document, result.replay, storedFindings);
        if shown.Err? { return Err(Failed(shown.error)); }
        MoveTo(result.document, (result.replay, shown.value), undoStack + [History(document, result.document)], []);
      }
      AnswerShowsFresh(services, old(Now()), Apply(commands, apply));
      var view := TakeSnapshot();
      return Ok(view);
    }

    method UndoOne() returns (r: Result<View, Refusal>)
      modifies this
      ensures Now() == After(services, old(Now()), Undo)
      ensures Reports(services, old(Now()), Undo, Now(), r)
    {
      hide Compile, ShownView, Sound, MovedTo;
      if |undoStack| == 0 { return Err(NothingToUndo); }
      var entry := undoStack[|undoStack| - 1];
      var compiled := Compile(services, entry.before, storedFindings);
      if compiled.Err? { return Err(Failed(compiled.error)); }
      MoveTo(entry.before, compiled.value, undoStack[..|undoStack| - 1], redoStack + [entry]);
      AnswerShowsFresh(services, old(Now()), Undo);
      var view := TakeSnapshot();
      return Ok(view);
    }

    method RedoOne() returns (r: Result<View, Refusal>)
      modifies this
      ensures Now() == After(services, old(Now()), Redo)
      ensures Reports(services, old(Now()), Redo, Now(), r)
    {
      hide Compile, ShownView, Sound, MovedTo;
      if |redoStack| == 0 { return Err(NothingToRedo); }
      var entry := redoStack[|redoStack| - 1];
      var compiled := Compile(services, entry.after, storedFindings);
      if compiled.Err? { return Err(Failed(compiled.error)); }
      MoveTo(entry.after, compiled.value, undoStack + [entry], redoStack[..|redoStack| - 1]);
      AnswerShowsFresh(services, old(Now()), Redo);
      var view := TakeSnapshot();
      return Ok(view);
    }

    method LoadFrom(original: Result<Document, Error>) returns (r: Result<View, Refusal>)
      modifies this
      ensures Now() == After(services, old(Now()), LoadOriginal(original))
      ensures Reports(services, old(Now()), LoadOriginal(original), Now(), r)
    {
      hide Compile, ShownView, Sound, MovedTo;
      if original.Err? { return Err(Failed(original.error)); }
      var rebased := original.value.(revisionBase := document.revisionBase);
      var compiled := Compile(services, rebased, storedFindings);
      if compiled.Err? { return Err(Failed(compiled.error)); }
      MoveTo(rebased, compiled.value, undoStack + [History(document, rebased)], []);
      AnswerShowsFresh(services, old(Now()), LoadOriginal(original));
      var view := TakeSnapshot();
      return Ok(view);
    }

    method CommitTo(allowBlocking: bool, saved: bool) returns (r: Result<View, Refusal>)
      modifies this
      ensures Now() == After(services, old(Now()), Commit(allowBlocking, saved))
      ensures Reports(services, old(Now()), Commit(allowBlocking, saved), Now(), r)
    {
      hide MergedFindings, Count, ShownView, Sound, Rebased;
      var committed := MergePersistentSourceFindings(services, storedFindings, replay.findings, document);
      var blocking := Count(committed, true);
      var canPromote := authority == Quarantine && blocking == 0;
      if |undoStack| == 0 && !canPromote && authority != Superseded { return Err(NothingToSave); }
      if blocking > 0 && !allowBlocking { return Err(StillBlocking); }
      if authority == Superseded && snapshotId.None? { return Err(NoSnapshotId); }
      if !saved { return Err(NotSaved); }
      Rebase(committed, if blocking > 0 then Quarantine else Staging);
      AnswerShowsFresh(services, old(Now()), Commit(allowBlocking, saved));
      var view := TakeSnapshot();
      return Ok(view);
    }

    method Rebase(committed: seq<StoredFinding>, target: Authority)
      modifies this
      ensures Now() == Rebased(old(Now()), committed, target)
    {
      var next := prepared.(storedFindings := prepared.findings);
      baseDocumentHash, authority, prepared := prepared.draftDocumentHash, target, next;
      snapshotId, baseCurrentContentHash := None, None;
      storedFindings := committed;
      undoStack, redoStack := [], [];
      sessionVersion := sessionVersion + 1;
    }
  }
}
