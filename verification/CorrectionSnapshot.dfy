/** What a correction session shows of its ledger, and which stored findings it keeps. */
module CorrectionSnapshot {
  import opened Wrappers
  import opened GameDocument

  datatype Lifecycle = Persistent | WhileEventUnresolved | Recomputed

  datatype StoredFinding = StoredFinding(
    producer: string, lifecycle: Lifecycle, code: string, category: string, blocking: bool, message: string,
    eventId: Option<string>, endpoint: Option<string>, gameId: Option<string>, eventSequence: Option<nat>,
    recordIdentity: Option<string>, details: Option<seq<Detail>>)

  datatype ShownFinding = ShownFinding(
    code: string, category: string, blocking: bool, message: string, gameId: string, eventId: Option<string>,
    eventSequence: Option<nat>, recordIdentity: Option<string>, details: seq<Detail>)

  datatype Prepared = Prepared(
    draftDocumentHash: string, draftDocument: Document, storedFindings: seq<ShownFinding>, findings: seq<ShownFinding>,
    eventContexts: string, batters: seq<StatLine>, pitchers: seq<StatLine>, blockingCount: nat, warningCount: nat)

  /** The compiler, the document hash, the canonical text of a finding, and the views of a ledger and a compile. */
  datatype Services = Services(
    env: Environment, hash: Document -> string, key: StoredFinding -> string,
    gameId: Document -> string, contexts: Replay -> string)

  // ---- Merging stored and compiled findings -----------------------------------------------------

  predicate Retained(finding: StoredFinding, d: Document) {
    match finding.lifecycle
    case Persistent => true
    case WhileEventUnresolved => finding.eventId.Some? && Unresolved(d.events, finding.eventId.value)
    case Recomputed => false
  }

  predicate Unresolved(events: seq<RelayEvent>, id: string) {
    exists i :: 0 <= i < |events| && events[i].identity.eventId == id
      && events[i].payload.OtherPayload? && events[i].payload.kind == "unresolved"
  }

  function Kept(stored: seq<StoredFinding>, d: Document): seq<StoredFinding> {
    if stored == [] then []
    else Kept(stored[..|stored| - 1], d) + if Retained(stored[|stored| - 1], d) then [stored[|stored| - 1]] else []
  }

  function FromCompiler(f: Finding): StoredFinding {
    StoredFinding("compiler", Recomputed, f.code, f.category, f.blocking, f.message, f.eventId, None, None,
      f.eventSequence, f.recordIdentity, if f.details == [] then None else Some(f.details))
  }

  function Compiled(current: seq<Finding>): (r: seq<StoredFinding>)
    ensures |r| == |current|
    ensures forall i :: 0 <= i < |r| ==> r[i].lifecycle == Recomputed
  {
    seq(|current|, i requires 0 <= i < |current| => FromCompiler(current[i]))
  }

  function Keys(key: StoredFinding -> string, findings: seq<StoredFinding>): set<string> {
    set f | f in findings :: key(f)
  }

  /** The first finding of every key, in order. */
  function Deduplicated(key: StoredFinding -> string, findings: seq<StoredFinding>): seq<StoredFinding> {
    if findings == [] then [] else
    var before, last := findings[..|findings| - 1], findings[|findings| - 1];
    Deduplicated(key, before) + if key(last) in Keys(key, before) then [] else [last]
  }

  lemma {:induction false} KeysConcat(key: StoredFinding -> string, a: seq<StoredFinding>, b: seq<StoredFinding>)
    ensures Keys(key, a + b) == Keys(key, a) + Keys(key, b)
  {
    forall k | k in Keys(key, a) + Keys(key, b) ensures k in Keys(key, a + b) {
      var f :| (f in a || f in b) && key(f) == k;
      assert f in a + b;
    }
  }

  lemma {:induction false} KeysOne(key: StoredFinding -> string, f: StoredFinding)
    ensures Keys(key, [f]) == {key(f)}
  {
    assert f in [f];
  }

  lemma {:induction false} OneMore(key: StoredFinding -> string, all: seq<StoredFinding>, i: nat)
    requires i < |all|
    ensures Keys(key, all[..i + 1]) == Keys(key, all[..i]) + {key(all[i])}
    ensures Deduplicated(key, all[..i + 1]) ==
      Deduplicated(key, all[..i]) + if key(all[i]) in Keys(key, all[..i]) then [] else [all[i]]
  {
    hide Keys;
    assert all[..i + 1][..i] == all[..i] && all[..i + 1] == all[..i] + [all[i]];
    KeysConcat(key, all[..i], [all[i]]);
    KeysOne(key, all[i]);
  }

  function MergedFindings(
      services: Services, stored: seq<StoredFinding>, current: seq<Finding>, d: Document): seq<StoredFinding> {
    Deduplicated(services.key, Kept(stored, d) + Compiled(current))
  }

  lemma {:induction false} NoKeys(key: StoredFinding -> string)
    ensures Keys(key, []) == {} && Deduplicated(key, []) == []
  {
  }

  /** The filter with its growing set of keys. */
  method MergePersistentSourceFindings(services: Services, stored: seq<StoredFinding>, current: seq<Finding>, d: Document)
    returns (findings: seq<StoredFinding>)
    ensures findings == MergedFindings(services, stored, current, d)
  {
    hide Keys, Deduplicated;
    var all := Kept(stored, d) + Compiled(current);
    NoKeys(services.key);
    var seen: set<string> := {};
    findings := [];
    for i := 0 to |all|
      invariant findings == Deduplicated(services.key, all[..i])
      invariant seen == Keys(services.key, all[..i])
    {
      OneMore(services.key, all, i);
      var key := services.key(all[i]);
      if key !in seen {
        findings := findings + [all[i]];
      }
      seen := seen + {key};
    }
    assert all[..|all|] == all;
  }

  // ---- Merging is idempotent --------------------------------------------------------------------

  lemma {:induction false} SameKeys(key: StoredFinding -> string, findings: seq<StoredFinding>)
    ensures Keys(key, Deduplicated(key, findings)) == Keys(key, findings)
  {
    if findings != [] {
      var before, last := findings[..|findings| - 1], findings[|findings| - 1];
      hide Keys;
      SameKeys(key, before);
      assert findings == before + [last];
      KeysConcat(key, before, [last]);
      KeysOne(key, last);
      KeysConcat(key, Deduplicated(key, before), [last]);
    }
  }

  /** The findings of `more` whose keys neither `seen` nor an earlier one has. */
  function Fresh(key: StoredFinding -> string, seen: seq<StoredFinding>, more: seq<StoredFinding>): seq<StoredFinding> {
    if more == [] then [] else
    var before, last := more[..|more| - 1], more[|more| - 1];
    Fresh(key, seen, before) + if key(last) in Keys(key, seen + before) then [] else [last]
  }

  lemma {:induction false} DeduplicatedConcat(key: StoredFinding -> string, a: seq<StoredFinding>, b: seq<StoredFinding>)
    ensures Deduplicated(key, a + b) == Deduplicated(key, a) + Fresh(key, a, b)
  {
    if b == [] {
      assert a + b == a;
    } else {
      var before := b[..|b| - 1];
      assert (a + b)[..|a + b| - 1] == a + before;
      DeduplicatedConcat(key, a, before);
    }
  }

  lemma {:induction false} FreshOnlyNeedsKeys(
      key: StoredFinding -> string, a: seq<StoredFinding>, c: seq<StoredFinding>, b: seq<StoredFinding>)
    requires Keys(key, a) == Keys(key, c)
    ensures Fresh(key, a, b) == Fresh(key, c, b)
  {
    if b != [] {
      var before := b[..|b| - 1];
      FreshOnlyNeedsKeys(key, a, c, before);
      KeysConcat(key, a, before);
      KeysConcat(key, c, before);
    }
  }

  lemma {:induction false} DeduplicatedTwice(key: StoredFinding -> string, a: seq<StoredFinding>)
    ensures Deduplicated(key, Deduplicated(key, a)) == Deduplicated(key, a)
  {
    if a != [] {
      hide Keys;
      var before, last := a[..|a| - 1], a[|a| - 1];
      DeduplicatedTwice(key, before);
      SameKeys(key, before);
      var once := Deduplicated(key, before);
      if key(last) in Keys(key, before) {
        assert Deduplicated(key, a) == once;
      } else {
        assert Deduplicated(key, a) == once + [last];
        assert (once + [last])[..|once|] == once && (once + [last])[|once|] == last;
        assert Deduplicated(key, once + [last]) == Deduplicated(key, once) + [last];
      }
    }
  }

  lemma {:induction false} KeptConcat(a: seq<StoredFinding>, b: seq<StoredFinding>, d: Document)
    ensures Kept(a + b, d) == Kept(a, d) + Kept(b, d)
  {
    if b == [] {
      assert a + b == a;
    } else {
      assert (a + b)[..|a + b| - 1] == a + b[..|b| - 1];
      KeptConcat(a, b[..|b| - 1], d);
    }
  }

  lemma {:induction false} KeptAreRetained(stored: seq<StoredFinding>, d: Document)
    ensures forall f :: f in Kept(stored, d) ==> Retained(f, d)
  {
    if stored != [] { KeptAreRetained(stored[..|stored| - 1], d); }
  }

  lemma {:induction false} KeepsAll(findings: seq<StoredFinding>, d: Document)
    requires forall f :: f in findings ==> Retained(f, d)
    ensures Kept(findings, d) == findings
  {
    if findings != [] {
      KeepsAll(findings[..|findings| - 1], d);
      assert findings == findings[..|findings| - 1] + [findings[|findings| - 1]];
    }
  }

  lemma {:induction false} KeepsNone(findings: seq<StoredFinding>, d: Document)
    requires forall f :: f in findings ==> f.lifecycle == Recomputed
    ensures Kept(findings, d) == []
  {
    if findings != [] { KeepsNone(findings[..|findings| - 1], d); }
  }

  lemma {:induction false} DeduplicatedWithin(key: StoredFinding -> string, a: seq<StoredFinding>)
    ensures forall f :: f in Deduplicated(key, a) ==> f in a
  {
    if a != [] { DeduplicatedWithin(key, a[..|a| - 1]); }
  }

  lemma {:induction false} FreshWithin(key: StoredFinding -> string, a: seq<StoredFinding>, b: seq<StoredFinding>)
    ensures forall f :: f in Fresh(key, a, b) ==> f in b
  {
    if b != [] { FreshWithin(key, a, b[..|b| - 1]); }
  }

  /** Merging again on the same ledger changes nothing. */
  lemma {:induction false} MergeIsIdempotent(
      services: Services, stored: seq<StoredFinding>, current: seq<Finding>, d: Document)
    ensures MergedFindings(services, MergedFindings(services, stored, current, d), current, d)
      == MergedFindings(services, stored, current, d)
  {
    hide Kept, Deduplicated, Fresh, Keys, Retained;
    var key, kept, compiled := services.key, Kept(stored, d), Compiled(current);
    var once := Deduplicated(key, kept);
    DeduplicatedConcat(key, kept, compiled);
    KeptConcat(once, Fresh(key, kept, compiled), d);
    KeptAreRetained(stored, d);
    DeduplicatedWithin(key, kept);
    KeepsAll(once, d);
    FreshWithin(key, kept, compiled);
    KeepsNone(Fresh(key, kept, compiled), d);
    DeduplicatedConcat(key, once, compiled);
    DeduplicatedTwice(key, kept);
    SameKeys(key, kept);
    FreshOnlyNeedsKeys(key, kept, once, compiled);
    assert Kept(MergedFindings(services, stored, current, d), d) == once;
  }

  // ---- Which findings the merge holds -----------------------------------------------------------

  /** A stored finding outlives a recomputation: always, or while its row is unresolved. */
  ghost predicate Outlives(finding: StoredFinding, d: Document) {
    || finding.lifecycle == Persistent
    || (finding.lifecycle == WhileEventUnresolved
        && exists i :: 0 <= i < |d.events| && finding.eventId == Some(d.events[i].identity.eventId)
             && d.events[i].payload.OtherPayload? && d.events[i].payload.kind == "unresolved")
  }

  /** The finding as the compiler reports it. */
  ghost predicate ReportedBy(finding: StoredFinding, f: Finding) {
    && finding.producer == "compiler" && finding.lifecycle == Recomputed
    && finding.code == f.code && finding.category == f.category && finding.blocking == f.blocking
    && finding.message == f.message && finding.eventId == f.eventId && finding.eventSequence == f.eventSequence
    && finding.recordIdentity == f.recordIdentity && finding.endpoint.None? && finding.gameId.None?
    && (finding.details == None <==> f.details == []) && (f.details != [] ==> finding.details == Some(f.details))
  }

  ghost predicate HasKey(key: StoredFinding -> string, findings: seq<StoredFinding>, k: string) {
    exists j :: 0 <= j < |findings| && key(findings[j]) == k
  }

  lemma {:induction false} RetainedOutlives(finding: StoredFinding, d: Document)
    ensures Retained(finding, d) <==> Outlives(finding, d)
  {
  }

  lemma {:induction false} KeptExactly(stored: seq<StoredFinding>, d: Document)
    ensures forall f :: f in Kept(stored, d) <==> f in stored && Outlives(f, d)
  {
    hide Retained, Outlives;
    if stored != [] {
      var n := |stored| - 1;
      KeptExactly(stored[..n], d);
      RetainedOutlives(stored[n], d);
      assert stored == stored[..n] + [stored[n]];
    }
  }

  lemma {:induction false} DistinctlyKeyed(key: StoredFinding -> string, findings: seq<StoredFinding>)
    ensures var once := Deduplicated(key, findings);
      forall i, j :: 0 <= i < j < |once| ==> key(once[i]) != key(once[j])
  {
    if findings != [] {
      var before, last := findings[..|findings| - 1], findings[|findings| - 1];
      DistinctlyKeyed(key, before);
      SameKeys(key, before);
      var once := Deduplicated(key, before);
      if key(last) !in Keys(key, before) {
        forall i | 0 <= i < |once| ensures key(once[i]) != key(last) { assert once[i] in once; }
      }
    }
  }

  lemma {:induction false} KeyInside(key: StoredFinding -> string, findings: seq<StoredFinding>, k: string)
    ensures k in Keys(key, findings) <==> HasKey(key, findings, k)
  {
    if j :| 0 <= j < |findings| && key(findings[j]) == k { assert findings[j] in findings; }
  }

  /** Nothing that outlives the recomputation is lost, nothing compiled is lost, and nothing else appears. */
  lemma {:induction false} MergeHoldsExactly(
      services: Services, stored: seq<StoredFinding>, current: seq<Finding>, d: Document)
    ensures var merged := MergedFindings(services, stored, current, d);
      && (forall i :: 0 <= i < |stored| && Outlives(stored[i], d) ==> HasKey(services.key, merged, services.key(stored[i])))
      && (forall i, f :: 0 <= i < |current| && ReportedBy(f, current[i]) ==> HasKey(services.key, merged, services.key(f)))
      && (forall j :: 0 <= j < |merged| ==>
            (merged[j] in stored && Outlives(merged[j], d)) || exists i :: 0 <= i < |current| && ReportedBy(merged[j], current[i]))
      && (forall i, j :: 0 <= i < j < |merged| ==> services.key(merged[i]) != services.key(merged[j]))
  {
    hide Kept, Deduplicated, Outlives, Keys, HasKey;
    var key, all := services.key, Kept(stored, d) + Compiled(current);
    var merged := MergedFindings(services, stored, current, d);
    KeptExactly(stored, d);
    SameKeys(key, all);
    DistinctlyKeyed(key, all);
    DeduplicatedWithin(key, all);
    forall f | f in all ensures HasKey(key, merged, key(f)) {
      InKeys(key, all, f);
      KeyInside(key, merged, key(f));
    }
    forall i, f | 0 <= i < |current| && ReportedBy(f, current[i]) ensures HasKey(key, merged, key(f)) {
      assert f == Compiled(current)[i] && f in all;
    }
    forall j | 0 <= j < |merged|
      ensures (merged[j] in stored && Outlives(merged[j], d)) || exists i :: 0 <= i < |current| && ReportedBy(merged[j], current[i])
    {
      assert merged[j] in all;
      if merged[j] !in Kept(stored, d) {
        var i :| 0 <= i < |current| && Compiled(current)[i] == merged[j];
        assert ReportedBy(merged[j], current[i]);
      }
    }
  }

  lemma {:induction false} InKeys(key: StoredFinding -> string, findings: seq<StoredFinding>, f: StoredFinding)
    requires f in findings
    ensures key(f) in Keys(key, findings)
  {
  }

  /** Stored findings come first. */
  lemma {:induction false} StoredComeFirst(
      services: Services, stored: seq<StoredFinding>, current: seq<Finding>, d: Document, i: nat, j: nat)
    requires i < j < |MergedFindings(services, stored, current, d)|
    requires MergedFindings(services, stored, current, d)[i].lifecycle == Recomputed
    ensures MergedFindings(services, stored, current, d)[j].lifecycle == Recomputed
  {
    hide Kept, Deduplicated, Fresh;
    var key, kept, compiled := services.key, Kept(stored, d), Compiled(current);
    DeduplicatedConcat(key, kept, compiled);
    DeduplicatedWithin(key, kept);
    KeptAreRetained(stored, d);
    FreshWithin(key, kept, compiled);
    var once, added := Deduplicated(key, kept), Fresh(key, kept, compiled);
    forall k | 0 <= k < |once| ensures once[k].lifecycle != Recomputed { assert once[k] in once; }
    assert added[j - |once|] in added;
  }

  // ---- The prepared view ------------------------------------------------------------------------

  function Shown(gameId: string, f: StoredFinding): ShownFinding {
    ShownFinding(f.code, f.category, f.blocking, f.message, if f.gameId.Some? then f.gameId.value else gameId,
      f.eventId, f.eventSequence, f.recordIdentity,
      (if f.endpoint.Some? then [Detail("endpoint", f.endpoint.value)] else [])
      + (if f.details.Some? then f.details.value else []))
  }

  function AllShown(gameId: string, findings: seq<StoredFinding>): (r: seq<ShownFinding>)
    ensures |r| == |findings|
  {
    seq(|findings|, i requires 0 <= i < |findings| => Shown(gameId, findings[i]))
  }

  function Count(findings: seq<StoredFinding>, blocking: bool): nat {
    if findings == [] then 0 else Count(findings[1..], blocking) + if findings[0].blocking == blocking then 1 else 0
  }

  ghost function Where(findings: seq<StoredFinding>, blocking: bool): set<nat> {
    set i: nat | i < |findings| && findings[i].blocking == blocking
  }

  lemma {:induction false} InSuffix(findings: seq<StoredFinding>, blocking: bool, i: nat)
    requires findings != []
    ensures i in Where(findings, blocking) <==>
      if i == 0 then findings[0].blocking == blocking else i - 1 in Where(findings[1..], blocking)
  {
  }

  lemma {:induction false} SuffixWhere(findings: seq<StoredFinding>, blocking: bool)
    requires findings != []
    ensures |Where(findings, blocking)| == |Where(findings[1..], blocking)| + if findings[0].blocking == blocking then 1 else 0
  {
    hide Where;
    var all, rest := Where(findings, blocking), Where(findings[1..], blocking);
    var moved := set i | i in rest :: i + 1;
    SameSize(rest, moved);
    forall i ensures i in all <==> i in moved || (i == 0 && findings[0].blocking == blocking) {
      InSuffix(findings, blocking, i);
    }
    if findings[0].blocking == blocking { assert all == moved + {0}; } else { assert all == moved; }
  }

  lemma {:induction false} SameSize(s: set<nat>, moved: set<nat>)
    requires moved == set i | i in s :: i + 1
    ensures |moved| == |s|
    decreases |s|
  {
    if s != {} {
      var x :| x in s;
      var fewer := set i | i in s - {x} :: i + 1;
      SameSize(s - {x}, fewer);
      forall i | i in moved ensures i in fewer + {x + 1} {
        var y :| y in s && i == y + 1;
        assert y == x || y in s - {x};
      }
      assert x + 1 in moved && x + 1 !in fewer;
      assert s == s - {x} + {x} && moved == fewer + {x + 1};
    }
  }

  /** How many findings block, and how many do not. */
  lemma {:induction false} CountIsSize(findings: seq<StoredFinding>, blocking: bool)
    ensures Count(findings, blocking) == |Where(findings, blocking)|
  {
    hide Where;
    if findings == [] {
      NoneWhere(findings, blocking);
    } else {
      CountIsSize(findings[1..], blocking);
      SuffixWhere(findings, blocking);
    }
  }

  lemma {:induction false} NoneWhere(findings: seq<StoredFinding>, blocking: bool)
    requires findings == []
    ensures Where(findings, blocking) == {}
  {
  }

  lemma {:induction false} CountPositive(findings: seq<StoredFinding>, blocking: bool)
    ensures Count(findings, blocking) > 0 <==> exists i :: 0 <= i < |findings| && findings[i].blocking == blocking
  {
    CountIsSize(findings, blocking);
    if i :| 0 <= i < |findings| && findings[i].blocking == blocking {
      assert i in Where(findings, blocking);
    } else {
      assert Where(findings, blocking) == {};
    }
  }

  function Prepare(services: Services, d: Document, replay: Replay, stored: seq<StoredFinding>): Result<Prepared, Error> {
    var current := MergedFindings(services, stored, replay.findings, d);
    match Decode(services.env, d)
    case Err(e) => Err(e)
    case Ok(draft) =>
      Ok(Prepared(services.hash(d), draft, AllShown(services.gameId(d), stored), AllShown(services.gameId(d), current),
        services.contexts(replay), replay.batterLines, replay.pitcherLines, Count(current, true), Count(current, false)))
  }

  /** The finding as it is shown: its own game or the document's, and its endpoint before its details. */
  ghost predicate ShownAs(shown: ShownFinding, f: StoredFinding, gameId: string) {
    && shown.code == f.code && shown.category == f.category && shown.blocking == f.blocking && shown.message == f.message
    && shown.eventId == f.eventId && shown.eventSequence == f.eventSequence && shown.recordIdentity == f.recordIdentity
    && (f.gameId.Some? ==> shown.gameId == f.gameId.value) && (f.gameId.None? ==> shown.gameId == gameId)
    && (f.endpoint.None? && f.details.None? ==> shown.details == [])
    && (f.endpoint.None? && f.details.Some? ==> shown.details == f.details.value)
    && (f.endpoint.Some? && f.details.None? ==> shown.details == [Detail("endpoint", f.endpoint.value)])
    && (f.endpoint.Some? && f.details.Some? ==> shown.details == [Detail("endpoint", f.endpoint.value)] + f.details.value)
  }

  ghost predicate AllShownAs(shown: seq<ShownFinding>, findings: seq<StoredFinding>, gameId: string) {
    |shown| == |findings| && forall i :: 0 <= i < |findings| ==> ShownAs(shown[i], findings[i], gameId)
  }

  /** A view shows the ledger, its hash, both lists of findings in order and how many of the current ones block. */
  lemma {:induction false} PreparedExactly(services: Services, d: Document, replay: Replay, stored: seq<StoredFinding>)
    ensures Prepare(services, d, replay, stored).Ok? <==> Decode(services.env, d).Ok?
    ensures Prepare(services, d, replay, stored).Ok? ==>
      var prepared := Prepare(services, d, replay, stored).value;
      var merged := MergedFindings(services, stored, replay.findings, d);
      && prepared.draftDocument == d && prepared.draftDocumentHash == services.hash(d)
      && AllShownAs(prepared.storedFindings, stored, services.gameId(d))
      && AllShownAs(prepared.findings, merged, services.gameId(d))
      && prepared.eventContexts == services.contexts(replay)
      && prepared.batters == replay.batterLines && prepared.pitchers == replay.pitcherLines
      && prepared.blockingCount == |Where(merged, true)| && prepared.warningCount == |Where(merged, false)|
  {
    hide MergedFindings, Count, Where;
    var merged := MergedFindings(services, stored, replay.findings, d);
    CountIsSize(merged, true);
    CountIsSize(merged, false);
    ShownExactly(stored, services.gameId(d));
    ShownExactly(merged, services.gameId(d));
  }

  lemma {:induction false} ShownExactly(findings: seq<StoredFinding>, gameId: string)
    ensures AllShownAs(AllShown(gameId, findings), findings, gameId)
  {
  }

  /** After storing the current findings, showing them as the stored ones is all a new preparation would change. */
  lemma {:induction false} CommitPreparation(services: Services, d: Document, replay: Replay, stored: seq<StoredFinding>)
    requires Prepare(services, d, replay, stored).Ok?
    ensures var prepared := Prepare(services, d, replay, stored).value;
      Prepare(services, d, replay, MergedFindings(services, stored, replay.findings, d))
        == Ok(prepared.(storedFindings := prepared.findings))
  {
    MergeIsIdempotent(services, stored, replay.findings, d);
  }
}
