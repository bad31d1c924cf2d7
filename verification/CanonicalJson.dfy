/** Canonical serialisation of a graph of runtime values. */
module CanonicalJson {
  import opened Wrappers
  import opened JsonText

  // ---- Runtime values ---------------------------------------------------------------------------

  /** A double: `Finite` excludes minus zero. */
  datatype Number = NotANumber | Infinite | MinusZero | Finite(r: Double)

  /** Objects and arrays are shared by reference; `Opaque` is a function, symbol or big integer. */
  datatype Value = Null | Undefined | Opaque | Bool(b: bool) | Str(s: Text) | Num(n: Number) | Ref(addr: nat)

  datatype Entry = Entry(key: Text, value: Value)

  /** An array may have holes; an object lists its own enumerable keys, all different. */
  datatype Node =
    | ArrayNode(symbols: bool, items: seq<Option<Value>>)
    | ObjectNode(symbols: bool, plain: bool, entries: seq<Entry>)

  type Heap = map<nat, Node>

  datatype Segment = Index(i: nat) | Key(key: Text)

  type Path = seq<Segment>

  datatype ErrorKind =
    | NotSerializable | NotFinite | UnsafeInteger | Cycle | SymbolKey | Hole | NotPlain | DuplicateKey | UndefinedValue

  datatype Error = Error(kind: ErrorKind, path: Path)

  /** The runtime's normalisation to NFC and its number printing. */
  datatype Runtime = Runtime(nfc: Text -> Text, numerals: Numerals)

  ghost predicate ValidRuntime(rt: Runtime) {
    && (forall s: Text :: rt.nfc(rt.nfc(s)) == rt.nfc(s))
    && ValidNumerals(rt.numerals) && rt.numerals.show(ZERO) == [0x30]
  }

  lemma {:induction false} RuntimeExists()
    ensures ValidRuntime(Runtime((s: Text) => s, Numerals(ShowBinary, ReadBinary)))
  {
    NumeralsExist();
  }

  predicate InHeap(heap: Heap, v: Value) {
    v.Ref? ==> v.addr in heap
  }

  ghost predicate ClosedHeap(heap: Heap) {
    forall a :: a in heap ==> ClosedNode(heap, heap[a])
  }

  ghost predicate ClosedNode(heap: Heap, node: Node) {
    match node
    case ArrayNode(_, items) => forall i :: 0 <= i < |items| ==> items[i].Some? ==> InHeap(heap, items[i].value)
    case ObjectNode(_, _, entries) => forall i :: 0 <= i < |entries| ==> InHeap(heap, entries[i].value)
  }

  // ---- Key order --------------------------------------------------------------------------------

  /** The order of UTF-16 code units, section 3.2.3 of RFC 8785. */
  predicate Less(a: Text, b: Text) {
    if b == [] then false else if a == [] then true else a[0] < b[0] || (a[0] == b[0] && Less(a[1..], b[1..]))
  }

  lemma {:induction false} LessIrreflexive(a: Text)
    ensures !Less(a, a)
  {
    if a != [] { LessIrreflexive(a[1..]); }
  }

  lemma {:induction false} LessTransitive(a: Text, b: Text, c: Text)
    requires Less(a, b) && Less(b, c)
    ensures Less(a, c)
  {
    if a != [] && a[0] == b[0] == c[0] { LessTransitive(a[1..], b[1..], c[1..]); }
  }

  lemma {:induction false} LessTotal(a: Text, b: Text)
    ensures Less(a, b) || a == b || Less(b, a)
  {
    if a != [] && b != [] && a[0] == b[0] {
      LessTotal(a[1..], b[1..]);
      assert a == [a[0]] + a[1..] && b == [b[0]] + b[1..];
    }
  }

  /** `a` is a proper prefix of `b`, or has the smaller code unit where they first differ. */
  ghost predicate Precedes(a: Text, b: Text) {
    exists d :: 0 <= d <= |a| && d <= |b| && FirstDifference(a, b, d)
  }

  ghost predicate FirstDifference(a: Text, b: Text, d: nat)
    requires d <= |a| && d <= |b|
  {
    a[..d] == b[..d] && ((d == |a| < |b|) || (d < |a| && d < |b| && a[d] < b[d]))
  }

  lemma {:induction false} FirstUnitsDiffer(a: Text, b: Text)
    requires a != [] && b != [] && a[0] != b[0]
    ensures Precedes(a, b) <==> a[0] < b[0]
  {
    forall d | 0 < d <= |a| && d <= |b| ensures a[..d] != b[..d] {
      assert a[..d][0] == a[0] && b[..d][0] == b[0];
    }
    if a[0] < b[0] { assert FirstDifference(a, b, 0); }
  }

  lemma {:induction false} LessIsPrecedes(a: Text, b: Text)
    ensures Less(a, b) <==> Precedes(a, b)
  {
    if a != [] && b != [] && a[0] == b[0] {
      LessIsPrecedes(a[1..], b[1..]);
      if d :| 0 <= d <= |a[1..]| && d <= |b[1..]| && FirstDifference(a[1..], b[1..], d) {
        assert a[..d + 1] == [a[0]] + a[1..][..d] && b[..d + 1] == [b[0]] + b[1..][..d];
        assert FirstDifference(a, b, d + 1);
      }
      if d :| 0 <= d <= |a| && d <= |b| && FirstDifference(a, b, d) {
        assert a[1..][..d - 1] == a[..d][1..] && b[1..][..d - 1] == b[..d][1..];
        assert FirstDifference(a[1..], b[1..], d - 1);
      }
    } else if a != [] && b != [] {
      FirstUnitsDiffer(a, b);
    } else if b != [] {
      assert FirstDifference(a, b, 0);
    }
  }

  function CompareCanonicalStrings(left: Text, right: Text, rt: Runtime): int {
    if Less(rt.nfc(left), rt.nfc(right)) then -1 else if Less(rt.nfc(right), rt.nfc(left)) then 1 else 0
  }

  /** The comparison is antisymmetric and calls two strings equal exactly when their NFC forms are. */
  lemma {:induction false} CompareIsOrder(left: Text, right: Text, rt: Runtime)
    ensures CompareCanonicalStrings(left, right, rt) == -CompareCanonicalStrings(right, left, rt)
    ensures CompareCanonicalStrings(left, right, rt) == 0 <==> rt.nfc(left) == rt.nfc(right)
  {
    var a, b := rt.nfc(left), rt.nfc(right);
    LessTotal(a, b);
    LessIrreflexive(a);
    if Less(a, b) && Less(b, a) { LessTransitive(a, b, a); }
  }

  /** The sign tells which NFC form comes first by code units. */
  lemma {:induction false} CompareBySign(left: Text, right: Text, rt: Runtime)
    ensures CompareCanonicalStrings(left, right, rt) < 0 <==> Precedes(rt.nfc(left), rt.nfc(right))
    ensures CompareCanonicalStrings(left, right, rt) > 0 <==> Precedes(rt.nfc(right), rt.nfc(left))
  {
    hide Precedes;
    var a, b := rt.nfc(left), rt.nfc(right);
    LessIsPrecedes(a, b);
    LessIsPrecedes(b, a);
    if Less(a, b) && Less(b, a) {
      LessTransitive(a, b, a);
      LessIrreflexive(a);
    }
  }

  /** A member under its normalised key, with the key it was stored under. */
  datatype Named = Named(key: Text, original: Text, value: Value)

  function Normalized(entries: seq<Entry>, rt: Runtime): (r: seq<Named>)
    ensures |r| == |entries|
    ensures forall i :: 0 <= i < |entries| ==> r[i] == Named(rt.nfc(entries[i].key), entries[i].key, entries[i].value)
  {
    seq(|entries|, i requires 0 <= i < |entries| => Named(rt.nfc(entries[i].key), entries[i].key, entries[i].value))
  }

  predicate DistinctKeys(s: seq<Named>) {
    forall i, j :: 0 <= i < j < |s| ==> s[i].key != s[j].key
  }

  function Insert(x: Named, s: seq<Named>): (r: seq<Named>)
    ensures |r| == |s| + 1 && multiset(r) == multiset(s) + multiset{x}
  {
    if s == [] then [x]
    else if !Less(s[0].key, x.key) then [x] + s
    else
      assert s == [s[0]] + s[1..];
      [s[0]] + Insert(x, s[1..])
  }

  function Sort(s: seq<Named>): (r: seq<Named>)
    ensures |r| == |s| && multiset(r) == multiset(s)
  {
    if s == [] then [] else
      assert s == [s[0]] + s[1..];
      Insert(s[0], Sort(s[1..]))
  }

  ghost predicate Ascending(s: seq<Named>) {
    forall i, j :: 0 <= i < j < |s| ==> Less(s[i].key, s[j].key)
  }

  lemma {:induction false} InsertAscending(x: Named, s: seq<Named>)
    requires Ascending(s) && forall i :: 0 <= i < |s| ==> s[i].key != x.key
    ensures Ascending(Insert(x, s))
  {
    if s != [] {
      LessTotal(s[0].key, x.key);
      if Less(s[0].key, x.key) {
        InsertAscending(x, s[1..]);
        var rest := Insert(x, s[1..]);
        forall i | 0 <= i < |rest| ensures Less(s[0].key, rest[i].key) {
          assert rest[i] in multiset(rest);
          assert rest[i] == x || rest[i] in s[1..];
        }
      } else {
        forall i | 0 <= i < |s| ensures Less(x.key, s[i].key) {
          if i > 0 { LessTransitive(x.key, s[0].key, s[i].key); }
        }
      }
    }
  }

  lemma {:induction false} SortAscending(s: seq<Named>)
    requires DistinctKeys(s)
    ensures Ascending(Sort(s))
  {
    if s != [] {
      SortAscending(s[1..]);
      forall i | 0 <= i < |Sort(s[1..])| ensures Sort(s[1..])[i].key != s[0].key {
        assert Sort(s[1..])[i] in multiset(s[1..]);
      }
      InsertAscending(s[0], Sort(s[1..]));
    }
  }

  lemma {:induction false} AscendingUnique(a: seq<Named>, b: seq<Named>)
    requires Ascending(a) && Ascending(b) && multiset(a) == multiset(b)
    ensures a == b
  {
    assert |multiset(a)| == |a| && |multiset(b)| == |b|;
    if a != [] {
      assert a[0] in multiset(b) && b[0] in multiset(a);
      HeadsEqual(a, b);
      TailMultiset(a, a[0]);
      TailMultiset(b, a[0]);
      SameRemainder(multiset(a), multiset(b), a[0], multiset(a[1..]), multiset(b[1..]));
      AscendingUnique(a[1..], b[1..]);
      assert a == [a[0]] + a[1..] && b == [b[0]] + b[1..];
    }
  }

  lemma {:induction false} TailMultiset<T>(s: seq<T>, x: T)
    requires s != [] && s[0] == x
    ensures multiset(s[1..]) == multiset(s) - multiset{x}
  {
    assert s == [s[0]] + s[1..];
  }

  lemma {:induction false} HeadsEqual(a: seq<Named>, b: seq<Named>)
    requires Ascending(a) && Ascending(b) && a != [] && b != [] && a[0] in b && b[0] in a
    ensures a[0] == b[0]
  {
    if a[0] != b[0] {
      var i :| 0 <= i < |b| && b[i] == a[0];
      var j :| 0 <= j < |a| && a[j] == b[0];
      LessTransitive(a[0].key, b[0].key, a[0].key);
      LessIrreflexive(a[0].key);
      assert false;
    }
  }

  /** The printed order depends only on which members there are. */
  lemma {:induction false} SortIgnoresOrder(a: seq<Named>, b: seq<Named>)
    requires DistinctKeys(a) && DistinctKeys(b) && multiset(a) == multiset(b)
    ensures Sort(a) == Sort(b)
  {
    SortAscending(a);
    SortAscending(b);
    AscendingUnique(Sort(a), Sort(b));
  }

  // ---- The canonical value ----------------------------------------------------------------------

  const MAX_SAFE_INTEGER := 9007199254740991

  predicate IsSafeInteger(d: Double) {
    IsInteger(d) && -MAX_SAFE_INTEGER <= d.mantissa * Pow2(d.exponent) <= MAX_SAFE_INTEGER
  }

  function CanonNumber(n: Number): Result<Double, ErrorKind> {
    match n
    case MinusZero => Ok(ZERO)
    case Finite(r) => if IsInteger(r) && !IsSafeInteger(r) then Err(UnsafeInteger) else Ok(r)
    case _ => Err(NotFinite)
  }

  /** The same number, with plus zero for minus zero; whole numbers only where every neighbour is a number too. */
  lemma {:induction false} NumberExactly(n: Number, x: Double)
    ensures CanonNumber(n) == Ok(x) <==>
      || (n == MinusZero && RealOf(x) == 0.0)
      || (n == Finite(x)
          && (RealOf(x) != RealOf(x).Floor as real || -9007199254740991.0 <= RealOf(x) <= 9007199254740991.0))
    ensures CanonNumber(n) == Err(NotFinite) <==> n == NotANumber || n == Infinite
    ensures CanonNumber(n).Err? ==> CanonNumber(n).error in {NotFinite, UnsafeInteger}
  {
    hide Pow2;
    IntegersHaveNoFraction(x);
    if n == MinusZero && RealOf(x) == 0.0 { SameNumberSameDouble(x, ZERO); }
  }

  /** The canonical value of `v` below the objects in `ancestors`, or the first error met. */
  function Canon(rt: Runtime, heap: Heap, v: Value, ancestors: set<nat>, path: Path): Result<Json, Error>
    requires ClosedHeap(heap) && InHeap(heap, v)
    decreases |heap.Keys - ancestors|, 0, 0
  {
    match v
    case Null => Ok(JNull)
    case Bool(b) => Ok(JBool(b))
    case Str(s) => Ok(JString(rt.nfc(s)))
    case Num(n) => (match CanonNumber(n) case Ok(r) => Ok(JNumber(r)) case Err(kind) => Err(Error(kind, path)))
    case Ref(a) =>
      if a in ancestors then Err(Error(Cycle, path)) else
        assert a in heap.Keys - ancestors;
        assert heap.Keys - (ancestors + {a}) == heap.Keys - ancestors - {a};
        assert ClosedNode(heap, heap[a]);
        CanonNode(rt, heap, heap[a], ancestors + {a}, path)
    case _ => Err(Error(NotSerializable, path))
  }

  function CanonNode(rt: Runtime, heap: Heap, node: Node, ancestors: set<nat>, path: Path): Result<Json, Error>
    requires ClosedHeap(heap) && ClosedNode(heap, node)
    decreases |heap.Keys - ancestors|, 2, 0
  {
    if node.symbols then Err(Error(SymbolKey, path)) else
    match node
    case ArrayNode(_, items) =>
      (match CanonItems(rt, heap, items, 0, ancestors, path) case Ok(js) => Ok(JArray(js)) case Err(e) => Err(e))
    case ObjectNode(_, plain, entries) =>
      if !plain then Err(Error(NotPlain, path)) else
        var named := Normalized(entries, rt);
        if !DistinctKeys(named) then Err(Error(DuplicateKey, path)) else
          SortKeepsClosed(heap, named);
          (match CanonMembers(rt, heap, Sort(named), 0, ancestors, path) case Ok(ms) => Ok(JObject(ms)) case Err(e) => Err(e))
  }

  function CanonItems(
      rt: Runtime, heap: Heap, items: seq<Option<Value>>, k: nat, ancestors: set<nat>,
      path: Path): (r: Result<seq<Json>, Error>)
    requires ClosedHeap(heap) && k <= |items|
    requires forall i :: 0 <= i < |items| ==> items[i].Some? ==> InHeap(heap, items[i].value)
    ensures r.Ok? ==> |r.value| == |items| - k
    decreases |heap.Keys - ancestors|, 1, |items| - k
  {
    if k == |items| then Ok([])
    else if items[k].None? then Err(Error(Hole, path + [Index(k)]))
    else match Canon(rt, heap, items[k].value, ancestors, path + [Index(k)])
      case Err(e) => Err(e)
      case Ok(j) =>
        match CanonItems(rt, heap, items, k + 1, ancestors, path)
        case Err(e) => Err(e)
        case Ok(js) => Ok([j] + js)
  }

  function CanonMembers(
      rt: Runtime, heap: Heap, named: seq<Named>, k: nat, ancestors: set<nat>,
      path: Path): (r: Result<seq<Member>, Error>)
    requires ClosedHeap(heap) && k <= |named| && ClosedNamed(heap, named)
    ensures r.Ok? ==> |r.value| == |named| - k
    decreases |heap.Keys - ancestors|, 1, |named| - k
  {
    if k == |named| then Ok([])
    else if named[k].value == Undefined then Err(Error(UndefinedValue, path + [Key(named[k].original)]))
    else match Canon(rt, heap, named[k].value, ancestors, path + [Key(named[k].original)])
      case Err(e) => Err(e)
      case Ok(j) =>
        match CanonMembers(rt, heap, named, k + 1, ancestors, path)
        case Err(e) => Err(e)
        case Ok(ms) => Ok([Member(named[k].key, j)] + ms)
  }

  ghost predicate ClosedNamed(heap: Heap, named: seq<Named>) {
    forall i :: 0 <= i < |named| ==> InHeap(heap, named[i].value)
  }

  lemma {:induction false} SortKeepsClosed(heap: Heap, named: seq<Named>)
    requires ClosedNamed(heap, named)
    ensures ClosedNamed(heap, Sort(named))
  {
    forall i | 0 <= i < |Sort(named)| ensures InHeap(heap, Sort(named)[i].value) {
      assert Sort(named)[i] in multiset(named);
    }
  }

  /** The text of a value, or its first error. */
  function Stringify(rt: Runtime, heap: Heap, v: Value): Result<Text, Error>
    requires ClosedHeap(heap) && InHeap(heap, v)
  {
    match Canon(rt, heap, v, {}, [])
    case Ok(j) => Ok(Print(j, rt.numerals))
    case Err(e) => Err(e)
  }

  // ---- Which values are accepted ----------------------------------------------------------------

  /** `v` unfolds, without cycles, to a tree whose normal form is `j`. */
  ghost predicate Denotes(rt: Runtime, heap: Heap, v: Value, j: Json)
    decreases j, 1
  {
    match j
    case JNull => v.Null?
    case JBool(b) => v == Bool(b)
    case JString(t) => v.Str? && rt.nfc(v.s) == t
    case JNumber(r) => v.Num? && CanonNumber(v.n) == Ok(r)
    case _ => v.Ref? && v.addr in heap && DenotesNode(rt, heap, heap[v.addr], j)
  }

  ghost predicate DenotesNode(rt: Runtime, heap: Heap, node: Node, j: Json)
    decreases j, 0
  {
    match j
    case JArray(js) =>
      && node.ArrayNode? && !node.symbols && |node.items| == |js|
      && forall i :: 0 <= i < |js| ==> node.items[i].Some? && Denotes(rt, heap, node.items[i].value, js[i])
    case JObject(ms) =>
      && node.ObjectNode? && !node.symbols && node.plain && DistinctKeys(Normalized(node.entries, rt))
      && var named := Sort(Normalized(node.entries, rt));
        && |named| == |ms|
        && forall i :: 0 <= i < |ms| ==> named[i].key == ms[i].key && Denotes(rt, heap, named[i].value, ms[i].value)
    case _ => false
  }

  function Size(j: Json): nat
    decreases j, 1
  {
    match j
    case JArray(items) => 1 + ItemsSize(items)
    case JObject(members) => 1 + MembersSize(members)
    case _ => 1
  }

  function ItemsSize(items: seq<Json>): nat
    decreases items, 0
  {
    if items == [] then 0 else Size(items[0]) + ItemsSize(items[1..])
  }

  function MembersSize(members: seq<Member>): nat
    decreases members, 0
  {
    if members == [] then 0 else Size(members[0].value) + MembersSize(members[1..])
  }

  lemma {:induction false} ItemSmaller(items: seq<Json>, i: nat)
    requires i < |items|
    ensures Size(items[i]) <= ItemsSize(items)
  {
    if i > 0 { ItemSmaller(items[1..], i - 1); }
  }

  lemma {:induction false} MemberSmaller(members: seq<Member>, i: nat)
    requires i < |members|
    ensures Size(members[i].value) <= MembersSize(members)
  {
    if i > 0 { MemberSmaller(members[1..], i - 1); }
  }

  lemma {:induction false} DenotesUnique(rt: Runtime, heap: Heap, v: Value, j: Json, k: Json)
    requires Denotes(rt, heap, v, j) && Denotes(rt, heap, v, k)
    ensures j == k
    decreases j
  {
    match j
    case JArray(js) =>
      forall i | 0 <= i < |js| ensures js[i] == k.items[i] {
        DenotesUnique(rt, heap, heap[v.addr].items[i].value, js[i], k.items[i]);
      }
      assert js == k.items;
    case JObject(ms) =>
      var named := Sort(Normalized(heap[v.addr].entries, rt));
      forall i | 0 <= i < |ms| ensures ms[i] == k.members[i] {
        DenotesUnique(rt, heap, named[i].value, ms[i].value, k.members[i].value);
      }
      assert ms == k.members;
    case _ =>
  }

  lemma {:induction false} CanonSound(rt: Runtime, heap: Heap, v: Value, ancestors: set<nat>, path: Path)
    requires ClosedHeap(heap) && InHeap(heap, v) && Canon(rt, heap, v, ancestors, path).Ok?
    ensures Denotes(rt, heap, v, Canon(rt, heap, v, ancestors, path).value)
    decreases |heap.Keys - ancestors|, 0, 1
  {
    hide CanonNode, CanonNumber, ClosedNode, DenotesNode, ClosedHeap;
    if v.Ref? { CanonRefSound(rt, heap, v.addr, ancestors, path); }
  }

  lemma {:induction false} CanonRefSound(rt: Runtime, heap: Heap, a: nat, ancestors: set<nat>, path: Path)
    requires ClosedHeap(heap) && a in heap && Canon(rt, heap, Ref(a), ancestors, path).Ok?
    ensures Denotes(rt, heap, Ref(a), Canon(rt, heap, Ref(a), ancestors, path).value)
    decreases |heap.Keys - ancestors|, 0, 0
  {
    hide CanonNode, CanonNumber, ClosedNode, DenotesNode;
    assert a in heap.Keys - ancestors;
    assert heap.Keys - (ancestors + {a}) == heap.Keys - ancestors - {a};
    assert ClosedNode(heap, heap[a]);
    CanonNodeSound(rt, heap, heap[a], ancestors + {a}, path);
    OnlyNodes(rt, heap, heap[a], Canon(rt, heap, Ref(a), ancestors, path).value);
  }

  lemma {:induction false} OnlyNodes(rt: Runtime, heap: Heap, node: Node, j: Json)
    requires DenotesNode(rt, heap, node, j)
    ensures j.JArray? || j.JObject?
  {}

  lemma {:induction false} CanonNodeSound(rt: Runtime, heap: Heap, node: Node, ancestors: set<nat>, path: Path)
    requires ClosedHeap(heap) && ClosedNode(heap, node) && CanonNode(rt, heap, node, ancestors, path).Ok?
    ensures DenotesNode(rt, heap, node, CanonNode(rt, heap, node, ancestors, path).value)
    decreases |heap.Keys - ancestors|, 2, 0
  {
    if node.ArrayNode? {
      CanonArraySound(rt, heap, node, ancestors, path);
    } else {
      CanonObjectSound(rt, heap, node, ancestors, path);
    }
  }

  lemma {:induction false} CanonArraySound(rt: Runtime, heap: Heap, node: Node, ancestors: set<nat>, path: Path)
    requires node.ArrayNode?
    requires ClosedHeap(heap) && ClosedNode(heap, node) && CanonNode(rt, heap, node, ancestors, path).Ok?
    ensures DenotesNode(rt, heap, node, CanonNode(rt, heap, node, ancestors, path).value)
    decreases |heap.Keys - ancestors|, 1, |node.items| + 1
  {
    hide CanonItems, Denotes;
    CanonItemsSound(rt, heap, node.items, 0, ancestors, path);
  }

  lemma {:induction false} CanonObjectSound(rt: Runtime, heap: Heap, node: Node, ancestors: set<nat>, path: Path)
    requires node.ObjectNode?
    requires ClosedHeap(heap) && ClosedNode(heap, node) && CanonNode(rt, heap, node, ancestors, path).Ok?
    ensures DenotesNode(rt, heap, node, CanonNode(rt, heap, node, ancestors, path).value)
    decreases |heap.Keys - ancestors|, 1, |node.entries| + 1
  {
    hide CanonMembers, Sort, Normalized, DistinctKeys, Denotes;
    SortKeepsClosed(heap, Normalized(node.entries, rt));
    CanonMembersSound(rt, heap, Sort(Normalized(node.entries, rt)), 0, ancestors, path);
  }

  lemma {:induction false} CanonItemsSound(
      rt: Runtime, heap: Heap, items: seq<Option<Value>>, k: nat, ancestors: set<nat>, path: Path)
    requires ClosedHeap(heap) && k <= |items|
    requires forall i :: 0 <= i < |items| ==> items[i].Some? ==> InHeap(heap, items[i].value)
    requires CanonItems(rt, heap, items, k, ancestors, path).Ok?
    ensures var js := CanonItems(rt, heap, items, k, ancestors, path).value;
      forall i :: k <= i < |items| ==> items[i].Some? && Denotes(rt, heap, items[i].value, js[i - k])
    decreases |heap.Keys - ancestors|, 1, |items| - k
  {
    if k < |items| {
      CanonSound(rt, heap, items[k].value, ancestors, path + [Index(k)]);
      CanonItemsSound(rt, heap, items, k + 1, ancestors, path);
    }
  }

  lemma {:induction false} CanonMembersSound(
      rt: Runtime, heap: Heap, named: seq<Named>, k: nat, ancestors: set<nat>, path: Path)
    requires ClosedHeap(heap) && k <= |named| && ClosedNamed(heap, named)
    requires CanonMembers(rt, heap, named, k, ancestors, path).Ok?
    ensures var ms := CanonMembers(rt, heap, named, k, ancestors, path).value;
      forall i :: k <= i < |named| ==> named[i].key == ms[i - k].key && Denotes(rt, heap, named[i].value, ms[i - k].value)
    decreases |heap.Keys - ancestors|, 1, |named| - k
  {
    if k < |named| {
      CanonSound(rt, heap, named[k].value, ancestors, path + [Key(named[k].original)]);
      CanonMembersSound(rt, heap, named, k + 1, ancestors, path);
    }
  }

  /** Every tree an ancestor unfolds to is larger than `size`. */
  ghost predicate Outside(rt: Runtime, heap: Heap, ancestors: set<nat>, size: int) {
    forall a, j :: a in ancestors && Denotes(rt, heap, Ref(a), j) ==> size < Size(j)
  }

  lemma {:induction false} OutsideInner(rt: Runtime, heap: Heap, a: nat, j: Json, ancestors: set<nat>, size: int)
    requires Outside(rt, heap, ancestors, Size(j)) && Denotes(rt, heap, Ref(a), j) && size < Size(j)
    ensures Outside(rt, heap, ancestors + {a}, size)
  {
    forall b, k | b in ancestors + {a} && Denotes(rt, heap, Ref(b), k) ensures size < Size(k) {
      if b == a { DenotesUnique(rt, heap, Ref(a), j, k); }
    }
  }

  lemma {:induction false} CanonComplete(rt: Runtime, heap: Heap, v: Value, j: Json, ancestors: set<nat>, path: Path)
    requires ClosedHeap(heap) && InHeap(heap, v) && Denotes(rt, heap, v, j) && Outside(rt, heap, ancestors, Size(j))
    ensures Canon(rt, heap, v, ancestors, path) == Ok(j)
    decreases |heap.Keys - ancestors|, 0, 1
  {
    hide CanonNode, CanonNumber, ClosedNode, DenotesNode, ClosedHeap, Outside, Size;
    if v.Ref? { CanonRefComplete(rt, heap, v.addr, j, ancestors, path); }
  }

  lemma {:induction false} CanonRefComplete(rt: Runtime, heap: Heap, a: nat, j: Json, ancestors: set<nat>, path: Path)
    requires ClosedHeap(heap) && a in heap && Denotes(rt, heap, Ref(a), j) && Outside(rt, heap, ancestors, Size(j))
    ensures Canon(rt, heap, Ref(a), ancestors, path) == Ok(j)
    decreases |heap.Keys - ancestors|, 0, 0
  {
    hide CanonNode, CanonNumber, ClosedNode, DenotesNode;
    NotAncestor(rt, heap, Ref(a), j, ancestors);
    assert a in heap.Keys - ancestors;
    assert heap.Keys - (ancestors + {a}) == heap.Keys - ancestors - {a};
    assert ClosedNode(heap, heap[a]);
    OutsideInner(rt, heap, a, j, ancestors, Size(j) - 1);
    CanonNodeComplete(rt, heap, heap[a], j, ancestors + {a}, path);
  }

  lemma {:induction false} NotAncestor(rt: Runtime, heap: Heap, v: Value, j: Json, ancestors: set<nat>)
    requires v.Ref? && Denotes(rt, heap, v, j) && Outside(rt, heap, ancestors, Size(j))
    ensures v.addr !in ancestors && 0 < Size(j) && (j.JArray? || j.JObject?)
  {
    assert v == Ref(v.addr);
  }

  lemma {:induction false} CanonNodeComplete(
      rt: Runtime, heap: Heap, node: Node, j: Json, ancestors: set<nat>, path: Path)
    requires ClosedHeap(heap) && ClosedNode(heap, node) && DenotesNode(rt, heap, node, j)
    requires Outside(rt, heap, ancestors, Size(j) - 1)
    ensures CanonNode(rt, heap, node, ancestors, path) == Ok(j)
    decreases |heap.Keys - ancestors|, 2, 0
  {
    hide CanonItems, CanonMembers, Sort, Normalized, DistinctKeys, Denotes, Outside;
    match j
    case JArray(js) => CanonItemsComplete(rt, heap, node.items, js, 0, ancestors, path);
    case JObject(ms) =>
      SortKeepsClosed(heap, Normalized(node.entries, rt));
      CanonMembersComplete(rt, heap, Sort(Normalized(node.entries, rt)), ms, 0, ancestors, path);
  }

  lemma {:induction false} OutsideWeaken(rt: Runtime, heap: Heap, ancestors: set<nat>, size: int, less: int)
    requires Outside(rt, heap, ancestors, size) && less <= size
    ensures Outside(rt, heap, ancestors, less)
  {}

  lemma {:induction false} DenotedDefined(rt: Runtime, heap: Heap, v: Value, j: Json)
    requires Denotes(rt, heap, v, j)
    ensures v != Undefined
  {}

  lemma {:induction false} CanonItemsComplete(
      rt: Runtime, heap: Heap, items: seq<Option<Value>>, js: seq<Json>, k: nat, ancestors: set<nat>, path: Path)
    requires ClosedHeap(heap) && k <= |items| == |js|
    requires forall i :: 0 <= i < |items| ==> items[i].Some? && InHeap(heap, items[i].value) && Denotes(rt, heap, items[i].value, js[i])
    requires Outside(rt, heap, ancestors, ItemsSize(js))
    ensures CanonItems(rt, heap, items, k, ancestors, path) == Ok(js[k..])
    decreases |heap.Keys - ancestors|, 1, |items| - k
  {
    hide Denotes, Outside;
    if k < |items| {
      ItemSmaller(js, k);
      OutsideWeaken(rt, heap, ancestors, ItemsSize(js), Size(js[k]));
      CanonComplete(rt, heap, items[k].value, js[k], ancestors, path + [Index(k)]);
      CanonItemsComplete(rt, heap, items, js, k + 1, ancestors, path);
      assert js[k..] == [js[k]] + js[k + 1..];
    }
  }

  lemma {:induction false} CanonMembersComplete(
      rt: Runtime, heap: Heap, named: seq<Named>, ms: seq<Member>, k: nat, ancestors: set<nat>, path: Path)
    requires ClosedHeap(heap) && k <= |named| == |ms| && ClosedNamed(heap, named)
    requires forall i :: 0 <= i < |named| ==> named[i].key == ms[i].key && Denotes(rt, heap, named[i].value, ms[i].value)
    requires Outside(rt, heap, ancestors, MembersSize(ms))
    ensures CanonMembers(rt, heap, named, k, ancestors, path) == Ok(ms[k..])
    decreases |heap.Keys - ancestors|, 1, |named| - k
  {
    hide Outside, Denotes;
    if k < |named| {
      MemberSmaller(ms, k);
      DenotedDefined(rt, heap, named[k].value, ms[k].value);
      OutsideWeaken(rt, heap, ancestors, MembersSize(ms), Size(ms[k].value));
      CanonComplete(rt, heap, named[k].value, ms[k].value, ancestors, path + [Key(named[k].original)]);
      CanonMembersComplete(rt, heap, named, ms, k + 1, ancestors, path);
      assert ms[k..] == [ms[k]] + ms[k + 1..];
    }
  }

  /** Accepted exactly when the value unfolds to a finite tree of serialisable leaves; the
      cycle test never rejects a value that is merely shared. */
  lemma {:induction false} CanonIffDenotes(rt: Runtime, heap: Heap, v: Value, j: Json)
    requires ClosedHeap(heap) && InHeap(heap, v)
    ensures Canon(rt, heap, v, {}, []) == Ok(j) <==> Denotes(rt, heap, v, j)
  {
    if Canon(rt, heap, v, {}, []) == Ok(j) { CanonSound(rt, heap, v, {}, []); }
    if Denotes(rt, heap, v, j) { CanonComplete(rt, heap, v, j, {}, []); }
  }

  // ---- The guarantees of the text ---------------------------------------------------------------

  /** Two accepted values have the same text exactly when their normal forms are equal. */
  lemma {:induction false} SameTextIffSameValue(rt: Runtime, heap: Heap, v: Value, heap': Heap, v': Value)
    requires ValidRuntime(rt) && ClosedHeap(heap) && InHeap(heap, v) && ClosedHeap(heap') && InHeap(heap', v')
    requires Stringify(rt, heap, v).Ok? && Stringify(rt, heap', v').Ok?
    ensures Stringify(rt, heap, v) == Stringify(rt, heap', v')
      <==> exists j :: Denotes(rt, heap, v, j) && Denotes(rt, heap', v', j)
  {
    var j, k := Canon(rt, heap, v, {}, []).value, Canon(rt, heap', v', {}, []).value;
    CanonSound(rt, heap, v, {}, []);
    CanonSound(rt, heap', v', {}, []);
    if Stringify(rt, heap, v) == Stringify(rt, heap', v') {
      PrintInjective(j, k, rt.numerals);
      assert Denotes(rt, heap, v, j) && Denotes(rt, heap', v', j);
    }
    if l :| Denotes(rt, heap, v, l) && Denotes(rt, heap', v', l) {
      DenotesUnique(rt, heap, v, j, l);
      DenotesUnique(rt, heap', v', k, l);
    }
  }

  /** The parser inverts the printer. */
  lemma {:induction false} ParseInvertsStringify(rt: Runtime, heap: Heap, v: Value)
    requires ValidRuntime(rt) && ClosedHeap(heap) && InHeap(heap, v) && Stringify(rt, heap, v).Ok?
    ensures exists j :: Denotes(rt, heap, v, j) && Parse(Stringify(rt, heap, v).value, rt.numerals) == Some((j, []))
  {
    var j := Canon(rt, heap, v, {}, []).value;
    CanonSound(rt, heap, v, {}, []);
    ParsePrint(j, [], rt.numerals);
    assert Print(j, rt.numerals) + [] == Print(j, rt.numerals);
  }

  /** `v` is the tree `j` as a parser builds it: plain objects and arrays, the same strings. */
  ghost predicate Holds(heap: Heap, v: Value, j: Json)
    decreases j
  {
    match j
    case JNull => v.Null?
    case JBool(b) => v == Bool(b)
    case JString(t) => v == Str(t)
    case JNumber(r) => v == Num(Finite(r))
    case JArray(js) =>
      && v.Ref? && v.addr in heap && heap[v.addr].ArrayNode? && !heap[v.addr].symbols
      && |heap[v.addr].items| == |js|
      && forall i :: 0 <= i < |js| ==> heap[v.addr].items[i].Some? && Holds(heap, heap[v.addr].items[i].value, js[i])
    case JObject(ms) =>
      && v.Ref? && v.addr in heap && heap[v.addr].ObjectNode? && !heap[v.addr].symbols && heap[v.addr].plain
      && |heap[v.addr].entries| == |ms|
      && forall i :: 0 <= i < |ms| ==> heap[v.addr].entries[i].key == ms[i].key && Holds(heap, heap[v.addr].entries[i].value, ms[i].value)
  }

  /** In normal form: NFC strings, safe numbers, members ascending by key. */
  ghost predicate Normal(rt: Runtime, j: Json)
    decreases j
  {
    match j
    case JString(t) => rt.nfc(t) == t
    case JNumber(r) => CanonNumber(Finite(r)) == Ok(r)
    case JArray(js) => forall i :: 0 <= i < |js| ==> Normal(rt, js[i])
    case JObject(ms) =>
      && (forall i, k :: 0 <= i < k < |ms| ==> Less(ms[i].key, ms[k].key))
      && forall i :: 0 <= i < |ms| ==> rt.nfc(ms[i].key) == ms[i].key && Normal(rt, ms[i].value)
    case _ => true
  }

  lemma {:induction false} DenotedIsNormal(rt: Runtime, heap: Heap, v: Value, j: Json)
    requires ValidRuntime(rt) && Denotes(rt, heap, v, j)
    ensures Normal(rt, j)
    decreases j
  {
    match j
    case JArray(js) =>
      forall i | 0 <= i < |js| ensures Normal(rt, js[i]) {
        DenotedIsNormal(rt, heap, heap[v.addr].items[i].value, js[i]);
      }
    case JObject(ms) =>
      var base := Normalized(heap[v.addr].entries, rt);
      var named := Sort(base);
      SortAscending(base);
      forall i | 0 <= i < |ms| ensures rt.nfc(ms[i].key) == ms[i].key && Normal(rt, ms[i].value) {
        assert named[i] in multiset(base);
        DenotedIsNormal(rt, heap, named[i].value, ms[i].value);
      }
    case _ =>
  }

  /** Every object anywhere in the tree lists its keys by their code units, none twice. */
  ghost predicate KeysInOrder(j: Json)
    decreases j
  {
    match j
    case JArray(js) => forall i :: 0 <= i < |js| ==> KeysInOrder(js[i])
    case JObject(ms) =>
      && (forall i, k :: 0 <= i < k < |ms| ==> Precedes(ms[i].key, ms[k].key))
      && forall i :: 0 <= i < |ms| ==> KeysInOrder(ms[i].value)
    case _ => true
  }

  lemma {:induction false} NormalIsInOrder(rt: Runtime, j: Json)
    requires Normal(rt, j)
    ensures KeysInOrder(j)
    decreases j
  {
    hide Precedes;
    match j
    case JArray(js) =>
      forall i | 0 <= i < |js| ensures KeysInOrder(js[i]) { NormalIsInOrder(rt, js[i]); }
    case JObject(ms) =>
      forall i, k | 0 <= i < k < |ms| ensures Precedes(ms[i].key, ms[k].key) { LessIsPrecedes(ms[i].key, ms[k].key); }
      forall i | 0 <= i < |ms| ensures KeysInOrder(ms[i].value) { NormalIsInOrder(rt, ms[i].value); }
    case _ =>
  }

  /** The text of every accepted value lists the keys of all its objects in the order of their code units. */
  lemma {:induction false} TextIsInOrder(rt: Runtime, heap: Heap, v: Value, j: Json)
    requires ValidRuntime(rt) && ClosedHeap(heap) && InHeap(heap, v) && Stringify(rt, heap, v).Ok?
    requires Parse(Stringify(rt, heap, v).value, rt.numerals) == Some((j, []))
    ensures KeysInOrder(j)
  {
    ParseInvertsStringify(rt, heap, v);
    DenotedIsNormal(rt, heap, v, j);
    NormalIsInOrder(rt, j);
  }

  lemma {:induction false} NormalDenotesItself(rt: Runtime, heap: Heap, v: Value, j: Json)
    requires Normal(rt, j) && Holds(heap, v, j)
    ensures Denotes(rt, heap, v, j)
    decreases j
  {
    match j
    case JArray(js) =>
      forall i | 0 <= i < |js| ensures Denotes(rt, heap, heap[v.addr].items[i].value, js[i]) {
        NormalDenotesItself(rt, heap, heap[v.addr].items[i].value, js[i]);
      }
    case JObject(ms) =>
      var named := Normalized(heap[v.addr].entries, rt);
      assert Ascending(named);
      forall i, k | 0 <= i < k < |named| ensures named[i].key != named[k].key { LessIrreflexive(named[i].key); }
      SortAscending(named);
      AscendingUnique(Sort(named), named);
      forall i | 0 <= i < |ms| ensures Denotes(rt, heap, named[i].value, ms[i].value) {
        NormalDenotesItself(rt, heap, named[i].value, ms[i].value);
      }
    case _ =>
  }

  /** Serialising what was parsed from a canonical text gives the same text again. */
  lemma {:induction false} StringifyFixedPoint(rt: Runtime, heap: Heap, v: Value, j: Json, parsed: Heap, w: Value)
    requires ValidRuntime(rt) && ClosedHeap(heap) && InHeap(heap, v) && ClosedHeap(parsed) && InHeap(parsed, w)
    requires Stringify(rt, heap, v).Ok? && Parse(Stringify(rt, heap, v).value, rt.numerals) == Some((j, []))
    requires Holds(parsed, w, j)
    ensures Stringify(rt, parsed, w) == Stringify(rt, heap, v)
  {
    ParseInvertsStringify(rt, heap, v);
    CanonIffDenotes(rt, heap, v, j);
    DenotedIsNormal(rt, heap, v, j);
    NormalDenotesItself(rt, parsed, w, j);
    CanonIffDenotes(rt, parsed, w, j);
  }

  // ---- Key order never matters ------------------------------------------------------------------

  /** The same graph, except that objects may list their keys in another order. */
  ghost predicate SameUpToKeyOrder(heap: Heap, heap': Heap) {
    && heap.Keys == heap'.Keys
    && forall a :: a in heap ==> SameNode(heap[a], heap'[a])
  }

  ghost predicate SameNode(node: Node, node': Node) {
    || node == node'
    || (node.ObjectNode? && node'.ObjectNode? && node.symbols == node'.symbols && node.plain == node'.plain
        && multiset(node.entries) == multiset(node'.entries))
  }

  lemma {:induction false} NormalizedMultiset(a: seq<Entry>, b: seq<Entry>, rt: Runtime)
    requires multiset(a) == multiset(b)
    ensures multiset(Normalized(a, rt)) == multiset(Normalized(b, rt))
    decreases |a|
  {
    hide Normalized, Without;
    assert |multiset(a)| == |a| && |multiset(b)| == |b|;
    if a == [] {
      assert a == b;
    } else {
      var i := IndexOf(b, a[0]);
      NormalizedRemove(a, 0, a[0], rt);
      NormalizedRemove(b, i, a[0], rt);
      SameRemainder(multiset(a), multiset(b), a[0], multiset(Without(a, 0)), multiset(Without(b, i)));
      NormalizedMultiset(Without(a, 0), Without(b, i), rt);
    }
  }

  function Without<T>(s: seq<T>, i: nat): (r: seq<T>)
    requires i < |s|
    ensures |r| == |s| - 1
  {
    s[..i] + s[i + 1..]
  }

  lemma {:induction false} SameRemainder<T>(a: multiset<T>, b: multiset<T>, x: T, a': multiset<T>, b': multiset<T>)
    requires a == b && a' == a - multiset{x} && b' == b - multiset{x}
    ensures a' == b'
  {}

  lemma {:induction false} IndexOf(s: seq<Entry>, x: Entry) returns (i: nat)
    requires x in multiset(s)
    ensures i < |s| && s[i] == x
  {
    i :| 0 <= i < |s| && s[i] == x;
  }

  lemma {:induction false} NormalizedRemove(s: seq<Entry>, i: nat, x: Entry, rt: Runtime)
    requires i < |s| && s[i] == x
    ensures multiset(Without(s, i)) == multiset(s) - multiset{x}
    ensures multiset(Normalized(s, rt)) == multiset(Normalized(Without(s, i), rt)) + multiset(Normalized([x], rt))
  {
    var n, one := Normalized(s, rt), Normalized([x], rt);
    RemoveOne(s, i);
    RemoveOne(n, i);
    assert Without(n, i) == Normalized(Without(s, i), rt);
    assert one == [n[i]];
  }

  lemma {:induction false} RemoveOne<T>(s: seq<T>, i: nat)
    requires i < |s|
    ensures multiset(s) == multiset(Without(s, i)) + multiset{s[i]}
    ensures multiset(Without(s, i)) == multiset(s) - multiset{s[i]}
  {
    assert s == s[..i] + [s[i]] + s[i + 1..];
  }

  lemma {:induction false} DistinctIgnoresOrder(a: seq<Named>, b: seq<Named>)
    requires multiset(a) == multiset(b) && DistinctKeys(a)
    ensures DistinctKeys(b)
  {
    forall i, j | 0 <= i < j < |b| ensures b[i].key != b[j].key {
      if b[i].key == b[j].key {
        assert b[i] in multiset(a) && b[j] in multiset(a);
        if b[i] == b[j] {
          Twice(b, i, j);
          OnlyOnce(a, b[i]);
        }
      }
    }
  }

  lemma {:induction false} Twice(s: seq<Named>, i: nat, j: nat)
    requires i < j < |s| && s[i] == s[j]
    ensures multiset(s)[s[i]] >= 2
  {
    assert s == s[..j] + [s[j]] + s[j + 1..];
    assert s[i] in s[..j];
  }

  lemma {:induction false} OnlyOnce(s: seq<Named>, x: Named)
    requires DistinctKeys(s)
    ensures multiset(s)[x] <= 1
  {
    if s != [] {
      assert s == [s[0]] + s[1..];
      OnlyOnce(s[1..], x);
      if s[0] == x && x in s[1..] { assert false; }
    }
  }

  lemma {:induction false} KeyOrderNode(
      rt: Runtime, heap: Heap, heap': Heap, node: Node, node': Node, ancestors: set<nat>, path: Path)
    requires ClosedHeap(heap) && ClosedHeap(heap') && SameUpToKeyOrder(heap, heap') && SameNode(node, node')
    requires ClosedNode(heap, node) && ClosedNode(heap', node')
    ensures CanonNode(rt, heap, node, ancestors, path) == CanonNode(rt, heap', node', ancestors, path)
    decreases |heap.Keys - ancestors|, 2, 0
  {
    hide CanonItems, CanonMembers, ClosedHeap, DistinctKeys, Sort, Normalized;
    match node
    case ArrayNode(_, items) => KeyOrderItems(rt, heap, heap', items, 0, ancestors, path);
    case ObjectNode(_, _, entries) =>
      var a, b := Normalized(entries, rt), Normalized(node'.entries, rt);
      NormalizedMultiset(entries, node'.entries, rt);
      if DistinctKeys(a) {
        DistinctIgnoresOrder(a, b);
        SortIgnoresOrder(a, b);
        SortKeepsClosed(heap, a);
        SortKeepsClosed(heap', b);
        KeyOrderMembers(rt, heap, heap', Sort(a), 0, ancestors, path);
      } else if DistinctKeys(b) {
        DistinctIgnoresOrder(b, a);
      }
  }

  lemma {:induction false} KeyOrderItems(
      rt: Runtime, heap: Heap, heap': Heap, items: seq<Option<Value>>, k: nat, ancestors: set<nat>, path: Path)
    requires ClosedHeap(heap) && ClosedHeap(heap') && SameUpToKeyOrder(heap, heap') && k <= |items|
    requires forall i :: 0 <= i < |items| ==> items[i].Some? ==> InHeap(heap, items[i].value) && InHeap(heap', items[i].value)
    ensures CanonItems(rt, heap, items, k, ancestors, path) == CanonItems(rt, heap', items, k, ancestors, path)
    decreases |heap.Keys - ancestors|, 1, |items| - k
  {
    if k < |items| && items[k].Some? {
      KeyOrderIrrelevant(rt, heap, heap', items[k].value, ancestors, path + [Index(k)]);
      KeyOrderItems(rt, heap, heap', items, k + 1, ancestors, path);
    }
  }

  lemma {:induction false} KeyOrderMembers(
      rt: Runtime, heap: Heap, heap': Heap, named: seq<Named>, k: nat, ancestors: set<nat>, path: Path)
    requires ClosedHeap(heap) && ClosedHeap(heap') && SameUpToKeyOrder(heap, heap') && k <= |named|
    requires ClosedNamed(heap, named) && ClosedNamed(heap', named)
    ensures CanonMembers(rt, heap, named, k, ancestors, path) == CanonMembers(rt, heap', named, k, ancestors, path)
    decreases |heap.Keys - ancestors|, 1, |named| - k
  {
    if k < |named| {
      KeyOrderIrrelevant(rt, heap, heap', named[k].value, ancestors, path + [Key(named[k].original)]);
      KeyOrderMembers(rt, heap, heap', named, k + 1, ancestors, path);
    }
  }

  /** Reordering the keys of any objects of the graph changes neither the value nor the error. */
  lemma {:induction false} KeyOrderIrrelevant(
      rt: Runtime, heap: Heap, heap': Heap, v: Value, ancestors: set<nat>, path: Path)
    requires ClosedHeap(heap) && ClosedHeap(heap') && SameUpToKeyOrder(heap, heap') && InHeap(heap, v)
    ensures InHeap(heap', v)
    ensures Canon(rt, heap, v, ancestors, path) == Canon(rt, heap', v, ancestors, path)
    decreases |heap.Keys - ancestors|, 0, 0
  {
    hide CanonNode, ClosedNode, SameNode;
    if v.Ref? && v.addr !in ancestors {
      var inner := ancestors + {v.addr};
      assert v.addr in heap.Keys - ancestors;
      assert heap.Keys - inner == heap.Keys - ancestors - {v.addr};
      assert ClosedNode(heap, heap[v.addr]) && ClosedNode(heap', heap'[v.addr]) && SameNode(heap[v.addr], heap'[v.addr]);
      KeyOrderNode(rt, heap, heap', heap[v.addr], heap'[v.addr], inner, path);
    }
  }

  // ---- The serializer with its set of ancestors -------------------------------------------------

  function Printed(rt: Runtime, r: Result<Json, Error>): Result<Text, Error> {
    match r case Ok(j) => Ok(Print(j, rt.numerals)) case Err(e) => Err(e)
  }

  function Join(texts: seq<Text>): Text {
    if texts == [] then [] else if |texts| == 1 then texts[0] else texts[0] + [COMMA] + Join(texts[1..])
  }

  function ItemTexts(js: seq<Json>, n: Numerals): (r: seq<Text>)
    ensures |r| == |js|
  {
    seq(|js|, i requires 0 <= i < |js| => Print(js[i], n))
  }

  function MemberTexts(ms: seq<Member>, n: Numerals): (r: seq<Text>)
    ensures |r| == |ms|
  {
    seq(|ms|, i requires 0 <= i < |ms| => PrintMember(ms[i], n))
  }

  lemma {:induction false} JoinedItems(js: seq<Json>, n: Numerals)
    ensures Join(ItemTexts(js, n)) == PrintItems(js, n)
  {
    if |js| > 1 {
      assert ItemTexts(js, n)[1..] == ItemTexts(js[1..], n);
      JoinedItems(js[1..], n);
    }
  }

  lemma {:induction false} JoinedMembers(ms: seq<Member>, n: Numerals)
    ensures Join(MemberTexts(ms, n)) == PrintMembers(ms, n)
  {
    if |ms| > 1 {
      assert MemberTexts(ms, n)[1..] == MemberTexts(ms[1..], n);
      JoinedMembers(ms[1..], n);
    }
  }

  function Prepend<T>(done: seq<T>, r: Result<seq<T>, Error>): Result<seq<T>, Error> {
    match r case Ok(rest) => Ok(done + rest) case Err(e) => Err(e)
  }

  lemma {:induction false} PrependOne<T>(done: seq<T>, x: T, r: Result<seq<T>, Error>)
    ensures Prepend(done, Prepend([x], r)) == Prepend(done + [x], r)
  {
    if r.Ok? { assert done + ([x] + r.value) == done + [x] + r.value; }
  }

  lemma {:induction false} PrependNothing<T>(r: Result<seq<T>, Error>)
    ensures Prepend([], r) == r
  {
    if r.Ok? { assert [] + r.value == r.value; }
  }

  class Serializer {
    const rt: Runtime
    const heap: Heap
    var ancestors: set<nat>

    constructor (rt: Runtime, heap: Heap)
      ensures this.rt == rt && this.heap == heap && ancestors == {}
    {
      this.rt, this.heap, ancestors := rt, heap, {};
    }

    /** The text or the first error; whatever happens, the set of ancestors is given back as it was. */
    method Serialize(v: Value, path: Path) returns (r: Result<Text, Error>)
      requires ClosedHeap(heap) && InHeap(heap, v)
      modifies this
      ensures ancestors == old(ancestors)
      ensures r == Printed(rt, Canon(rt, heap, v, old(ancestors), path))
      decreases |heap.Keys - ancestors|, 0
    {
      hide CanonNode, ClosedNode;
      match v {
        case Null => return Ok(NULL_TEXT);
        case Bool(b) => return Ok(if b then TRUE_TEXT else FALSE_TEXT);
        case Str(s) => return Ok(Quote(rt.nfc(s)));
        case Num(n) =>
          var number := CanonNumber(n);
          return if number.Ok? then Ok(rt.numerals.show(number.value)) else Err(Error(number.error, path));
        case Ref(a) => r := SerializeObject(a, path);
        case _ => return Err(Error(NotSerializable, path));
      }
    }

    method SerializeObject(a: nat, path: Path) returns (r: Result<Text, Error>)
      requires ClosedHeap(heap) && a in heap
      modifies this
      ensures ancestors == old(ancestors)
      ensures r == Printed(rt, Canon(rt, heap, Ref(a), old(ancestors), path))
      decreases |heap.Keys - ancestors|, 0, 0
    {
      hide CanonNode;
      if a in ancestors { return Err(Error(Cycle, path)); }
      ghost var before := ancestors;
      assert heap.Keys - (before + {a}) == heap.Keys - before - {a} && a in heap.Keys - before;
      assert ClosedNode(heap, heap[a]);
      ancestors := ancestors + {a};
      r := SerializeNode(heap[a], path);
      ancestors := ancestors - {a};
      assert ancestors == before;
    }

    method SerializeNode(node: Node, path: Path) returns (r: Result<Text, Error>)
      requires ClosedHeap(heap) && ClosedNode(heap, node)
      modifies this
      ensures ancestors == old(ancestors)
      ensures r == Printed(rt, CanonNode(rt, heap, node, old(ancestors), path))
      decreases |heap.Keys - ancestors|, 2
    {
      hide ClosedHeap, CanonItems, CanonMembers, Sort, Normalized, DistinctKeys;
      if node.symbols { return Err(Error(SymbolKey, path)); }
      match node {
        case ArrayNode(_, items) =>
          var body := SerializeItems(items, path);
          return if body.Ok? then Ok([OPEN_BRACKET] + body.value + [CLOSE_BRACKET]) else body;
        case ObjectNode(_, plain, entries) =>
          if !plain { return Err(Error(NotPlain, path)); }
          var named := NormalizeKeys(entries);
          if named.None? { return Err(Error(DuplicateKey, path)); }
          NormalizedClosed(heap, entries, rt);
          SortKeepsClosed(heap, named.value);
          var body := SerializeMembers(Sort(named.value), path);
          return if body.Ok? then Ok([OPEN_BRACE] + body.value + [CLOSE_BRACE]) else body;
      }
    }

    /** The map from normalised to stored keys; a second key with the same normal form is refused. */
    method NormalizeKeys(entries: seq<Entry>) returns (named: Option<seq<Named>>)
      ensures named == if DistinctKeys(Normalized(entries, rt)) then Some(Normalized(entries, rt)) else None
    {
      var all := Normalized(entries, rt);
      var seen: set<Text> := {};
      var result: seq<Named> := [];
      for i := 0 to |entries|
        invariant result == all[..i] && DistinctKeys(all[..i])
        invariant forall k :: 0 <= k < i ==> all[k].key in seen
        invariant forall t :: t in seen ==> exists k :: 0 <= k < i && all[k].key == t
      {
        var key := rt.nfc(entries[i].key);
        if key in seen {
          var k :| 0 <= k < i && all[k].key == key;
          assert all[k].key == all[i].key;
          return None;
        }
        seen := seen + {key};
        result := result + [Named(key, entries[i].key, entries[i].value)];
      }
      assert all[..|entries|] == all;
      return Some(result);
    }

    method SerializeItems(items: seq<Option<Value>>, path: Path) returns (r: Result<Text, Error>)
      requires ClosedHeap(heap)
      requires forall i :: 0 <= i < |items| ==> items[i].Some? ==> InHeap(heap, items[i].value)
      modifies this
      ensures ancestors == old(ancestors)
      ensures r == match CanonItems(rt, heap, items, 0, old(ancestors), path)
        case Ok(js) => Ok(PrintItems(js, rt.numerals)) case Err(e) => Err(e)
      decreases |heap.Keys - ancestors|, 1
    {
      hide ClosedHeap, Canon, Print, PrintItems;
      var texts: seq<Text> := [];
      ghost var done: seq<Json> := [];
      PrependNothing(CanonItems(rt, heap, items, 0, ancestors, path));
      for k := 0 to |items|
        invariant ancestors == old(ancestors) && |done| == k && texts == ItemTexts(done, rt.numerals)
        invariant CanonItems(rt, heap, items, 0, ancestors, path)
          == Prepend(done, CanonItems(rt, heap, items, k, ancestors, path))
      {
        if items[k].None? { return Err(Error(Hole, path + [Index(k)])); }
        ghost var j := Canon(rt, heap, items[k].value, ancestors, path + [Index(k)]);
        var text := Serialize(items[k].value, path + [Index(k)]);
        if text.Err? { return text; }
        PrependOne(done, j.value, CanonItems(rt, heap, items, k + 1, ancestors, path));
        texts := texts + [text.value];
        done := done + [j.value];
      }
      assert done + [] == done;
      JoinedItems(done, rt.numerals);
      return Ok(Join(texts));
    }

    method SerializeMembers(named: seq<Named>, path: Path) returns (r: Result<Text, Error>)
      requires ClosedHeap(heap) && ClosedNamed(heap, named)
      modifies this
      ensures ancestors == old(ancestors)
      ensures r == match CanonMembers(rt, heap, named, 0, old(ancestors), path)
        case Ok(ms) => Ok(PrintMembers(ms, rt.numerals)) case Err(e) => Err(e)
      decreases |heap.Keys - ancestors|, 1
    {
      hide ClosedHeap, Canon, Print, PrintMembers;
      var texts: seq<Text> := [];
      ghost var done: seq<Member> := [];
      PrependNothing(CanonMembers(rt, heap, named, 0, ancestors, path));
      for k := 0 to |named|
        invariant ancestors == old(ancestors) && |done| == k && texts == MemberTexts(done, rt.numerals)
        invariant CanonMembers(rt, heap, named, 0, ancestors, path)
          == Prepend(done, CanonMembers(rt, heap, named, k, ancestors, path))
      {
        var itemPath := path + [Key(named[k].original)];
        if named[k].value == Undefined { return Err(Error(UndefinedValue, itemPath)); }
        ghost var j := Canon(rt, heap, named[k].value, ancestors, itemPath);
        var text := Serialize(named[k].value, itemPath);
        if text.Err? { return text; }
        PrependOne(done, Member(named[k].key, j.value), CanonMembers(rt, heap, named, k + 1, ancestors, path));
        texts := texts + [Quote(named[k].key) + [COLON] + text.value];
        done := done + [Member(named[k].key, j.value)];
      }
      assert done + [] == done;
      JoinedMembers(done, rt.numerals);
      return Ok(Join(texts));
    }
  }

  lemma {:induction false} NormalizedClosed(heap: Heap, entries: seq<Entry>, rt: Runtime)
    requires forall i :: 0 <= i < |entries| ==> InHeap(heap, entries[i].value)
    ensures ClosedNamed(heap, Normalized(entries, rt))
  {
  }

  /** The entry point: a new, empty set of ancestors. */
  method CanonicalStringify(rt: Runtime, heap: Heap, v: Value) returns (r: Result<Text, Error>)
    requires ClosedHeap(heap) && InHeap(heap, v)
    ensures r == Stringify(rt, heap, v)
  {
    hide Canon;
    var serializer := new Serializer(rt, heap);
    r := serializer.Serialize(v, []);
  }
}
