/** The park comparison network, within-group centring and the zero-sum park biases. */
module PitchCalibration {
  import opened Wrappers
  import opened LinearAlgebra
  import Solver = PitchCalibrationMatrix

  // ---- The comparison network -------------------------------------------------------------------

  datatype Cell = Cell(park: string, group: string)

  /** Two parks are linked when some group has cells in both. */
  ghost predicate Linked(groups: seq<set<string>>, p: string, q: string) {
    exists g :: 0 <= g < |groups| && p in groups[g] && q in groups[g]
  }

  ghost predicate Chain(groups: seq<set<string>>, path: seq<string>, from: string, to: string) {
    && |path| > 0 && path[0] == from && path[|path| - 1] == to
    && forall i :: 0 <= i < |path| - 1 ==> Linked(groups, path[i], path[i + 1])
  }

  ghost predicate Reachable(groups: seq<set<string>>, from: string, to: string) {
    exists path :: Chain(groups, path, from, to)
  }

  ghost predicate Closed(groups: seq<set<string>>, s: set<string>) {
    forall g, p :: 0 <= g < |groups| && p in groups[g] && p in s ==> groups[g] <= s
  }

  lemma {:induction false} ClosedHoldsChain(
      groups: seq<set<string>>, s: set<string>, path: seq<string>, from: string, to: string)
    requires Closed(groups, s) && from in s && Chain(groups, path, from, to)
    ensures to in s
    decreases |path|
  {
    if |path| > 1 {
      assert Linked(groups, path[0], path[1]);
      ClosedHoldsChain(groups, s, path[1..], path[1], to);
    }
  }

  lemma {:induction false} ExtendReachable(groups: seq<set<string>>, from: string, p: string, q: string, g: nat)
    requires Reachable(groups, from, p) && g < |groups| && p in groups[g] && q in groups[g]
    ensures Reachable(groups, from, q)
  {
    var path :| Chain(groups, path, from, p);
    assert Linked(groups, p, q);
    assert Chain(groups, path + [q], from, q);
  }

  /** One pass over the groups: every group that meets the connected parks joins them. */
  method Spread(groups: seq<set<string>>, anchor: string, start: set<string>) returns (connected: set<string>)
    requires forall p :: p in start ==> Reachable(groups, anchor, p)
    ensures start <= connected
    ensures forall p :: p in connected ==> Reachable(groups, anchor, p)
    ensures forall p :: p in connected ==> p in start || exists g :: 0 <= g < |groups| && p in groups[g]
    ensures connected == start ==> Closed(groups, start)
    ensures (forall g, p :: 0 <= g < |groups| && p in groups[g] ==> p !in start) ==> connected == start
  {
    hide Reachable;
    connected := start;
    for j := 0 to |groups|
      invariant start <= connected
      invariant forall p :: p in connected ==> Reachable(groups, anchor, p)
      invariant forall p :: p in connected ==> p in start || exists g :: 0 <= g < |groups| && p in groups[g]
      invariant forall g, p :: 0 <= g < j && p in groups[g] && p in start ==> groups[g] <= connected
      invariant (forall g, p :: 0 <= g < |groups| && p in groups[g] ==> p !in start) ==> connected == start
    {
      if exists p :: p in groups[j] && p in connected {
        ghost var p :| p in groups[j] && p in connected;
        forall q | q in groups[j] ensures Reachable(groups, anchor, q) {
          ExtendReachable(groups, anchor, p, q, j);
        }
        connected := connected + groups[j];
      }
    }
  }

  function ParkSet(parks: seq<string>): set<string> {
    set p | p in parks
  }

  lemma {:induction false} SubsetSize(s: set<string>, t: set<string>)
    requires s <= t
    ensures |s| <= |t| && (|s| == |t| ==> s == t)
    decreases |t|
  {
    if s != {} {
      var x :| x in s;
      SubsetSize(s - {x}, t - {x});
      assert s == s - {x} + {x} && t == t - {x} + {x};
    } else if t != {} {
      var x :| x in t;
      assert |t - {x}| == |t| - 1;
    }
  }

  lemma {:induction false} ParkSetSize(parks: seq<string>)
    ensures |ParkSet(parks)| <= |parks|
  {
    if parks == [] {
      assert ParkSet(parks) == {};
    } else {
      ParkSetSize(parks[1..]);
      assert ParkSet(parks) == {parks[0]} + ParkSet(parks[1..]);
    }
  }

  /** As many passes as there are parks, stopping early: the bound always suffices. */
  method ConnectedParks(groups: seq<set<string>>, parks: seq<string>, anchor: string) returns (connected: set<string>)
    requires forall g, p :: 0 <= g < |groups| && p in groups[g] ==> p in parks
    ensures forall p :: p in connected <==> Reachable(groups, anchor, p)
  {
    connected := {anchor};
    assert Chain(groups, [anchor], anchor, anchor);
    var closed := false;
    for i := 0 to |parks|
      invariant anchor in connected && i + 1 <= |connected|
      invariant forall p :: p in connected ==> Reachable(groups, anchor, p) && (p == anchor || p in parks)
      invariant i == 0 ==> connected == {anchor}
      invariant anchor !in parks ==> i == 0
    {
      var before := connected;
      connected := Spread(groups, anchor, before);
      SubsetSize(before, connected);
      if |connected| == |before| { closed := true; break; }
    }
    if !closed {
      BoundSuffices(groups, parks, anchor, connected);
    }
    forall p | Reachable(groups, anchor, p) ensures p in connected {
      var path :| Chain(groups, path, anchor, p);
      ClosedHoldsChain(groups, connected, path, anchor, p);
    }
  }

  lemma {:induction false} BoundSuffices(
      groups: seq<set<string>>, parks: seq<string>, anchor: string, connected: set<string>)
    requires forall g, p :: 0 <= g < |groups| && p in groups[g] ==> p in parks
    requires forall p :: p in connected ==> p == anchor || p in parks
    requires |parks| + 1 <= |connected| && (anchor !in parks ==> |parks| == 0)
    ensures Closed(groups, connected)
  {
    ParkSetSize(parks);
    if anchor in parks {
      SubsetSize(connected, ParkSet(parks));
      assert false;
    }
  }

  /** The groups by key, and the keys in the order they were first met. */
  method BuildGroups(cells: seq<Cell>) returns (groups: map<string, set<string>>, keys: seq<string>)
    ensures forall k :: k in groups <==> k in keys
    ensures forall k :: k in groups <==> exists i :: 0 <= i < |cells| && cells[i].group == k
    ensures forall k, p :: k in groups ==>
      (p in groups[k] <==> exists i :: 0 <= i < |cells| && cells[i].group == k && cells[i].park == p)
  {
    groups, keys := map[], [];
    for n := 0 to |cells|
      invariant forall k :: k in groups <==> k in keys
      invariant forall k :: k in groups <==> exists i :: 0 <= i < n && cells[i].group == k
      invariant forall k, p :: k in groups ==>
        (p in groups[k] <==> exists i :: 0 <= i < n && cells[i].group == k && cells[i].park == p)
    {
      var key := cells[n].group;
      var group := if key in groups then groups[key] else {};
      keys := if key in groups then keys else keys + [key];
      groups := groups[key := group + {cells[n].park}];
    }
  }

  // ---- The network in terms of the cells --------------------------------------------------------

  /** Two parks can be compared when some group has a cell in each. */
  ghost predicate Compared(cells: seq<Cell>, p: string, q: string) {
    exists i, j :: 0 <= i < |cells| && 0 <= j < |cells|
                   && cells[i].park == p && cells[j].park == q && cells[i].group == cells[j].group
  }

  ghost predicate Comparisons(cells: seq<Cell>, path: seq<string>, from: string, to: string) {
    && |path| > 0 && path[0] == from && path[|path| - 1] == to
    && forall i :: 0 <= i < |path| - 1 ==> Compared(cells, path[i], path[i + 1])
  }

  ghost predicate Comparable(cells: seq<Cell>, from: string, to: string) {
    exists path :: Comparisons(cells, path, from, to)
  }

  /** Some cell of the same group lies in another park. */
  ghost predicate CrossesParks(cells: seq<Cell>, c: Cell) {
    exists i :: 0 <= i < |cells| && cells[i].group == c.group && cells[i].park != c.park
  }

  /** The cells the fit is trained on, among the first `k`. */
  ghost function Frame(cells: seq<Cell>, anchor: string, k: nat): seq<Cell>
    requires k <= |cells|
  {
    if k == 0 then []
    else
      Frame(cells, anchor, k - 1)
      + if CrossesParks(cells, cells[k - 1]) && Comparable(cells, anchor, cells[k - 1].park) then [cells[k - 1]] else []
  }

  ghost predicate GroupsOf(groups: map<string, set<string>>, keys: seq<string>, cells: seq<Cell>) {
    && (forall k :: k in groups <==> k in keys)
    && (forall k :: k in groups <==> exists i :: 0 <= i < |cells| && cells[i].group == k)
    && forall k, p :: k in groups ==>
      (p in groups[k] <==> exists i :: 0 <= i < |cells| && cells[i].group == k && cells[i].park == p)
  }

  function InOrder(groups: map<string, set<string>>, keys: seq<string>): seq<set<string>>
    requires forall k :: k in keys ==> k in groups
  {
    seq(|keys|, t requires 0 <= t < |keys| => groups[keys[t]])
  }

  lemma {:induction false} LinkedIsCompared(
      groups: map<string, set<string>>, keys: seq<string>, cells: seq<Cell>, p: string, q: string)
    requires GroupsOf(groups, keys, cells)
    ensures Linked(InOrder(groups, keys), p, q) <==> Compared(cells, p, q)
  {
    var order := InOrder(groups, keys);
    if Linked(order, p, q) {
      var t :| 0 <= t < |order| && p in order[t] && q in order[t];
      assert keys[t] in groups;
      var i :| 0 <= i < |cells| && cells[i].group == keys[t] && cells[i].park == p;
      var j :| 0 <= j < |cells| && cells[j].group == keys[t] && cells[j].park == q;
    }
    if Compared(cells, p, q) {
      var i, j :| 0 <= i < |cells| && 0 <= j < |cells|
        && cells[i].park == p && cells[j].park == q && cells[i].group == cells[j].group;
      assert cells[i].group in groups;
      var t :| 0 <= t < |keys| && keys[t] == cells[i].group;
      assert p in order[t] && q in order[t];
    }
  }

  lemma {:induction false} ReachableIsComparable(
      order: seq<set<string>>, cells: seq<Cell>, from: string, to: string)
    requires forall p, q :: Linked(order, p, q) <==> Compared(cells, p, q)
    ensures Reachable(order, from, to) <==> Comparable(cells, from, to)
  {
    hide Linked, Compared;
    if Reachable(order, from, to) {
      var path :| Chain(order, path, from, to);
      assert Comparisons(cells, path, from, to);
    }
    if Comparable(cells, from, to) {
      var path :| Comparisons(cells, path, from, to);
      assert Chain(order, path, from, to);
    }
  }

  lemma {:induction false} TwoParks(group: set<string>, park: string)
    requires park in group
    ensures |group| >= 2 <==> exists p :: p in group && p != park
  {
    if |group| >= 2 {
      if group <= {park} { SubsetSize(group, {park}); }
      var p :| p in group && p != park;
    } else if p :| p in group && p != park {
      SubsetSize({p, park}, group);
    }
  }

  lemma {:induction false} GroupCrosses(
      groups: map<string, set<string>>, keys: seq<string>, cells: seq<Cell>, n: nat)
    requires GroupsOf(groups, keys, cells) && n < |cells|
    ensures cells[n].group in groups
    ensures |groups[cells[n].group]| >= 2 <==> CrossesParks(cells, cells[n])
  {
    var c := cells[n];
    assert c.park in groups[c.group];
    TwoParks(groups[c.group], c.park);
    if i :| 0 <= i < |cells| && cells[i].group == c.group && cells[i].park != c.park {
      assert cells[i].park in groups[c.group];
    }
  }

  /** Groups, closure and filter together: the frame holds the comparable cells, in the order of the input. */
  method TrainingFrame(cells: seq<Cell>, parks: seq<string>, anchor: string)
    returns (connected: set<string>, frame: seq<Cell>)
    requires forall i :: 0 <= i < |cells| ==> cells[i].park in parks
    ensures forall p :: p in connected <==> Comparable(cells, anchor, p)
    ensures frame == Frame(cells, anchor, |cells|)
  {
    hide Comparable, Reachable, CrossesParks, Linked, Compared;
    var groups, keys := BuildGroups(cells);
    assert GroupsOf(groups, keys, cells);
    connected := ConnectedParks(InOrder(groups, keys), parks, anchor);
    forall p, q ensures Linked(InOrder(groups, keys), p, q) <==> Compared(cells, p, q) {
      LinkedIsCompared(groups, keys, cells, p, q);
    }
    forall p ensures p in connected <==> Comparable(cells, anchor, p) {
      ReachableIsComparable(InOrder(groups, keys), cells, anchor, p);
    }
    frame := [];
    for n := 0 to |cells|
      invariant frame == Frame(cells, anchor, n)
    {
      var c := cells[n];
      GroupCrosses(groups, keys, cells, n);
      if |groups[c.group]| >= 2 && c.park in connected { frame := frame + [c]; }
    }
  }

  lemma {:induction false} FrameHolds(cells: seq<Cell>, anchor: string, k: nat, i: nat)
    requires i < k <= |cells| && CrossesParks(cells, cells[i]) && Comparable(cells, anchor, cells[i].park)
    ensures cells[i] in Frame(cells, anchor, k)
  {
    hide CrossesParks, Comparable;
    if i < k - 1 { FrameHolds(cells, anchor, k - 1, i); }
  }

  lemma {:induction false} ComparedInFrame(cells: seq<Cell>, anchor: string, p: string, q: string)
    requires Comparable(cells, anchor, p) && Comparable(cells, anchor, q) && Compared(cells, p, q) && p != q
    ensures Compared(Frame(cells, anchor, |cells|), p, q)
  {
    hide Comparable, Frame;
    var frame := Frame(cells, anchor, |cells|);
    var i, j :| 0 <= i < |cells| && 0 <= j < |cells|
      && cells[i].park == p && cells[j].park == q && cells[i].group == cells[j].group;
    assert CrossesParks(cells, cells[i]) && CrossesParks(cells, cells[j]);
    FrameHolds(cells, anchor, |cells|, i);
    FrameHolds(cells, anchor, |cells|, j);
    var s :| 0 <= s < |frame| && frame[s] == cells[i];
    var t :| 0 <= t < |frame| && frame[t] == cells[j];
  }

  /** Dropping the other cells breaks no comparison: the frame connects its parks to the anchor by itself. */
  lemma {:induction false} FrameStaysConnected(cells: seq<Cell>, anchor: string, path: seq<string>, to: string)
    requires Comparisons(cells, path, anchor, to)
    ensures Comparable(Frame(cells, anchor, |cells|), anchor, to)
    decreases |path|
  {
    hide Frame, Compared;
    var frame := Frame(cells, anchor, |cells|);
    if |path| == 1 {
      assert Comparisons(frame, [anchor], anchor, to);
    } else {
      var shorter, p := path[..|path| - 1], path[|path| - 2];
      assert Comparisons(cells, shorter, anchor, p);
      FrameStaysConnected(cells, anchor, shorter, p);
      assert Compared(cells, path[|path| - 2], path[|path| - 1]);
      if p != to {
        ComparedInFrame(cells, anchor, p, to);
        var within :| Comparisons(frame, within, anchor, p);
        assert Comparisons(frame, within + [to], anchor, to);
      }
    }
  }

  // ---- Within-group centring --------------------------------------------------------------------

  /** A weighted row; `values` holds the design columns and the two responses. */
  datatype Observation = Observation(group: string, values: seq<real>, w: real)

  ghost predicate SameWidth(rows: seq<Observation>, width: nat) {
    forall i :: 0 <= i < |rows| ==> |rows[i].values| == width
  }

  function GroupWeight(rows: seq<Observation>, group: string, k: nat): real
    requires k <= |rows|
  {
    if k == 0 then 0.0
    else GroupWeight(rows, group, k - 1) + if rows[k - 1].group == group then rows[k - 1].w else 0.0
  }

  function GroupSum(rows: seq<Observation>, group: string, column: nat, k: nat): real
    requires k <= |rows| && forall i :: 0 <= i < |rows| ==> column < |rows[i].values|
  {
    if k == 0 then 0.0 else
      GroupSum(rows, group, column, k - 1)
      + if rows[k - 1].group == group then Mul(rows[k - 1].w, rows[k - 1].values[column]) else 0.0
  }

  datatype Mean = Mean(sums: seq<real>, w: real)

  /** The running sums of one group. */
  ghost predicate IsMean(mean: Mean, rows: seq<Observation>, group: string, width: nat, k: nat)
    requires k <= |rows| && SameWidth(rows, width)
  {
    && |mean.sums| == width && mean.w == GroupWeight(rows, group, k)
    && forall c :: 0 <= c < width ==> mean.sums[c] == GroupSum(rows, group, c, k)
  }

  ghost predicate IsMeans(means: map<string, Mean>, rows: seq<Observation>, width: nat, k: nat)
    requires k <= |rows| && SameWidth(rows, width)
  {
    && (forall g :: g in means ==> IsMean(means[g], rows, g, width, k))
    && (forall i :: 0 <= i < k ==> rows[i].group in means)
    && (forall g, c :: g !in means && 0 <= c < width ==> GroupSum(rows, g, c, k) == 0.0)
    && (forall g :: g !in means ==> GroupWeight(rows, g, k) == 0.0)
  }

  method AddValues(sums: seq<real>, w: real, values: seq<real>) returns (r: seq<real>)
    requires |sums| == |values|
    ensures |r| == |sums| && forall c :: 0 <= c < |sums| ==> r[c] == sums[c] + Mul(w, values[c])
  {
    r := sums;
    for i := 0 to |sums|
      invariant |r| == |sums|
      invariant forall c :: 0 <= c < |sums| ==> r[c] == sums[c] + if c < i then Mul(w, values[c]) else 0.0
    {
      r := r[i := r[i] + Mul(w, values[i])];
    }
  }

  lemma {:induction false} MeansStep(
      means: map<string, Mean>, rows: seq<Observation>, width: nat, k: nat, mean: Mean, sums: seq<real>)
    requires k < |rows| && SameWidth(rows, width) && IsMeans(means, rows, width, k)
    requires mean == if rows[k].group in means then means[rows[k].group] else Mean(seq(width, _ => 0.0), 0.0)
    requires |sums| == |mean.sums| == width
    requires forall c :: 0 <= c < width ==> sums[c] == mean.sums[c] + Mul(rows[k].w, rows[k].values[c])
    ensures IsMeans(means[rows[k].group := Mean(sums, mean.w + rows[k].w)], rows, width, k + 1)
  {
    hide Mul;
    var next := means[rows[k].group := Mean(sums, mean.w + rows[k].w)];
    assert IsMean(mean, rows, rows[k].group, width, k);
    forall g | g in next ensures IsMean(next[g], rows, g, width, k + 1) {
      if g != rows[k].group { assert IsMean(means[g], rows, g, width, k); }
    }
    var k1 := k + 1;
    forall g | g !in next
      ensures GroupWeight(rows, g, k1) == 0.0
      ensures forall c :: 0 <= c < width ==> GroupSum(rows, g, c, k1) == 0.0
    {
      assert g !in means;
      forall c | 0 <= c < width ensures GroupSum(rows, g, c, k1) == 0.0 {
        assert GroupSum(rows, g, c, k) == 0.0;
      }
    }
  }

  method GroupMeans(rows: seq<Observation>, width: nat) returns (means: map<string, Mean>)
    requires SameWidth(rows, width)
    ensures IsMeans(means, rows, width, |rows|)
  {
    hide Mul;
    means := map[];
    for k := 0 to |rows|
      invariant IsMeans(means, rows, width, k)
    {
      var row := rows[k];
      var mean := if row.group in means then means[row.group] else Mean(seq(width, _ => 0.0), 0.0);
      assert row.group in means ==> IsMean(means[row.group], rows, row.group, width, k);
      var sums := AddValues(mean.sums, row.w, row.values);
      MeansStep(means, rows, width, k, mean, sums);
      means := means[row.group := Mean(sums, mean.w + row.w)];
    }
  }

  /** Row `i` with its group's weighted mean taken from every column. */
  ghost predicate IsCentred(row: Observation, centred: Observation, rows: seq<Observation>, width: nat)
    requires SameWidth(rows, width) && |row.values| == width
  {
    var w := GroupWeight(rows, row.group, |rows|);
    && w > 0.0 && centred.group == row.group && centred.w == row.w && |centred.values| == width
    && forall c :: 0 <= c < width ==> centred.values[c] == row.values[c] - GroupSum(rows, row.group, c, |rows|) / w
  }

  ghost predicate AllCentred(rows: seq<Observation>, centred: seq<Observation>, width: nat)
    requires SameWidth(rows, width)
  {
    |centred| == |rows| && forall i :: 0 <= i < |rows| ==> IsCentred(rows[i], centred[i], rows, width)
  }

  /** Fails exactly when some row's group has no positive weight. */
  method Demean(rows: seq<Observation>, width: nat) returns (r: Option<seq<Observation>>)
    requires SameWidth(rows, width)
    ensures r.Some? <==> forall i :: 0 <= i < |rows| ==> GroupWeight(rows, rows[i].group, |rows|) > 0.0
    ensures r.Some? ==> AllCentred(rows, r.value, width)
  {
    hide Mul;
    var means := GroupMeans(rows, width);
    var out := [];
    for i := 0 to |rows|
      invariant |out| == i
      invariant forall t :: 0 <= t < i ==> IsCentred(rows[t], out[t], rows, width)
    {
      var row := rows[i];
      var mean := means[row.group];
      if !(mean.w > 0.0) { return None; }
      var values := seq(width, c requires 0 <= c < width => row.values[c] - mean.sums[c] / mean.w);
      out := out + [row.(values := values)];
    }
    r := Some(out);
  }

  lemma {:induction false} CentredSumPrefix(
      rows: seq<Observation>, centred: seq<Observation>, width: nat, group: string, column: nat, mean: real, k: nat)
    requires SameWidth(rows, width) && SameWidth(centred, width) && |centred| == |rows| && column < width && k <= |rows|
    requires forall i :: 0 <= i < |rows| ==> centred[i].group == rows[i].group && centred[i].w == rows[i].w
    requires forall i :: 0 <= i < |rows| && rows[i].group == group ==>
      centred[i].values[column] == rows[i].values[column] - mean
    ensures GroupSum(centred, group, column, k) == GroupSum(rows, group, column, k) - Mul(GroupWeight(rows, group, k), mean)
    ensures GroupWeight(centred, group, k) == GroupWeight(rows, group, k)
  {
    hide Mul;
    MulZero(mean);
    if k > 0 {
      CentredSumPrefix(rows, centred, width, group, column, mean, k - 1);
      ShiftedTerm(rows[k - 1].w, rows[k - 1].values[column], mean, GroupWeight(rows, group, k - 1));
    }
  }

  lemma {:induction false} ShiftedTerm(w: real, v: real, mean: real, total: real)
    ensures Mul(w, v - mean) == Mul(w, v) - Mul(w, mean)
    ensures Mul(total + w, mean) == Mul(total, mean) + Mul(w, mean)
  {}

  /** Every column of a demeaned group has weighted sum zero. */
  lemma {:induction false} CentredSumsVanish(
      rows: seq<Observation>, centred: seq<Observation>, width: nat, group: string, column: nat)
    requires SameWidth(rows, width) && SameWidth(centred, width) && AllCentred(rows, centred, width) && column < width
    ensures GroupSum(centred, group, column, |rows|) == 0.0
  {
    hide Mul;
    var w, s := GroupWeight(rows, group, |rows|), GroupSum(rows, group, column, |rows|);
    if i :| 0 <= i < |rows| && rows[i].group == group {
      assert IsCentred(rows[i], centred[i], rows, width);
      forall t | 0 <= t < |rows| && rows[t].group == group
        ensures centred[t].values[column] == rows[t].values[column] - s / w
      {
        assert IsCentred(rows[t], centred[t], rows, width);
      }
      forall t | 0 <= t < |rows| ensures centred[t].group == rows[t].group && centred[t].w == rows[t].w {
        assert IsCentred(rows[t], centred[t], rows, width);
      }
      CentredSumPrefix(rows, centred, width, group, column, s / w, |rows|);
      TimesQuotient(w, s);
    } else {
      forall t | 0 <= t < |rows| ensures centred[t].group != group {
        assert IsCentred(rows[t], centred[t], rows, width);
      }
      NoMembers(centred, group, column, |rows|);
    }
  }

  lemma {:induction false} TimesQuotient(w: real, s: real)
    requires w != 0.0
    ensures Mul(w, s / w) == s
  {}

  lemma {:induction false} NoMembers(rows: seq<Observation>, group: string, column: nat, k: nat)
    requires k <= |rows| && forall i :: 0 <= i < |rows| ==> column < |rows[i].values| && rows[i].group != group
    ensures GroupSum(rows, group, column, k) == 0.0
  {
    if k > 0 { NoMembers(rows, group, column, k - 1); }
  }

  /** `shifted` adds the constant `c` to one column of one group. */
  ghost predicate IsShift(
      rows: seq<Observation>, shifted: seq<Observation>, width: nat, group: string, column: nat, c: real)
    requires SameWidth(rows, width)
  {
    && |shifted| == |rows| && column < width
    && forall i :: 0 <= i < |rows| ==>
      shifted[i] == if rows[i].group == group
        then rows[i].(values := rows[i].values[column := rows[i].values[column] + c]) else rows[i]
  }

  lemma {:induction false} ShiftedSums(
      rows: seq<Observation>, shifted: seq<Observation>, width: nat, group: string, column: nat, c: real,
      g: string, col: nat, k: nat)
    requires SameWidth(rows, width) && SameWidth(shifted, width) && IsShift(rows, shifted, width, group, column, c)
    requires col < width && k <= |rows|
    ensures GroupWeight(shifted, g, k) == GroupWeight(rows, g, k)
    ensures GroupSum(shifted, g, col, k) == GroupSum(rows, g, col, k)
      + if g == group && col == column then Mul(GroupWeight(rows, g, k), c) else 0.0
  {
    hide Mul;
    MulZero(c);
    if k > 0 {
      ShiftedSums(rows, shifted, width, group, column, c, g, col, k - 1);
      AddedTerm(rows[k - 1].w, rows[k - 1].values[col], c, GroupWeight(rows, g, k - 1));
    }
  }

  lemma {:induction false} AddedTerm(w: real, v: real, c: real, total: real)
    ensures Mul(w, v + c) == Mul(w, v) + Mul(w, c)
    ensures Mul(total + w, c) == Mul(total, c) + Mul(w, c)
  {}

  /** A constant added to one column of one group leaves the demeaned rows unchanged. */
  lemma {:induction false} ShiftInvisible(
      rows: seq<Observation>, shifted: seq<Observation>, width: nat, group: string, column: nat, c: real,
      centred: seq<Observation>)
    requires SameWidth(rows, width) && SameWidth(shifted, width) && IsShift(rows, shifted, width, group, column, c)
    requires AllCentred(rows, centred, width)
    ensures AllCentred(shifted, centred, width)
  {
    hide Mul;
    forall i | 0 <= i < |rows| ensures IsCentred(shifted[i], centred[i], shifted, width) {
      assert IsCentred(rows[i], centred[i], rows, width);
      var g := rows[i].group;
      var w := GroupWeight(rows, g, |rows|);
      EqualWeight(rows, shifted, width, group, column, c, g);
      forall col | 0 <= col < width
        ensures centred[i].values[col] == shifted[i].values[col] - GroupSum(shifted, g, col, |rows|) / w
      {
        ShiftedSums(rows, shifted, width, group, column, c, g, col, |rows|);
        ShiftedMean(GroupSum(rows, g, col, |rows|), w, c);
      }
    }
  }

  lemma {:induction false} EqualWeight(
      rows: seq<Observation>, shifted: seq<Observation>, width: nat, group: string, column: nat, c: real, g: string)
    requires SameWidth(rows, width) && SameWidth(shifted, width) && IsShift(rows, shifted, width, group, column, c)
    ensures GroupWeight(shifted, g, |rows|) == GroupWeight(rows, g, |rows|)
  {
    ShiftedSums(rows, shifted, width, group, column, c, g, column, |rows|);
  }

  lemma {:induction false} ShiftedMean(s: real, w: real, c: real)
    requires w != 0.0
    ensures (s + Mul(w, c)) / w == s / w + c
  {}

  // ---- The park biases --------------------------------------------------------------------------

  /** The contrast of park `i` against the average of all parks; the last park is the baseline. */
  function CenteringTransform(parks: nat, columns: nat): (t: Matrix)
    requires 0 < parks <= columns + 1
    ensures IsMatrix(t, parks, columns)
  {
    seq(parks, i => seq(columns, j => if j < parks - 1 then Delta(i, j) - 1.0 / parks as real else 0.0))
  }

  /** The sum of entry `j` over the first `k` rows. */
  function ColumnTotal(t: Matrix, j: nat, k: nat): real
    requires k <= |t| && forall i :: 0 <= i < |t| ==> j < |t[i]|
  {
    if k == 0 then 0.0 else ColumnTotal(t, j, k - 1) + t[k - 1][j]
  }

  lemma {:induction false} TransformTotal(parks: nat, columns: nat, j: nat, k: nat)
    requires 0 < parks <= columns + 1 && j < columns && k <= parks
    ensures ColumnTotal(CenteringTransform(parks, columns), j, k)
      == if j < parks - 1 then (if j < k then 1.0 else 0.0) - Mul(k as real, 1.0 / parks as real) else 0.0
  {
    hide Mul;
    var share := 1.0 / parks as real;
    MulZero(share);
    if k > 0 {
      TransformTotal(parks, columns, j, k - 1);
      OneTimesMore(k - 1, share);
    }
  }

  /** The first `k` park biases on one axis, summed. */
  function BiasTotal(t: Matrix, beta: Matrix, axis: nat, k: nat): real
    requires k <= |t| && IsMatrix(t, |t|, |beta|) && forall j :: 0 <= j < |beta| ==> axis < |beta[j]|
  {
    if k == 0 then 0.0 else BiasTotal(t, beta, axis, k - 1) + ColDot(t[k - 1], beta, axis, |beta|)
  }

  lemma {:induction false} BiasTotalIsColDot(t: Matrix, beta: Matrix, axis: nat, totals: seq<real>, k: nat)
    requires k <= |t| && IsMatrix(t, |t|, |beta|) && forall j :: 0 <= j < |beta| ==> axis < |beta[j]|
    requires |totals| == |beta| && forall j :: 0 <= j < |beta| ==> totals[j] == ColumnTotal(t, j, k)
    ensures BiasTotal(t, beta, axis, k) == ColDot(totals, beta, axis, |beta|)
    decreases k
  {
    hide Mul;
    if k == 0 {
      ColDotZero(totals, beta, axis, |beta|);
    } else {
      var less := seq(|beta|, j requires 0 <= j < |beta| => ColumnTotal(t, j, k - 1));
      BiasTotalIsColDot(t, beta, axis, less, k - 1);
      forall j | 0 <= j < |beta| ensures totals[j] == Mul(1.0, less[j]) + Mul(1.0, t[k - 1][j]) {
        TimesOne(less[j]);
        TimesOne(t[k - 1][j]);
      }
      ColDotLinear(totals, 1.0, less, 1.0, t[k - 1], beta, axis, |beta|);
      TimesOne(ColDot(less, beta, axis, |beta|));
      TimesOne(ColDot(t[k - 1], beta, axis, |beta|));
    }
  }

  /** On each axis the park biases sum to exactly zero, whatever the coefficients. */
  lemma {:induction false} BiasesSumToZero(parks: nat, beta: Matrix, axis: nat)
    requires 0 < parks <= |beta| + 1 && forall j :: 0 <= j < |beta| ==> axis < |beta[j]|
    ensures BiasTotal(CenteringTransform(parks, |beta|), beta, axis, parks) == 0.0
  {
    hide Mul;
    var t := CenteringTransform(parks, |beta|);
    var totals := seq(|beta|, j requires 0 <= j < |beta| => ColumnTotal(t, j, parks));
    forall j | 0 <= j < |beta| ensures totals[j] == 0.0 {
      TransformTotal(parks, |beta|, j, parks);
      TimesReciprocal(parks as real);
    }
    BiasTotalIsColDot(t, beta, axis, totals, parks);
    ColDotZero(totals, beta, axis, |beta|);
  }

  /** The bias of a park exceeds that of the last one by its own coefficient: the last park is the baseline. */
  lemma {:induction false} BiasDifference(parks: nat, beta: Matrix, axis: nat, i: nat)
    requires 0 < parks <= |beta| + 1 && i < parks && forall j :: 0 <= j < |beta| ==> axis < |beta[j]|
    ensures var t := CenteringTransform(parks, |beta|);
      ColDot(t[i], beta, axis, |beta|) - ColDot(t[parks - 1], beta, axis, |beta|)
        == if i < parks - 1 then beta[i][axis] else 0.0
  {
    hide Mul;
    var t, n := CenteringTransform(parks, |beta|), |beta|;
    if i < parks - 1 {
      var unit := seq(n, j => Delta(i, j));
      forall j | 0 <= j < n ensures t[i][j] == Mul(1.0, t[parks - 1][j]) + Mul(1.0, unit[j]) {
        TimesOne(t[parks - 1][j]);
        TimesOne(unit[j]);
      }
      ColDotLinear(t[i], 1.0, t[parks - 1], 1.0, unit, beta, axis, n);
      TimesOne(ColDot(t[parks - 1], beta, axis, n));
      TimesOne(ColDot(unit, beta, axis, n));
      ColDotUnit(unit, i, beta, axis, n);
    }
  }

  lemma {:induction false} TimesReciprocal(n: real)
    requires n != 0.0
    ensures Mul(n, 1.0 / n) == 1.0
  {}

  // ---- The normal equations ---------------------------------------------------------------------

  /** Entry (i, j) of the weighted cross products of the first `k` rows. */
  function NormalEntry(rows: seq<Observation>, i: nat, j: nat, k: nat): real
    requires k <= |rows| && forall t :: 0 <= t < |rows| ==> i < |rows[t].values| && j < |rows[t].values|
  {
    if k == 0 then 0.0 else
      NormalEntry(rows, i, j, k - 1) + Mul(Mul(rows[k - 1].w, rows[k - 1].values[i]), rows[k - 1].values[j])
  }

  function NormalMatrix(rows: seq<Observation>, width: nat, columns: nat, k: nat): (m: Matrix)
    requires SameWidth(rows, width) && columns <= width && k <= |rows|
    ensures IsMatrix(m, columns, columns)
  {
    seq(columns, i requires 0 <= i < columns =>
      seq(columns, j requires 0 <= j < columns => NormalEntry(rows, i, j, k)))
  }

  /** Adds w . x . transpose(x) for the first columns of one row. */
  method AddCrossProducts(out: seq<array<real>>, row: Observation)
    requires SquareRows(out, |out|) && |out| <= |row.values|
    modifies out
    ensures forall i, j :: 0 <= i < |out| && 0 <= j < |out| ==>
      out[i][j] == old(out[i][j]) + Mul(Mul(row.w, row.values[i]), row.values[j])
  {
    hide Mul;
    for i := 0 to |out|
      invariant forall r, j :: i <= r < |out| && 0 <= j < |out| ==> out[r][j] == old(out[r][j])
      invariant forall r, j :: 0 <= r < i && 0 <= j < |out| ==>
        out[r][j] == old(out[r][j]) + Mul(Mul(row.w, row.values[r]), row.values[j])
    {
      AddMultiple(out[i], Mul(row.w, row.values[i]), row.values);
      assert forall r :: 0 <= r < |out| && r != i ==> out[r] != out[i];
    }
  }

  method AddMultiple(target: array<real>, factor: real, x: seq<real>)
    requires target.Length <= |x|
    modifies target
    ensures forall j :: 0 <= j < target.Length ==> target[j] == old(target[j]) + Mul(factor, x[j])
  {
    hide Mul;
    for j := 0 to target.Length
      invariant forall t :: 0 <= t < target.Length ==>
        target[t] == old(target[t]) + if t < j then Mul(factor, x[t]) else 0.0
    {
      target[j] := target[j] + Mul(factor, x[j]);
    }
  }

  method NormalEquations(rows: seq<Observation>, width: nat, columns: nat) returns (normal: Matrix)
    requires SameWidth(rows, width) && columns <= width
    ensures normal == NormalMatrix(rows, width, columns, |rows|)
  {
    hide Mul;
    var out := Solver.ZeroRows(columns);
    for k := 0 to |rows|
      invariant SquareRows(out, columns) && fresh(out)
      invariant forall i, j :: 0 <= i < columns && 0 <= j < columns ==> out[i][j] == NormalEntry(rows, i, j, k)
    {
      AddCrossProducts(out, rows[k]);
    }
    normal := Solver.Freeze(out);
    assert forall i :: 0 <= i < columns ==> normal[i] == NormalMatrix(rows, width, columns, |rows|)[i];
  }

  ghost predicate WeightsNonNegative(rows: seq<Observation>) {
    forall i :: 0 <= i < |rows| ==> 0.0 <= rows[i].w
  }

  /** One more row adds w (x . y)^2 to the form. */
  lemma {:induction false} FormGrows(rows: seq<Observation>, width: nat, columns: nat, y: seq<real>, k: nat)
    requires SameWidth(rows, width) && columns <= width && |y| == columns && k < |rows|
    ensures var x := rows[k].values[..columns];
      Dot(y, Solver.Act(NormalMatrix(rows, width, columns, k + 1), y), columns)
        == Dot(y, Solver.Act(NormalMatrix(rows, width, columns, k), y), columns)
           + Mul(rows[k].w, Mul(Dot(x, y, columns), Dot(x, y, columns)))
  {
    hide Mul;
    var x, w := rows[k].values[..columns], rows[k].w;
    var before, after := NormalMatrix(rows, width, columns, k), NormalMatrix(rows, width, columns, k + 1);
    var factor := Mul(w, Dot(x, y, columns));
    forall l | 0 <= l < columns
      ensures Solver.Act(after, y)[l] == Mul(1.0, Solver.Act(before, y)[l]) + Mul(factor, x[l])
    {
      forall j | 0 <= j < columns ensures after[l][j] == Mul(1.0, before[l][j]) + Mul(Mul(w, x[l]), x[j]) {
        TimesOne(before[l][j]);
      }
      DotLinear(after[l], 1.0, before[l], Mul(w, x[l]), x, y, columns);
      SwapLast(w, x[l], Dot(x, y, columns));
    }
    DotLinear(Solver.Act(after, y), 1.0, Solver.Act(before, y), factor, x, y, columns);
    DotCommutes(Solver.Act(after, y), y, columns);
    DotCommutes(Solver.Act(before, y), y, columns);
    TimesOne(Dot(Solver.Act(before, y), y, columns));
    MulAssociative(w, Dot(x, y, columns), Dot(x, y, columns));
  }

  lemma {:induction false} SwapLast(x: real, y: real, z: real)
    ensures Mul(Mul(x, y), z) == Mul(Mul(x, z), y)
  {}

  lemma {:induction false} FormNonNegative(rows: seq<Observation>, width: nat, columns: nat, y: seq<real>, k: nat)
    requires SameWidth(rows, width) && WeightsNonNegative(rows) && columns <= width && |y| == columns && k <= |rows|
    ensures 0.0 <= Dot(y, Solver.Act(NormalMatrix(rows, width, columns, k), y), columns)
  {
    hide Mul;
    if k == 0 {
      var zeros := Solver.Act(NormalMatrix(rows, width, columns, 0), y);
      forall l | 0 <= l < columns ensures zeros[l] == 0.0 {
        ZeroDot(NormalMatrix(rows, width, columns, 0)[l], y, columns);
      }
      ZeroDot(zeros, y, columns);
      DotCommutes(zeros, y, columns);
    } else {
      FormNonNegative(rows, width, columns, y, k - 1);
      FormGrows(rows, width, columns, y, k - 1);
      var d := Dot(rows[k - 1].values[..columns], y, columns);
      Solver.SquareNonNegative(d);
      Solver.ProductNonNegative(rows[k - 1].w, Mul(d, d));
    }
  }

  lemma {:induction false} NormalSymmetric(rows: seq<Observation>, i: nat, j: nat, k: nat)
    requires k <= |rows| && forall t :: 0 <= t < |rows| ==> i < |rows[t].values| && j < |rows[t].values|
    ensures NormalEntry(rows, i, j, k) == NormalEntry(rows, j, i, k)
  {
    hide Mul;
    if k > 0 {
      NormalSymmetric(rows, i, j, k - 1);
      SwapLast(rows[k - 1].w, rows[k - 1].values[i], rows[k - 1].values[j]);
    }
  }

  /** On its normal equations the solver never runs out of rounds, so a fit is never refused for that. */
  lemma {:induction false} NormalEquationsConverge(rows: seq<Observation>, width: nat, columns: nat)
    requires SameWidth(rows, width) && WeightsNonNegative(rows) && 1 <= columns <= width && columns <= 100000000
    ensures var m := NormalMatrix(rows, width, columns, |rows|);
      Symmetric(m, columns) && Solver.Semidefinite(m) && !Solver.Stalls(m)
  {
    hide Mul, Solver.Stalls;
    var m := NormalMatrix(rows, width, columns, |rows|);
    forall i, j | 0 <= i < columns && 0 <= j < columns ensures m[i][j] == m[j][i] {
      NormalSymmetric(rows, i, j, |rows|);
    }
    forall y: seq<real> | |y| == columns ensures 0.0 <= Dot(y, Solver.Act(m, y), columns) {
      FormNonNegative(rows, width, columns, y, |rows|);
    }
    Solver.SemidefiniteConverges(m);
  }

  // ---- Identified contrasts ---------------------------------------------------------------------

  lemma {:induction false} SpectralSymmetric(v: Matrix, d: seq<real>, i: nat, j: nat, k: nat)
    requires IsMatrix(v, |v|, |v|) && |d| == |v| && i < |v| && j < |v| && k <= |v|
    ensures Solver.SpectralEntry(v, d, i, j, k) == Solver.SpectralEntry(v, d, j, i, k)
  {
    if k > 0 { SpectralSymmetric(v, d, i, j, k - 1); }
  }

  /** Pseudo-inverse times input is the projection, up to the solver's residual. */
  lemma {:induction false} InverseTimesInput(
      r: Solver.Inverted, a: Matrix, m: Matrix, tolerance: real, cutoff: real, i: nat, j: nat)
    requires Solver.Solves(r, a, m, tolerance, cutoff) && Symmetric(m, |m|) && i < |m| && j < |m|
    ensures IsMatrix(a, |m|, |m|) && IsMatrix(r.vectors, |m|, |m|) && |r.values| == |m|
    ensures IsMatrix(r.projection, |m|, |m|) && IsMatrix(r.inverse, |m|, |m|)
    ensures ColDot(r.inverse[i], m, j, |m|) == r.projection[i][j] + Solver.Residual(r, a, cutoff, j, i)
  {
    hide Mul, Solver.Residual;
    var n := |m|;
    Solver.SolvedColumns(r, a, m, tolerance, cutoff);
    Solver.PseudoInverseSolves(r, a, m, tolerance, cutoff, j, i);
    SpectralSymmetric(r.vectors, Solver.Kept(r.values, cutoff), i, j, n);
    forall k | 0 <= k < n ensures r.inverse[i][k] == r.inverse[k][i] {
      SpectralSymmetric(r.vectors, Solver.Reciprocals(r.values, cutoff), i, k, n);
    }
    ColDotIsDot(r.inverse[i], m, j, m[j], n);
    DotCommutes(r.inverse[i], m[j], n);
    ColDotIsDot(m[j], r.inverse, i, r.inverse[i], n);
  }

  const IDENTIFIED: real := 0.0000001

  /** The test of the source: the projection moves no entry of the contrast by more than 1e-7. */
  ghost predicate Identified(contrast: seq<real>, projection: Matrix) {
    && IsMatrix(projection, |contrast|, |contrast|)
    && forall j :: 0 <= j < |contrast| ==>
      Abs(contrast[j] - ColDot(contrast, projection, j, |contrast|)) <= IDENTIFIED
  }

  /** What the projection changes in the contrast. */
  function Drift(contrast: seq<real>, projection: Matrix): (d: seq<real>)
    requires IsMatrix(projection, |contrast|, |contrast|)
    ensures |d| == |contrast|
  {
    seq(|contrast|, j requires 0 <= j < |contrast| => ColDot(contrast, projection, j, |contrast|) - contrast[j])
  }

  /** The solver's residuals, transposed. */
  function Residuals(r: Solver.Inverted, a: Matrix, cutoff: real): (e: Matrix)
    requires IsMatrix(a, |a|, |a|) && IsMatrix(r.vectors, |a|, |a|) && |r.values| == |a| && 0.0 <= cutoff
    ensures IsMatrix(e, |a|, |a|)
  {
    seq(|a|, i requires 0 <= i < |a| => seq(|a|, j requires 0 <= j < |a| => Solver.Residual(r, a, cutoff, j, i)))
  }

  /** The fit solves the normal equations. */
  ghost predicate SolvesNormal(m: Matrix, rhs: seq<real>, solution: seq<real>) {
    && IsMatrix(m, |m|, |m|) && |rhs| == |solution| == |m|
    && forall i :: 0 <= i < |m| ==> Dot(m[i], solution, |m|) == rhs[i]
  }

  ghost predicate IsFit(r: Solver.Inverted, rhs: seq<real>, beta: seq<real>) {
    && IsMatrix(r.inverse, |rhs|, |rhs|) && |beta| == |rhs|
    && forall i :: 0 <= i < |rhs| ==> beta[i] == Dot(r.inverse[i], rhs, |rhs|)
  }

  /** The fitted coefficients are the projected solution plus the residuals at the solution. */
  lemma {:induction false} FitOfSolution(r: Solver.Inverted, a: Matrix, m: Matrix, tolerance: real, cutoff: real,
      rhs: seq<real>, beta: seq<real>, solution: seq<real>, i: nat)
    requires Solver.Solves(r, a, m, tolerance, cutoff) && Symmetric(m, |m|) && i < |m|
    requires SolvesNormal(m, rhs, solution) && IsFit(r, rhs, beta)
    ensures IsMatrix(a, |m|, |m|) && IsMatrix(r.vectors, |m|, |m|) && |r.values| == |m|
    ensures IsMatrix(r.projection, |m|, |m|)
    ensures beta[i] == Dot(r.projection[i], solution, |m|) + Dot(Residuals(r, a, cutoff)[i], solution, |m|)
  {
    hide Mul, Solver.Solves, Solver.Residual;
    var n := |m|;
    ShapeOfIterate(r, a, m, tolerance, cutoff);
    InverseTimesInput(r, a, m, tolerance, cutoff, i, i);
    var column: Matrix := seq(n, t requires 0 <= t < n => [solution[t]]);
    var e := Residuals(r, a, cutoff)[i];
    var product := Solver.Plus(1.0, r.projection[i], 1.0, e);
    forall t | 0 <= t < n
      ensures rhs[t] == ColDot(m[t], column, 0, n)
      ensures product[t] == ColDot(r.inverse[i], m, t, n)
    {
      ColDotIsDot(m[t], column, 0, solution, n);
      InverseTimesInput(r, a, m, tolerance, cutoff, i, t);
      TimesOne(r.projection[i][t]);
      TimesOne(e[t]);
    }
    ColDotAssociative(r.inverse[i], m, column, 0, product, rhs, n, n);
    ColDotIsDot(product, column, 0, solution, n);
    DotLinear(product, 1.0, r.projection[i], 1.0, e, solution, n);
    TimesOne(Dot(r.projection[i], solution, n));
    TimesOne(Dot(e, solution, n));
  }

  /**
   * The fitted value of a contrast is its value at any solution of the normal equations, plus what the projection
   * changes in the contrast and what the solver leaves off the diagonal.
   */
  lemma {:induction false} ContrastValue(r: Solver.Inverted, a: Matrix, m: Matrix, tolerance: real, cutoff: real,
      contrast: seq<real>, rhs: seq<real>, beta: seq<real>, solution: seq<real>)
    requires Solver.Solves(r, a, m, tolerance, cutoff) && Symmetric(m, |m|) && |contrast| == |m|
    requires SolvesNormal(m, rhs, solution) && IsFit(r, rhs, beta)
    ensures IsMatrix(a, |m|, |m|) && IsMatrix(r.vectors, |m|, |m|) && |r.values| == |m|
    ensures IsMatrix(r.projection, |m|, |m|)
    ensures Dot(contrast, beta, |m|) == Dot(contrast, solution, |m|)
      + Dot(Drift(contrast, r.projection), solution, |m|)
      + Dot(contrast, Solver.Act(Residuals(r, a, cutoff), solution), |m|)
  {
    hide Mul, Solver.Solves, Residuals;
    var n := |m|;
    Solver.SolvedColumns(r, a, m, tolerance, cutoff);
    ShapeOfIterate(r, a, m, tolerance, cutoff);
    var missed, projected := Solver.Act(Residuals(r, a, cutoff), solution), Solver.Act(r.projection, solution);
    forall i | 0 <= i < n ensures beta[i] == Mul(1.0, projected[i]) + Mul(1.0, missed[i]) {
      FitOfSolution(r, a, m, tolerance, cutoff, rhs, beta, solution, i);
      TimesOne(projected[i]);
      TimesOne(missed[i]);
    }
    DotLinear(beta, 1.0, projected, 1.0, missed, contrast, n);
    TimesOne(Dot(projected, contrast, n));
    TimesOne(Dot(missed, contrast, n));
    DotCommutes(beta, contrast, n);
    DotCommutes(projected, contrast, n);
    DotCommutes(missed, contrast, n);
    ProjectedContrast(contrast, r.projection, solution);
  }

  lemma {:induction false} ShapeOfIterate(r: Solver.Inverted, a: Matrix, m: Matrix, tolerance: real, cutoff: real)
    requires Solver.Solves(r, a, m, tolerance, cutoff)
    ensures IsMatrix(a, |m|, |m|) && 0.0 <= cutoff
  {}

  lemma {:induction false} ProjectedContrast(contrast: seq<real>, projection: Matrix, solution: seq<real>)
    requires IsMatrix(projection, |contrast|, |contrast|) && |solution| == |contrast|
    ensures Dot(contrast, Solver.Act(projection, solution), |contrast|)
      == Dot(contrast, solution, |contrast|) + Dot(Drift(contrast, projection), solution, |contrast|)
  {
    hide Mul;
    var n := |contrast|;
    var drift, projected := Drift(contrast, projection), Solver.Act(projection, solution);
    var column: Matrix := seq(n, t requires 0 <= t < n => [solution[t]]);
    var image := Solver.Plus(1.0, contrast, 1.0, drift);
    forall t | 0 <= t < n
      ensures projected[t] == ColDot(projection[t], column, 0, n)
      ensures image[t] == ColDot(contrast, projection, t, n)
    {
      ColDotIsDot(projection[t], column, 0, solution, n);
      TimesOne(contrast[t]);
      TimesOne(drift[t]);
    }
    ColDotAssociative(contrast, projection, column, 0, image, projected, n, n);
    ColDotIsDot(image, column, 0, solution, n);
    DotLinear(image, 1.0, contrast, 1.0, drift, solution, n);
    TimesOne(Dot(contrast, solution, n));
    TimesOne(Dot(drift, solution, n));
  }

  ghost predicate Within(x: seq<real>, bound: real) {
    forall t :: 0 <= t < |x| ==> Abs(x[t]) <= bound
  }

  /** n . 1e-7 . size for the identification test, and n^2 . weight . missed . size for the solver. */
  function ContrastError(n: nat, weight: real, missed: real, size: real): real {
    Mul(n as real, Mul(IDENTIFIED, size)) + Mul(n as real, Mul(weight, Mul(n as real, Mul(missed, size))))
  }

  /**
   * An identified contrast has one value over all solutions of the normal equations, up to the two tolerances:
   * `missed` bounds the residuals, which `Solver.ResidualBound` does for a converged solver.
   */
  lemma {:induction false} ContrastIdentified(r: Solver.Inverted, a: Matrix, m: Matrix, tolerance: real, cutoff: real,
      contrast: seq<real>, rhs: seq<real>, beta: seq<real>, solution: seq<real>, weight: real, missed: real, size: real)
    requires Solver.Solves(r, a, m, tolerance, cutoff) && Symmetric(m, |m|) && |contrast| == |m|
    requires SolvesNormal(m, rhs, solution) && IsFit(r, rhs, beta)
    requires Identified(contrast, r.projection) && Within(contrast, weight) && Within(solution, size)
    requires IsMatrix(a, |m|, |m|) && IsMatrix(r.vectors, |m|, |m|) && |r.values| == |m|
    requires forall i, j :: 0 <= i < |m| && 0 <= j < |m| ==> Abs(Solver.Residual(r, a, cutoff, i, j)) <= missed
    ensures Abs(Dot(contrast, beta, |m|) - Dot(contrast, solution, |m|)) <= ContrastError(|m|, weight, missed, size)
  {
    hide Mul, Solver.Solves, Solver.Residual, IsFit;
    ShapeOfIterate(r, a, m, tolerance, cutoff);
    var n, drift, e := |m|, Drift(contrast, r.projection), Residuals(r, a, cutoff);
    ContrastValue(r, a, m, tolerance, cutoff, contrast, rhs, beta, solution);
    Solver.DotBelow(drift, solution, IDENTIFIED, size, n);
    forall i | 0 <= i < n ensures Abs(Solver.Act(e, solution)[i]) <= Mul(n as real, Mul(missed, size)) {
      Solver.DotBelow(e[i], solution, missed, size, n);
    }
    Solver.DotBelow(contrast, Solver.Act(e, solution), weight, Mul(n as real, Mul(missed, size)), n);
  }
}
