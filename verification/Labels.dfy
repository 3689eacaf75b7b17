/** Label placement of the charts: labels in order, pushed apart until none overlap, over the reals. */
module Labels {

  // ----- stable sorting by a key -----

  predicate Ordered<T>(s: seq<T>, key: T -> real) {
    forall i, j | 0 <= i < j < |s| :: key(s[i]) <= key(s[j])
  }

  function Insert<T>(x: T, s: seq<T>, key: T -> real): (r: seq<T>)
    requires Ordered(s, key)
    ensures multiset(r) == multiset(s) + multiset{x}
  {
    if s == [] || key(x) <= key(s[0]) then [x] + s
    else
      assert s == [s[0]] + s[1..];
      [s[0]] + Insert(x, s[1..], key)
  }

  lemma {:induction false} InsertOrders<T>(x: T, s: seq<T>, key: T -> real)
    requires Ordered(s, key)
    ensures Ordered(Insert(x, s, key), key)
  {
    if s != [] && key(x) > key(s[0]) {
      var r := Insert(x, s[1..], key);
      InsertOrders(x, s[1..], key);
      forall j | 0 <= j < |r| ensures key(s[0]) <= key(r[j]) {
        assert r[j] in multiset(r);
        assert r[j] == x || r[j] in s[1..];
      }
    }
  }

  function SortedBy<T>(s: seq<T>, key: T -> real): (r: seq<T>)
    ensures Ordered(r, key) && multiset(r) == multiset(s)
  {
    if s == [] then []
    else
      InsertOrders(s[0], SortedBy(s[1..], key), key);
      assert s == [s[0]] + s[1..];
      Insert(s[0], SortedBy(s[1..], key), key)
  }

  /** The elements with this key, in order. */
  function WithKey<T>(s: seq<T>, key: T -> real, v: real): seq<T> {
    if s == [] then [] else (if key(s[0]) == v then [s[0]] else []) + WithKey(s[1..], key, v)
  }

  lemma {:induction false} InsertIsStable<T>(x: T, s: seq<T>, key: T -> real, v: real)
    requires Ordered(s, key)
    ensures WithKey(Insert(x, s, key), key, v) == WithKey([x] + s, key, v)
  {
    assert ([x] + s)[1..] == s;
    if s != [] && key(x) > key(s[0]) {
      InsertIsStable(x, s[1..], key, v);
      assert ([x] + s[1..])[1..] == s[1..];
      assert ([s[0]] + Insert(x, s[1..], key))[1..] == Insert(x, s[1..], key);
    }
  }

  /** Sorting is stable: elements with the same key keep their order. */
  lemma {:induction false} SortIsStable<T>(s: seq<T>, key: T -> real, v: real)
    ensures WithKey(SortedBy(s, key), key, v) == WithKey(s, key, v)
  {
    if s != [] {
      var rest := SortedBy(s[1..], key);
      SortIsStable(s[1..], key, v);
      InsertOrders(s[0], rest, key);
      InsertIsStable(s[0], rest, key, v);
      assert ([s[0]] + rest)[1..] == rest;
    }
  }

  // ----- pushing down -----

  /** Each value, or one gap below the one before it if that is lower. */
  function Down(ys: seq<real>, gap: real): (r: seq<real>)
    ensures |r| == |ys|
  {
    if ys == [] then []
    else
      var r := Down(ys[..|ys| - 1], gap);
      var y := ys[|ys| - 1];
      r + [if r != [] && y > r[|r| - 1] - gap then r[|r| - 1] - gap else y]
  }

  /** No label above its value, and consecutive ones at least a gap apart. */
  ghost predicate Fits(ds: seq<real>, ys: seq<real>, gap: real) {
    && |ds| == |ys|
    && (forall i | 0 <= i < |ds| :: ds[i] <= ys[i])
    && (forall i | 0 < i < |ds| :: ds[i] <= ds[i - 1] - gap)
  }

  ghost predicate Below(ds: seq<real>, es: seq<real>) {
    |ds| == |es| && forall i | 0 <= i < |ds| :: ds[i] <= es[i]
  }

  lemma {:induction false} DownFits(ys: seq<real>, gap: real)
    ensures Fits(Down(ys, gap), ys, gap)
  {
    if ys != [] {
      DownFits(ys[..|ys| - 1], gap);
    }
  }

  lemma {:induction false} NothingFitsAbove(ds: seq<real>, ys: seq<real>, gap: real)
    requires Fits(ds, ys, gap)
    ensures Below(ds, Down(ys, gap))
  {
    if ys != [] {
      NothingFitsAbove(ds[..|ds| - 1], ys[..|ys| - 1], gap);
    }
  }

  /** The pass is optimal: its result is the one placement that fits and that no other fitting
      placement exceeds anywhere. */
  lemma DownIsOptimal(ds: seq<real>, ys: seq<real>, gap: real)
    ensures ds == Down(ys, gap) <==> Fits(ds, ys, gap) && forall es :: Fits(es, ys, gap) ==> Below(es, ds)
  {
    DownFits(ys, gap);
    forall es | Fits(es, ys, gap) ensures Below(es, Down(ys, gap)) {
      NothingFitsAbove(es, ys, gap);
    }
    if Fits(ds, ys, gap) && forall es :: Fits(es, ys, gap) ==> Below(es, ds) {
      assert Below(Down(ys, gap), ds) && Below(ds, Down(ys, gap));
    }
  }

  lemma {:induction false} DownStep(ys: seq<real>, gap: real, i: nat)
    requires i < |ys|
    ensures Down(ys, gap)[i] ==
      if i > 0 && ys[i] > Down(ys, gap)[i - 1] - gap then Down(ys, gap)[i - 1] - gap else ys[i]
  {
    if i < |ys| - 1 {
      DownStep(ys[..|ys| - 1], gap, i);
    }
  }

  /** Where label j alone would push label i. */
  function Pushed(ys: seq<real>, gap: real, j: nat, i: nat): real
    requires j <= i < |ys|
  {
    ys[j] - (i - j) as real * gap
  }

  lemma PushedNext(ys: seq<real>, gap: real, j: nat, i: nat)
    requires j <= i < |ys| - 1
    ensures Pushed(ys, gap, j, i + 1) == Pushed(ys, gap, j, i) - gap
  {
    assert (i + 1 - j) as real == (i - j) as real + 1.0;
    assert ((i - j) as real + 1.0) * gap == (i - j) as real * gap + gap;
  }

  /** In closed form: each label is as low as the label that pushes it most, itself included. */
  lemma {:induction false} DownIsAMinimum(ys: seq<real>, gap: real, i: nat) returns (j: nat)
    requires i < |ys|
    ensures j <= i && Down(ys, gap)[i] == Pushed(ys, gap, j, i)
    ensures forall k: nat :: k <= i ==> Down(ys, gap)[i] <= Pushed(ys, gap, k, i)
  {
    DownStep(ys, gap, i);
    assert Pushed(ys, gap, i, i) == ys[i] by {
      assert 0.0 * gap == 0.0;
    }
    j := i;
    if i > 0 {
      var before := DownIsAMinimum(ys, gap, i - 1);
      PushedNext(ys, gap, before, i - 1);
      forall k: nat | k < i ensures Down(ys, gap)[i] <= Pushed(ys, gap, k, i) {
        PushedNext(ys, gap, k, i - 1);
      }
      if ys[i] > Down(ys, gap)[i - 1] - gap {
        j := before;
      }
    }
  }

  /** Two labels are at least a gap apart. */
  predicate Apart(a: real, b: real, gap: real) {
    a - b >= gap || b - a >= gap
  }

  /** Every two of them are. */
  ghost predicate PairsApart(ys: seq<real>, gap: real) {
    forall i, j | 0 <= i < j < |ys| :: Apart(ys[i], ys[j], gap)
  }

  ghost predicate Descending(ys: seq<real>) {
    forall i, j | 0 <= i < j < |ys| :: ys[i] >= ys[j]
  }

  /** Labels in descending order stay at their values exactly when every two are a gap apart. */
  lemma DownKeeps(ys: seq<real>, gap: real)
    requires Descending(ys)
    ensures Down(ys, gap) == ys <==> PairsApart(ys, gap)
  {
    if Down(ys, gap) == ys {
      DownFits(ys, gap);
      forall i, j | 0 <= i < j < |ys| ensures Apart(ys[i], ys[j], gap) {
        assert ys[j] <= ys[j - 1] - gap;
      }
    }
    if PairsApart(ys, gap) {
      forall i | 0 < i < |ys| ensures ys[i] <= ys[i - 1] - gap {
        assert Apart(ys[i - 1], ys[i], gap);
      }
      assert Fits(ys, ys, gap);
      NothingFitsAbove(ys, ys, gap);
      DownFits(ys, gap);
    }
  }

  // ----- the charts' inline labels -----

  class Proposal {
    const yTrue: real
    var yDraw: real

    constructor (y: real)
      ensures yTrue == y
    {
      yTrue, yDraw := y, y;
    }
  }

  /** Sorting by it puts the highest label first. */
  function Depth(p: Proposal): real {
    -p.yTrue
  }

  function Trues(ps: seq<Proposal>): seq<real> {
    seq(|ps|, i requires 0 <= i < |ps| => ps[i].yTrue)
  }

  predicate Distinct<T(==)>(s: seq<T>) {
    forall i, j | 0 <= i < j < |s| :: s[i] != s[j]
  }

  lemma {:induction false} DistinctSorted<T>(s: seq<T>, r: seq<T>)
    requires Distinct(s) && multiset(r) == multiset(s)
    ensures Distinct(r)
  {
    forall i, j | 0 <= i < j < |r| ensures r[i] != r[j] {
      Counted(s, r[i]);
      assert r == r[..j] + [r[j]] + r[j + 1..];
      assert r[i] in r[..j];
    }
  }

  lemma {:induction false} Counted<T>(s: seq<T>, x: T)
    requires Distinct(s)
    ensures multiset(s)[x] <= 1
  {
    if s != [] {
      var n := |s| - 1;
      Counted(s[..n], x);
      assert s == s[..n] + [s[n]];
      assert s[n] !in s[..n];
    }
  }

  /** Walks down the sorted labels and stores where each is drawn. */
  method PushDown(ordered: seq<Proposal>, gap: real)
    requires Distinct(ordered)
    modifies set p <- ordered
    ensures forall i | 0 <= i < |ordered| :: ordered[i].yDraw == Down(Trues(ordered), gap)[i]
  {
    var prevY := 0.0;
    for i := 0 to |ordered|
      invariant forall k | 0 <= k < i :: ordered[k].yDraw == Down(Trues(ordered), gap)[k]
      invariant i > 0 ==> prevY == Down(Trues(ordered), gap)[i - 1]
    {
      var p := ordered[i];
      var y := p.yTrue;
      if i > 0 && y > prevY - gap {
        y := prevY - gap;
      }
      DownStep(Trues(ordered), gap, i);
      p.yDraw := y;
      prevY := y;
    }
  }

  function Gap(yPeak: real, gapFrac: real): real {
    yPeak * gapFrac
  }

  lemma SameMembers<T>(s: seq<T>, r: seq<T>)
    requires multiset(r) == multiset(s)
    ensures forall x :: x in r <==> x in s
  {
    forall x ensures x in r <==> x in s {
      assert x in r <==> x in multiset(r);
    }
  }

  lemma GapDescends(ys: seq<real>, yPeak: real, gapFrac: real)
    requires gapFrac >= 0.0
    ensures var ds := Down(ys, Gap(yPeak, gapFrac));
      && (forall i | 0 <= i < |ds| :: ds[i] <= ys[i])
      && (yPeak >= 0.0 ==> Descending(ds))
  {
    DownFits(ys, Gap(yPeak, gapFrac));
    if yPeak >= 0.0 {
      Descends(Down(ys, Gap(yPeak, gapFrac)), Gap(yPeak, gapFrac));
    }
  }

  lemma {:induction false} Descends(ds: seq<real>, gap: real)
    requires gap >= 0.0 && forall i | 0 < i < |ds| :: ds[i] <= ds[i - 1] - gap
    ensures forall i, j | 0 <= i < j < |ds| :: ds[j] <= ds[i]
  {
    if |ds| > 1 {
      var n := |ds| - 1;
      Descends(ds[..n], gap);
      assert forall i | 0 <= i < n :: ds[..n][n - 1] <= ds[..n][i] || i == n - 1;
      assert ds[n] <= ds[n - 1];
    }
  }

  lemma TrueOrder(proposals: seq<Proposal>, ordered: seq<Proposal>)
    requires ordered == SortedBy(proposals, Depth)
    ensures Descending(Trues(ordered))
  {
    forall i, j | 0 <= i < j < |ordered| ensures ordered[i].yTrue >= ordered[j].yTrue {
      assert Depth(ordered[i]) <= Depth(ordered[j]);
    }
  }

  /** Every two of the proposals are at least a gap apart. */
  ghost predicate AllApart(proposals: seq<Proposal>, gap: real) {
    forall p <- proposals, q <- proposals | p != q :: Apart(p.yTrue, q.yTrue, gap)
  }

  lemma ApartInOrder(proposals: seq<Proposal>, ordered: seq<Proposal>, gap: real)
    requires Distinct(ordered) && forall p :: p in ordered <==> p in proposals
    ensures AllApart(proposals, gap) <==> PairsApart(Trues(ordered), gap)
  {
    if PairsApart(Trues(ordered), gap) {
      forall p, q | p in proposals && q in proposals && p != q ensures Apart(p.yTrue, q.yTrue, gap) {
        var i :| 0 <= i < |ordered| && ordered[i] == p;
        var j :| 0 <= j < |ordered| && ordered[j] == q;
        assert if i < j then Apart(Trues(ordered)[i], Trues(ordered)[j], gap)
               else Apart(Trues(ordered)[j], Trues(ordered)[i], gap);
      }
    }
  }

  /** The labels that are drawn: those inside the frame. They go from the highest to the lowest, and all stay
      at their values exactly when every two of them are a gap apart. When the peak is not negative they are a run
      of the sorted labels; what is dropped above was above the peak from the start, and what is
      dropped below is a suffix. */
  method PlaceInlineLabels(proposals: seq<Proposal>, yPeak: real, gapFrac: real)
      returns (ordered: seq<Proposal>, drawn: seq<Proposal>, ghost first: nat, ghost last: nat)
    requires Distinct(proposals) && gapFrac >= 0.0
    modifies set p <- proposals
    ensures ordered == SortedBy(proposals, Depth) && multiset(ordered) == multiset(proposals)
    ensures Descending(Trues(ordered))
    ensures AllApart(proposals, yPeak * gapFrac) <==> AtTheirValues(proposals)
    ensures Draws(ordered) == Down(Trues(ordered), Gap(yPeak, gapFrac))
    ensures first <= last <= |ordered| && drawn == ordered[first..last]
    ensures yPeak >= 0.0 ==> InFrame(Draws(ordered), first, last, yPeak)
    ensures yPeak >= 0.0 ==> forall i | 0 <= i < first :: Trues(ordered)[i] > yPeak
    ensures yPeak < 0.0 ==> drawn == []
  {
    ordered, drawn, first, last := SortedBy(proposals, Depth), [], 0, 0;
    if proposals == [] {
      return;
    }
    Nudge(proposals, ordered, yPeak, gapFrac);
    GapDescends(Trues(ordered), yPeak, gapFrac);
    drawn, first, last := Draw(ordered, yPeak);
  }

  /** Where the labels are drawn. */
  ghost function Draws(ps: seq<Proposal>): seq<real>
    reads ps
  {
    seq(|ps|, i requires 0 <= i < |ps| reads ps => ps[i].yDraw)
  }

  /** The heights from `first` to `last` are those inside the frame; before them are those above it, and
      after them those below it. */
  ghost predicate InFrame(ys: seq<real>, first: nat, last: nat, yPeak: real)
    requires first <= last <= |ys|
  {
    && (forall i | 0 <= i < first :: ys[i] > yPeak)
    && (forall i | first <= i < last :: 0.0 <= ys[i] <= yPeak)
    && (forall i | last <= i < |ys| :: ys[i] < 0.0)
  }

  /** Every label is drawn at its own value. */
  ghost predicate AtTheirValues(proposals: seq<Proposal>)
    reads proposals
  {
    forall p <- proposals :: p.yDraw == p.yTrue
  }

  /** The walk over the sorted labels, with what it means for them. */
  method Nudge(ghost proposals: seq<Proposal>, ordered: seq<Proposal>, yPeak: real, gapFrac: real)
    requires Distinct(proposals) && ordered == SortedBy(proposals, Depth)
    modifies set p <- proposals
    ensures Descending(Trues(ordered))
    ensures Draws(ordered) == Down(Trues(ordered), Gap(yPeak, gapFrac))
    ensures AllApart(proposals, yPeak * gapFrac) <==> AtTheirValues(proposals)
  {
    DistinctSorted(proposals, ordered);
    SameMembers(proposals, ordered);
    TrueOrder(proposals, ordered);
    PushDown(ordered, Gap(yPeak, gapFrac));
    StaysPut(proposals, ordered, yPeak, gapFrac);
  }

  lemma StaysPut(proposals: seq<Proposal>, ordered: seq<Proposal>, yPeak: real, gapFrac: real)
    requires Distinct(ordered) && forall p :: p in ordered <==> p in proposals
    requires Descending(Trues(ordered))
    requires Draws(ordered) == Down(Trues(ordered), Gap(yPeak, gapFrac))
    ensures AllApart(proposals, yPeak * gapFrac) <==> AtTheirValues(proposals)
  {
    ApartInOrder(proposals, ordered, yPeak * gapFrac);
    DownKeeps(Trues(ordered), yPeak * gapFrac);
    DrawnAtTrue(proposals, ordered, Down(Trues(ordered), yPeak * gapFrac));
  }

  lemma DrawnAtTrue(proposals: seq<Proposal>, ordered: seq<Proposal>, ds: seq<real>)
    requires forall p :: p in ordered <==> p in proposals
    requires ds == Draws(ordered)
    ensures AtTheirValues(proposals) <==> ds == Trues(ordered)
  {
    if AtTheirValues(proposals) {
      forall i | 0 <= i < |ordered| ensures ds[i] == Trues(ordered)[i] {
        assert ordered[i] in proposals && ds[i] == ordered[i].yDraw;
      }
    }
    if ds == Trues(ordered) {
      forall p | p in proposals ensures p.yDraw == p.yTrue {
        var i :| 0 <= i < |ordered| && ordered[i] == p;
        assert ds[i] == p.yDraw && Trues(ordered)[i] == p.yTrue;
      }
    }
  }

  method Draw(ordered: seq<Proposal>, yPeak: real) returns (drawn: seq<Proposal>, ghost first: nat, ghost last: nat)
    requires yPeak >= 0.0 ==> Descending(Draws(ordered))
    ensures first <= last <= |ordered| && drawn == ordered[first..last]
    ensures yPeak >= 0.0 ==> InFrame(Draws(ordered), first, last, yPeak)
    ensures yPeak < 0.0 ==> drawn == []
  {
    ghost var ys := Draws(ordered);
    drawn, first, last := [], 0, 0;
    for i := 0 to |ordered|
      invariant first <= last <= i && drawn == ordered[first..last]
      invariant yPeak < 0.0 ==> drawn == []
      invariant yPeak >= 0.0 ==> InFrame(ys[..i], first, last, yPeak)
    {
      var y := ordered[i].yDraw;
      assert y == ys[i] && ys[..i + 1] == ys[..i] + [y];
      assert yPeak >= 0.0 && first < i ==> ys[..i][first] == ys[first] >= y;
      assert yPeak >= 0.0 && last < i ==> ys[..i][last] == ys[last] >= y;
      if y < 0.0 {
      } else if y > yPeak {
        if yPeak >= 0.0 {
          first, last := i + 1, i + 1;
        }
      } else {
        drawn := drawn + [ordered[i]];
        last := i + 1;
        assert ordered[first..last] == ordered[first..i] + [ordered[i]];
      }
    }
    assert ys[..|ordered|] == ys;
  }

  // ----- the race chart's end labels -----

  function Negated(ys: seq<real>): (r: seq<real>)
    ensures |r| == |ys|
    ensures forall i | 0 <= i < |r| :: r[i] == -ys[i]
  {
    seq(|ys|, i requires 0 <= i < |ys| => -ys[i])
  }

  /** The mirror image of pushing down. */
  function Up(ys: seq<real>, gap: real): (r: seq<real>)
    ensures |r| == |ys|
  {
    Negated(Down(Negated(ys), gap))
  }

  /** No label below its value, and consecutive ones at least a gap apart. */
  ghost predicate FitsUp(ds: seq<real>, ys: seq<real>, gap: real) {
    && |ds| == |ys|
    && (forall i | 0 <= i < |ds| :: ys[i] <= ds[i])
    && (forall i | 0 < i < |ds| :: ds[i - 1] + gap <= ds[i])
  }

  /** The upward pass gives the lowest placement that fits. */
  lemma UpIsOptimal(ds: seq<real>, ys: seq<real>, gap: real)
    ensures ds == Up(ys, gap) <==> FitsUp(ds, ys, gap) && forall es :: FitsUp(es, ys, gap) ==> Below(ds, es)
  {
    DownFits(Negated(ys), gap);
    assert FitsUp(Up(ys, gap), ys, gap);
    forall es | FitsUp(es, ys, gap) ensures Below(Up(ys, gap), es) {
      NothingFitsAbove(Negated(es), Negated(ys), gap);
    }
    if FitsUp(ds, ys, gap) && forall es :: FitsUp(es, ys, gap) ==> Below(ds, es) {
      assert Below(Up(ys, gap), ds) && Below(ds, Up(ys, gap));
    }
  }

  /** A label: its height, and the rest of it. */
  datatype Label = Label(y: real, content: string)

  const MIN_GAP := 6.0

  function Heights(labels: seq<Label>): (r: seq<real>)
    ensures |r| == |labels|
    ensures forall i | 0 <= i < |r| :: r[i] == labels[i].y
  {
    seq(|labels|, i requires 0 <= i < |labels| => labels[i].y)
  }

  /** The pass over the sorted labels, in place. */
  method PushUp(labels: array<Label>)
    modifies labels
    ensures forall i | 0 <= i < labels.Length ::
      labels[i] == old(labels[i]).(y := Up(Heights(old(labels[..])), MIN_GAP)[i])
  {
    ghost var ys := Heights(labels[..]);
    if labels.Length > 0 {
      DownStep(Negated(ys), MIN_GAP, 0);
    }
    var i := 1;
    while i < labels.Length
      invariant 1 <= i && (labels.Length > 0 ==> i <= labels.Length)
      invariant forall k | 0 <= k < i && k < labels.Length :: labels[k] == old(labels[k]).(y := Up(ys, MIN_GAP)[k])
      invariant forall k | i <= k < labels.Length :: labels[k] == old(labels[k])
    {
      DownStep(Negated(ys), MIN_GAP, i);
      if labels[i].y - labels[i - 1].y < MIN_GAP {
        labels[i] := labels[i].(y := labels[i - 1].y + MIN_GAP);
      }
      i := i + 1;
    }
  }

  function Height(l: Label): real {
    l.y
  }

  /** Every two labels are at least this far apart. */
  ghost predicate Spread(labels: seq<Label>, gap: real) {
    PairsApart(Heights(labels), gap)
  }

  lemma SpreadSorted(labels: seq<Label>, sorted: seq<Label>, gap: real)
    requires multiset(labels) == multiset(sorted) && gap > 0.0
    ensures Spread(labels, gap) ==> Spread(sorted, gap)
  {
    if Spread(labels, gap) {
      forall i, j | 0 <= i < j < |labels| ensures labels[i] != labels[j] {
        assert Apart(Heights(labels)[i], Heights(labels)[j], gap);
      }
      DistinctSorted(labels, sorted);
      SameMembers(labels, sorted);
      forall i, j | 0 <= i < j < |sorted| ensures Apart(sorted[i].y, sorted[j].y, gap) {
        TwoOfThem(labels, sorted[i], sorted[j], gap);
      }
    }
  }

  lemma TwoOfThem(labels: seq<Label>, a: Label, b: Label, gap: real)
    requires Spread(labels, gap) && a in labels && b in labels && a != b
    ensures Apart(a.y, b.y, gap)
  {
    var i :| 0 <= i < |labels| && labels[i] == a;
    var j :| 0 <= j < |labels| && labels[j] == b;
    assert if i < j then Apart(Heights(labels)[i], Heights(labels)[j], gap)
           else Apart(Heights(labels)[j], Heights(labels)[i], gap);
  }

  lemma Mirrored(ys: seq<real>, gap: real)
    ensures Negated(Negated(ys)) == ys && (PairsApart(Negated(ys), gap) <==> PairsApart(ys, gap))
  {
    if PairsApart(Negated(ys), gap) {
      forall i, j | 0 <= i < j < |ys| ensures Apart(ys[i], ys[j], gap) {
        assert Apart(Negated(ys)[i], Negated(ys)[j], gap);
      }
    }
  }

  /** Labels in ascending order stay at their values exactly when every two are a gap apart. */
  lemma UpKeeps(ys: seq<real>, gap: real)
    requires Descending(Negated(ys))
    ensures Up(ys, gap) == ys <==> PairsApart(ys, gap)
  {
    Mirrored(ys, gap);
    Mirrored(Down(Negated(ys), gap), gap);
    DownKeeps(Negated(ys), gap);
  }

  lemma Ascends(labels: seq<Label>, sorted: seq<Label>)
    requires sorted == SortedBy(labels, Height)
    ensures forall i, j | 0 <= i < j < |sorted| :: sorted[i].y <= sorted[j].y
    ensures Descending(Negated(Heights(sorted)))
  {
    forall i, j | 0 <= i < j < |sorted| ensures sorted[i].y <= sorted[j].y {
      assert Height(sorted[i]) <= Height(sorted[j]);
    }
  }

  lemma SamePlaces(sorted: seq<Label>, placed: seq<Label>, ys: seq<real>)
    requires |placed| == |sorted| == |ys| && forall i | 0 <= i < |sorted| :: placed[i] == sorted[i].(y := ys[i])
    ensures placed == sorted <==> ys == Heights(sorted)
  {
    if placed == sorted {
      forall i | 0 <= i < |ys| ensures ys[i] == Heights(sorted)[i] {
        assert placed[i] == sorted[i];
      }
    }
  }

  lemma LabelsStay(labels: seq<Label>, sorted: seq<Label>, placed: seq<Label>)
    requires sorted == SortedBy(labels, Height) && |placed| == |sorted|
    requires forall i | 0 <= i < |sorted| :: placed[i] == sorted[i].(y := Up(Heights(sorted), MIN_GAP)[i])
    ensures forall i, j | 0 <= i < j < |sorted| :: sorted[i].y <= sorted[j].y
    ensures Spread(labels, 6.0) <==> placed == sorted
  {
    Ascends(labels, sorted);
    UpKeeps(Heights(sorted), MIN_GAP);
    SamePlaces(sorted, placed, Up(Heights(sorted), MIN_GAP));
    SpreadSorted(labels, sorted, MIN_GAP);
    SpreadSorted(sorted, labels, MIN_GAP);
  }

  /** Sorts the labels by height, and pushes them up; they all stay at their heights exactly when every two of
      them are 6 apart. */
  method LabelLines(labels: array<Label>)
    modifies labels
    ensures var sorted := SortedBy(old(labels[..]), Height);
      && |sorted| == labels.Length
      && multiset(sorted) == multiset(old(labels[..]))
      && (forall i | 0 <= i < labels.Length :: labels[i] == sorted[i].(y := Up(Heights(sorted), MIN_GAP)[i]))
      && (forall i, j | 0 <= i < j < |sorted| :: sorted[i].y <= sorted[j].y)
      && (Spread(old(labels[..]), 6.0) <==> labels[..] == sorted)
  {
    var sorted := SortedBy(labels[..], Height);
    SameLength(labels[..], sorted);
    forall i | 0 <= i < labels.Length {
      labels[i] := sorted[i];
    }
    assert labels[..] == sorted;
    PushUp(labels);
    LabelsStay(old(labels[..]), sorted, labels[..]);
  }

  lemma SameLength<T>(s: seq<T>, r: seq<T>)
    requires multiset(s) == multiset(r)
    ensures |s| == |r|
  {
    assert |multiset(s)| == |s| && |multiset(r)| == |r|;
  }

  /** How many of the first n points come before a point after `now`. */
  function Reached(xs: seq<real>, n: nat, now: real): (k: nat)
    requires n <= |xs|
    ensures k <= n && (forall i | 0 <= i < k :: xs[i] <= now) && (k < n ==> xs[k] > now)
  {
    if n == 0 then 0
    else
      var k := Reached(xs, n - 1, now);
      if k == n - 1 && xs[k] <= now then n else k
  }

  /** The part of a series up to `now`, held at its last value until `now`. */
  method ClipSeries(xs: seq<real>, ys: seq<real>, now: real) returns (outX: seq<real>, outY: seq<real>)
    ensures var k := Reached(xs, if |xs| < |ys| then |xs| else |ys|, now);
      && (k == 0 ==> outX == outY == [])
      && (k > 0 ==> |outX| == |outY| >= k && outX[..k] == xs[..k] && outY[..k] == ys[..k])
      && (k > 0 ==> |outX| == k + if xs[k - 1] < now then 1 else 0)
      && (k > 0 ==> outX[|outX| - 1] == now && outY[|outY| - 1] == ys[k - 1])
  {
    outX, outY := [], [];
    var n := if |xs| < |ys| then |xs| else |ys|;
    for i := 0 to n
      invariant |outX| == i && outX == xs[..i] && outY == ys[..i] && forall j | 0 <= j < i :: xs[j] <= now
    {
      if xs[i] > now {
        break;
      }
      outX := outX + [xs[i]];
      outY := outY + [ys[i]];
    }
    assert Reached(xs, n, now) == |outX|;
    if outX != [] && outX[|outX| - 1] < now {
      outX := outX + [now];
      outY := outY + [outY[|outY| - 1]];
    }
  }
}
