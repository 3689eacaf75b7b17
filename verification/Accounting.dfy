/** The benchmark's accounting: from the notice log to the gap-filled CSV, and from the CSV to the
    backlog and to the completion curve. */
module Accounting {

  /** A NOTICE line: n events were consumed at an epoch second. */
  datatype Notice = Notice(ts: int, n: nat)

  datatype CsvRow = CsvRow(second: nat, events: nat)

  datatype BacklogRow = BacklogRow(second: nat, cumulative: nat, remaining: nat)

  // ----- what the files mean -----

  /** Seconds since the start; what came before the start counts as second 0. */
  function Second(e: Notice, t0: int): nat {
    if e.ts < t0 then 0 else e.ts - t0
  }

  /** The start of the bucket of width w around x. */
  function Start(x: nat, w: nat): nat
    requires w >= 1
  {
    x / w * w
  }

  function Sum(log: seq<Notice>): nat {
    if log == [] then 0 else Sum(log[..|log| - 1]) + log[|log| - 1].n
  }

  /** The events consumed before a second. */
  function Before(log: seq<Notice>, t0: int, second: nat): nat {
    if log == [] then 0
    else
      var last := log[|log| - 1];
      Before(log[..|log| - 1], t0, second) + if Second(last, t0) < second then last.n else 0
  }

  /** The events of the bucket that starts at s. */
  function InBucket(log: seq<Notice>, t0: int, w: nat, s: nat): nat
    requires w >= 1
  {
    if log == [] then 0
    else
      var last := log[|log| - 1];
      InBucket(log[..|log| - 1], t0, w, s) + if Start(Second(last, t0), w) == s then last.n else 0
  }

  /** The buckets that are not empty of notices. */
  function Starts(log: seq<Notice>, t0: int, w: nat): set<nat>
    requires w >= 1
  {
    set e <- log :: Start(Second(e, t0), w)
  }

  function Get(hist: map<nat, nat>, s: nat): nat {
    if s in hist then hist[s] else 0
  }

  function Total(rows: seq<CsvRow>): nat {
    if rows == [] then 0 else Total(rows[..|rows| - 1]) + rows[|rows| - 1].events
  }

  function Remaining(messageCount: int, consumed: nat): nat {
    if messageCount < consumed then 0 else messageCount - consumed
  }

  // ----- bucket arithmetic -----

  lemma Apart(a: nat, b: nat, w: nat)
    requires a < b
    ensures a * w + w <= b * w
  {
    var d: nat := b - a - 1;
    assert b == a + 1 + d;
    assert b * w == (a + 1 + d) * w == a * w + 1 * w + d * w;
    assert d * w >= 0;
  }

  /** A bucket holds the seconds from its start up to the next start. */
  lemma StartMeans(x: nat, w: nat, i: nat)
    requires w >= 1
    ensures Start(x, w) == i * w <==> i * w <= x < i * w + w
  {
    var a := x / w;
    assert x == a * w + x % w;
    if a < i { Apart(a, i, w); }
    if i < a { Apart(i, a, w); }
  }

  /** In the log's own time: bucket i holds the notices from i to i + 1 widths after the start, and the first
      one also all those before the start. */
  lemma NoticeInBucket(e: Notice, t0: int, w: nat, i: nat)
    requires w >= 1
    ensures Start(Second(e, t0), w) == i * w <==>
      e.ts < t0 + i * w + w && (i > 0 ==> t0 + i * w <= e.ts)
  {
    StartMeans(Second(e, t0), w, i);
    if i > 0 {
      Apart(0, i, w);
    }
  }

  // ----- parse_events_consumed.py -----

  /** The histogram by bucket start. */
  method Bucket(events: seq<Notice>, t0: int, width: nat) returns (hist: map<nat, nat>)
    requires width >= 1
    ensures hist.Keys == Starts(events, t0, width)
    ensures forall s: nat :: Get(hist, s) == InBucket(events, t0, width, s)
  {
    hist := map[];
    for i := 0 to |events|
      invariant hist.Keys == Starts(events[..i], t0, width)
      invariant forall s: nat :: Get(hist, s) == InBucket(events[..i], t0, width, s)
    {
      var s := events[i].ts - t0;
      if s < 0 {
        s := 0;
      }
      var bucketStart := Start(s, width);
      hist := hist[bucketStart := Get(hist, bucketStart) + events[i].n];
      assert events[..i + 1][..i] == events[..i];
      OneMoreStart(events, t0, width, i);
    }
    assert events[..|events|] == events;
  }

  /** The last key in order. */
  function MaxKey(keys: set<nat>): (m: nat)
    requires keys != {}
    ensures IsMax(m, keys)
  {
    MaxExists(keys);
    var m :| IsMax(m, keys);
    m
  }

  predicate IsMax(m: nat, keys: set<nat>) {
    m in keys && forall k <- keys :: k <= m
  }

  lemma MaxExists(keys: set<nat>)
    requires keys != {}
    ensures exists m :: IsMax(m, keys)
  {
    var _ := FindMax(keys);
  }

  lemma {:induction false} FindMax(keys: set<nat>) returns (m: nat)
    requires keys != {}
    ensures IsMax(m, keys)
  {
    m :| m in keys;
    var rest := keys - {m};
    if rest != {} {
      var best := FindMax(rest);
      m := if best < m then m else best;
    }
    assert forall k | k in keys && k !in rest :: k <= m;
  }

  lemma OneMoreStart(log: seq<Notice>, t0: int, w: nat, i: nat)
    requires w >= 1 && i < |log|
    ensures Starts(log[..i + 1], t0, w) == Starts(log[..i], t0, w) + {Start(Second(log[i], t0), w)}
  {
    assert log[..i + 1] == log[..i] + [log[i]];
  }

  /** The stepping loop: one row for every bucket from 0 to the last one, number m. */
  method FillRows(hist: map<nat, nat>, maxSec: nat, width: nat, ghost m: nat) returns (rows: seq<CsvRow>)
    requires width >= 1 && maxSec == m * width
    ensures |rows| == m + 1
    ensures forall i: nat | i < |rows| :: rows[i] == CsvRow(i * width, Get(hist, i * width))
  {
    rows := [];
    var s := 0;
    while s < maxSec + width
      invariant s == |rows| * width && |rows| <= m + 1
      invariant forall i: nat | i < |rows| :: rows[i] == CsvRow(i * width, Get(hist, i * width))
      decreases m + 1 - |rows|
    {
      StepsStay(|rows|, m, width);
      rows := rows + [CsvRow(s, Get(hist, s))];
      s := s + width;
    }
    StepsStay(|rows|, m, width);
  }

  lemma StepsStay(n: nat, m: nat, w: nat)
    requires w >= 1
    ensures (n + 1) * w == n * w + w && (n * w < m * w + w <==> n <= m)
  {
    if n < m { Apart(n, m, w); }
    if m < n { Apart(m, n, w); }
  }

  /** Row i is bucket i. */
  ghost predicate IsSeries(rows: seq<CsvRow>, log: seq<Notice>, t0: int, w: nat)
    requires w >= 1
  {
    forall i: nat | i < |rows| :: rows[i] == CsvRow(i * w, InBucket(log, t0, w, i * w))
  }

  /** No notice falls behind the last row, and the last row's bucket has one. */
  ghost predicate Covers(n: nat, log: seq<Notice>, t0: int, w: nat)
    requires w >= 1
  {
    && (forall e <- log :: Second(e, t0) / w < n)
    && (n > 0 ==> exists e <- log :: Second(e, t0) / w == n - 1)
  }

  lemma LastCovers(log: seq<Notice>, t0: int, w: nat, m: nat)
    requires w >= 1 && m * w in Starts(log, t0, w) && forall s <- Starts(log, t0, w) :: s <= m * w
    ensures Covers(m + 1, log, t0, w)
  {
    forall e | e in log ensures Second(e, t0) / w <= m {
      assert Start(Second(e, t0), w) in Starts(log, t0, w);
      StepsStay(Second(e, t0) / w, m, w);
    }
    var e :| e in log && Start(Second(e, t0), w) == m * w;
    StepsStay(m, Second(e, t0) / w, w);
  }

  /** The CSV of a log: every bucket from 0 to the last one that has a notice, the others filled
      with zero. A log without notices gives no row. */
  method WriteCsv(events: seq<Notice>, t0: int, width: nat) returns (rows: seq<CsvRow>)
    requires width >= 1
    ensures IsSeries(rows, events, t0, width) && Covers(|rows|, events, t0, width)
  {
    if events == [] {
      return [];
    }
    var hist := Bucket(events, t0, width);
    assert Start(Second(events[0], t0), width) in hist.Keys;
    var maxSec := MaxKey(hist.Keys);
    ghost var e :| e in events && Start(Second(e, t0), width) == maxSec;
    rows := FillRows(hist, maxSec, width, Second(e, t0) / width);
    LastCovers(events, t0, width, Second(e, t0) / width);
  }

  // ----- conservation -----

  /** Everything before a bucket, and the bucket, is everything before the next one. */
  lemma {:induction false} OneMoreBucket(log: seq<Notice>, t0: int, w: nat, i: nat)
    requires w >= 1
    ensures Before(log, t0, i * w) + InBucket(log, t0, w, i * w) == Before(log, t0, i * w + w)
  {
    if log != [] {
      OneMoreBucket(log[..|log| - 1], t0, w, i);
      StartMeans(Second(log[|log| - 1], t0), w, i);
    }
  }

  lemma {:induction false} NothingBefore(log: seq<Notice>, t0: int)
    ensures Before(log, t0, 0) == 0
  {
    if log != [] {
      NothingBefore(log[..|log| - 1], t0);
    }
  }

  /** The first i rows hold exactly the events consumed before second i * w. */
  lemma {:induction false} RowsCountTheLog(rows: seq<CsvRow>, log: seq<Notice>, t0: int, w: nat, i: nat)
    requires w >= 1 && IsSeries(rows, log, t0, w) && i <= |rows|
    ensures Total(rows[..i]) == Before(log, t0, i * w)
  {
    if i == 0 {
      NothingBefore(log, t0);
    } else {
      RowsCountTheLog(rows, log, t0, w, i - 1);
      OneMoreBucket(log, t0, w, i - 1);
      StepsStay(i - 1, i, w);
      assert rows[..i][..i - 1] == rows[..i - 1];
    }
  }

  lemma {:induction false} EverythingBefore(log: seq<Notice>, t0: int, second: nat)
    requires forall e <- log :: Second(e, t0) < second
    ensures Before(log, t0, second) == Sum(log)
  {
    if log != [] {
      EverythingBefore(log[..|log| - 1], t0, second);
      assert log[|log| - 1] in log;
    }
  }

  lemma BucketEnds(x: nat, w: nat, n: nat)
    requires w >= 1 && x / w < n
    ensures x < n * w
  {
    StartMeans(x, w, x / w);
    Apart(x / w, n, w);
  }

  /** Conservation: the CSV sums to all the events of the log. */
  lemma CsvSumsToTheLog(rows: seq<CsvRow>, log: seq<Notice>, t0: int, w: nat)
    requires w >= 1 && IsSeries(rows, log, t0, w) && Covers(|rows|, log, t0, w)
    ensures Total(rows) == Sum(log)
  {
    RowsCountTheLog(rows, log, t0, w, |rows|);
    assert rows[..|rows|] == rows;
    forall e | e in log ensures Second(e, t0) < |rows| * w {
      BucketEnds(Second(e, t0), w, |rows|);
    }
    EverythingBefore(log, t0, |rows| * w);
  }

  // ----- run.py and completion_latency.py -----

  /** The messages left when the rows up to i are consumed. */
  function BacklogAt(csv: seq<CsvRow>, messageCount: int, i: nat): BacklogRow
    requires i < |csv|
  {
    BacklogRow(csv[i].second, Total(csv[..i + 1]), Remaining(messageCount, Total(csv[..i + 1])))
  }

  /** derive_backlog. */
  method DeriveBacklog(csv: seq<CsvRow>, messageCount: int) returns (rows: seq<BacklogRow>)
    ensures |rows| == |csv|
    ensures forall i: nat | i < |csv| :: rows[i] == BacklogAt(csv, messageCount, i)
  {
    var cumulative := 0;
    rows := [];
    for i := 0 to |csv|
      invariant cumulative == Total(csv[..i]) && |rows| == i
      invariant forall j: nat | j < i :: rows[j] == BacklogAt(csv, messageCount, j)
    {
      assert csv[..i + 1][..i] == csv[..i];
      cumulative := cumulative + csv[i].events;
      var remaining := if messageCount - cumulative < 0 then 0 else messageCount - cumulative;
      rows := rows + [BacklogRow(csv[i].second, cumulative, remaining)];
    }
  }

  /** One entry per consumed event: the second of its row. */
  function Curve(csv: seq<CsvRow>): (ys: seq<nat>)
    ensures |ys| == Total(csv)
  {
    if csv == [] then []
    else
      var last := csv[|csv| - 1];
      Curve(csv[..|csv| - 1]) + seq(last.events, i => last.second)
  }

  /** load_completion_curve. */
  method LoadCompletionCurve(csv: seq<CsvRow>) returns (xs: seq<nat>, ys: seq<nat>)
    ensures ys == Curve(csv) && |xs| == |ys|
    ensures forall i | 0 <= i < |xs| :: xs[i] == i + 1
  {
    xs, ys := [], [];
    var cumulative := 0;
    for k := 0 to |csv|
      invariant ys == Curve(csv[..k]) && |xs| == |ys| == cumulative
      invariant forall i | 0 <= i < |xs| :: xs[i] == i + 1
    {
      var row := csv[k];
      for n := 0 to row.events
        invariant ys == Curve(csv[..k]) + seq(n, i => row.second) && |xs| == |ys| == cumulative
        invariant forall i | 0 <= i < |xs| :: xs[i] == i + 1
      {
        cumulative := cumulative + 1;
        xs := xs + [cumulative];
        ys := ys + [row.second];
      }
      assert csv[..k + 1][..k] == csv[..k];
    }
    assert csv[..|csv|] == csv;
  }

  /** How many entries of a curve lie at or before a second. */
  function UpTo(ys: seq<nat>, second: nat): nat {
    if ys == [] then 0 else UpTo(ys[..|ys| - 1], second) + if ys[|ys| - 1] <= second then 1 else 0
  }

  ghost predicate Increasing(csv: seq<CsvRow>) {
    forall i, j | 0 <= i < j < |csv| :: csv[i].second < csv[j].second
  }

  lemma {:induction false} UpToRepeated(ys: seq<nat>, n: nat, value: nat, second: nat)
    ensures UpTo(ys + seq(n, i => value), second) == UpTo(ys, second) + if value <= second then n else 0
  {
    var all := ys + seq(n, i => value);
    if n == 0 {
      assert all == ys;
    } else {
      UpToRepeated(ys, n - 1, value, second);
      assert all[..|all| - 1] == ys + seq(n - 1, i => value);
    }
  }

  /** The curve counts at row i what the rows up to i hold. */
  lemma {:induction false} CurveCountsTheRows(csv: seq<CsvRow>, i: nat)
    requires Increasing(csv) && i < |csv|
    ensures UpTo(Curve(csv), csv[i].second) == Total(csv[..i + 1])
  {
    var init := csv[..|csv| - 1];
    var last := csv[|csv| - 1];
    UpToRepeated(Curve(init), last.events, last.second, csv[i].second);
    if i == |csv| - 1 {
      assert csv[..i + 1] == csv;
      AllUpTo(init, last.second);
    } else {
      CurveCountsTheRows(init, i);
      assert init[..i + 1] == csv[..i + 1];
    }
  }

  lemma {:induction false} AllUpTo(csv: seq<CsvRow>, second: nat)
    requires forall row <- csv :: row.second <= second
    ensures UpTo(Curve(csv), second) == Total(csv)
  {
    if csv == [] {
      assert Curve(csv) == [];
    } else {
      var last := csv[|csv| - 1];
      AllUpTo(csv[..|csv| - 1], second);
      UpToRepeated(Curve(csv[..|csv| - 1]), last.events, last.second, second);
      assert last in csv;
    }
  }

  lemma SeriesIncreases(rows: seq<CsvRow>, log: seq<Notice>, t0: int, w: nat)
    requires w >= 1 && IsSeries(rows, log, t0, w)
    ensures Increasing(rows)
  {
    forall i, j | 0 <= i < j < |rows| ensures rows[i].second < rows[j].second {
      Apart(i, j, w);
    }
  }

  lemma {:induction false} TotalGrows(csv: seq<CsvRow>, i: nat, j: nat)
    requires i <= j <= |csv|
    ensures Total(csv[..i]) <= Total(csv[..j])
  {
    if i < j {
      TotalGrows(csv, i, j - 1);
      assert csv[..j][..j - 1] == csv[..j - 1];
    }
  }

  /** The two derived views of one log agree with each other and with the log: at every row the backlog
      is what the completion curve has not reached yet, which is what the log had not consumed by the
      end of that bucket; it never grows, and ends at the messages that were never consumed. */
  lemma ViewsAgree(csv: seq<CsvRow>, log: seq<Notice>, t0: int, w: nat, messageCount: int, i: nat)
    requires w >= 1 && IsSeries(csv, log, t0, w) && Covers(|csv|, log, t0, w) && i < |csv|
    ensures var backlog := BacklogAt(csv, messageCount, i).remaining;
      && backlog == Remaining(messageCount, UpTo(Curve(csv), csv[i].second))
      && backlog == Remaining(messageCount, Before(log, t0, (i + 1) * w))
      && (if Before(log, t0, (i + 1) * w) <= messageCount then backlog + Before(log, t0, (i + 1) * w) == messageCount
          else backlog == 0)
      && (forall j: nat | j <= i :: backlog <= BacklogAt(csv, messageCount, j).remaining)
      && (i == |csv| - 1 ==> backlog == Remaining(messageCount, Sum(log)))
  {
    SeriesIncreases(csv, log, t0, w);
    CurveCountsTheRows(csv, i);
    RowsCountTheLog(csv, log, t0, w, i + 1);
    forall j: nat | j <= i
      ensures BacklogAt(csv, messageCount, i).remaining <= BacklogAt(csv, messageCount, j).remaining
    {
      TotalGrows(csv, j + 1, i + 1);
    }
    if i == |csv| - 1 {
      assert csv[..i + 1] == csv;
      CsvSumsToTheLog(csv, log, t0, w);
    }
  }
}
