/** Go slices over shared backing arrays, as the channel charts use them: append writes into
    spare capacity when there is any, the window is cut by re-slicing, and snapshots hand out
    the live slices themselves.

    The invariant is that every backing array is an append-only log: the cells written so far
    never change again, and the live slice on an array always ends where its log ends. So a
    slice handed out earlier keeps showing what it showed. */
module Rings {
  import opened Journey

  /** A slice header. Its capacity runs from off to the end of the array. */
  datatype Slice = Nil | Slice(arr: array<nat>, off: nat, len: nat)

  /** A slice handed out to a reader, with what it showed at that moment. */
  datatype View = View(slice: Slice, seen: seq<nat>)

  /** What has been written to each backing array ever made. */
  type Log = map<array<nat>, seq<nat>>

  /** The arrays hold their logs. */
  ghost predicate LogOk(log: Log)
    reads log.Keys
  {
    forall a :: a in log ==> |log[a]| <= a.Length && a[..|log[a]|] == log[a]
  }

  ghost predicate Within(s: Slice, log: Log) {
    s.Slice? && s.arr in log && s.off + s.len <= |log[s.arr]|
  }

  /** What a slice shows, read off the log of its array. */
  ghost function Shown(s: Slice, log: Log): (c: seq<nat>)
    requires s.Slice? ==> Within(s, log)
    ensures |c| == if s.Slice? then s.len else 0
  {
    if s.Slice? then log[s.arr][s.off..s.off + s.len] else []
  }

  /** A live slice ends at the end of its array's log. */
  ghost predicate Live(s: Slice, log: Log) {
    Within(s, log) && s.off + s.len == |log[s.arr]|
  }

  /** Each chart has an array of its own and is live on it. */
  ghost predicate SeriesOk(series: map<string, Slice>, log: Log) {
    && (forall ch :: ch in series ==> Live(series[ch], log))
    && (forall ch, ch' :: ch in series && ch' in series && ch != ch' ==> series[ch].arr != series[ch'].arr)
  }

  ghost predicate ViewsOk(views: set<View>, log: Log) {
    forall v :: v in views ==> Within(v.slice, log) && Shown(v.slice, log) == v.seen
  }

  ghost function Charts(series: map<string, Slice>, log: Log): map<string, seq<nat>>
    requires SeriesOk(series, log)
  {
    map ch | ch in series :: Shown(series[ch], log)
  }

  /** All of it: the invariant of the charts, the views and the memory behind them. */
  ghost predicate RingsOk(series: map<string, Slice>, views: set<View>, log: Log)
    reads log.Keys
  {
    LogOk(log) && SeriesOk(series, log) && ViewsOk(views, log)
  }

  /** Logs only ever grow at the end. */
  ghost predicate Grows(log: Log, log': Log) {
    forall a :: a in log ==> a in log' && log[a] <= log'[a]
  }

  lemma GrowingKeepsShown(s: Slice, log: Log, log': Log)
    requires Within(s, log) && Grows(log, log')
    ensures Within(s, log') && Shown(s, log') == Shown(s, log)
  {
  }

  lemma GrowingKeepsViews(views: set<View>, log: Log, log': Log)
    requires ViewsOk(views, log) && Grows(log, log')
    ensures ViewsOk(views, log')
  {
    forall v | v in views ensures Within(v.slice, log') && Shown(v.slice, log') == v.seen {
      GrowingKeepsShown(v.slice, log, log');
    }
  }

  /** A slice reads the cells of its array as the log has them. */
  lemma ShownIsInMemory(s: Slice, log: Log)
    requires LogOk(log) && Within(s, log)
    ensures s.off + s.len <= s.arr.Length && s.arr[s.off..s.off + s.len] == Shown(s, log)
  {
    var a, l := s.arr, log[s.arr];
    assert |l| <= a.Length && a[..|l|] == l;
    forall i | s.off <= i < s.off + s.len ensures a[i] == l[i] {
      assert a[..|l|][i] == a[i];
    }
  }

  /** One element of an array. */
  datatype Cell = Cell(arr: array<nat>, i: nat)

  /** The slice shows this cell. */
  ghost predicate Covers(s: Slice, c: Cell) {
    s.Slice? && s.arr == c.arr && s.off <= c.i < s.off + s.len
  }

  /** A cell at or past the end of its array's log, so one that no slice shows yet. */
  ghost predicate Unshown(c: Cell, log: Log) {
    c.arr in log ==> c.i >= |log[c.arr]|
  }

  /** append(s, v) on a live slice: in place when capacity is left, otherwise on a larger
      copy whose size is the runtime's choice. Only the log of one array changes. Of the arrays
      that were there it writes at most one cell, and that lies past what has been written. */
  method Append(s: Slice, v: nat, ghost log: Log) returns (r: Slice, ghost log': Log, ghost written: Cell)
    requires LogOk(log) && (s.Slice? ==> Live(s, log))
    modifies log.Keys
    ensures LogOk(log') && Live(r, log') && Shown(r, log') == Shown(s, log) + [v]
    ensures r.arr in log ==> s.Slice? && r.arr == s.arr
    ensures r.arr !in log ==> fresh(r.arr)
    ensures log' == log[r.arr := log'[r.arr]] && Grows(log, log')
    ensures Unshown(written, log)
    ensures forall a, i :: a in log && 0 <= i < a.Length && Cell(a, i) != written ==> a[i] == old(a[i])
  {
    if s.Slice? {
      ShownIsInMemory(s, log);
    }
    if s.Slice? && s.off + s.len < s.arr.Length {
      s.arr[s.off + s.len] := v;
      r, written := Slice(s.arr, s.off, s.len + 1), Cell(s.arr, s.off + s.len);
      log' := log[s.arr := log[s.arr] + [v]];
      assert s.arr[..s.off + s.len + 1] == s.arr[..s.off + s.len] + [v];
      return;
    }
    var n := if s.Slice? then s.len else 0;
    var extra: nat :| true;
    var a := new nat[n + 1 + extra];
    forall i | 0 <= i < n {
      a[i] := s.arr[s.off + i];
    }
    a[n] := v;
    r, written := Slice(a, 0, n + 1), Cell(a, n);
    log' := log[a := a[..n + 1]];
    assert a[..n + 1] == Shown(s, log) + [v];
  }

  /** The chart of ch with one more value, cut to the window. */
  function Charted(c: map<string, seq<nat>>, ch: string, v: nat): seq<nat> {
    LastN(HISTORY_LEN, (if ch in c then c[ch] else []) + [v])
  }

  /** Re-slicing from the right end shows the last values and keeps the slice live. */
  lemma CutShowsTheLast(s: Slice, log: Log)
    requires Live(s, log) && s.len > HISTORY_LEN
    ensures var r := Slice(s.arr, s.off + s.len - HISTORY_LEN, HISTORY_LEN);
            Live(r, log) && Shown(r, log) == LastN(HISTORY_LEN, Shown(s, log))
  {
  }

  /** Storing ch's new slice leaves the other charts as they were. */
  lemma StoreKeepsOthers(series: map<string, Slice>, ch: string, s: Slice, log: Log, log': Log)
    requires SeriesOk(series, log) && Live(s, log')
    requires s.arr in log ==> ch in series && s.arr == series[ch].arr
    requires log' == log[s.arr := log'[s.arr]]
    ensures SeriesOk(series[ch := s], log')
    ensures Charts(series[ch := s], log') == Charts(series, log)[ch := Shown(s, log')]
  {
    var series' := series[ch := s];
    forall k | k in series && k != ch ensures series[k].arr != s.arr && Live(series[k], log') {
    }
  }

  lemma UnshownIsNotCovered(views: set<View>, log: Log, c: Cell)
    requires ViewsOk(views, log) && Unshown(c, log)
    ensures forall v :: v in views ==> !Covers(v.slice, c)
  {
    forall v | v in views ensures !Covers(v.slice, c) {
      assert Within(v.slice, log);
    }
  }

  /** One channel's turn in a sample: append, cut to the last 120 by re-slicing, store. The
      other charts stay, and so does every slice ever handed out: the only cell written, if it is
      of an array that was there, is one that none of them shows, so a reader that holds one and
      no lock never meets the write. */
  method AppendSample(series: map<string, Slice>, ch: string, v: nat, ghost views: set<View>, ghost log: Log)
    returns (series': map<string, Slice>, ghost log': Log, ghost written: Cell)
    requires RingsOk(series, views, log)
    modifies log.Keys
    ensures RingsOk(series', views, log')
    ensures Grows(log, log') && fresh(log'.Keys - log.Keys)
    ensures forall v :: v in views ==> !Covers(v.slice, written)
    ensures forall a, i :: a in log && 0 <= i < a.Length && Cell(a, i) != written ==> a[i] == old(a[i])
    ensures Charts(series', log') == Charts(series, log)[ch := Charted(Charts(series, log), ch, v)]
  {
    var s;
    s, log', written := Append(if ch in series then series[ch] else Nil, v, log);
    GrowingKeepsViews(views, log, log');
    UnshownIsNotCovered(views, log, written);
    if s.len > HISTORY_LEN {
      CutShowsTheLast(s, log');
      s := Slice(s.arr, s.off + s.len - HISTORY_LEN, HISTORY_LEN);
    }
    StoreKeepsOthers(series, ch, s, log, log');
    series' := series[ch := s];
  }
}
