/** The Journey object of internal/service/journey.go with its heap: maps of counters, slices
    over shared arrays, prober records updated through pointers. Each method is one critical
    section under the mutex and is proved to take the corresponding step of module Journey. */
module JourneyObject {
  import opened Text
  import opened Lists
  import opened Journey
  import opened Rings
  import JourneyRuns
  import E = Endpoints

  class ProberStat {
    const ip: string
    var name: string
    var denied: nat
    var lastDecision: string
    var lastSeen: int

    constructor (ip: string)
      ensures this.ip == ip && name == "" && denied == 0 && lastDecision == "" && lastSeen == 0
    {
      this.ip := ip;
      name, denied, lastDecision, lastSeen := "", 0, "", 0;
    }

    method Count(decision: string, now: int)
      modifies this
      ensures Value() == old(Value()).(denied := old(denied) + 1, lastDecision := decision, lastSeen := now)
    {
      denied := denied + 1;
      lastDecision := decision;
      lastSeen := now;
    }

    function Value(): Prober
      reads this
    {
      Prober(ip, name, denied, lastDecision, lastSeen)
    }
  }

  /** The records hold the rows of m. Each is filed under its own address, so no two entries
      share a record. */
  ghost predicate ProbersHold(probers: map<string, ProberStat>, m: map<string, Prober>, stats: set<ProberStat>)
    reads stats
  {
    && probers.Keys == m.Keys
    && forall ip :: ip in probers ==> probers[ip] in stats && probers[ip].ip == ip && probers[ip].Value() == m[ip]
  }

  // ---- the loops of the critical sections -------------------------------------------------------

  method CountProberStat(probers: map<string, ProberStat>, ip: string, decision: string, now: int,
                         ghost m: map<string, Prober>, ghost stats: set<ProberStat>)
    returns (probers': map<string, ProberStat>, ghost stats': set<ProberStat>)
    requires ProbersHold(probers, m, stats)
    modifies stats
    ensures ProbersHold(probers', CountProber(m, ip, decision, now), stats')
    ensures stats <= stats' && fresh(stats' - stats)
  {
    probers', stats' := probers, stats;
    if ip !in probers {
      var p := new ProberStat(ip);
      probers', stats' := probers[ip := p], stats + {p};
    }
    var p := probers'[ip];
    assert forall k :: k in probers && k != ip ==> probers[k] != p && probers'[k] == probers[k];
    p.Count(decision, now);
  }

  /** After the turns of the active channels and the removal of the silent ones, the charts
      are what the sample step says. */
  lemma ChartsAfterSample(c: map<string, seq<nat>>, counts: map<string, nat>, s: map<string, Slice>, l: Log,
                          active: set<string>)
    requires SeriesOk(s, l) && Charts(s, l) == ChartedAll(c, counts, active)
    ensures s.Keys - active == c.Keys - active
    ensures SeriesOk(s - (c.Keys - active), l)
    ensures Charts(s - (c.Keys - active), l) == SampledSeries(c, counts, active)
  {
    assert s.Keys == Charts(s, l).Keys == c.Keys + active;
    assert Charts(s - (c.Keys - active), l) == Charts(s, l) - (c.Keys - active);
    ActivePart(c, counts, active);
  }

  lemma ActivePart(c: map<string, seq<nat>>, counts: map<string, nat>, active: set<string>)
    ensures ChartedAll(c, counts, active) - (c.Keys - active) == SampledSeries(c, counts, active)
  {
  }

  method ActiveChannels(lastSeen: map<string, int>, now: int) returns (active: set<string>)
    ensures active == HeardRecently(lastSeen, now)
  {
    active := {};
    var todo := lastSeen.Keys;
    while todo != {}
      invariant todo <= lastSeen.Keys
      invariant active == set ch | ch in lastSeen && ch !in todo && now - lastSeen[ch] <= CHANNEL_IDLE
      decreases todo
    {
      var ch :| ch in todo;
      if now - lastSeen[ch] <= CHANNEL_IDLE {
        active := active + {ch};
      }
      todo := todo - {ch};
    }
  }

  /** The charts after the channels in done have had their turn. */
  ghost function ChartedAll(c: map<string, seq<nat>>, counts: map<string, nat>, done: set<string>)
    : map<string, seq<nat>>
  {
    map ch | ch in c.Keys + done :: if ch in done then Charted(c, ch, Get(counts, ch)) else c[ch]
  }

  lemma ChartedNext(c: map<string, seq<nat>>, counts: map<string, nat>, done: set<string>, ch: string)
    requires ch !in done
    ensures var d := ChartedAll(c, counts, done);
            d[ch := Charted(d, ch, Get(counts, ch))] == ChartedAll(c, counts, done + {ch})
  {
  }

  method AppendAll(series: map<string, Slice>, counts: map<string, nat>, active: set<string>,
                   ghost views: set<View>, ghost log: Log)
    returns (series': map<string, Slice>, ghost log': Log)
    requires RingsOk(series, views, log)
    modifies log.Keys
    ensures RingsOk(series', views, log')
    ensures Grows(log, log') && fresh(log'.Keys - log.Keys)
    ensures Charts(series', log') == ChartedAll(Charts(series, log), counts, active)
  {
    series', log' := series, log;
    ghost var c := Charts(series, log);
    ghost var done: set<string> := {};
    var todo := active;
    while todo != {}
      invariant done !! todo && done + todo == active
      invariant RingsOk(series', views, log')
      invariant Grows(log, log') && fresh(log'.Keys - log.Keys)
      invariant Charts(series', log') == ChartedAll(c, counts, done)
      decreases todo
    {
      var ch :| ch in todo;
      ChartedNext(c, counts, done, ch);
      ghost var before := log';
      ghost var written;
      series', log', written := AppendSample(series', ch, Get(counts, ch), views, log');
      assert Grows(log, log') by {
        assert Grows(log, before) && Grows(before, log');
      }
      todo, done := todo - {ch}, done + {ch};
    }
    assert done == active;
  }

  /** Forget the charted channels that have gone silent. */
  method DropIdle(series: map<string, Slice>, lastSeen: map<string, int>, lastSub: map<string, string>,
                  active: set<string>)
    returns (series': map<string, Slice>, lastSeen': map<string, int>, lastSub': map<string, string>)
    ensures var gone := series.Keys - active;
            series' == series - gone && lastSeen' == lastSeen - gone && lastSub' == lastSub - gone
  {
    series', lastSeen', lastSub' := series, lastSeen, lastSub;
    var todo := series.Keys;
    while todo != {}
      invariant todo <= series.Keys
      invariant var gone := series.Keys - active - todo;
                series' == series - gone && lastSeen' == lastSeen - gone && lastSub' == lastSub - gone
      decreases todo
    {
      var ch :| ch in todo;
      if ch !in active {
        series', lastSeen', lastSub' := series' - {ch}, lastSeen' - {ch}, lastSub' - {ch};
      }
      todo := todo - {ch};
    }
  }

  /** The prober map after the probers outside todo have been visited by a sample. */
  ghost function Visited(m: map<string, Prober>, idx: Option<E.Index>, now: int, todo: set<string>)
    : map<string, Prober>
  {
    map ip | ip in m && (ip in todo || !Stale(m[ip], now)) :: if ip in todo then m[ip] else Named(m[ip], idx)
  }

  lemma VisitedNext(m: map<string, Prober>, idx: Option<E.Index>, now: int, todo: set<string>, ip: string)
    requires ip in m && ip in todo
    ensures var before, after := Visited(m, idx, now, todo), Visited(m, idx, now, todo - {ip});
            after == if Stale(m[ip], now) then before - {ip} else before[ip := Named(m[ip], idx)]
  {
  }

  /** Resolve a prober that has no name yet. */
  method NameStat(p: ProberStat, idx: Option<E.Index>)
    modifies p`name
    ensures p.Value() == Named(old(p.Value()), idx)
  {
    if p.name == "" && idx.Some? {
      var r := E.Resolve(idx.value, p.ip, 0);
      p.name := E.DescribeEndpoint(r.kind, r.namespace, r.name);
    }
  }

  method VisitProber(probers: map<string, ProberStat>, ip: string, idx: Option<E.Index>, now: int,
                     ghost m: map<string, Prober>, ghost stats: set<ProberStat>)
    returns (probers': map<string, ProberStat>)
    requires ProbersHold(probers, m, stats) && ip in probers
    modifies probers[ip]
    ensures ProbersHold(probers', if Stale(m[ip], now) then m - {ip} else m[ip := Named(m[ip], idx)], stats)
  {
    probers' := probers;
    var p := probers[ip];
    if now - p.lastSeen > PROBER_TTL {
      probers' := probers - {ip};
      return;
    }
    assert forall k :: k in probers && k != ip ==> probers[k] != p;
    NameStat(p, idx);
  }

  method PruneAndName(probers: map<string, ProberStat>, idx: Option<E.Index>, now: int,
                      ghost m: map<string, Prober>, ghost stats: set<ProberStat>)
    returns (probers': map<string, ProberStat>)
    requires ProbersHold(probers, m, stats)
    modifies stats
    ensures ProbersHold(probers', SampledProbers(m, idx, now), stats)
  {
    probers' := probers;
    var todo := probers.Keys;
    assert Visited(m, idx, now, todo) == m;
    while todo != {}
      invariant todo <= m.Keys
      invariant ProbersHold(probers', Visited(m, idx, now, todo), stats)
      decreases todo
    {
      var ip :| ip in todo;
      VisitedNext(m, idx, now, todo, ip);
      probers' := VisitProber(probers', ip, idx, now, Visited(m, idx, now, todo), stats);
      todo := todo - {ip};
    }
    assert Visited(m, idx, now, {}) == SampledProbers(m, idx, now);
  }

  ghost function Renamed(m: map<string, Prober>, idx: E.Index, todo: set<string>): map<string, Prober> {
    map ip | ip in m :: if ip in todo then m[ip] else m[ip].(name := E.NameOf(idx, m[ip].ip))
  }

  method RenameAll(probers: map<string, ProberStat>, idx: E.Index,
                   ghost m: map<string, Prober>, ghost stats: set<ProberStat>)
    requires ProbersHold(probers, m, stats)
    modifies stats
    ensures ProbersHold(probers, RenamedProbers(m, idx), stats)
  {
    var todo := probers.Keys;
    assert Renamed(m, idx, todo) == m;
    while todo != {}
      invariant todo <= probers.Keys
      invariant ProbersHold(probers, Renamed(m, idx, todo), stats)
      decreases todo
    {
      var ip :| ip in todo;
      var p := probers[ip];
      var r := E.Resolve(idx, ip, 0);
      p.name := E.DescribeEndpoint(r.kind, r.namespace, r.name);
      todo := todo - {ip};
    }
    assert Renamed(m, idx, {}) == RenamedProbers(m, idx);
  }

  /** The channel loops of a sample, on the maps they update. */
  method RollCharts(series: map<string, Slice>, counts: map<string, nat>, lastSeen: map<string, int>,
                    lastSub: map<string, string>, active: set<string>, ghost views: set<View>, ghost log: Log)
    returns (series': map<string, Slice>, lastSeen': map<string, int>, lastSub': map<string, string>, ghost log': Log)
    requires RingsOk(series, views, log)
    modifies log.Keys
    ensures RingsOk(series', views, log') && Grows(log, log') && fresh(log'.Keys - log.Keys)
    ensures Charts(series', log') == SampledSeries(Charts(series, log), counts, active)
    ensures lastSeen' == lastSeen - (Charts(series, log).Keys - active)
    ensures lastSub' == lastSub - (Charts(series, log).Keys - active)
  {
    var s;
    s, log' := AppendAll(series, counts, active, views, log);
    ChartsAfterSample(Charts(series, log), counts, s, log', active);
    series', lastSeen', lastSub' := DropIdle(s, lastSeen, lastSub, active);
  }

  // ---- the object -----------------------------------------------------------------------------------

  datatype ProberRow = ProberRow(ip: string, name: string, denied: nat, lastDecision: string)

  /** /journey.json. The chart slices are the live ones: they are encoded after unlocking. */
  datatype Report = Report(
    denial: bool, channels: map<string, nat>, series: map<string, Slice>, tickTotal: nat,
    probers: seq<ProberRow>, nProbers: nat, nActive: nat, totalDenied: nat, tarpit: nat, decoyHits: nat)

  const ROW_DENIED: ProberRow -> nat := (r: ProberRow) => r.denied

  function RowOf(p: Prober): ProberRow {
    ProberRow(p.ip, if p.name == "" then "external" else p.name, p.denied, p.lastDecision)
  }

  class Dashboard {
    var counts: map<string, nat>
    var series: map<string, Slice>
    var lastSeen: map<string, int>
    var lastSub: map<string, string>
    var probers: map<string, ProberStat>
    var tarpit: nat
    var decoyHits: nat
    var threats: nat
    var totalDenied: nat
    var lastEventAt: Option<int>
    var idx: Option<E.Index>
    var idxBuiltAt: int

    /** The memory behind the charts, every slice ever handed out, every prober record ever
        made, and the rows the current records hold. */
    ghost var log: Log
    ghost var views: set<View>
    ghost var stats: set<ProberStat>
    ghost var rows: map<string, Prober>

    ghost predicate Valid()
      reads this, log.Keys, stats
    {
      RingsOk(series, views, log) && ProbersHold(probers, rows, stats)
    }

    /** The state as a value. */
    ghost function Abs(): State
      requires SeriesOk(series, log)
      reads this
    {
      State(counts, Charts(series, log), lastSeen, lastSub, rows,
            tarpit, decoyHits, threats, totalDenied, lastEventAt, idx, idxBuiltAt)
    }

    constructor ()
      ensures Valid() && Abs() == Init() && views == {} && log == map[] && stats == {}
    {
      counts, series, lastSeen, lastSub, probers := map[], map[], map[], map[], map[];
      tarpit, decoyHits, threats, totalDenied, lastEventAt := 0, 0, 0, 0, None;
      idx, idxBuiltAt := None, 0;
      log, views, stats, rows := map[], {}, {}, map[];
      new;
      assert Charts(series, log) == map[];
    }

    /** The field writes of one event on ch, apart so that the invariants of the memory are
        looked at once and not after every write. The same holds for the other Write methods. */
    method WriteChannel(ch: string, shown: Option<string>, now: int)
      modifies this`counts, this`lastSeen, this`totalDenied, this`lastEventAt, this`lastSub
      ensures counts == old(counts)[ch := Get(old(counts), ch) + 1] && lastSeen == old(lastSeen)[ch := now]
      ensures totalDenied == old(totalDenied) + 1 && lastEventAt == Some(now)
      ensures lastSub == if shown.Some? then old(lastSub)[ch := shown.value] else old(lastSub)
    {
      counts := counts[ch := Get(counts, ch) + 1];
      lastSeen := lastSeen[ch := now];
      totalDenied := totalDenied + 1;
      lastEventAt := Some(now);
      if shown.Some? {
        lastSub := lastSub[ch := shown.value];
      }
    }

    method WriteProbers(p: map<string, ProberStat>, ghost s: set<ProberStat>, ghost r: map<string, Prober>)
      modifies this`probers, this`stats, this`rows
      ensures probers == p && stats == s && rows == r
    {
      probers, stats, rows := p, s, r;
    }

    method WriteSeries(s: map<string, Slice>, ghost l: Log)
      modifies this`series, this`log
      ensures series == s && log == l
    {
      series, log := s, l;
    }

    method WriteTallies(seen: map<string, int>, sub: map<string, string>)
      modifies this`counts, this`lastSeen, this`lastSub
      ensures counts == map[] && lastSeen == seen && lastSub == sub
    {
      counts, lastSeen, lastSub := map[], seen, sub;
    }

    method WriteIndex(i: E.Index, now: int, ghost r: map<string, Prober>)
      modifies this`idx, this`idxBuiltAt, this`rows
      ensures idx == Some(i) && idxBuiltAt == now && rows == r
    {
      idx, idxBuiltAt, rows := Some(i), now, r;
    }

    method CountOnChannel(ch: string, shown: Option<string>, now: int)
      requires Valid()
      modifies this`counts, this`lastSeen, this`totalDenied, this`lastEventAt, this`lastSub
      ensures Valid() && Abs() == Journey.CountOnChannel(old(Abs()), ch, shown, now)
    {
      WriteChannel(ch, shown, now);
    }

    method CountAlarm(decision: string)
      requires Valid()
      modifies this`tarpit, this`decoyHits
      ensures Valid() && Abs() == Journey.CountAlarm(old(Abs()), decision)
    {
      if decision == "Tarpit" {
        tarpit := tarpit + 1;
      } else if decision == "DecoyHit" {
        decoyHits := decoyHits + 1;
      }
    }

    method CountOnProber(ip: string, decision: string, now: int)
      requires Valid()
      modifies this`probers, this`stats, this`rows, stats
      ensures Valid() && Abs() == Journey.CountOnProber(old(Abs()), ip, decision, now)
      ensures old(stats) <= stats && fresh(stats - old(stats))
    {
      if ip != "" {
        var p;
        ghost var s;
        p, s := CountProberStat(probers, ip, decision, now, rows, stats);
        WriteProbers(p, s, CountProber(rows, ip, decision, now));
      }
    }

    method CountEvent(e: Probe, now: int)
      requires Valid()
      modifies this`counts, this`lastSeen, this`totalDenied, this`lastEventAt, this`lastSub,
               this`tarpit, this`decoyHits, this`probers, this`stats, this`rows, stats
      ensures Valid() && Abs() == Journey.CountEvent(old(Abs()), e, now)
      ensures old(stats) <= stats && fresh(stats - old(stats))
    {
      CountOnChannel(ChannelName(e.channel), if e.substitute != "" then Some(SanitizeSub(e.substitute)) else None, now);
      CountAlarm(e.decision);
      CountOnProber(HostOf(e.prober), e.decision, now);
    }

    /** onMessage. The charts, their memory and the slices handed out are not touched. */
    method OnMessage(m: Message, now: int)
      requires Valid()
      modifies this`counts, this`lastSeen, this`totalDenied, this`lastEventAt, this`lastSub,
               this`tarpit, this`decoyHits, this`threats, this`probers, this`stats, this`rows, stats
      ensures Valid() && Abs() == Journey.OnMessage(old(Abs()), m, now)
      ensures old(stats) <= stats && fresh(stats - old(stats))
    {
      if m.Threat? {
        threats := threats + 1;
      } else if m.Decoded? && m.probe.channel != 0 {
        CountEvent(m.probe, now);
      }
    }

    /** The charts rolled, and what is left of the other maps without the silent channels. */
    method RollSeries(active: set<string>) returns (seen: map<string, int>, sub: map<string, string>)
      requires Valid()
      modifies this`series, this`log, log.Keys
      ensures Valid() && Grows(old(log), log) && fresh(log.Keys - old(log.Keys))
      ensures Charts(series, log) == SampledSeries(old(Charts(series, log)), counts, active)
      ensures seen == lastSeen - (old(Charts(series, log)).Keys - active)
      ensures sub == lastSub - (old(Charts(series, log)).Keys - active)
    {
      var s;
      ghost var l;
      s, seen, sub, l := RollCharts(series, counts, lastSeen, lastSub, active, views, log);
      WriteSeries(s, l);
    }

    /** And the counts reset. */
    method Roll(active: set<string>)
      requires Valid()
      modifies this`counts, this`series, this`lastSeen, this`lastSub, this`log, log.Keys
      ensures Valid() && Grows(old(log), log) && fresh(log.Keys - old(log.Keys))
      ensures Charts(series, log) == SampledSeries(old(Charts(series, log)), old(counts), active) && counts == map[]
      ensures lastSeen == old(lastSeen) - (old(Charts(series, log)).Keys - active)
      ensures lastSub == old(lastSub) - (old(Charts(series, log)).Keys - active)
    {
      var seen, sub := RollSeries(active);
      WriteTallies(seen, sub);
    }

    /** The first half of sample: roll the charts and forget the silent channels. */
    method SampleChannels(now: int)
      requires Valid()
      modifies this`counts, this`series, this`lastSeen, this`lastSub, this`log, log.Keys
      ensures Valid() && Abs() == Journey.SampleChannels(old(Abs()), now)
      ensures Grows(old(log), log) && fresh(log.Keys - old(log.Keys))
    {
      var active := ActiveChannels(lastSeen, now);
      Roll(active);
    }

    /** The second half: prune silent probers and name the rest. */
    method SampleProbers(now: int)
      requires Valid()
      modifies this`probers, this`rows, stats
      ensures Valid() && Abs() == Journey.SampleProbers(old(Abs()), now)
    {
      probers := PruneAndName(probers, idx, now, rows, stats);
      rows := SampledProbers(rows, idx, now);
    }

    /** sample, after the index has been seen to. */
    method Sample(now: int)
      requires Valid()
      modifies this`counts, this`series, this`lastSeen, this`lastSub, this`log, this`probers, this`rows,
               log.Keys, stats
      ensures Valid() && Abs() == Journey.Sample(old(Abs()), now)
      ensures Grows(old(log), log) && fresh(log.Keys - old(log.Keys))
    {
      SampleChannels(now);
      SampleProbers(now);
    }

    /** The first critical section of maybeRefreshIndex: whatever run led here, the index is to
        be rebuilt exactly when that run has no installation of the last 30 s. */
    method CheckIndex(now: int) returns (stale: bool)
      requires Valid()
      ensures stale == IndexStale(Abs(), now)
      ensures forall run :: Run(run) == Abs() ==> (stale <==> JourneyRuns.NoInstallWithin(run, now))
    {
      forall run | Run(run) == Abs() ensures IndexStale(Abs(), now) <==> JourneyRuns.NoInstallWithin(run, now) {
        JourneyRuns.StaleIffNoRecentInstall(run, now);
      }
      stale := idx.None? || now - idxBuiltAt > INDEX_REFRESH;
    }

    /** The second critical section, with an index built meanwhile without the lock. */
    method InstallIndex(i: E.Index, now: int)
      requires Valid()
      modifies this`idx, this`idxBuiltAt, this`rows, stats
      ensures Valid() && Abs() == Journey.InstallIndex(old(Abs()), i, now)
    {
      ghost var r := rows;
      WriteIndex(i, now, RenamedProbers(r, i));
      RenameAll(probers, i, r, stats);
    }

    /** snapshot. The chart slices it hands out are recorded, with what they show; everything else
        in the report is what Reports says of the state. */
    method Snapshot(now: int) returns (r: Report, ranked: seq<ProberRow>)
      requires Valid()
      modifies this`views
      ensures Valid() && Abs() == old(Abs()) && old(views) <= views
      ensures r.series == series && forall ch :: ch in series ==> View(series[ch], Charts(series, log)[ch]) in views
      ensures Reports(r, ranked, old(Abs()), now)
    {
      r, ranked := Compile(now);
      HandOut();
    }

    /** What the report says. */
    method Compile(now: int) returns (r: Report, ranked: seq<ProberRow>)
      requires Valid()
      ensures r.series == series && Reports(r, ranked, Abs(), now)
    {
      var channels, tickTotal := NewestValues(series, log);
      var top;
      top, ranked := RankProbers(probers, rows, stats);
      ListedRowsTell(ranked, rows);
      NewestIsShown(Charts(series, log));
      var denial := lastEventAt.Some? && now - lastEventAt.value <= ACTIVE_WINDOW;
      r := Report(denial, channels, series, tickTotal, top, |probers|, |series|, totalDenied, tarpit, decoyHits);
      assert Charts(series, log).Keys == series.Keys && rows.Keys == probers.Keys;
      assert |Charts(series, log)| == |Charts(series, log).Keys| && |rows| == |rows.Keys|;
      assert |series| == |series.Keys| && |probers| == |probers.Keys|;
      Compiled(r, ranked, Charts(series, log), rows, Abs(), now);
    }

    /** Record the live slices as handed out. */
    ghost method HandOut()
      requires Valid()
      modifies this`views
      ensures Valid() && Abs() == old(Abs()) && old(views) <= views
      ensures forall ch :: ch in series ==> View(series[ch], Charts(series, log)[ch]) in views
    {
      views := views + set ch | ch in series :: View(series[ch], Charts(series, log)[ch]);
    }

    /** The encoder reads a slice it was handed, cell by cell and long after the mutex was
        released: it gets what the slice showed when it was handed out. */
    method Encode(v: View) returns (data: seq<nat>)
      requires Valid() && v in views
      ensures data == v.seen
    {
      ShownIsInMemory(v.slice, log);
      data := v.slice.arr[v.slice.off..v.slice.off + v.slice.len];
    }

    method TakeStep(a: Step)
      requires Valid()
      modifies this, log.Keys, stats
      ensures Valid() && Abs() == Apply(old(Abs()), a) && views == old(views)
      ensures Grows(old(log), log) && fresh(log.Keys - old(log.Keys))
      ensures old(stats) <= stats && fresh(stats - old(stats))
    {
      match a
      case Message(m, now) => OnMessage(m, now);
      case Install(i, _, now) => InstallIndex(i, now);
      case Tick(now) => Sample(now);
    }

    /** One call; a snapshot yields its report, whose slices are on record. */
    method TakeCall(c: Call) returns (reports: seq<Report>)
      requires Valid()
      modifies this, log.Keys, stats
      ensures Valid() && Abs() == AfterCall(old(Abs()), c) && old(views) <= views
      ensures AllRecorded(reports, LookedBy(old(Abs()), c), views)
      ensures fresh(log.Keys - old(log.Keys)) && fresh(stats - old(stats))
    {
      match c
      case Do(step) =>
        TakeStep(step);
        reports := [];
      case Look(now) =>
        reports := LookAt(now);
    }

    method LookAt(now: int) returns (reports: seq<Report>)
      requires Valid()
      modifies this`views
      ensures Valid() && Abs() == old(Abs()) && old(views) <= views && AllRecorded(reports, [old(Abs())], views)
    {
      var r, ranked := Snapshot(now);
      OneRecorded(r, Abs(), views);
      reports := [r];
    }

    method TakeCalls(calls: seq<Call>) returns (reports: seq<Report>)
      requires Valid()
      modifies this, log.Keys, stats
      ensures Valid() && Abs() == After(old(Abs()), calls) && old(views) <= views
      ensures AllRecorded(reports, Looked(old(Abs()), calls), views)
    {
      reports := [];
      for i := 0 to |calls|
        invariant Valid() && Abs() == After(old(Abs()), calls[..i]) && old(views) <= views
        invariant fresh(log.Keys - old(log.Keys)) && fresh(stats - old(stats))
        invariant AllRecorded(reports, Looked(old(Abs()), calls[..i]), views)
      {
        CallsNext(old(Abs()), calls, i);
        var more := TakeCall(calls[i]);
        RecordedAppend(reports, Looked(old(Abs()), calls[..i]), more,
                       LookedBy(After(old(Abs()), calls[..i]), calls[i]), views);
        reports := reports + more;
      }
      assert calls[..|calls|] == calls;
    }

    /** Any sequence of critical sections and snapshots, from any state the object can be in:
        the object follows the run, and at the end every slice ever handed out, in this call or
        before it, still shows in memory what its channel's chart was when it was handed out. */
    method Drive(calls: seq<Call>) returns (reports: seq<Report>)
      requires Valid()
      modifies this, log.Keys, stats
      ensures Valid() && Abs() == After(old(Abs()), calls) && old(views) <= views
      ensures |reports| == |Looked(old(Abs()), calls)|
      ensures forall k :: 0 <= k < |reports| ==> InMemory(reports[k].series, Looked(old(Abs()), calls)[k].series)
      ensures forall v :: v in views ==> CellsShow(v.slice, v.seen)
    {
      reports := TakeCalls(calls);
      forall v | v in views ensures CellsShow(v.slice, v.seen) {
        ShownIsInMemory(v.slice, log);
      }
      RecordedIsInMemory(reports, Looked(old(Abs()), calls));
    }

    lemma RecordedIsInMemory(reports: seq<Report>, looked: seq<State>)
      requires AllRecorded(reports, looked, views)
      requires forall v :: v in views ==> CellsShow(v.slice, v.seen)
      ensures forall k :: 0 <= k < |reports| ==> InMemory(reports[k].series, looked[k].series)
    {
      forall k | 0 <= k < |reports| ensures InMemory(reports[k].series, looked[k].series) {
        assert Recorded(reports[k].series, looked[k].series, views);
      }
    }
  }

  /** A call that takes the mutex: a critical section, or the snapshot behind a page view. */
  datatype Call = Do(step: Step) | Look(now: int)

  function AfterCall(s: State, c: Call): State {
    if c.Do? then Apply(s, c.step) else s
  }

  function After(s: State, calls: seq<Call>): State {
    if calls == [] then s else AfterCall(After(s, calls[..|calls| - 1]), calls[|calls| - 1])
  }

  function LookedBy(s: State, c: Call): seq<State> {
    if c.Look? then [s] else []
  }

  /** The states that the snapshots among the calls find. */
  function Looked(s: State, calls: seq<Call>): seq<State> {
    if calls == [] then []
    else Looked(s, calls[..|calls| - 1]) + LookedBy(After(s, calls[..|calls| - 1]), calls[|calls| - 1])
  }

  lemma CallsNext(s: State, calls: seq<Call>, i: nat)
    requires i < |calls|
    ensures After(s, calls[..i + 1]) == AfterCall(After(s, calls[..i]), calls[i])
    ensures Looked(s, calls[..i + 1]) == Looked(s, calls[..i]) + LookedBy(After(s, calls[..i]), calls[i])
  {
    assert calls[..i + 1][..i] == calls[..i];
  }

  lemma OneRecorded(r: Report, s: State, views: set<View>)
    requires Recorded(r.series, s.series, views)
    ensures AllRecorded([r], [s], views)
  {
  }

  lemma RecordedAppend(reports: seq<Report>, looked: seq<State>, more: seq<Report>, looked': seq<State>,
                       views: set<View>)
    requires AllRecorded(reports, looked, views) && AllRecorded(more, looked', views)
    ensures AllRecorded(reports + more, looked + looked', views)
  {
  }

  /** The cells under a slice, as they are in memory now. */
  ghost predicate CellsShow(s: Slice, seen: seq<nat>)
    reads if s.Slice? then {s.arr} else {}
  {
    s.Slice? && s.off + s.len <= s.arr.Length && s.arr[s.off..s.off + s.len] == seen
  }

  ghost predicate InMemory(shown: map<string, Slice>, charts: map<string, seq<nat>>)
    reads set ch | ch in shown && shown[ch].Slice? :: shown[ch].arr
  {
    shown.Keys == charts.Keys && forall ch :: ch in shown ==> CellsShow(shown[ch], charts[ch])
  }

  ghost predicate Recorded(shown: map<string, Slice>, charts: map<string, seq<nat>>, views: set<View>) {
    shown.Keys == charts.Keys && forall ch :: ch in shown ==> View(shown[ch], charts[ch]) in views
  }

  ghost predicate AllRecorded(reports: seq<Report>, looked: seq<State>, views: set<View>) {
    |reports| == |looked| && forall k :: 0 <= k < |reports| ==> Recorded(reports[k].series, looked[k].series, views)
  }

  ghost function RowMap(m: map<string, Prober>): map<string, ProberRow> {
    map ip | ip in m :: RowOf(m[ip])
  }

  /** What a report, with the ranking behind it, says of a state: the newest value of each chart
      and their sum; a row for each prober, telling its record, in descending order of denials,
      and the first eight of them; the mode, and the totals. */
  ghost predicate Reports(r: Report, ranked: seq<ProberRow>, s: State, now: int) {
    && NewestShown(r.channels, s.series) && r.tickTotal == SumMap(r.channels)
    && r.channels == JourneyRuns.Newest(s)
    && RowsTell(ranked, s.probers) && Descending(ranked, ROW_DENIED)
    && multiset(ranked) == multiset(RowMap(s.probers).Values)
    && r.probers == Take(TOP_PROBERS, ranked) && IsTopEight(r.probers, s.probers)
    && r.denial == (s.lastEventAt.Some? && now - s.lastEventAt.value <= ACTIVE_WINDOW)
    && r.nProbers == |s.probers| && r.nActive == |s.series|
    && r.totalDenied == s.totalDenied && r.tarpit == s.tarpit && r.decoyHits == s.decoyHits
  }

  /** The list tells of these probers, one row for each: its address, its denials and its last
      decision, and its name, or "external" while it has none. */
  ghost predicate RowsTell(all: seq<ProberRow>, m: map<string, Prober>) {
    && |all| == |m|
    && (forall r :: r in all ==>
          && r.ip in m && r.denied == m[r.ip].denied && r.lastDecision == m[r.ip].lastDecision
          && r.name == (if m[r.ip].name == "" then "external" else m[r.ip].name))
    && (forall ip :: ip in m ==> exists r :: r in all && r.ip == ip)
  }

  lemma ListedRowsTell(all: seq<ProberRow>, m: map<string, Prober>)
    requires multiset(all) == multiset(RowMap(m).Values) && |all| == |m|
    requires forall ip :: ip in m ==> m[ip].ip == ip
    ensures RowsTell(all, m)
  {
    var t := RowMap(m);
    forall r | r in all
      ensures r.ip in m && r.denied == m[r.ip].denied && r.lastDecision == m[r.ip].lastDecision
      ensures r.name == (if m[r.ip].name == "" then "external" else m[r.ip].name)
    {
      assert r in multiset(all);
      var ip :| ip in t && t[ip] == r;
    }
    forall ip | ip in m ensures exists r :: r in all && r.ip == ip {
      assert t[ip] in t.Values;
      assert t[ip] in multiset(all);
    }
  }

  lemma NewestIsShown(c: map<string, seq<nat>>)
    ensures NewestShown(NewestOf(c), c)
  {
  }

  lemma Compiled(r: Report, ranked: seq<ProberRow>, c: map<string, seq<nat>>, m: map<string, Prober>,
                 s: State, now: int)
    requires s.series == c && s.probers == m
    requires r.channels == NewestOf(c) && NewestShown(r.channels, c) && r.tickTotal == SumMap(r.channels)
    requires RowsTell(ranked, m) && Descending(ranked, ROW_DENIED)
    requires multiset(ranked) == multiset(RowMap(m).Values)
    requires r.probers == Take(TOP_PROBERS, ranked) && IsTopEight(r.probers, m)
    requires r.denial == (s.lastEventAt.Some? && now - s.lastEventAt.value <= ACTIVE_WINDOW)
    requires r.nProbers == |m| && r.nActive == |c|
    requires r.totalDenied == s.totalDenied && r.tarpit == s.tarpit && r.decoyHits == s.decoyHits
    ensures Reports(r, ranked, s, now)
  {
  }

  /** For each chart with a value, its newest. */
  ghost predicate NewestShown(channels: map<string, nat>, series: map<string, seq<nat>>) {
    && (forall ch :: ch in channels <==> ch in series && |series[ch]| > 0)
    && (forall ch :: ch in channels ==> channels[ch] == series[ch][|series[ch]| - 1])
  }

  /** What the rows tell of the run that led here: the count is that of the address's events since
      it was last silent past the TTL, the decision that of its last event, and the name, unless
      it is "external", is what the last listed cluster gives for the address; and every address
      with such events has its row. */
  lemma RowsTellTheRun(run: seq<Step>, all: seq<ProberRow>)
    requires RowsTell(all, Run(run).probers) && JourneyRuns.BuiltFromSnapshots(run)
    ensures forall r :: r in all && r.ip != "" ==>
              && r.denied == JourneyRuns.DeniedSince(run, r.ip)
              && JourneyRuns.LastProbe(run, r.ip).Some? && JourneyRuns.LastProbe(run, r.ip).value.1 == r.lastDecision
              && (r.name != "external" ==>
                    && JourneyRuns.Snapshot(run).Some?
                    && exists e :: E.Answers(JourneyRuns.Snapshot(run).value, r.ip, 0, e)
                                   && r.name == E.DescribeEndpoint(e.kind, e.namespace, e.name))
    ensures forall ip :: ip != "" && JourneyRuns.DeniedSince(run, ip) > 0 ==> exists r :: r in all && r.ip == ip
  {
    forall r | r in all && r.ip != ""
      ensures r.denied == JourneyRuns.DeniedSince(run, r.ip)
      ensures JourneyRuns.LastProbe(run, r.ip).Some? && JourneyRuns.LastProbe(run, r.ip).value.1 == r.lastDecision
      ensures r.name != "external" ==>
                && JourneyRuns.Snapshot(run).Some?
                && exists e :: E.Answers(JourneyRuns.Snapshot(run).value, r.ip, 0, e)
                               && r.name == E.DescribeEndpoint(e.kind, e.namespace, e.name)
    {
      JourneyRuns.ProberCountsItsEvents(run, r.ip);
      if r.name != "external" {
        JourneyRuns.NamesComeFromTheLastSnapshot(run, r.ip);
        E.ScanAnswers(JourneyRuns.Snapshot(run).value, r.ip, 0);
      }
    }
    forall ip | ip != "" && JourneyRuns.DeniedSince(run, ip) > 0 ensures exists r :: r in all && r.ip == ip {
      JourneyRuns.ProberCountsItsEvents(run, ip);
    }
  }

  /** The rows are the eight most denied probers (or all, if fewer), and carry at least
      their share of all the denials on live probers. */
  ghost predicate IsTopEight(top: seq<ProberRow>, m: map<string, Prober>) {
    && TopOf(top, multiset(RowMap(m).Values), TOP_PROBERS, ROW_DENIED)
    && FairShare(SumKeys(top, ROW_DENIED), |top|, SumMap(JourneyRuns.Denials(m)), |m|)
  }

  method CollectProbers(probers: map<string, ProberStat>, ghost m: map<string, Prober>, ghost stats: set<ProberStat>)
    returns (all: seq<ProberRow>)
    requires ProbersHold(probers, m, stats)
    ensures Pending(all, RowMap(m), {}, ROW_DENIED) && RowsTell(all, m)
  {
    all := [];
    var todo := probers.Keys;
    ghost var t := RowMap(m);
    assert t.Keys == todo && forall ip :: ip in t ==> t[ip].ip == ip;
    CollectEnds(all, t, ROW_DENIED);
    while todo != {}
      invariant Pending(all, t, todo, ROW_DENIED)
      decreases todo
    {
      var ip :| ip in todo;
      CollectNext(all, t, todo, ip, ROW_DENIED);
      var p := probers[ip];
      var name := p.name;
      if name == "" {
        name := "external";
      }
      all := all + [ProberRow(p.ip, name, p.denied, p.lastDecision)];
      todo := todo - {ip};
    }
    CollectEnds(all, t, ROW_DENIED);
    RowsCarryDenials(m);
    ListedRowsTell(all, m);
  }

  lemma RowsCarryDenials(m: map<string, Prober>)
    ensures Keyed(RowMap(m), ROW_DENIED) == JourneyRuns.Denials(m) && |RowMap(m)| == |m|
  {
    assert RowMap(m).Keys == m.Keys;
  }

  lemma TopEight(all: seq<ProberRow>, ranked: seq<ProberRow>, m: map<string, Prober>)
    requires Pending(all, RowMap(m), {}, ROW_DENIED)
    requires multiset(ranked) == multiset(all) && Descending(ranked, ROW_DENIED)
    ensures multiset(ranked) == multiset(RowMap(m).Values)
    ensures IsTopEight(Take(TOP_PROBERS, ranked), m)
  {
    RowsCarryDenials(m);
    RankedTop(all, ranked, RowMap(m), TOP_PROBERS, ROW_DENIED);
  }

  method RankProbers(probers: map<string, ProberStat>, ghost m: map<string, Prober>, ghost stats: set<ProberStat>)
    returns (top: seq<ProberRow>, ranked: seq<ProberRow>)
    requires ProbersHold(probers, m, stats)
    ensures multiset(ranked) == multiset(RowMap(m).Values) && Descending(ranked, ROW_DENIED)
    ensures top == Take(TOP_PROBERS, ranked) && IsTopEight(top, m) && |ranked| == |m|
  {
    var all := CollectProbers(probers, m, stats);
    ranked := SortSlice(all, ROW_DENIED);
    TopEight(all, ranked, m);
    assert |ranked| == |multiset(ranked)| == |multiset(all)| == |all|;
    top := ranked;
    if |top| > TOP_PROBERS {
      top := top[..TOP_PROBERS];
    }
  }

  /** The newest values of the charts outside todo, and their total. */
  ghost predicate NewestSoFar(channels: map<string, nat>, total: nat, c: map<string, seq<nat>>, todo: set<string>) {
    todo <= c.Keys && channels == NewestOf(c) - todo && total == SumMap(channels)
  }

  lemma NewestNext(channels: map<string, nat>, total: nat, c: map<string, seq<nat>>, todo: set<string>, ch: string)
    requires NewestSoFar(channels, total, c, todo) && ch in todo
    ensures if c[ch] == [] then NewestSoFar(channels, total, c, todo - {ch})
            else var v := c[ch][|c[ch]| - 1]; NewestSoFar(channels[ch := v], total + v, c, todo - {ch})
  {
    if c[ch] == [] {
      assert NewestOf(c) - (todo - {ch}) == NewestOf(c) - todo;
    } else {
      var v := c[ch][|c[ch]| - 1];
      assert NewestOf(c) - (todo - {ch}) == (NewestOf(c) - todo)[ch := v];
      SumMapUpdate(channels, ch, v);
    }
  }

  lemma NewestEnds(channels: map<string, nat>, total: nat, c: map<string, seq<nat>>)
    ensures NewestSoFar(map[], 0, c, c.Keys)
    ensures NewestSoFar(channels, total, c, {}) ==> channels == NewestOf(c) && total == SumMap(channels)
  {
    assert NewestOf(c) - c.Keys == map[];
    assert NewestOf(c) - {} == NewestOf(c);
  }

  method LastCell(series: map<string, Slice>, ch: string, ghost log: Log) returns (v: Option<nat>)
    requires LogOk(log) && SeriesOk(series, log) && ch in series
    ensures var c := Charts(series, log)[ch]; v == if c == [] then None else Some(c[|c| - 1])
  {
    var s := series[ch];
    if s.len == 0 {
      return None;
    }
    ShownIsInMemory(s, log);
    v := Some(s.arr[s.off + s.len - 1]);
    assert s.arr[s.off..s.off + s.len][s.len - 1] == v.value;
  }

  /** The newest values of the charts, and their running total. */
  method NewestValues(series: map<string, Slice>, ghost log: Log) returns (channels: map<string, nat>, tickTotal: nat)
    requires LogOk(log) && SeriesOk(series, log)
    ensures channels == NewestOf(Charts(series, log)) && tickTotal == SumMap(channels)
  {
    channels, tickTotal := map[], 0;
    var todo := series.Keys;
    ghost var c := Charts(series, log);
    NewestEnds(channels, tickTotal, c);
    while todo != {}
      invariant NewestSoFar(channels, tickTotal, c, todo)
      decreases todo
    {
      var ch :| ch in todo;
      NewestNext(channels, tickTotal, c, todo, ch);
      var v := LastCell(series, ch, log);
      if v.Some? {
        channels, tickTotal := channels[ch := v.value], tickTotal + v.value;
      }
      todo := todo - {ch};
    }
    NewestEnds(channels, tickTotal, c);
  }
}
