/** What the journey aggregator shows after any sequence of messages, samples and index
    refreshes, stated against the history of the run itself: rings against unbounded
    histories, totals against events, names against the last cluster snapshot. */
module JourneyRuns {
  import opened Text
  import opened Lists
  import opened Journey
  import E = Endpoints

  // ---- the history a run leaves, independent of the aggregator's state ------------------------

  /** Events on ch since the last sample. */
  function EventsSince(run: seq<Step>, ch: string): nat {
    if run == [] || run[|run| - 1].Tick? then 0
    else EventsSince(run[..|run| - 1], ch) + (if OnChannel(run[|run| - 1], ch) then 1 else 0)
  }

  /** Events on any channel since the last sample. */
  function AllEventsSince(run: seq<Step>): nat {
    if run == [] || run[|run| - 1].Tick? then 0
    else AllEventsSince(run[..|run| - 1]) + (if StepEvent(run[|run| - 1]).Some? then 1 else 0)
  }

  /** When ch was last heard from, however long ago. */
  function LastEvent(run: seq<Step>, ch: string): Option<int> {
    if run == [] then None
    else if OnChannel(run[|run| - 1], ch) then Some(run[|run| - 1].now)
    else LastEvent(run[..|run| - 1], ch)
  }

  predicate HeardWithin(run: seq<Step>, ch: string, now: int) {
    LastEvent(run, ch).Some? && now - LastEvent(run, ch).value <= CHANNEL_IDLE
  }

  /** Every per-interval count of ch since it last became active, without any bound. */
  function History(run: seq<Step>, ch: string): seq<nat> {
    if run == [] then []
    else
      var init, a := run[..|run| - 1], run[|run| - 1];
      if !a.Tick? then History(init, ch)
      else if HeardWithin(init, ch, a.now) then History(init, ch) + [EventsSince(init, ch)]
      else []
  }

  function LastTick(run: seq<Step>): Option<int> {
    if run == [] then None
    else if run[|run| - 1].Tick? then Some(run[|run| - 1].now)
    else LastTick(run[..|run| - 1])
  }

  /** One sampler goroutine reads the clock before each sample. */
  ghost predicate TicksInOrder(run: seq<Step>) {
    run == [] ||
    (TicksInOrder(run[..|run| - 1])
     && (run[|run| - 1].Tick? && LastTick(run[..|run| - 1]).Some?
         ==> LastTick(run[..|run| - 1]).value <= run[|run| - 1].now))
  }

  // ---- the ring refines the history ---------------------------------------------------------------

  lemma {:induction false} PendingCounts(run: seq<Step>, ch: string)
    ensures Get(Run(run).counts, ch) == EventsSince(run, ch)
  {
    if run != [] {
      PendingCounts(run[..|run| - 1], ch);
    }
  }

  /** lastSeen is the last event; a channel missing from it was silent past the idle window
      already at the last sample, so no later sample can find it active. */
  lemma {:induction false} LastSeenIsLastEvent(run: seq<Step>, ch: string)
    requires TicksInOrder(run)
    ensures ch in Run(run).lastSeen ==> LastEvent(run, ch) == Some(Run(run).lastSeen[ch])
    ensures ch !in Run(run).lastSeen && LastEvent(run, ch).Some? ==>
              LastTick(run).Some? && LastTick(run).value - LastEvent(run, ch).value > CHANNEL_IDLE
  {
    if run != [] {
      LastSeenIsLastEvent(run[..|run| - 1], ch);
    }
  }

  lemma ActiveIsHeardWithin(run: seq<Step>, ch: string, now: int)
    requires TicksInOrder(run + [Tick(now)])
    ensures ch in Active(Run(run), now) <==> HeardWithin(run, ch, now)
  {
    assert (run + [Tick(now)])[..|run|] == run;
    LastSeenIsLastEvent(run, ch);
  }

  lemma LastNAppend<T>(n: nat, s: seq<T>, x: T)
    requires n > 0
    ensures LastN(n, LastN(n, s) + [x]) == LastN(n, s + [x])
  {
  }

  /** Each chart is the last 120 of the counts recorded since its channel last became active,
      and a channel has a chart exactly when there is such a count. */
  lemma {:induction false} RingRefinesHistory(run: seq<Step>, ch: string)
    requires TicksInOrder(run)
    ensures Series(Run(run), ch) == LastN(HISTORY_LEN, History(run, ch))
    ensures ch in Run(run).series <==> History(run, ch) != []
  {
    if run != [] {
      var init, a := run[..|run| - 1], run[|run| - 1];
      RingRefinesHistory(init, ch);
      if a.Tick? {
        assert run == init + [Tick(a.now)];
        ActiveIsHeardWithin(init, ch, a.now);
        PendingCounts(init, ch);
        LastNAppend(HISTORY_LEN, History(init, ch), EventsSince(init, ch));
      }
    }
  }

  /** The charts shown right after a sample are those of the channels heard from within 20 s. */
  lemma ChartsAreTheChannelsHeard(run: seq<Step>, now: int, ch: string)
    requires TicksInOrder(run + [Tick(now)])
    ensures ch in Run(run + [Tick(now)]).series <==> HeardWithin(run, ch, now)
  {
    assert (run + [Tick(now)])[..|run|] == run;
    ActiveIsHeardWithin(run, ch, now);
  }

  // ---- which messages count -----------------------------------------------------------------------

  /** A probe that decodes counts as one denial unless its channel is 0; nothing else does. */
  lemma WhatCounts(run: seq<Step>, m: Message, now: int)
    ensures var s, s' := Run(run), Run(run + [Step.Message(m, now)]);
            s'.totalDenied == s.totalDenied + (if m.Decoded? && m.probe.channel != 0 then 1 else 0)
    ensures m.Undecodable? || (m.Decoded? && m.probe.channel == 0) ==> Run(run + [Step.Message(m, now)]) == Run(run)
    ensures m.Decoded? && m.probe.channel != 0 ==>
              && OnChannel(Step.Message(m, now), ChannelName(m.probe.channel))
              && (forall ch :: OnChannel(Step.Message(m, now), ch) ==> ch == ChannelName(m.probe.channel))
  {
    assert (run + [Step.Message(m, now)])[..|run|] == run;
  }

  // ---- conservation of denials ------------------------------------------------------------------------

  /** The newest value of every chart, whose sum is the headline rate. */
  function Newest(s: State): map<string, nat> {
    NewestOf(s.series)
  }

  /** Everything ever appended to any chart. */
  ghost function Appended(run: seq<Step>): nat {
    if run == [] then 0
    else Appended(run[..|run| - 1]) + (if run[|run| - 1].Tick? then SumMap(Newest(Run(run))) else 0)
  }

  /** The pending counts a sample at now would throw away: those of silent channels. */
  function Discarded(s: State, now: int): map<string, nat> {
    s.counts - Active(s, now)
  }

  ghost function Lost(run: seq<Step>): nat {
    if run == [] then 0
    else
      Lost(run[..|run| - 1])
      + (if run[|run| - 1].Tick? then SumMap(Discarded(Run(run[..|run| - 1]), run[|run| - 1].now)) else 0)
  }

  lemma {:induction false} SumWithDefault(m: map<string, nat>, ks: set<string>)
    ensures SumMap(map k | k in ks :: Get(m, k)) == SumMap(map k | k in m && k in ks :: m[k])
    decreases |ks|
  {
    var full, part := map k | k in ks :: Get(m, k), map k | k in m && k in ks :: m[k];
    if ks == {} {
      assert full == map[] && part == map[];
    } else {
      var k :| k in ks;
      SumWithDefault(m, ks - {k});
      SumMapAnyKey(full, k);
      assert full - {k} == map j | j in ks - {k} :: Get(m, j);
      var part' := map j | j in m && j in ks - {k} :: m[j];
      if k in m {
        SumMapAnyKey(part, k);
        assert part - {k} == part';
      } else {
        assert part == part';
      }
    }
  }

  /** A sample moves each pending count onto a chart or discards it. */
  lemma SampleMovesCounts(s: State, now: int)
    ensures SumMap(Newest(Sample(s, now))) + SumMap(Discarded(s, now)) == SumMap(s.counts)
  {
    var active := Active(s, now);
    var s' := Sample(s, now);
    assert Newest(s') == map ch | ch in active :: Get(s.counts, ch) by {
      assert s'.series.Keys == active;
      forall ch | ch in active ensures s'.series[ch] != [] && s'.series[ch][|s'.series[ch]| - 1] == Get(s.counts, ch) {
      }
    }
    SumWithDefault(s.counts, active);
    SumMapSplit(s.counts, active);
  }

  lemma MessageCounts(s: State, m: Message, now: int)
    ensures SumMap(OnMessage(s, m, now).counts) == SumMap(s.counts) + (if EventOf(m).Some? then 1 else 0)
    ensures OnMessage(s, m, now).totalDenied == s.totalDenied + (if EventOf(m).Some? then 1 else 0)
  {
    if EventOf(m).Some? {
      var ch := ChannelName(EventOf(m).value.channel);
      SumMapUpdate(s.counts, ch, Get(s.counts, ch) + 1);
    }
  }

  lemma {:induction false} PendingSum(run: seq<Step>)
    ensures SumMap(Run(run).counts) == AllEventsSince(run)
  {
    if run != [] {
      PendingSum(run[..|run| - 1]);
      if run[|run| - 1].Message? {
        MessageCounts(Run(run[..|run| - 1]), run[|run| - 1].m, run[|run| - 1].now);
      }
    }
  }

  /** The books balance in every run: charted + discarded + pending = denied. */
  lemma {:induction false} DenialLedger(run: seq<Step>)
    ensures Appended(run) + Lost(run) + SumMap(Run(run).counts) == Run(run).totalDenied
  {
    if run != [] {
      var init, a := run[..|run| - 1], run[|run| - 1];
      DenialLedger(init);
      match a
      case Message(m, now) => MessageCounts(Run(init), m, now);
      case Install(_, _, _) =>
      case Tick(now) => SampleMovesCounts(Run(init), now);
    }
  }

  lemma NothingDiscardedIffTimely(s: State, now: int)
    requires KeysInv(s)
    ensures SumMap(Discarded(s, now)) == 0 <==> Timely(s, now)
  {
    var d := Discarded(s, now);
    SumMapZero(d);
    assert forall ch :: ch in d ==> d[ch] > 0;
    if Timely(s, now) {
      assert d == map[];
    } else {
      var ch :| ch in s.counts && ch !in Active(s, now);
      assert ch in d;
    }
  }

  lemma {:induction false} NothingLostIffTimely(run: seq<Step>)
    ensures Lost(run) == 0 <==> TimelyRun(run)
  {
    if run != [] {
      var init, a := run[..|run| - 1], run[|run| - 1];
      NothingLostIffTimely(init);
      KeysHold(init);
      if a.Tick? {
        NothingDiscardedIffTimely(Run(init), a.now);
      }
    }
  }

  /** Both kinds of timeliness in terms of the events alone: a sample is timely when every
      channel heard since the last one was heard within 20 s, and first-timely when that holds
      of those that have no chart yet. */
  lemma TimelyByHistory(run: seq<Step>, now: int)
    requires TicksInOrder(run + [Tick(now)])
    ensures Timely(Run(run), now) <==> forall ch :: EventsSince(run, ch) > 0 ==> HeardWithin(run, ch, now)
    ensures FirstTimely(Run(run), now) <==>
            forall ch :: EventsSince(run, ch) > 0 && History(run, ch) == [] ==> HeardWithin(run, ch, now)
  {
    assert (run + [Tick(now)])[..|run|] == run;
    KeysHold(run);
    forall ch
      ensures ch in Run(run).counts <==> EventsSince(run, ch) > 0
      ensures ch in Run(run).series <==> History(run, ch) != []
      ensures ch in Active(Run(run), now) <==> HeardWithin(run, ch, now)
    {
      PendingCounts(run, ch);
      RingRefinesHistory(run, ch);
      ActiveIsHeardWithin(run, ch, now);
    }
  }

  /** The charts and the pending counts account for every denial if and only if each sample
      came within 20 s of the last event of every channel with events to report. */
  lemma ConservationIffTimely(run: seq<Step>)
    ensures Appended(run) + SumMap(Run(run).counts) == Run(run).totalDenied <==> TimelyRun(run)
  {
    DenialLedger(run);
    NothingLostIffTimely(run);
  }

  /** The headline rate right after a sample: the events since the previous sample, less
      those of channels the sample found silent; all of them when the sample is timely. */
  lemma HeadlineRate(run: seq<Step>, now: int)
    ensures SumMap(Newest(Run(run + [Tick(now)]))) + SumMap(Discarded(Run(run), now)) == AllEventsSince(run)
    ensures SumMap(Newest(Run(run + [Tick(now)]))) == AllEventsSince(run) <==> Timely(Run(run), now)
  {
    assert (run + [Tick(now)])[..|run|] == run;
    SampleMovesCounts(Run(run), now);
    PendingSum(run);
    KeysHold(run);
    NothingDiscardedIffTimely(Run(run), now);
  }

  // ---- probers -------------------------------------------------------------------------------------------

  function Denials(probers: map<string, Prober>): map<string, nat> {
    map ip | ip in probers :: probers[ip].denied
  }

  function StaleAt(s: State, now: int): set<string> {
    set ip | ip in s.probers && Stale(s.probers[ip], now)
  }

  /** Denials that left with pruned probers. */
  ghost function Pruned(run: seq<Step>): nat {
    if run == [] then 0
    else
      var s, a := Run(run[..|run| - 1]), run[|run| - 1];
      Pruned(run[..|run| - 1])
      + (if a.Tick? then SumMap(Denials(map ip | ip in s.probers && ip in StaleAt(s, a.now) :: s.probers[ip])) else 0)
  }

  /** Events without a host are counted on no prober. */
  function Hostless(run: seq<Step>): nat {
    |Filter(run, (a: Step) => StepEvent(a).Some? && HostOf(StepEvent(a).value.prober) == "")|
  }

  function WithDecision(run: seq<Step>, decision: string): nat {
    |Filter(run, (a: Step) => StepEvent(a).Some? && StepEvent(a).value.decision == decision)|
  }

  lemma CountProberSum(probers: map<string, Prober>, ip: string, decision: string, now: int)
    ensures SumMap(Denials(CountProber(probers, ip, decision, now))) == SumMap(Denials(probers)) + 1
  {
    var d := Denials(probers);
    var n := if ip in probers then probers[ip].denied + 1 else 1;
    assert Denials(CountProber(probers, ip, decision, now)) == d[ip := n];
    SumMapUpdate(d, ip, n);
  }

  lemma SampleKeepsDenials(s: State, now: int)
    ensures SumMap(Denials(Sample(s, now).probers))
            + SumMap(Denials(map ip | ip in s.probers && ip in StaleAt(s, now) :: s.probers[ip]))
            == SumMap(Denials(s.probers))
  {
    var d, stale := Denials(s.probers), StaleAt(s, now);
    SumMapSplit(d, stale);
    assert Denials(Sample(s, now).probers) == d - stale;
    assert Denials(map ip | ip in s.probers && ip in stale :: s.probers[ip]) == map k | k in d && k in stale :: d[k];
  }

  /** Every denial is on a live prober, left with a pruned one, or had no host. */
  lemma {:induction false} ProberLedger(run: seq<Step>)
    ensures SumMap(Denials(Run(run).probers)) + Pruned(run) + Hostless(run) == Run(run).totalDenied
  {
    if run == [] {
      assert Denials(Run(run).probers) == map[];
    } else {
      var init, a := run[..|run| - 1], run[|run| - 1];
      var s := Run(init);
      ProberLedger(init);
      match a
      case Message(m, now) =>
        if EventOf(m).Some? {
          CountProberSum(s.probers, HostOf(EventOf(m).value.prober), EventOf(m).value.decision, now);
        }
      case Install(_, _, _) =>
        assert Denials(Run(run).probers) == Denials(s.probers);
      case Tick(now) => SampleKeepsDenials(s, now);
    }
  }

  predicate FromHost(a: Step, ip: string) {
    StepEvent(a).Some? && HostOf(StepEvent(a).value.prober) == ip
  }

  /** The last event from an address: its time and its decision. */
  function LastProbe(run: seq<Step>, ip: string): Option<(int, string)> {
    if run == [] then None
    else if FromHost(run[|run| - 1], ip) then Some((run[|run| - 1].now, StepEvent(run[|run| - 1]).value.decision))
    else LastProbe(run[..|run| - 1], ip)
  }

  /** Events from an address since a sample last found it silent past the TTL. */
  function DeniedSince(run: seq<Step>, ip: string): nat {
    if run == [] then 0
    else
      var init, a := run[..|run| - 1], run[|run| - 1];
      if a.Tick? && LastProbe(init, ip).Some? && a.now - LastProbe(init, ip).value.0 > PROBER_TTL then 0
      else DeniedSince(init, ip) + (if FromHost(a, ip) then 1 else 0)
  }

  /** One row per address, counting all its events whatever ports they came from. */
  lemma {:induction false} ProberCountsItsEvents(run: seq<Step>, ip: string)
    requires ip != ""
    ensures ip in Run(run).probers <==> DeniedSince(run, ip) > 0
    ensures ip in Run(run).probers ==>
              && Run(run).probers[ip].denied == DeniedSince(run, ip)
              && LastProbe(run, ip) == Some((Run(run).probers[ip].lastSeen, Run(run).probers[ip].lastDecision))
  {
    if run != [] {
      ProberCountsItsEvents(run[..|run| - 1], ip);
    }
  }

  lemma PortDoesNotSplitAProber(a: Step, ip: string, port: int)
    requires StepEvent(a).Some? && StepEvent(a).value.prober == HostPort(ip, port)
    ensures FromHost(a, ip)
  {
    HostOfInvertsHostPort(ip, port);
  }

  /** The alarm counters are the numbers of Tarpit and DecoyHit events; no event is both. */
  lemma {:induction false} AlarmCounts(run: seq<Step>)
    ensures Run(run).tarpit == WithDecision(run, "Tarpit")
    ensures Run(run).decoyHits == WithDecision(run, "DecoyHit")
    ensures Run(run).tarpit + Run(run).decoyHits <= Run(run).totalDenied
  {
    if run != [] {
      AlarmCounts(run[..|run| - 1]);
    }
  }

  function Threats(run: seq<Step>): nat {
    |Filter(run, (a: Step) => a.Message? && a.m.Threat?)|
  }

  /** When any event last came in. */
  function LastAnyEvent(run: seq<Step>): Option<int> {
    if run == [] then None
    else if StepEvent(run[|run| - 1]).Some? then Some(run[|run| - 1].now)
    else LastAnyEvent(run[..|run| - 1])
  }

  /** The threat signals are the threat messages and nothing else, and the time that decides
      the mode is that of the last event, whatever samples and refreshes come after it. */
  lemma {:induction false} SignalsAndMode(run: seq<Step>)
    ensures Run(run).threats == Threats(run)
    ensures Run(run).lastEventAt == LastAnyEvent(run)
  {
    if run != [] {
      SignalsAndMode(run[..|run| - 1]);
    }
  }

  /** The last payload shown on ch since its chart was last dropped. */
  function LastShown(run: seq<Step>, ch: string): Option<string> {
    if run == [] then None
    else
      var init, a := run[..|run| - 1], run[|run| - 1];
      if OnChannel(a, ch) && StepEvent(a).value.substitute != "" then Some(SanitizeSub(StepEvent(a).value.substitute))
      else if a.Tick? && History(init, ch) != [] && !HeardWithin(init, ch, a.now) then None
      else LastShown(init, ch)
  }

  lemma {:induction false} LastSubIsLastShown(run: seq<Step>, ch: string)
    requires TicksInOrder(run)
    ensures LastShown(run, ch) == if ch in Run(run).lastSub then Some(Run(run).lastSub[ch]) else None
  {
    if run != [] {
      var init, a := run[..|run| - 1], run[|run| - 1];
      LastSubIsLastShown(init, ch);
      if a.Tick? {
        assert run == init + [Tick(a.now)];
        ActiveIsHeardWithin(init, ch, a.now);
        RingRefinesHistory(init, ch);
      }
    }
  }

  // ---- names ------------------------------------------------------------------------------------------------

  /** Each prober is filed under its own address, and its name is either not resolved yet or
      what the installed index says now: never a leftover of an older index. */
  ghost predicate NamesCoherent(s: State) {
    forall ip :: ip in s.probers ==>
      && s.probers[ip].ip == ip
      && (s.probers[ip].name == "" || (s.idx.Some? && s.probers[ip].name == E.NameOf(s.idx.value, ip)))
  }

  ghost predicate AllNamed(s: State) {
    s.idx.Some? ==> forall ip :: ip in s.probers ==> s.probers[ip].name == E.NameOf(s.idx.value, ip)
  }

  lemma MessageKeepsNames(s: State, m: Message, now: int)
    requires NamesCoherent(s)
    ensures NamesCoherent(OnMessage(s, m, now))
  {
    assert OnMessage(s, m, now).idx == s.idx;
  }

  lemma NamesStep(s: State, a: Step)
    requires NamesCoherent(s)
    ensures NamesCoherent(Apply(s, a))
    ensures !a.Message? ==> AllNamed(Apply(s, a))
  {
    match a
    case Message(m, now) => MessageKeepsNames(s, m, now);
    case Install(idx, _, now) =>
    case Tick(now) =>
      assert Sample(s, now).idx == s.idx;
  }

  /** In every reachable state, whatever messages come between the check, the unlocked build,
      the installation and the sample; and after an installation or a sample with an index
      nobody is left unnamed. */
  lemma {:induction false} NamesAlwaysCoherent(run: seq<Step>)
    ensures NamesCoherent(Run(run))
    ensures run != [] && !run[|run| - 1].Message? ==> AllNamed(Run(run))
  {
    if run != [] {
      NamesAlwaysCoherent(run[..|run| - 1]);
      NamesStep(Run(run[..|run| - 1]), run[|run| - 1]);
    }
  }

  /** The snapshot behind the installed index. */
  function Snapshot(run: seq<Step>): Option<E.Cluster> {
    if run == [] then None
    else if run[|run| - 1].Install? then Some(run[|run| - 1].cluster)
    else Snapshot(run[..|run| - 1])
  }

  /** Every index was built from its snapshot by buildEndpointIndex. */
  ghost predicate BuiltFromSnapshots(run: seq<Step>) {
    forall i :: 0 <= i < |run| && run[i].Install? ==> E.Indexes(run[i].idx, run[i].cluster)
  }

  lemma {:induction false} InstalledIndex(run: seq<Step>)
    requires BuiltFromSnapshots(run)
    ensures Run(run).idx.Some? <==> Snapshot(run).Some?
    ensures Run(run).idx.Some? ==> E.Indexes(Run(run).idx.value, Snapshot(run).value)
  {
    if run != [] {
      var init, a := run[..|run| - 1], run[|run| - 1];
      if a.Install? {
        assert Run(run).idx == Some(a.idx) && Snapshot(run) == Some(a.cluster);
      } else {
        InstalledIndex(init);
        assert Run(run).idx == Run(init).idx && Snapshot(run) == Snapshot(init);
      }
    }
  }

  /** The time captured by the sample that installed the index. */
  function LastInstall(run: seq<Step>): Option<int> {
    if run == [] then None
    else if run[|run| - 1].Install? then Some(run[|run| - 1].now)
    else LastInstall(run[..|run| - 1])
  }

  predicate NoInstallWithin(run: seq<Step>, now: int) {
    LastInstall(run).None? || now - LastInstall(run).value > INDEX_REFRESH
  }

  /** The index is found stale exactly when the run has no installation of the last 30 s. */
  lemma {:induction false} StaleIffNoRecentInstall(run: seq<Step>, now: int)
    ensures Run(run).idx.Some? <==> LastInstall(run).Some?
    ensures Run(run).idx.Some? ==> Run(run).idxBuiltAt == LastInstall(run).value
    ensures IndexStale(Run(run), now) <==> NoInstallWithin(run, now)
  {
    if run != [] {
      StaleIffNoRecentInstall(run[..|run| - 1], now);
      var s := Run(run[..|run| - 1]);
      assert !run[|run| - 1].Install? ==> Run(run).idx == s.idx && Run(run).idxBuiltAt == s.idxBuiltAt;
    }
  }

  /** Every installation was decided by a check of an earlier state, and only messages came in
      since: one sampler checks, builds and installs, and nobody else touches the index. */
  ghost predicate CheckedBefore(run: seq<Step>, i: nat, k: nat)
    requires k <= i < |run| && run[i].Install?
  {
    IndexStale(Run(run[..k]), run[i].now) && forall j :: k <= j < i ==> run[j].Message?
  }

  ghost predicate OneRefresher(run: seq<Step>) {
    forall i :: 0 <= i < |run| && run[i].Install? ==> exists k: nat :: k <= i && CheckedBefore(run, i, k)
  }

  /** The check still holds when the lock is taken again. */
  lemma {:induction false} StillStale(run: seq<Step>, k: nat, i: nat, now: int)
    requires k <= i <= |run| && IndexStale(Run(run[..k]), now)
    requires forall j :: k <= j < i ==> run[j].Message?
    ensures IndexStale(Run(run[..i]), now)
    decreases i - k
  {
    if k < i {
      assert run[..k + 1][..k] == run[..k];
      var s := Run(run[..k]);
      assert Run(run[..k + 1]) == OnMessage(s, run[k].m, run[k].now);
      StillStale(run, k + 1, i, now);
    }
  }

  lemma {:induction false} BuiltAtLastInstall(run: seq<Step>, i: nat, j: nat)
    requires i < j <= |run| && run[i].Install? && forall k :: i < k < j ==> !run[k].Install?
    ensures Run(run[..j]).idx.Some? && Run(run[..j]).idxBuiltAt == run[i].now
    decreases j
  {
    assert run[..j][..j - 1] == run[..j - 1];
    if i < j - 1 {
      BuiltAtLastInstall(run, i, j - 1);
    }
  }

  /** So the times that two installing samples captured are more than 30 s apart, although check
      and installation are separate critical sections. */
  lemma {:induction false} RefreshesAreSpaced(run: seq<Step>, i: nat, j: nat)
    requires OneRefresher(run) && i < j < |run| && run[i].Install? && run[j].Install?
    ensures run[j].now - run[i].now > INDEX_REFRESH
    decreases j - i
  {
    var k: nat :| k <= j && CheckedBefore(run, j, k);
    StillStale(run, k, j, run[j].now);
    if m: nat :| i < m < j && run[m].Install? {
      RefreshesAreSpaced(run, i, m);
      RefreshesAreSpaced(run, m, j);
    } else {
      BuiltAtLastInstall(run, i, j);
    }
  }

  /** End to end: a shown name is what a scan of the last snapshot's lists gives for the
      address, with the host-network pods playing no part in it. */
  lemma NamesComeFromTheLastSnapshot(run: seq<Step>, ip: string)
    requires BuiltFromSnapshots(run) && ip in Run(run).probers && Run(run).probers[ip].name != ""
    ensures Snapshot(run).Some?
    ensures var c := Snapshot(run).value;
            && E.LastHostPod(c.pods, ip, 0).None?
            && var e := E.ScanResolve(c, ip, 0);
               Run(run).probers[ip].name == E.DescribeEndpoint(e.kind, e.namespace, e.name)
  {
    NamesAlwaysCoherent(run);
    InstalledIndex(run);
    E.ResolveRefinesScan(Run(run).idx.value, Snapshot(run).value, ip, 0);
    E.NoHostPodAtPortZero(Snapshot(run).value.pods, ip);
  }
}
