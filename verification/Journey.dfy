/** The probe-journey aggregator of internal/service/journey.go as values: what each of its
    critical sections does to its state, and what is true after any sequence of them.
    The object with its heap is in JourneyObject.dfy and is proved to take these steps. */
module Journey {
  import opened Text
  import opened Lists
  import E = Endpoints

  const SECOND: int := 1_000_000_000
  const HISTORY_LEN: nat := 120
  const CHANNEL_IDLE: int := 20 * SECOND
  const PROBER_TTL: int := 90 * SECOND
  const INDEX_REFRESH: int := 30 * SECOND
  const ACTIVE_WINDOW: int := 10 * SECOND
  const TOP_PROBERS: nat := 8

  datatype Prober = Prober(ip: string, name: string, denied: nat, lastDecision: string, lastSeen: int)

  datatype Probe = Probe(channel: int, decision: string, prober: string, substitute: string)
  /** A bus message: on the threats subject, or a probe event that decodes or does not. */
  datatype Message = Threat | Undecodable | Decoded(probe: Probe)

  datatype State = State(
    counts: map<string, nat>, series: map<string, seq<nat>>,
    lastSeen: map<string, int>, lastSub: map<string, string>,
    probers: map<string, Prober>,
    tarpit: nat, decoyHits: nat, threats: nat, totalDenied: nat, lastEventAt: Option<int>,
    idx: Option<E.Index>, idxBuiltAt: int)

  function Init(): State {
    State(map[], map[], map[], map[], map[], 0, 0, 0, 0, None, None, 0)
  }

  // ---- channel names and substitute text ---------------------------------------------------

  function ChannelName(id: int): string {
    match id
    case 1 => "BANNER_SSH"
    case 2 => "BANNER_HTTP"
    case 3 => "OSFP"
    case 4 => "ERRNO_FS"
    case 5 => "PROC_KALLSYMS"
    case 6 => "CRASH"
    case 7 => "ICMP"
    case 8 => "SEQ_IPID"
    case 9 => "DECOY"
    case _ => "ch" + Decimal(id)
  }

  /** Length and first letter tell the known names from each other and from "ch<n>". */
  lemma ChannelNameShape(id: int)
    ensures !(1 <= id <= 9) ==> ChannelName(id)[0] == 'c' && ChannelName(id)[2..] == Decimal(id)
    ensures 1 <= id <= 9 ==>
              (|ChannelName(id)|, ChannelName(id)[0])
              == [(10, 'B'), (11, 'B'), (4, 'O'), (8, 'E'), (13, 'P'), (5, 'C'), (4, 'I'), (8, 'S'), (5, 'D')][id - 1]
  {
  }

  /** Different channel numbers never share a counter or a series. */
  lemma ChannelNameInjective(a: int, b: int)
    requires ChannelName(a) == ChannelName(b)
    ensures a == b
  {
    ChannelNameShape(a);
    ChannelNameShape(b);
    if !(1 <= a <= 9) && !(1 <= b <= 9) {
      DecimalInjective(a, b);
    }
  }

  predicate Printable(s: string) {
    forall c :: c in s ==> ' ' <= c <= '~'
  }

  const HEX: string := "0123456789abcdef"

  function HexPreview(s: string): string {
    if s == "" then ""
    else
      var c := s[|s| - 1] as int % 256;
      var front := HexPreview(s[..|s| - 1]);
      (if front == "" then "" else front + " ") + [HEX[c / 16], HEX[c % 16]]
  }

  /** sanitizeSub, on the bytes of the payload (one char each). */
  function SanitizeSub(s: string): string {
    if Printable(s) then Take(40, s) else HexPreview(Take(8, s))
  }

  lemma {:induction false} HexPreviewShape(s: string)
    ensures Printable(HexPreview(s))
    ensures |HexPreview(s)| == if s == "" then 0 else 3 * |s| - 1
  {
    if s != "" {
      HexPreviewShape(s[..|s| - 1]);
      assert forall k :: 0 <= k < 16 ==> HEX[k] in HEX;
      assert Printable(HEX);
    }
  }

  function HexValue(c: char): int {
    if '0' <= c <= '9' then c as int - '0' as int
    else if 'a' <= c <= 'f' then c as int - 'a' as int + 10
    else -1
  }

  /** The preview reads back: two digits for each byte, the high one first, and a space between. */
  lemma {:induction false} HexPreviewReadsBack(s: string, i: nat)
    requires i < |s|
    ensures |HexPreview(s)| == 3 * |s| - 1
    ensures 16 * HexValue(HexPreview(s)[3 * i]) + HexValue(HexPreview(s)[3 * i + 1]) == s[i] as int % 256
    ensures i + 1 < |s| ==> HexPreview(s)[3 * i + 2] == ' '
  {
    HexPreviewShape(s);
    var init := s[..|s| - 1];
    HexPreviewShape(init);
    if i < |init| {
      HexPreviewReadsBack(init, i);
    } else {
      HexDigits(s[i] as int % 256);
    }
  }

  lemma HexDigits(b: int)
    requires 0 <= b < 256
    ensures HexValue(HEX[b / 16]) == b / 16 && HexValue(HEX[b % 16]) == b % 16
  {
    assert forall k :: 0 <= k < 16 ==> HexValue(HEX[k]) == k;
  }

  /** What is shown of a payload: its first 40 characters when all are printable, otherwise its
      first eight bytes in hexadecimal. */
  lemma ShownOfPayload(s: string, i: nat)
    ensures (forall c :: c in s ==> 32 <= c as int <= 126) ==>
              SanitizeSub(s) <= s && |SanitizeSub(s)| == if |s| < 40 then |s| else 40
    ensures !(forall c :: c in s ==> 32 <= c as int <= 126) && i < |s| && i < 8 ==>
              && |SanitizeSub(s)| == 3 * (if |s| < 8 then |s| else 8) - 1
              && 16 * HexValue(SanitizeSub(s)[3 * i]) + HexValue(SanitizeSub(s)[3 * i + 1]) == s[i] as int % 256
  {
    assert Printable(s) <==> forall c :: c in s ==> 32 <= c as int <= 126;
    if !Printable(s) && i < |s| && i < 8 {
      HexPreviewReadsBack(Take(8, s), i);
    }
  }

  /** Whatever bytes arrive, what is shown is short and printable. */
  lemma SanitizedIsShownSafely(s: string)
    ensures Printable(SanitizeSub(s)) && |SanitizeSub(s)| <= 40
    ensures Printable(s) && |s| <= 40 ==> SanitizeSub(s) == s
  {
    HexPreviewShape(Take(8, s));
    assert Printable(s) ==> forall c :: c in Take(40, s) ==> c in s;
  }

  // ---- the critical sections ------------------------------------------------------------------

  function Get(m: map<string, nat>, k: string): nat {
    if k in m then m[k] else 0
  }

  /** The event a message contributes, if any: channel 0 is not an event. */
  function EventOf(m: Message): Option<Probe> {
    if m.Decoded? && m.probe.channel != 0 then Some(m.probe) else None
  }

  function CountProber(probers: map<string, Prober>, ip: string, decision: string, now: int): map<string, Prober> {
    var p := if ip in probers then probers[ip] else Prober(ip, "", 0, "", 0);
    probers[ip := p.(denied := p.denied + 1, lastDecision := decision, lastSeen := now)]
  }

  function CountOnChannel(s: State, ch: string, shown: Option<string>, now: int): State {
    s.(counts := s.counts[ch := Get(s.counts, ch) + 1],
       lastSeen := s.lastSeen[ch := now],
       totalDenied := s.totalDenied + 1,
       lastEventAt := Some(now),
       lastSub := if shown.Some? then s.lastSub[ch := shown.value] else s.lastSub)
  }

  function CountAlarm(s: State, decision: string): State {
    s.(tarpit := s.tarpit + (if decision == "Tarpit" then 1 else 0),
       decoyHits := s.decoyHits + (if decision == "DecoyHit" then 1 else 0))
  }

  function CountOnProber(s: State, ip: string, decision: string, now: int): State {
    if ip == "" then s else s.(probers := CountProber(s.probers, ip, decision, now))
  }

  function CountEvent(s: State, p: Probe, now: int): State {
    var shown := if p.substitute != "" then Some(SanitizeSub(p.substitute)) else None;
    CountOnProber(
      CountAlarm(CountOnChannel(s, ChannelName(p.channel), shown, now), p.decision),
      HostOf(p.prober), p.decision, now)
  }

  /** onMessage. */
  function OnMessage(s: State, m: Message, now: int): State {
    if m.Threat? then s.(threats := s.threats + 1)
    else if EventOf(m).Some? then CountEvent(s, EventOf(m).value, now)
    else s
  }

  function HeardRecently(lastSeen: map<string, int>, now: int): set<string> {
    set ch | ch in lastSeen && now - lastSeen[ch] <= CHANNEL_IDLE
  }

  function Active(s: State, now: int): set<string> {
    HeardRecently(s.lastSeen, now)
  }

  function LastN<T>(n: nat, s: seq<T>): seq<T> {
    if |s| <= n then s else s[|s| - n..]
  }

  /** The end of the list: n elements of it, or all when there are fewer. */
  lemma LastNIs<T>(n: nat, s: seq<T>)
    ensures |LastN(n, s)| == if |s| < n then |s| else n
    ensures s == s[..|s| - |LastN(n, s)|] + LastN(n, s)
  {
  }

  function Series(s: State, ch: string): seq<nat> {
    if ch in s.series then s.series[ch] else []
  }

  /** Each active channel's chart gains this interval's count and keeps its last 120 values;
      the others are dropped. */
  function SampledSeries(series: map<string, seq<nat>>, counts: map<string, nat>, active: set<string>)
    : map<string, seq<nat>>
  {
    map ch | ch in active :: LastN(HISTORY_LEN, (if ch in series then series[ch] else []) + [Get(counts, ch)])
  }

  /** The channel half of sample. */
  function SampleChannels(s: State, now: int): State {
    var active := Active(s, now);
    var gone := s.series.Keys - active;
    Rolled(s, SampledSeries(s.series, s.counts, active), s.lastSeen - gone, s.lastSub - gone)
  }

  function Rolled(s: State, series: map<string, seq<nat>>, lastSeen: map<string, int>, lastSub: map<string, string>)
    : State
  {
    s.(series := series, lastSeen := lastSeen, lastSub := lastSub, counts := map[])
  }

  function Named(p: Prober, idx: Option<E.Index>): Prober {
    if p.name == "" && idx.Some? then p.(name := E.NameOf(idx.value, p.ip)) else p
  }

  predicate Stale(p: Prober, now: int) {
    now - p.lastSeen > PROBER_TTL
  }

  /** The probers a sample keeps, with names where an index can give them. */
  function SampledProbers(m: map<string, Prober>, idx: Option<E.Index>, now: int): map<string, Prober> {
    map ip | ip in m && !Stale(m[ip], now) :: Named(m[ip], idx)
  }

  /** The prober half of sample. */
  function SampleProbers(s: State, now: int): State {
    s.(probers := SampledProbers(s.probers, s.idx, now))
  }

  function Sample(s: State, now: int): State {
    SampleProbers(SampleChannels(s, now), now)
  }

  /** Whether maybeRefreshIndex goes on to build. */
  predicate IndexStale(s: State, now: int) {
    s.idx.None? || now - s.idxBuiltAt > INDEX_REFRESH
  }

  /** The second critical section of maybeRefreshIndex: install and rename everyone. */
  function InstallIndex(s: State, idx: E.Index, now: int): State {
    s.(idx := Some(idx), idxBuiltAt := now, probers := RenamedProbers(s.probers, idx))
  }

  function RenamedProbers(m: map<string, Prober>, idx: E.Index): map<string, Prober> {
    map ip | ip in m :: m[ip].(name := E.NameOf(idx, m[ip].ip))
  }

  function NewestOf(series: map<string, seq<nat>>): map<string, nat> {
    map ch | ch in series && series[ch] != [] :: series[ch][|series[ch]| - 1]
  }

  // ---- runs -----------------------------------------------------------------------------------------

  /** A critical section and the time its caller captured before taking the lock. The index
      is built with the lock released, so messages may come between any two steps. */
  datatype Step =
    | Message(m: Message, now: int)
    | Install(idx: E.Index, cluster: E.Cluster, now: int)
    | Tick(now: int)

  function Apply(s: State, a: Step): State {
    match a
    case Message(m, now) => OnMessage(s, m, now)
    case Install(idx, _, now) => InstallIndex(s, idx, now)
    case Tick(now) => Sample(s, now)
  }

  function Run(run: seq<Step>): State {
    if run == [] then Init() else Apply(Run(run[..|run| - 1]), run[|run| - 1])
  }

  function StepEvent(a: Step): Option<Probe> {
    if a.Message? then EventOf(a.m) else None
  }

  predicate OnChannel(a: Step, ch: string) {
    StepEvent(a).Some? && ChannelName(StepEvent(a).value.channel) == ch
  }

  // ---- key sets -----------------------------------------------------------------------------------------

  ghost predicate KeysInv(s: State) {
    && s.counts.Keys <= s.lastSeen.Keys
    && s.series.Keys <= s.lastSeen.Keys
    && s.lastSub.Keys <= s.lastSeen.Keys
    && (forall ch :: ch in s.counts ==> s.counts[ch] > 0)
    && (forall ch :: ch in s.series ==> 1 <= |s.series[ch]| <= HISTORY_LEN)
  }

  lemma KeysStep(s: State, a: Step)
    requires KeysInv(s)
    ensures KeysInv(Apply(s, a))
  {
    match a
    case Message(m, now) => KeysOfMessage(s, m, now);
    case Install(_, _, _) =>
    case Tick(now) => KeysOfSample(s, now);
  }

  lemma KeysOfMessage(s: State, m: Message, now: int)
    requires KeysInv(s)
    ensures KeysInv(OnMessage(s, m, now))
  {
  }

  lemma KeysOfSample(s: State, now: int)
    requires KeysInv(s)
    ensures KeysInv(Sample(s, now))
  {
  }

  lemma {:induction false} KeysHold(run: seq<Step>)
    ensures KeysInv(Run(run))
  {
    if run != [] {
      KeysHold(run[..|run| - 1]);
      KeysStep(Run(run[..|run| - 1]), run[|run| - 1]);
    }
  }

  /** Right after a sample the charted channels are exactly those heard from within the idle
      window, and every silent channel that was charted has been forgotten everywhere. */
  lemma SampleKeepsExactlyTheActive(run: seq<Step>, now: int)
    ensures var s, s' := Run(run), Run(run + [Tick(now)]);
            && s'.series.Keys == Active(s, now) == Active(s', now)
            && s'.counts == map[]
            && s'.lastSeen.Keys == s.lastSeen.Keys - (s.series.Keys - Active(s, now))
            && (s'.lastSeen.Keys == Active(s, now) <==> s.lastSeen.Keys - Active(s, now) <= s.series.Keys)
  {
    assert (run + [Tick(now)])[..|run|] == run;
    KeysHold(run);
  }

  /** Every channel with events to report is still within its idle window. */
  ghost predicate Timely(s: State, now: int) {
    s.counts.Keys <= Active(s, now)
  }

  ghost predicate TimelyRun(run: seq<Step>) {
    run == [] ||
    (TimelyRun(run[..|run| - 1])
     && (run[|run| - 1].Tick? ==> Timely(Run(run[..|run| - 1]), run[|run| - 1].now)))
  }

  /** Every channel with events to report and no chart yet is still within its idle window: a
      charted channel may be sampled as late as it likes. */
  ghost predicate FirstTimely(s: State, now: int) {
    s.counts.Keys - s.series.Keys <= Active(s, now)
  }

  ghost predicate FirstTimelyRun(run: seq<Step>) {
    run == [] ||
    (FirstTimelyRun(run[..|run| - 1])
     && (run[|run| - 1].Tick? ==> FirstTimely(Run(run[..|run| - 1]), run[|run| - 1].now)))
  }

  /** After every sample of the run lastSeen held exactly the active channels. */
  ghost predicate NoResidue(run: seq<Step>) {
    run == [] ||
    (NoResidue(run[..|run| - 1])
     && (run[|run| - 1].Tick? ==> Run(run).lastSeen.Keys == Active(Run(run[..|run| - 1]), run[|run| - 1].now)))
  }

  /** Nothing outlives its chart if and only if the first sample of each channel is timely:
      after every sample lastSeen, too, is exactly the active channels. */
  lemma {:induction false} NoResidueIffFirstTimely(run: seq<Step>)
    ensures NoResidue(run) <==> FirstTimelyRun(run)
    ensures NoResidue(run) ==> Run(run).lastSeen.Keys <= Run(run).series.Keys + Run(run).counts.Keys
  {
    if run != [] {
      NoResidueIffFirstTimely(run[..|run| - 1]);
      KeysHold(run[..|run| - 1]);
      if NoResidue(run[..|run| - 1]) {
        ResidueStep(Run(run[..|run| - 1]), run[|run| - 1]);
      }
    }
  }

  /** One step from a state in which everything heard of is charted or pending. */
  lemma ResidueStep(s: State, a: Step)
    requires KeysInv(s) && s.lastSeen.Keys <= s.series.Keys + s.counts.Keys
    ensures a.Tick? ==> (Apply(s, a).lastSeen.Keys == Active(s, a.now) <==> FirstTimely(s, a.now))
    ensures (a.Tick? ==> FirstTimely(s, a.now)) ==>
              Apply(s, a).lastSeen.Keys <= Apply(s, a).series.Keys + Apply(s, a).counts.Keys
  {
    match a
    case Message(m, now) =>
    case Install(_, _, _) =>
    case Tick(now) => ResidueOfSample(s, now);
  }

  lemma ResidueOfSample(s: State, now: int)
    requires KeysInv(s) && s.lastSeen.Keys <= s.series.Keys + s.counts.Keys
    ensures Sample(s, now).series.Keys == Active(s, now)
    ensures Sample(s, now).lastSeen.Keys == Active(s, now) <==> FirstTimely(s, now)
  {
    var kept := Sample(s, now).lastSeen;
    assert kept.Keys == s.lastSeen.Keys - (s.series.Keys - Active(s, now));
    if FirstTimely(s, now) {
      forall ch | ch in kept ensures ch in Active(s, now) {
        assert ch in s.lastSeen.Keys;
      }
    } else {
      var ch :| ch in s.counts.Keys - s.series.Keys && ch !in Active(s, now);
      assert ch in kept;
    }
  }

  /** A run whose samples are timely for every pending channel is one of these. */
  lemma {:induction false} TimelyLeavesNoResidue(run: seq<Step>)
    requires TimelyRun(run)
    ensures FirstTimelyRun(run) && NoResidue(run)
  {
    if run != [] {
      TimelyLeavesNoResidue(run[..|run| - 1]);
    }
    NoResidueIffFirstTimely(run);
  }

  /** An untimely first sample does leave a channel behind in lastSeen, uncharted, for as
      long as it stays silent. */
  lemma LateFirstSampleLeavesResidue(p: Probe, t: int, late: int)
    requires p.channel != 0 && late > CHANNEL_IDLE
    ensures var s := Run([Message(Decoded(p), t), Tick(t + late)]);
            ChannelName(p.channel) in s.lastSeen && s.series == map[] && s.counts == map[]
  {
    var run := [Message(Decoded(p), t), Tick(t + late)];
    var first := run[..1];
    assert first == [Message(Decoded(p), t)] && first[..|first| - 1] == [];
    assert Run([]) == Init();
    var s := Run(first);
    assert s == OnMessage(Init(), Decoded(p), t) == CountEvent(Init(), p, t);
    assert Active(s, t + late) == {};
  }
}
