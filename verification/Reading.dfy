/** The bounded windowed read: JSReader.Read of internal/streams/nats.go under StreamRead of
    internal/service/stream_read.go. Together they refine a declarative query over the log. */
module Reading {
  import opened Text
  import opened Lists
  import opened Envelopes

  const DEFAULT_LIMIT := 100
  const MAX_LIMIT := 1000
  const BACKEND_DEFAULT_LIMIT := 100
  const BACKEND_MAX_LIMIT := 10000

  // ---- limits --------------------------------------------------------------------------

  function Limit(requested: int): int {
    var limit := if requested <= 0 then DEFAULT_LIMIT else requested;
    if limit > MAX_LIMIT then MAX_LIMIT else limit
  }

  /** With a filter the backend is asked for four times as many, within the same ceiling. */
  function BackendLimit(requested: int, filtered: bool): int {
    if !filtered then Limit(requested)
    else if 4 * Limit(requested) > MAX_LIMIT then MAX_LIMIT else 4 * Limit(requested)
  }

  function ReadLimit(requested: int): (limit: nat)
    ensures 1 <= limit <= BACKEND_MAX_LIMIT
  {
    var limit := if requested <= 0 then BACKEND_DEFAULT_LIMIT else requested;
    if limit > BACKEND_MAX_LIMIT then BACKEND_MAX_LIMIT else limit
  }

  /** What they are: 100 when unspecified, at most 1000, four times as many under a filter; and for
      the backend alone 100 and 10000. */
  lemma LimitValues(requested: int)
    ensures requested <= 0 ==> Limit(requested) == 100 && ReadLimit(requested) == 100
    ensures 1 <= requested <= 1000 ==> Limit(requested) == requested
    ensures requested > 1000 ==> Limit(requested) == 1000
    ensures BackendLimit(requested, false) == Limit(requested)
    ensures 1 <= requested <= 250 ==> BackendLimit(requested, true) == 4 * requested
    ensures requested <= 0 ==> BackendLimit(requested, true) == 400
    ensures requested >= 250 ==> BackendLimit(requested, true) == 1000
    ensures 1 <= requested <= 10000 ==> ReadLimit(requested) == requested
    ensures requested > 10000 ==> ReadLimit(requested) == 10000
  {
  }

  /** The limits are ordered for every request, and the backend's own clamp never bites. */
  lemma LimitBounds(requested: int, filtered: bool)
    ensures 1 <= Limit(requested) <= BackendLimit(requested, filtered) <= MAX_LIMIT
    ensures ReadLimit(BackendLimit(requested, filtered)) == BackendLimit(requested, filtered)
    ensures 1 <= requested <= MAX_LIMIT ==> Limit(requested) == requested
  {
  }

  // ---- the log and its windows ---------------------------------------------------------------

  /** A stream keeps its messages in order of sequence, stamped in order of time. */
  ghost predicate Ordered(log: seq<Delivery>) {
    forall i, j :: 0 <= i < j < |log| ==>
      log[i].raw.sequence < log[j].raw.sequence && log[i].raw.timestamp <= log[j].raw.timestamp
  }

  predicate NotBefore(d: Delivery, since: Option<int>) {
    since.None? || since.value <= d.raw.timestamp
  }

  predicate NotAfter(d: Delivery, until: Option<int>) {
    until.None? || d.raw.timestamp <= until.value
  }

  function UpTo(until: Option<int>): Delivery -> bool {
    (d: Delivery) => NotAfter(d, until)
  }

  function Within(since: Option<int>, until: Option<int>): Delivery -> bool {
    (d: Delivery) => NotBefore(d, since) && NotAfter(d, until)
  }

  /** DeliverByStartTime: from the first message not before the start, to the end. */
  function DeliverFrom(log: seq<Delivery>, since: Option<int>): seq<Delivery> {
    if log == [] || NotBefore(log[0], since) then log else DeliverFrom(log[1..], since)
  }

  /** The query: the messages of the log within the window. */
  function Window(log: seq<Delivery>, since: Option<int>, until: Option<int>): seq<Delivery> {
    Filter(log, Within(since, until))
  }

  /** What is in the window: the log's messages stamped neither before the start nor after the end,
      both included, in the log's order. */
  lemma WindowIs(log: seq<Delivery>, since: Option<int>, until: Option<int>)
    ensures Subsequence(Window(log, since, until), log)
    ensures forall d :: d in Window(log, since, until) <==>
              d in log && (since.Some? ==> d.raw.timestamp >= since.value)
                       && (until.Some? ==> d.raw.timestamp <= until.value)
  {
    FilterIsSubsequence(log, Within(since, until));
    FilterMembers(log, Within(since, until));
  }

  lemma {:induction false} FilterAll<T>(s: seq<T>, p: T -> bool)
    requires forall x :: x in s ==> p(x)
    ensures Filter(s, p) == s
  {
    if s != [] {
      FilterAll(s[..|s| - 1], p);
      assert s[|s| - 1] in s;
      assert s == s[..|s| - 1] + [s[|s| - 1]];
    }
  }

  lemma {:induction false} FilterNone<T>(s: seq<T>, p: T -> bool)
    requires forall x :: x in s ==> !p(x)
    ensures Filter(s, p) == []
  {
    if s != [] {
      FilterNone(s[..|s| - 1], p);
      assert s[|s| - 1] in s;
    }
  }

  lemma {:induction false} FilterSame<T>(s: seq<T>, p: T -> bool, q: T -> bool)
    requires forall x :: x in s ==> p(x) == q(x)
    ensures Filter(s, p) == Filter(s, q)
  {
    if s != [] {
      FilterSame(s[..|s| - 1], p, q);
      assert s[|s| - 1] in s;
    }
  }

  /** In an ordered log the deliveries from a start time are a suffix, before which
      everything is too early and after which nothing is. */
  lemma {:induction false} DeliverFromIsSuffix(log: seq<Delivery>, since: Option<int>) returns (k: nat)
    requires Ordered(log)
    ensures k <= |log| && DeliverFrom(log, since) == log[k..]
    ensures forall i :: 0 <= i < k ==> !NotBefore(log[i], since)
    ensures forall i :: k <= i < |log| ==> NotBefore(log[i], since)
    decreases |log|
  {
    if log == [] || NotBefore(log[0], since) {
      k := 0;
    } else {
      var k' := DeliverFromIsSuffix(log[1..], since);
      k := k' + 1;
      assert forall i :: 1 <= i < |log| ==> log[i] == log[1..][i - 1];
    }
  }

  lemma OrderedPart(log: seq<Delivery>, i: nat, j: nat)
    requires Ordered(log) && i <= j <= |log|
    ensures Ordered(log[i..j])
  {
    var part := log[i..j];
    assert forall k :: 0 <= k < |part| ==> part[k] == log[i + k];
  }

  lemma WindowIsCut(log: seq<Delivery>, since: Option<int>, until: Option<int>, k: nat)
    requires k <= |log|
    requires forall i :: 0 <= i < k ==> !NotBefore(log[i], since)
    requires forall i :: k <= i < |log| ==> NotBefore(log[i], since)
    ensures Window(log, since, until) == Filter(log[k..], UpTo(until))
  {
    var p := Within(since, until);
    var early, rest := log[..k], log[k..];
    assert log == early + rest;
    FilterConcat(early, rest, p);
    forall d | d in early ensures !p(d) {
      var i :| 0 <= i < k && early[i] == d;
    }
    FilterNone(early, p);
    forall d | d in rest ensures p(d) == UpTo(until)(d) {
      var i :| 0 <= i < |rest| && rest[i] == d;
      assert log[k + i] == d;
    }
    FilterSame(rest, p, UpTo(until));
    assert [] + Filter(rest, p) == Filter(rest, p);
  }

  /** In an ordered log the window is the part of those deliveries up to the end time. */
  lemma WindowIsFilteredDelivery(log: seq<Delivery>, since: Option<int>, until: Option<int>)
    requires Ordered(log)
    ensures Window(log, since, until) == Filter(DeliverFrom(log, since), UpTo(until))
    ensures Ordered(DeliverFrom(log, since))
  {
    var k := DeliverFromIsSuffix(log, since);
    OrderedPart(log, k, |log|);
    assert log[k..|log|] == log[k..];
    WindowIsCut(log, since, until, k);
  }

  lemma InitUpTo(s: seq<Delivery>, until: Option<int>)
    requires Ordered(s) && s != [] && NotAfter(s[|s| - 1], until)
    ensures Filter(s[..|s| - 1], UpTo(until)) == s[..|s| - 1]
  {
    var init := s[..|s| - 1];
    forall x | x in init ensures UpTo(until)(x) {
      var i :| 0 <= i < |init| && init[i] == x;
      assert s[i] == x;
    }
    FilterAll(init, UpTo(until));
  }

  /** Cutting an ordered delivery after n messages and then at the end time is the same as
      cutting at the end time and taking n. */
  lemma {:induction false} CutsCommute(s: seq<Delivery>, n: nat, until: Option<int>)
    requires Ordered(s)
    ensures Filter(Take(n, s), UpTo(until))
            == Take(n, Filter(s, UpTo(until)))
  {
    var p := UpTo(until);
    if n < |s| {
      var last, init := s[|s| - 1], s[..|s| - 1];
      assert Take(n, s) == Take(n, init);
      OrderedPart(s, 0, |s| - 1);
      assert s[0..|s| - 1] == init;
      CutsCommute(init, n, until);
      if p(last) {
        InitUpTo(s, until);
      }
    } else {
      FilterShorter(s, p);
    }
  }

  lemma {:induction false} FilterShorter<T>(s: seq<T>, p: T -> bool)
    ensures |Filter(s, p)| <= |s|
  {
    if s != [] {
      FilterShorter(s[..|s| - 1], p);
    }
  }

  lemma OrderedTake(s: seq<Delivery>, n: nat)
    requires Ordered(s)
    ensures Ordered(Take(n, s))
  {
    if n < |s| {
      OrderedPart(s, 0, n);
      assert s[0..n] == s[..n];
    }
  }

  lemma FetchedIsWindowed(log: seq<Delivery>, since: Option<int>, until: Option<int>, n: nat, arrived: nat)
    requires Ordered(log)
    ensures Ordered(Take(arrived, Take(n, DeliverFrom(log, since))))
    ensures Filter(Take(arrived, Take(n, DeliverFrom(log, since))), UpTo(until))
            == Take(arrived, Take(n, Window(log, since, until)))
  {
    var delivered := DeliverFrom(log, since);
    WindowIsFilteredDelivery(log, since, until);
    CutsCommute(delivered, n, until);
    OrderedTake(delivered, n);
    OrderedTake(Take(n, delivered), arrived);
    CutsCommute(Take(n, delivered), arrived, until);
  }

  // ---- Read ------------------------------------------------------------------------------------

  /** The loop over one fetched batch: unparsable metadata is skipped, and the first message
      past the end time ends it. On an ordered batch the break is a filter. */
  method ReadBatch(batch: seq<Delivery>, until: Option<int>) returns (out: seq<RawMessage>)
    requires Ordered(batch)
    ensures out == Parsed(Filter(batch, UpTo(until)))
  {
    out := [];
    ghost var p := UpTo(until);
    for i := 0 to |batch|
      invariant out == Parsed(Filter(batch[..i], p))
    {
      assert batch[..i + 1] == batch[..i] + [batch[i]];
      FilterAppend(batch[..i], batch[i], p);
      if !batch[i].metaOk {
        SkippedDelivery(batch, i, p);
        continue;
      }
      if until.Some? && batch[i].raw.timestamp > until.value {
        assert batch == batch[..i] + batch[i..];
        FilterConcat(batch[..i], batch[i..], p);
        forall d | d in batch[i..] ensures !p(d) {
          var j :| 0 <= j < |batch[i..]| && batch[i..][j] == d;
          assert batch[i + j] == d;
        }
        FilterNone(batch[i..], p);
        assert Filter(batch[..i], p) + [] == Filter(batch[..i], p);
        return;
      }
      ParsedAppend(Filter(batch[..i], p), batch[i]);
      out := out + [batch[i].raw];
    }
    assert batch[..|batch|] == batch;
  }

  lemma SkippedDelivery(batch: seq<Delivery>, i: nat, p: Delivery -> bool)
    requires i < |batch| && !batch[i].metaOk
    ensures Parsed(Filter(batch[..i + 1], p)) == Parsed(Filter(batch[..i], p))
  {
    assert batch[..i + 1] == batch[..i] + [batch[i]];
    FilterAppend(batch[..i], batch[i], p);
    var before := Filter(batch[..i], p);
    assert before + [] == before;
    ParsedAppend(before, batch[i]);
  }

  datatype ReadResult = NotFound | BatchError(partial: seq<RawMessage>) | Messages(messages: seq<RawMessage>)

  /** What the backend does with one call: whether the stream exists, how many messages the
      fetch yields before it fills or times out, and whether the batch ends in an error. */
  datatype Backend = Backend(found: bool, arrived: nat, failed: bool)

  /** Read returns the parsable messages among the first n of the window, n being what the
      fetch yielded of the limit. */
  method Read(log: seq<Delivery>, since: Option<int>, until: Option<int>, limit: int, b: Backend)
    returns (r: ReadResult)
    requires Ordered(log)
    ensures r.NotFound? <==> !b.found
    ensures b.found ==>
      var got := Parsed(Take(b.arrived, Take(ReadLimit(limit), Window(log, since, until))));
      r == if b.failed then BatchError(got) else Messages(got)
  {
    var limit' := limit;
    if limit' <= 0 {
      limit' := BACKEND_DEFAULT_LIMIT;
    }
    if limit' > BACKEND_MAX_LIMIT {
      limit' := BACKEND_MAX_LIMIT;
    }
    if !b.found {
      return NotFound;
    }
    var delivered := DeliverFrom(log, since);
    FetchedIsWindowed(log, since, until, limit', b.arrived);
    var out := ReadBatch(Take(b.arrived, Take(limit', delivered)), until);
    r := if b.failed then BatchError(out) else Messages(out);
  }

  // ---- StreamRead ----------------------------------------------------------------------------------

  datatype Request = Request(
    name: string, window: Option<(Option<int>, Option<int>)>, limit: int, filtered: bool, filterOk: bool)

  datatype Answer<+B> =
    | NotConfigured | NameRequired | BadTime | BadFilter | BackendFailed
    | Served(count: nat, messages: seq<Envelope<B>>)

  /** Every message of a window that the caller is after. */
  function Wanted<O, B>(c: Codec<O, B>, window: seq<Delivery>): seq<Envelope<B>> {
    AllEnvelopes(c, Parsed(window))
  }

  /** The decode, filter, take loop. */
  method Collect<O, B>(raw: seq<RawMessage>, c: Codec<O, B>, limit: nat) returns (out: seq<Envelope<B>>)
    requires limit >= 1
    ensures out == Take(limit, AllEnvelopes(c, raw))
    ensures CarryAll(c, out, Take(limit, Qualifying(c, raw)))
  {
    EnvelopesCarry(c, raw);
    out := [];
    for i := 0 to |raw|
      invariant out == AllEnvelopes(c, raw[..i]) && |out| < limit
    {
      assert raw[..i + 1] == raw[..i] + [raw[i]];
      EnvelopesAppend(c, raw[..i], raw[i]);
      var m := raw[i];
      var obj := c.decode(m.data);
      if obj.None? { continue; }
      if c.accept.Some? {
        var match_ := c.accept.value(obj.value);
        if match_.None? || !match_.value { continue; }
      }
      var st := c.encode(obj.value);
      if st.None? { continue; }
      out := out + [Envelope(m.subject, m.sequence, m.timestamp, st.value)];
      if |out| >= limit {
        assert raw == raw[..i + 1] + raw[i + 1..];
        EnvelopesConcat(c, raw[..i + 1], raw[i + 1..]);
        return;
      }
    }
    assert raw[..|raw|] == raw;
  }

  /** StreamRead: the errors in the order the code checks them, and otherwise the first
      `limit` wanted messages among those fetched. */
  method StreamRead<O, B>(configured: bool, req: Request, log: seq<Delivery>, b: Backend, c: Codec<O, B>)
    returns (a: Answer<B>)
    requires Ordered(log) && (c.accept.Some? <==> req.filtered)
    ensures a.NotConfigured? <==> !configured
    ensures a.NameRequired? <==> configured && req.name == ""
    ensures a.BadTime? <==> configured && req.name != "" && req.window.None?
    ensures a.BadFilter? <==> configured && req.name != "" && req.window.Some? && req.filtered && !req.filterOk
    ensures a.BackendFailed? <==> configured && req.name != "" && req.window.Some? && (req.filtered ==> req.filterOk)
                                  && (!b.found || b.failed)
    ensures a.Served? ==>
      var window := Window(log, req.window.value.0, req.window.value.1);
      var n := BackendLimit(req.limit, req.filtered);
      && n > 0 && Limit(req.limit) > 0
      && a.messages == Take(Limit(req.limit), Wanted(c, Take(b.arrived, Take(n, window))))
      && a.count == |a.messages| <= Limit(req.limit)
      // each qualifying message among those fetched, up to the limit, has its envelope
      && CarryAll(c, a.messages, Take(Limit(req.limit), Qualifying(c, Parsed(Take(b.arrived, Take(n, window))))))
      // a full answer is that of the whole window, whatever the fetch yielded of it
      && (a.count == Limit(req.limit) ==> a.messages == Take(Limit(req.limit), Wanted(c, window)))
  {
    if !configured { return NotConfigured; }
    if req.name == "" { return NameRequired; }
    if req.window.None? { return BadTime; }
    var limit := req.limit;
    if limit <= 0 {
      limit := DEFAULT_LIMIT;
    }
    if limit > MAX_LIMIT {
      limit := MAX_LIMIT;
    }
    if req.filtered && !req.filterOk { return BadFilter; }
    var backendLimit := limit;
    if req.filtered {
      backendLimit := limit * 4;
      if backendLimit > MAX_LIMIT {
        backendLimit := MAX_LIMIT;
      }
    }
    LimitBounds(req.limit, req.filtered);
    var raw := Read(log, req.window.value.0, req.window.value.1, backendLimit, b);
    if !raw.Messages? { return BackendFailed; }
    var out := Collect(raw.messages, c, limit);
    FullAnswerIsExact(c, Window(log, req.window.value.0, req.window.value.1), backendLimit, b.arrived, limit);
    a := Served(|out|, out);
  }

  // ---- what an answer tells about the whole window ------------------------------------------------------

  lemma WantedSplits<O, B>(c: Codec<O, B>, window: seq<Delivery>, n: nat)
    requires n <= |window|
    ensures Wanted(c, window) == Wanted(c, window[..n]) + Wanted(c, window[n..])
  {
    assert window == window[..n] + window[n..];
    ParsedConcat(window[..n], window[n..]);
    EnvelopesConcat(c, Parsed(window[..n]), Parsed(window[n..]));
  }

  /** Looking at the first n messages only is enough if and only if they already hold as many
      wanted messages as asked for, or hold all there are. */
  lemma AnswerExactIff<O, B>(c: Codec<O, B>, window: seq<Delivery>, n: nat, limit: nat)
    ensures Take(limit, Wanted(c, Take(n, window))) == Take(limit, Wanted(c, window))
            <==> |Wanted(c, Take(n, window))| >= limit || |Wanted(c, Take(n, window))| == |Wanted(c, window)|
  {
    if n < |window| {
      WantedSplits(c, window, n);
      var some, all := Wanted(c, window[..n]), Wanted(c, window);
      assert some == all[..|some|];
      if |some| < limit && |some| < |all| {
        assert |Take(limit, some)| < |Take(limit, all)|;
      } else if |some| >= limit {
        assert Take(limit, some) == all[..limit];
      }
    }
  }

  /** An answer that reaches the limit is the one the whole window gives. */
  lemma FullAnswerIsExact<O, B>(c: Codec<O, B>, window: seq<Delivery>, n: nat, arrived: nat, limit: nat)
    ensures |Take(limit, Wanted(c, Take(arrived, Take(n, window))))| == limit ==>
              Take(limit, Wanted(c, Take(arrived, Take(n, window)))) == Take(limit, Wanted(c, window))
  {
    var k := if arrived < n then arrived else n;
    assert Take(arrived, Take(n, window)) == Take(k, window);
    AnswerExactIff(c, window, k, limit);
  }

  /** When the fetch fills, waiting for it leaves nothing out. */
  lemma FilledFetch(log: seq<Delivery>, since: Option<int>, until: Option<int>, n: nat, arrived: nat)
    requires Ordered(log)
    requires arrived >= |Take(n, DeliverFrom(log, since))|
    ensures Take(arrived, Take(n, Window(log, since, until))) == Take(n, Window(log, since, until))
  {
    WindowIsFilteredDelivery(log, since, until);
    FilterShorter(DeliverFrom(log, since), UpTo(until));
  }

  /** An answer shorter than the limit holds every wanted message of the window, whenever the
      fetch fills and the window is no longer than what the backend was asked for. */
  lemma ShortAnswerIsComplete<O, B>(c: Codec<O, B>, log: seq<Delivery>, since: Option<int>, until: Option<int>,
                                    arrived: nat, n: nat, limit: nat)
    requires Ordered(log) && |Window(log, since, until)| <= n
    requires arrived >= |Take(n, DeliverFrom(log, since))|
    ensures var answer := Take(limit, Wanted(c, Take(arrived, Take(n, Window(log, since, until)))));
            |answer| < limit ==> answer == Wanted(c, Window(log, since, until))
  {
    FilledFetch(log, since, until, n, arrived);
  }

  function Numbered(data: seq<string>): seq<Delivery> {
    seq(|data|, i requires 0 <= i < |data| => Delivery(RawMessage("s", i, i, data[i]), true))
  }

  /** The overshoot is finite, so a match can be missed: asking for one message with a filter
      that the first four messages fail returns nothing although the fifth matches. */
  lemma LateMatchIsMissed()
    ensures var c := Codec((s: string) => Some(s), (s: string) => Some(s), Some((s: string) => Some(s == "yes")));
            var window := Numbered(["no", "no", "no", "no", "yes"]);
            && BackendLimit(1, true) == 4
            && Wanted(c, Take(4, window)) == [] && |Wanted(c, window)| == 1
  {
    var c := Codec((s: string) => Some(s), (s: string) => Some(s), Some((s: string) => Some(s == "yes")));
    var window := Numbered(["no", "no", "no", "no", "yes"]);
    var raw := seq(4, (i: nat) => RawMessage("s", i, i, "no"));
    var front := window[..4];
    assert Take(4, window) == front;
    ParsedOfGood(front, raw);
    NoneWanted(c, raw);
    assert window == front + [window[4]];
    ParsedAppend(front, window[4]);
    EnvelopesAppend(c, raw, window[4].raw);
    assert "no" != "yes";
  }

  lemma {:induction false} ParsedOfGood(ds: seq<Delivery>, raw: seq<RawMessage>)
    requires |ds| == |raw| && forall i :: 0 <= i < |ds| ==> ds[i] == Delivery(raw[i], true)
    ensures Parsed(ds) == raw
  {
    if ds != [] {
      ParsedOfGood(ds[..|ds| - 1], raw[..|raw| - 1]);
      assert raw == raw[..|raw| - 1] + [raw[|raw| - 1]];
    }
  }

  lemma {:induction false} NoneWanted<O, B>(c: Codec<O, B>, raw: seq<RawMessage>)
    requires forall m :: m in raw ==> BuildEnvelope(c, m).None?
    ensures AllEnvelopes(c, raw) == []
  {
    if raw != [] {
      assert raw[|raw| - 1] in raw;
      NoneWanted(c, raw[..|raw| - 1]);
    }
  }
}
