/** The live tail: JSReader.Tail of internal/streams/nats.go and the reader loop of
    internal/service/tail_stream.go as one protocol. The consumer's callback, the cleanup
    goroutine and the reader share one bounded channel. An action that is not enabled leaves
    the state alone, so every sequence of actions is a run. */
module Tail {
  import opened Text
  import opened Lists
  import opened Envelopes

  const DEFAULT_TAIL_BUFFER := 64

  function BufferSize(requested: int): (size: nat)
    ensures size > 0
  {
    if requested <= 0 then DEFAULT_TAIL_BUFFER else requested
  }

  /** Consuming: cons.Consume has not returned. Never: it failed, so the channel was closed
      on the spot. Otherwise how far the cleanup goroutine has come. */
  datatype Cleaner = Consuming | Never | Waiting | Stopped | Finished

  /** The reader loop: not started, going round, or returned. */
  datatype Reader = Idle | Looping | CtxDone | ChannelEnded | SendFailed

  /** Where the messages are: how much of its log the consumer has handed to the callback, the
      callback's message while it waits at the select, the channel's buffer; and the history:
      what the reader took and what was dropped. */
  datatype Traffic = Traffic(
    next: nat, flight: Option<RawMessage>, buf: seq<RawMessage>,
    received: seq<RawMessage>, lost: seq<RawMessage>)

  /** Who is alive and what is closed; and counts of closings, of panics that were recovered
      and of panics that were not. */
  datatype Control = Control(
    alive: bool, cancelled: bool, closed: bool, cleaner: Cleaner,
    closes: nat, recovered: nat, crashes: nat)

  datatype State<+B> = State(cap: nat, t: Traffic, k: Control, reader: Reader, sent: seq<Envelope<B>>)

  datatype Action =
    | Deliver                 // the consumer runs the callback, up to the select
    | SendCase | DoneCase     // the arms of that select
    | ConsumeReturns(ok: bool)
    | ConsumerDies            // the consumer stops by itself
    | Cancel
    | CleanerStop | CleanerClose
    | ReaderTake(sendOk: bool) | ReaderDone | ReaderEnd

  function Init<B>(bufSize: int): State<B> {
    State(BufferSize(bufSize), Traffic(0, None, [], [], []),
          Control(true, false, false, Consuming, 0, 0, 0), Idle, [])
  }

  /** Tail has returned a channel. */
  predicate Serving(k: Control) {
    !k.cleaner.Consuming? && !k.cleaner.Never?
  }

  predicate Enabled<B>(log: seq<Delivery>, s: State<B>, a: Action) {
    match a
    case Deliver => s.k.alive && s.t.flight.None? && s.t.next < |log| // Stop is best-effort: callbacks may follow it
    case SendCase => s.t.flight.Some? && (s.k.closed || |s.t.buf| < s.cap)
    case DoneCase => s.t.flight.Some? && s.k.cancelled
    case ConsumeReturns(_) => s.k.cleaner.Consuming?
    case ConsumerDies => true
    case Cancel => true
    case CleanerStop => s.k.cleaner.Waiting? && s.k.cancelled
    case CleanerClose => s.k.cleaner.Stopped?
    case ReaderTake(_) => s.reader.Looping? && s.t.buf != []
    case ReaderDone => s.reader.Looping? && s.k.cancelled
    case ReaderEnd => s.reader.Looping? && s.t.buf == [] && s.k.closed
  }

  function Close(k: Control): Control {
    if k.closed then k.(crashes := k.crashes + 1) else k.(closed := true, closes := k.closes + 1)
  }

  /** Where an enabled action moves messages. */
  function Move(log: seq<Delivery>, t: Traffic, closed: bool, a: Action): Traffic
    requires a.Deliver? ==> t.next < |log|
    requires a.SendCase? || a.DoneCase? ==> t.flight.Some?
    requires a.ReaderTake? ==> t.buf != []
  {
    match a
    case Deliver =>
      var d := log[t.next];
      t.(next := t.next + 1, flight := if d.metaOk then Some(d.raw) else None)
    case SendCase =>
      if closed then t.(flight := None, lost := t.lost + [t.flight.value])
      else t.(flight := None, buf := t.buf + [t.flight.value])
    case DoneCase => t.(flight := None, lost := t.lost + [t.flight.value])
    case ReaderTake(_) => t.(buf := t.buf[1..], received := t.received + [t.buf[0]])
    case _ => t
  }

  /** What it does to the life of the parts. A send on a closed channel panics under the
      recover, a second close would panic without one. */
  function Govern(k: Control, a: Action): Control {
    match a
    case SendCase => if k.closed then k.(recovered := k.recovered + 1) else k
    case ConsumeReturns(ok) => if ok then k.(cleaner := Waiting) else Close(k).(cleaner := Never)
    case ConsumerDies => k.(alive := false)
    case Cancel => k.(cancelled := true)
    case CleanerStop => k.(cleaner := Stopped)
    case CleanerClose => Close(k).(cleaner := Finished)
    case _ => k
  }

  /** The reader loop, which takes the buffer's first message m when it takes one. */
  function Go<O, B>(c: Codec<O, B>, reader: Reader, sent: seq<Envelope<B>>, m: Option<RawMessage>, a: Action)
    : (Reader, seq<Envelope<B>>)
    requires a.ReaderTake? ==> m.Some?
  {
    match a
    case ConsumeReturns(ok) => (if ok then Looping else reader, sent)
    case ReaderTake(sendOk) =>
      var e := BuildEnvelope(c, m.value);
      if e.None? then (reader, sent)
      else if sendOk then (reader, sent + [e.value])
      else (SendFailed, sent)
    case ReaderDone => (CtxDone, sent)
    case ReaderEnd => (ChannelEnded, sent)
    case _ => (reader, sent)
  }

  function First(buf: seq<RawMessage>): Option<RawMessage> {
    if buf == [] then None else Some(buf[0])
  }

  function Apply<O, B>(log: seq<Delivery>, c: Codec<O, B>, s: State<B>, a: Action): State<B>
    requires Enabled(log, s, a)
  {
    var (reader, sent) := Go(c, s.reader, s.sent, First(s.t.buf), a);
    State(s.cap, Move(log, s.t, s.k.closed, a), Govern(s.k, a), reader, sent)
  }

  function Step<O, B>(log: seq<Delivery>, c: Codec<O, B>, s: State<B>, a: Action): State<B> {
    if Enabled(log, s, a) then Apply(log, c, s, a) else s
  }

  function Run<O, B>(log: seq<Delivery>, c: Codec<O, B>, bufSize: int, run: seq<Action>): State<B> {
    if run == [] then Init(bufSize)
    else Step(log, c, Run(log, c, bufSize, run[..|run| - 1]), run[|run| - 1])
  }

  // ---- the shape of every reachable state ------------------------------------------------------

  /** c is an order-preserving merge of a and b. */
  ghost predicate Merge<T>(a: seq<T>, b: seq<T>, c: seq<T>) {
    if c == [] then a == [] && b == []
    else
      || (a != [] && a[|a| - 1] == c[|c| - 1] && Merge(a[..|a| - 1], b, c[..|c| - 1]))
      || (b != [] && b[|b| - 1] == c[|c| - 1] && Merge(a, b[..|b| - 1], c[..|c| - 1]))
  }

  lemma MergeAppend<T>(a: seq<T>, b: seq<T>, c: seq<T>, x: T)
    requires Merge(a, b, c)
    ensures Merge(a + [x], b, c + [x]) && Merge(a, b + [x], c + [x])
  {
    assert (c + [x])[..|c|] == c && (a + [x])[..|a|] == a && (b + [x])[..|b|] == b;
  }

  lemma {:induction false} MergeIsComplete<T>(a: seq<T>, b: seq<T>, c: seq<T>)
    requires Merge(a, b, c)
    ensures |a| + |b| == |c| && Subsequence(a, c) && (a == c <==> b == [])
  {
    if c != [] {
      var c' := c[..|c| - 1];
      if a != [] && a[|a| - 1] == c[|c| - 1] && Merge(a[..|a| - 1], b, c') {
        MergeIsComplete(a[..|a| - 1], b, c');
        assert a == a[..|a| - 1] + [a[|a| - 1]] && c == c' + [c[|c| - 1]];
      } else {
        MergeIsComplete(a, b[..|b| - 1], c');
      }
    }
  }

  /** What made it into the channel, taken or not. */
  function Accepted(t: Traffic): seq<RawMessage> {
    t.received + t.buf
  }

  function InFlight(t: Traffic): seq<RawMessage> {
    if t.flight.Some? then [t.flight.value] else []
  }

  /** The messages whose callback got past its select. */
  function Handled(log: seq<Delivery>, t: Traffic): seq<RawMessage>
    requires t.next <= |log|
  {
    var all := Parsed(log[..t.next]);
    if t.flight.Some? && all != [] then all[..|all| - 1] else all
  }

  /** Who may have closed what, and when. */
  ghost predicate ControlInv(k: Control, lost: nat, reader: Reader) {
    && (k.closed <==> k.cleaner.Finished? || k.cleaner.Never?)
    && k.closes == (if k.closed then 1 else 0) && k.crashes == 0
    && (k.cleaner.Stopped? || k.cleaner.Finished? ==> k.cancelled)
    && (lost > 0 ==> k.cancelled || k.closed)
    && k.recovered <= lost
    && (reader.Idle? <==> !Serving(k))
    && (reader.CtxDone? || reader.ChannelEnded? ==> k.cancelled)
  }

  ghost predicate OrderInv(log: seq<Delivery>, t: Traffic) {
    && t.next <= |log|
    && (t.flight.Some? ==> Parsed(log[..t.next]) == Handled(log, t) + [t.flight.value])
    && Merge(Accepted(t), t.lost, Handled(log, t))
  }

  ghost predicate ReaderInv<O, B>(c: Codec<O, B>, reader: Reader, sent: seq<Envelope<B>>, received: seq<RawMessage>) {
    var all := AllEnvelopes(c, received);
    if reader.SendFailed? then |all| == |sent| + 1 && sent == all[..|sent|] else sent == all
  }

  ghost predicate Inv<O, B>(log: seq<Delivery>, c: Codec<O, B>, s: State<B>) {
    && |s.t.buf| <= s.cap
    && ControlInv(s.k, |s.t.lost|, s.reader)
    && OrderInv(log, s.t)
    && ReaderInv(c, s.reader, s.sent, s.t.received)
  }

  lemma ControlStep<O, B>(log: seq<Delivery>, c: Codec<O, B>, s: State<B>, a: Action)
    requires ControlInv(s.k, |s.t.lost|, s.reader) && Enabled(log, s, a)
    ensures var s' := Apply(log, c, s, a);
            ControlInv(s'.k, |s'.t.lost|, s'.reader)
  {
  }

  lemma ReaderStep<O, B>(c: Codec<O, B>, reader: Reader, sent: seq<Envelope<B>>, t: Traffic, a: Action)
    requires ReaderInv(c, reader, sent, t.received) && !reader.SendFailed?
    requires a.ReaderTake? && t.buf != []
    ensures var (reader', sent') := Go(c, reader, sent, First(t.buf), a);
            ReaderInv(c, reader', sent', t.received + [t.buf[0]])
  {
    EnvelopesAppend(c, t.received, t.buf[0]);
    assert AllEnvelopes(c, t.received) + [] == AllEnvelopes(c, t.received);
  }

  lemma OrderDeliver(log: seq<Delivery>, t: Traffic)
    requires OrderInv(log, t) && t.next < |log| && t.flight.None?
    ensures OrderInv(log, Move(log, t, false, Deliver))
    ensures Move(log, t, false, Deliver) == Move(log, t, true, Deliver)
  {
    assert log[..t.next + 1] == log[..t.next] + [log[t.next]];
    ParsedAppend(log[..t.next], log[t.next]);
    assert Handled(log, Move(log, t, false, Deliver)) == Handled(log, t);
  }

  /** The message in flight settles, in the buffer or among the lost. */
  lemma OrderSettle(log: seq<Delivery>, t: Traffic, pushed: bool)
    requires OrderInv(log, t) && t.flight.Some?
    ensures var m := t.flight.value;
            OrderInv(log, if pushed then Traffic(t.next, None, t.buf + [m], t.received, t.lost)
                          else Traffic(t.next, None, t.buf, t.received, t.lost + [m]))
  {
    var m := t.flight.value;
    MergeAppend(Accepted(t), t.lost, Handled(log, t), m);
    assert t.received + (t.buf + [m]) == Accepted(t) + [m];
  }

  lemma OrderStep(log: seq<Delivery>, t: Traffic, closed: bool, a: Action)
    requires OrderInv(log, t)
    requires a.Deliver? ==> t.next < |log| && t.flight.None?
    requires a.SendCase? || a.DoneCase? ==> t.flight.Some?
    requires a.ReaderTake? ==> t.buf != []
    ensures OrderInv(log, Move(log, t, closed, a))
  {
    match a
    case Deliver => OrderDeliver(log, t);
    case SendCase => OrderSettle(log, t, !closed);
    case DoneCase => OrderSettle(log, t, false);
    case ReaderTake(_) => assert Accepted(Move(log, t, closed, a)) == Accepted(t);
    case _ =>
  }

  lemma InvStep<O, B>(log: seq<Delivery>, c: Codec<O, B>, s: State<B>, a: Action)
    requires Inv(log, c, s)
    ensures Inv(log, c, Step(log, c, s, a))
  {
    if Enabled(log, s, a) {
      ControlStep(log, c, s, a);
      OrderStep(log, s.t, s.k.closed, a);
      if a.ReaderTake? {
        ReaderStep(c, s.reader, s.sent, s.t, a);
      }
    }
  }

  lemma {:induction false} Reachable<O, B>(log: seq<Delivery>, c: Codec<O, B>, bufSize: int, run: seq<Action>)
    ensures var s := Run(log, c, bufSize, run);
            Inv(log, c, s) && s.cap == BufferSize(bufSize)
  {
    if run != [] {
      Reachable(log, c, bufSize, run[..|run| - 1]);
      InvStep(log, c, Run(log, c, bufSize, run[..|run| - 1]), run[|run| - 1]);
    } else {
      assert log[..0] == [];
    }
  }

  // ---- what it means --------------------------------------------------------------------------

  /** Every run of every log: the channel is closed at most once, and only after a cancel
      and Stop or because Consume failed; no panic escapes; the buffer is bounded; a message
      can be lost only after a cancel or a failed Consume. */
  lemma TailSafety<O, B>(log: seq<Delivery>, c: Codec<O, B>, bufSize: int, run: seq<Action>)
    ensures var s := Run(log, c, bufSize, run);
            && s.k.closes == (if s.k.closed then 1 else 0) && s.k.crashes == 0
            && (s.k.closed ==> (s.k.cancelled && s.k.cleaner.Finished?) || s.k.cleaner.Never?)
            && |s.t.buf| <= (if bufSize <= 0 then 64 else bufSize)
            && (!s.k.cancelled && !s.k.closed ==> s.t.lost == [] && s.k.recovered == 0)
  {
    Reachable(log, c, bufSize, run);
  }

  /** Every message the consumer's callback got is accounted for in order: what was accepted
      and what was lost merge into it. So the reader sees a subsequence, and all of it in
      every run where nothing was lost; in particular until the cancel. */
  lemma HandOff<O, B>(log: seq<Delivery>, c: Codec<O, B>, bufSize: int, run: seq<Action>)
    ensures var s := Run(log, c, bufSize, run);
            && s.t.next <= |log|
            && Merge(s.t.received + s.t.buf, s.t.lost, Handled(log, s.t))
            && Handled(log, s.t) + InFlight(s.t) == Parsed(log[..s.t.next])
            && Subsequence(s.t.received + s.t.buf + InFlight(s.t), Parsed(log[..s.t.next]))
            && (s.t.received + s.t.buf + InFlight(s.t) == Parsed(log[..s.t.next]) <==> s.t.lost == [])
            && (!s.k.cancelled && !s.k.closed ==> s.t.received + s.t.buf + InFlight(s.t) == Parsed(log[..s.t.next]))
  {
    Reachable(log, c, bufSize, run);
    var t := Run(log, c, bufSize, run).t;
    MergeIsComplete(Accepted(t), t.lost, Handled(log, t));
    WithFlight(Accepted(t), Handled(log, t), InFlight(t));
    assert Handled(log, t) + InFlight(t) == Parsed(log[..t.next]);
  }

  /** The message in flight comes last on both sides. */
  lemma WithFlight(accepted: seq<RawMessage>, handled: seq<RawMessage>, flight: seq<RawMessage>)
    requires Subsequence(accepted, handled) && |flight| <= 1
    ensures Subsequence(accepted + flight, handled + flight)
    ensures accepted + flight == handled + flight <==> accepted == handled
  {
    if flight == [] {
      assert accepted + flight == accepted && handled + flight == handled;
    } else {
      assert flight == [flight[0]];
      SubsequenceKeep(accepted, handled, flight[0]);
      assert (accepted + flight)[..|accepted|] == accepted && (handled + flight)[..|handled|] == handled;
    }
  }

  /** The reader loop sends the envelope of every accepted message it took that has one, in
      order, short of the one whose Send failed. It returns without an error only after a
      cancel, whatever the consumer does. */
  lemma ForwardsWhatItTook<O, B>(log: seq<Delivery>, c: Codec<O, B>, bufSize: int, run: seq<Action>)
    ensures var s := Run(log, c, bufSize, run);
            var all := AllEnvelopes(c, s.t.received);
            && (s.reader.SendFailed? ==> |all| == |s.sent| + 1 && s.sent == all[..|s.sent|])
            && (!s.reader.SendFailed? ==> s.sent == all)
            && (s.reader.CtxDone? || s.reader.ChannelEnded? ==> s.k.cancelled)
            && CarryAll(c, all, Qualifying(c, s.t.received))
            && CarryAll(c, s.sent, Take(|s.sent|, Qualifying(c, s.t.received)))
            && |s.sent| + (if s.reader.SendFailed? then 1 else 0) == |Qualifying(c, s.t.received)|
  {
    Reachable(log, c, bufSize, run);
    EnvelopesCarry(c, Run(log, c, bufSize, run).t.received);
  }

  lemma {:induction false} RunConcat<O, B>(
    log: seq<Delivery>, c: Codec<O, B>, bufSize: int, run: seq<Action>, a: Action)
    ensures Run(log, c, bufSize, run + [a]) == Step(log, c, Run(log, c, bufSize, run), a)
  {
    assert (run + [a])[..|run|] == run;
  }

  /** Once Tail has returned a channel, and as long as nobody cancels, no continuation closes
      it: not even when the consumer stops by itself. */
  lemma {:induction false} OpenUntilCancelled<O, B>(
    log: seq<Delivery>, c: Codec<O, B>, bufSize: int, run: seq<Action>, more: seq<Action>)
    requires Serving(Run(log, c, bufSize, run).k) && !Run(log, c, bufSize, run).k.cancelled
    requires Cancel !in more
    ensures var s := Run(log, c, bufSize, run + more);
            Serving(s.k) && !s.k.cancelled && !s.k.closed && !s.reader.CtxDone? && !s.reader.ChannelEnded?
  {
    Reachable(log, c, bufSize, run + more);
    if more == [] {
      assert run + more == run;
    } else {
      OpenUntilCancelled(log, c, bufSize, run, more[..|more| - 1]);
      assert run + more == (run + more[..|more| - 1]) + [more[|more| - 1]];
      RunConcat(log, c, bufSize, run + more[..|more| - 1], more[|more| - 1]);
    }
  }

  /** After a cancel the cleanup runs to its end from wherever it is, a blocked callback gets
      away, and nothing already accepted is lost. */
  lemma CancelReleases<O, B>(log: seq<Delivery>, c: Codec<O, B>, bufSize: int, run: seq<Action>)
    requires Serving(Run(log, c, bufSize, run).k) && Run(log, c, bufSize, run).k.cancelled
    ensures var s := Run(log, c, bufSize, run);
            var s' := Run(log, c, bufSize, run + [CleanerStop] + [CleanerClose] + [DoneCase]);
            && s'.k.closed && s'.t.flight == None
            && s'.t.received == s.t.received && s'.t.buf == s.t.buf
            && s'.t.lost == s.t.lost + InFlight(s.t) && s'.k.recovered == s.k.recovered
  {
    Reachable(log, c, bufSize, run);
    RunConcat(log, c, bufSize, run, CleanerStop);
    RunConcat(log, c, bufSize, run + [CleanerStop], CleanerClose);
    RunConcat(log, c, bufSize, run + [CleanerStop] + [CleanerClose], DoneCase);
  }
}
