/** The reader loop of internal/service/tail_stream.go on its own, and the shared channel of
    JSReader.Tail as an object with the closures that use it. The loop is the protocol's
    reader, and the object's methods are the protocol's actions. */
module TailStream {
  import opened Text
  import opened Lists
  import opened Envelopes
  import opened Tail

  /** What one turn of the loop's select finds, and whether a Send made then succeeds. */
  datatype Turn = Done | Received(m: RawMessage, sendOk: bool) | Closed

  datatype Outcome = NotConfigured | NameRequired | BadFilter | BadStart | TailFailed | Ran(reader: Reader)

  /** The loop up to the last of the turns. */
  function Loop<O, B>(c: Codec<O, B>, turns: seq<Turn>): (Reader, seq<Envelope<B>>) {
    if turns == [] then (Looping, [])
    else
      var (reader, sent) := Loop(c, turns[..|turns| - 1]);
      if !reader.Looping? then (reader, sent)
      else match turns[|turns| - 1]
        case Done => Go(c, reader, sent, None, ReaderDone)
        case Closed => Go(c, reader, sent, None, ReaderEnd)
        case Received(m, sendOk) => Go(c, reader, sent, Some(m), ReaderTake(sendOk))
  }

  lemma {:induction false} LoopStopped<O, B>(c: Codec<O, B>, turns: seq<Turn>, k: nat)
    requires k <= |turns| && !Loop(c, turns[..k]).0.Looping?
    ensures Loop(c, turns) == Loop(c, turns[..k])
    decreases |turns|
  {
    if k == |turns| {
      assert turns[..k] == turns;
    } else {
      assert turns[..|turns| - 1][..k] == turns[..k];
      LoopStopped(c, turns[..|turns| - 1], k);
    }
  }

  /** What the loop takes from these turns, and why it returns, if it does: at the first turn that
      finds the context done, the channel ended, or a message that qualifies and whose Send
      fails. */
  function Taken<O, B>(c: Codec<O, B>, turns: seq<Turn>): (seq<RawMessage>, Reader) {
    if turns == [] then ([], Looping)
    else
      var (ms, reader) := Taken(c, turns[..|turns| - 1]);
      if reader != Looping then (ms, reader)
      else match turns[|turns| - 1]
        case Done => (ms, CtxDone)
        case Closed => (ms, ChannelEnded)
        case Received(m, sendOk) => (ms + [m], if Qualifies(c, m) && !sendOk then SendFailed else Looping)
  }

  /** The loop returns when it should, and sends the envelope of each qualifying message it takes, in
      order, short of the one whose Send fails. */
  lemma {:induction false} LoopForwards<O, B>(c: Codec<O, B>, turns: seq<Turn>)
    ensures var (reader, sent) := Loop(c, turns);
            var (ms, ended) := Taken(c, turns);
            && reader == ended
            && CarryAll(c, sent, Take(|sent|, Qualifying(c, ms)))
            && |sent| + (if reader.SendFailed? then 1 else 0) == |Qualifying(c, ms)|
  {
    if turns != [] {
      var init, t := turns[..|turns| - 1], turns[|turns| - 1];
      LoopForwards(c, init);
      if Loop(c, init).0.Looping? && t.Received? {
        ForwardsOne(c, Taken(c, init).0, Loop(c, init).1, t.m, t.sendOk);
      }
    }
  }

  lemma ForwardsOne<O, B>(c: Codec<O, B>, ms: seq<RawMessage>, sent: seq<Envelope<B>>, m: RawMessage, sendOk: bool)
    requires CarryAll(c, sent, Qualifying(c, ms))
    ensures var (reader, sent') := Go(c, Looping, sent, Some(m), ReaderTake(sendOk));
            && reader == (if Qualifies(c, m) && !sendOk then SendFailed else Looping)
            && |sent'| + (if reader.SendFailed? then 1 else 0) == |Qualifying(c, ms + [m])|
            && CarryAll(c, sent', Take(|sent'|, Qualifying(c, ms + [m])))
  {
    FilterAppend(ms, m, QualifiesFor(c));
    BuildsWhatQualifies(c, m);
    var more := if Qualifies(c, m) then [m] else [];
    assert Qualifying(c, ms + [m]) == Qualifying(c, ms) + more;
    assert Take(|sent|, Qualifying(c, ms) + more) == Qualifying(c, ms);
  }

  /** TailStream: the errors in the order the code checks them, then the loop until it
      returns or the turns are used up. */
  method Serve<O, B>(configured: bool, name: string, filterOk: bool, startOk: bool, tailOk: bool,
                     c: Codec<O, B>, turns: seq<Turn>)
    returns (outcome: Outcome, sent: seq<Envelope<B>>)
    ensures outcome.NotConfigured? <==> !configured
    ensures outcome.NameRequired? <==> configured && name == ""
    ensures outcome.BadFilter? <==> configured && name != "" && !filterOk
    ensures outcome.BadStart? <==> configured && name != "" && filterOk && !startOk
    ensures outcome.TailFailed? <==> configured && name != "" && filterOk && startOk && !tailOk
    ensures outcome.Ran? ==> (outcome.reader, sent) == Loop(c, turns)
    ensures outcome.Ran? ==>
              var (ms, ended) := Taken(c, turns);
              && outcome.reader == ended
              && CarryAll(c, sent, Take(|sent|, Qualifying(c, ms)))
              && |sent| + (if outcome.reader.SendFailed? then 1 else 0) == |Qualifying(c, ms)|
    ensures !outcome.Ran? ==> sent == []
  {
    LoopForwards(c, turns);
    sent := [];
    if !configured { return NotConfigured, sent; }
    if name == "" { return NameRequired, sent; }
    if !filterOk { return BadFilter, sent; }
    if !startOk { return BadStart, sent; }
    if !tailOk { return TailFailed, sent; }
    for i := 0 to |turns|
      invariant (Looping, sent) == Loop(c, turns[..i])
    {
      assert turns[..i + 1][..i] == turns[..i];
      match turns[i]
      case Done =>
        LoopStopped(c, turns, i + 1);
        return Ran(CtxDone), sent;
      case Closed =>
        LoopStopped(c, turns, i + 1);
        return Ran(ChannelEnded), sent;
      case Received(m, sendOk) =>
        var e := BuildEnvelope(c, m);
        if e.None? { continue; }
        if !sendOk {
          LoopStopped(c, turns, i + 1);
          return Ran(SendFailed), sent;
        }
        sent := sent + [e.value];
    }
    assert turns[..|turns|] == turns;
    outcome := Ran(Looping);
  }

  /** The turns that the reader finds along a run of the protocol. */
  function Turns<O, B>(log: seq<Delivery>, c: Codec<O, B>, bufSize: int, run: seq<Action>): seq<Turn> {
    if run == [] then []
    else
      var before, a := run[..|run| - 1], run[|run| - 1];
      var s := Run(log, c, bufSize, before);
      Turns(log, c, bufSize, before)
      + (if !Enabled(log, s, a) then []
         else match a
           case ReaderTake(sendOk) => [Received(s.t.buf[0], sendOk)]
           case ReaderDone => [Done]
           case ReaderEnd => [Closed]
           case _ => [])
  }

  lemma LoopOneMore<O, B>(c: Codec<O, B>, turns: seq<Turn>, reader: Reader, sent: seq<Envelope<B>>, turn: Turn)
    requires Loop(c, turns) == (reader, sent) && reader.Looping?
    ensures Loop(c, turns + [turn])
            == match turn
               case Done => Go(c, reader, sent, None, ReaderDone)
               case Closed => Go(c, reader, sent, None, ReaderEnd)
               case Received(m, sendOk) => Go(c, reader, sent, Some(m), ReaderTake(sendOk))
  {
    assert (turns + [turn])[..|turns|] == turns;
  }

  /** Along every run on which Tail returned a channel, the loop fed with what the protocol's
      reader finds does what that reader does, and it is fed exactly what the reader took. */
  lemma {:induction false} LoopIsTheReader<O, B>(log: seq<Delivery>, c: Codec<O, B>, bufSize: int, run: seq<Action>)
    ensures var s := Run(log, c, bufSize, run);
            var turns := Turns(log, c, bufSize, run);
            && (s.reader.Idle? ==> turns == [] && s.sent == [])
            && (!s.reader.Idle? ==> Loop(c, turns) == (s.reader, s.sent))
  {
    if run != [] {
      var before, a := run[..|run| - 1], run[|run| - 1];
      LoopIsTheReader(log, c, bufSize, before);
      Reachable(log, c, bufSize, before);
      var s := Run(log, c, bufSize, before);
      var turns := Turns(log, c, bufSize, before);
      assert run == before + [a];
      if Enabled(log, s, a) && (a.ReaderTake? || a.ReaderDone? || a.ReaderEnd?) {
        LoopOneMore(c, turns, s.reader, s.sent,
                    if a.ReaderTake? then Received(s.t.buf[0], a.sendOk) else if a.ReaderDone? then Done else Closed);
      } else {
        assert turns + [] == turns;
      }
    }
  }

  // ---- the channel as an object ------------------------------------------------------------------

  /** How the guarded send came out. */
  datatype Sending = Blocked | Pushed | GaveUp | Recovered

  class Channel {
    const cap: nat
    var buf: seq<RawMessage>
    var closed: bool

    constructor (bufSize: int)
      ensures cap == BufferSize(bufSize) && buf == [] && !closed
    {
      var size := bufSize;
      if size <= 0 {
        size := DEFAULT_TAIL_BUFFER;
      }
      cap := size;
      buf, closed := [], false;
    }

    /** The send closure. pickDone is the choice Go makes when both arms are ready. */
    method Send(m: RawMessage, cancelled: bool, pickDone: bool) returns (r: Sending)
      modifies this`buf
      ensures r.Blocked? <==> !closed && |old(buf)| >= cap && !cancelled
      ensures r.GaveUp? <==> cancelled && (pickDone || (!closed && |old(buf)| >= cap))
      ensures r.Recovered? <==> closed && (!cancelled || !pickDone)
      ensures buf == if r.Pushed? then old(buf) + [m] else old(buf)
    {
      if cancelled && (pickDone || (!closed && |buf| >= cap)) {
        r := GaveUp;
      } else if closed {
        r := Recovered; // the send arm of a closed channel is ready, and panics
      } else if |buf| < cap {
        buf := buf + [m];
        r := Pushed;
      } else {
        r := Blocked;
      }
    }

    /** A second close would panic, and nothing recovers that. */
    method Close()
      requires !closed
      modifies this`closed
      ensures closed
    {
      closed := true;
    }

    method Receive() returns (m: RawMessage)
      requires buf != []
      modifies this`buf
      ensures old(buf) == [m] + buf
    {
      m := buf[0];
      buf := buf[1..];
    }
  }

  /** One call of Tail with its callback, its cleanup goroutine and its reader loop. */
  class Session<O, B(0)> {
    const log: seq<Delivery>
    const codec: Codec<O, B>
    const ch: Channel
    var next: nat
    var alive: bool
    var flight: Option<RawMessage>
    var cancelled: bool
    var cleaner: Cleaner
    var reader: Reader
    var sent: seq<Envelope<B>>
    ghost var s: State<B>

    /** The fields agree with a state of the protocol in which its invariants hold. */
    ghost predicate Valid()
      reads this, ch
    {
      && Inv(log, codec, s)
      && s.cap == ch.cap && s.t.buf == ch.buf && s.k.closed == ch.closed
      && s.t.next == next && s.t.flight == flight
      && s.k.alive == alive && s.k.cancelled == cancelled && s.k.cleaner == cleaner
      && s.reader == reader && s.sent == sent
    }

    constructor (log: seq<Delivery>, codec: Codec<O, B>, bufSize: int)
      ensures Valid() && fresh(ch)
      ensures this.log == log && this.codec == codec && s == Init(bufSize)
    {
      this.log, this.codec := log, codec;
      ch := new Channel(bufSize);
      next, alive, flight, cancelled, cleaner, reader, sent := 0, true, None, false, Consuming, Idle, [];
      s := Init(bufSize);
      new;
      Reachable(log, codec, bufSize, []);
    }

    /** The callback up to its select: a message whose metadata does not parse is skipped. */
    method Callback()
      requires Valid() && alive && flight.None? && next < |log|
      modifies this`next, this`flight, this`s
      ensures Valid() && s == Apply(log, codec, old(s), Deliver)
    {
      InvStep(log, codec, s, Deliver);
      if log[next].metaOk {
        flight := Some(log[next].raw);
      }
      next := next + 1;
      s := Step(log, codec, s, Deliver);
    }

    /** The select of the send closure, whichever arm Go picks: one action of the protocol, or
        none while the callback has to wait. */
    method Select(pickDone: bool) returns (r: Sending)
      requires Valid() && flight.Some?
      modifies this`flight, this`s, ch`buf
      ensures Valid()
      ensures r.Blocked? ==> s == old(s) && !Enabled(log, old(s), SendCase) && !Enabled(log, old(s), DoneCase)
      ensures r.GaveUp? ==> Enabled(log, old(s), DoneCase) && s == Apply(log, codec, old(s), DoneCase)
      ensures r.Pushed? || r.Recovered? ==>
                Enabled(log, old(s), SendCase) && s == Apply(log, codec, old(s), SendCase)
      ensures r.Recovered? <==> s.k.recovered == old(s.k.recovered) + 1
    {
      InvStep(log, codec, s, SendCase);
      InvStep(log, codec, s, DoneCase);
      r := ch.Send(flight.value, cancelled, pickDone);
      if r.Blocked? {
        return;
      }
      flight := None;
      s := Step(log, codec, s, if r.GaveUp? then DoneCase else SendCase);
    }

    /** What follows cons.Consume: hand out the channel, or close it and fail. */
    method Consumed(ok: bool)
      requires Valid() && cleaner.Consuming?
      modifies this`cleaner, this`reader, this`s, ch`closed
      ensures Valid() && s == Apply(log, codec, old(s), ConsumeReturns(ok))
    {
      InvStep(log, codec, s, ConsumeReturns(ok));
      if ok {
        cleaner, reader := Waiting, Looping;
      } else {
        ch.Close();
        cleaner := Never;
      }
      s := Step(log, codec, s, ConsumeReturns(ok));
    }

    /** The cleanup goroutine after its wait, in its two steps: a callback may run its select
        between them, and after them. */
    method Stop()
      requires Valid() && cleaner.Waiting? && cancelled
      modifies this`cleaner, this`s
      ensures Valid() && s == Apply(log, codec, old(s), CleanerStop)
    {
      InvStep(log, codec, s, CleanerStop);
      cleaner := Stopped;
      s := Step(log, codec, s, CleanerStop);
    }

    method CloseChannel()
      requires Valid() && cleaner.Stopped?
      modifies this`cleaner, this`s, ch`closed
      ensures Valid() && s == Apply(log, codec, old(s), CleanerClose)
      ensures s.k.closes == 1 && s.k.crashes == 0
    {
      InvStep(log, codec, s, CleanerClose);
      ch.Close();
      cleaner := Finished;
      s := Step(log, codec, s, CleanerClose);
    }

    /** One turn of the reader loop that takes a message. */
    method Take(sendOk: bool)
      requires Valid() && reader.Looping? && ch.buf != []
      modifies this`reader, this`sent, this`s, ch`buf
      ensures Valid() && s == Apply(log, codec, old(s), ReaderTake(sendOk))
    {
      InvStep(log, codec, s, ReaderTake(sendOk));
      var m := ch.Receive();
      var e := BuildEnvelope(codec, m);
      if e.Some? {
        if sendOk {
          sent := sent + [e.value];
        } else {
          reader := SendFailed;
        }
      }
      s := Step(log, codec, s, ReaderTake(sendOk));
    }

    /** The loop's other two ways out. */
    method Return(done: bool)
      requires Valid() && reader.Looping?
      requires if done then cancelled else ch.buf == [] && ch.closed
      modifies this`reader, this`s
      ensures Valid() && s == Apply(log, codec, old(s), if done then ReaderDone else ReaderEnd)
    {
      InvStep(log, codec, s, if done then ReaderDone else ReaderEnd);
      reader := if done then CtxDone else ChannelEnded;
      s := Step(log, codec, s, if done then ReaderDone else ReaderEnd);
    }

    /** What comes from outside: the context is cancelled, or the consumer stops by itself. */
    method Outside(cancel: bool)
      requires Valid()
      modifies this`cancelled, this`alive, this`s
      ensures Valid() && s == Apply(log, codec, old(s), if cancel then Cancel else ConsumerDies)
    {
      InvStep(log, codec, s, if cancel then Cancel else ConsumerDies);
      if cancel {
        cancelled := true;
      } else {
        alive := false;
      }
      s := Step(log, codec, s, if cancel then Cancel else ConsumerDies);
    }
  }
}
