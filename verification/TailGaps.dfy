/** Holes in what a tail's reader sees: exactly which runs of the protocol have one, and from
    which states one is still to come. */
module TailGaps {
  import opened Text
  import opened Envelopes
  import opened Tail
  import Reading

  ghost predicate Increasing(ms: seq<RawMessage>) {
    forall i, j :: 0 <= i < j < |ms| ==> ms[i].sequence < ms[j].sequence
  }

  lemma {:induction false} ParsedIncreasing(log: seq<Delivery>, n: nat)
    requires Reading.Ordered(log) && n <= |log|
    ensures Increasing(Parsed(log[..n]))
    ensures forall m :: m in Parsed(log[..n]) ==> n > 0 && m.sequence <= log[n - 1].raw.sequence
  {
    if n > 0 {
      ParsedIncreasing(log, n - 1);
      assert log[..n] == log[..n - 1] + [log[n - 1]];
      ParsedAppend(log[..n - 1], log[n - 1]);
    }
  }

  /** Accepting x keeps a prefix a prefix exactly when nothing was lost before. */
  lemma GapOnAccept(a: seq<RawMessage>, lost: seq<RawMessage>, handled: seq<RawMessage>, x: RawMessage)
    requires Merge(a, lost, handled) && Increasing(handled + [x])
    ensures a + [x] <= handled + [x] <==> a <= handled + [x] && lost == []
  {
    MergeIsComplete(a, lost, handled);
    var k, n := |a|, |handled|;
    assert (a + [x])[k] == x == (handled + [x])[n];
  }

  // ---- a drop and a later push ---------------------------------------------------------------

  /** The i-th action of the run drops the message in flight. */
  predicate Drops<O, B>(log: seq<Delivery>, c: Codec<O, B>, bufSize: int, run: seq<Action>, i: nat)
    requires i < |run|
  {
    run[i].DoneCase? && Enabled(log, Run(log, c, bufSize, run[..i]), DoneCase)
  }

  /** The j-th action of the run puts the message in flight into the channel. */
  predicate Pushes<O, B>(log: seq<Delivery>, c: Codec<O, B>, bufSize: int, run: seq<Action>, j: nat)
    requires j < |run|
  {
    var s := Run(log, c, bufSize, run[..j]);
    run[j].SendCase? && Enabled(log, s, SendCase) && !s.k.closed
  }

  ghost predicate Dropped<O, B>(log: seq<Delivery>, c: Codec<O, B>, bufSize: int, run: seq<Action>) {
    exists i :: 0 <= i < |run| && Drops(log, c, bufSize, run, i)
  }

  /** The schedule drops a message and pushes one later. */
  ghost predicate DropThenPush<O, B>(log: seq<Delivery>, c: Codec<O, B>, bufSize: int, run: seq<Action>) {
    exists i, j :: 0 <= i < j < |run| && Drops(log, c, bufSize, run, i) && Pushes(log, c, bufSize, run, j)
  }

  lemma SameSoFar<O, B>(log: seq<Delivery>, c: Codec<O, B>, bufSize: int, run: seq<Action>, a: Action, i: nat)
    requires i < |run|
    ensures Drops(log, c, bufSize, run + [a], i) == Drops(log, c, bufSize, run, i)
    ensures Pushes(log, c, bufSize, run + [a], i) == Pushes(log, c, bufSize, run, i)
  {
    assert (run + [a])[..i] == run[..i];
  }

  lemma DroppedNext<O, B>(log: seq<Delivery>, c: Codec<O, B>, bufSize: int, run: seq<Action>, a: Action)
    ensures Dropped(log, c, bufSize, run + [a])
            <==> Dropped(log, c, bufSize, run) || (a.DoneCase? && Enabled(log, Run(log, c, bufSize, run), a))
  {
    var run' := run + [a];
    assert run'[..|run|] == run;
    if Dropped(log, c, bufSize, run) {
      var i :| 0 <= i < |run| && Drops(log, c, bufSize, run, i);
      SameSoFar(log, c, bufSize, run, a, i);
    }
    if a.DoneCase? && Enabled(log, Run(log, c, bufSize, run), a) {
      assert Drops(log, c, bufSize, run', |run|);
    }
    if Dropped(log, c, bufSize, run') {
      var i :| 0 <= i < |run'| && Drops(log, c, bufSize, run', i);
      if i < |run| {
        SameSoFar(log, c, bufSize, run, a, i);
      }
    }
  }

  lemma DropThenPushNext<O, B>(log: seq<Delivery>, c: Codec<O, B>, bufSize: int, run: seq<Action>, a: Action)
    ensures DropThenPush(log, c, bufSize, run + [a])
            <==> DropThenPush(log, c, bufSize, run)
                 || (Dropped(log, c, bufSize, run) && Pushes(log, c, bufSize, run + [a], |run|))
  {
    var run' := run + [a];
    if DropThenPush(log, c, bufSize, run) {
      var i, j :| 0 <= i < j < |run| && Drops(log, c, bufSize, run, i) && Pushes(log, c, bufSize, run, j);
      SameSoFar(log, c, bufSize, run, a, i);
      SameSoFar(log, c, bufSize, run, a, j);
    }
    if Dropped(log, c, bufSize, run) && Pushes(log, c, bufSize, run', |run|) {
      var i :| 0 <= i < |run| && Drops(log, c, bufSize, run, i);
      SameSoFar(log, c, bufSize, run, a, i);
    }
    if DropThenPush(log, c, bufSize, run') {
      var i, j :| 0 <= i < j < |run'| && Drops(log, c, bufSize, run', i) && Pushes(log, c, bufSize, run', j);
      SameSoFar(log, c, bufSize, run, a, i);
      if j < |run| {
        SameSoFar(log, c, bufSize, run, a, j);
      }
    }
  }

  /** On an open channel messages are lost by drops only. */
  lemma {:induction false} LostIsDropped<O, B>(log: seq<Delivery>, c: Codec<O, B>, bufSize: int, run: seq<Action>)
    ensures var s := Run(log, c, bufSize, run);
            && (Dropped(log, c, bufSize, run) ==> s.t.lost != [])
            && (!s.k.closed && s.t.lost != [] ==> Dropped(log, c, bufSize, run))
  {
    if run != [] {
      var before, a := run[..|run| - 1], run[|run| - 1];
      assert run == before + [a];
      LostIsDropped(log, c, bufSize, before);
      DroppedNext(log, c, bufSize, before, a);
    }
  }

  /** The messages accepted, and so those the reader sees, are a prefix of the consumer's, with
      no hole, if and only if the schedule never pushes after a drop. */
  lemma {:induction false} NoGapIff<O, B>(log: seq<Delivery>, c: Codec<O, B>, bufSize: int, run: seq<Action>)
    requires Reading.Ordered(log)
    ensures var s := Run(log, c, bufSize, run);
            s.t.next <= |log| && (Accepted(s.t) <= Parsed(log[..s.t.next]) <==> !DropThenPush(log, c, bufSize, run))
  {
    Reachable(log, c, bufSize, run);
    if run != [] {
      var before, a := run[..|run| - 1], run[|run| - 1];
      assert run == before + [a];
      NoGapIff(log, c, bufSize, before);
      Reachable(log, c, bufSize, before);
      LostIsDropped(log, c, bufSize, before);
      DropThenPushNext(log, c, bufSize, before, a);
      var s := Run(log, c, bufSize, before);
      if Enabled(log, s, a) {
        PrefixStep(log, s.t, s.k.closed, a);
      }
    }
  }

  /** What an enabled action does to the prefix: only a push after a loss ends it. */
  lemma PrefixStep(log: seq<Delivery>, t: Traffic, closed: bool, a: Action)
    requires Reading.Ordered(log) && OrderInv(log, t)
    requires a.Deliver? ==> t.next < |log| && t.flight.None?
    requires a.SendCase? || a.DoneCase? ==> t.flight.Some?
    requires a.ReaderTake? ==> t.buf != []
    ensures var t' := Move(log, t, closed, a);
            && t'.next <= |log|
            && (Accepted(t') <= Parsed(log[..t'.next])
                <==> Accepted(t) <= Parsed(log[..t.next]) && !(a.SendCase? && !closed && t.lost != []))
  {
    if a.Deliver? {
      PrefixAtDelivery(log, t);
    } else if a.SendCase? && !closed {
      PrefixAtPush(log, t);
    } else {
      assert Accepted(Move(log, t, closed, a)) == Accepted(t);
    }
  }

  lemma PrefixAtDelivery(log: seq<Delivery>, t: Traffic)
    requires OrderInv(log, t) && t.next < |log| && t.flight.None?
    ensures Accepted(t) <= Parsed(log[..t.next + 1]) <==> Accepted(t) <= Parsed(log[..t.next])
  {
    assert log[..t.next + 1] == log[..t.next] + [log[t.next]];
    ParsedAppend(log[..t.next], log[t.next]);
    MergeIsComplete(Accepted(t), t.lost, Handled(log, t));
  }

  lemma PrefixAtPush(log: seq<Delivery>, t: Traffic)
    requires Reading.Ordered(log) && OrderInv(log, t) && t.flight.Some?
    ensures var all, m := Parsed(log[..t.next]), t.flight.value;
            t.received + (t.buf + [m]) <= all <==> Accepted(t) <= all && t.lost == []
  {
    var m := t.flight.value;
    assert t.received + (t.buf + [m]) == Accepted(t) + [m];
    ParsedIncreasing(log, t.next);
    GapOnAccept(Accepted(t), t.lost, Handled(log, t), m);
  }

  // ---- where a gap is still to come ------------------------------------------------------------

  /** Messages that can still come to the select: the one there, and what a living consumer
      has left. */
  function Coming<B>(log: seq<Delivery>, s: State<B>): nat
    requires s.t.next <= |log|
  {
    |InFlight(s.t)| + (if s.k.alive then |Parsed(log[s.t.next..])| else 0)
  }

  /** The channel has room, or somebody who will make some. */
  predicate Roomy<B>(s: State<B>) {
    |s.t.buf| < s.cap || s.reader.Looping? || s.k.cleaner.Consuming?
  }

  /** An open channel with room, and enough messages: one to drop, unless that has happened, and
      one to push. */
  predicate GapAhead<B>(log: seq<Delivery>, s: State<B>)
    requires s.t.next <= |log|
  {
    !s.k.closed && Roomy(s) && Coming(log, s) >= (if s.t.lost == [] then 2 else 1)
  }

  lemma ParsedFront(log: seq<Delivery>, k: nat)
    requires k < |log|
    ensures |Parsed(log[k..])| == (if log[k].metaOk then 1 else 0) + |Parsed(log[k + 1..])|
  {
    assert log[k..] == [log[k]] + log[k + 1..];
    ParsedConcat([log[k]], log[k + 1..]);
    assert [log[k]][..0] == [];
  }

  lemma GapStaysAway<O, B>(log: seq<Delivery>, c: Codec<O, B>, s: State<B>, a: Action)
    requires Inv(log, c, s) && !GapAhead(log, s)
    ensures Step(log, c, s, a).t.next <= |log| && !GapAhead(log, Step(log, c, s, a))
    ensures a.SendCase? && Enabled(log, s, a) && !s.k.closed ==> s.t.lost == []
  {
    if Enabled(log, s, a) {
      if a.Deliver? {
        ParsedFront(log, s.t.next);
      }
    }
  }

  lemma {:induction false} GapNeverComes<O, B>(
    log: seq<Delivery>, c: Codec<O, B>, bufSize: int, run: seq<Action>, more: seq<Action>)
    requires Run(log, c, bufSize, run).t.next <= |log|
    requires !DropThenPush(log, c, bufSize, run) && !GapAhead(log, Run(log, c, bufSize, run))
    ensures var s := Run(log, c, bufSize, run + more);
            s.t.next <= |log| && !DropThenPush(log, c, bufSize, run + more) && !GapAhead(log, s)
    decreases |more|
  {
    if more == [] {
      assert run + more == run;
    } else {
      var front, a := run + more[..|more| - 1], more[|more| - 1];
      GapNeverComes(log, c, bufSize, run, more[..|more| - 1]);
      assert run + more == front + [a] && (front + [a])[..|front|] == front;
      Reachable(log, c, bufSize, front);
      RunConcat(log, c, bufSize, front, a);
      GapStaysAway(log, c, Run(log, c, bufSize, front), a);
      LostIsDropped(log, c, bufSize, front);
      DropThenPushNext(log, c, bufSize, front, a);
    }
  }

  /** Running the consumer until a message is at the select changes nothing else. */
  lemma {:induction false} Fetch<O, B>(log: seq<Delivery>, c: Codec<O, B>, bufSize: int, run: seq<Action>)
    returns (run': seq<Action>)
    requires Run(log, c, bufSize, run).t.next <= |log| && Coming(log, Run(log, c, bufSize, run)) >= 1
    ensures run <= run'
    ensures var s, s' := Run(log, c, bufSize, run), Run(log, c, bufSize, run');
            && s'.t.next <= |log| && s'.t.flight.Some? && Coming(log, s') == Coming(log, s)
            && s' == s.(t := s.t.(next := s'.t.next, flight := s'.t.flight))
    ensures Dropped(log, c, bufSize, run) ==> Dropped(log, c, bufSize, run')
    decreases |log| - Run(log, c, bufSize, run).t.next
  {
    var s := Run(log, c, bufSize, run);
    if s.t.flight.Some? {
      run' := run;
    } else {
      ParsedFront(log, s.t.next);
      RunConcat(log, c, bufSize, run, Deliver);
      DroppedNext(log, c, bufSize, run, Deliver);
      run' := Fetch(log, c, bufSize, run + [Deliver]);
    }
  }

  /** A full buffer with a reader, or with one still to start, can be relieved. */
  lemma MakeRoom<O, B>(log: seq<Delivery>, c: Codec<O, B>, bufSize: int, run: seq<Action>) returns (run': seq<Action>)
    requires Inv(log, c, Run(log, c, bufSize, run)) && Run(log, c, bufSize, run).cap > 0
    requires Roomy(Run(log, c, bufSize, run)) && !Run(log, c, bufSize, run).k.closed
    ensures run <= run'
    ensures var s, s' := Run(log, c, bufSize, run), Run(log, c, bufSize, run');
            |s'.t.buf| < s'.cap && !s'.k.closed && s'.t.flight == s.t.flight
    ensures Dropped(log, c, bufSize, run) ==> Dropped(log, c, bufSize, run')
  {
    run' := run;
    var s := Run(log, c, bufSize, run);
    if |s.t.buf| >= s.cap {
      if s.k.cleaner.Consuming? {
        RunConcat(log, c, bufSize, run', ConsumeReturns(true));
        DroppedNext(log, c, bufSize, run', ConsumeReturns(true));
        run' := run' + [ConsumeReturns(true)];
      }
      RunConcat(log, c, bufSize, run', ReaderTake(true));
      DroppedNext(log, c, bufSize, run', ReaderTake(true));
      run' := run' + [ReaderTake(true)];
    }
  }

  /** Cancel, then drop one message if none has been dropped yet. */
  lemma DropOne<O, B>(log: seq<Delivery>, c: Codec<O, B>, bufSize: int, run: seq<Action>) returns (run': seq<Action>)
    requires Run(log, c, bufSize, run).t.next <= |log| && GapAhead(log, Run(log, c, bufSize, run))
    ensures run <= run' && Dropped(log, c, bufSize, run')
    ensures var s' := Run(log, c, bufSize, run');
            s'.t.next <= |log| && !s'.k.closed && Roomy(s') && Coming(log, s') >= 1
  {
    LostIsDropped(log, c, bufSize, run);
    RunConcat(log, c, bufSize, run, Cancel);
    DroppedNext(log, c, bufSize, run, Cancel);
    run' := run + [Cancel];
    if Run(log, c, bufSize, run).t.lost == [] {
      run' := Fetch(log, c, bufSize, run');
      RunConcat(log, c, bufSize, run', DoneCase);
      DroppedNext(log, c, bufSize, run', DoneCase);
      run' := run' + [DoneCase];
    }
  }

  lemma GapComes<O, B>(log: seq<Delivery>, c: Codec<O, B>, bufSize: int, run: seq<Action>) returns (run': seq<Action>)
    requires Run(log, c, bufSize, run).t.next <= |log| && GapAhead(log, Run(log, c, bufSize, run))
    ensures run <= run' && DropThenPush(log, c, bufSize, run')
  {
    var dropped := DropOne(log, c, bufSize, run);
    var ready := Fetch(log, c, bufSize, dropped);
    Reachable(log, c, bufSize, ready);
    var free := MakeRoom(log, c, bufSize, ready);
    run' := free + [SendCase];
    assert run'[..|free|] == free;
    DropThenPushNext(log, c, bufSize, free, SendCase);
  }

  /** A run that has no gap yet can still get one exactly when the channel is open, has room or
      a reader to make some, and enough messages are still to come. */
  lemma GapReachableIff<O, B>(log: seq<Delivery>, c: Codec<O, B>, bufSize: int, run: seq<Action>)
    ensures Run(log, c, bufSize, run).t.next <= |log|
    ensures (exists more :: DropThenPush(log, c, bufSize, run + more))
            <==> DropThenPush(log, c, bufSize, run) || GapAhead(log, Run(log, c, bufSize, run))
  {
    Reachable(log, c, bufSize, run);
    if DropThenPush(log, c, bufSize, run) {
      assert run + [] == run;
    } else if GapAhead(log, Run(log, c, bufSize, run)) {
      var run' := GapComes(log, c, bufSize, run);
      assert run' == run + run'[|run|..];
    } else {
      forall more ensures !DropThenPush(log, c, bufSize, run + more) {
        GapNeverComes(log, c, bufSize, run, more);
      }
    }
  }

  function Numbered(n: nat): Delivery {
    Delivery(RawMessage("s", n, n, "{}"), true)
  }

  /** After a cancel the select may drop one message and still send the next. */
  lemma GapAfterCancel<O, B>(c: Codec<O, B>)
    ensures var log := [Numbered(1), Numbered(2)];
            var s := Run(log, c, 0, [ConsumeReturns(true), Cancel, Deliver, DoneCase, Deliver, SendCase]);
            s.t.buf == [Numbered(2).raw] && s.t.next == 2 && s.t.lost == [Numbered(1).raw]
  {
    var log := [Numbered(1), Numbered(2)];
    FirstIsDropped(c, log);
    var r4 := [ConsumeReturns(true), Cancel, Deliver, DoneCase];
    var s := Run(log, c, 0, r4);
    RunConcat(log, c, 0, r4, Deliver);
    RunConcat(log, c, 0, r4 + [Deliver], SendCase);
    assert r4 + [Deliver] + [SendCase] == [ConsumeReturns(true), Cancel, Deliver, DoneCase, Deliver, SendCase];
    var s5 := Step(log, c, s, Deliver);
    assert s5.t == s.t.(next := 2, flight := Some(Numbered(2).raw)) && s5.k == s.k;
  }

  lemma FirstIsDropped<O, B>(c: Codec<O, B>, log: seq<Delivery>)
    requires |log| == 2 && log[0].metaOk
    ensures var s := Run(log, c, 0, [ConsumeReturns(true), Cancel, Deliver, DoneCase]);
            && s.t == Traffic(1, None, [], [], [log[0].raw]) && s.k.alive && !s.k.closed && s.cap == DEFAULT_TAIL_BUFFER
  {
    var r0: seq<Action> := [];
    var r2 := [ConsumeReturns(true), Cancel];
    RunConcat(log, c, 0, r0, ConsumeReturns(true));
    RunConcat(log, c, 0, r0 + [ConsumeReturns(true)], Cancel);
    assert r0 + [ConsumeReturns(true)] + [Cancel] == r2;
    var s2 := Run(log, c, 0, r2);
    assert s2.t == Traffic(0, None, [], [], []) && s2.k.alive && s2.k.cancelled && !s2.k.closed;
    RunConcat(log, c, 0, r2, Deliver);
    RunConcat(log, c, 0, r2 + [Deliver], DoneCase);
    assert r2 + [Deliver] + [DoneCase] == [ConsumeReturns(true), Cancel, Deliver, DoneCase];
    var s3 := Step(log, c, s2, Deliver);
    assert s3.t == Traffic(1, Some(log[0].raw), [], [], []) && s3.k == s2.k;
  }
}
