/** Calls on the broker object as runs of the concurrent protocol: an object together with the
    run that its calls so far amount to. Each call extends the run by its own actions, and the
    object's channels hold what the protocol's do; so what is proved of every run of the
    protocol holds of the object. */
module BrokerRefinement {
  import opened Broker
  import P = BrokerProtocol

  /** The protocol's channel holds what the subscription's does. */
  ghost predicate Same(x: Subscription, c: P.Chan<Event>)
    reads x
  {
    x.cap == c.cap && x.buf == P.Events(c.buf) && x.closed == c.closed
  }

  /** ids names the subscriptions ever made, each by a number of its own; the protocol knows the
      same channels under them, the same members, and is between two calls. */
  ghost predicate Abstracts(b: Broker, ids: map<Subscription, nat>, s: P.State<Event>)
    reads b, ids.Keys
  {
    && s.readers == map[] && s.writer.Idle?
    && (forall x, y :: x in ids && y in ids && ids[x] == ids[y] ==> x == y)
    && (forall x :: x in ids ==> ids[x] in s.chans && Same(x, s.chans[ids[x]]) && (x in b.subs <==> ids[x] in s.subs))
    && (forall x :: x in b.subs ==> x in ids)
    && (forall sid :: sid in s.subs ==> exists x :: x in ids && ids[x] == sid)
  }

  lemma QuietRun(run: seq<P.Action<Event>>, a: P.Action<Event>, b: P.Action<Event>, c: P.Action<Event>)
    ensures P.Run(run + [a] + [b] + [c]) == P.Step(P.Step(P.Step(P.Run(run), a), b), c)
  {
    OneMore(run, a);
    OneMore(run + [a], b);
    OneMore(run + [a] + [b], c);
  }

  lemma OneMore(run: seq<P.Action<Event>>, a: P.Action<Event>)
    ensures P.Run(run + [a]) == P.Step(P.Run(run), a)
  {
    assert (run + [a])[..|run|] == run;
  }

  /** The three actions of a call under the write lock. */
  function Writing(op: P.WriteOp): seq<P.Action<Event>> {
    [P.Lock(op)] + [P.Write] + [P.Unlock]
  }

  lemma AddRun(run: seq<P.Action<Event>>, sid: nat, bufSize: int)
    requires P.Run(run).readers == map[] && P.Run(run).writer.Idle? && sid !in P.Run(run).chans
    ensures var s, s' := P.Run(run), P.Run(run + Writing(P.Add(sid, bufSize)));
            && s'.subs == s.subs + {sid} && s'.readers == map[] && s'.writer.Idle?
            && s'.chans == s.chans[sid := P.Chan(P.Capacity(bufSize), [], false, 0, [], [], [], 0, s.published, map[])]
  {
    QuietRun(run, P.Lock(P.Add(sid, bufSize)), P.Write, P.Unlock);
    assert run + Writing(P.Add(sid, bufSize)) == run + [P.Lock(P.Add(sid, bufSize))] + [P.Write] + [P.Unlock];
  }

  lemma CancelRun(run: seq<P.Action<Event>>, sid: nat)
    requires P.Run(run).readers == map[] && P.Run(run).writer.Idle? && sid in P.Run(run).chans
    ensures var s, s' := P.Run(run), P.Run(run + Writing(P.Cancel(sid)));
            && s'.subs == s.subs - {sid} && s'.readers == map[] && s'.writer.Idle? && s'.chans.Keys == s.chans.Keys
            && (forall k :: k in s.chans && k != sid ==> s'.chans[k] == s.chans[k])
            && s'.chans[sid].buf == s.chans[sid].buf && s'.chans[sid].cap == s.chans[sid].cap
            && s'.chans[sid].closed
  {
    P.Reachable(run);
    QuietRun(run, P.Lock(P.Cancel(sid)), P.Write, P.Unlock);
    assert run + Writing(P.Cancel(sid)) == run + [P.Lock(P.Cancel(sid))] + [P.Write] + [P.Unlock];
    var s := P.Run(run);
    var locked := P.Step(s, P.Lock(P.Cancel(sid)));
    assert locked == s.(writer := P.Pending(P.Cancel(sid)));
  }

  lemma ReceiveRun(run: seq<P.Action<Event>>, sid: nat)
    requires sid in P.Run(run).chans && P.Run(run).chans[sid].buf != []
    ensures var s, s' := P.Run(run), P.Run(run + [P.Receive(sid)]);
            var c := s.chans[sid];
            && s'.subs == s.subs && s'.readers == s.readers && s'.writer == s.writer
            && s'.chans == s.chans[sid := c.(buf := c.buf[1..], received := c.received + [c.buf[0]])]
  {
    OneMore(run, P.Receive(sid));
  }

  /** A number no channel has. */
  lemma FreshId(chans: set<nat>) returns (sid: nat)
    ensures sid !in chans
  {
    if chans == {} {
      sid := 0;
    } else {
      var max := Maximum(chans);
      sid := max + 1;
    }
  }

  lemma {:induction false} Maximum(xs: set<nat>) returns (m: nat)
    requires xs != {}
    ensures m in xs && forall x :: x in xs ==> x <= m
    decreases |xs|
  {
    var x :| x in xs;
    if xs == {x} {
      m := x;
    } else {
      assert xs - {x} != {};
      var rest := Maximum(xs - {x});
      assert forall y :: y in xs ==> y == x || y in xs - {x};
      m := if rest < x then x else rest;
    }
  }

  /** The members in some order. */
  lemma {:induction false} Listed(xs: set<nat>) returns (order: seq<nat>)
    ensures NoRepeats(order) && xs == set x | x in order
    decreases |xs|
  {
    if xs == {} {
      order := [];
    } else {
      var x :| x in xs;
      var rest := Listed(xs - {x});
      order := rest + [x];
      assert forall y :: y in rest <==> y in xs - {x};
      assert forall y :: y in order <==> y in rest || y == x;
      assert forall y :: y in xs <==> y in xs - {x} || y == x;
      assert xs == set y | y in order;
    }
  }

  /** A broker with its run. */
  class Traced {
    const broker: Broker
    ghost var ids: map<Subscription, nat>
    ghost var run: seq<P.Action<Event>>

    ghost predicate Valid()
      reads this, broker, broker.subs, ids.Keys
    {
      broker.Valid() && Abstracts(broker, ids, P.Run(run))
    }

    constructor ()
      ensures Valid() && fresh(broker) && ids == map[] && run == []
    {
      broker := new Broker();
      ids, run := map[], [];
    }

    /** Publish is the protocol's publication by pid, visiting the members in some order. */
    method Publish(e: Event, now: int, ghost pid: nat) returns (ghost order: seq<nat>)
      requires Valid()
      modifies this`run, broker.subs`buf
      ensures Valid() && ids == old(ids)
      ensures NoRepeats(order) && old(P.Run(run)).subs == set x | x in order
      ensures run == old(run) + PublishSchedule(pid, Stamped(e, now), order)
    {
      ghost var s := P.Run(run);
      order := Listed(s.subs);
      PublishIsASchedule(run, pid, Stamped(e, now), order);
      broker.Publish(e, now);
      run := run + PublishSchedule(pid, Stamped(e, now), order);
      ghost var item := P.Item(pid, P.Count(s.published, pid), Stamped(e, now));
      forall x | x in ids ensures Same(x, P.Run(run).chans[ids[x]]) {
        OfferDelivers(s.chans[ids[x]], item);
      }
    }

    method Subscribe(bufSize: int) returns (x: Subscription, ghost sid: nat)
      requires Valid()
      modifies this`run, this`ids, broker
      ensures Valid() && fresh(x) && sid !in old(P.Run(run)).chans
      ensures ids == old(ids)[x := sid] && run == old(run) + Writing(P.Add(sid, bufSize))
    {
      ghost var s := P.Run(run);
      sid := FreshId(s.chans.Keys);
      AddRun(run, sid, bufSize);
      x := broker.Subscribe(bufSize);
      ids, run := ids[x := sid], run + Writing(P.Add(sid, bufSize));
      assert x in ids && ids[x] == sid;
    }

    /** A cancel function may be called any number of times. */
    method Cancel(x: Subscription)
      requires Valid() && x in ids
      modifies this`run, broker, x`closed
      ensures Valid() && ids == old(ids) && run == old(run) + Writing(P.Cancel(ids[x]))
    {
      P.Reachable(run);
      CancelRun(run, ids[x]);
      broker.Cancel(x);
      run := run + Writing(P.Cancel(ids[x]));
    }

    method Receive(x: Subscription) returns (e: Event)
      requires Valid() && x in ids && x.buf != []
      modifies this`run, x`buf
      ensures Valid() && ids == old(ids) && run == old(run) + [P.Receive(ids[x])]
      ensures old(x.buf) == [e] + x.buf
    {
      ReceiveRun(run, ids[x]);
      ghost var c := P.Run(run).chans[ids[x]];
      assert P.Events(c.buf[1..]) == P.Events(c.buf)[1..];
      e := x.Receive();
      run := run + [P.Receive(ids[x])];
    }

    /** What the protocol's results say of an object: for a subscription of which no delivery
        found the channel full, what was received from it and what it still holds are, from each
        publisher, exactly its events since the subscription, in order. */
    lemma NoOverflowNoLoss(x: Subscription, pid: nat)
      requires Valid() && x in ids && P.Overflows(run, ids[x]) == 0
      ensures var s := P.Run(run); var c := s.chans[ids[x]];
              && x.buf == P.Events(c.buf)
              && P.Count(c.begin, pid) <= P.Reached(s, ids[x], pid) <= P.Count(s.published, pid)
              && P.Events(P.OfPublisher(c.received + c.buf, pid))
                 == P.PublishedBy(s.published, pid)[P.Count(c.begin, pid)..P.Reached(s, ids[x], pid)]
    {
      P.KeepingUpMeansNoLoss(run, ids[x], pid);
    }
  }
}
