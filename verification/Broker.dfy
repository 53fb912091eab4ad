/** The broker object of internal/audit/broker.go, one call at a time, and the proof that a
    call of Publish is one schedule of the concurrent protocol. Sending on or closing a
    closed channel panics in Go; here both are preconditions, so the proofs of the callers
    show that it never happens. */
module Broker {
  import opened Text
  import P = BrokerProtocol

  datatype Event = Event(
    timestamp: Option<int>, reason: string, message: string,
    kind: string, name: string, namespace: string, actor: string)

  /** The effect of a non-blocking send on what a channel of this capacity holds. */
  function Delivered(buf: seq<Event>, cap: nat, e: Event): seq<Event> {
    if |buf| < cap then buf + [e] else buf
  }

  /** An event is stamped on its way in when it carries no time. */
  function Stamped(e: Event, now: int): Event {
    if e.timestamp.None? then e.(timestamp := Some(now)) else e
  }

  /** d is what a subscriber gets of an event e published at now: its time when it carries one,
      now otherwise, and everything else as it is. */
  predicate Arrives(d: Event, e: Event, now: int) {
    && d.timestamp == (if e.timestamp.None? then Some(now) else e.timestamp)
    && (d.reason, d.message, d.kind, d.name) == (e.reason, e.message, e.kind, e.name)
    && (d.namespace, d.actor) == (e.namespace, e.actor)
  }

  /** What a channel holds after an event was published to it: with room, the event arrives last;
      without, nothing changes. */
  predicate Receives(before: seq<Event>, after: seq<Event>, cap: nat, e: Event, now: int) {
    if |before| < cap then |after| == |before| + 1 && before <= after && Arrives(after[|before|], e, now)
    else after == before
  }

  lemma DeliveredReceives(buf: seq<Event>, cap: nat, e: Event, now: int)
    ensures Receives(buf, Delivered(buf, cap, Stamped(e, now)), cap, e, now)
    ensures Stamped(e, now).timestamp.Some?
    ensures forall d :: Arrives(d, e, now) <==> d == Stamped(e, now)
  {
  }

  class Subscription {
    const cap: nat
    var buf: seq<Event>
    var closed: bool

    constructor (cap: nat)
      ensures this.cap == cap && buf == [] && !closed
    {
      this.cap := cap;
      buf, closed := [], false;
    }

    /** select { case ch <- e: default: } */
    method TrySend(e: Event)
      requires !closed
      modifies this`buf
      ensures buf == Delivered(old(buf), cap, e)
    {
      if |buf| < cap {
        buf := buf + [e];
      }
    }

    /** close(ch) */
    method Close()
      requires !closed
      modifies this`closed
      ensures closed
    {
      closed := true;
    }

    method Receive() returns (e: Event)
      requires buf != []
      modifies this`buf
      ensures old(buf) == [e] + buf
    {
      e := buf[0];
      buf := buf[1..];
    }
  }

  class Broker {
    var subs: set<Subscription>

    /** Members have open channels that can hold something. */
    ghost predicate Valid()
      reads this, subs
    {
      forall x :: x in subs ==> !x.closed && x.cap > 0
    }

    constructor ()
      ensures Valid() && subs == {}
    {
      subs := {};
    }

    /** Every current subscriber with room gets the event, one without loses it, nobody
        waits for it, and nothing else changes. */
    method Publish(e: Event, now: int)
      requires Valid()
      modifies subs`buf
      ensures Valid()
      ensures forall x :: x in subs ==> x.buf == Delivered(old(x.buf), x.cap, Stamped(e, now))
      ensures forall x :: x in subs ==> Receives(old(x.buf), x.buf, x.cap, e, now)
    {
      var ev := e;
      if ev.timestamp.None? {
        ev := ev.(timestamp := Some(now));
      }
      var todo: set<Subscription> := subs;
      while todo != {}
        invariant todo <= subs
        invariant forall x :: x in subs ==> x.buf == if x in todo then old(x.buf) else Delivered(old(x.buf), x.cap, ev)
        decreases todo
      {
        var x :| x in todo;
        x.TrySend(ev);
        todo := todo - {x};
      }
      forall x | x in subs ensures Receives(old(x.buf), x.buf, x.cap, e, now) {
        DeliveredReceives(old(x.buf), x.cap, e, now);
      }
    }

    /** A fresh, open, empty channel of the requested size (64 when unspecified). */
    method Subscribe(bufSize: int) returns (x: Subscription)
      requires Valid()
      modifies this
      ensures Valid() && fresh(x)
      ensures subs == old(subs) + {x} && x.buf == [] && x.cap == P.Capacity(bufSize)
      ensures x.cap == if bufSize <= 0 then 64 else bufSize
    {
      var size := bufSize;
      if size <= 0 {
        size := 64;
      }
      x := new Subscription(size);
      subs := subs + {x};
    }

    /** cancel: leaves the membership and closes the channel the first time; any later call
        finds it gone and does nothing. What is buffered stays receivable. */
    method Cancel(x: Subscription)
      requires Valid()
      modifies this, x`closed
      ensures Valid()
      ensures subs == old(subs) - {x}
      ensures x.closed == (old(x in subs) || old(x.closed))
    {
      if x in subs {
        subs := subs - {x};
        x.Close();
      }
    }
  }

  // ---- a call of Publish is a schedule of the protocol --------------------------------------

  function RunFrom<E>(s: P.State<E>, acts: seq<P.Action<E>>): P.State<E>
    decreases |acts|
  {
    if acts == [] then s else RunFrom(P.Step(s, acts[0]), acts[1..])
  }

  lemma {:induction false} RunAppend<E>(run: seq<P.Action<E>>, acts: seq<P.Action<E>>)
    ensures P.Run(run + acts) == RunFrom(P.Run(run), acts)
    decreases |acts|
  {
    if acts == [] {
      assert run + acts == run;
    } else {
      assert (run + [acts[0]])[..|run|] == run;
      assert run + acts == (run + [acts[0]]) + acts[1..];
      RunAppend(run + [acts[0]], acts[1..]);
    }
  }

  function Sends<E>(pid: nat, order: seq<nat>): seq<P.Action<E>> {
    seq(|order|, k requires 0 <= k < |order| => P.Send(pid, order[k]))
  }

  function PublishSchedule<E>(pid: nat, e: E, order: seq<nat>): seq<P.Action<E>> {
    [P.RLock(pid, e)] + Sends(pid, order) + [P.RUnlock(pid)]
  }

  predicate NoRepeats(order: seq<nat>) {
    forall i, j :: 0 <= i < j < |order| ==> order[i] != order[j]
  }

  function Offered<E>(chans: map<nat, P.Chan<E>>, to: set<nat>, i: P.Item<E>): map<nat, P.Chan<E>> {
    map sid | sid in chans :: if sid in to then P.Offer(chans[sid], i) else chans[sid]
  }

  lemma SendOne<E>(s: P.State<E>, pid: nat, sid: nat)
    requires P.LockInv(s) && P.ChannelInv(s) && pid in s.readers && sid in s.readers[pid].todo
    ensures P.Step(s, P.Send(pid, sid)) ==
            s.(readers := s.readers[pid := s.readers[pid].(todo := s.readers[pid].todo - {sid})],
               chans := s.chans[sid := P.Offer(s.chans[sid], s.readers[pid].item)])
  {
  }

  lemma OfferedOne<E>(chans: map<nat, P.Chan<E>>, todo: set<nat>, sid: nat, i: P.Item<E>)
    requires sid in chans && sid in todo
    ensures Offered(chans[sid := P.Offer(chans[sid], i)], todo - {sid}, i) == Offered(chans, todo, i)
  {
  }

  lemma RestOfOrder(order: seq<nat>)
    requires order != [] && NoRepeats(order)
    ensures (set x | x in order[1..]) == (set x | x in order) - {order[0]}
    ensures NoRepeats(order[1..])
  {
    assert order == [order[0]] + order[1..];
  }

  lemma {:induction false} SendsOffer<E>(s: P.State<E>, pid: nat, order: seq<nat>)
    requires P.LockInv(s) && P.ChannelInv(s) && pid in s.readers
    requires NoRepeats(order) && s.readers[pid].todo == set x | x in order
    ensures RunFrom(s, Sends(pid, order)) ==
            s.(readers := s.readers[pid := s.readers[pid].(todo := {})],
               chans := Offered(s.chans, s.readers[pid].todo, s.readers[pid].item))
    decreases |order|
  {
    var p, acts := s.readers[pid], Sends(pid, order);
    if order == [] {
      assert acts == [] && p.todo == {};
      assert Offered(s.chans, {}, p.item) == s.chans;
      assert p.(todo := {}) == p;
    } else {
      var sid := order[0];
      assert sid in p.todo && acts[0] == P.Send(pid, sid) && acts[1..] == Sends(pid, order[1..]);
      SendOne(s, pid, sid);
      RestOfOrder(order);
      P.LockStep(s, acts[0]);
      SendsOffer(P.Step(s, acts[0]), pid, order[1..]);
      OfferedOne(s.chans, p.todo, sid, p.item);
    }
  }

  lemma LockOne<E>(s: P.State<E>, pid: nat, e: E)
    requires s.readers == map[] && s.writer.Idle?
    ensures var s' := P.Step(s, P.RLock(pid, e));
            && s'.readers == map[pid := P.Publishing(P.Item(pid, P.Count(s.published, pid), e), s.subs)]
            && s'.chans == s.chans && s'.subs == s.subs && s'.writer.Idle?
  {
  }

  lemma UnlockOne<E>(s: P.State<E>, pid: nat)
    requires s.readers.Keys == {pid} && s.readers[pid].todo == {}
    ensures P.Step(s, P.RUnlock(pid)) == s.(readers := map[])
  {
    assert s.readers - {pid} == map[];
  }

  /** From any quiet point of any run, a publisher that visits the subscribers in any order
      ends with exactly what the object's Publish gives: every member offered the event
      once, everything else as before. */
  lemma PublishIsASchedule<E>(run: seq<P.Action<E>>, pid: nat, e: E, order: seq<nat>)
    requires P.Run(run).readers == map[] && P.Run(run).writer.Idle?
    requires NoRepeats(order) && P.Run(run).subs == set x | x in order
    ensures var s, s' := P.Run(run), P.Run(run + PublishSchedule(pid, e, order));
            && s'.chans == Offered(s.chans, s.subs, P.Item(pid, P.Count(s.published, pid), e))
            && s'.subs == s.subs && s'.readers == map[] && s'.writer.Idle?
  {
    var s := P.Run(run);
    var lock: P.Action<E>, unlock: P.Action<E> := P.RLock(pid, e), P.RUnlock(pid);
    var sends: seq<P.Action<E>> := Sends(pid, order);
    P.Reachable(run);
    P.LockStep(s, lock);
    LockOne(s, pid, e);
    SendsOffer(P.Step(s, lock), pid, order);
    UnlockOne(RunFrom(P.Step(s, lock), sends), pid);
    RunFromConcat(s, [lock] + sends, [unlock]);
    assert ([lock] + sends)[1..] == sends;
    assert PublishSchedule(pid, e, order) == [lock] + sends + [unlock];
    RunAppend(run, [lock] + sends + [unlock]);
  }

  lemma {:induction false} RunFromConcat<E>(s: P.State<E>, acts: seq<P.Action<E>>, more: seq<P.Action<E>>)
    ensures RunFrom(s, acts + more) == RunFrom(RunFrom(s, acts), more)
    decreases |acts|
  {
    if acts == [] {
      assert acts + more == more;
    } else {
      assert (acts + more)[1..] == acts[1..] + more;
      RunFromConcat(P.Step(s, acts[0]), acts[1..], more);
    }
  }

  /** The two descriptions of a delivery agree on what the channel holds. */
  lemma OfferDelivers(c: P.Chan<Event>, i: P.Item<Event>)
    ensures P.Events(P.Offer(c, i).buf) == Delivered(P.Events(c.buf), c.cap, i.event)
  {
    assert P.Events(c.buf + [i]) == P.Events(c.buf) + [i.event];
  }
}
