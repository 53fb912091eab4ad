/** The audit broker of internal/audit/broker.go as a concurrent protocol: any number of
    publishers hold the read lock and deliver subscriber by subscriber, Subscribe and
    cancel take the write lock, and receivers drain their channels without any lock.
    An action that is not enabled leaves the state alone, so every sequence of actions is
    a run and a run is any interleaving the lock allows. */
module BrokerProtocol {
  import opened Lists

  /** The n-th publication of publisher pid. */
  datatype Item<+E> = Item(pid: nat, n: nat, event: E)

  /** A subscription's channel with its history: what was tried, what got in, what was taken
      out, and what each publisher had published when the subscription began and ended. */
  datatype Chan<+E> = Chan(
    cap: nat, buf: seq<Item<E>>, closed: bool, closes: nat,
    attempts: seq<Item<E>>, accepted: seq<Item<E>>, received: seq<Item<E>>, dropped: nat,
    begin: map<nat, seq<E>>, end: map<nat, seq<E>>)

  datatype WriteOp = Add(sid: nat, bufSize: int) | Cancel(sid: nat)
  datatype Writer = Idle | Pending(op: WriteOp) | Finished

  /** A publisher between RLock and RUnlock: its event and the subscribers it has yet to visit. */
  datatype Publishing<+E> = Publishing(item: Item<E>, todo: set<nat>)

  datatype State<+E> = State(
    subs: set<nat>, chans: map<nat, Chan<E>>, readers: map<nat, Publishing<E>>,
    published: map<nat, seq<E>>, writer: Writer, panics: nat)

  datatype Action<+E> =
    | RLock(pid: nat, event: E)
    | Send(pid: nat, sid: nat)
    | RUnlock(pid: nat)
    | Lock(op: WriteOp)
    | Write
    | Unlock
    | Receive(sid: nat)

  function Init<E>(): State<E> {
    State({}, map[], map[], map[], Idle, 0)
  }

  function PublishedBy<E>(m: map<nat, seq<E>>, pid: nat): seq<E> {
    if pid in m then m[pid] else []
  }

  function Count<E>(m: map<nat, seq<E>>, pid: nat): nat {
    |PublishedBy(m, pid)|
  }

  function Capacity(bufSize: int): (cap: nat)
    ensures cap > 0
    ensures bufSize > 0 ==> cap == bufSize
  {
    if bufSize <= 0 then 64 else bufSize
  }

  predicate Enabled<E>(s: State<E>, a: Action<E>) {
    match a
    case RLock(pid, _) => s.writer.Idle? && pid !in s.readers
    case Send(pid, sid) => pid in s.readers && sid in s.readers[pid].todo && sid in s.chans
    case RUnlock(pid) => pid in s.readers && s.readers[pid].todo == {}
    case Lock(op) =>
      s.writer.Idle? && s.readers.Keys == {} && (if op.Add? then op.sid !in s.chans else op.sid in s.chans)
    case Write => s.writer.Pending?
    case Unlock => s.writer.Finished?
    case Receive(sid) => sid in s.chans && s.chans[sid].buf != []
  }

  /** The select with a default arm: a full buffer loses the event for this subscriber only. */
  function Offer<E>(c: Chan<E>, i: Item<E>): Chan<E> {
    if |c.buf| < c.cap
    then c.(buf := c.buf + [i], attempts := c.attempts + [i], accepted := c.accepted + [i])
    else c.(attempts := c.attempts + [i], dropped := c.dropped + 1)
  }

  function Apply<E>(s: State<E>, a: Action<E>): State<E>
    requires Enabled(s, a)
  {
    match a
    case RLock(pid, e) =>
      s.(readers := s.readers[pid := Publishing(Item(pid, Count(s.published, pid), e), s.subs)],
         published := s.published[pid := PublishedBy(s.published, pid) + [e]])
    case Send(pid, sid) =>
      var p := s.readers[pid];
      var s' := s.(readers := s.readers[pid := p.(todo := p.todo - {sid})]);
      if s.chans[sid].closed then s'.(panics := s.panics + 1)
      else s'.(chans := s.chans[sid := Offer(s.chans[sid], p.item)])
    case RUnlock(pid) => s.(readers := s.readers - {pid})
    case Lock(op) => s.(writer := Pending(op))
    case Write =>
      var s' := s.(writer := Finished);
      (match s.writer.op
       case Add(sid, bufSize) =>
         s'.(subs := s.subs + {sid},
             chans := s.chans[sid := Chan(Capacity(bufSize), [], false, 0, [], [], [], 0, s.published, map[])])
       case Cancel(sid) =>
         if sid !in s.subs || sid !in s.chans then s'
         else
           var c := s.chans[sid];
           s'.(subs := s.subs - {sid},
               chans := s.chans[sid := c.(closed := true, closes := c.closes + 1, end := s.published)],
               panics := s.panics + (if c.closed then 1 else 0)))
    case Unlock => s.(writer := Idle)
    case Receive(sid) =>
      var c := s.chans[sid];
      s.(chans := s.chans[sid := c.(buf := c.buf[1..], received := c.received + [c.buf[0]])])
  }

  function Step<E>(s: State<E>, a: Action<E>): State<E> {
    if Enabled(s, a) then Apply(s, a) else s
  }

  function Run<E>(run: seq<Action<E>>): State<E> {
    if run == [] then Init() else Step(Run(run[..|run| - 1]), run[|run| - 1])
  }

  // ---- what holds in every reachable state --------------------------------------------------

  /** The publications of pid numbered lo to hi - 1 are exactly the items of s, in order. */
  ghost predicate Consecutive<E>(s: seq<Item<E>>, pid: nat, lo: nat, hi: nat) {
    && |s| + lo == hi
    && forall i :: 0 <= i < |s| ==> s[i].pid == pid && s[i].n == lo + i
  }

  function OfPublisher<E>(s: seq<Item<E>>, pid: nat): seq<Item<E>> {
    Filter(s, (i: Item<E>) => i.pid == pid)
  }

  /** How far pid's publications have come for subscriber sid: all those begun, less one
      still on its way; for a cancelled subscription, those begun before the cancel. */
  function Reached<E>(s: State<E>, sid: nat, pid: nat): int
    requires sid in s.chans
  {
    if s.chans[sid].closed then Count(s.chans[sid].end, pid)
    else Count(s.published, pid) - (if pid in s.readers && sid in s.readers[pid].todo then 1 else 0)
  }

  ghost predicate LockInv<E>(s: State<E>) {
    && (s.writer.Idle? || s.readers.Keys == {})
    && (s.writer.Pending? && s.writer.op.Add? ==> s.writer.op.sid !in s.chans)
    && (forall pid :: pid in s.readers ==>
          && s.readers[pid].todo <= s.subs
          && s.readers[pid].item.pid == pid
          && s.readers[pid].item.n + 1 == Count(s.published, pid))
  }

  ghost predicate ChannelInv<E>(s: State<E>) {
    && s.panics == 0
    && s.subs <= s.chans.Keys
    && forall sid :: sid in s.chans ==>
         && s.chans[sid].closes == (if s.chans[sid].closed then 1 else 0)
         && (s.chans[sid].closed <==> sid !in s.subs)
  }

  ghost predicate Accounts<E>(c: Chan<E>) {
    && |c.buf| <= c.cap && c.cap > 0
    && c.accepted == c.received + c.buf
    && |c.attempts| == |c.received| + |c.buf| + c.dropped
    && Subsequence(c.accepted, c.attempts)
    && (c.dropped == 0 ==> c.accepted == c.attempts)
  }

  ghost predicate AccountInv<E>(s: State<E>) {
    forall sid :: sid in s.chans ==> Accounts(s.chans[sid])
  }

  lemma LockKept<E>(s: State<E>, a: Action<E>)
    requires LockInv(s) && s.subs <= s.chans.Keys
    ensures LockInv(Step(s, a))
  {
  }

  lemma ChannelKept<E>(s: State<E>, a: Action<E>)
    requires LockInv(s) && ChannelInv(s)
    ensures ChannelInv(Step(s, a))
  {
  }

  lemma LockStep<E>(s: State<E>, a: Action<E>)
    requires LockInv(s) && ChannelInv(s)
    ensures LockInv(Step(s, a)) && ChannelInv(Step(s, a))
  {
    LockKept(s, a);
    ChannelKept(s, a);
  }

  lemma OfferAccounts<E>(c: Chan<E>, i: Item<E>)
    requires Accounts(c)
    ensures Accounts(Offer(c, i))
  {
    if |c.buf| < c.cap {
      SubsequenceKeep(c.accepted, c.attempts, i);
      assert c.received + (c.buf + [i]) == (c.received + c.buf) + [i];
    } else {
      SubsequenceSkip(c.accepted, c.attempts, i);
    }
  }

  lemma TakeAccounts<E>(c: Chan<E>)
    requires Accounts(c) && c.buf != []
    ensures Accounts(c.(buf := c.buf[1..], received := c.received + [c.buf[0]]))
  {
    assert (c.received + [c.buf[0]]) + c.buf[1..] == c.received + c.buf;
  }

  lemma AccountStep<E>(s: State<E>, a: Action<E>)
    requires AccountInv(s)
    ensures AccountInv(Step(s, a))
  {
    if Enabled(s, a) {
      match a
      case Send(pid, sid) => OfferAccounts(s.chans[sid], s.readers[pid].item);
      case Receive(sid) => TakeAccounts(s.chans[sid]);
      case _ =>
    }
  }

  ghost predicate InOrder<E>(s: State<E>, sid: nat, pid: nat)
    requires sid in s.chans
  {
    && Count(s.chans[sid].begin, pid) <= Reached(s, sid, pid)
    && Consecutive(OfPublisher(s.chans[sid].attempts, pid), pid, Count(s.chans[sid].begin, pid), Reached(s, sid, pid))
  }

  ghost predicate OrderInv<E>(s: State<E>) {
    forall sid, pid :: sid in s.chans ==> InOrder(s, sid, pid)
  }

  /** The subscriber being visited advances by one for the visiting publisher. */
  lemma OrderSend<E>(s: State<E>, a: Action<E>, pid: nat)
    requires LockInv(s) && ChannelInv(s) && a.Send? && Enabled(s, a) && InOrder(s, a.sid, pid)
    ensures InOrder(Step(s, a), a.sid, pid)
  {
    var c, i := s.chans[a.sid], s.readers[a.pid].item;
    assert !c.closed;
    FilterAppend(c.attempts, i, (j: Item<E>) => j.pid == pid);
    assert Step(s, a).chans[a.sid].attempts == c.attempts + [i];
  }

  lemma OrderWrite<E>(s: State<E>, sid: nat, pid: nat)
    requires LockInv(s) && ChannelInv(s) && s.writer.Pending?
    requires sid in s.chans ==> InOrder(s, sid, pid)
    requires sid in Step(s, Write).chans
    ensures InOrder(Step(s, Write), sid, pid)
  {
  }

  lemma OrderElsewhere<E>(s: State<E>, a: Action<E>, sid: nat, pid: nat)
    requires LockInv(s) && ChannelInv(s) && sid in s.chans && InOrder(s, sid, pid)
    requires Enabled(s, a) && !a.Write? && (a.Send? ==> a.sid != sid)
    ensures InOrder(Step(s, a), sid, pid)
  {
    var s' := Step(s, a);
    assert s'.chans[sid].attempts == s.chans[sid].attempts;
    assert Reached(s', sid, pid) == Reached(s, sid, pid);
  }

  lemma OrderStep<E>(s: State<E>, a: Action<E>)
    requires LockInv(s) && ChannelInv(s) && OrderInv(s)
    ensures OrderInv(Step(s, a))
  {
    forall sid, pid | sid in Step(s, a).chans ensures InOrder(Step(s, a), sid, pid) {
      if Enabled(s, a) {
        if a.Write? {
          OrderWrite(s, sid, pid);
        } else if a.Send? && a.sid == sid {
          OrderSend(s, a, pid);
        } else {
          OrderElsewhere(s, a, sid, pid);
        }
      }
    }
  }

  lemma {:induction false} Reachable<E>(run: seq<Action<E>>)
    ensures LockInv(Run(run)) && ChannelInv(Run(run)) && AccountInv(Run(run)) && OrderInv(Run(run))
  {
    if run != [] {
      var init, a := run[..|run| - 1], run[|run| - 1];
      Reachable(init);
      LockStep(Run(init), a);
      AccountStep(Run(init), a);
      OrderStep(Run(init), a);
    }
  }

  // ---- safety -----------------------------------------------------------------------------------

  /** In every run no send meets a closed channel and no channel is closed twice (either
      would panic), however often cancel runs; members of subs are open; and while anyone
      publishes no membership change is in progress. */
  lemma BrokerSafety<E>(run: seq<Action<E>>)
    ensures var s := Run(run);
            && s.panics == 0
            && (forall pid, sid :: Enabled(s, Send(pid, sid)) ==> sid in s.subs && !s.chans[sid].closed)
            && (forall sid :: sid in s.subs ==> sid in s.chans && !s.chans[sid].closed)
            && (forall sid :: sid in s.chans ==> s.chans[sid].closes <= 1)
            && (s.readers.Keys != {} ==> s.writer.Idle?)
  {
    Reachable(run);
  }

  // ---- loss happens at a full buffer only ---------------------------------------------------------

  /** How many deliveries to sid found its buffer full. */
  function Overflows<E>(run: seq<Action<E>>, sid: nat): nat {
    if run == [] then 0
    else
      var init, a := run[..|run| - 1], run[|run| - 1];
      Overflows(init, sid)
      + (if a.Send? && a.sid == sid && Enabled(Run(init), a) && |Run(init).chans[sid].buf| == Run(init).chans[sid].cap
         then 1 else 0)
  }

  lemma {:induction false} DroppedIsOverflows<E>(run: seq<Action<E>>, sid: nat)
    ensures sid !in Run(run).chans ==> Overflows(run, sid) == 0
    ensures sid in Run(run).chans ==> Run(run).chans[sid].dropped == Overflows(run, sid)
  {
    if run != [] {
      var init := run[..|run| - 1];
      Reachable(init);
      DroppedIsOverflows(init, sid);
      DropStep(Run(init), run[|run| - 1], sid);
    }
  }

  lemma DropStep<E>(s: State<E>, a: Action<E>, sid: nat)
    requires LockInv(s) && ChannelInv(s) && AccountInv(s)
    ensures sid in s.chans ==> sid in Step(s, a).chans
    ensures sid in s.chans ==>
      Step(s, a).chans[sid].dropped == s.chans[sid].dropped
        + (if a.Send? && a.sid == sid && Enabled(s, a) && |s.chans[sid].buf| == s.chans[sid].cap then 1 else 0)
    ensures sid !in s.chans && sid in Step(s, a).chans ==> Step(s, a).chans[sid].dropped == 0
  {
  }

  /** The accounts of one subscription in every run: everything tried was received, is
      buffered, or was dropped, each drop at a moment the buffer was full. Nothing is
      missing from the stream exactly when that never happened. */
  lemma SubscriberAccounts<E>(run: seq<Action<E>>, sid: nat)
    requires sid in Run(run).chans
    ensures var c := Run(run).chans[sid];
            && |c.attempts| == |c.received| + |c.buf| + Overflows(run, sid)
            && Subsequence(c.received + c.buf, c.attempts)
            && (c.received + c.buf == c.attempts <==> Overflows(run, sid) == 0)
  {
    Reachable(run);
    DroppedIsOverflows(run, sid);
    var c := Run(run).chans[sid];
    assert Accounts(c);
    if c.received + c.buf == c.attempts {
      assert |c.received + c.buf| == |c.received| + |c.buf|;
    }
  }

  // ---- which events, in which order ------------------------------------------------------------------

  ghost predicate Genuine<E>(i: Item<E>, published: map<nat, seq<E>>) {
    i.n < Count(published, i.pid) && i.event == PublishedBy(published, i.pid)[i.n]
  }

  ghost predicate GenuineAttempts<E>(c: Chan<E>, published: map<nat, seq<E>>) {
    && (forall i :: i in c.attempts ==> Genuine(i, published))
    && (forall pid :: Count(c.end, pid) <= Count(published, pid))
  }

  ghost predicate GenuineInv<E>(s: State<E>) {
    && (forall pid :: pid in s.readers ==> Genuine(s.readers[pid].item, s.published))
    && (forall sid :: sid in s.chans ==> GenuineAttempts(s.chans[sid], s.published))
  }

  lemma PublishKeepsGenuine<E>(c: Chan<E>, published: map<nat, seq<E>>, pid: nat, e: E)
    requires GenuineAttempts(c, published)
    ensures GenuineAttempts(c, published[pid := PublishedBy(published, pid) + [e]])
  {
  }

  lemma OfferKeepsGenuine<E>(c: Chan<E>, published: map<nat, seq<E>>, i: Item<E>)
    requires GenuineAttempts(c, published) && Genuine(i, published)
    ensures GenuineAttempts(Offer(c, i), published)
  {
  }

  lemma GenuineRLock<E>(s: State<E>, pid: nat, e: E)
    requires GenuineInv(s) && Enabled(s, RLock(pid, e))
    ensures GenuineInv(Apply(s, RLock(pid, e)))
  {
    var s' := Apply(s, RLock(pid, e));
    forall sid | sid in s'.chans ensures GenuineAttempts(s'.chans[sid], s'.published) {
      PublishKeepsGenuine(s.chans[sid], s.published, pid, e);
    }
  }

  lemma GenuineSend<E>(s: State<E>, pid: nat, sid: nat)
    requires GenuineInv(s) && Enabled(s, Send(pid, sid))
    ensures GenuineInv(Apply(s, Send(pid, sid)))
  {
    OfferKeepsGenuine(s.chans[sid], s.published, s.readers[pid].item);
  }

  /** The other actions publish nothing and try nothing. */
  lemma GenuineElsewhere<E>(s: State<E>, a: Action<E>)
    requires GenuineInv(s) && Enabled(s, a) && !a.RLock? && !a.Send? && !a.Write?
    ensures GenuineInv(Apply(s, a))
  {
  }

  lemma GenuineWrite<E>(s: State<E>)
    requires GenuineInv(s) && Enabled(s, Write)
    ensures GenuineInv(Apply(s, Write))
  {
  }

  lemma GenuineStep<E>(s: State<E>, a: Action<E>)
    requires GenuineInv(s)
    ensures GenuineInv(Step(s, a))
  {
    if Enabled(s, a) {
      match a
      case RLock(pid, e) => GenuineRLock(s, pid, e);
      case Send(pid, sid) => GenuineSend(s, pid, sid);
      case Write => GenuineWrite(s);
      case _ => GenuineElsewhere(s, a);
    }
  }

  /** Every item carries the event its publisher published under that number. */
  lemma {:induction false} ItemsAreGenuine<E>(run: seq<Action<E>>)
    ensures GenuineInv(Run(run))
  {
    if run != [] {
      ItemsAreGenuine(run[..|run| - 1]);
      GenuineStep(Run(run[..|run| - 1]), run[|run| - 1]);
    }
  }

  function Events<E>(items: seq<Item<E>>): seq<E> {
    seq(|items|, k requires 0 <= k < |items| => items[k].event)
  }

  lemma {:induction false} OfPublisherOnly<E>(s: seq<Item<E>>, pid: nat)
    ensures forall i :: i in OfPublisher(s, pid) ==> i in s
  {
    if s != [] {
      OfPublisherOnly(s[..|s| - 1], pid);
      assert s == s[..|s| - 1] + [s[|s| - 1]];
    }
  }

  lemma ConsecutiveEvents<E>(got: seq<Item<E>>, pid: nat, lo: nat, hi: nat, published: map<nat, seq<E>>)
    requires Consecutive(got, pid, lo, hi) && hi <= Count(published, pid)
    requires forall i :: i in got ==> Genuine(i, published)
    ensures Events(got) == PublishedBy(published, pid)[lo..hi]
  {
    forall k | 0 <= k < |got| ensures got[k].event == PublishedBy(published, pid)[lo + k] {
      assert got[k] in got;
    }
  }

  /** What subscriber sid was offered from publisher pid, in every run: exactly pid's
      publications from the one after the subscription began up to the last that has come
      by (for a cancelled subscription, up to the cancel), each once and in pid's order. */
  lemma OfferedFromPublisher<E>(run: seq<Action<E>>, sid: nat, pid: nat)
    requires sid in Run(run).chans
    ensures var s := Run(run); var c := s.chans[sid];
            && Count(c.begin, pid) <= Reached(s, sid, pid) <= Count(s.published, pid)
            && Events(OfPublisher(c.attempts, pid))
               == PublishedBy(s.published, pid)[Count(c.begin, pid)..Reached(s, sid, pid)]
  {
    Reachable(run);
    ItemsAreGenuine(run);
    var s := Run(run);
    var c := s.chans[sid];
    assert InOrder(s, sid, pid);
    OfPublisherOnly(c.attempts, pid);
    ConsecutiveEvents(OfPublisher(c.attempts, pid), pid, Count(c.begin, pid), Reached(s, sid, pid), s.published);
  }

  /** A subscriber whose backlog never filled its buffer gets every event published while it
      was subscribed: from each publisher, what it received and still holds is exactly that
      publisher's events since the subscription, in order. */
  lemma KeepingUpMeansNoLoss<E>(run: seq<Action<E>>, sid: nat, pid: nat)
    requires sid in Run(run).chans && Overflows(run, sid) == 0
    ensures var s := Run(run); var c := s.chans[sid];
            && Count(c.begin, pid) <= Reached(s, sid, pid) <= Count(s.published, pid)
            && Events(OfPublisher(c.received + c.buf, pid))
               == PublishedBy(s.published, pid)[Count(c.begin, pid)..Reached(s, sid, pid)]
  {
    SubscriberAccounts(run, sid);
    OfferedFromPublisher(run, sid, pid);
  }

  lemma {:induction false} SubsequenceFilter<T>(a: seq<T>, b: seq<T>, p: T -> bool)
    requires Subsequence(a, b)
    ensures Subsequence(Filter(a, p), Filter(b, p))
    decreases |b|
  {
    if a != [] {
      var b', y := b[..|b| - 1], b[|b| - 1];
      if Subsequence(a, b') {
        SubsequenceFilter(a, b', p);
        SubsequenceSkip(Filter(a, p), Filter(b', p), y);
        assert Filter(b, p) == if p(y) then Filter(b', p) + [y] else Filter(b', p);
      } else {
        var a' := a[..|a| - 1];
        SubsequenceFilter(a', b', p);
        SubsequenceKeep(Filter(a', p), Filter(b', p), y);
        assert Filter(a, p) == if p(y) then Filter(a', p) + [y] else Filter(a', p);
        assert Filter(b, p) == if p(y) then Filter(b', p) + [y] else Filter(b', p);
      }
    }
  }

  /** Also with losses, a subscriber sees each publisher's events in that publisher's order
      and none of them twice. */
  lemma StreamRespectsPublisherOrder<E>(run: seq<Action<E>>, sid: nat, pid: nat)
    requires sid in Run(run).chans
    ensures var c := Run(run).chans[sid];
            Subsequence(OfPublisher(c.received + c.buf, pid), OfPublisher(c.attempts, pid))
  {
    SubscriberAccounts(run, sid);
    SubsequenceFilter(Run(run).chans[sid].received + Run(run).chans[sid].buf, Run(run).chans[sid].attempts,
                      (i: Item<E>) => i.pid == pid);
  }
}
