/** EventStream as a method over a broker object that the rest of the process uses meanwhile: it
    refines the loop as values, and leaves every other subscriber where it would be anyway. */
module EventServer {
  import opened Text
  import opened Broker
  import opened EventStream

  // ---- the other subscribers ---------------------------------------------------------------------

  /** A subscriber of the beginning: what its channel holds, and whether it has left. */
  datatype Subscriber = Subscriber(buf: seq<Event>, left: bool)

  /** What others' doings make of it: publications go into its channel until it leaves, and it takes
      from the front, also what is left there after leaving. */
  function Next(x: Subscription, s: Subscriber, d: Deed): Subscriber {
    match d
    case Publish(e, now) => if s.left then s else s.(buf := Delivered(s.buf, x.cap, Stamped(e, now)))
    case Leave(y) => if y == x then s.(left := true) else s
    case Take(y) => if y == x && s.buf != [] then s.(buf := s.buf[1..]) else s
    case _ => s
  }

  function Advanced(first: map<Subscription, Subscriber>, d: Deed): map<Subscription, Subscriber> {
    map x | x in first :: Next(x, first[x], d)
  }

  function AdvancedBy(first: map<Subscription, Subscriber>, t: Turn): map<Subscription, Subscriber> {
    if t.Other? then Advanced(first, t.deed) else first
  }

  /** The same after all of it, as if this stream were not there. */
  function AdvancedAll(first: map<Subscription, Subscriber>, turns: seq<Turn>): map<Subscription, Subscriber> {
    if turns == [] then first else AdvancedBy(AdvancedAll(first, turns[..|turns| - 1]), turns[|turns| - 1])
  }

  function JoinedBy(t: Turn): nat {
    if t.Other? && t.deed.Join? then 1 else 0
  }

  function Joined(turns: seq<Turn>): nat {
    if turns == [] then 0 else Joined(turns[..|turns| - 1]) + JoinedBy(turns[|turns| - 1])
  }

  lemma TakenNext(first: map<Subscription, Subscriber>, taken: seq<Turn>, t: Turn)
    ensures AdvancedAll(first, taken + [t]) == AdvancedBy(AdvancedAll(first, taken), t)
    ensures Joined(taken + [t]) == Joined(taken) + JoinedBy(t)
  {
    assert (taken + [t])[..|taken|] == taken;
  }

  lemma {:induction false} KeysStay(first: map<Subscription, Subscriber>, turns: seq<Turn>)
    ensures AdvancedAll(first, turns).Keys == first.Keys
  {
    if turns != [] {
      KeysStay(first, turns[..|turns| - 1]);
    }
  }

  /** The subscribers of the beginning are as expected: members and open unless they have left,
      with nothing in their channels but what others published and they have not taken. */
  ghost predicate Undisturbed(b: Broker, expected: map<Subscription, Subscriber>)
    reads b, expected.Keys
  {
    forall x :: x in expected ==>
      x.buf == expected[x].buf && (x.closed <==> expected[x].left) && (x in b.subs <==> !expected[x].left)
  }

  /** Besides those and our own, the broker has exactly the newcomers. */
  ghost predicate NewcomersStay(b: Broker, own: Subscription?, first: set<Subscription>,
                                newcomers: set<Subscription>)
    reads b
  {
    && newcomers <= b.subs && newcomers !! first && own !in newcomers
    && forall x :: x in b.subs ==> x in first || x in newcomers || x == own
  }

  /** The object's part of the loop state. */
  ghost predicate Agrees(l: Loop, b: Broker, own: Subscription?)
    reads b, own
  {
    && (own == null ==> !l.member && !l.audit && l.buf == [])
    && (own != null ==> own.buf == l.buf && (l.member <==> own in b.subs) && (l.member <==> !own.closed)
                        && own.cap == SUBSCRIPTION_BUFFER)
  }

  /** The broker and our own subscription while the loop is at l. */
  ghost predicate Around(b: Broker, own: Subscription?, expected: map<Subscription, Subscriber>,
                         newcomers: set<Subscription>, l: Loop)
    reads b, b.subs, own, expected.Keys
  {
    && b.Valid() && own !in expected && Agrees(l, b, own)
    && Undisturbed(b, expected) && NewcomersStay(b, own, expected.Keys, newcomers)
  }

  // ---- what others do --------------------------------------------------------------------------

  method OthersPublish(b: Broker, own: Subscription?, e: Event, now: int, ghost l: Loop,
                       ghost expected: map<Subscription, Subscriber>, ghost newcomers: set<Subscription>)
    requires Around(b, own, expected, newcomers, l)
    modifies b.subs`buf
    ensures Around(b, own, Advanced(expected, Publish(e, now)), newcomers, OnDeed(l, Publish(e, now)))
  {
    b.Publish(e, now);
  }

  method OtherLeaves(b: Broker, own: Subscription?, others: set<Subscription>, x: Subscription, ghost l: Loop,
                     ghost expected: map<Subscription, Subscriber>, ghost newcomers: set<Subscription>)
    requires Around(b, own, expected, newcomers, l) && others == expected.Keys
    modifies b, others
    ensures Around(b, own, Advanced(expected, Leave(x)), newcomers, OnDeed(l, Leave(x)))
  {
    if x in others {
      b.Cancel(x);
    }
  }

  method OtherJoins(b: Broker, own: Subscription?, bufSize: int, ghost l: Loop,
                    ghost expected: map<Subscription, Subscriber>, ghost newcomers: set<Subscription>)
    returns (ghost newcomers': set<Subscription>)
    requires Around(b, own, expected, newcomers, l)
    modifies b
    ensures Around(b, own, Advanced(expected, Join(bufSize)), newcomers', OnDeed(l, Join(bufSize)))
    ensures fresh(newcomers' - newcomers) && |newcomers'| == |newcomers| + 1
  {
    var x := b.Subscribe(bufSize);
    newcomers' := newcomers + {x};
  }

  method OtherTakes(b: Broker, own: Subscription?, others: set<Subscription>, x: Subscription, ghost l: Loop,
                    ghost expected: map<Subscription, Subscriber>, ghost newcomers: set<Subscription>)
    requires Around(b, own, expected, newcomers, l) && others == expected.Keys
    modifies others
    ensures Around(b, own, Advanced(expected, Take(x)), newcomers, OnDeed(l, Take(x)))
  {
    if x in others && x.buf != [] {
      var e := x.Receive();
    }
  }

  method OthersCancelOurs(b: Broker, own: Subscription?, ghost l: Loop,
                          ghost expected: map<Subscription, Subscriber>, ghost newcomers: set<Subscription>)
    requires Around(b, own, expected, newcomers, l)
    modifies b, b.subs
    ensures Around(b, own, Advanced(expected, CancelOurs), newcomers, OnDeed(l, CancelOurs))
  {
    if own != null && own in b.subs {
      b.Cancel(own);
    }
  }

  method OthersDo(b: Broker, own: Subscription?, others: set<Subscription>, d: Deed, ghost l: Loop,
                  ghost expected: map<Subscription, Subscriber>, ghost newcomers: set<Subscription>)
    returns (ghost newcomers': set<Subscription>)
    requires Around(b, own, expected, newcomers, l) && others == expected.Keys
    modifies b, b.subs, others
    ensures Around(b, own, Advanced(expected, d), newcomers', OnDeed(l, d))
    ensures fresh(newcomers' - newcomers) && |newcomers'| == |newcomers| + (if d.Join? then 1 else 0)
  {
    newcomers' := newcomers;
    match d
    case Publish(e, now) => OthersPublish(b, own, e, now, l, expected, newcomers);
    case Leave(x) => OtherLeaves(b, own, others, x, l, expected, newcomers);
    case Join(bufSize) => newcomers' := OtherJoins(b, own, bufSize, l, expected, newcomers);
    case Take(x) => OtherTakes(b, own, others, x, l, expected, newcomers);
    case CancelOurs => OthersCancelOurs(b, own, l, expected, newcomers);
  }

  // ---- the select -----------------------------------------------------------------------------

  /** The watch arm of the select, with the check that follows a Send. */
  method WatchArm(ghost l: Loop, item: Option<WatchItem>, sendOk: bool, kindFilter: string,
                  k8sCh0: bool, auditCh: bool, sent0: seq<Out>)
    returns (k8sCh: bool, outcome: Outcome, sent: seq<Out>)
    requires l.outcome.Running? && l.k8s == k8sCh0 && l.audit == auditCh && l.sent == sent0
    ensures var l' := OnWatch(l, item, sendOk, kindFilter);
            k8sCh == l'.k8s && outcome == l'.outcome && sent == l'.sent
    ensures if k8sCh0 && sendOk && item.Some? && item.value.CoreEvent?
               && (kindFilter == "" || item.value.event.kind == kindFilter)
            then |sent| == |sent0| + 1 && sent0 <= sent && DescribesK8s(sent[|sent0|], item.value.event)
            else sent == sent0
  {
    if item.Some? && item.value.CoreEvent? {
      K8sDescribed(item.value.event);
    }
    k8sCh, outcome, sent := k8sCh0, Running, sent0;
    if !k8sCh { return; }
    if item.None? {
      k8sCh := false;
      return;
    }
    if item.value.OtherObject? { return; }
    var ke := item.value.event;
    if kindFilter != "" && ke.kind != kindFilter { return; }
    if !sendOk {
      outcome := SendFailed;
      return;
    }
    sent := sent + [BuildK8sEvent(ke)];
    if !k8sCh && !auditCh {
      outcome := BothGone;
    }
  }

  /** The audit arm: an open, empty channel is not ready. */
  method AuditArm(ghost l: Loop, b: Broker, own: Subscription?, sendOk: bool, kindFilter: string,
                  k8sCh: bool, auditCh0: bool, sent0: seq<Out>)
    returns (auditCh: bool, outcome: Outcome, sent: seq<Out>)
    requires b.Valid() && l.outcome.Running? && Agrees(l, b, own)
    requires l.k8s == k8sCh && l.audit == auditCh0 && l.sent == sent0
    modifies if own == null then {} else {own}
    ensures b.Valid() && b.subs == old(b.subs)
    ensures var l' := OnAudit(l, sendOk, kindFilter);
            Agrees(l', b, own) && auditCh == l'.audit && outcome == l'.outcome && sent == l'.sent
    ensures if auditCh0 && sendOk && l.buf != [] && (kindFilter == "" || l.buf[0].kind == kindFilter)
            then |sent| == |sent0| + 1 && sent0 <= sent && DescribesAudit(sent[|sent0|], l.buf[0])
            else sent == sent0
  {
    auditCh, outcome, sent := auditCh0, Running, sent0;
    if !auditCh { return; }
    if own.buf == [] {
      if own.closed {
        auditCh := false;
      }
      return;
    }
    var ae := own.Receive();
    if kindFilter != "" && ae.kind != kindFilter { return; }
    if !sendOk {
      outcome := SendFailed;
      return;
    }
    sent := sent + [BuildAuditEvent(ae)];
    if !k8sCh && !auditCh {
      outcome := BothGone;
    }
  }

  /** The variables of the running loop agree with its values. */
  predicate Tracks(l: Loop, k8sCh: bool, auditCh: bool, outcome: Outcome, sent: seq<Out>) {
    k8sCh == l.k8s && auditCh == l.audit && outcome == l.outcome && sent == l.sent
  }

  /** One round of the select: whichever arm is taken. */
  method TakeTurn(b: Broker, own: Subscription?, turn: Turn, kindFilter: string,
                  k8sCh0: bool, auditCh0: bool, sent0: seq<Out>, ghost l: Loop)
    returns (k8sCh: bool, auditCh: bool, outcome: Outcome, sent: seq<Out>)
    requires b.Valid() && Agrees(l, b, own) && Tracks(l, k8sCh0, auditCh0, Running, sent0) && !turn.Other?
    modifies if own == null then {} else {own}
    ensures b.Valid() && b.subs == old(b.subs)
    ensures var l' := Turned(l, turn, kindFilter);
            Agrees(l', b, own) && Tracks(l', k8sCh, auditCh, outcome, sent)
  {
    k8sCh, auditCh, outcome, sent := k8sCh0, auditCh0, Running, sent0;
    ghost var l1 := l.(taken := l.taken + [turn]);
    match turn
    case CtxDone => outcome := Cancelled;
    case WatchReady(item, sendOk) =>
      k8sCh, outcome, sent := WatchArm(l1, item, sendOk, kindFilter, k8sCh, auditCh, sent);
    case AuditReady(sendOk) =>
      auditCh, outcome, sent := AuditArm(l1, b, own, sendOk, kindFilter, k8sCh, auditCh, sent);
  }

  /** The select leaves the others alone. */
  method Select(b: Broker, own: Subscription?, turn: Turn, kindFilter: string,
                k8sCh0: bool, auditCh0: bool, sent0: seq<Out>, ghost l: Loop,
                ghost expected: map<Subscription, Subscriber>, ghost newcomers: set<Subscription>)
    returns (k8sCh: bool, auditCh: bool, outcome: Outcome, sent: seq<Out>)
    requires Around(b, own, expected, newcomers, l) && Tracks(l, k8sCh0, auditCh0, Running, sent0) && !turn.Other?
    modifies if own == null then {} else {own}
    ensures var l' := Turned(l, turn, kindFilter);
            Around(b, own, expected, newcomers, l') && Tracks(l', k8sCh, auditCh, outcome, sent)
  {
    k8sCh, auditCh, outcome, sent := TakeTurn(b, own, turn, kindFilter, k8sCh0, auditCh0, sent0, l);
    assert Undisturbed(b, expected) by {
      forall x | x in expected ensures x.buf == old(x.buf) && x.closed == old(x.closed) {
      }
    }
  }

  method OneTurn(b: Broker, own: Subscription?, others: set<Subscription>, turn: Turn, kindFilter: string,
                 k8sCh0: bool, auditCh0: bool, sent0: seq<Out>, ghost l: Loop,
                 ghost expected: map<Subscription, Subscriber>, ghost newcomers: set<Subscription>)
    returns (k8sCh: bool, auditCh: bool, outcome: Outcome, sent: seq<Out>, ghost newcomers': set<Subscription>)
    requires Around(b, own, expected, newcomers, l) && Tracks(l, k8sCh0, auditCh0, Running, sent0)
    requires others == expected.Keys
    modifies b, b.subs, others
    modifies if own == null then {} else {own}
    ensures fresh(newcomers' - newcomers) && |newcomers'| == |newcomers| + JoinedBy(turn)
    ensures var l' := Turned(l, turn, kindFilter);
            && Around(b, own, AdvancedBy(expected, turn), newcomers', l')
            && Tracks(l', k8sCh, auditCh, outcome, sent)
  {
    k8sCh, auditCh, outcome, sent, newcomers' := k8sCh0, auditCh0, Running, sent0, newcomers;
    if turn.Other? {
      newcomers' := OthersDo(b, own, others, turn.deed, l.(taken := l.taken + [turn]), expected, newcomers);
    } else {
      k8sCh, auditCh, outcome, sent := Select(b, own, turn, kindFilter, k8sCh, auditCh, sent, l, expected, newcomers);
    }
  }

  // ---- the loop ---------------------------------------------------------------------------------

  /** How far the loop has come after i turns: at l, with the others as after the turns taken. */
  ghost predicate GoneRound(kindFilter: string, turns: seq<Turn>, i: nat, start: Loop, l: Loop,
                            first: map<Subscription, Subscriber>, expected: map<Subscription, Subscriber>, joined: nat)
    requires i <= |turns|
  {
    && LoopOn(l, kindFilter, turns, i) == LoopOn(start, kindFilter, turns, 0)
    && expected == AdvancedAll(first, l.taken) && expected.Keys == first.Keys && joined == Joined(l.taken)
  }

  lemma GoneFurther(kindFilter: string, turns: seq<Turn>, i: nat, start: Loop, l: Loop,
                    first: map<Subscription, Subscriber>, expected: map<Subscription, Subscriber>, joined: nat)
    requires i < |turns| && GoneRound(kindFilter, turns, i, start, l, first, expected, joined) && l.outcome.Running?
    ensures GoneRound(kindFilter, turns, i + 1, start, Turned(l, turns[i], kindFilter), first,
                      AdvancedBy(expected, turns[i]), joined + JoinedBy(turns[i]))
  {
    TurnIsTaken(l, turns[i], kindFilter);
    TakenNext(first, l.taken, turns[i]);
  }

  lemma GoneAllRound(kindFilter: string, turns: seq<Turn>, i: nat, start: Loop, l: Loop,
                     first: map<Subscription, Subscriber>, expected: map<Subscription, Subscriber>, joined: nat)
    requires i <= |turns| && GoneRound(kindFilter, turns, i, start, l, first, expected, joined)
    requires i < |turns| ==> !l.outcome.Running?
    ensures l == LoopOn(start, kindFilter, turns, 0)
  {
    if i < |turns| {
      LoopOnStopped(l, kindFilter, turns, i);
    }
  }

  /** The loop over the turns, from a broker whose subscribers are the first ones. */
  method GoRound(b: Broker, own: Subscription?, others: set<Subscription>, kindFilter: string, turns: seq<Turn>,
                 k8sCh0: bool, auditCh0: bool, ghost start: Loop, ghost first: map<Subscription, Subscriber>)
    returns (outcome: Outcome, sent: seq<Out>, ghost newcomers: set<Subscription>)
    requires Around(b, own, first, {}, start) && Tracks(start, k8sCh0, auditCh0, Running, []) && start.taken == []
    requires others == first.Keys
    modifies b, b.subs, others
    modifies if own == null then {} else {own}
    ensures var l := LoopOn(start, kindFilter, turns, 0);
            && Around(b, own, AdvancedAll(first, l.taken), newcomers, l) && outcome == l.outcome && sent == l.sent
            && |newcomers| == Joined(l.taken)
  {
    var k8sCh, auditCh := k8sCh0, auditCh0;
    outcome, sent, newcomers := Running, [], {};
    ghost var l, expected := start, first;
    var i := 0;
    while i < |turns| && outcome.Running?
      invariant 0 <= i <= |turns|
      invariant GoneRound(kindFilter, turns, i, start, l, first, expected, |newcomers|) && fresh(newcomers)
      invariant Around(b, own, expected, newcomers, l) && Tracks(l, k8sCh, auditCh, outcome, sent)
    {
      GoneFurther(kindFilter, turns, i, start, l, first, expected, |newcomers|);
      k8sCh, auditCh, outcome, sent, newcomers :=
        OneTurn(b, own, others, turns[i], kindFilter, k8sCh, auditCh, sent, l, expected, newcomers);
      expected, l, i := AdvancedBy(expected, turns[i]), Turned(l, turns[i], kindFilter), i + 1;
    }
    GoneAllRound(kindFilter, turns, i, start, l, first, expected, |newcomers|);
  }

  ghost function Present(xs: set<Subscription>): map<Subscription, Subscriber>
    reads xs
  {
    map x | x in xs :: Subscriber(x.buf, false)
  }

  /** The deferred cancel: our own subscription goes, and nothing else changes. */
  method GiveBack(b: Broker, own: Subscription, ghost expected: map<Subscription, Subscriber>,
                  ghost newcomers: set<Subscription>)
    requires b.Valid() && own !in expected && (own in b.subs <==> !own.closed)
    requires Undisturbed(b, expected) && NewcomersStay(b, own, expected.Keys, newcomers)
    modifies b, own`closed
    ensures b.Valid() && own !in b.subs && own.closed
    ensures Undisturbed(b, expected) && NewcomersStay(b, own, expected.Keys, newcomers)
  {
    b.Cancel(own);
    assert Undisturbed(b, expected) by {
      forall x | x in expected
        ensures x.buf == old(x.buf) && x.closed == old(x.closed) && (x in b.subs <==> x in old(b.subs))
      {
      }
    }
  }

  /** Subscribe if asked to. */
  method JoinIn(b: Broker, source: string, ghost first: map<Subscription, Subscriber>) returns (own: Subscription?)
    requires b.Valid() && first == Present(b.subs)
    modifies b
    ensures Around(b, own, first, {}, Start(source)) && fresh(b.subs - old(b.subs))
    ensures (own != null <==> Wants(source, "audit")) && (own != null ==> fresh(own))
  {
    own := null;
    if source == "" || source == "audit" {
      own := b.Subscribe(0);
    }
  }

  lemma WhatIsSent(source: string, kindFilter: string, turns: seq<Turn>)
    ensures forall o :: o in LoopAfter(source, kindFilter, turns).sent ==>
              && (kindFilter == "" || o.kind == kindFilter)
              && (o.source == K8s ==> source == "" || source == "k8s")
              && (o.source == Audit ==> (source == "" || source == "audit") && o.timestamp.Some?)
  {
    var l := LoopAfter(source, kindFilter, turns);
    StaysFaithful(source, kindFilter, turns);
    forall o | o in l.sent
      ensures kindFilter == "" || o.kind == kindFilter
      ensures o.source == K8s ==> source == "" || source == "k8s"
      ensures o.source == Audit ==> (source == "" || source == "audit") && o.timestamp.Some?
    {
      SentWasHanded(l, o);
      MessagesComeFromEvents(source, kindFilter, turns, o);
    }
  }

  /** EventStream: it sends what the loop over the same turns says; whichever way it ends it gives
      back its own subscription, if it took one; and it touches no other. Those there at the
      beginning are members and open unless they left by themselves, their channels hold what
      others published and they have not taken, and whoever joined meanwhile is still a member. */
  method Serve(b: Broker, source: string, kindFilter: string, watchOk: bool, turns: seq<Turn>)
    returns (outcome: Outcome, sent: seq<Out>, own: Subscription?, ghost newcomers: set<Subscription>)
    requires b.Valid()
    modifies b, b.subs
    ensures b.Valid() && (own != null ==> fresh(own))
    ensures outcome.WatchFailed? <==> !watchOk && (source == "" || source == "k8s")
    ensures outcome.WatchFailed? ==>
              own == null && sent == [] && b.subs == old(b.subs) && Undisturbed(b, old(Present(b.subs)))
    ensures !outcome.WatchFailed? ==>
              var l := LoopAfter(source, kindFilter, turns);
              && outcome == l.outcome && sent == l.sent && (own != null <==> source == "" || source == "audit")
              && Undisturbed(b, AdvancedAll(old(Present(b.subs)), l.taken))
              && NewcomersStay(b, own, old(b.subs), newcomers) && |newcomers| == Joined(l.taken)
              && (own != null && outcome.Running? ==> (own in b.subs <==> l.member))
              && (own != null && !outcome.Running? ==> own !in b.subs && own.closed)
    ensures forall o :: o in sent ==>
              && (kindFilter == "" || o.kind == kindFilter)
              && (o.source == K8s ==> source == "" || source == "k8s")
              && (o.source == Audit ==> (source == "" || source == "audit") && o.timestamp.Some?)
  {
    sent, own, newcomers := [], null, {};
    if source == "" || source == "k8s" {
      if !watchOk {
        return WatchFailed, sent, own, newcomers;
      }
    }
    var others := b.subs;
    ghost var first := Present(b.subs);
    own := JoinIn(b, source, first);
    outcome, sent, newcomers :=
      GoRound(b, own, others, kindFilter, turns, Wants(source, "k8s"), own != null, Start(source), first);
    assert turns[..0] == [];
    LoopOnIsLoopAfter(source, kindFilter, turns, 0);
    StaysFaithful(source, kindFilter, turns);
    ghost var l := LoopAfter(source, kindFilter, turns);
    WhatIsSent(source, kindFilter, turns);
    KeysStay(first, l.taken);
    if !outcome.Running? && own != null {
      GiveBack(b, own, AdvancedAll(first, l.taken), newcomers);
    }
  }
}
