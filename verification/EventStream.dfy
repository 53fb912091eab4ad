/** The merged event stream of internal/service/event_stream.go: one select loop over the
    cluster's event watch and this stream's own audit subscription. */
module EventStream {
  import opened Text
  import opened Lists
  import opened Broker

  datatype K8sEvent = K8sEvent(
    etype: string, reason: string, message: string,
    lastTimestamp: Option<int>, eventTime: Option<int>, creation: Option<int>,
    kind: string, name: string, namespace: string)

  /** What a watch delivers: an event, or an object of another type (a bookmark, say). */
  datatype WatchItem = CoreEvent(event: K8sEvent) | OtherObject

  datatype Source = K8s | Audit
  datatype Out = Out(
    source: Source, otype: string, reason: string, message: string, timestamp: Option<int>,
    kind: string, name: string, namespace: string, actor: string)

  /** What the rest of the process may do to the broker while the loop runs: publish an event, an
      earlier subscriber leaving, a new one joining, an earlier one taking from its channel. A
      cancel of our own subscription is something nobody else holds the function for: the select
      has an arm for the closed channel, and StaysSubscribed says that it is never taken. */
  datatype Deed =
    | Publish(e: Event, now: int)
    | Leave(x: Subscription)
    | Join(bufSize: int)
    | Take(x: Subscription)
    | CancelOurs

  /** One thing after the other: others do something, or the select finds something, namely the
      context done, the watch (an item, or None when it has been closed) or the audit channel;
      and whether a Send made then succeeds. */
  datatype Turn =
    | Other(deed: Deed)
    | CtxDone
    | WatchReady(item: Option<WatchItem>, sendOk: bool)
    | AuditReady(sendOk: bool)

  /** How the call stands when the turns are used up. */
  datatype Outcome = Running | WatchFailed | Cancelled | SendFailed | BothGone

  /** The loop's variables; whether its subscription is still a member of the broker, and what
      its channel holds; and the history: the turns taken, what was received per source, handed
      to Send, sent. */
  datatype Loop = Loop(
    outcome: Outcome, k8s: bool, audit: bool, member: bool, buf: seq<Event>, taken: seq<Turn>,
    k8sGot: seq<K8sEvent>, auditGot: seq<Event>, handed: seq<Out>, sent: seq<Out>)

  function BuildK8sEvent(e: K8sEvent): Out {
    var ts := if e.lastTimestamp.Some? then e.lastTimestamp
              else if e.eventTime.Some? then e.eventTime else e.creation;
    Out(K8s, e.etype, e.reason, e.message, ts, e.kind, e.name, e.namespace, "")
  }

  function BuildAuditEvent(e: Event): Out {
    Out(Audit, "Audit", e.reason, e.message, e.timestamp, e.kind, e.name, e.namespace, e.actor)
  }

  /** The first of these times that is set. */
  function FirstSet(times: seq<Option<int>>): Option<int> {
    if times == [] then None else if times[0].Some? then times[0] else FirstSet(times[1..])
  }

  /** o is what a client should see of a cluster event: its object and its reason, and the first
      of its last time, its event time and its creation that is set. */
  predicate DescribesK8s(o: Out, e: K8sEvent) {
    && o.source == K8s && (o.kind, o.name, o.namespace) == (e.kind, e.name, e.namespace)
    && (o.otype, o.reason, o.message, o.actor) == (e.etype, e.reason, e.message, "")
    && o.timestamp == FirstSet([e.lastTimestamp, e.eventTime, e.creation])
  }

  predicate DescribesAudit(o: Out, e: Event) {
    && o.source == Audit && (o.kind, o.name, o.namespace) == (e.kind, e.name, e.namespace)
    && (o.otype, o.reason, o.message, o.actor) == ("Audit", e.reason, e.message, e.actor)
    && o.timestamp == e.timestamp
  }

  lemma K8sDescribed(e: K8sEvent)
    ensures DescribesK8s(BuildK8sEvent(e), e)
  {
    var times := [e.lastTimestamp, e.eventTime, e.creation];
    assert FirstSet(times[1..][1..]) == e.creation;
  }

  predicate KindPasses(kindFilter: string, kind: string) {
    kindFilter == "" || kind == kindFilter
  }

  /** The part of a stream that came from one source. */
  function From(out: seq<Out>, source: Source): seq<Out> {
    Filter(out, (o: Out) => o.source == source)
  }

  function K8sOut(got: seq<K8sEvent>, kindFilter: string): seq<Out> {
    if got == [] then []
    else
      var e := got[|got| - 1];
      K8sOut(got[..|got| - 1], kindFilter) + (if KindPasses(kindFilter, e.kind) then [BuildK8sEvent(e)] else [])
  }

  function AuditOut(got: seq<Event>, kindFilter: string): seq<Out> {
    if got == [] then []
    else
      var e := got[|got| - 1];
      AuditOut(got[..|got| - 1], kindFilter) + (if KindPasses(kindFilter, e.kind) then [BuildAuditEvent(e)] else [])
  }

  /** out is an order-preserving shuffle of what the two sources yielded after the filter. */
  ghost predicate Shuffle(out: seq<Out>, k8sGot: seq<K8sEvent>, auditGot: seq<Event>, kindFilter: string) {
    && From(out, K8s) == K8sOut(k8sGot, kindFilter)
    && From(out, Audit) == AuditOut(auditGot, kindFilter)
  }

  lemma ShuffleK8s(out: seq<Out>, k8sGot: seq<K8sEvent>, auditGot: seq<Event>, kindFilter: string, e: K8sEvent)
    requires Shuffle(out, k8sGot, auditGot, kindFilter)
    ensures !KindPasses(kindFilter, e.kind) ==> Shuffle(out, k8sGot + [e], auditGot, kindFilter)
    ensures KindPasses(kindFilter, e.kind) ==> Shuffle(out + [BuildK8sEvent(e)], k8sGot + [e], auditGot, kindFilter)
  {
    assert (k8sGot + [e])[..|k8sGot|] == k8sGot;
    FilterAppend(out, BuildK8sEvent(e), (o: Out) => o.source == K8s);
    FilterAppend(out, BuildK8sEvent(e), (o: Out) => o.source == Audit);
  }

  lemma ShuffleAudit(out: seq<Out>, k8sGot: seq<K8sEvent>, auditGot: seq<Event>, kindFilter: string, e: Event)
    requires Shuffle(out, k8sGot, auditGot, kindFilter)
    ensures !KindPasses(kindFilter, e.kind) ==> Shuffle(out, k8sGot, auditGot + [e], kindFilter)
    ensures KindPasses(kindFilter, e.kind) ==> Shuffle(out + [BuildAuditEvent(e)], k8sGot, auditGot + [e], kindFilter)
  {
    assert (auditGot + [e])[..|auditGot|] == auditGot;
    FilterAppend(out, BuildAuditEvent(e), (o: Out) => o.source == K8s);
    FilterAppend(out, BuildAuditEvent(e), (o: Out) => o.source == Audit);
  }

  // ---- the loop as values ------------------------------------------------------------------------

  const SUBSCRIPTION_BUFFER := 64

  /** What others' doings do to our own subscription. */
  function OnDeed(l: Loop, d: Deed): Loop {
    match d
    case Publish(e, now) => if l.member then l.(buf := Delivered(l.buf, SUBSCRIPTION_BUFFER, Stamped(e, now))) else l
    case CancelOurs => l.(member := false)
    case _ => l
  }

  /** Hand one message to Send; the check for vanished sources comes after a Send only. */
  function Handed(l: Loop, o: Out, sendOk: bool): Loop {
    var l' := l.(handed := l.handed + [o]);
    if !sendOk then l'.(outcome := SendFailed)
    else l'.(sent := l.sent + [o], outcome := if !l.k8s && !l.audit then BothGone else l.outcome)
  }

  function OnWatch(l: Loop, item: Option<WatchItem>, sendOk: bool, kindFilter: string): Loop {
    if !l.k8s then l // a nil channel is never ready
    else if item.None? then l.(k8s := false)
    else if item.value.OtherObject? then l
    else
      var e := item.value.event;
      var l' := l.(k8sGot := l.k8sGot + [e]);
      if KindPasses(kindFilter, e.kind) then Handed(l', BuildK8sEvent(e), sendOk) else l'
  }

  function OnAudit(l: Loop, sendOk: bool, kindFilter: string): Loop {
    if !l.audit then l
    else if l.buf == [] then (if l.member then l else l.(audit := false)) // open and empty is not ready
    else
      var e := l.buf[0];
      var l' := l.(buf := l.buf[1..], auditGot := l.auditGot + [e]);
      if KindPasses(kindFilter, e.kind) then Handed(l', BuildAuditEvent(e), sendOk) else l'
  }

  function Turned(l: Loop, t: Turn, kindFilter: string): Loop {
    if !l.outcome.Running? then l
    else
      var l' := l.(taken := l.taken + [t]);
      match t
      case Other(d) => OnDeed(l', d)
      case CtxDone => l'.(outcome := Cancelled)
      case WatchReady(item, sendOk) => OnWatch(l', item, sendOk, kindFilter)
      case AuditReady(sendOk) => OnAudit(l', sendOk, kindFilter)
  }

  predicate SendsOk(t: Turn) {
    match t
    case WatchReady(_, sendOk) => sendOk
    case AuditReady(sendOk) => sendOk
    case _ => true
  }

  predicate Wants(source: string, which: string) {
    source == "" || source == which
  }

  function Start(source: string): Loop {
    Loop(Running, Wants(source, "k8s"), Wants(source, "audit"), Wants(source, "audit"), [], [], [], [], [], [])
  }

  function LoopAfter(source: string, kindFilter: string, turns: seq<Turn>): Loop {
    if turns == [] then Start(source)
    else Turned(LoopAfter(source, kindFilter, turns[..|turns| - 1]), turns[|turns| - 1], kindFilter)
  }

  /** The loop from l on, over the turns from the i-th on. */
  function LoopOn(l: Loop, kindFilter: string, turns: seq<Turn>, i: nat): Loop
    requires i <= |turns|
    decreases |turns| - i
  {
    if i == |turns| then l else LoopOn(Turned(l, turns[i], kindFilter), kindFilter, turns, i + 1)
  }

  lemma {:induction false} LoopOnIsLoopAfter(source: string, kindFilter: string, turns: seq<Turn>, i: nat)
    requires i <= |turns|
    ensures LoopOn(LoopAfter(source, kindFilter, turns[..i]), kindFilter, turns, i)
            == LoopAfter(source, kindFilter, turns)
    decreases |turns| - i
  {
    if i == |turns| {
      assert turns[..i] == turns;
    } else {
      assert turns[..i + 1][..i] == turns[..i];
      LoopOnIsLoopAfter(source, kindFilter, turns, i + 1);
    }
  }

  /** Once the loop has returned, turns change nothing. */
  lemma {:induction false} LoopOnStopped(l: Loop, kindFilter: string, turns: seq<Turn>, i: nat)
    requires i <= |turns| && !l.outcome.Running?
    ensures LoopOn(l, kindFilter, turns, i) == l
    decreases |turns| - i
  {
    if i < |turns| {
      LoopOnStopped(l, kindFilter, turns, i + 1);
    }
  }

  // ---- what every run of the loop keeps -----------------------------------------------------------

  /** All that was handed to Send was sent, short of the one whose Send failed. */
  ghost predicate SentAll(l: Loop) {
    if l.outcome.SendFailed? then |l.handed| == |l.sent| + 1 && l.sent == l.handed[..|l.sent|]
    else l.sent == l.handed
  }

  ghost predicate Faithful(l: Loop, kindFilter: string) {
    && Shuffle(l.handed, l.k8sGot, l.auditGot, kindFilter) && SentAll(l)
    && l.outcome != BothGone && l.outcome != WatchFailed
  }

  lemma HandedKeeps(l: Loop, o: Out, sendOk: bool)
    requires l.sent == l.handed && l.outcome.Running? && (l.k8s || l.audit)
    ensures var l' := Handed(l, o, sendOk);
            && l'.handed == l.handed + [o] && l'.k8sGot == l.k8sGot && l'.auditGot == l.auditGot
            && l'.outcome == (if sendOk then Running else SendFailed) && SentAll(l')
  {
  }

  /** Receiving e and, if it passes the filter, handing on its message. */
  lemma HandedK8s(l: Loop, e: K8sEvent, sendOk: bool, kindFilter: string)
    requires Faithful(l, kindFilter) && l.outcome.Running? && l.k8s
    ensures var got := l.(k8sGot := l.k8sGot + [e]);
            var l' := if KindPasses(kindFilter, e.kind) then Handed(got, BuildK8sEvent(e), sendOk) else got;
            && Faithful(l', kindFilter)
            && (l'.outcome.Running? || (l'.outcome.SendFailed? && !sendOk))
  {
    ShuffleK8s(l.handed, l.k8sGot, l.auditGot, kindFilter, e);
    HandedKeeps(l.(k8sGot := l.k8sGot + [e]), BuildK8sEvent(e), sendOk);
  }

  lemma HandedAudit(l: Loop, e: Event, rest: seq<Event>, sendOk: bool, kindFilter: string)
    requires Faithful(l, kindFilter) && l.outcome.Running? && l.audit
    ensures var got := l.(buf := rest, auditGot := l.auditGot + [e]);
            var l' := if KindPasses(kindFilter, e.kind) then Handed(got, BuildAuditEvent(e), sendOk) else got;
            && Faithful(l', kindFilter)
            && (l'.outcome.Running? || (l'.outcome.SendFailed? && !sendOk))
  {
    ShuffleAudit(l.handed, l.k8sGot, l.auditGot, kindFilter, e);
    HandedKeeps(l.(buf := rest, auditGot := l.auditGot + [e]), BuildAuditEvent(e), sendOk);
  }

  lemma WatchKeeps(l: Loop, item: Option<WatchItem>, sendOk: bool, kindFilter: string)
    requires Faithful(l, kindFilter) && l.outcome.Running?
    ensures var l' := OnWatch(l, item, sendOk, kindFilter);
            Faithful(l', kindFilter) && (l'.outcome.Running? || (l'.outcome.SendFailed? && !sendOk))
  {
    if l.k8s && item.Some? && item.value.CoreEvent? {
      HandedK8s(l, item.value.event, sendOk, kindFilter);
    }
  }

  lemma AuditKeeps(l: Loop, sendOk: bool, kindFilter: string)
    requires Faithful(l, kindFilter) && l.outcome.Running?
    ensures var l' := OnAudit(l, sendOk, kindFilter);
            Faithful(l', kindFilter) && (l'.outcome.Running? || (l'.outcome.SendFailed? && !sendOk))
  {
    if l.audit && l.buf != [] {
      HandedAudit(l, l.buf[0], l.buf[1..], sendOk, kindFilter);
    }
  }

  /** How the loop may stand after a turn it takes. */
  predicate MayEnd(t: Turn, outcome: Outcome) {
    if t.CtxDone? then outcome == Cancelled
    else outcome.Running? || (outcome.SendFailed? && !SendsOk(t))
  }

  lemma TurnKeeps(l: Loop, t: Turn, kindFilter: string)
    requires Faithful(l, kindFilter) && l.outcome.Running?
    ensures Faithful(Turned(l, t, kindFilter), kindFilter) && MayEnd(t, Turned(l, t, kindFilter).outcome)
  {
    var l' := l.(taken := l.taken + [t]);
    match t
    case WatchReady(item, sendOk) =>
      assert Turned(l, t, kindFilter) == OnWatch(l', item, sendOk, kindFilter);
      WatchKeeps(l', item, sendOk, kindFilter);
    case AuditReady(sendOk) =>
      assert Turned(l, t, kindFilter) == OnAudit(l', sendOk, kindFilter);
      AuditKeeps(l', sendOk, kindFilter);
    case Other(d) => assert Turned(l, t, kindFilter) == OnDeed(l', d);
    case CtxDone =>
  }

  lemma {:induction false} StaysFaithful(source: string, kindFilter: string, turns: seq<Turn>)
    ensures Faithful(LoopAfter(source, kindFilter, turns), kindFilter)
  {
    if turns != [] {
      var l := LoopAfter(source, kindFilter, turns[..|turns| - 1]);
      StaysFaithful(source, kindFilter, turns[..|turns| - 1]);
      if l.outcome.Running? {
        TurnKeeps(l, turns[|turns| - 1], kindFilter);
      }
    } else {
      assert LoopAfter(source, kindFilter, turns) == Start(source);
    }
  }

  /** The loop ends on cancellation or a failed Send and for no other reason: while every Send
      succeeds it goes on exactly as long as the context is not done, whatever sources close. */
  lemma {:induction false} EndsOnlyWhenCancelled(source: string, kindFilter: string, turns: seq<Turn>)
    requires forall t :: t in turns ==> SendsOk(t)
    ensures LoopAfter(source, kindFilter, turns).outcome.Running? <==> CtxDone !in turns
    ensures !LoopAfter(source, kindFilter, turns).outcome.Running? ==>
              LoopAfter(source, kindFilter, turns).outcome == Cancelled
  {
    if turns != [] {
      var init, t := turns[..|turns| - 1], turns[|turns| - 1];
      EndsOnlyWhenCancelled(source, kindFilter, init);
      StaysFaithful(source, kindFilter, init);
      if LoopAfter(source, kindFilter, init).outcome.Running? {
        TurnKeeps(LoopAfter(source, kindFilter, init), t, kindFilter);
      }
      assert t in turns && forall x :: x in turns <==> x in init || x == t;
    }
  }

  /** A stream of cluster events whose watch the server has closed has no source left, and keeps
      turning until it is cancelled all the same. */
  lemma {:induction false} OutlivesItsSources(kindFilter: string, idle: seq<Turn>)
    requires CtxDone !in idle
    ensures var l := LoopAfter("k8s", kindFilter, [WatchReady(None, true)] + idle);
            l.outcome.Running? && !l.k8s && !l.audit && l.handed == []
  {
    var first := WatchReady(None, true);
    var turns := [first] + idle;
    if idle == [] {
      assert turns == [first] && [first][..0] == [];
      assert LoopAfter("k8s", kindFilter, []) == Start("k8s");
    } else {
      var t := idle[|idle| - 1];
      assert turns[..|turns| - 1] == [first] + idle[..|idle| - 1];
      OutlivesItsSources(kindFilter, idle[..|idle| - 1]);
      assert t in idle;
    }
  }

  /** Nobody else holds our cancel function, and without a foreign cancel the audit channel is
      never found closed: subscribed at the start is subscribed to the end. */
  lemma {:induction false} StaysSubscribed(source: string, kindFilter: string, turns: seq<Turn>)
    requires Other(CancelOurs) !in turns
    ensures var l := LoopAfter(source, kindFilter, turns);
            l.audit == l.member == Wants(source, "audit")
  {
    if turns != [] {
      assert turns[|turns| - 1] in turns;
      StaysSubscribed(source, kindFilter, turns[..|turns| - 1]);
      TurnKeepsSubscription(LoopAfter(source, kindFilter, turns[..|turns| - 1]), turns[|turns| - 1], kindFilter);
    }
  }

  lemma TurnKeepsSubscription(l: Loop, t: Turn, kindFilter: string)
    requires t != Other(CancelOurs) && l.audit == l.member
    ensures Turned(l, t, kindFilter).audit == Turned(l, t, kindFilter).member == l.member
  {
  }

  lemma TurnIsTaken(l: Loop, t: Turn, kindFilter: string)
    ensures Turned(l, t, kindFilter).taken == if l.outcome.Running? then l.taken + [t] else l.taken
    ensures Turned(l, t, kindFilter).outcome.Running? ==> l.outcome.Running?
  {
  }

  /** The turns taken are the first of the turns, and all of them while the loop runs. */
  lemma {:induction false} TakenInOrder(source: string, kindFilter: string, turns: seq<Turn>)
    ensures var l := LoopAfter(source, kindFilter, turns);
            l.taken <= turns && (l.outcome.Running? ==> l.taken == turns)
  {
    if turns != [] {
      TakenInOrder(source, kindFilter, turns[..|turns| - 1]);
      TurnIsTaken(LoopAfter(source, kindFilter, turns[..|turns| - 1]), turns[|turns| - 1], kindFilter);
      assert turns == turns[..|turns| - 1] + [turns[|turns| - 1]];
    }
  }

  // ---- what came in -------------------------------------------------------------------------------

  /** Whether the watch is still open after these turns, and the events it brought before it was
      closed. */
  function Came(turns: seq<Turn>): (bool, seq<K8sEvent>) {
    if turns == [] then (true, [])
    else
      var (open, got) := Came(turns[..|turns| - 1]);
      match turns[|turns| - 1]
      case WatchReady(item, _) =>
        if !open then (open, got)
        else if item.None? then (false, got)
        else if item.value.CoreEvent? then (open, got + [item.value.event])
        else (open, got)
      case _ => (open, got)
  }

  /** The cluster events that came in, for a stream from this source. */
  function Watched(source: string, turns: seq<Turn>): seq<K8sEvent> {
    if Wants(source, "k8s") then Came(turns).1 else []
  }

  /** What others published while our subscription stood, as stamped. */
  function Published(source: string, turns: seq<Turn>): seq<Event> {
    if !Wants(source, "audit") || turns == [] then []
    else
      var init := turns[..|turns| - 1];
      Published(source, init)
      + (match turns[|turns| - 1]
         case Other(Publish(e, now)) => if Other(CancelOurs) in init then [] else [Stamped(e, now)]
         case _ => [])
  }

  /** How many of those found 64 events waiting in our channel. */
  function Overflows(source: string, kindFilter: string, turns: seq<Turn>): nat {
    if turns == [] then 0
    else
      var init := turns[..|turns| - 1];
      var l, t := LoopAfter(source, kindFilter, init), turns[|turns| - 1];
      Overflows(source, kindFilter, init)
      + (if l.outcome.Running? && l.member && t.Other? && t.deed.Publish? && |l.buf| >= SUBSCRIPTION_BUFFER
         then 1 else 0)
  }

  lemma TurnComesIn(l: Loop, t: Turn, kindFilter: string)
    requires l.outcome.Running?
    ensures var l' := Turned(l, t, kindFilter);
            (l'.k8s, l'.k8sGot)
            == if t.WatchReady? && l.k8s then
                 if t.item.None? then (false, l.k8sGot)
                 else if t.item.value.CoreEvent? then (true, l.k8sGot + [t.item.value.event])
                 else (true, l.k8sGot)
               else (l.k8s, l.k8sGot)
  {
  }

  /** The loop receives every event that its watch brings, in order and each once. */
  lemma {:induction false} WatchComesIn(source: string, kindFilter: string, turns: seq<Turn>)
    ensures var l := LoopAfter(source, kindFilter, turns);
            && l.k8sGot == Watched(source, l.taken)
            && (l.k8s <==> Wants(source, "k8s") && Came(l.taken).0)
  {
    if turns != [] {
      var l, t := LoopAfter(source, kindFilter, turns[..|turns| - 1]), turns[|turns| - 1];
      WatchComesIn(source, kindFilter, turns[..|turns| - 1]);
      if l.outcome.Running? {
        TurnComesIn(l, t, kindFilter);
        TurnIsTaken(l, t, kindFilter);
        assert (l.taken + [t])[..|l.taken|] == l.taken;
      }
    }
  }

  /** The accounts of our own subscription. */
  ghost predicate Accounted(source: string, l: Loop, overflows: nat) {
    var offered := Published(source, l.taken);
    && (l.member <==> Wants(source, "audit") && Other(CancelOurs) !in l.taken)
    && Subsequence(l.auditGot + l.buf, offered)
    && |l.auditGot + l.buf| + overflows == |offered|
    && (overflows == 0 ==> l.auditGot + l.buf == offered)
  }

  /** What a turn does to what was received and is waiting, taken together. */
  lemma TurnAccounts(l: Loop, t: Turn, kindFilter: string)
    requires l.outcome.Running?
    ensures var l' := Turned(l, t, kindFilter);
            && l'.member == (l.member && t != Other(CancelOurs))
            && l'.auditGot + l'.buf
               == if l.member && t.Other? && t.deed.Publish? && |l.buf| < SUBSCRIPTION_BUFFER
                  then l.auditGot + l.buf + [Stamped(t.deed.e, t.deed.now)]
                  else l.auditGot + l.buf
  {
    if t.AuditReady? && l.audit && l.buf != [] {
      assert (l.auditGot + [l.buf[0]]) + l.buf[1..] == l.auditGot + l.buf;
    }
  }

  lemma PublishedNext(source: string, turns: seq<Turn>, t: Turn)
    ensures Published(source, turns + [t])
            == Published(source, turns)
               + (if Wants(source, "audit") && t.Other? && t.deed.Publish? && Other(CancelOurs) !in turns
                  then [Stamped(t.deed.e, t.deed.now)] else [])
  {
    assert (turns + [t])[..|turns|] == turns;
  }

  lemma AccountsNext(source: string, l: Loop, overflows: nat, t: Turn, kindFilter: string)
    requires l.outcome.Running? && Accounted(source, l, overflows)
    ensures Accounted(source, Turned(l, t, kindFilter),
                      overflows + (if l.member && t.Other? && t.deed.Publish? && |l.buf| >= SUBSCRIPTION_BUFFER
                                   then 1 else 0))
  {
    TurnAccounts(l, t, kindFilter);
    TurnIsTaken(l, t, kindFilter);
    PublishedNext(source, l.taken, t);
    var all, offered := l.auditGot + l.buf, Published(source, l.taken);
    if l.member && t.Other? && t.deed.Publish? {
      SubsequenceKeep(all, offered, Stamped(t.deed.e, t.deed.now));
      SubsequenceSkip(all, offered, Stamped(t.deed.e, t.deed.now));
    } else {
      assert offered + [] == offered;
    }
  }

  lemma {:induction false} AuditAccounts(source: string, kindFilter: string, turns: seq<Turn>)
    ensures Accounted(source, LoopAfter(source, kindFilter, turns), Overflows(source, kindFilter, turns))
  {
    if turns != [] {
      var init := turns[..|turns| - 1];
      AuditAccounts(source, kindFilter, init);
      if LoopAfter(source, kindFilter, init).outcome.Running? {
        AccountsNext(source, LoopAfter(source, kindFilter, init), Overflows(source, kindFilter, init),
                     turns[|turns| - 1], kindFilter);
      }
    }
  }

  /** What was received from the audit channel and what waits there is what others published while
      the subscription stood, in order, short of what found 64 events waiting; so all of it if
      and only if that never happened. */
  lemma AuditComesIn(source: string, kindFilter: string, turns: seq<Turn>)
    ensures var l := LoopAfter(source, kindFilter, turns);
            && Subsequence(l.auditGot + l.buf, Published(source, l.taken))
            && |l.auditGot + l.buf| + Overflows(source, kindFilter, turns) == |Published(source, l.taken)|
            && (l.auditGot + l.buf == Published(source, l.taken) <==> Overflows(source, kindFilter, turns) == 0)
  {
    AuditAccounts(source, kindFilter, turns);
  }

  /** The merge, from end to end: in the stream the cluster's part is exactly the events that the
      watch brought and that pass the filter, in order; the audit part is the same of what was
      received from the channel, that is of what was published short of overflows and of what
      still waits; and all that was handed to Send was sent, short of the one whose Send failed. */
  lemma MergeIsFaithful(source: string, kindFilter: string, turns: seq<Turn>)
    ensures var l := LoopAfter(source, kindFilter, turns);
            && From(l.handed, K8s) == K8sOut(Watched(source, l.taken), kindFilter)
            && From(l.handed, Audit) == AuditOut(l.auditGot, kindFilter)
            && Subsequence(l.auditGot + l.buf, Published(source, l.taken))
            && (l.auditGot + l.buf == Published(source, l.taken) <==> Overflows(source, kindFilter, turns) == 0)
            && SentAll(l) && l.outcome in {Running, Cancelled, SendFailed}
  {
    StaysFaithful(source, kindFilter, turns);
    WatchComesIn(source, kindFilter, turns);
    AuditComesIn(source, kindFilter, turns);
  }

  lemma {:induction false} InK8sOut(got: seq<K8sEvent>, kindFilter: string, e: K8sEvent)
    requires e in got && KindPasses(kindFilter, e.kind)
    ensures BuildK8sEvent(e) in K8sOut(got, kindFilter)
  {
    if e != got[|got| - 1] {
      assert e in got[..|got| - 1];
      InK8sOut(got[..|got| - 1], kindFilter, e);
    }
  }

  lemma {:induction false} InAuditOut(got: seq<Event>, kindFilter: string, e: Event)
    requires e in got && KindPasses(kindFilter, e.kind)
    ensures BuildAuditEvent(e) in AuditOut(got, kindFilter)
  {
    if e != got[|got| - 1] {
      assert e in got[..|got| - 1];
      InAuditOut(got[..|got| - 1], kindFilter, e);
    }
  }

  lemma {:induction false} OfK8sOut(got: seq<K8sEvent>, kindFilter: string, o: Out)
    requires o in K8sOut(got, kindFilter)
    ensures exists e :: e in got && KindPasses(kindFilter, e.kind) && o == BuildK8sEvent(e)
  {
    var init, e := got[..|got| - 1], got[|got| - 1];
    if o in K8sOut(init, kindFilter) {
      OfK8sOut(init, kindFilter, o);
      var e' :| e' in init && KindPasses(kindFilter, e'.kind) && o == BuildK8sEvent(e');
      assert e' in got;
    } else {
      assert e in got && o == BuildK8sEvent(e);
    }
  }

  lemma {:induction false} OfAuditOut(got: seq<Event>, kindFilter: string, o: Out)
    requires o in AuditOut(got, kindFilter)
    ensures exists e :: e in got && KindPasses(kindFilter, e.kind) && o == BuildAuditEvent(e)
  {
    var init, e := got[..|got| - 1], got[|got| - 1];
    if o in AuditOut(init, kindFilter) {
      OfAuditOut(init, kindFilter, o);
      var e' :| e' in init && KindPasses(kindFilter, e'.kind) && o == BuildAuditEvent(e');
      assert e' in got;
    } else {
      assert e in got && o == BuildAuditEvent(e);
    }
  }

  lemma {:induction false} InFrom(out: seq<Out>, source: Source, o: Out)
    ensures o in From(out, source) <==> o in out && o.source == source
  {
    if out != [] {
      InFrom(out[..|out| - 1], source, o);
      assert out == out[..|out| - 1] + [out[|out| - 1]];
    }
  }

  lemma {:induction false} SubsequenceMember<T>(a: seq<T>, b: seq<T>, x: T)
    requires Subsequence(a, b) && x in a
    ensures x in b
    decreases |b|
  {
    var b' := b[..|b| - 1];
    if Subsequence(a, b') {
      SubsequenceMember(a, b', x);
    } else if x != a[|a| - 1] {
      assert x in a[..|a| - 1];
      SubsequenceMember(a[..|a| - 1], b', x);
    }
  }

  lemma K8sMessage(l: Loop, kindFilter: string, o: Out)
    requires Faithful(l, kindFilter) && o in l.handed && o.source == K8s
    ensures KindPasses(kindFilter, o.kind) && exists e :: e in l.k8sGot && DescribesK8s(o, e)
  {
    InFrom(l.handed, K8s, o);
    OfK8sOut(l.k8sGot, kindFilter, o);
    var e :| e in l.k8sGot && KindPasses(kindFilter, e.kind) && o == BuildK8sEvent(e);
    K8sDescribed(e);
  }

  lemma AuditMessage(l: Loop, kindFilter: string, o: Out)
    requires Faithful(l, kindFilter) && o in l.handed && o.source == Audit
    ensures KindPasses(kindFilter, o.kind) && exists e :: e in l.auditGot && DescribesAudit(o, e)
  {
    InFrom(l.handed, Audit, o);
    OfAuditOut(l.auditGot, kindFilter, o);
    var e :| e in l.auditGot && KindPasses(kindFilter, e.kind) && o == BuildAuditEvent(e);
    assert DescribesAudit(o, e);
  }

  /** o is what a client should see of an event published at now: its object, reason and actor,
      and its time, or now when it carries none. */
  predicate TellsPublished(o: Out, e: Event, now: int) {
    && o.source == Audit && (o.kind, o.name, o.namespace) == (e.kind, e.name, e.namespace)
    && (o.otype, o.reason, o.message, o.actor) == ("Audit", e.reason, e.message, e.actor)
    && o.timestamp == (if e.timestamp.None? then Some(now) else e.timestamp)
  }

  /** Everything published came from a publication by others while the subscription stood. */
  lemma {:induction false} PublishedByDeed(source: string, turns: seq<Turn>, d: Event)
    requires d in Published(source, turns)
    ensures Wants(source, "audit")
    ensures exists e, now :: Other(Publish(e, now)) in turns && Arrives(d, e, now)
  {
    var init, t := turns[..|turns| - 1], turns[|turns| - 1];
    if d in Published(source, init) {
      PublishedByDeed(source, init, d);
      var e, now :| Other(Publish(e, now)) in init && Arrives(d, e, now);
      assert Other(Publish(e, now)) in turns;
    } else {
      DeliveredReceives([], 1, t.deed.e, t.deed.now);
      assert t in turns && Arrives(d, t.deed.e, t.deed.now);
    }
  }

  lemma {:induction false} DeedIsPublished(source: string, turns: seq<Turn>, e: Event, now: int)
    requires Wants(source, "audit") && Other(Publish(e, now)) in turns && Other(CancelOurs) !in turns
    ensures Stamped(e, now) in Published(source, turns)
  {
    var init := turns[..|turns| - 1];
    if Other(Publish(e, now)) in init {
      DeedIsPublished(source, init, e, now);
    } else {
      assert turns == init + [turns[|turns| - 1]];
      assert turns[|turns| - 1] == Other(Publish(e, now));
    }
  }

  lemma {:induction false} WatchedByTurn(turns: seq<Turn>, e: K8sEvent)
    requires e in Came(turns).1
    ensures exists ok :: WatchReady(Some(CoreEvent(e)), ok) in turns
  {
    var init, t := turns[..|turns| - 1], turns[|turns| - 1];
    if e in Came(init).1 {
      WatchedByTurn(init, e);
      var ok :| WatchReady(Some(CoreEvent(e)), ok) in init;
      assert WatchReady(Some(CoreEvent(e)), ok) in turns;
    } else {
      assert t in turns && t == WatchReady(Some(CoreEvent(e)), t.sendOk);
    }
  }

  /** What a client can rely on: every message is of the kind asked for, from a source asked for,
      carries a time if it is an audit message, and describes an event that the watch brought or
      that somebody published. */
  lemma MessagesComeFromEvents(source: string, kindFilter: string, turns: seq<Turn>, o: Out)
    requires o in LoopAfter(source, kindFilter, turns).handed
    ensures var taken := LoopAfter(source, kindFilter, turns).taken;
            && (kindFilter == "" || o.kind == kindFilter)
            && (o.source == K8s ==>
                  && (source == "" || source == "k8s")
                  && exists e, ok :: WatchReady(Some(CoreEvent(e)), ok) in taken && DescribesK8s(o, e))
            && (o.source == Audit ==>
                  && (source == "" || source == "audit") && o.timestamp.Some?
                  && exists e, now :: Other(Publish(e, now)) in taken && TellsPublished(o, e, now))
  {
    var l := LoopAfter(source, kindFilter, turns);
    StaysFaithful(source, kindFilter, turns);
    WatchComesIn(source, kindFilter, turns);
    AuditComesIn(source, kindFilter, turns);
    if o.source == K8s {
      K8sMessage(l, kindFilter, o);
      var e :| e in l.k8sGot && DescribesK8s(o, e);
      WatchedByTurn(l.taken, e);
      var ok :| WatchReady(Some(CoreEvent(e)), ok) in l.taken;
    } else {
      AuditMessage(l, kindFilter, o);
      var d :| d in l.auditGot && DescribesAudit(o, d);
      assert d in l.auditGot + l.buf;
      SubsequenceMember(l.auditGot + l.buf, Published(source, l.taken), d);
      PublishedByDeed(source, l.taken, d);
      var e, now :| Other(Publish(e, now)) in l.taken && Arrives(d, e, now);
      assert TellsPublished(o, e, now);
    }
  }

  /** And every event of that kind that the watch brought has its message. */
  lemma WatchedEventsAreTold(source: string, kindFilter: string, turns: seq<Turn>, e: K8sEvent)
    requires source == "" || source == "k8s"
    requires e in Came(LoopAfter(source, kindFilter, turns).taken).1 && (kindFilter == "" || e.kind == kindFilter)
    ensures exists o :: o in LoopAfter(source, kindFilter, turns).handed && DescribesK8s(o, e)
  {
    var l := LoopAfter(source, kindFilter, turns);
    StaysFaithful(source, kindFilter, turns);
    WatchComesIn(source, kindFilter, turns);
    InK8sOut(l.k8sGot, kindFilter, e);
    InFrom(l.handed, K8s, BuildK8sEvent(e));
    K8sDescribed(e);
  }

  /** So has every one published, unless it still waits in the channel or there was an overflow. */
  lemma PublishedEventsAreTold(source: string, kindFilter: string, turns: seq<Turn>, e: Event, now: int)
    requires source == "" || source == "audit"
    requires Other(Publish(e, now)) in LoopAfter(source, kindFilter, turns).taken
    requires Other(CancelOurs) !in LoopAfter(source, kindFilter, turns).taken
    requires kindFilter == "" || e.kind == kindFilter
    requires Overflows(source, kindFilter, turns) == 0
    ensures var l := LoopAfter(source, kindFilter, turns);
            (exists o :: o in l.handed && TellsPublished(o, e, now)) || (exists d :: d in l.buf && Arrives(d, e, now))
  {
    var l := LoopAfter(source, kindFilter, turns);
    StaysFaithful(source, kindFilter, turns);
    AuditComesIn(source, kindFilter, turns);
    DeedIsPublished(source, l.taken, e, now);
    var d := Stamped(e, now);
    DeliveredReceives([], 1, e, now);
    assert d in l.auditGot + l.buf;
    if d in l.auditGot {
      InAuditOut(l.auditGot, kindFilter, d);
      InFrom(l.handed, Audit, BuildAuditEvent(d));
      assert TellsPublished(BuildAuditEvent(d), e, now);
    }
  }

  lemma SentWasHanded(l: Loop, o: Out)
    requires SentAll(l) && o in l.sent
    ensures o in l.handed
  {
  }
}
