/** The life cycle of the journey producer (internal/service/journey.go): Start, Close and the
    sampler goroutine share two channels that are only ever closed. Start and Close are
    called one after the other; the sampler ends whenever it notices the stop. */
module Lifecycle {

  /** How far a call of Start gets. */
  datatype Starting = Unset | ConnectFails | SubscribeFails | Starts

  /** launched and running count samplers. Closing one of the channels a second time crashes
      the process. waiting: a Close has closed stop and waits on done. */
  datatype State = State(
    connected: bool, stop: bool, done: bool, launched: nat, running: nat, waiting: bool, crashed: bool)

  datatype Action = Start(how: Starting) | Close | CloseReturns | SamplerExits

  function Init(): State {
    State(false, false, false, 0, 0, false, false)
  }

  predicate Enabled(s: State, a: Action) {
    !s.crashed &&
    match a
    case Start(_) => !s.waiting
    case Close => !s.waiting
    case CloseReturns => s.waiting && s.done
    case SamplerExits => s.running > 0 && s.stop
  }

  function Apply(s: State, a: Action): State
    requires Enabled(s, a)
  {
    match a
    case Start(how) =>
      (match how
       case Unset => s
       case ConnectFails => s
       case SubscribeFails => s.(connected := false) // closeNATS
       case Starts => s.(connected := true, launched := s.launched + 1, running := s.running + 1))
    case Close =>
      if !s.connected then s
      else if s.stop then s.(crashed := true)
      else s.(stop := true, waiting := true)
    case CloseReturns => s.(waiting := false, connected := false)
    case SamplerExits =>
      var s' := s.(running := s.running - 1);
      if s.done then s'.(crashed := true) else s'.(done := true)
  }

  function Step(s: State, a: Action): State {
    if Enabled(s, a) then Apply(s, a) else s
  }

  function RunFrom(s: State, run: seq<Action>): State {
    if run == [] then s else Step(RunFrom(s, run[..|run| - 1]), run[|run| - 1])
  }

  ghost predicate Inv(s: State) {
    && (s.done ==> s.stop)
    && (!s.crashed ==> s.launched == s.running + (if s.done then 1 else 0))
    && (s.waiting ==> s.connected && s.stop)
    && (s.connected ==> s.launched > 0)
    // a first Close with its sampler: connected after the stop means waiting, or started again
    && (s.connected && s.stop && !s.waiting ==> s.launched > 1)
    && (!s.waiting && s.stop ==> s.done)
    && (s.crashed ==> s.launched > 1)
  }

  lemma InvStep(s: State, a: Action)
    requires Inv(s)
    ensures Inv(Step(s, a))
  {
  }

  lemma {:induction false} Reachable(run: seq<Action>)
    ensures Inv(RunFrom(Init(), run))
  {
    if run != [] {
      Reachable(run[..|run| - 1]);
      InvStep(RunFrom(Init(), run[..|run| - 1]), run[|run| - 1]);
    }
  }

  function SuccessfulStarts(run: seq<Action>): nat {
    if run == [] then 0
    else SuccessfulStarts(run[..|run| - 1]) + (if run[|run| - 1] == Start(Starts) then 1 else 0)
  }

  lemma {:induction false} LaunchedAtMostStarts(run: seq<Action>)
    ensures RunFrom(Init(), run).launched <= SuccessfulStarts(run)
  {
    if run != [] {
      LaunchedAtMostStarts(run[..|run| - 1]);
    }
  }

  /** With at most one successful Start, and any number of failed ones, Closes and sampler
      turns in any order, neither channel is closed twice and nothing crashes. */
  lemma OneStartIsSafe(run: seq<Action>)
    requires SuccessfulStarts(run) <= 1
    ensures var s := RunFrom(Init(), run);
            !s.crashed
  {
    Reachable(run);
    LaunchedAtMostStarts(run);
  }

  /** Close waits only when a sampler was launched, and is then never stuck: done is closed,
      or a sampler is there that will close it. */
  lemma CloseWaitsOnASampler(run: seq<Action>)
    requires RunFrom(Init(), run).waiting && !RunFrom(Init(), run).crashed
    ensures var s := RunFrom(Init(), run);
            && s.launched > 0
            && (Enabled(s, CloseReturns) || Enabled(s, SamplerExits))
            && (s.launched == 1 ==>
                  var s' := Step(Step(s, SamplerExits), CloseReturns);
                  !s'.waiting && !s'.crashed && !s'.connected)
  {
    Reachable(run);
  }

  // ---- exactly when it can crash -----------------------------------------------------------------

  predicate NoStart(run: seq<Action>) {
    forall a :: a in run ==> !a.Start?
  }

  /** Two samplers launched, and stop closed already or within reach of a Close. */
  predicate Doomed(s: State) {
    s.crashed || (s.launched >= 2 && (s.stop || s.connected))
  }

  lemma {:induction false} NotDoomedStaysSafe(s: State, run: seq<Action>)
    requires Inv(s) && !Doomed(s) && NoStart(run)
    ensures Inv(RunFrom(s, run)) && !Doomed(RunFrom(s, run))
  {
    if run != [] {
      NotDoomedStaysSafe(s, run[..|run| - 1]);
      assert run[|run| - 1] in run;
    }
  }

  /** The continuation that crashes a doomed state: close if need be, then let samplers exit. */
  lemma DoomedCrashes(s: State)
    requires Inv(s) && Doomed(s)
    ensures RunFrom(s, [Close, SamplerExits, SamplerExits]).crashed
  {
    var r := [Close, SamplerExits, SamplerExits];
    assert r[..2][..1][..0] == [] && r[..2][..1] == [Close] && r[..2] == [Close, SamplerExits];
    assert RunFrom(s, []) == s;
    assert RunFrom(s, r[..1]) == Step(s, Close);
    assert RunFrom(s, r[..2]) == Step(Step(s, Close), SamplerExits);
  }

  /** A state that a run has led to can still crash, without any further Start, if and only if
      it is doomed. */
  lemma CrashesIffDoomed(run: seq<Action>)
    ensures var s := RunFrom(Init(), run);
            Doomed(s) <==> exists more :: NoStart(more) && RunFrom(s, more).crashed
  {
    Reachable(run);
    var s := RunFrom(Init(), run);
    if Doomed(s) {
      DoomedCrashes(s);
      assert NoStart([Close, SamplerExits, SamplerExits]);
    } else {
      forall more | NoStart(more) ensures !RunFrom(s, more).crashed {
        NotDoomedStaysSafe(s, more);
      }
    }
  }

  // ---- exactly when a sampler is left running --------------------------------------------------

  /** The connection is gone and nobody has closed stop: a Close does nothing now. */
  predicate Stranded(s: State) {
    s.running > 0 && !s.connected
  }

  lemma {:induction false} StrandedForGood(s: State, run: seq<Action>)
    requires Inv(s) && s.launched <= 1 && Stranded(s) && NoStart(run)
    ensures RunFrom(s, run).running == s.running && !RunFrom(s, run).connected && !RunFrom(s, run).stop
  {
    if run != [] {
      StrandedForGood(s, run[..|run| - 1]);
      assert run[|run| - 1] in run;
    }
  }

  lemma CloseEndsTheSampler(s: State)
    requires Inv(s) && s.launched <= 1 && !Stranded(s)
    ensures RunFrom(s, [Close, SamplerExits]).running == 0
  {
    var r := [Close, SamplerExits];
    assert r[..1][..0] == [] && r[..1] == [Close];
    assert RunFrom(s, []) == s;
    assert RunFrom(s, r[..1]) == Step(s, Close);
  }

  /** After at most one successful Start, no sequence of Closes ends the sampler if and only if it
      is running and the connection is already gone. */
  lemma LeaksIffStranded(run: seq<Action>)
    requires SuccessfulStarts(run) <= 1
    ensures var s := RunFrom(Init(), run);
            Stranded(s) <==> forall more :: NoStart(more) ==> RunFrom(s, more).running > 0
  {
    Reachable(run);
    LaunchedAtMostStarts(run);
    var s := RunFrom(Init(), run);
    if Stranded(s) {
      forall more | NoStart(more) ensures RunFrom(s, more).running > 0 {
        StrandedForGood(s, more);
      }
    } else {
      CloseEndsTheSampler(s);
      assert NoStart([Close, SamplerExits]);
    }
  }

  /** A Start whose Subscribe fails drops the connection of an earlier, successful one: the Close
      that follows returns at once and the sampler runs on. */
  lemma FailedRestartStrands()
    ensures var run := [Start(Starts), Start(SubscribeFails), Close];
            SuccessfulStarts(run) == 1 && Stranded(RunFrom(Init(), run)) && !RunFrom(Init(), run).stop
  {
    var run := [Start(Starts), Start(SubscribeFails), Close];
    assert run[..2][..1][..0] == [] && run[..2][..1] == [Start(Starts)];
    assert run[..2] == [Start(Starts), Start(SubscribeFails)];
    assert SuccessfulStarts([]) == 0 && SuccessfulStarts(run[..2][..1]) == 1 && SuccessfulStarts(run[..2]) == 1;
    assert RunFrom(Init(), []) == Init();
    assert RunFrom(Init(), run[..2][..1]) == Step(Init(), Start(Starts));
    assert RunFrom(Init(), run[..2]) == Step(Step(Init(), Start(Starts)), Start(SubscribeFails));
  }

  // ---- the object --------------------------------------------------------------------------------

  class Producer {
    var connected: bool
    var stop: bool
    var done: bool
    var samplers: nat
    var crashed: bool
    ghost var launched: nat

    ghost function Abs(): State
      reads this
    {
      State(connected, stop, done, launched, samplers, false, crashed)
    }

    /** Between two calls. */
    ghost predicate Valid()
      reads this
    {
      Inv(Abs())
    }

    constructor ()
      ensures Valid() && Abs() == Init()
    {
      connected, stop, done, samplers, crashed, launched := false, false, false, 0, false, 0;
    }

    /** Start, by how far it gets. Without a URL or a connection everything stays as it was; a
        failed Subscribe drops the connection, an earlier one included. */
    method Begin(how: Starting) returns (ok: bool)
      requires Valid() && !crashed
      modifies this
      ensures Valid() && Abs() == Step(old(Abs()), Start(how)) && ok == how.Starts?
    {
      InvStep(Abs(), Start(how));
      ok := how.Starts?;
      if how.Unset? || how.ConnectFails? {
        return;
      }
      SetConnection(how.Starts?);
      if how.Starts? {
        Launch();
      }
    }

    method SetConnection(up: bool)
      modifies this`connected
      ensures connected == up
    {
      connected := up;
    }

    method Launch()
      modifies this`samplers, this`launched
      ensures samplers == old(samplers) + 1 && launched == old(launched) + 1
    {
      samplers, launched := samplers + 1, launched + 1;
    }

    /** close(j.stop), which panics the second time. */
    method CloseStop()
      modifies this`stop, this`crashed
      ensures stop && crashed == (old(crashed) || old(stop))
    {
      if stop {
        crashed := true;
      } else {
        stop := true;
      }
    }

    /** A sampler sees the stop and returns; its deferred close(j.done) panics the second time. */
    method SamplerEnds()
      requires Valid() && !crashed && stop && samplers > 0
      modifies this`done, this`crashed, this`samplers
      ensures Valid() && Abs() == Step(old(Abs()), SamplerExits)
    {
      InvStep(Abs(), SamplerExits);
      EndOne();
    }

    method EndOne()
      requires samplers > 0
      modifies this`done, this`crashed, this`samplers
      ensures samplers == old(samplers) - 1 && done && crashed == (old(crashed) || old(done))
    {
      samplers := samplers - 1;
      if done {
        crashed := true;
      } else {
        done := true;
      }
    }

    /** Close: stops the sampler, waits for the first that ends, drops the connection; nothing
        when there is none, so a repeated Close is harmless. With at most one successful Start so
        far it does not crash, and it leaves a sampler running exactly when one is running and
        the connection is already gone. */
    method End()
      requires Valid() && !crashed
      modifies this
      ensures Valid()
      ensures if old(connected) then Abs() == Step(Step(Step(old(Abs()), Close), SamplerExits), CloseReturns)
              else Abs() == old(Abs())
      ensures old(launched) <= 1 ==> !crashed && !connected && (old(connected) ==> stop && done && samplers == 0)
      ensures old(launched) <= 1 ==> (samplers > 0 <==> old(Stranded(Abs())))
    {
      if !connected {
        return;
      }
      ghost var s1 := Step(Abs(), Close);
      ghost var s2 := Step(s1, SamplerExits);
      InvStep(Abs(), Close);
      InvStep(s1, SamplerExits);
      InvStep(s2, CloseReturns);
      CloseStop();
      if crashed {
        return;
      }
      EndOne(); // <-j.done waits for this
      SetConnection(false);
    }
  }
}
