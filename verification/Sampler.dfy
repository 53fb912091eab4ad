/** The sampler goroutine of internal/service/journey.go with the messages that come in while it
    works: check, build without the lock, install, sample. Its runs are the runs that the
    results on refreshes and names are about. */
module Sampler {
  import opened Text
  import opened Journey
  import opened JourneyRuns
  import opened JourneyObject
  import E = Endpoints

  /** A bus message and the time its handler captured. */
  datatype Heard = Heard(m: Message, now: int)

  /** One call of sample: the time it captures first, the cluster as its list calls find it (None
      without a client), and the messages that come in before the check of the index, between
      check and installation, and before the sample proper. */
  datatype Wakeup = Wakeup(
    now: int, cluster: Option<E.Cluster>, before: seq<Heard>, between: seq<Heard>, after: seq<Heard>)

  function Heards(ms: seq<Heard>): seq<Step> {
    if ms == [] then []
    else Heards(ms[..|ms| - 1]) + [Step.Message(ms[|ms| - 1].m, ms[|ms| - 1].now)]
  }

  function Installed(w: Wakeup, idx: Option<E.Index>): seq<Step> {
    if idx.Some? && w.cluster.Some? then [Install(idx.value, w.cluster.value, w.now)] else []
  }

  /** The run after one more wakeup, given the index it builds, if it builds one. */
  function Woken(run: seq<Step>, w: Wakeup, idx: Option<E.Index>): seq<Step> {
    run + Heards(w.before) + Heards(w.between) + Installed(w, idx) + Heards(w.after) + [Tick(w.now)]
  }

  /** An index is built exactly when there is a cluster to ask and the check finds none of the
      last 30 s; and it is the index of that cluster. */
  ghost predicate Builds(run: seq<Step>, w: Wakeup, idx: Option<E.Index>) {
    && (idx.Some? <==> w.cluster.Some? && NoInstallWithin(run + Heards(w.before), w.now))
    && (idx.Some? ==> E.Indexes(idx.value, w.cluster.value))
  }

  /** Times captured by the one sampler do not go back. */
  ghost predicate InOrder(ws: seq<Wakeup>) {
    forall i, j :: 0 <= i < j < |ws| ==> ws[i].now <= ws[j].now
  }

  // ---- what a wakeup keeps --------------------------------------------------------------------------

  lemma {:induction false} HeardsAreMessages(ms: seq<Heard>)
    ensures |Heards(ms)| == |ms| && forall i :: 0 <= i < |ms| ==> Heards(ms)[i].Message?
  {
    if ms != [] {
      HeardsAreMessages(ms[..|ms| - 1]);
    }
  }

  /** What holds of a run of the sampler. */
  ghost predicate Sampled(run: seq<Step>) {
    OneRefresher(run) && BuiltFromSnapshots(run) && TicksInOrder(run)
  }

  lemma RefresherAppend(run: seq<Step>, a: Step)
    requires OneRefresher(run)
    requires a.Install? ==> exists k: nat :: k <= |run| && CheckedBefore(run + [a], |run|, k)
    ensures OneRefresher(run + [a])
  {
    var run' := run + [a];
    forall i | 0 <= i < |run'| && run'[i].Install? ensures exists k: nat :: k <= i && CheckedBefore(run', i, k) {
      if i < |run| {
        var k: nat :| k <= i && CheckedBefore(run, i, k);
        assert run'[..k] == run[..k];
        assert CheckedBefore(run', i, k);
      }
    }
  }

  lemma SampledAppend(run: seq<Step>, a: Step)
    requires Sampled(run)
    requires a.Install? ==> E.Indexes(a.idx, a.cluster)
    requires a.Install? ==> exists k: nat :: k <= |run| && CheckedBefore(run + [a], |run|, k)
    requires a.Tick? && LastTick(run).Some? ==> LastTick(run).value <= a.now
    ensures Sampled(run + [a])
    ensures LastTick(run + [a]) == if a.Tick? then Some(a.now) else LastTick(run)
  {
    assert (run + [a])[..|run|] == run;
    RefresherAppend(run, a);
  }

  lemma {:induction false} SampledHeards(run: seq<Step>, ms: seq<Heard>)
    requires Sampled(run)
    ensures Sampled(run + Heards(ms)) && LastTick(run + Heards(ms)) == LastTick(run)
  {
    if ms == [] {
      assert run + Heards(ms) == run;
    } else {
      var init, h := ms[..|ms| - 1], ms[|ms| - 1];
      SampledHeards(run, init);
      SampledAppend(run + Heards(init), Step.Message(h.m, h.now));
      assert run + Heards(ms) == run + Heards(init) + [Step.Message(h.m, h.now)];
    }
  }

  /** The check made before the messages in between is the one that justifies the installation. */
  lemma CheckJustifies(run: seq<Step>, w: Wakeup, idx: E.Index)
    requires w.cluster.Some? && NoInstallWithin(run + Heards(w.before), w.now)
    ensures var checked := run + Heards(w.before);
            var back := checked + Heards(w.between);
            CheckedBefore(back + [Install(idx, w.cluster.value, w.now)], |back|, |checked|)
  {
    var checked := run + Heards(w.before);
    var back := checked + Heards(w.between);
    var run' := back + [Install(idx, w.cluster.value, w.now)];
    HeardsAreMessages(w.between);
    StaleIffNoRecentInstall(checked, w.now);
    assert run'[..|checked|] == checked;
  }

  lemma WokenKeeps(run: seq<Step>, w: Wakeup, idx: Option<E.Index>)
    requires Sampled(run) && Builds(run, w, idx)
    requires LastTick(run).Some? ==> LastTick(run).value <= w.now
    ensures Sampled(Woken(run, w, idx)) && LastTick(Woken(run, w, idx)) == Some(w.now)
  {
    var checked := run + Heards(w.before);
    var back := checked + Heards(w.between);
    SampledHeards(run, w.before);
    SampledHeards(checked, w.between);
    if idx.Some? {
      CheckJustifies(run, w, idx.value);
      SampledAppend(back, Install(idx.value, w.cluster.value, w.now));
    } else {
      assert back + Installed(w, idx) == back;
    }
    SampledHeards(back + Installed(w, idx), w.after);
    SampledAppend(back + Installed(w, idx) + Heards(w.after), Tick(w.now));
  }

  // ---- the goroutine -----------------------------------------------------------------------------------

  lemma RunAppend(run: seq<Step>, a: Step)
    ensures Run(run + [a]) == Apply(Run(run), a)
  {
    assert (run + [a])[..|run|] == run;
  }

  /** The object is in the state of the run. */
  ghost predicate Follows(d: Dashboard, run: seq<Step>)
    reads d, d.log.Keys, d.stats
  {
    d.Valid() && d.Abs() == Run(run)
  }

  method Take(d: Dashboard, a: Step, ghost run: seq<Step>)
    requires Follows(d, run)
    modifies d, d.log.Keys, d.stats
    ensures Follows(d, run + [a]) && d.views == old(d.views)
    ensures fresh(d.log.Keys - old(d.log.Keys)) && fresh(d.stats - old(d.stats))
  {
    RunAppend(run, a);
    d.TakeStep(a);
  }

  method Hear(d: Dashboard, ms: seq<Heard>, ghost run: seq<Step>)
    requires Follows(d, run)
    modifies d, d.log.Keys, d.stats
    ensures Follows(d, run + Heards(ms)) && d.views == old(d.views)
    ensures fresh(d.log.Keys - old(d.log.Keys)) && fresh(d.stats - old(d.stats))
  {
    assert run + Heards(ms[..0]) == run;
    for i := 0 to |ms|
      invariant Follows(d, run + Heards(ms[..i])) && d.views == old(d.views)
      invariant fresh(d.log.Keys - old(d.log.Keys)) && fresh(d.stats - old(d.stats))
    {
      HeardsNext(run, ms, i);
      Take(d, Step.Message(ms[i].m, ms[i].now), run + Heards(ms[..i]));
    }
    assert ms[..|ms|] == ms;
  }

  lemma HeardsNext(run: seq<Step>, ms: seq<Heard>, i: nat)
    requires i < |ms|
    ensures run + Heards(ms[..i + 1]) == run + Heards(ms[..i]) + [Step.Message(ms[i].m, ms[i].now)]
  {
    assert ms[..i + 1][..i] == ms[..i];
  }

  /** The unlocked part: what the list calls find, built into an index. */
  method Rebuild(d: Dashboard, w: Wakeup, ghost run: seq<Step>) returns (built: Option<E.Index>)
    requires Follows(d, run + Heards(w.before))
    ensures Builds(run, w, built)
  {
    built := None;
    if w.cluster.Some? {
      var stale := d.CheckIndex(w.now);
      if stale {
        var idx := E.BuildEndpointIndex(w.cluster.value);
        built := Some(idx);
      }
    }
  }

  /** The messages that came in meanwhile, then the installation. */
  method Settle(d: Dashboard, w: Wakeup, built: Option<E.Index>, ghost run: seq<Step>)
    requires Follows(d, run)
    modifies d, d.log.Keys, d.stats
    ensures Follows(d, run + Heards(w.between) + Installed(w, built)) && d.views == old(d.views)
    ensures fresh(d.log.Keys - old(d.log.Keys)) && fresh(d.stats - old(d.stats))
  {
    Hear(d, w.between, run);
    if built.Some? && w.cluster.Some? {
      Take(d, Install(built.value, w.cluster.value, w.now), run + Heards(w.between));
    } else {
      assert run + Heards(w.between) + [] == run + Heards(w.between);
    }
  }

  method Prepare(d: Dashboard, w: Wakeup, ghost run: seq<Step>) returns (idx: Option<E.Index>)
    requires Follows(d, run)
    modifies d, d.log.Keys, d.stats
    ensures Builds(run, w, idx) && Follows(d, run + Heards(w.before)) && d.views == old(d.views)
    ensures fresh(d.log.Keys - old(d.log.Keys)) && fresh(d.stats - old(d.stats))
  {
    Hear(d, w.before, run);
    idx := Rebuild(d, w, run);
  }

  /** One call of sample: refresh the index if need be, then sample. */
  method Wake(d: Dashboard, w: Wakeup, ghost run: seq<Step>) returns (idx: Option<E.Index>)
    requires Follows(d, run)
    modifies d, d.log.Keys, d.stats
    ensures Builds(run, w, idx) && Follows(d, Woken(run, w, idx)) && d.views == old(d.views)
    ensures fresh(d.log.Keys - old(d.log.Keys)) && fresh(d.stats - old(d.stats))
  {
    idx := Prepare(d, w, run);
    Settle(d, w, idx, run + Heards(w.before));
    Finish(d, w, run + Heards(w.before) + Heards(w.between) + Installed(w, idx));
  }

  method Finish(d: Dashboard, w: Wakeup, ghost run: seq<Step>)
    requires Follows(d, run)
    modifies d, d.log.Keys, d.stats
    ensures Follows(d, run + Heards(w.after) + [Tick(w.now)]) && d.views == old(d.views)
    ensures fresh(d.log.Keys - old(d.log.Keys)) && fresh(d.stats - old(d.stats))
  {
    Hear(d, w.after, run);
    Take(d, Tick(w.now), run + Heards(w.after));
  }

  /** The run that wakeups make, given the indexes they built. */
  function SamplerRun(ws: seq<Wakeup>, idxs: seq<Option<E.Index>>): seq<Step>
    requires |idxs| == |ws|
  {
    if ws == [] then []
    else Woken(SamplerRun(ws[..|ws| - 1], idxs[..|ws| - 1]), ws[|ws| - 1], idxs[|ws| - 1])
  }

  /** Each wakeup built its index when the run so far called for it, and from its cluster. */
  ghost predicate BuildsAll(ws: seq<Wakeup>, idxs: seq<Option<E.Index>>)
    requires |idxs| == |ws|
  {
    ws == [] ||
    (BuildsAll(ws[..|ws| - 1], idxs[..|ws| - 1])
     && Builds(SamplerRun(ws[..|ws| - 1], idxs[..|ws| - 1]), ws[|ws| - 1], idxs[|ws| - 1]))
  }

  /** Every run of the sampler installs only after a check, only indexes of the clusters it
      listed, and samples in order: so RefreshesAreSpaced, NamesComeFromTheLastSnapshot and
      RingRefinesHistory hold of it. */
  lemma {:induction false} SamplerRunsAreSampled(ws: seq<Wakeup>, idxs: seq<Option<E.Index>>)
    requires |idxs| == |ws| && InOrder(ws) && BuildsAll(ws, idxs)
    ensures Sampled(SamplerRun(ws, idxs))
    ensures LastTick(SamplerRun(ws, idxs)) == if ws == [] then None else Some(ws[|ws| - 1].now)
  {
    if ws != [] {
      var n := |ws| - 1;
      assert InOrder(ws[..n]);
      SamplerRunsAreSampled(ws[..n], idxs[..n]);
      WokenKeeps(SamplerRun(ws[..n], idxs[..n]), ws[n], idxs[n]);
    }
  }

  lemma OneMoreWakeup(ws: seq<Wakeup>, i: nat, idxs: seq<Option<E.Index>>, idx: Option<E.Index>)
    requires i < |ws| && |idxs| == i && BuildsAll(ws[..i], idxs) && Builds(SamplerRun(ws[..i], idxs), ws[i], idx)
    ensures BuildsAll(ws[..i + 1], idxs + [idx])
    ensures SamplerRun(ws[..i + 1], idxs + [idx]) == Woken(SamplerRun(ws[..i], idxs), ws[i], idx)
  {
    Prefixes(ws, i, idxs, idx);
    Extended(ws[..i + 1], idxs + [idx], ws[..i], idxs);
  }

  lemma Prefixes(ws: seq<Wakeup>, i: nat, idxs: seq<Option<E.Index>>, idx: Option<E.Index>)
    requires i < |ws| && |idxs| == i
    ensures ws[..i + 1][..i] == ws[..i] && ws[..i + 1][i] == ws[i]
    ensures (idxs + [idx])[..i] == idxs && (idxs + [idx])[i] == idx
  {
  }

  lemma Extended(ws': seq<Wakeup>, idxs': seq<Option<E.Index>>, ws: seq<Wakeup>, idxs: seq<Option<E.Index>>)
    requires |ws'| == |idxs'| == |ws| + 1 && |idxs| == |ws|
    requires ws'[..|ws|] == ws && idxs'[..|ws|] == idxs
    ensures SamplerRun(ws', idxs') == Woken(SamplerRun(ws, idxs), ws'[|ws|], idxs'[|ws|])
    ensures BuildsAll(ws', idxs') <==> BuildsAll(ws, idxs) && Builds(SamplerRun(ws, idxs), ws'[|ws|], idxs'[|ws|])
  {
  }

  /** An object through any number of wakeups, whatever messages come in at any point: it follows
      their run, and each index is built exactly when called for, from the cluster listed at that
      wakeup. */
  method WakeUps(d: Dashboard, ws: seq<Wakeup>) returns (idxs: seq<Option<E.Index>>)
    requires Follows(d, [])
    modifies d, d.log.Keys, d.stats
    ensures |idxs| == |ws| && BuildsAll(ws, idxs) && Follows(d, SamplerRun(ws, idxs))
  {
    idxs := [];
    for i := 0 to |ws|
      invariant |idxs| == i && BuildsAll(ws[..i], idxs)
      invariant fresh(d.log.Keys - old(d.log.Keys)) && fresh(d.stats - old(d.stats))
      invariant Follows(d, SamplerRun(ws[..i], idxs))
    {
      var idx := Wake(d, ws[i], SamplerRun(ws[..i], idxs));
      OneMoreWakeup(ws, i, idxs, idx);
      idxs := idxs + [idx];
    }
    assert ws[..|ws|] == ws;
  }

  /** From NewJourney on. */
  method SampleLoop(ws: seq<Wakeup>) returns (d: Dashboard, idxs: seq<Option<E.Index>>)
    ensures fresh(d) && |idxs| == |ws| && BuildsAll(ws, idxs) && Follows(d, SamplerRun(ws, idxs))
  {
    d := new Dashboard();
    idxs := WakeUps(d, ws);
  }
}
