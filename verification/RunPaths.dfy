/** Runs that go all the way: through every phase to COMPLETE, to INVALID, and through a
    deletion until nothing is left. */
module RunPaths {
  import opened EngineTypes
  import opened RunController
  import opened RunCluster
  import RunPhases
  import RunPods

  /** One more phase on the way. */
  lemma PathGrows(versions: seq<BenchmarkRun>, r: BenchmarkRun)
    requires versions != []
    ensures RunPhases.PhasePath(versions + [r])
         == RunPhases.PhasePath(versions) + (if r.phase == versions[|versions| - 1].phase then [] else [r.phase])
  {
    var longer := versions + [r];
    assert longer[..|longer| - 1] == versions;
  }

  /** One pass from start to write, on the latest version and the current pods. */
  lemma WritePass(c: Cluster, prefix: seq<Event>, refs: Refs, update: BenchmarkRun) returns (es: seq<Event>)
    requires Feasible(c, prefix)
    requires var t := Run(c, prefix);
      Sane(t) && t.passes == map[] && !t.gone && Decide(Current(t), refs, Listed(Pods(t)), t.now) == Put(update)
    ensures Feasible(c, es)
    ensures var t, u := Run(c, prefix), Run(c, es);
      && u.versions == t.versions + [update] && u.podLog == t.podLog && u.passes == map[] && u.now == t.now
      && u.gone == (update.deleting && !update.finalizer)
      && RunPhases.PhasePath(u.versions) == RunPhases.PhasePath(t.versions)
           + (if update.phase == Current(t).phase then [] else [update.phase])
  {
    var t := Run(c, prefix);
    es := RunPods.OnePass(c, prefix, refs, |t.podLog| - 1, update);
    PathGrows(t.versions, update);
  }

  /** What a run looks like between passes. */
  ghost predicate Between(c: Cluster, r: BenchmarkRun, path: seq<Phase>) {
    && Sane(c) && c.passes == map[] && !c.gone && Current(c) == r && RunPhases.PhasePath(c.versions) == path
  }

  lemma ReachPending(c: Cluster) returns (es: seq<Event>)
    requires Initial(c)
    ensures Feasible(c, es) && Run(c, es).podLog == [map[]] && Run(c, es).now == c.now
    ensures Between(Run(c, es), BenchmarkRun(Pending, None, None, true, false), [Unset, Pending])
  {
    es := WritePass(c, [], AllReady, BenchmarkRun(Unset, None, None, true, false));
    es := WritePass(c, es, AllReady, BenchmarkRun(Pending, None, None, true, false));
  }

  /** A missing reference ends the run in INVALID. */
  lemma ReachInvalid(c: Cluster) returns (es: seq<Event>)
    requires Initial(c)
    ensures Feasible(c, es)
    ensures Between(Run(c, es), BenchmarkRun(Invalid, None, None, true, false), [Unset, Pending, Invalid])
  {
    es := ReachPending(c);
    es := WritePass(c, es, ScenarioMissing, BenchmarkRun(Invalid, None, None, true, false));
  }

  lemma ReachAllocating(c: Cluster) returns (es: seq<Event>)
    requires Initial(c)
    ensures Feasible(c, es) && Run(c, es).podLog == [map[]] && Run(c, es).now == c.now
    ensures Between(Run(c, es), BenchmarkRun(Allocating, None, None, true, false), [Unset, Pending, Allocating])
  {
    es := ReachPending(c);
    es := WritePass(c, es, AllReady, BenchmarkRun(Allocating, None, None, true, false));
  }

  const FRESH: map<Role, Pod> := map[
    Oracle := Pod(Oracle, PodPending, false, false),
    Submission := Pod(Submission, PodPending, false, false),
    Gateway := Pod(Gateway, PodPending, false, false),
    Coordinator := Pod(Coordinator, PodPending, false, false)]

  /** A pass makes its next pod. */
  lemma MakePod(c: Cluster, prefix: seq<Event>, version: nat, r: BenchmarkRun, done: nat) returns (es: seq<Event>)
    requires Feasible(c, prefix) && done < 4
    requires var t := Run(c, prefix);
      Sane(t) && t.passes == map[0 := Pass(version, r, Creating(done))] && ROLES[done] !in Pods(t)
    ensures Feasible(c, es)
    ensures var t, u := Run(c, prefix), Run(c, es);
      && Sane(u) && u.versions == t.versions && u.gone == t.gone && u.now == t.now
      && u.passes == map[0 := Pass(version, r, Creating(done + 1))]
      && Pods(u) == Pods(t)[ROLES[done] := Pod(ROLES[done], PodPending, false, false)]
  {
    es := More(c, prefix, CreatePod(0, Pod(ROLES[done], PodPending, false, false)));
  }

  lemma StartMaking(c: Cluster, prefix: seq<Event>) returns (es: seq<Event>)
    requires Feasible(c, prefix)
    requires var t := Run(c, prefix);
      Sane(t) && t.passes == map[] && Current(t) == BenchmarkRun(Allocating, None, None, true, false)
    ensures Feasible(c, es)
    ensures var t, u := Run(c, prefix), Run(c, es);
      && Sane(u) && u.versions == t.versions && u.gone == t.gone && u.now == t.now && u.podLog == t.podLog
      && u.passes == map[0 := Pass(|t.versions| - 1, Current(t), Creating(0))]
  {
    var t := Run(c, prefix);
    es := More(c, prefix, Begin(0, |t.versions| - 1));
    es := More(c, es, Decides(0, AllReady, |t.podLog| - 1));
  }

  /** A pass in ALLOCATING that makes all four pods. */
  lemma MakePods(c: Cluster, prefix: seq<Event>) returns (es: seq<Event>)
    requires Feasible(c, prefix)
    requires var t := Run(c, prefix);
      && Sane(t) && t.passes == map[] && !t.gone && Pods(t) == map[]
      && Current(t) == BenchmarkRun(Allocating, None, None, true, false)
    ensures Feasible(c, es)
    ensures var t, u := Run(c, prefix), Run(c, es);
      && Sane(u) && u.versions == t.versions && u.gone == t.gone && u.now == t.now && Pods(u) == FRESH
      && u.passes == map[0 := Pass(|t.versions| - 1, Current(t), Creating(4))]
  {
    var t := Run(c, prefix);
    var version, r := |t.versions| - 1, Current(t);
    es := StartMaking(c, prefix);
    es := MakePod(c, es, version, r, 0);
    es := MakePod(c, es, version, r, 1);
    es := MakePod(c, es, version, r, 2);
    es := MakePod(c, es, version, r, 3);
  }

  lemma ReachPriming(c: Cluster) returns (es: seq<Event>)
    requires Initial(c)
    ensures Feasible(c, es) && Sane(Run(c, es)) && Pods(Run(c, es)) == FRESH && Run(c, es).now == c.now
    ensures Between(Run(c, es), BenchmarkRun(Priming, None, None, true, false), [Unset, Pending, Allocating, Priming])
  {
    es := ReachAllocating(c);
    var t := Run(c, es);
    es := MakePods(c, es);
    es := More(c, es, AllCreated(0));
    es := More(c, es, Write(0));
    PathGrows(t.versions, BenchmarkRun(Priming, None, None, true, false));
    assert Run(c, es).passes == map[];
  }

  /** A pod changes while no pass runs. */
  lemma Changes(c: Cluster, prefix: seq<Event>, pod: Pod) returns (es: seq<Event>)
    requires Feasible(c, prefix)
    requires var t := Run(c, prefix);
      Sane(t) && pod.role in Pods(t) && !pod.deleting && !Pods(t)[pod.role].deleting
    ensures Feasible(c, es)
    ensures var t, u := Run(c, prefix), Run(c, es);
      && Sane(u) && u.versions == t.versions && u.gone == t.gone && u.now == t.now && u.passes == t.passes
      && Pods(u) == Pods(t)[pod.role := pod]
  {
    es := More(c, prefix, PodChanges(pod));
  }

  const ALL_UP: map<Role, Pod> := map[
    Oracle := Pod(Oracle, PodRunning, true, false),
    Submission := Pod(Submission, PodRunning, true, false),
    Gateway := Pod(Gateway, PodRunning, true, false),
    Coordinator := Pod(Coordinator, PodRunning, false, false)]

  /** Two pods change, one after the other. */
  lemma BothChange(c: Cluster, prefix: seq<Event>, a: Pod, b: Pod) returns (es: seq<Event>)
    requires Feasible(c, prefix) && Sane(Run(c, prefix)) && a.role != b.role && !a.deleting && !b.deleting
    requires var m := Pods(Run(c, prefix));
      a.role in m && b.role in m && !m[a.role].deleting && !m[b.role].deleting
    ensures Feasible(c, es)
    ensures var t, u := Run(c, prefix), Run(c, es);
      && Sane(u) && u.versions == t.versions && u.gone == t.gone && u.now == t.now && u.passes == t.passes
      && Pods(u) == Pods(t)[a.role := a][b.role := b]
  {
    es := Changes(c, prefix, a);
    es := Changes(c, es, b);
  }

  lemma AllComeUp(c: Cluster, prefix: seq<Event>) returns (es: seq<Event>)
    requires Feasible(c, prefix) && Sane(Run(c, prefix)) && Pods(Run(c, prefix)) == FRESH
    ensures Feasible(c, es)
    ensures var t, u := Run(c, prefix), Run(c, es);
      && Sane(u) && u.versions == t.versions && u.gone == t.gone && u.now == t.now && u.passes == t.passes
      && Pods(u) == ALL_UP
  {
    es := BothChange(c, prefix, ALL_UP[Oracle], ALL_UP[Submission]);
    es := BothChange(c, es, ALL_UP[Gateway], ALL_UP[Coordinator]);
  }

  /** Once the pods are ready the run is RUNNING, started at that instant. */
  lemma ReachRunning(c: Cluster) returns (es: seq<Event>)
    requires Initial(c)
    ensures Feasible(c, es) && Sane(Run(c, es)) && Pods(Run(c, es)) == ALL_UP && Run(c, es).now == c.now
    ensures Between(Run(c, es), BenchmarkRun(Running, Some(c.now), None, true, false),
                    [Unset, Pending, Allocating, Priming, Running])
  {
    es := ReachPriming(c);
    es := AllComeUp(c, es);
    assert PodsReady(Listed(ALL_UP));
    es := WritePass(c, es, AllReady, BenchmarkRun(Running, Some(c.now), None, true, false));
  }

  /** A succeeded coordinator takes the run to DRAINING. */
  lemma ReachDraining(c: Cluster) returns (es: seq<Event>)
    requires Initial(c)
    ensures Feasible(c, es) && Run(c, es).now == c.now
    ensures Between(Run(c, es), BenchmarkRun(Draining, Some(c.now), None, true, false),
                    [Unset, Pending, Allocating, Priming, Running, Draining])
  {
    es := ReachRunning(c);
    es := Changes(c, es, Pod(Coordinator, PodSucceeded, false, false));
    DoneListed(Pods(Run(c, es)));
    es := WritePass(c, es, AllReady, BenchmarkRun(Draining, Some(c.now), None, true, false));
  }

  lemma DoneListed(m: map<Role, Pod>)
    requires Coordinator in m && m[Coordinator] == Pod(Coordinator, PodSucceeded, false, false)
    ensures CoordinatorDone(Listed(m))
  {
    assert Listed(m)[0] == m[Coordinator];
  }

  /** A run whose coordinator succeeds goes through every phase to COMPLETE, with both
      timestamps taken when it got there. */
  lemma ReachComplete(c: Cluster, took: nat) returns (es: seq<Event>)
    requires Initial(c)
    ensures Feasible(c, es)
    ensures Between(Run(c, es), BenchmarkRun(Complete, Some(c.now), Some(c.now + took), true, false),
                    [Unset, Pending, Allocating, Priming, Running, Draining, Complete])
  {
    es := ReachDraining(c);
    es := More(c, es, Tick(took));
    es := WritePass(c, es, AllReady, BenchmarkRun(Complete, Some(c.now), Some(c.now + took), true, false));
  }

  /** A pass on an object being deleted lists its one pod. */
  lemma ListOnePod(c: Cluster, prefix: seq<Event>, pod: Pod) returns (es: seq<Event>)
    requires Feasible(c, prefix) && pod.role == Oracle && !pod.deleting
    requires var t := Run(c, prefix);
      Sane(t) && t.passes == map[] && !t.gone && Pods(t) == map[Oracle := pod] && Current(t).deleting
    ensures Feasible(c, es)
    ensures var t, u := Run(c, prefix), Run(c, es);
      && Sane(u) && u.versions == t.versions && !u.gone && u.podLog == t.podLog
      && u.passes == map[0 := Pass(|t.versions| - 1, Current(t), Removing([Oracle]))]
  {
    var t := Run(c, prefix);
    OnePodListed(pod);
    es := More(c, prefix, Begin(0, |t.versions| - 1));
    es := More(c, es, Decides(0, AllReady, |t.podLog| - 1));
  }

  /** It asks for the pod to be deleted, and is cut short; the pod goes. */
  lemma DeleteOnePod(c: Cluster, prefix: seq<Event>, pod: Pod) returns (es: seq<Event>)
    requires Feasible(c, prefix) && pod.role == Oracle && !pod.deleting
    requires var t := Run(c, prefix);
      Sane(t) && t.passes == map[] && !t.gone && Pods(t) == map[Oracle := pod] && Current(t).deleting
    ensures Feasible(c, es)
    ensures var t, u := Run(c, prefix), Run(c, es);
      Sane(u) && u.versions == t.versions && !u.gone && u.passes == map[] && Pods(u) == map[]
  {
    es := ListOnePod(c, prefix, pod);
    es := More(c, es, DeletePod(0));
    es := More(c, es, Abort(0));
    es := More(c, es, PodGone(Oracle));
  }

  lemma OnePodListed(pod: Pod)
    requires pod.role == Oracle && !pod.deleting
    ensures NotDeleting(Listed(map[Oracle := pod])) == [Oracle] && Listed(map[Oracle := pod]) != []
  {
    assert Listed(map[Oracle := pod]) == [pod];
    assert [pod][..0] == [];
  }

  /** A deleted run: a pass asks for its pod to be deleted, the pod goes, and the next pass
      drops the finalizer, so that object and pods are gone. */
  lemma ReachGone(c: Cluster) returns (es: seq<Event>)
    requires Initial(c)
    ensures Feasible(c, es)
    ensures var t := Run(c, es); Sane(t) && t.gone && Pods(t) == map[]
  {
    es := ReachAllocating(c);
    es := RunPods.FirstPod(c, es, |Run(c, es).versions| - 1);
    es := More(c, es, Abort(0));
    es := More(c, es, UserDeletes);
    es := DeleteOnePod(c, es, Pod(Oracle, PodPending, false, false));
    es := WritePass(c, es, AllReady, BenchmarkRun(Allocating, None, None, false, true));
  }

  /** The version check: a pass whose object was edited after it read it writes nothing. */
  lemma EditedWriteLost(c: Cluster, p: nat)
    requires Sane(c) && !c.gone && Enabled(c, Write(p)) && c.passes[p].version < |c.versions|
    ensures var t := Apply(c, UserTouches);
      && Sane(t) && Enabled(t, Write(p)) && t.versions == c.versions + [Current(c)]
      && Apply(t, Write(p)).versions == t.versions && p !in Apply(t, Write(p)).passes
  {
  }
}
