/** Phase safety, over every interleaving of passes with stale reads and version-checked
    writes, operator crashes and user edits. */
module RunPhases {
  import opened EngineTypes
  import opened RunController
  import opened RunCluster

  predicate Started(p: Phase) {
    p == Running || p == Draining || p == Complete
  }

  /** StartedAt is set exactly from RUNNING on, EndedAt exactly in COMPLETE. */
  predicate Coherent(r: BenchmarkRun) {
    (r.startedAt.Some? <==> Started(r.phase)) && (r.endedAt.Some? <==> r.phase == Complete)
  }

  predicate Terminal(p: Phase) {
    p == Complete || p == Invalid || p == Aborted || p == InsufficientCapacity || p == GatewayReject
  }

  predicate NextPhase(p: Phase, q: Phase) {
    || (p == Unset && q == Pending)
    || (p == Pending && q == Allocating)
    || (p == Pending && q == Invalid)
    || (p == Allocating && q == Priming)
    || (p == Priming && q == Running)
    || (p == Running && q == Draining)
    || (p == Draining && q == Complete)
  }

  /** One stored version after another: the status stands still or advances one phase, and
      a timestamp once set is kept. */
  predicate Advances(a: BenchmarkRun, b: BenchmarkRun) {
    && (a.phase == b.phase ==> a.startedAt == b.startedAt && a.endedAt == b.endedAt)
    && (a.phase == b.phase || NextPhase(a.phase, b.phase))
    && (a.startedAt.Some? ==> b.startedAt == a.startedAt)
    && (Coherent(a) ==> Coherent(b))
  }

  /** ALLOCATING and INVALID are backed by what some pass found about the references,
      RUNNING by a list with all pods ready that some pass took in PRIMING, DRAINING by a
      list with a succeeded coordinator that some pass took in RUNNING. */
  ghost predicate Justified(c: Cluster, p: Phase) {
    && (p == Allocating ==> AllReady in c.refsSeen)
    && (p == Invalid ==>
          SubmissionMissing in c.refsSeen || ScenarioMissing in c.refsSeen || SwarmMissing in c.refsSeen)
    && (p == Running ==> exists pods :: (Priming, pods) in c.listsSeen && PodsReady(pods))
    && (p == Draining ==> exists pods :: (Running, pods) in c.listsSeen && CoordinatorDone(pods))
  }

  /** A list shows pods the cluster really had. */
  ghost predicate RealList(c: Cluster, pods: seq<Pod>) {
    exists h :: 0 <= h < |c.podLog| && pods == Listed(c.podLog[h])
  }

  ghost predicate PassOk(c: Cluster, pass: Pass) {
    && pass.version < |c.versions| && pass.seen == c.versions[pass.version]
    && (pass.stage.Creating? ==> pass.seen.phase == Allocating)
    && (pass.stage.Writing? ==> Advances(pass.seen, pass.stage.update) && Justified(c, pass.stage.update.phase))
  }

  ghost predicate HistoryOk(c: Cluster)
    requires Sane(c)
  {
    && c.versions[0].phase == Unset
    && (forall i :: 0 <= i < |c.versions| ==> Coherent(c.versions[i]) && Justified(c, c.versions[i].phase))
    && (forall i :: 0 < i < |c.versions| ==> Advances(c.versions[i - 1], c.versions[i]))
  }

  ghost predicate Inv(c: Cluster) {
    && Sane(c) && HistoryOk(c)
    && (forall p :: p in c.passes ==> PassOk(c, c.passes[p]))
    && (forall list :: list in c.listsSeen ==> RealList(c, list.1))
  }

  ghost predicate Grows(c: Cluster, c': Cluster) {
    c.podLog <= c'.podLog && c.refsSeen <= c'.refsSeen && c.listsSeen <= c'.listsSeen
  }

  /** Everything except storing a version: logs grow, passes other than those re-checked
      stay. */
  lemma QuietStep(c: Cluster, c': Cluster)
    requires Inv(c) && c'.versions == c.versions && Grows(c, c')
    requires forall list :: list in c'.listsSeen - c.listsSeen ==> RealList(c', list.1)
    requires forall p :: p in c'.passes ==> PassOk(c', c'.passes[p]) || (p in c.passes && c'.passes[p] == c.passes[p])
    ensures Inv(c')
  {
    forall list | list in c'.listsSeen
      ensures RealList(c', list.1)
    {
      if list in c.listsSeen {
        var h :| 0 <= h < |c.podLog| && list.1 == Listed(c.podLog[h]);
        assert c'.podLog[h] == c.podLog[h];
      }
    }
  }

  /** A decision only ever asks for the next phase, with the evidence it saw. */
  lemma DecideAdvances(c: Cluster, r: BenchmarkRun, refs: Refs, pods: seq<Pod>)
    requires Justified(c, r.phase)
    ensures var plan := Decide(r, refs, pods, c.now);
      && (plan.Put? && Coherent(r) ==>
            Advances(r, plan.update) && Justified(Looked(c, r, refs, pods), plan.update.phase))
      && (plan.CreatePods? ==> r.phase == Allocating)
  {
    var c' := Looked(c, r, refs, pods);
    assert (Priming, pods) in c'.listsSeen || c'.listsSeen == c.listsSeen || (Running, pods) in c'.listsSeen;
  }

  lemma LookedStep(c: Cluster, r: BenchmarkRun, refs: Refs, list: nat)
    requires Inv(c) && list < |c.podLog|
    ensures Inv(Looked(c, r, refs, Listed(c.podLog[list])))
  {
    var looked := Looked(c, r, refs, Listed(c.podLog[list]));
    assert RealList(looked, Listed(c.podLog[list]));
    QuietStep(c, looked);
  }

  lemma DecidesStep(c: Cluster, p: nat, refs: Refs, list: nat)
    requires Inv(c) && Enabled(c, Decides(p, refs, list))
    ensures Inv(Apply(c, Decides(p, refs, list)))
  {
    var pass := c.passes[p];
    var pods := Listed(c.podLog[list]);
    assert PassOk(c, pass);
    LookedStep(c, pass.seen, refs, list);
    DecideAdvances(c, pass.seen, refs, pods);
    PlanStep(Looked(c, pass.seen, refs, pods), p, Decide(pass.seen, refs, pods, c.now));
  }

  lemma PlanStep(c: Cluster, p: nat, plan: Plan)
    requires Inv(c) && p in c.passes
    requires plan.Put? ==> Advances(c.passes[p].seen, plan.update) && Justified(c, plan.update.phase)
    requires plan.CreatePods? ==> c.passes[p].seen.phase == Allocating
    ensures Inv(Planned(c, p, plan))
  {
    assert PassOk(c, c.passes[p]);
    QuietStep(c, Planned(c, p, plan));
  }

  lemma StoredStep(c: Cluster, r: BenchmarkRun)
    requires Inv(c) && Advances(Current(c), r) && Justified(c, r.phase)
    ensures Inv(Stored(c, r))
  {
  }

  lemma WriteStep(c: Cluster, p: nat)
    requires Inv(c) && Enabled(c, Write(p))
    ensures Inv(Apply(c, Write(p)))
  {
    var pass := c.passes[p];
    assert PassOk(c, pass);
    QuietStep(c, EndPass(c, p));
    if pass.version == |c.versions| - 1 && !c.gone {
      StoredStep(EndPass(c, p), pass.stage.update);
    }
  }

  lemma StepInv(c: Cluster, e: Event)
    requires Inv(c) && Enabled(c, e)
    ensures Inv(Apply(c, e))
  {
    match e
    case Decides(p, refs, list) => DecidesStep(c, p, refs, list);
    case Write(p) => WriteStep(c, p);
    case UserTouches => StoredStep(c, Current(c));
    case UserDeletes => StoredStep(c, Current(c).(deleting := true));
    case Begin(p, _) => PassStep(c, Apply(c, e), p);
    case CreatePod(p, created) => CreateStep(c, p, created);
    case AllCreated(p) => AllCreatedStep(c, p);
    case DeletePod(p) => DeleteStep(c, p);
    case _ => PodStep(c, e);
  }

  /** One pass moves on; `c'` may also have logged new pods. */
  lemma PassStep(c: Cluster, c': Cluster, p: nat)
    requires Inv(c) && c'.versions == c.versions && Grows(c, c') && c'.listsSeen == c.listsSeen
    requires p in c'.passes && c'.passes == c.passes[p := c'.passes[p]] && PassOk(c', c'.passes[p])
    ensures Inv(c')
  {
    QuietStep(c, c');
  }

  lemma CreateStep(c: Cluster, p: nat, created: Pod)
    requires Inv(c) && Enabled(c, CreatePod(p, created))
    ensures Inv(Apply(c, CreatePod(p, created)))
  {
    assert PassOk(c, c.passes[p]);
    PassStep(c, Apply(c, CreatePod(p, created)), p);
  }

  lemma DeleteStep(c: Cluster, p: nat)
    requires Inv(c) && Enabled(c, DeletePod(p))
    ensures Inv(Apply(c, DeletePod(p)))
  {
    assert PassOk(c, c.passes[p]);
    PassStep(c, Apply(c, DeletePod(p)), p);
  }

  lemma AllCreatedStep(c: Cluster, p: nat)
    requires Inv(c) && Enabled(c, AllCreated(p))
    ensures Inv(Apply(c, AllCreated(p)))
  {
    assert PassOk(c, c.passes[p]);
    PassStep(c, Apply(c, AllCreated(p)), p);
  }

  lemma PodStep(c: Cluster, e: Event)
    requires Inv(c) && Enabled(c, e)
    requires e.Tick? || e.Abort? || e.PodChanges? || e.PodGone?
    ensures Inv(Apply(c, e))
  {
    QuietStep(c, Apply(c, e));
  }

  lemma {:induction false} RunInv(c: Cluster, es: seq<Event>)
    requires Inv(c) && Feasible(c, es)
    ensures Inv(Run(c, es))
    decreases |es|
  {
    if es != [] {
      StepInv(c, es[0]);
      RunInv(Apply(c, es[0]), es[1..]);
    }
  }

  // -- The sequence of stored phases -----------------------------------------

  const MAIN: seq<Phase> := [Unset, Pending, Allocating, Priming, Running, Draining, Complete]
  const REFUSED: seq<Phase> := [Unset, Pending, Invalid]

  /** Stored phases with repetitions removed. */
  function PhasePath(versions: seq<BenchmarkRun>): seq<Phase>
    requires versions != []
  {
    var n := |versions| - 1;
    if n == 0 then [versions[0].phase]
    else
      var path := PhasePath(versions[..n]);
      if versions[n].phase == versions[n - 1].phase then path else path + [versions[n].phase]
  }

  lemma {:induction false} PathIsPrefix(versions: seq<BenchmarkRun>)
    requires versions != [] && versions[0].phase == Unset
    requires forall i :: 0 < i < |versions| ==> Advances(versions[i - 1], versions[i])
    ensures PhasePath(versions) <= MAIN || PhasePath(versions) <= REFUSED
    ensures PhasePath(versions) != [] && PhasePath(versions)[|PhasePath(versions)| - 1] == versions[|versions| - 1].phase
  {
    var n := |versions| - 1;
    if n > 0 {
      PathIsPrefix(versions[..n]);
      var path := PhasePath(versions[..n]);
      assert Advances(versions[n - 1], versions[n]);
      assert path[|path| - 1] == versions[n - 1].phase;
      ExtendPath(path, versions[n].phase);
    }
  }

  lemma ExtendPath(path: seq<Phase>, q: Phase)
    requires path != [] && (path <= MAIN || path <= REFUSED)
    requires q == path[|path| - 1] || NextPhase(path[|path| - 1], q)
    ensures q == path[|path| - 1] || path + [q] <= MAIN || path + [q] <= REFUSED
  {
  }

  lemma {:induction false} TerminalForever(versions: seq<BenchmarkRun>, i: nat, j: nat)
    requires i <= j < |versions| && Terminal(versions[i].phase)
    requires forall k :: 0 < k < |versions| ==> Advances(versions[k - 1], versions[k])
    ensures versions[j].phase == versions[i].phase
    ensures versions[j].startedAt == versions[i].startedAt && versions[j].endedAt == versions[i].endedAt
    decreases j
  {
    if i < j {
      TerminalForever(versions, i, j - 1);
      assert Advances(versions[j - 1], versions[j]);
    }
  }

  /** In every run: the stored phases form a prefix of the main or of the refused path,
      timestamps agree with the phase in every stored version, every stored ALLOCATING,
      INVALID, RUNNING or DRAINING was justified by what a pass looked up or listed, every
      list showing pods the cluster really had, and a terminal status never changes. */
  lemma PhasesSafe(c: Cluster, es: seq<Event>)
    requires Initial(c) && Feasible(c, es)
    ensures var t := Run(c, es);
      && t.versions != []
      && (PhasePath(t.versions) <= MAIN || PhasePath(t.versions) <= REFUSED)
      && (forall i :: 0 <= i < |t.versions| ==> Coherent(t.versions[i]) && Justified(t, t.versions[i].phase))
      && (forall list :: list in t.listsSeen ==> RealList(t, list.1))
      && (forall i, j :: 0 <= i <= j < |t.versions| && Terminal(t.versions[i].phase) ==>
            t.versions[j].phase == t.versions[i].phase && t.versions[j].startedAt == t.versions[i].startedAt
            && t.versions[j].endedAt == t.versions[i].endedAt)
  {
    RunInv(c, es);
    var t := Run(c, es);
    PathIsPrefix(t.versions);
    forall i, j | 0 <= i <= j < |t.versions| && Terminal(t.versions[i].phase)
      ensures t.versions[j].phase == t.versions[i].phase && t.versions[j].startedAt == t.versions[i].startedAt
      ensures t.versions[j].endedAt == t.versions[i].endedAt
    {
      TerminalForever(t.versions, i, j);
    }
  }
}
