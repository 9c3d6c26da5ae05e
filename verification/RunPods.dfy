/** Pod ownership, over every interleaving of passes with stale reads, stale lists and
    interruptions anywhere. From PRIMING until deletion there is always exactly one pod per
    role. The finalizer outlives the last pod exactly as long as no pass decides on an
    outdated empty list, and no pod is made after some pass has decided to drop the
    finalizer. */
module RunPods {
  import opened EngineTypes
  import opened RunController
  import opened RunCluster

  predicate Allocated(p: Phase) {
    p == Priming || p == Running || p == Draining || p == Complete
  }

  predicate NoneDeleting(m: map<Role, Pod>) {
    forall role :: role in m ==> !m[role].deleting
  }

  // -- What holds in every run -----------------------------------------------

  /** Unless the object is being deleted (`deleting`), the pods a pass has made so far exist,
      and a write that enters PRIMING has all four. Only a pass that saw the deletion drops
      the finalizer. */
  ghost predicate StageOk(deleting: bool, pods: map<Role, Pod>, seen: BenchmarkRun, stage: Stage) {
    match stage
    case Began => true
    case Creating(done) =>
      && done <= 4 && seen.phase == Allocating && seen.finalizer && !seen.deleting
      && (deleting || forall i :: 0 <= i < done ==> ROLES[i] in pods)
    case Removing(_) => seen.deleting
    case Writing(update) =>
      && update.deleting == seen.deleting && (update.finalizer || seen.deleting)
      && (Allocated(update.phase) && !Allocated(seen.phase) ==> deleting || pods.Keys == ALL_ROLES)
  }

  ghost predicate PassOk(c: Cluster, pass: Pass)
    requires Sane(c)
  {
    && pass.version < |c.versions| && pass.seen == c.versions[pass.version]
    && StageOk(Current(c).deleting, Pods(c), pass.seen, pass.stage)
  }

  /** A deletion is never taken back, the finalizer stays until then, and before it no pod
      is being deleted and an allocated run has its four pods. */
  ghost predicate ObjectOk(c: Cluster)
    requires Sane(c)
  {
    var cur := Current(c);
    && (forall k :: 0 <= k < |c.versions| ==>
          && (c.versions[k].deleting ==> cur.deleting)
          && (c.versions[k].finalizer && !cur.deleting ==> cur.finalizer))
    && (c.gone ==> cur.deleting && !cur.finalizer)
    && (!cur.deleting ==> NoneDeleting(Pods(c)))
    && (Allocated(cur.phase) && !cur.deleting ==> Pods(c).Keys == ALL_ROLES)
  }

  ghost predicate Inv(c: Cluster) {
    && Sane(c) && ObjectOk(c)
    && forall p :: p in c.passes ==> PassOk(c, c.passes[p])
  }

  lemma AllFour(m: map<Role, Pod>)
    requires forall i :: 0 <= i < 4 ==> ROLES[i] in m
    ensures m.Keys == ALL_ROLES
  {
    assert ROLES[0] in m && ROLES[1] in m && ROLES[2] in m && ROLES[3] in m;
    forall role: Role
      ensures role in m && role in ALL_ROLES
    {
      match role
      case Oracle =>
      case Submission =>
      case Gateway =>
      case Coordinator =>
    }
  }

  lemma ListedNone(m: map<Role, Pod>)
    requires Listed(m) == []
    ensures m == map[]
  {
    assert |Listed(m)| == (if Coordinator in m then 1 else 0) + (if Gateway in m then 1 else 0)
                          + (if Oracle in m then 1 else 0) + (if Submission in m then 1 else 0);
    forall role: Role
      ensures role !in m
    {
      match role
      case Oracle =>
      case Submission =>
      case Gateway =>
      case Coordinator =>
    }
  }

  lemma DecideStage(deleting: bool, pods: map<Role, Pod>, seen: BenchmarkRun, refs: Refs, list: seq<Pod>, now: int)
    ensures var plan := Decide(seen, refs, list, now);
      && (plan.Put? ==> StageOk(deleting, pods, seen, Writing(plan.update)))
      && (plan.CreatePods? ==> StageOk(deleting, pods, seen, Creating(0)))
      && (plan.DeletePods? ==> StageOk(deleting, pods, seen, Removing(plan.targets)))
  {
  }

  lemma PassMoves(c: Cluster, p: nat, stage: Stage)
    requires Inv(c) && p in c.passes && StageOk(Current(c).deleting, Pods(c), c.passes[p].seen, stage)
    ensures Inv(WithStage(c, p, stage))
  {
  }

  lemma PassEnds(c: Cluster, p: nat)
    requires Inv(c)
    ensures Inv(EndPass(c, p))
  {
  }

  lemma LookingKeeps(c: Cluster, seen: BenchmarkRun, refs: Refs, pods: seq<Pod>)
    requires Inv(c)
    ensures Inv(Looked(c, seen, refs, pods))
  {
  }

  lemma PlanStep(c: Cluster, p: nat, plan: Plan)
    requires Inv(c) && p in c.passes
    requires var seen := c.passes[p].seen;
      && (plan.Put? ==> StageOk(Current(c).deleting, Pods(c), seen, Writing(plan.update)))
      && (plan.CreatePods? ==> StageOk(Current(c).deleting, Pods(c), seen, Creating(0)))
      && (plan.DeletePods? ==> StageOk(Current(c).deleting, Pods(c), seen, Removing(plan.targets)))
    ensures Inv(Planned(c, p, plan))
  {
    match plan
    case Nothing => PassEnds(c, p);
    case Put(update) => PassMoves(c, p, Writing(update));
    case CreatePods => PassMoves(c, p, Creating(0));
    case DeletePods(targets) => PassMoves(c, p, Removing(targets));
  }

  lemma DecidesStep(c: Cluster, p: nat, refs: Refs, list: nat)
    requires Inv(c) && Enabled(c, Decides(p, refs, list))
    ensures Inv(Apply(c, Decides(p, refs, list)))
  {
    var seen, pods := c.passes[p].seen, Listed(c.podLog[list]);
    LookingKeeps(c, seen, refs, pods);
    DecideStage(Current(c).deleting, Pods(c), seen, refs, pods, c.now);
    PlanStep(Looked(c, seen, refs, pods), p, Decide(seen, refs, pods, c.now));
  }

  /** Pods come, change and go; before a deletion none is lost or being deleted. */
  lemma PodsMove(c: Cluster, m: map<Role, Pod>)
    requires Inv(c)
    requires !Current(c).deleting ==> Pods(c).Keys <= m.Keys && NoneDeleting(m)
    ensures Inv(WithPods(c, m))
  {
    forall role: Role
      ensures role in ALL_ROLES
    {
      match role
      case Oracle =>
      case Submission =>
      case Gateway =>
      case Coordinator =>
    }
    assert ALL_ROLES <= m.Keys ==> m.Keys == ALL_ROLES;
  }

  lemma CreateStep(c: Cluster, p: nat, created: Pod)
    requires Inv(c) && Enabled(c, CreatePod(p, created))
    ensures Inv(Apply(c, CreatePod(p, created)))
  {
    assert PassOk(c, c.passes[p]);
    var done := c.passes[p].stage.done;
    if created.role in Pods(c) {
      PassMoves(c, p, Creating(done + 1));
    } else {
      var c1 := WithPods(c, Pods(c)[created.role := created]);
      PodsMove(c, Pods(c)[created.role := created]);
      PassMoves(c1, p, Creating(done + 1));
    }
  }

  lemma AllCreatedStep(c: Cluster, p: nat)
    requires Inv(c) && Enabled(c, AllCreated(p))
    ensures Inv(Apply(c, AllCreated(p)))
  {
    var pass := c.passes[p];
    assert PassOk(c, pass);
    if !Current(c).deleting {
      AllFour(Pods(c));
    }
    PassMoves(c, p, Writing(pass.seen.(phase := Priming)));
  }

  lemma DeleteStep(c: Cluster, p: nat)
    requires Inv(c) && Enabled(c, DeletePod(p))
    ensures Inv(Apply(c, DeletePod(p)))
  {
    var pass := c.passes[p];
    assert PassOk(c, pass);
    assert c.versions[pass.version].deleting;
    var role, left := pass.stage.left[0], pass.stage.left[1..];
    PassMoves(c, p, Removing(left));
    if role in Pods(c) {
      PodsMove(WithStage(c, p, Removing(left)), Pods(c)[role := Pods(c)[role].(deleting := true)]);
    }
  }

  lemma StoredStep(c: Cluster, r: BenchmarkRun)
    requires Inv(c) && !c.gone
    requires Current(c).deleting ==> r.deleting
    requires Current(c).finalizer ==> r.finalizer || r.deleting
    requires Allocated(r.phase) && !r.deleting ==> Pods(c).Keys == ALL_ROLES
    ensures Inv(Stored(c, r))
  {
  }

  lemma WriteStep(c: Cluster, p: nat)
    requires Inv(c) && Enabled(c, Write(p))
    ensures Inv(Apply(c, Write(p)))
  {
    var pass := c.passes[p];
    assert PassOk(c, pass);
    PassEnds(c, p);
    if pass.version == |c.versions| - 1 && !c.gone {
      StoredStep(EndPass(c, p), pass.stage.update);
    }
  }

  lemma StepInv(c: Cluster, e: Event)
    requires Inv(c) && Enabled(c, e)
    ensures Inv(Apply(c, e))
  {
    match e
    case Tick(_) =>
    case Begin(p, version) =>
    case Decides(p, refs, list) => DecidesStep(c, p, refs, list);
    case CreatePod(p, created) => CreateStep(c, p, created);
    case AllCreated(p) => AllCreatedStep(c, p);
    case DeletePod(p) => DeleteStep(c, p);
    case Write(p) => WriteStep(c, p);
    case Abort(p) => PassEnds(c, p);
    case PodChanges(pod) => PodsMove(c, Pods(c)[pod.role := pod]);
    case PodGone(role) => PodsMove(c, Pods(c) - {role});
    case UserTouches => StoredStep(c, Current(c));
    case UserDeletes => StoredStep(c, Current(c).(deleting := true));
  }

  lemma {:induction false} RunInv(c: Cluster, es: seq<Event>)
    requires Inv(c) && Feasible(c, es)
    ensures Inv(Run(c, es))
    decreases |es|
  {
    if es != [] {
      StepInv(c, es[0]);
      RunInv(Apply(c, es[0]), es[1..]);
    }
  }

  /** Over every interleaving whatsoever: a run in PRIMING or later that is not being deleted
      has exactly one pod for each of the four roles, none of them being deleted, however
      often pod creation was interrupted and rerun, by however many passes on however old
      reads. */
  lemma FourPods(c: Cluster, es: seq<Event>)
    requires Initial(c) && Feasible(c, es)
    ensures var t := Run(c, es);
      && Sane(t)
      && (Allocated(Current(t).phase) && !Current(t).deleting ==>
            Pods(t).Keys == ALL_ROLES && NoneDeleting(Pods(t)))
  {
    RunInv(c, es);
  }

  // -- The finalizer outlives the pods, exactly when --------------------------

  /** While any pod is left the object is there with its finalizer. */
  ghost predicate Guarded(c: Cluster) {
    Sane(c) && (Pods(c) != map[] ==> Current(c).finalizer && !c.gone)
  }

  /** Guarded, now and after any write some pass has already decided on. */
  ghost predicate Secure(c: Cluster) {
    && Guarded(c)
    && forall p :: Enabled(c, Write(p)) ==> Guarded(Apply(c, Write(p)))
  }

  /** The finalizer is gone, or a pass on the latest version has decided to drop it. */
  ghost predicate DropDecided(c: Cluster)
    requires Sane(c)
  {
    !Current(c).finalizer || exists p :: p in c.passes && AboutToDrop(c, c.passes[p])
  }

  predicate AboutToDrop(c: Cluster, pass: Pass) {
    pass.stage.Writing? && !pass.stage.update.finalizer && pass.version == |c.versions| - 1
  }

  /** A pass that read the latest version of an object being deleted and lists no pods has
      an up-to-date list; a new pod is made before any pass decides to drop the finalizer. */
  ghost predicate InTime(c: Cluster, e: Event) {
    Sane(c) && Enabled(c, e) &&
    match e
    case Decides(p, _, list) =>
      var pass := c.passes[p];
      pass.seen.deleting && pass.version == |c.versions| - 1 && !c.gone && Listed(c.podLog[list]) == [] ==>
        Pods(c) == map[]
    case CreatePod(_, created) => created.role in Pods(c) || !DropDecided(c)
    case _ => true
  }

  lemma SecureMeans(c: Cluster)
    requires Sane(c)
    ensures Secure(c) <==>
      && Guarded(c)
      && forall p :: p in c.passes && AboutToDrop(c, c.passes[p]) && !c.gone ==> Pods(c) == map[]
  {
    if Guarded(c) && (forall p :: p in c.passes && AboutToDrop(c, c.passes[p]) && !c.gone ==> Pods(c) == map[]) {
      forall p | Enabled(c, Write(p))
        ensures Guarded(Apply(c, Write(p)))
      {
        WriteGuarded(c, p);
      }
    }
    if Secure(c) {
      forall p | p in c.passes && AboutToDrop(c, c.passes[p]) && !c.gone
        ensures Pods(c) == map[]
      {
        assert Enabled(c, Write(p));
        WriteGuarded(c, p);
      }
    }
  }

  lemma WriteGuarded(c: Cluster, p: nat)
    requires Guarded(c) && Enabled(c, Write(p))
    ensures Guarded(Apply(c, Write(p))) <==> !AboutToDrop(c, c.passes[p]) || c.gone || Pods(c) == map[]
  {
    assert Apply(c, Write(p)).podLog == c.podLog;
  }

  lemma DecideDrops(seen: BenchmarkRun, refs: Refs, list: seq<Pod>, now: int)
    ensures var plan := Decide(seen, refs, list, now);
      plan.Put? && !plan.update.finalizer <==> seen.deleting && list == []
  {
  }

  /** Nothing is stored and no pod made, and no pass newly comes to drop the finalizer unless
      no pod is left. */
  lemma QuietSecure(c: Cluster, c': Cluster)
    requires Sane(c') && Secure(c)
    requires c'.versions == c.versions && c'.gone == c.gone && Pods(c').Keys <= Pods(c).Keys
    requires forall q :: q in c'.passes ==>
      (q in c.passes && c'.passes[q] == c.passes[q]) || !AboutToDrop(c', c'.passes[q]) || c.gone || Pods(c') == map[]
    ensures Secure(c')
  {
    SecureMeans(c);
    SecureMeans(c');
    assert Pods(c) == map[] ==> Pods(c') == map[];
  }

  /** What deciding changes: only the pass itself, which comes to drop the finalizer exactly
      if it saw the deletion and listed no pods. */
  lemma DecidedPass(c: Cluster, p: nat, refs: Refs, list: nat)
    requires Sane(c) && Enabled(c, Decides(p, refs, list))
    ensures var c' := Apply(c, Decides(p, refs, list));
      var pass := c.passes[p];
      && c'.versions == c.versions && c'.gone == c.gone && c'.podLog == c.podLog
      && (forall q :: q in c'.passes && q != p ==> q in c.passes && c'.passes[q] == c.passes[q])
      && ((p in c'.passes && AboutToDrop(c', c'.passes[p])) <==>
            pass.seen.deleting && pass.version == |c.versions| - 1 && Listed(c.podLog[list]) == [])
  {
    DecideDrops(c.passes[p].seen, refs, Listed(c.podLog[list]), c.now);
  }

  lemma DecidesSecure(c: Cluster, p: nat, refs: Refs, list: nat)
    requires Sane(c) && Secure(c) && Enabled(c, Decides(p, refs, list))
    ensures Secure(Apply(c, Decides(p, refs, list))) <==> InTime(c, Decides(p, refs, list))
  {
    var c' := Apply(c, Decides(p, refs, list));
    DecidedPass(c, p, refs, list);
    if InTime(c, Decides(p, refs, list)) {
      QuietSecure(c, c');
    } else {
      SecureMeans(c');
    }
  }

  lemma CreateSecure(c: Cluster, p: nat, created: Pod)
    requires Inv(c) && Secure(c) && Enabled(c, CreatePod(p, created))
    ensures Secure(Apply(c, CreatePod(p, created))) <==> InTime(c, CreatePod(p, created))
  {
    var c' := Apply(c, CreatePod(p, created));
    if created.role in Pods(c) {
      QuietSecure(c, c');
    } else {
      SecureMeans(c');
      assert created.role in Pods(c');
      assert forall q :: q in c.passes && AboutToDrop(c, c.passes[q]) ==>
        q in c'.passes && AboutToDrop(c', c'.passes[q]);
    }
  }

  /** Storing a version makes every decision taken before it stale. */
  lemma StoredSecure(c: Cluster, c': Cluster)
    requires Sane(c) && |c'.versions| == |c.versions| + 1 && Guarded(c')
    requires c'.passes.Keys <= c.passes.Keys
    requires forall p :: p in c'.passes ==> c'.passes[p] == c.passes[p] && c.passes[p].version < |c.versions|
    ensures Secure(c')
  {
    SecureMeans(c');
  }

  lemma WriteSecure(c: Cluster, p: nat)
    requires Inv(c) && Secure(c) && Enabled(c, Write(p))
    ensures Secure(Apply(c, Write(p)))
  {
    var c' := Apply(c, Write(p));
    assert Guarded(c');
    assert forall q :: q in c.passes ==> PassOk(c, c.passes[q]);
    if c'.versions == c.versions {
      QuietSecure(c, c');
    } else {
      StoredSecure(c, c');
    }
  }

  lemma UserSecure(c: Cluster, r: BenchmarkRun)
    requires Inv(c) && Secure(c) && !c.gone && r.finalizer == Current(c).finalizer
    ensures Secure(Stored(c, r))
  {
    assert forall q :: q in c.passes ==> PassOk(c, c.passes[q]);
    StoredSecure(c, Stored(c, r));
  }

  lemma StepSecure(c: Cluster, e: Event)
    requires Inv(c) && Secure(c) && Enabled(c, e)
    ensures Secure(Apply(c, e)) <==> InTime(c, e)
  {
    match e
    case Tick(_) => QuietSecure(c, Apply(c, e));
    case Begin(p, version) => QuietSecure(c, Apply(c, e));
    case Decides(p, refs, list) => DecidesSecure(c, p, refs, list);
    case CreatePod(p, created) => CreateSecure(c, p, created);
    case AllCreated(p) =>
      assert PassOk(c, c.passes[p]);
      QuietSecure(c, Apply(c, e));
    case DeletePod(p) => QuietSecure(c, Apply(c, e));
    case Write(p) => WriteSecure(c, p);
    case Abort(p) => QuietSecure(c, Apply(c, e));
    case PodChanges(pod) => QuietSecure(c, Apply(c, e));
    case PodGone(role) => QuietSecure(c, Apply(c, e));
    case UserTouches => UserSecure(c, Current(c));
    case UserDeletes => UserSecure(c, Current(c).(deleting := true));
  }

  ghost predicate AlwaysSecure(c: Cluster, es: seq<Event>)
    requires Feasible(c, es)
    decreases |es|
  {
    Secure(c) && (es == [] || AlwaysSecure(Apply(c, es[0]), es[1..]))
  }

  lemma {:induction false} AlwaysSecureIff(c: Cluster, es: seq<Event>)
    requires Inv(c) && Secure(c) && Feasible(c, es)
    ensures AlwaysSecure(c, es) <==> AtEveryEvent(InTime, c, es)
    ensures AlwaysSecure(c, es) ==> Guarded(Run(c, es))
    decreases |es|
  {
    if es != [] {
      StepSecure(c, es[0]);
      StepInv(c, es[0]);
      if Secure(Apply(c, es[0])) {
        AlwaysSecureIff(Apply(c, es[0]), es[1..]);
      }
    }
  }

  /** Over every interleaving, stale reads and lists included: pods stay guarded by the
      finalizer all along, whatever write already decided on comes next, if and only if
      every pass and every new pod is in time. */
  lemma GuardedIff(c: Cluster, es: seq<Event>)
    requires Initial(c) && Feasible(c, es)
    ensures AlwaysSecure(c, es) <==> AtEveryEvent(InTime, c, es)
    ensures AtEveryEvent(InTime, c, es) ==> Guarded(Run(c, es))
  {
    AlwaysSecureIff(c, es);
  }

  // -- Enough discipline -----------------------------------------------------

  /** A pass that saw the deletion lists the current pods, and new pods are made only while
      the object is not being deleted. Reads may be stale and passes may overlap. */
  ghost predicate Fresh(c: Cluster, e: Event) {
    Sane(c) && Enabled(c, e) &&
    match e
    case Decides(p, _, list) => c.passes[p].seen.deleting ==> Listed(c.podLog[list]) == Listed(Pods(c))
    case CreatePod(_, created) => created.role in Pods(c) || !Current(c).deleting
    case _ => true
  }

  lemma {:induction false} FreshInTime(c: Cluster, es: seq<Event>)
    requires Inv(c) && Feasible(c, es) && AtEveryEvent(Fresh, c, es)
    ensures AtEveryEvent(InTime, c, es)
    decreases |es|
  {
    if es != [] {
      FreshStep(c, es[0]);
      StepInv(c, es[0]);
      FreshInTime(Apply(c, es[0]), es[1..]);
    }
  }

  lemma FreshStep(c: Cluster, e: Event)
    requires Inv(c) && Fresh(c, e)
    ensures InTime(c, e)
  {
    assert forall p :: p in c.passes ==> PassOk(c, c.passes[p]);
    if e.Decides? && Listed(Pods(c)) == [] {
      ListedNone(Pods(c));
    }
  }

  /** Under those two conditions the finalizer outlives the last pod. */
  lemma GuardedWhenFresh(c: Cluster, es: seq<Event>)
    requires Initial(c) && Feasible(c, es) && AtEveryEvent(Fresh, c, es)
    ensures Guarded(Run(c, es))
  {
    FreshInTime(c, es);
    GuardedIff(c, es);
  }

  /** A pass begins only when no other is running and reads the latest version; it lists
      the pods there are. Pods may be made while the object is being deleted. */
  ghost predicate Disciplined(c: Cluster, e: Event) {
    Sane(c) && Enabled(c, e) &&
    match e
    case Begin(_, version) => c.passes == map[] && version == |c.versions| - 1
    case Decides(_, _, list) => list == |c.podLog| - 1
    case _ => true
  }

  /** At most one pass is running, and the finalizer it saw is still there. */
  ghost predicate Alone(c: Cluster) {
    && Sane(c)
    && (forall p, q :: p in c.passes && q in c.passes ==> p == q)
    && (forall p :: p in c.passes && c.passes[p].seen.finalizer ==> Current(c).finalizer)
  }

  lemma DisciplinedStep(c: Cluster, e: Event)
    requires Inv(c) && Alone(c) && Disciplined(c, e)
    ensures InTime(c, e)
  {
    assert forall p :: p in c.passes ==> PassOk(c, c.passes[p]);
    if e.Decides? && Listed(Pods(c)) == [] {
      ListedNone(Pods(c));
    }
  }

  lemma DisciplinedAlone(c: Cluster, e: Event)
    requires Alone(c) && Disciplined(c, e)
    ensures Alone(Apply(c, e))
  {
    if e.Decides? {
      DecidedPass(c, e.p, e.refs, e.list);
    }
  }

  lemma {:induction false} DisciplinedInTime(c: Cluster, es: seq<Event>)
    requires Inv(c) && Alone(c) && Feasible(c, es) && AtEveryEvent(Disciplined, c, es)
    ensures AtEveryEvent(InTime, c, es)
    decreases |es|
  {
    if es != [] {
      DisciplinedStep(c, es[0]);
      DisciplinedAlone(c, es[0]);
      StepInv(c, es[0]);
      DisciplinedInTime(Apply(c, es[0]), es[1..]);
    }
  }

  /** In particular when passes are serialized and read current state: exactly one pod per
      role from PRIMING until deletion, and while any pod is left the object is there with
      its finalizer. */
  lemma PodsOwned(c: Cluster, es: seq<Event>)
    requires Initial(c) && Feasible(c, es) && AtEveryEvent(Disciplined, c, es)
    ensures var t := Run(c, es);
      && Sane(t)
      && (Allocated(Current(t).phase) && !Current(t).deleting ==> Pods(t).Keys == ALL_ROLES)
      && (Pods(t) != map[] ==> Current(t).finalizer && !t.gone)
  {
    FourPods(c, es);
    DisciplinedInTime(c, es);
    GuardedIff(c, es);
  }

  // -- Runs in which a pod outlives the finalizer ----------------------------

  lemma PassDecides(t: Cluster, refs: Refs, list: nat, update: BenchmarkRun)
    requires Sane(t) && t.passes == map[] && list < |t.podLog|
    requires Decide(Current(t), refs, Listed(t.podLog[list]), t.now) == Put(update)
    ensures var t1 := Apply(t, Begin(0, |t.versions| - 1));
      Sane(t1) && Enabled(t1, Decides(0, refs, list)) &&
      var t2 := Apply(t1, Decides(0, refs, list));
      && t2.versions == t.versions && t2.podLog == t.podLog && t2.gone == t.gone && t2.now == t.now
      && t2.passes == map[0 := Pass(|t.versions| - 1, Current(t), Writing(update))]
  {
  }

  lemma PassSteps(t: Cluster, refs: Refs, list: nat, update: BenchmarkRun)
    requires Sane(t) && t.passes == map[] && !t.gone && list < |t.podLog|
    requires Decide(Current(t), refs, Listed(t.podLog[list]), t.now) == Put(update)
    ensures var t1 := Apply(t, Begin(0, |t.versions| - 1));
      Sane(t1) && Enabled(t1, Decides(0, refs, list)) &&
      var t2 := Apply(t1, Decides(0, refs, list));
      Sane(t2) && Enabled(t2, Write(0)) &&
      var u := Apply(t2, Write(0));
      && u.versions == t.versions + [update] && u.podLog == t.podLog && u.passes == map[] && u.now == t.now
      && u.gone == (update.deleting && !update.finalizer)
  {
    PassDecides(t, refs, list, update);
  }

  /** One pass from start to write, on the latest version. */
  lemma OnePass(c: Cluster, prefix: seq<Event>, refs: Refs, list: nat, update: BenchmarkRun) returns (es: seq<Event>)
    requires Feasible(c, prefix)
    requires var t := Run(c, prefix);
      && Sane(t) && t.passes == map[] && !t.gone && list < |t.podLog|
      && Decide(Current(t), refs, Listed(t.podLog[list]), t.now) == Put(update)
    ensures Feasible(c, es)
    ensures var t, u := Run(c, prefix), Run(c, es);
      && u.versions == t.versions + [update] && u.podLog == t.podLog && u.passes == map[] && u.now == t.now
      && u.gone == (update.deleting && !update.finalizer)
  {
    var t := Run(c, prefix);
    PassSteps(t, refs, list, update);
    es := More(c, prefix, Begin(0, |t.versions| - 1));
    es := More(c, es, Decides(0, refs, list));
    es := More(c, es, Write(0));
  }

  lemma ReachAllocating(c: Cluster) returns (es: seq<Event>)
    requires Initial(c)
    ensures Feasible(c, es)
    ensures var t := Run(c, es);
      && |t.versions| == 4 && t.versions[3] == BenchmarkRun(Allocating, None, None, true, false)
      && t.podLog == [map[]] && t.passes == map[] && !t.gone
  {
    es := OnePass(c, [], AllReady, 0, BenchmarkRun(Unset, None, None, true, false));
    es := OnePass(c, es, AllReady, 0, BenchmarkRun(Pending, None, None, true, false));
    es := OnePass(c, es, AllReady, 0, BenchmarkRun(Allocating, None, None, true, false));
  }

  /** A pass on an ALLOCATING version makes its first pod. */
  lemma FirstPod(c: Cluster, prefix: seq<Event>, version: nat) returns (es: seq<Event>)
    requires Feasible(c, prefix)
    requires var t := Run(c, prefix);
      && Sane(t) && t.passes == map[] && t.podLog == [map[]] && version < |t.versions|
      && t.versions[version] == BenchmarkRun(Allocating, None, None, true, false)
    ensures Feasible(c, es)
    ensures var t, u := Run(c, prefix), Run(c, es);
      && u.versions == t.versions && u.gone == t.gone && u.passes.Keys == {0} && u.now == t.now
      && u.podLog == [map[], map[Oracle := Pod(Oracle, PodPending, false, false)]]
  {
    es := More(c, prefix, Begin(0, version));
    es := More(c, es, Decides(0, AllReady, 0));
    es := More(c, es, CreatePod(0, Pod(Oracle, PodPending, false, false)));
  }

  /** A stale version: the run is deleted in ALLOCATING and its finalizer dropped, and a pass
      that still reads the version before creates a pod. */
  lemma StaleReadLeaksPod(c: Cluster) returns (es: seq<Event>)
    requires Initial(c)
    ensures Feasible(c, es) && !AtEveryEvent(InTime, c, es)
    ensures var t := Run(c, es);
      Sane(t) && t.gone && Pods(t).Keys == {Oracle}
  {
    es := ReachAllocating(c);
    es := More(c, es, UserDeletes);
    es := OnePass(c, es, AllReady, 0, BenchmarkRun(Allocating, None, None, false, true));
    es := FirstPod(c, es, 3);
    LeakNotInTime(c, es);
  }

  /** A stale pod list: after a pod has been made and the pass cut short, the run is deleted,
      and a pass that still lists no pods drops the finalizer. */
  lemma StaleListLeaksPod(c: Cluster) returns (es: seq<Event>)
    requires Initial(c)
    ensures Feasible(c, es) && !AtEveryEvent(InTime, c, es)
    ensures var t := Run(c, es);
      Sane(t) && t.gone && Pods(t).Keys == {Oracle}
  {
    es := ReachAllocating(c);
    es := FirstPod(c, es, 3);
    es := More(c, es, Abort(0));
    es := More(c, es, UserDeletes);
    es := OnePass(c, es, AllReady, 0, BenchmarkRun(Allocating, None, None, false, true));
    LeakNotInTime(c, es);
  }

  lemma LeakNotInTime(c: Cluster, es: seq<Event>)
    requires Initial(c) && Feasible(c, es) && !Guarded(Run(c, es))
    ensures !AtEveryEvent(InTime, c, es)
  {
    GuardedIff(c, es);
  }
}
