/** The reconciler against the cluster, as a state machine: passes that read possibly stale
    versions of the object and stale pod lists, create and delete pods one call at a time,
    are cut short anywhere, and write back under a version check. */
module RunCluster {
  import opened EngineTypes
  import opened RunController

  datatype Stage =
    | Began
    | Creating(done: nat)
    | Removing(left: seq<Role>)
    | Writing(update: BenchmarkRun)

  /** A pass in progress and the version it read. */
  datatype Pass = Pass(version: nat, seen: BenchmarkRun, stage: Stage)

  /** `versions` is every stored version of the object, oldest first; `podLog` every set of
      pods the cluster has had; `refsSeen` what passes found when they looked up the
      referenced objects; `listsSeen` the pod lists that decided over a phase, with that
      phase. Pods are named by role, so there is at most one per role. */
  datatype Cluster = Cluster(
    now: int,
    versions: seq<BenchmarkRun>,
    gone: bool,
    podLog: seq<map<Role, Pod>>,
    refsSeen: set<Refs>,
    listsSeen: set<(Phase, seq<Pod>)>,
    passes: map<nat, Pass>)

  datatype Event =
    | Tick(ns: nat)
    | Begin(p: nat, version: nat)
    | Decides(p: nat, refs: Refs, list: nat)
    | CreatePod(p: nat, created: Pod)
    | AllCreated(p: nat)
    | DeletePod(p: nat)
    | Write(p: nat)
    | Abort(p: nat)
    | PodChanges(pod: Pod)
    | PodGone(role: Role)
    | UserTouches
    | UserDeletes

  const ROLES: seq<Role> := [Oracle, Submission, Gateway, Coordinator]

  const ALL_ROLES: set<Role> := {Oracle, Submission, Gateway, Coordinator}

  predicate Sane(c: Cluster) {
    c.versions != [] && c.podLog != []
  }

  function Current(c: Cluster): BenchmarkRun
    requires Sane(c)
  {
    c.versions[|c.versions| - 1]
  }

  function Pods(c: Cluster): map<Role, Pod>
    requires Sane(c)
  {
    c.podLog[|c.podLog| - 1]
  }

  /** A list call returns pods by name. */
  function Listed(m: map<Role, Pod>): seq<Pod> {
    (if Coordinator in m then [m[Coordinator]] else [])
    + (if Gateway in m then [m[Gateway]] else [])
    + (if Oracle in m then [m[Oracle]] else [])
    + (if Submission in m then [m[Submission]] else [])
  }

  ghost predicate Enabled(c: Cluster, e: Event)
    requires Sane(c)
  {
    match e
    case Tick(_) => true
    case Begin(p, version) => p !in c.passes && version < |c.versions|
    case Decides(p, _, list) => p in c.passes && c.passes[p].stage.Began? && list < |c.podLog|
    case CreatePod(p, created) =>
      && p in c.passes && c.passes[p].stage.Creating? && c.passes[p].stage.done < 4
      && created.role == ROLES[c.passes[p].stage.done] && !created.deleting
    case AllCreated(p) => p in c.passes && c.passes[p].stage == Creating(4)
    case DeletePod(p) => p in c.passes && c.passes[p].stage.Removing? && c.passes[p].stage.left != []
    case Write(p) => p in c.passes && c.passes[p].stage.Writing?
    case Abort(p) => p in c.passes
    case PodChanges(pod) => pod.role in Pods(c) && pod.deleting == Pods(c)[pod.role].deleting
    case PodGone(role) => role in Pods(c) && Pods(c)[role].deleting
    case UserTouches => !c.gone
    case UserDeletes => !c.gone
  }

  function WithStage(c: Cluster, p: nat, stage: Stage): Cluster
    requires p in c.passes
  {
    c.(passes := c.passes[p := c.passes[p].(stage := stage)])
  }

  function WithPods(c: Cluster, m: map<Role, Pod>): Cluster {
    c.(podLog := c.podLog + [m])
  }

  function EndPass(c: Cluster, p: nat): Cluster {
    c.(passes := c.passes - {p})
  }

  /** Only a pass that finds the run PENDING looks the references up; one that finds it
      PRIMING or RUNNING decides by the pods it lists. */
  function Looked(c: Cluster, seen: BenchmarkRun, refs: Refs, pods: seq<Pod>): Cluster {
    if seen.deleting || !seen.finalizer then c
    else if seen.phase == Pending then c.(refsSeen := c.refsSeen + {refs})
    else if seen.phase == Priming || seen.phase == Running then c.(listsSeen := c.listsSeen + {(seen.phase, pods)})
    else c
  }

  /** A pass takes up its plan. */
  function Planned(c: Cluster, p: nat, plan: Plan): Cluster
    requires p in c.passes
  {
    match plan
    case Nothing => EndPass(c, p)
    case Put(update) => WithStage(c, p, Writing(update))
    case CreatePods => WithStage(c, p, Creating(0))
    case DeletePods(targets) => WithStage(c, p, Removing(targets))
  }

  ghost function Decided(c: Cluster, p: nat, refs: Refs, list: nat): Cluster
    requires p in c.passes && list < |c.podLog|
  {
    var pods := Listed(c.podLog[list]);
    Planned(Looked(c, c.passes[p].seen, refs, pods), p, Decide(c.passes[p].seen, refs, pods, c.now))
  }

  /** The API server stores a version, and drops the object when it is being deleted and
      has no finalizer left. */
  function Stored(c: Cluster, r: BenchmarkRun): Cluster {
    c.(versions := c.versions + [r], gone := c.gone || (r.deleting && !r.finalizer))
  }

  ghost function Apply(c: Cluster, e: Event): Cluster
    requires Sane(c) && Enabled(c, e)
  {
    match e
    case Tick(ns) => c.(now := c.now + ns)
    case Begin(p, version) => c.(passes := c.passes[p := Pass(version, c.versions[version], Began)])
    case Decides(p, refs, list) => Decided(c, p, refs, list)
    case CreatePod(p, created) =>
      var c' := WithStage(c, p, Creating(c.passes[p].stage.done + 1));
      if created.role in Pods(c) then c' else WithPods(c', Pods(c)[created.role := created])
    case AllCreated(p) => WithStage(c, p, Writing(c.passes[p].seen.(phase := Priming)))
    case DeletePod(p) =>
      var role := c.passes[p].stage.left[0];
      var c' := WithStage(c, p, Removing(c.passes[p].stage.left[1..]));
      if role in Pods(c) then WithPods(c', Pods(c)[role := Pods(c)[role].(deleting := true)]) else c'
    case Write(p) =>
      var pass := c.passes[p];
      if pass.version == |c.versions| - 1 && !c.gone then Stored(EndPass(c, p), pass.stage.update)
      else EndPass(c, p)
    case Abort(p) => EndPass(c, p)
    case PodChanges(pod) => WithPods(c, Pods(c)[pod.role := pod])
    case PodGone(role) => WithPods(c, Pods(c) - {role})
    case UserTouches => Stored(c, Current(c))
    case UserDeletes => Stored(c, Current(c).(deleting := true))
  }

  predicate Initial(c: Cluster) {
    && c.versions == [BenchmarkRun(Unset, None, None, false, false)] && !c.gone
    && c.podLog == [map[]] && c.refsSeen == {} && c.listsSeen == {} && c.passes == map[]
  }

  ghost predicate Feasible(c: Cluster, es: seq<Event>)
    decreases |es|
  {
    es == [] || (Sane(c) && Enabled(c, es[0]) && Feasible(Apply(c, es[0]), es[1..]))
  }

  ghost function Run(c: Cluster, es: seq<Event>): Cluster
    requires Feasible(c, es)
    decreases |es|
  {
    if es == [] then c else Run(Apply(c, es[0]), es[1..])
  }

  ghost predicate AtEveryEvent(ok: (Cluster, Event) -> bool, c: Cluster, es: seq<Event>)
    requires Feasible(c, es)
    decreases |es|
  {
    es == [] || (ok(c, es[0]) && AtEveryEvent(ok, Apply(c, es[0]), es[1..]))
  }

  /** A run, one event longer. */
  lemma {:induction false} More(c: Cluster, es: seq<Event>, e: Event) returns (more: seq<Event>)
    requires Feasible(c, es) && Sane(Run(c, es)) && Enabled(Run(c, es), e)
    ensures more == es + [e] && Feasible(c, more) && Run(c, more) == Apply(Run(c, es), e)
    decreases |es|
  {
    more := es + [e];
    if es == [] {
      assert more[1..] == [];
    } else {
      var tail := More(Apply(c, es[0]), es[1..], e);
      assert more[1..] == tail;
    }
  }
}
