/** One pass of the BenchmarkRun reconciler
    (apps/benchmark-operator/internal/controller/benchmarkrun_controller.go): what it decides
    from the object it read, the referenced objects and the pods it listed. */
module RunController {
  import opened EngineTypes

  datatype Phase =
    | Unset | Pending | Allocating | Priming | Running | Draining | Complete
    | Invalid | Aborted | InsufficientCapacity | GatewayReject | Unknown

  /** The parts of a BenchmarkRun the state machine reads and writes. */
  datatype BenchmarkRun = BenchmarkRun(
    phase: Phase,
    startedAt: Option<int>,
    endedAt: Option<int>,
    finalizer: bool,
    deleting: bool)

  datatype Role = Oracle | Submission | Gateway | Coordinator

  datatype PodPhase = PodPending | PodRunning | PodSucceeded | PodFailed

  datatype Pod = Pod(role: Role, phase: PodPhase, ready: bool, deleting: bool)

  /** What the pass learns about the referenced objects. Any Get error counts as missing,
      not only not-found. */
  datatype Refs =
    | SubmissionMissing | SubmissionNotReady | ScenarioMissing | ScenarioNotHashed | SwarmMissing | AllReady

  datatype Plan =
    | Nothing
    | Put(update: BenchmarkRun)
    | CreatePods
    | DeletePods(targets: seq<Role>)

  ghost predicate PodsReady(pods: seq<Pod>) {
    && |pods| >= 4
    && forall i :: 0 <= i < |pods| ==>
         if pods[i].role == Coordinator then pods[i].phase != PodPending else pods[i].ready
  }

  ghost predicate CoordinatorDone(pods: seq<Pod>) {
    exists i :: 0 <= i < |pods| && pods[i].role == Coordinator && pods[i].phase == PodSucceeded
  }

  method AllOwnedPodsReady(pods: seq<Pod>) returns (ready: bool)
    ensures ready <==> PodsReady(pods)
  {
    if |pods| < 4 {
      return false;
    }
    var i := 0;
    while i < |pods|
      invariant i <= |pods|
      invariant forall j :: 0 <= j < i ==>
        if pods[j].role == Coordinator then pods[j].phase != PodPending else pods[j].ready
    {
      if pods[i].role == Coordinator {
        if pods[i].phase == PodPending {
          return false;
        }
      } else if !pods[i].ready {
        return false;
      }
      i := i + 1;
    }
    return true;
  }

  method CoordinatorSucceeded(pods: seq<Pod>) returns (done: bool)
    ensures done <==> CoordinatorDone(pods)
  {
    var i := 0;
    while i < |pods|
      invariant i <= |pods|
      invariant forall j :: 0 <= j < i ==> !(pods[j].role == Coordinator && pods[j].phase == PodSucceeded)
    {
      if pods[i].role == Coordinator && pods[i].phase == PodSucceeded {
        return true;
      }
      i := i + 1;
    }
    return false;
  }

  /** Roles of the listed pods whose deletion has not been requested yet, in list order. */
  function NotDeleting(pods: seq<Pod>): seq<Role> {
    if pods == [] then []
    else NotDeleting(pods[..|pods| - 1])
         + (if pods[|pods| - 1].deleting then [] else [pods[|pods| - 1].role])
  }

  ghost predicate Deletable(pods: seq<Pod>, role: Role) {
    exists i :: 0 <= i < |pods| && pods[i].role == role && !pods[i].deleting
  }

  lemma {:induction false} NotDeletingExact(pods: seq<Pod>, role: Role)
    ensures role in NotDeleting(pods) <==> Deletable(pods, role)
  {
    if pods != [] {
      var n := |pods| - 1;
      NotDeletingExact(pods[..n], role);
      if Deletable(pods[..n], role) {
        var i :| 0 <= i < n && pods[..n][i].role == role && !pods[..n][i].deleting;
        assert pods[i] == pods[..n][i];
      }
      if Deletable(pods, role) {
        var i :| 0 <= i < |pods| && pods[i].role == role && !pods[i].deleting;
        assert i < n ==> pods[..n][i] == pods[i];
      }
    }
  }

  method PodsToDelete(pods: seq<Pod>) returns (targets: seq<Role>)
    ensures targets == NotDeleting(pods)
    ensures forall role :: role in targets <==> Deletable(pods, role)
  {
    targets := [];
    var i := 0;
    while i < |pods|
      invariant i <= |pods| && targets == NotDeleting(pods[..i])
    {
      assert pods[..i + 1][..i] == pods[..i];
      if !pods[i].deleting {
        targets := targets + [pods[i].role];
      }
      i := i + 1;
    }
    assert pods[..i] == pods;
    forall role: Role
      ensures role in targets <==> Deletable(pods, role)
    {
      NotDeletingExact(pods, role);
    }
  }

  ghost function Decide(r: BenchmarkRun, refs: Refs, pods: seq<Pod>, now: int): Plan {
    if r.deleting then
      if pods != [] then DeletePods(NotDeleting(pods)) else Put(r.(finalizer := false))
    else if !r.finalizer then Put(r.(finalizer := true))
    else
      match r.phase
      case Unset => Put(r.(phase := Pending))
      case Pending =>
        (match refs
         case SubmissionMissing => Put(r.(phase := Invalid))
         case SubmissionNotReady => Nothing
         case ScenarioMissing => Put(r.(phase := Invalid))
         case ScenarioNotHashed => Nothing
         case SwarmMissing => Put(r.(phase := Invalid))
         case AllReady => Put(r.(phase := Allocating)))
      case Allocating => CreatePods
      case Priming => if PodsReady(pods) then Put(r.(phase := Running, startedAt := Some(now))) else Nothing
      case Running => if CoordinatorDone(pods) then Put(r.(phase := Draining)) else Nothing
      case Draining => Put(r.(phase := Complete, endedAt := Some(now)))
      case _ => Nothing
  }

  /** The in-memory copy of the object that a pass edits before writing it back. */
  class RunCopy {
    var phase: Phase
    var startedAt: Option<int>
    var endedAt: Option<int>
    var finalizer: bool
    var deleting: bool

    constructor (r: BenchmarkRun)
      ensures View() == r
    {
      phase, startedAt, endedAt, finalizer, deleting := r.phase, r.startedAt, r.endedAt, r.finalizer, r.deleting;
    }

    function View(): BenchmarkRun
      reads this
    {
      BenchmarkRun(phase, startedAt, endedAt, finalizer, deleting)
    }

    /** One reconcile pass up to its write: edits this copy and says what to do with it. The
        phase moves on exactly when what the pass looked up or listed calls for it. */
    method Reconcile(refs: Refs, pods: seq<Pod>, now: int) returns (plan: Plan)
      modifies this
      ensures plan == Decide(old(View()), refs, pods, now)
      ensures View() == if plan.Put? then plan.update else old(View())
      ensures old(deleting) && pods == [] ==> plan == Put(old(View()).(finalizer := false))
      ensures old(deleting) && pods != [] ==>
        && plan.DeletePods?
        && forall role :: role in plan.targets <==>
             exists i :: 0 <= i < |pods| && pods[i].role == role && !pods[i].deleting
      ensures !old(deleting) && !old(finalizer) ==> plan == Put(old(View()).(finalizer := true))
      ensures !old(deleting) && old(finalizer) ==>
        match old(phase)
        case Unset => plan == Put(old(View()).(phase := Pending))
        case Pending =>
          && (refs == AllReady <==> plan == Put(old(View()).(phase := Allocating)))
          && (refs == SubmissionMissing || refs == ScenarioMissing || refs == SwarmMissing
              <==> plan == Put(old(View()).(phase := Invalid)))
          && (refs == SubmissionNotReady || refs == ScenarioNotHashed <==> plan == Nothing)
        case Allocating => plan == CreatePods
        case Priming =>
          var ready := |pods| >= 4 && forall i :: 0 <= i < |pods| ==>
            if pods[i].role == Coordinator then pods[i].phase != PodPending else pods[i].ready;
          plan == if ready then Put(old(View()).(phase := Running, startedAt := Some(now))) else Nothing
        case Running =>
          var done := exists i :: 0 <= i < |pods| && pods[i].role == Coordinator && pods[i].phase == PodSucceeded;
          plan == if done then Put(old(View()).(phase := Draining)) else Nothing
        case Draining => plan == Put(old(View()).(phase := Complete, endedAt := Some(now)))
        case _ => plan == Nothing
    {
      if deleting {
        plan := HandleDelete(pods);
        assert pods != [] ==> forall role :: role in plan.targets <==> Deletable(pods, role);
        return;
      }
      if !finalizer {
        finalizer := true;
        return Put(View());
      }
      match phase {
        case Unset =>
          phase := Pending;
          return Put(View());
        case Pending =>
          plan := ToAllocating(refs);
        case Allocating =>
          return CreatePods;
        case Priming =>
          var ready := AllOwnedPodsReady(pods);
          if !ready {
            return Nothing;
          }
          phase := Running;
          startedAt := Some(now);
          return Put(View());
        case Running =>
          var done := CoordinatorSucceeded(pods);
          if !done {
            return Nothing;
          }
          phase := Draining;
          return Put(View());
        case Draining =>
          phase := Complete;
          endedAt := Some(now);
          return Put(View());
        case _ =>
          return Nothing;
      }
    }

    method HandleDelete(pods: seq<Pod>) returns (plan: Plan)
      modifies this`finalizer
      ensures finalizer == (pods != [] && old(finalizer))
      ensures plan == if pods != [] then DeletePods(NotDeleting(pods)) else Put(View())
      ensures pods != [] ==> forall role :: role in plan.targets <==> Deletable(pods, role)
    {
      if |pods| > 0 {
        var targets := PodsToDelete(pods);
        return DeletePods(targets);
      }
      finalizer := false;
      return Put(View());
    }

    method ToAllocating(refs: Refs) returns (plan: Plan)
      modifies this`phase
      ensures refs == AllReady ==> phase == Allocating
      ensures refs in {SubmissionMissing, ScenarioMissing, SwarmMissing} ==> phase == Invalid
      ensures refs in {SubmissionNotReady, ScenarioNotHashed} ==> phase == old(phase)
      ensures plan == if refs in {SubmissionNotReady, ScenarioNotHashed} then Nothing else Put(View())
    {
      match refs {
        case SubmissionMissing =>
          phase := Invalid;
        case SubmissionNotReady =>
          return Nothing;
        case ScenarioMissing =>
          phase := Invalid;
        case ScenarioNotHashed =>
          return Nothing;
        case SwarmMissing =>
          phase := Invalid;
        case AllReady =>
          phase := Allocating;
      }
      return Put(View());
    }
  }
}
