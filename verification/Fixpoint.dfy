/** Reconciling settles: after a reconcile without error, the next one writes nothing. */
module Fixpoint {
  import opened Prelude
  import opened NodeClass
  import opened NodeClassRuns
  import Effects
  import Strings

  /** What Vultr answers each request, as long as it answers alike. */
  type Upstream = Request -> Response

  predicate ToVultr(q: Request) {
    q.ListOS? || q.GetAvailability? || q.GetPlans?
  }

  // ---- The status a NodeClass should have ----

  datatype Verdict = Verdict(resolved: seq<string>, problem: Option<Problem>)

  ghost function ImageVerdict(up: Upstream, spec: Spec): Option<Problem>
    requires spec.osID.Some? && Fits(ListOS, up(ListOS))
  {
    var r, id := up(ListOS), spec.osID.value;
    if r.Failure? then Some(OSLookupFailed(id, Text(r.error))) else ImageProblem(id, r.images)
  }

  ghost function PlanVerdict(up: Upstream, spec: Spec, available: set<string>): Option<Problem>
    requires Fits(GetPlans, up(GetPlans))
  {
    var r := up(GetPlans);
    if available == {} then Some(NoPlansAvailable(spec.region))
    else if spec.plan == "" then None
    else if r.Failure? then Some(PlanLookupFailed(spec.plan, Text(r.error)))
    else if spec.plan !in r.ids then Some(InvalidPlan(spec.plan))
    else if spec.plan !in available then Some(PlanUnavailable(spec.plan, spec.region))
    else None
  }

  ghost function RegionVerdict(up: Upstream, spec: Spec): Verdict
    requires Answered(up)
  {
    var q := GetAvailability(spec.region);
    var r := up(q);
    assert Fits(q, r);
    if r.Failure? then Verdict([], Some(VultrAPIUnavailable(spec.region, Text(r.error))))
    else Verdict(Resolved(r.ids), PlanVerdict(up, spec, r.ids))
  }

  ghost function Assess(b: Build, up: Upstream, spec: Spec): Verdict
    requires Answered(up)
  {
    if SpecProblem(b, spec).Some? then Verdict([], SpecProblem(b, spec))
    else if spec.osID.Some? && ImageVerdict(up, spec).Some? then Verdict([], ImageVerdict(up, spec))
    else RegionVerdict(up, spec)
  }

  ghost predicate Answered(up: Upstream) {
    forall q :: ToVultr(q) ==> Fits(q, up(q))
  }

  function Ready(nc: NodeClass, problem: Option<Problem>): Condition {
    Condition(READY, if problem == None then "True" else "False", problem, nc.generation)
  }

  ghost function Desired(b: Build, up: Upstream, nc: NodeClass): Status
    requires Answered(up)
  {
    var v := Assess(b, up, nc.spec);
    Status(SetCondition(nc.status.conditions, Ready(nc, v.problem)), v.resolved, nc.generation)
  }

  /** Finalizer, hash and status are what a reconcile makes them. */
  ghost predicate Settled(b: Build, up: Upstream, nc: NodeClass)
    requires Answered(up)
  {
    FINALIZER in nc.finalizers && WithHash(b, nc) == nc && Desired(b, up, nc) == nc.status
  }

  /** The spec passes its checks, and so does the image if it names one. */
  ghost predicate ImageReady(b: Build, up: Upstream, spec: Spec) {
    && SpecProblem(b, spec) == None
    && (spec.osID.Some? ==> up(ListOS).Images? && ImageProblem(spec.osID.value, up(ListOS).images) == None)
  }

  /**
   * When a NodeClass is ready, and why it is not, from the answers: with spec and image in order, Vultr must say which plans
   * the region has, there must be some, and a fixed plan must be in the catalogue and among them. The plans resolved are
   * those, ascending.
   */
  lemma VerdictExactly(b: Build, up: Upstream, spec: Spec)
    requires Answered(up)
    ensures var v, region, plans := Assess(b, up, spec), up(GetAvailability(spec.region)), up(GetPlans);
            && (v.problem == None <==>
                  ImageReady(b, up, spec) && region.Plans? && region.ids != {}
                  && (spec.plan != "" ==> plans.Plans? && spec.plan in plans.ids && spec.plan in region.ids))
            && (v.problem == Some(NoPlansAvailable(spec.region)) <==> ImageReady(b, up, spec) && region.Plans? && region.ids == {})
            && (v.problem == Some(InvalidPlan(spec.plan)) <==>
                  ImageReady(b, up, spec) && region.Plans? && region.ids != {} && spec.plan != "" && plans.Plans? && spec.plan !in plans.ids)
            && (v.problem == Some(PlanUnavailable(spec.plan, spec.region)) <==>
                  ImageReady(b, up, spec) && region.Plans? && region.ids != {} && spec.plan != "" && plans.Plans?
                  && spec.plan in plans.ids && spec.plan !in region.ids)
    ensures var v, region := Assess(b, up, spec), up(GetAvailability(spec.region));
            && Strings.Ascending(v.resolved)
            && forall id :: id in v.resolved <==> ImageReady(b, up, spec) && region.Plans? && id in region.ids
  {
    assert Fits(GetAvailability(spec.region), up(GetAvailability(spec.region))) && Fits(GetPlans, up(GetPlans)) && Fits(ListOS, up(ListOS));
    if spec.osID.Some? && up(ListOS).Images? { ImageProblems(spec.osID.value, up(ListOS).images); }
  }

  lemma {:induction false} ImageProblems(id: int, images: seq<OSImage>)
    ensures var p := ImageProblem(id, images); p == None || p.value.InvalidOS? || p.value.UnsupportedOSArchitecture?
  {
    if images != [] { ImageProblems(id, images[1..]); }
  }

  /**
   * What a settled NodeClass looks like: the finalizer, the hash of its spec and the version are there, the generation is
   * observed, the plans resolved are the verdict's, and the first Ready condition says whether there is a problem, and which.
   */
  lemma SettledExactly(b: Build, up: Upstream, nc: NodeClass)
    requires Answered(up) && Settled(b, up, nc)
    ensures "karpenter.vultr.com/termination" in nc.finalizers
    ensures "karpenter.vultr.com/nodeclass-hash" in nc.annotations && nc.annotations["karpenter.vultr.com/nodeclass-hash"] == b.hash(nc.spec)
    ensures "karpenter.vultr.com/nodeclass-hash-version" in nc.annotations
            && nc.annotations["karpenter.vultr.com/nodeclass-hash-version"] == b.version
    ensures nc.status.observedGeneration == nc.generation && nc.status.resolvedPlanIDs == Assess(b, up, nc.spec).resolved
    ensures exists k :: Effects.FirstOfKind(nc.status.conditions, "Ready", k)
              && var c := nc.status.conditions[k];
                 && c.problem == Assess(b, up, nc.spec).problem && c.observedGeneration == nc.generation
                 && c.status == if c.problem == None then "True" else "False"
  {
    var ready := Ready(nc, Assess(b, up, nc.spec).problem);
    assert HASH in WithHash(b, nc).annotations && VERSION in WithHash(b, nc).annotations;
    var k := SetFound(nc.status.conditions, ready);
  }

  lemma SetFound(cs: seq<Condition>, c: Condition) returns (k: int)
    ensures var r := SetCondition(cs, c); Effects.FirstOfKind(r, c.kind, k) && r[k] == c
  {
    Effects.SetConditionExactly(cs, c);
    if j :| Effects.FirstOfKind(cs, c.kind, j) {
      k := j;
    } else {
      k := |cs|;
      NoneOfKind(cs, c.kind);
    }
  }

  lemma {:induction false} NoneOfKind(cs: seq<Condition>, kind: string)
    requires forall k :: !Effects.FirstOfKind(cs, kind, k)
    ensures forall k :: 0 <= k < |cs| ==> cs[k].kind != kind
  {
    if cs != [] {
      assert !Effects.FirstOfKind(cs, kind, 0);
      forall k ensures !Effects.FirstOfKind(cs[1..], kind, k) { assert !Effects.FirstOfKind(cs, kind, k + 1); }
      NoneOfKind(cs[1..], kind);
      assert forall k :: 0 < k < |cs| ==> cs[k] == cs[1..][k - 1];
    }
  }

  lemma {:induction false} SetTwice(cs: seq<Condition>, c: Condition)
    ensures SetCondition(SetCondition(cs, c), c) == SetCondition(cs, c)
  {
    if cs != [] && cs[0].kind != c.kind {
      SetTwice(cs[1..], c);
      assert ([cs[0]] + SetCondition(cs[1..], c))[1..] == SetCondition(cs[1..], c);
    }
  }

  /** The status computed for a NodeClass does not change by being stored. */
  lemma DesiredTwice(b: Build, up: Upstream, nc: NodeClass)
    requires Answered(up)
    ensures Desired(b, up, nc.(status := Desired(b, up, nc))) == Desired(b, up, nc)
  {
    SetTwice(nc.status.conditions, Ready(nc, Assess(b, up, nc.spec).problem));
  }

  lemma HashTwice(b: Build, nc: NodeClass, version: nat)
    ensures var stored := Patched(nc, Patch(Changes(nc.annotations, WithHash(b, nc).annotations), None, None), version);
            WithHash(b, stored) == stored
  {
  }

  // ---- One reconcile, with nobody else writing the NodeClass ----

  function Blank(nc: NodeClass): NodeClass {
    nc.(status := nc.status.(observedGeneration := nc.generation, resolvedPlanIDs := []))
  }

  ghost predicate ImagePassed(up: Upstream, spec: Spec)
    requires Answered(up)
  {
    spec.osID.Some? ==> ImageVerdict(up, spec) == None
  }

  ghost predicate Synced(b: Build, nc: NodeClass) {
    FINALIZER in nc.finalizers && WithHash(b, nc) == nc
  }

  ghost predicate Assessing(b: Build, cur: NodeClass, before: NodeClass) {
    before == cur && Synced(b, cur) && SpecProblem(b, cur.spec) == None
  }

  /** What a reconcile knows of the stored NodeClass at each position. */
  ghost predicate PathOk(b: Build, up: Upstream, cur: NodeClass, pc: Pc)
    requires Answered(up)
  {
    match pc
    case Fetch(name) => name == cur.name
    case CheckClaims(_) => false
    case Release(_) => false
    case AddFinalizer(nc) => nc == cur && FINALIZER !in cur.finalizers
    case ListForMigration(nc) => nc == cur && FINALIZER in cur.finalizers && !Current(b, cur.annotations)
    case Restamp(nc, _, _, _) => nc == cur && FINALIZER in cur.finalizers && !Current(b, cur.annotations)
    case RecordHash(nc, _) => nc == cur && FINALIZER in cur.finalizers && WithHash(b, cur) != cur
    case LookupOS(before, nc) => Assessing(b, cur, before) && nc == Blank(cur) && cur.spec.osID.Some?
    case LookupRegion(before, nc) => Assessing(b, cur, before) && nc == Blank(cur) && ImagePassed(up, cur.spec)
    case LookupPlans(before, nc, available) =>
      && Assessing(b, cur, before) && ImagePassed(up, cur.spec) && cur.spec.plan != "" && available != {}
      && up(GetAvailability(cur.spec.region)) == Plans(available)
      && nc == WithPlans(cur, Resolved(available))
    case WriteStatus(nc, _) => Synced(b, cur) && nc == cur.(status := Desired(b, up, cur)) && cur.status != Desired(b, up, cur)
    case Finished(o) => o == Error || (o.Requeue? && Settled(b, up, cur))
  }

  function WithPlans(nc: NodeClass, resolved: seq<string>): NodeClass {
    nc.(status := nc.status.(observedGeneration := nc.generation, resolvedPlanIDs := resolved))
  }

  /** Concluding with the verdict either leaves a settled NodeClass alone or goes to write the status it should have. */
  lemma ConcludePath(b: Build, up: Upstream, cur: NodeClass, v: Verdict, requeue: bool)
    requires Answered(up) && Synced(b, cur) && v == Assess(b, up, cur.spec)
    ensures PathOk(b, up, cur, Conclude(cur, WithPlans(cur, v.resolved), v.problem, requeue))
  {
  }

  lemma AssessPath(b: Build, up: Upstream, cur: NodeClass)
    requires Answered(up) && Synced(b, cur)
    ensures PathOk(b, up, cur, StartAssess(b, cur))
  {
  }

  lemma RecordPath(b: Build, up: Upstream, cur: NodeClass, listed: seq<Claim>)
    requires Answered(up) && FINALIZER in cur.finalizers
    ensures PathOk(b, up, cur, StartRecord(b, cur, listed))
  {
  }

  lemma SyncPath(b: Build, up: Upstream, cur: NodeClass)
    requires Answered(up) && FINALIZER in cur.finalizers
    ensures PathOk(b, up, cur, StartSync(b, cur))
  {
  }

  lemma {:induction false} NextClaimPath(b: Build, up: Upstream, cur: NodeClass, todo: seq<Claim>, failed: bool, listed: seq<Claim>)
    requires Answered(up) && FINALIZER in cur.finalizers && !Current(b, cur.annotations)
    ensures PathOk(b, up, cur, NextClaim(b, cur, todo, failed, listed))
  {
    if todo == [] {
      if !failed { RecordPath(b, up, cur, listed); }
    } else if Current(b, todo[0].annotations) {
      NextClaimPath(b, up, cur, todo[1..], failed, listed);
    }
  }

  /** The lookups lead to the verdict. */
  lemma LookupPath(b: Build, up: Upstream, cur: NodeClass, pc: Pc)
    requires Answered(up) && PathOk(b, up, cur, pc) && (pc.LookupOS? || pc.LookupRegion? || pc.LookupPlans?)
    ensures PathOk(b, up, cur, Resume(b, pc, up(Ask(b, pc))))
  {
    var spec, v := cur.spec, Assess(b, up, cur.spec);
    var r := up(Ask(b, pc));
    match pc
    case LookupOS(_, nc) =>
      if v.problem == ImageVerdict(up, spec) && v.problem.Some? { ConcludePath(b, up, cur, v, r.Failure?); }
    case LookupRegion(_, nc) =>
      if r.Failure? || r.ids == {} || spec.plan == "" { ConcludePath(b, up, cur, v, r.Failure?); }
    case LookupPlans(_, nc, available) =>
      ConcludePath(b, up, cur, v, r.Failure?);
  }

  /** Only what the position asks for, as answered by Vultr's fixed answers, moves the reconcile. */
  predicate Heeds(up: Upstream, q: Request, r: Response) {
    ToVultr(q) ==> r == up(q)
  }

  /** A request that does not write the NodeClass. */
  lemma ReadPath(b: Build, up: Upstream, s: State, cur: NodeClass, pc: Pc, r: Response, applied: bool)
    requires Answered(up) && PathOk(b, up, cur, pc) && !pc.Finished? && (pc.Restamp? ==> pc.todo != [])
    requires cur.name in s.classes && s.classes[cur.name] == cur && !cur.deleting
    requires Answers(s, Ask(b, pc), r, applied) && Heeds(up, Ask(b, pc), r)
    requires !pc.AddFinalizer? && !pc.RecordHash? && !pc.WriteStatus?
    ensures PathOk(b, up, cur, Resume(b, pc, r))
  {
    match pc
    case Fetch(_) => if r.Object? && FINALIZER in cur.finalizers { SyncPath(b, up, cur); }
    case ListForMigration(_) => if r.Claims? { NextClaimPath(b, up, cur, r.items, false, r.items); }
    case Restamp(_, todo, failed, listed) =>
      NextClaimPath(b, up, cur, todo[1..], failed || (r.Failure? && r.error != NotFound), listed);
    case _ => LookupPath(b, up, cur, pc);
  }

  /** A request that writes the NodeClass: unless the reconcile fails, it goes on from what is then stored. */
  lemma WritePath(b: Build, up: Upstream, s: State, cur: NodeClass, pc: Pc, r: Response, applied: bool)
    requires Answered(up) && PathOk(b, up, cur, pc) && (pc.AddFinalizer? || pc.RecordHash? || pc.WriteStatus?)
    requires cur.name in s.classes && s.classes[cur.name] == cur && !cur.deleting
    requires Answers(s, Ask(b, pc), r, applied)
    ensures r.Failure? ==> Resume(b, pc, r) == Finished(Error)
    ensures !r.Failure? ==> applied && PathOk(b, up, RequestWrite(s, Ask(b, pc)).nc, Resume(b, pc, r))
  {
    if !r.Failure? {
      var stored := RequestWrite(s, Ask(b, pc)).nc;
      match pc
      case AddFinalizer(_) => SyncPath(b, up, stored);
      case RecordHash(_, _) =>
        HashTwice(b, cur, s.next);
        AssessPath(b, up, stored);
      case WriteStatus(_, _) =>
        DesiredTwice(b, up, cur);
        assert Desired(b, up, stored) == Desired(b, up, cur.(status := Desired(b, up, cur)));
    }
  }

  // ---- Over runs ----

  ghost predicate At(b: Build, up: Upstream, s: State, n: string, p: nat)
    requires Answered(up)
  {
    n in s.classes && !s.classes[n].deleting && p in s.reconciles && PathOk(b, up, s.classes[n], s.reconciles[p])
  }

  /** From state `i` to state `j`, none but reconcile `p` writes NodeClass `n` or moves `p`, and Vultr answers alike. */
  ghost predicate Undisturbed(b: Build, up: Upstream, run: seq<State>, steps: seq<Step>, i: nat, j: nat, n: string, p: nat)
    requires j < |run| == |steps| + 1
  {
    forall k {:trigger steps[k]} :: i <= k < j ==>
      if steps[k].Serve? && steps[k].p == p
      then Running(run[k], p) ==> Heeds(up, Ask(b, run[k].reconciles[p]), steps[k].r)
      else && (n in run[k].classes ==> n in run[k + 1].classes && run[k + 1].classes[n] == run[k].classes[n])
           && (p in run[k].reconciles ==> p in run[k + 1].reconciles && run[k + 1].reconciles[p] == run[k].reconciles[p])
  }

  lemma ServedRead(b: Build, up: Upstream, s: State, step: Step, n: string)
    requires Answered(up) && Enabled(b, s, step) && ClassesOk(s) && step.Serve? && At(b, up, s, n, step.p)
    requires var q := Ask(b, s.reconciles[step.p]); Heeds(up, q, step.r) && !q.PatchNodeClass? && !q.UpdateStatus?
    ensures At(b, up, Apply(b, s, step), n, step.p) && Apply(b, s, step).classes == s.classes
  {
    var t, cur, pc := Apply(b, s, step), s.classes[n], s.reconciles[step.p];
    assert ClassOk(s, n, cur);
    assert t.reconciles == ReconcilesNext(b, s, step) && t.classes == Store(s, ClassWrite(b, s, step)).classes;
    ReadPath(b, up, s, cur, pc, step.r, step.applied);
  }

  lemma ServedWrite(b: Build, up: Upstream, s: State, step: Step, n: string)
    requires Answered(up) && Enabled(b, s, step) && ClassesOk(s) && step.Serve? && At(b, up, s, n, step.p)
    requires var q := Ask(b, s.reconciles[step.p]); q.PatchNodeClass? || q.UpdateStatus?
    ensures At(b, up, Apply(b, s, step), n, step.p)
  {
    var t, cur, pc := Apply(b, s, step), s.classes[n], s.reconciles[step.p];
    assert ClassOk(s, n, cur);
    assert t.reconciles == ReconcilesNext(b, s, step) && t.classes == Store(s, ClassWrite(b, s, step)).classes;
    WritePath(b, up, s, cur, pc, step.r, step.applied);
    var w := ClassWrite(b, s, step);
    assert w.Write? ==> w.name == n && !w.nc.deleting;
  }

  lemma ServedPath(b: Build, up: Upstream, s: State, step: Step, n: string)
    requires Answered(up) && Enabled(b, s, step) && ClassesOk(s) && step.Serve? && At(b, up, s, n, step.p)
    requires Heeds(up, Ask(b, s.reconciles[step.p]), step.r)
    ensures At(b, up, Apply(b, s, step), n, step.p)
    ensures !Writes(Ask(b, s.reconciles[step.p])) ==> Apply(b, s, step).classes == s.classes
  {
    var q := Ask(b, s.reconciles[step.p]);
    if q.PatchNodeClass? || q.UpdateStatus? {
      ServedWrite(b, up, s, step, n);
    } else {
      ServedRead(b, up, s, step, n);
    }
  }

  /** One step of an undisturbed stretch. */
  lemma StepPath(b: Build, up: Upstream, run: seq<State>, steps: seq<Step>, i: nat, j: nat, k: nat, n: string, p: nat)
    requires Answered(up) && IsRun(b, run, steps) && i <= k < j < |run| && Undisturbed(b, up, run, steps, i, j, n, p)
    requires At(b, up, run[k], n, p)
    ensures At(b, up, run[k + 1], n, p)
    ensures !(steps[k].Serve? && steps[k].p == p && Writes(Ask(b, run[k].reconciles[p]))) ==> run[k + 1].classes[n] == run[k].classes[n]
  {
    WellFormedAlways(b, run, steps, k);
    if steps[k].Serve? && steps[k].p == p {
      ServedPath(b, up, run[k], steps[k], n);
    }
  }

  lemma {:induction false} Follow(b: Build, up: Upstream, run: seq<State>, steps: seq<Step>, i: nat, j: nat, n: string, p: nat)
    requires Answered(up) && IsRun(b, run, steps) && i <= j < |run| && At(b, up, run[i], n, p)
    requires Undisturbed(b, up, run, steps, i, j, n, p)
    ensures At(b, up, run[j], n, p)
  {
    if i < j {
      Follow(b, up, run, steps, i, j - 1, n, p);
      StepPath(b, up, run, steps, i, j, j - 1, n, p);
    }
  }

  /** At a settled NodeClass no position of a reconcile asks for a write. */
  lemma SettledWritesNothing(b: Build, up: Upstream, cur: NodeClass, pc: Pc)
    requires Answered(up) && PathOk(b, up, cur, pc) && Settled(b, up, cur) && !pc.Finished? && (pc.Restamp? ==> pc.todo != [])
    ensures !Writes(Ask(b, pc))
  {
  }

  ghost predicate Rests(b: Build, up: Upstream, s: State, n: string, p: nat, nc: NodeClass)
    requires Answered(up)
  {
    At(b, up, s, n, p) && s.classes[n] == nc && Settled(b, up, nc)
  }

  lemma StepRests(
      b: Build, up: Upstream, run: seq<State>, steps: seq<Step>, i: nat, j: nat, k: nat, n: string, p: nat, nc: NodeClass)
    requires Answered(up) && IsRun(b, run, steps) && i <= k < j < |run| && Undisturbed(b, up, run, steps, i, j, n, p)
    requires Rests(b, up, run[k], n, p, nc)
    ensures Rests(b, up, run[k + 1], n, p, nc)
    ensures steps[k].Serve? && steps[k].p == p ==> !Writes(Ask(b, run[k].reconciles[p]))
  {
    if steps[k].Serve? && steps[k].p == p {
      SettledWritesNothing(b, up, nc, run[k].reconciles[p]);
    }
    StepPath(b, up, run, steps, i, j, k, n, p);
  }

  lemma {:induction false} StaysSettled(
      b: Build, up: Upstream, run: seq<State>, steps: seq<Step>, i: nat, j: nat, k: nat, n: string, p: nat, nc: NodeClass)
    requires Answered(up) && IsRun(b, run, steps) && i <= k <= j < |run| && Rests(b, up, run[i], n, p, nc)
    requires Undisturbed(b, up, run, steps, i, j, n, p)
    ensures Rests(b, up, run[k], n, p, nc)
    decreases k - i
  {
    if i < k {
      StaysSettled(b, up, run, steps, i, j, k - 1, n, p, nc);
      StepRests(b, up, run, steps, i, j, k - 1, n, p, nc);
    }
  }

  /**
   * A reconcile `p` of a live NodeClass that runs from `i` to `j` and ends without error leaves the finalizer, the hash and
   * the status in place, whatever the NodeClass, its claims and Vultr's answers were.
   */
  lemma ErrorFreeSettles(b: Build, up: Upstream, run: seq<State>, steps: seq<Step>, i: nat, j: nat, n: string, p: nat)
    requires Answered(up) && IsRun(b, run, steps) && i < j < |run| && steps[i] == Start(p, n)
    requires n in run[i].classes && !run[i].classes[n].deleting
    requires Undisturbed(b, up, run, steps, i + 1, j, n, p)
    requires p in run[j].reconciles && run[j].reconciles[p].Finished? && run[j].reconciles[p].outcome != Error
    ensures n in run[j].classes && !run[j].classes[n].deleting && Settled(b, up, run[j].classes[n])
  {
    Started(b, up, run, steps, i, n, p);
    Follow(b, up, run, steps, i + 1, j, n, p);
  }

  lemma Started(b: Build, up: Upstream, run: seq<State>, steps: seq<Step>, i: nat, n: string, p: nat)
    requires Answered(up) && IsRun(b, run, steps) && i < |steps| && steps[i] == Start(p, n)
    requires n in run[i].classes && !run[i].classes[n].deleting
    ensures At(b, up, run[i + 1], n, p) && run[i + 1].classes == run[i].classes
  {
    WellFormedAlways(b, run, steps, i);
    assert ClassOk(run[i], n, run[i].classes[n]);
  }

  /** The next reconcile `q`, from `j` on, sends no patch and no status update, and changes nothing. */
  lemma NextWritesNothing(
      b: Build, up: Upstream, run: seq<State>, steps: seq<Step>, i: nat, j: nat, k: nat, n: string, p: nat, q: nat)
    requires Answered(up) && IsRun(b, run, steps) && i < j <= k < |steps| && steps[i] == Start(p, n) && steps[j] == Start(q, n)
    requires n in run[i].classes && !run[i].classes[n].deleting
    requires Undisturbed(b, up, run, steps, i + 1, j, n, p) && Undisturbed(b, up, run, steps, j + 1, k + 1, n, q)
    requires p in run[j].reconciles && run[j].reconciles[p].Finished? && run[j].reconciles[p].outcome != Error
    ensures steps[k].Serve? && steps[k].p == q ==> !Writes(Ask(b, run[k].reconciles[q]))
    ensures n in run[j].classes && n in run[k + 1].classes && run[k + 1].classes[n] == run[j].classes[n]
  {
    ErrorFreeSettles(b, up, run, steps, i, j, n, p);
    Started(b, up, run, steps, j, n, q);
    if j < k {
      StaysSettled(b, up, run, steps, j + 1, k + 1, k, n, q, run[j].classes[n]);
      StepRests(b, up, run, steps, j + 1, k + 1, k, n, q, run[j].classes[n]);
    }
  }
}
