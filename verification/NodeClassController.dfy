/** `NodeClassController`: the reconcile methods, working on an in-memory NodeClass they update in place. */
module NodeClassController {
  import opened Prelude
  import opened NodeClass
  import Strings

  /** The API server and Vultr as seen by one reconcile, which may only send the request its position asks for. */
  class Session {
    const build: Build
    ghost var pc: Pc

    constructor (build: Build, name: string)
      ensures this.build == build && pc == Fetch(name)
    {
      this.build := build;
      pc := Fetch(name);
    }

    method Call(q: Request) returns (r: Response)
      requires !pc.Finished? && PcOk(build, pc) && q == Ask(build, pc)
      modifies this
      ensures Fits(q, r) && pc == Resume(build, old(pc), r) && PcOk(build, pc)
    {
      r := *;
      if !Fits(q, r) {
        r := Failure(Other(""));
      }
      ResumeOk(build, pc, r);
      pc := Resume(build, pc, r);
    }
  }

  /** A Go map or slice: a reference, so that an object copied shallowly would share it. */
  class Cell<T> {
    var value: T

    constructor (value: T)
      ensures this.value == value
    {
      this.value := value;
    }
  }

  /** The object a reconcile reads, changes in place and patches from. */
  class Live {
    var name: string
    var uid: nat
    var resourceVersion: nat
    var generation: int
    var annotations: Cell<Annotations>
    var finalizers: Cell<seq<string>>
    var deleting: bool
    var spec: Spec
    var conditions: Cell<seq<Condition>>
    var resolvedPlanIDs: Cell<seq<string>>
    var observedGeneration: int

    ghost function Repr(): set<object>
      reads this
    {
      {this, annotations, finalizers, conditions, resolvedPlanIDs}
    }

    /** Each map or slice is the one it was, or a new one. */
    twostate predicate Renewed()
      reads this
    {
      && (annotations == old(annotations) || fresh(annotations))
      && (finalizers == old(finalizers) || fresh(finalizers))
      && (conditions == old(conditions) || fresh(conditions))
      && (resolvedPlanIDs == old(resolvedPlanIDs) || fresh(resolvedPlanIDs))
    }

    /** The two slices of strings are not one. */
    ghost predicate Valid()
      reads this
    {
      finalizers != resolvedPlanIDs
    }

    ghost function Value(): NodeClass
      reads Repr()
    {
      NodeClass(name, uid, resourceVersion, generation, annotations.value, finalizers.value, deleting, spec,
                Status(conditions.value, resolvedPlanIDs.value, observedGeneration))
    }

    constructor (v: NodeClass)
      ensures Value() == v && Valid() && fresh(Repr())
    {
      name, uid, resourceVersion, generation := v.name, v.uid, v.resourceVersion, v.generation;
      deleting, spec, observedGeneration := v.deleting, v.spec, v.status.observedGeneration;
      annotations := new Cell(v.annotations);
      finalizers := new Cell(v.finalizers);
      conditions := new Cell(v.status.conditions);
      resolvedPlanIDs := new Cell(v.status.resolvedPlanIDs);
    }

    /** Takes over what the server answered a patch with, in maps and slices of its own. */
    method Load(v: NodeClass)
      modifies this
      ensures Value() == v && Valid() && Renewed()
    {
      name, uid, resourceVersion, generation, deleting, spec := v.name, v.uid, v.resourceVersion, v.generation, v.deleting, v.spec;
      observedGeneration := v.status.observedGeneration;
      LoadReferences(v);
    }

    method LoadReferences(v: NodeClass)
      modifies this`annotations, this`finalizers, this`conditions, this`resolvedPlanIDs
      ensures fresh(annotations) && fresh(finalizers) && fresh(conditions) && fresh(resolvedPlanIDs) && Valid()
      ensures annotations.value == v.annotations && finalizers.value == v.finalizers
      ensures conditions.value == v.status.conditions && resolvedPlanIDs.value == v.status.resolvedPlanIDs
    {
      annotations := new Cell(v.annotations);
      finalizers := new Cell(v.finalizers);
      conditions := new Cell(v.status.conditions);
      resolvedPlanIDs := new Cell(v.status.resolvedPlanIDs);
    }

    /** A copy that no later change to this object reaches, nor to its maps and slices. */
    method DeepCopy() returns (out: Live)
      ensures fresh(out.Repr()) && out.Valid() && out.Value() == Value()
    {
      out := new Live(NodeClass(name, uid, resourceVersion, generation, annotations.value, finalizers.value, deleting, spec,
                                Status(conditions.value, resolvedPlanIDs.value, observedGeneration)));
    }

    method Snapshot() returns (v: NodeClass)
      ensures v == Value()
    {
      v := NodeClass(name, uid, resourceVersion, generation, annotations.value, finalizers.value, deleting, spec,
                     Status(conditions.value, resolvedPlanIDs.value, observedGeneration));
    }

    /** Sets the Ready condition, in place, to true, or to false with the problem. */
    method SetReady(problem: Option<Problem>)
      modifies conditions
      ensures conditions.value ==
              SetCondition(old(conditions.value), Condition(READY, if problem == None then "True" else "False", problem, generation))
    {
      conditions.value :=
        SetCondition(conditions.value, Condition(READY, if problem == None then "True" else "False", problem, generation));
    }
  }

  method Reconcile(api: Session, name: string) returns (o: Outcome)
    requires api.pc == Fetch(name)
    modifies api
    ensures api.pc == Finished(o)
  {
    var r := api.Call(GetNodeClass(name));
    if r.Failure? {
      return if r.error == NotFound then NoRequeue else Error;
    }
    var nc := new Live(r.nc);
    if nc.deleting {
      o := Finalize(api, nc);
      return;
    }
    var ok := EnsureFinalizer(api, nc);
    if !ok {
      return Error;
    }
    ok := SyncHash(api, nc);
    if !ok {
      return Error;
    }
    o := UpdateReadiness(api, nc);
  }

  /** Sends a patch of the object; the object takes over the answer, if there is one. */
  method Send(api: Session, nc: Live, q: Request) returns (r: Response)
    requires !api.pc.Finished? && PcOk(api.build, api.pc) && q == Ask(api.build, api.pc) && q.PatchNodeClass?
    modifies api, nc
    ensures Fits(q, r) && api.pc == Resume(api.build, old(api.pc), r) && nc.Renewed()
    ensures nc.Value() == if r.Failure? then old(nc.Value()) else r.nc
  {
    r := api.Call(q);
    if r.Object? {
      nc.Load(r.nc);
    }
  }

  method EnsureFinalizer(api: Session, nc: Live) returns (ok: bool)
    requires nc.Valid()
    requires api.pc == if FINALIZER in nc.finalizers.value then StartSync(api.build, nc.Value()) else AddFinalizer(nc.Value())
    modifies api, nc.Repr()
    ensures nc.Renewed()
    ensures api.pc == if ok then StartSync(api.build, nc.Value()) else Finished(Error)
  {
    if FINALIZER in nc.finalizers.value {
      return true;
    }
    ghost var before := nc.Value();
    var r := PatchFinalizer(api, nc);
    Guarded(api.build, before, r);
    return !r.Failure? || r.error == NotFound;
  }

  method PatchFinalizer(api: Session, nc: Live) returns (r: Response)
    requires nc.Valid() && api.pc == AddFinalizer(nc.Value())
    modifies api, nc.Repr()
    ensures nc.Renewed()
    ensures var before := old(nc.Value());
            && Fits(Ask(api.build, AddFinalizer(before)), r) && api.pc == Resume(api.build, AddFinalizer(before), r)
            && nc.Value() == if r.Failure? then WithFinalizer(before) else r.nc
  {
    ghost var before := nc.Value();
    var stored := nc.DeepCopy();
    nc.finalizers.value := nc.finalizers.value + [FINALIZER];
    assert nc.Value() == WithFinalizer(before) && stored.Value() == before;
    var q := PatchNodeClass(nc.name, Patch(map[], Some(nc.finalizers.value), Some(stored.resourceVersion)));
    assert q == Ask(api.build, AddFinalizer(before));
    r := Send(api, nc, q);
  }

  lemma Guarded(b: Build, nc: NodeClass, r: Response)
    requires Fits(Ask(b, AddFinalizer(nc)), r)
    ensures Resume(b, AddFinalizer(nc), r) ==
            if !r.Failure? then StartSync(b, r.nc)
            else if r.error == NotFound then StartSync(b, WithFinalizer(nc)) else Finished(Error)
  {
  }

  method SyncHash(api: Session, nc: Live) returns (ok: bool)
    requires api.pc == StartSync(api.build, nc.Value())
    modifies api, nc.Repr()
    ensures nc.Renewed()
    ensures api.pc == if ok then StartAssess(api.build, nc.Value()) else Finished(Error)
  {
    ghost var listed: seq<Claim> := [];
    if Get(nc.annotations.value, VERSION) != api.build.version {
      ok, listed := MigrateNodeClaimHashes(api, nc);
      if !ok {
        return;
      }
    }
    ok := RecordHash(api, nc, listed);
  }

  method SetHash(b: Build, nc: Live)
    modifies nc.annotations
    ensures nc.Value() == WithHash(b, old(nc.Value()))
  {
    nc.annotations.value := nc.annotations.value[HASH := b.hash(nc.spec)];
    nc.annotations.value := nc.annotations.value[VERSION := b.version];
  }

  /** The rest of `syncHash`: hash and version are set in place, and patched if that changed anything. */
  method RecordHash(api: Session, nc: Live, ghost listed: seq<Claim>) returns (ok: bool)
    requires api.pc == StartRecord(api.build, nc.Value(), listed)
    modifies api, nc.Repr()
    ensures nc.Renewed()
    ensures api.pc == if ok then StartAssess(api.build, nc.Value()) else Finished(Error)
  {
    ghost var before := nc.Value();
    var stored := nc.DeepCopy();
    SetHash(api.build, nc);
    if stored.annotations.value == nc.annotations.value {
      return true;
    }
    var r := PatchHash(api, nc, stored, before, listed);
    Recorded(api.build, before, listed, r);
    return !r.Failure? || r.error == NotFound;
  }

  method PatchHash(api: Session, nc: Live, stored: Live, ghost before: NodeClass, ghost listed: seq<Claim>) returns (r: Response)
    requires stored.Value() == before && nc.Value() == WithHash(api.build, before) && api.pc == Pc.RecordHash(before, listed)
    modifies api, nc
    ensures nc.Renewed()
    ensures Fits(Ask(api.build, Pc.RecordHash(before, listed)), r) && api.pc == Resume(api.build, Pc.RecordHash(before, listed), r)
    ensures nc.Value() == if r.Failure? then WithHash(api.build, before) else r.nc
  {
    var q := PatchNodeClass(nc.name, Patch(Changes(stored.annotations.value, nc.annotations.value), None, None));
    assert q == Ask(api.build, Pc.RecordHash(before, listed));
    r := Send(api, nc, q);
  }

  lemma Recorded(b: Build, nc: NodeClass, listed: seq<Claim>, r: Response)
    requires Fits(Ask(b, Pc.RecordHash(nc, listed)), r)
    ensures Resume(b, Pc.RecordHash(nc, listed), r) ==
            if !r.Failure? then StartAssess(b, r.nc)
            else if r.error == NotFound then StartAssess(b, WithHash(b, nc)) else Finished(Error)
  {
  }

  method MigrateNodeClaimHashes(api: Session, nc: Live) returns (ok: bool, ghost listed: seq<Claim>)
    requires api.pc == ListForMigration(nc.Value())
    modifies api
    ensures api.pc == if ok then StartRecord(api.build, nc.Value(), listed) else Finished(Error)
  {
    listed := [];
    var r := api.Call(ListClaims(nc.name));
    if r.Failure? {
      return false, listed;
    }
    var items := r.items;
    listed := items;
    var hash := api.build.hash(nc.spec);
    var failed := false;
    for i := 0 to |items|
      invariant api.pc == NextClaim(api.build, nc.Value(), items[i..], failed, items) && PcOk(api.build, api.pc)
    {
      failed := MigrateOne(api, nc, items, i, hash, failed);
    }
    return !failed, listed;
  }

  /** The loop's body: patches the claim unless it is at the current version, and goes on either way. */
  method MigrateOne(api: Session, nc: Live, items: seq<Claim>, i: nat, hash: string, failed: bool) returns (nowFailed: bool)
    requires i < |items| && hash == api.build.hash(nc.spec)
    requires api.pc == NextClaim(api.build, nc.Value(), items[i..], failed, items) && PcOk(api.build, api.pc)
    modifies api
    ensures api.pc == NextClaim(api.build, nc.Value(), items[i + 1..], nowFailed, items) && PcOk(api.build, api.pc)
  {
    assert items[i..][0] == items[i] && items[i..][1..] == items[i + 1..];
    nowFailed := failed;
    if Get(items[i].annotations, VERSION) == api.build.version {
      return;
    }
    var stored, annotations := Restamp(api.build, items[i], hash);
    if annotations.value == stored.value {
      return;
    }
    var r := api.Call(PatchClaim(items[i].name, Changes(stored.value, annotations.value)));
    if r.Failure? && r.error != NotFound {
      nowFailed := true;
    }
  }

  /** The annotations of a claim as listed, copied, and then stamped in place. */
  method Restamp(b: Build, claim: Claim, hash: string) returns (stored: Cell<Annotations>, annotations: Cell<Annotations>)
    ensures fresh(stored) && fresh(annotations) && stored.value == claim.annotations
    ensures forall nc: NodeClass :: b.hash(nc.spec) == hash ==> annotations.value == Restamped(b, nc, claim).annotations
  {
    annotations := new Cell(claim.annotations);
    stored := new Cell(annotations.value);
    annotations.value := annotations.value[VERSION := b.version];
    if claim.drifted == None {
      annotations.value := annotations.value[HASH := hash];
    }
  }

  method Finalize(api: Session, nc: Live) returns (o: Outcome)
    requires nc.Valid() && nc.deleting && api.pc == AfterFetch(api.build, nc.Value())
    modifies api, nc.Repr()
    ensures api.pc == Finished(o)
  {
    if FINALIZER !in nc.finalizers.value {
      return NoRequeue;
    }
    var r := api.Call(ListClaims(nc.name));
    if r.Failure? {
      return Error;
    }
    if |r.items| > 0 {
      return Requeue(TERMINATION_POLL);
    }
    var stored := nc.DeepCopy();
    nc.finalizers.value := Without(nc.finalizers.value, FINALIZER);
    r := api.Call(PatchNodeClass(nc.name, Patch(map[], Some(nc.finalizers.value), Some(stored.resourceVersion))));
    if r.Failure? {
      if r.error == Conflict {
        return Requeue(SECOND);
      }
      return if r.error == NotFound then NoRequeue else Error;
    }
    return NoRequeue;
  }

  /** The rest of `Reconcile`: observed generation, resolved plans and the Ready condition. */
  method UpdateReadiness(api: Session, nc: Live) returns (o: Outcome)
    requires api.pc == StartAssess(api.build, nc.Value())
    modifies api, nc.Repr()
    ensures api.pc == Finished(o)
  {
    var before := nc.DeepCopy();
    var problem, requeue := Assess(api, nc, before.Value());
    o := Publish(api, nc, before, problem, requeue);
  }

  /** The switch over the spec and the lookups. */
  method Assess(api: Session, nc: Live, ghost before: NodeClass) returns (problem: Option<Problem>, requeue: bool)
    requires nc.Value() == before && api.pc == StartAssess(api.build, before)
    modifies api, nc`observedGeneration, nc`resolvedPlanIDs
    ensures fresh(nc.resolvedPlanIDs)
    ensures api.pc == Conclude(before, nc.Value(), problem, requeue)
  {
    nc.observedGeneration := nc.generation;
    nc.resolvedPlanIDs := new Cell([]);
    requeue := false;
    problem := SpecProblem(api.build, nc.spec);
    if problem == None && nc.spec.osID.Some? {
      problem, requeue := CheckImage(api, nc, before);
    }
    if problem == None {
      problem, requeue := CheckRegion(api, nc, before);
    }
  }

  method CheckImage(api: Session, nc: Live, ghost before: NodeClass) returns (problem: Option<Problem>, requeue: bool)
    requires api.pc == LookupOS(before, nc.Value()) && nc.spec.osID.Some?
    modifies api
    ensures api.pc == if problem == None then LookupRegion(before, nc.Value()) else Conclude(before, nc.Value(), problem, requeue)
  {
    var id := nc.spec.osID.value;
    var r := api.Call(ListOS);
    if r.Failure? {
      return Some(OSLookupFailed(id, Text(r.error))), true;
    }
    problem := FindImage(id, r.images);
    requeue := false;
  }

  method CheckRegion(api: Session, nc: Live, ghost before: NodeClass) returns (problem: Option<Problem>, requeue: bool)
    requires api.pc == LookupRegion(before, nc.Value())
    modifies api, nc`resolvedPlanIDs
    ensures nc.resolvedPlanIDs == old(nc.resolvedPlanIDs) || fresh(nc.resolvedPlanIDs)
    ensures api.pc == Conclude(before, nc.Value(), problem, requeue)
  {
    var r := api.Call(GetAvailability(nc.spec.region));
    if r.Failure? {
      return Some(VultrAPIUnavailable(nc.spec.region, Text(r.error))), true;
    }
    var available := r.ids;
    var sorted := Strings.SortedSet(available);
    Strings.AscendingUnique(sorted, Resolved(available));
    nc.resolvedPlanIDs := new Cell(sorted);
    if available == {} {
      return Some(NoPlansAvailable(nc.spec.region)), false;
    }
    if nc.spec.plan == "" {
      return None, false;
    }
    problem, requeue := CheckPlan(api, nc, before, available);
  }

  method CheckPlan(api: Session, nc: Live, ghost before: NodeClass, available: set<string>)
    returns (problem: Option<Problem>, requeue: bool)
    requires api.pc == LookupPlans(before, nc.Value(), available)
    modifies api
    ensures api.pc == Conclude(before, nc.Value(), problem, requeue)
  {
    var r := api.Call(GetPlans);
    if r.Failure? {
      return Some(PlanLookupFailed(nc.spec.plan, Text(r.error))), true;
    }
    if nc.spec.plan !in r.ids {
      return Some(InvalidPlan(nc.spec.plan)), false;
    }
    if nc.spec.plan !in available {
      return Some(PlanUnavailable(nc.spec.plan, nc.spec.region)), false;
    }
    return None, false;
  }

  /** Sets the condition, and updates the status unless the snapshot says that nothing changed. */
  method Publish(api: Session, nc: Live, before: Live, problem: Option<Problem>, requeue: bool) returns (o: Outcome)
    requires nc.Repr() !! before.Repr() && api.pc == Conclude(before.Value(), nc.Value(), problem, requeue)
    modifies api, nc.conditions
    ensures api.pc == Finished(o)
  {
    nc.SetReady(problem);
    if before.conditions.value != nc.conditions.value || before.observedGeneration != nc.observedGeneration
       || before.resolvedPlanIDs.value != nc.resolvedPlanIDs.value {
      var v := nc.Snapshot();
      var r := api.Call(UpdateStatus(v));
      if r.Failure? {
        return Error;
      }
    }
    return Requeue(if requeue then RETRY else REFRESH);
  }

  method FindImage(id: int, images: seq<OSImage>) returns (problem: Option<Problem>)
    ensures problem == ImageProblem(id, images)
  {
    for i := 0 to |images|
      invariant ImageProblem(id, images) == ImageProblem(id, images[i..])
    {
      assert images[i..][0] == images[i] && images[i..][1..] == images[i + 1..];
      if images[i].id == id {
        if !IsAMD64(images[i].arch) {
          return Some(UnsupportedOSArchitecture(id, images[i].arch));
        }
        return None;
      }
    }
    return Some(InvalidOS(id));
  }
}
