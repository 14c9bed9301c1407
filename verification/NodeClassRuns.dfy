/**
 * Reconciles, launches, users and Karpenter core acting side by side on the API server. A step is one API call, or one
 * move of the environment; a request may be refused, or be applied and still be reported as failed; a reconcile may stop
 * for good between any two requests. Reads are linearizable, and names of NodeClaims are never reused.
 */
module NodeClassRuns {
  import opened Prelude
  import opened NodeClass

  /** A `Create` call past the check that its NodeClass is live: the NodeClass, and the annotations it will return. */
  datatype Launch = Launch(uid: nat, stamp: Annotations)

  /**
   * `names` are the claim names used so far, `listedAt[p]` those used when reconcile `p` last listed for a migration;
   * `passed` the claims whose launch has seen a NodeClass live; `everDrifted` the claims that ever carried a Drifted
   * condition; `guarded` the NodeClasses whose deletion was requested when they had the finalizer.
   */
  datatype State = State(
    classes: map<string, NodeClass>, claims: map<string, Claim>, reconciles: map<nat, Pc>, launches: map<string, Launch>,
    next: nat, names: set<string>, listedAt: map<nat, set<string>>, owners: map<nat, string>,
    passed: set<(string, nat)>, everDrifted: set<string>, guarded: set<nat>)

  datatype Step =
    | Start(p: nat, name: string)
    | Serve(p: nat, r: Response, applied: bool)
    | BeginCreate(claim: string)
    | EndCreate(claim: string)
    | NewClaim(c: Claim)
    | RemoveClaim(claim: string)
    | SetDrifted(claim: string, status: string)
    | ClearDrifted(claim: string)
    | NewNodeClass(name: string, spec: Spec)
    | EditSpec(name: string, spec: Spec)
    | EditOthers(name: string, annotations: Annotations, finalizers: seq<string>)
    | DeleteNodeClass(name: string)

  /** Whether the API server would carry the request out. */
  predicate Applicable(s: State, q: Request) {
    match q
    case GetNodeClass(name) => name in s.classes
    case PatchNodeClass(name, patch) =>
      name in s.classes && (patch.lock == None || patch.lock.value == s.classes[name].resourceVersion)
    case UpdateStatus(nc) => nc.name in s.classes && nc.resourceVersion == s.classes[nc.name].resourceVersion
    case PatchClaim(name, _) => name in s.claims
    case _ => true
  }

  function Patched(nc: NodeClass, patch: Patch, version: nat): NodeClass {
    nc.(annotations := nc.annotations + patch.annotations,
        finalizers := if patch.finalizers.Some? then patch.finalizers.value else nc.finalizers,
        resourceVersion := version)
  }

  /** What a step writes to the NodeClass store. */
  datatype Write = NoWrite | Write(name: string, nc: NodeClass)

  function RequestWrite(s: State, q: Request): Write
    requires Applicable(s, q)
  {
    match q
    case PatchNodeClass(name, patch) => Write(name, Patched(s.classes[name], patch, s.next))
    case UpdateStatus(nc) => Write(nc.name, s.classes[nc.name].(status := nc.status, resourceVersion := s.next))
    case _ => NoWrite
  }

  /** Stores what is written; a NodeClass being deleted goes away with its last finalizer. */
  function Store(s: State, w: Write): State {
    match w
    case NoWrite => s
    case Write(name, nc) =>
      s.(classes := if nc.deleting && nc.finalizers == [] then s.classes - {name} else s.classes[name := nc],
         next := s.next + 1, owners := s.owners[nc.uid := name])
  }

  function ClaimsAfter(claims: map<string, Claim>, q: Request): map<string, Claim>
    requires q.PatchClaim? ==> q.name in claims
  {
    if q.PatchClaim? then claims[q.name := claims[q.name].(annotations := claims[q.name].annotations + q.annotations)]
    else claims
  }

  /** The answers the API server may give; Vultr may answer anything. */
  predicate Answers(s: State, q: Request, r: Response, applied: bool) {
    Fits(q, r) &&
    match r
    case Failure(e) =>
      && (applied ==> e.Other? && Applicable(s, q))
      && (e == NotFound && (q.GetNodeClass? || q.PatchNodeClass? || q.UpdateStatus? || q.PatchClaim?) ==> Missing(s, q))
    case _ => applied && Applicable(s, q) && Result(s, q, r)
  }

  predicate Result(s: State, q: Request, r: Response)
    requires Fits(q, r) && !r.Failure? && Applicable(s, q)
  {
    match q
    case GetNodeClass(name) => r.nc == s.classes[name]
    case PatchNodeClass(name, patch) => r.nc == Patched(s.classes[name], patch, s.next)
    case ListClaims(nodeClass) => ListsClaims(s, nodeClass, r.items)
    case _ => true
  }

  predicate Missing(s: State, q: Request)
    requires q.GetNodeClass? || q.PatchNodeClass? || q.UpdateStatus? || q.PatchClaim?
  {
    match q
    case UpdateStatus(nc) => nc.name !in s.classes
    case PatchClaim(name, _) => name !in s.claims
    case _ => q.name !in s.classes
  }

  /** A list holds exactly the claims of the NodeClass, in any order. */
  predicate ListsClaims(s: State, nodeClass: string, items: seq<Claim>) {
    && (forall c :: c in items ==> c.name in s.claims && s.claims[c.name] == c && c.nodeClass == nodeClass)
    && (forall n :: n in s.claims && s.claims[n].nodeClass == nodeClass ==> s.claims[n] in items)
  }

  predicate Running(s: State, p: nat) {
    p in s.reconciles && !s.reconciles[p].Finished? && (s.reconciles[p].Restamp? ==> s.reconciles[p].todo != [])
  }

  ghost predicate Enabled(b: Build, s: State, step: Step) {
    match step
    case Start(p, _) => true
    case Serve(p, r, applied) => Running(s, p) && Answers(s, Ask(b, s.reconciles[p]), r, applied)
    case BeginCreate(c) =>
      c in s.claims && s.claims[c].nodeClass in s.classes && !s.classes[s.claims[c].nodeClass].deleting
    case EndCreate(c) => c in s.launches
    case NewClaim(c) => c.name !in s.names && HASH !in c.annotations && VERSION !in c.annotations && c.drifted == None
    case RemoveClaim(c) => c in s.claims
    case SetDrifted(c, _) => c in s.claims
    case ClearDrifted(c) => c in s.claims
    case NewNodeClass(name, _) => name !in s.classes
    case EditSpec(name, _) => name in s.classes
    case EditOthers(name, a, finalizers) =>
      name in s.classes && HASH !in a && VERSION !in a && (FINALIZER in finalizers <==> FINALIZER in s.classes[name].finalizers)
    case DeleteNodeClass(name) => name in s.classes
  }

  ghost function ClassWrite(b: Build, s: State, step: Step): Write
    requires Enabled(b, s, step)
  {
    match step
    case Serve(p, _, applied) => if applied then RequestWrite(s, Ask(b, s.reconciles[p])) else NoWrite
    case NewNodeClass(name, spec) => Write(name, NodeClass(name, s.next, s.next, 1, map[], [], false, spec, Status([], [], 0)))
    case EditSpec(name, spec) =>
      var nc := s.classes[name];
      Write(name, nc.(spec := spec, generation := nc.generation + 1, resourceVersion := s.next))
    case EditOthers(name, a, finalizers) =>
      var nc := s.classes[name];
      Write(name, nc.(annotations := nc.annotations + a, finalizers := finalizers, resourceVersion := s.next))
    case DeleteNodeClass(name) => Write(name, s.classes[name].(deleting := true, resourceVersion := s.next))
    case _ => NoWrite
  }

  ghost function ClaimsNext(b: Build, s: State, step: Step): map<string, Claim>
    requires Enabled(b, s, step)
  {
    match step
    case Serve(p, _, applied) => if applied then ClaimsAfter(s.claims, Ask(b, s.reconciles[p])) else s.claims
    case EndCreate(c) =>
      if c in s.claims then s.claims[c := s.claims[c].(annotations := s.claims[c].annotations + s.launches[c].stamp)]
      else s.claims
    case NewClaim(c) => s.claims[c.name := c]
    case RemoveClaim(c) => s.claims - {c}
    case SetDrifted(c, status) => s.claims[c := s.claims[c].(drifted := Some(status))]
    case ClearDrifted(c) => s.claims[c := s.claims[c].(drifted := None)]
    case _ => s.claims
  }

  ghost function ReconcilesNext(b: Build, s: State, step: Step): map<nat, Pc>
    requires Enabled(b, s, step)
  {
    match step
    case Start(p, name) => s.reconciles[p := Fetch(name)]
    case Serve(p, r, _) => s.reconciles[p := Resume(b, s.reconciles[p], r)]
    case _ => s.reconciles
  }

  ghost function LaunchesNext(b: Build, s: State, step: Step): map<string, Launch>
    requires Enabled(b, s, step)
  {
    match step
    case BeginCreate(c) =>
      var nc := s.classes[s.claims[c].nodeClass];
      s.launches[c := Launch(nc.uid, Stamp(b, nc.spec))]
    case EndCreate(c) => s.launches - {c}
    case _ => s.launches
  }

  ghost function Apply(b: Build, s: State, step: Step): State
    requires Enabled(b, s, step)
  {
    Store(s, ClassWrite(b, s, step)).(
      claims := ClaimsNext(b, s, step),
      reconciles := ReconcilesNext(b, s, step),
      launches := LaunchesNext(b, s, step),
      names := if step.NewClaim? then s.names + {step.c.name} else s.names,
      listedAt := if step.Serve? && s.reconciles[step.p].ListForMigration? then s.listedAt[step.p := s.names] else s.listedAt,
      passed := if step.BeginCreate? then s.passed + {(step.claim, s.classes[s.claims[step.claim].nodeClass].uid)} else s.passed,
      everDrifted := if step.SetDrifted? then s.everDrifted + {step.claim} else s.everDrifted,
      guarded := if step.DeleteNodeClass? && !s.classes[step.name].deleting && FINALIZER in s.classes[step.name].finalizers
                 then s.guarded + {s.classes[step.name].uid} else s.guarded)
  }

  ghost predicate DeletingForEver(s: State, uid: nat) {
    forall n :: n in s.classes && s.classes[n].uid == uid ==> s.classes[n].deleting
  }

  /** No claim that saw the NodeClass live exists. */
  ghost predicate Unused(s: State, uid: nat) {
    forall c :: c in s.claims ==> (c, uid) !in s.passed
  }

  /** The NodeClass is still stored, with the finalizer. */
  ghost predicate Held(s: State, uid: nat) {
    exists n :: n in s.classes && s.classes[n].uid == uid && s.classes[n].deleting && FINALIZER in s.classes[n].finalizers
  }

  ghost predicate PassedOk(s: State) {
    forall x :: x in s.passed ==>
      && x.0 in s.names && x.1 in s.owners
      && (x.0 in s.claims ==> s.claims[x.0].nodeClass == s.owners[x.1])
  }

  ghost predicate GuardedOk(s: State, uid: nat) {
    uid in s.owners && DeletingForEver(s, uid) && (Held(s, uid) || Unused(s, uid))
  }

  /**
   * A run starts with no reconcile and no launch under way. Which claims saw their NodeClass live, and which NodeClasses
   * were deleted with the finalizer, may go back to earlier builds.
   */
  ghost predicate IsRun(b: Build, run: seq<State>, steps: seq<Step>) {
    && |run| == |steps| + 1
    && WellFormed(run[0])
    && run[0].reconciles == map[] && run[0].launches == map[] && run[0].listedAt == map[]
    && PassedOk(run[0]) && (forall u :: u in run[0].guarded ==> GuardedOk(run[0], u))
    && forall k {:trigger steps[k]} :: 0 <= k < |steps| ==> Enabled(b, run[k], steps[k]) && run[k + 1] == Apply(b, run[k], steps[k])
  }

  ghost predicate WellFormed(s: State) {
    ClassesOk(s) && ClaimsOk(s)
  }

  /** NodeClasses are stored under their names; UIDs and resource versions are handed out once. */
  ghost predicate ClassesOk(s: State) {
    && (forall n :: n in s.classes ==> ClassOk(s, n, s.classes[n]))
    && (forall m, n :: m in s.classes && n in s.classes && m != n ==> s.classes[m].resourceVersion != s.classes[n].resourceVersion)
    && (forall u :: u in s.owners ==> u < s.next)
  }

  predicate ClassOk(s: State, name: string, nc: NodeClass) {
    nc.name == name && nc.uid < s.next && nc.resourceVersion < s.next && nc.uid in s.owners && s.owners[nc.uid] == name
  }

  ghost predicate ClaimsOk(s: State) {
    forall n :: n in s.claims ==>
      s.claims[n].name == n && n in s.names && (s.claims[n].drifted.Some? ==> n in s.everDrifted)
  }

  /** A write keeps name and UID of what it replaces, or creates a live NodeClass under a fresh UID. */
  ghost predicate WriteOk(s: State, w: Write) {
    w.Write? ==>
      && w.nc.name == w.name && w.nc.resourceVersion == s.next
      && if w.name in s.classes
         then w.nc.uid == s.classes[w.name].uid && (s.classes[w.name].deleting ==> w.nc.deleting)
         else w.nc.uid == s.next && !w.nc.deleting
  }

  lemma WritesOk(b: Build, s: State, step: Step)
    requires Enabled(b, s, step) && ClassesOk(s)
    ensures WriteOk(s, ClassWrite(b, s, step))
  {
  }

  lemma StoreOk(s: State, w: Write)
    requires ClassesOk(s) && WriteOk(s, w)
    ensures ClassesOk(Store(s, w))
  {
  }

  lemma ClassesStep(b: Build, s: State, step: Step)
    requires Enabled(b, s, step) && ClassesOk(s)
    ensures ClassesOk(Apply(b, s, step))
  {
    WritesOk(b, s, step);
    StoreOk(s, ClassWrite(b, s, step));
  }

  lemma ClaimsStep(b: Build, s: State, step: Step)
    requires Enabled(b, s, step) && ClaimsOk(s)
    ensures ClaimsOk(Apply(b, s, step))
  {
  }

  lemma {:induction false} WellFormedAlways(b: Build, run: seq<State>, steps: seq<Step>, k: nat)
    requires IsRun(b, run, steps) && k < |run|
    ensures WellFormed(run[k])
  {
    if k > 0 {
      WellFormedAlways(b, run, steps, k - 1);
      ClassesStep(b, run[k - 1], steps[k - 1]);
      ClaimsStep(b, run[k - 1], steps[k - 1]);
    }
  }
}
