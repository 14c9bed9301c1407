/** NodeClasses, NodeClaims, drift, and the NodeClass reconciler at the granularity of one API call. */
module NodeClass {
  import opened Prelude
  import Strings

  const HASH := "karpenter.vultr.com/nodeclass-hash"
  const VERSION := "karpenter.vultr.com/nodeclass-hash-version"
  const FINALIZER := "karpenter.vultr.com/termination"
  const READY := "Ready"

  type Annotations = map<string, string>

  datatype Spec = Spec(
    region: string, osID: Option<int>, snapshotID: string, plan: string, sshKeyIDs: seq<string>, vpcIDs: seq<string>,
    kubernetesVersion: string, clusterEndpoint: string, caCertHash: string, extraUserData: string, enableIPv6: Option<bool>)

  /** A condition; `problem` stands for its reason and message, and is `None` for the ones of a true condition. */
  datatype Condition = Condition(kind: string, status: string, problem: Option<Problem>, observedGeneration: int)

  datatype Problem =
    | InvalidRegion
    | ImageNotConfigured
    | MultipleImagesConfigured
    | KubernetesVersionMissing
    | ClusterEndpointMissing
    | InvalidClusterEndpoint
    | InvalidCACertHash
    | OSLookupFailed(id: int, cause: string)
    | UnsupportedOSArchitecture(id: int, arch: string)
    | InvalidOS(id: int)
    | VultrAPIUnavailable(region: string, cause: string)
    | NoPlansAvailable(region: string)
    | PlanLookupFailed(plan: string, cause: string)
    | InvalidPlan(plan: string)
    | PlanUnavailable(plan: string, region: string)

  datatype Status = Status(conditions: seq<Condition>, resolvedPlanIDs: seq<string>, observedGeneration: int)

  datatype NodeClass = NodeClass(
    name: string, uid: nat, resourceVersion: nat, generation: int, annotations: Annotations, finalizers: seq<string>,
    deleting: bool, spec: Spec, status: Status)

  /** `drifted` is the status of the Drifted condition, if the claim has one. */
  datatype Claim = Claim(name: string, nodeClass: string, annotations: Annotations, drifted: Option<string>)

  /** A build of the provider: the revision of its hashing scheme, the hash itself, and the endpoint check. */
  datatype Build = Build(version: string, hash: Spec -> string, validEndpoint: string -> bool)

  datatype OSImage = OSImage(id: int, arch: string)

  function Get(a: Annotations, key: string): string {
    if key in a then a[key] else ""
  }

  datatype ApiError = NotFound | Conflict | Other(cause: string)

  // ---- Drift ----

  datatype Drift = NoDrift | NodeClassDrifted

  /** `nodeClass`: a NodeClass being deleted counts as not found. */
  function Usable(lookup: Result<NodeClass, ApiError>): Result<NodeClass, ApiError> {
    if lookup.Ok? && lookup.value.deleting then Err(NotFound) else lookup
  }

  /** `IsDrifted`, given what the lookup of the claim's NodeClass answers. */
  function IsDrifted(b: Build, lookup: Result<NodeClass, ApiError>, claim: Claim): Result<Drift, ApiError> {
    match Usable(lookup)
    case Err(e) => if e == NotFound then Ok(NoDrift) else Err(e)
    case Ok(nc) =>
      if HASH !in claim.annotations || VERSION !in claim.annotations || claim.annotations[VERSION] != b.version then Ok(NoDrift)
      else if claim.annotations[HASH] != b.hash(nc.spec) then Ok(NodeClassDrifted)
      else Ok(NoDrift)
  }

  /** The annotations a launched claim is given. */
  function Stamp(b: Build, spec: Spec): Annotations {
    map[HASH := b.hash(spec), VERSION := b.version]
  }

  // ---- Requests and answers ----

  /** A merge patch carries only what changed; `lock` is the resource version it insists on. */
  datatype Patch = Patch(annotations: Annotations, finalizers: Option<seq<string>>, lock: Option<nat>)

  datatype Request =
    | GetNodeClass(name: string)
    | PatchNodeClass(name: string, patch: Patch)
    | UpdateStatus(nc: NodeClass)
    | ListClaims(nodeClass: string)
    | PatchClaim(name: string, annotations: Annotations)
    | ListOS
    | GetAvailability(region: string)
    | GetPlans

  datatype Response =
    | Object(nc: NodeClass)
    | Claims(items: seq<Claim>)
    | Done
    | Images(images: seq<OSImage>)
    | Plans(ids: set<string>)
    | Failure(error: ApiError)

  predicate Fits(q: Request, r: Response) {
    r.Failure? ||
    match q
    case GetNodeClass(_) => r.Object?
    case PatchNodeClass(_, _) => r.Object?
    case UpdateStatus(_) => r.Done?
    case ListClaims(_) => r.Claims?
    case PatchClaim(_, _) => r.Done?
    case ListOS => r.Images?
    case GetAvailability(_) => r.Plans?
    case GetPlans => r.Plans?
  }

  predicate Writes(q: Request) {
    q.PatchNodeClass? || q.UpdateStatus? || q.PatchClaim?
  }

  /** The annotations of `changed` that are missing from `stored` or differ there. */
  function Changes(stored: Annotations, changed: Annotations): Annotations {
    map k | k in changed && (k !in stored || stored[k] != changed[k]) :: changed[k]
  }

  // ---- The reconciler ----

  datatype Outcome = Requeue(after: Time) | NoRequeue | Error

  const REFRESH: Time := 5 * MINUTE
  const RETRY: Time := 30 * SECOND
  const TERMINATION_POLL: Time := 15 * SECOND

  /**
   * Where one reconcile stands, by the request it is about to send. `todo[0]` is the claim to re-stamp next and `listed`
   * the claims the pass listed; `before` is the snapshot taken ahead of the status computation.
   */
  datatype Pc =
    | Fetch(name: string)
    | CheckClaims(nc: NodeClass)
    | Release(nc: NodeClass)
    | AddFinalizer(nc: NodeClass)
    | ListForMigration(nc: NodeClass)
    | Restamp(nc: NodeClass, todo: seq<Claim>, failed: bool, listed: seq<Claim>)
    | RecordHash(nc: NodeClass, listed: seq<Claim>)
    | LookupOS(before: NodeClass, nc: NodeClass)
    | LookupRegion(before: NodeClass, nc: NodeClass)
    | LookupPlans(before: NodeClass, nc: NodeClass, available: set<string>)
    | WriteStatus(nc: NodeClass, requeue: bool)
    | Finished(outcome: Outcome)

  function WithFinalizer(nc: NodeClass): NodeClass {
    nc.(finalizers := nc.finalizers + [FINALIZER])
  }

  function Without(s: seq<string>, x: string): (r: seq<string>)
    ensures x !in r && forall y :: y in r <==> y in s && y != x
  {
    if s == [] then [] else if s[0] == x then Without(s[1..], x) else [s[0]] + Without(s[1..], x)
  }

  function WithHash(b: Build, nc: NodeClass): NodeClass {
    nc.(annotations := nc.annotations[HASH := b.hash(nc.spec)][VERSION := b.version])
  }

  /** A claim re-stamped: its version becomes current; its hash only if it carries no Drifted condition. */
  function Restamped(b: Build, nc: NodeClass, claim: Claim): Claim {
    var a := claim.annotations[VERSION := b.version];
    claim.(annotations := if claim.drifted == None then a[HASH := b.hash(nc.spec)] else a)
  }

  predicate Current(b: Build, a: Annotations) {
    Get(a, VERSION) == b.version
  }

  function Ask(b: Build, pc: Pc): Request
    requires !pc.Finished?
    requires pc.Restamp? ==> pc.todo != []
  {
    match pc
    case Fetch(name) => GetNodeClass(name)
    case CheckClaims(nc) => ListClaims(nc.name)
    case Release(nc) => PatchNodeClass(nc.name, Patch(map[], Some(Without(nc.finalizers, FINALIZER)), Some(nc.resourceVersion)))
    case AddFinalizer(nc) => PatchNodeClass(nc.name, Patch(map[], Some(WithFinalizer(nc).finalizers), Some(nc.resourceVersion)))
    case ListForMigration(nc) => ListClaims(nc.name)
    case Restamp(nc, todo, _, _) => PatchClaim(todo[0].name, Changes(todo[0].annotations, Restamped(b, nc, todo[0]).annotations))
    case RecordHash(nc, _) => PatchNodeClass(nc.name, Patch(Changes(nc.annotations, WithHash(b, nc).annotations), None, None))
    case LookupOS(_, _) => ListOS
    case LookupRegion(_, nc) => GetAvailability(nc.spec.region)
    case LookupPlans(_, _, _) => GetPlans
    case WriteStatus(nc, _) => UpdateStatus(nc)
  }

  function AfterFetch(b: Build, nc: NodeClass): Pc {
    if nc.deleting then
      if FINALIZER in nc.finalizers then CheckClaims(nc) else Finished(NoRequeue)
    else if FINALIZER in nc.finalizers then StartSync(b, nc)
    else AddFinalizer(nc)
  }

  function StartSync(b: Build, nc: NodeClass): Pc {
    if Current(b, nc.annotations) then StartRecord(b, nc, []) else ListForMigration(nc)
  }

  /** Goes on to the next claim off the current version; at the end, any failed patch fails the pass. */
  function NextClaim(b: Build, nc: NodeClass, todo: seq<Claim>, failed: bool, listed: seq<Claim>): Pc {
    if todo == [] then if failed then Finished(Error) else StartRecord(b, nc, listed)
    else if Current(b, todo[0].annotations) then NextClaim(b, nc, todo[1..], failed, listed)
    else Restamp(nc, todo, failed, listed)
  }

  function StartRecord(b: Build, nc: NodeClass, listed: seq<Claim>): Pc {
    if WithHash(b, nc) == nc then StartAssess(b, nc) else RecordHash(nc, listed)
  }

  predicate ValidCAHash(h: string) {
    "sha256:" <= h && |h| == 71 && forall k :: 7 <= k < 71 ==> Strings.HexDigit(h[k])
  }

  function SpecProblem(b: Build, s: Spec): Option<Problem> {
    if Strings.TrimSpace(s.region) == "" then Some(InvalidRegion)
    else if s.osID == None && s.snapshotID == "" then Some(ImageNotConfigured)
    else if s.osID.Some? && s.snapshotID != "" then Some(MultipleImagesConfigured)
    else if s.kubernetesVersion == "" then Some(KubernetesVersionMissing)
    else if s.clusterEndpoint == "" then Some(ClusterEndpointMissing)
    else if !b.validEndpoint(s.clusterEndpoint) then Some(InvalidClusterEndpoint)
    else if s.caCertHash != "" && !ValidCAHash(s.caCertHash) then Some(InvalidCACertHash)
    else None
  }

  function Lower(s: string): string {
    seq(|s|, k requires 0 <= k < |s| => if 'A' <= s[k] <= 'Z' then (s[k] as int + 32) as char else s[k])
  }

  predicate IsAMD64(arch: string) {
    Lower(arch) in ["x64", "amd64", "x86_64", "x86-64"]
  }

  function ImageProblem(id: int, images: seq<OSImage>): Option<Problem> {
    if images == [] then Some(InvalidOS(id))
    else if images[0].id == id then
      if IsAMD64(images[0].arch) then None else Some(UnsupportedOSArchitecture(id, images[0].arch))
    else ImageProblem(id, images[1..])
  }

  /** The status computation starts from a snapshot, the new generation and no resolved plans. */
  function StartAssess(b: Build, nc: NodeClass): Pc {
    var blank := nc.(status := nc.status.(observedGeneration := nc.generation, resolvedPlanIDs := []));
    var problem := SpecProblem(b, nc.spec);
    if problem.Some? then Conclude(nc, blank, problem, false)
    else if nc.spec.osID.Some? then LookupOS(nc, blank)
    else LookupRegion(nc, blank)
  }

  function SetCondition(cs: seq<Condition>, c: Condition): seq<Condition> {
    if cs == [] then [c]
    else if cs[0].kind == c.kind then [c] + cs[1..]
    else [cs[0]] + SetCondition(cs[1..], c)
  }

  /** Sets the Ready condition, and writes the status only if it changed. */
  function Conclude(before: NodeClass, nc: NodeClass, problem: Option<Problem>, requeue: bool): Pc {
    var ready := Condition(READY, if problem == None then "True" else "False", problem, nc.generation);
    var done := nc.(status := nc.status.(conditions := SetCondition(nc.status.conditions, ready)));
    if before.status == done.status then Finished(Requeue(if requeue then RETRY else REFRESH))
    else WriteStatus(done, requeue)
  }

  /** The ascending list of the available plan IDs. */
  ghost function Resolved(available: set<string>): (r: seq<string>)
    ensures Strings.Ascending(r) && forall x :: x in r <==> x in available
  {
    Strings.Enumerated(available)
  }

  ghost function Resume(b: Build, pc: Pc, r: Response): Pc
    requires !pc.Finished?
    requires pc.Restamp? ==> pc.todo != []
    requires Fits(Ask(b, pc), r)
  {
    match pc
    case Fetch(_) =>
      if r.Failure? then Finished(if r.error == NotFound then NoRequeue else Error) else AfterFetch(b, r.nc)
    case CheckClaims(nc) =>
      if r.Failure? then Finished(Error)
      else if r.items != [] then Finished(Requeue(TERMINATION_POLL))
      else Release(nc)
    case Release(_) =>
      if !r.Failure? then Finished(NoRequeue)
      else (match r.error
            case Conflict => Finished(Requeue(SECOND))
            case NotFound => Finished(NoRequeue)
            case Other(_) => Finished(Error))
    case AddFinalizer(nc) =>
      if !r.Failure? then StartSync(b, r.nc)
      else if r.error == NotFound then StartSync(b, WithFinalizer(nc))
      else Finished(Error)
    case ListForMigration(nc) =>
      if r.Failure? then Finished(Error) else NextClaim(b, nc, r.items, false, r.items)
    case Restamp(nc, todo, failed, listed) =>
      NextClaim(b, nc, todo[1..], failed || (r.Failure? && r.error != NotFound), listed)
    case RecordHash(nc, _) =>
      if !r.Failure? then StartAssess(b, r.nc)
      else if r.error == NotFound then StartAssess(b, WithHash(b, nc))
      else Finished(Error)
    case LookupOS(before, nc) =>
      var id := if nc.spec.osID.Some? then nc.spec.osID.value else 0;
      if r.Failure? then Conclude(before, nc, Some(OSLookupFailed(id, Text(r.error))), true)
      else
        var problem := ImageProblem(id, r.images);
        if problem.Some? then Conclude(before, nc, problem, false) else LookupRegion(before, nc)
    case LookupRegion(before, nc) =>
      var region := nc.spec.region;
      if r.Failure? then Conclude(before, nc, Some(VultrAPIUnavailable(region, Text(r.error))), true)
      else
        var resolved := nc.(status := nc.status.(resolvedPlanIDs := Resolved(r.ids)));
        if r.ids == {} then Conclude(before, resolved, Some(NoPlansAvailable(region)), false)
        else if nc.spec.plan != "" then LookupPlans(before, resolved, r.ids)
        else Conclude(before, resolved, None, false)
    case LookupPlans(before, nc, available) =>
      var plan := nc.spec.plan;
      if r.Failure? then Conclude(before, nc, Some(PlanLookupFailed(plan, Text(r.error))), true)
      else if plan !in r.ids then Conclude(before, nc, Some(InvalidPlan(plan)), false)
      else if plan !in available then Conclude(before, nc, Some(PlanUnavailable(plan, nc.spec.region)), false)
      else Conclude(before, nc, None, false)
    case WriteStatus(_, requeue) =>
      if r.Failure? then Finished(Error) else Finished(Requeue(if requeue then RETRY else REFRESH))
  }

  function Text(e: ApiError): string {
    match e
    case NotFound => "not found"
    case Conflict => "conflict"
    case Other(cause) => cause
  }

  /** A pass only ever stands at a claim that is off the current version. */
  predicate PcOk(b: Build, pc: Pc) {
    pc.Restamp? ==>
      && pc.todo != [] && !Current(b, pc.todo[0].annotations)
      && forall c :: c in pc.todo ==> c in pc.listed
  }

  lemma {:induction false} NextClaimOk(b: Build, nc: NodeClass, todo: seq<Claim>, failed: bool, listed: seq<Claim>)
    requires forall c :: c in todo ==> c in listed
    ensures PcOk(b, NextClaim(b, nc, todo, failed, listed))
  {
    if todo != [] && Current(b, todo[0].annotations) {
      NextClaimOk(b, nc, todo[1..], failed, listed);
    }
  }

  lemma ResumeOk(b: Build, pc: Pc, r: Response)
    requires !pc.Finished? && PcOk(b, pc) && Fits(Ask(b, pc), r)
    ensures PcOk(b, Resume(b, pc, r))
  {
    match pc
    case ListForMigration(nc) => if r.Claims? { NextClaimOk(b, nc, r.items, false, r.items); }
    case Restamp(nc, todo, failed, listed) =>
      NextClaimOk(b, nc, todo[1..], failed || (r.Failure? && r.error != NotFound), listed);
    case _ =>
  }
}
