/** `CloudProvider.Create`: from a NodeClaim to a tagged instance and a stamped claim. */
module Launch {
  import opened Prelude
  import opened NodeClass
  import Base64
  import Cache
  import InstanceTypes
  import Render
  import Selection
  import Tags
  import Teardown
  import TokenCall
  import TokenProvider

  /** The NodeClaim to launch; `matches` is its requirement on the instance type. */
  datatype Order = Order(name: string, nodeClass: string, pool: string, matches: string -> bool)

  datatype Setting = Setting(cluster: string, build: Build, lib: Render.Library)

  /** The body of the create request, `name` being its label; an empty list or ID stands for a field that is not sent. */
  datatype InstanceRequest = InstanceRequest(
    region: string, plan: string, osID: Option<int>, snapshotID: string, hostname: string, name: string,
    sshKeyIDs: seq<string>, vpcIDs: seq<string>, userData: Option<string>, enableIPv6: bool, tags: seq<string>)

  datatype Launched = Launched(providerID: string, annotations: Annotations, plan: InstanceTypes.Plan)

  datatype CreateError =
    | Unresolved(cause: ApiError)
    | NodeClassNotReady
    | NoPlan(why: Selection.SelectError)
    | ClusterCAUnavailable
    | BootstrapTokenUnavailable(reason: TokenCall.Error)
    | BootstrapConfigurationInvalid(flaw: Render.RenderError)
    | InsufficientCapacity
    | InvalidInstanceConfiguration
    | InstanceCreateFailed

  function Classify(e: Teardown.ApiError): CreateError {
    if e == Teardown.Status(409) then InsufficientCapacity
    else if e == Teardown.Status(400) || e == Teardown.Status(422) then InvalidInstanceConfiguration
    else InstanceCreateFailed
  }

  /** Where one `Create` stands, by the call it is about to make; at the end, also where it stood before. */
  datatype Position =
    | Resolving
    | Choosing(nc: NodeClass)
    | Hashing(nc: NodeClass, plan: InstanceTypes.Plan)
    | Fetching(nc: NodeClass, plan: InstanceTypes.Plan, caHash: string)
    | Rendering(nc: NodeClass, plan: InstanceTypes.Plan, caHash: string, token: string)
    | Requesting(nc: NodeClass, plan: InstanceTypes.Plan, caHash: string, token: string, request: InstanceRequest)
    | Ended(last: Position, result: Result<Launched, CreateError>)

  function ReadyStatus(conditions: seq<Condition>): Option<string> {
    if conditions == [] then None
    else if conditions[0].kind == READY then Some(conditions[0].status)
    else ReadyStatus(conditions[1..])
  }

  /** A NodeClass whose readiness is not known yet is not held back. */
  predicate HeldBack(nc: NodeClass) {
    ReadyStatus(nc.status.conditions) == Some("False")
  }

  function Fail(pc: Position, e: CreateError): Position {
    Ended(pc, Err(e))
  }

  function AfterResolve(answer: Result<NodeClass, ApiError>): Position {
    match Usable(answer)
    case Err(e) => Fail(Resolving, Unresolved(e))
    case Ok(nc) => if HeldBack(nc) then Fail(Resolving, NodeClassNotReady) else Choosing(nc)
  }

  function AfterChoice(pc: Position, r: Result<InstanceTypes.Plan, Selection.SelectError>): Position
    requires pc.Choosing?
  {
    match r
    case Err(e) => Fail(pc, NoPlan(e))
    case Ok(plan) =>
      if pc.nc.spec.caCertHash == "" then Hashing(pc.nc, plan) else Fetching(pc.nc, plan, pc.nc.spec.caCertHash)
  }

  function AfterHash(pc: Position, answer: Option<string>): Position
    requires pc.Hashing?
  {
    match answer
    case None => Fail(pc, ClusterCAUnavailable)
    case Some(hash) => Fetching(pc.nc, pc.plan, hash)
  }

  function AfterToken(pc: Position, r: Result<string, TokenCall.Error>): Position
    requires pc.Fetching?
  {
    match r
    case Err(e) => Fail(pc, BootstrapTokenUnavailable(e))
    case Ok(token) => Rendering(pc.nc, pc.plan, pc.caHash, token)
  }

  function Config(order: Order, nc: NodeClass, caHash: string): Render.BootstrapConfig {
    Render.BootstrapConfig(nc.spec.kubernetesVersion, nc.spec.clusterEndpoint, caHash, order.name, nc.spec.extraUserData)
  }

  /** Go strings are byte strings. */
  predicate InBytes(order: Order, nc: NodeClass) {
    Render.ByteConfig(Config(order, nc, nc.spec.caCertHash))
  }

  /** What is rendered consists of bytes. */
  ghost predicate Sane(setting: Setting, order: Order, pc: Position) {
    && Render.Sound(setting.lib)
    && (pc.Choosing? || pc.Hashing? || pc.Fetching? || pc.Rendering? ==> InBytes(order, pc.nc))
    && (pc.Fetching? || pc.Rendering? ==> Base64.IsBytes(pc.caHash))
  }

  /** Rendering is no call: it leads on to the request, or to the end. */
  function AfterRender(setting: Setting, order: Order, pc: Position): Position
    requires pc.Rendering? && Sane(setting, order, pc)
  {
    var spec, cfg := pc.nc.spec, Config(order, pc.nc, pc.caHash);
    match Render.Render(setting.lib, cfg, pc.token)
    case Err(e) => Fail(pc, BootstrapConfigurationInvalid(e))
    case Ok(userData) =>
      Rendered(setting, cfg, pc.token);
      Requesting(pc.nc, pc.plan, pc.caHash, pc.token, InstanceRequest(
        spec.region, pc.plan.id, spec.osID, spec.snapshotID, order.name, order.name, spec.sshKeyIDs, spec.vpcIDs,
        Render.Payload(userData), spec.enableIPv6 == Some(true),
        Tags.InstanceTags(setting.cluster, order.name, order.pool, pc.nc.name)))
  }

  lemma Rendered(setting: Setting, cfg: Render.BootstrapConfig, token: string)
    requires Render.Sound(setting.lib) && Render.ByteConfig(cfg) && Render.Render(setting.lib, cfg, token).Ok?
    ensures Base64.IsBytes(Render.Render(setting.lib, cfg, token).value)
  {
    Render.RenderRoundTrip(setting.lib, cfg, token);
  }

  /** Vultr answers with the ID of the new instance. */
  function AfterRequest(setting: Setting, pc: Position, answer: Result<string, Teardown.ApiError>): Position
    requires pc.Requesting?
  {
    match answer
    case Err(e) => Fail(pc, Classify(e))
    case Ok(id) => Ended(pc, Ok(Launched(Teardown.ProviderID(id), Stamp(setting.build, pc.nc.spec), pc.plan)))
  }

  /** What the caches answered this call, the hash it read, if any, and where its token call ended. */
  datatype Sources = Sources(
    catalogue: Cache.Caller<map<string, InstanceTypes.Plan>>, regional: Cache.Caller<map<string, ()>>,
    caHash: Option<string>, token: TokenCall.Call)

  ghost predicate SelectedBy(order: Order, nc: NodeClass, r: Result<InstanceTypes.Plan, Selection.SelectError>, src: Sources) {
    Selection.Selected(r, src.catalogue, src.regional, nc.spec.region, order.matches, nc.spec.plan)
  }

  ghost predicate TokenFrom(r: Result<string, TokenCall.Error>, src: Sources) {
    TokenCall.Ended(src.token) && TokenCall.CallOk(src.token) && TokenCall.Answer(src.token) == r
  }

  /**
   * A live NodeClass that is not held back was resolved; from the selection on, the plan is the one selected from what
   * the caches answered; the CA hash is the NodeClass's, or the cluster's if that has none; from the token on, the token
   * is the one its call answered with; and a request is the one rendered from all this.
   */
  ghost predicate Underway(setting: Setting, order: Order, pc: Position, src: Sources) {
    !pc.Ended? && (!pc.Resolving? ==>
      && !pc.nc.deleting && !HeldBack(pc.nc)
      && (!pc.Choosing? ==> SelectedBy(order, pc.nc, Ok(pc.plan), src))
      && (pc.Fetching? || pc.Rendering? || pc.Requesting? ==>
            Some(pc.caHash) == if pc.nc.spec.caCertHash != "" then Some(pc.nc.spec.caCertHash) else src.caHash)
      && (pc.Rendering? || pc.Requesting? ==> TokenFrom(Ok(pc.token), src))
      && (pc.Requesting? ==> RenderedFrom(setting, order, pc)))
  }

  ghost predicate RenderedFrom(setting: Setting, order: Order, pc: Position)
    requires pc.Requesting?
  {
    var before := Rendering(pc.nc, pc.plan, pc.caHash, pc.token);
    Sane(setting, order, before) && AfterRender(setting, order, before) == pc
  }

  /** And a selection or token call that failed failed this one. */
  ghost predicate Sourced(setting: Setting, order: Order, pc: Position, src: Sources)
    requires pc.Ended?
  {
    && Underway(setting, order, pc.last, src)
    && (pc.last.Choosing? ==> exists e :: pc.result == Err(NoPlan(e)) && SelectedBy(order, pc.last.nc, Err(e), src))
    && (pc.last.Hashing? ==> pc.result == Err(ClusterCAUnavailable))
    && (pc.last.Rendering? ==>
          var flaw := Render.Validate(setting.lib, Config(order, pc.last.nc, pc.last.caHash), pc.last.token);
          flaw.Some? && pc.result == Err(BootstrapConfigurationInvalid(flaw.value)))
    && (pc.last.Fetching? ==> exists e :: pc.result == Err(BootstrapTokenUnavailable(e)) && TokenFrom(Err(e), src))
  }

  lemma AfterHashSane(setting: Setting, order: Order, pc: Position, answer: Option<string>)
    requires pc.Hashing? && Sane(setting, order, pc) && (answer.Some? ==> Base64.IsBytes(answer.value))
    ensures Sane(setting, order, AfterHash(pc, answer))
  {
  }

  /**
   * The API server and Vultr as seen by one `Create`, beside the sessions with the caches and the token provider, whose
   * answers it takes over from where those sessions stand.
   */
  class Session {
    const setting: Setting
    const order: Order
    ghost var pc: Position
    ghost var caHash: Option<string>

    constructor (setting: Setting, order: Order)
      requires Render.Sound(setting.lib)
      ensures this.setting == setting && this.order == order && pc == Resolving && Sane(setting, order, pc)
    {
      this.setting, this.order, pc, caHash := setting, order, Resolving, None;
    }

    method GetNodeClass(name: string) returns (answer: Result<NodeClass, ApiError>)
      requires pc == Resolving && Sane(setting, order, pc) && name == order.nodeClass
      modifies this
      ensures pc == AfterResolve(answer) && Sane(setting, order, pc)
    {
      answer := *;
      if answer.Ok? && !InBytes(order, answer.value) {
        answer := Err(Other(""));
      }
      pc := AfterResolve(answer);
    }

    ghost method Chosen(catalogue: InstanceTypes.CatalogueCall, regional: InstanceTypes.RegionCall, r: Result<InstanceTypes.Plan, Selection.SelectError>)
      requires pc.Choosing? && Sane(setting, order, pc)
      requires Selection.Selected(r, catalogue.caller, regional.caller, pc.nc.spec.region, order.matches, pc.nc.spec.plan)
      modifies this
      ensures pc == AfterChoice(old(pc), r) && Sane(setting, order, pc)
    {
      pc := AfterChoice(pc, r);
    }

    method ClusterCAHash() returns (answer: Option<string>)
      requires pc.Hashing? && Sane(setting, order, pc)
      modifies this
      ensures pc == AfterHash(old(pc), answer) && Sane(setting, order, pc) && caHash == answer
    {
      answer := *;
      if answer.Some? && !Base64.IsBytes(answer.value) {
        answer := None;
      }
      AfterHashSane(setting, order, pc, answer);
      pc, caHash := AfterHash(pc, answer), answer;
    }

    ghost method TokenFetched(secrets: TokenProvider.Session)
      requires pc.Fetching? && Sane(setting, order, pc) && TokenCall.Ended(secrets.call) && TokenCall.CallOk(secrets.call)
      modifies `pc
      ensures pc == AfterToken(old(pc), TokenCall.Answer(secrets.call)) && Sane(setting, order, pc)
    {
      pc := AfterToken(pc, TokenCall.Answer(secrets.call));
    }

    ghost method Rendered()
      requires pc.Rendering? && Sane(setting, order, pc)
      modifies `pc
      ensures pc == AfterRender(setting, order, old(pc))
    {
      pc := AfterRender(setting, order, pc);
    }

    method CreateInstance(q: InstanceRequest) returns (answer: Result<string, Teardown.ApiError>)
      requires pc.Requesting? && q == pc.request
      modifies `pc
      ensures pc == AfterRequest(setting, old(pc), answer)
    {
      answer := *;
      pc := AfterRequest(setting, pc, answer);
    }
  }

  method Create(world: Session, provider: InstanceTypes.Provider, catalogue: InstanceTypes.CatalogueCall,
                regional: InstanceTypes.RegionCall, secrets: TokenProvider.Session) returns (r: Result<Launched, CreateError>)
    requires world.pc == Resolving && Sane(world.setting, world.order, world.pc) && provider.Valid()
    requires !catalogue.entered && !regional.entered
    requires catalogue.caller == Cache.Called("") && regional.caller == Cache.Called("") && secrets.call == TokenCall.FirstList
    modifies world, provider, catalogue, regional, secrets
    ensures provider.Valid()
    ensures world.pc.Ended? && world.pc.result == r
    ensures Sourced(world.setting, world.order, world.pc, Sources(catalogue.caller, regional.caller, world.caHash, secrets.call))
  {
    var order := world.order;
    var answer := world.GetNodeClass(order.nodeClass);
    if answer.Err? {
      return Err(Unresolved(answer.error));
    }
    var nc := answer.value;
    if nc.deleting {
      return Err(Unresolved(NotFound));
    }
    var ready := Readiness(nc.status.conditions);
    if ready == Some("False") {
      return Err(NodeClassNotReady);
    }
    var chosen := Selection.SelectPlan(provider, catalogue, regional, nc.spec.region, order.matches, nc.spec.plan);
    world.Chosen(catalogue, regional, chosen);
    if chosen.Err? {
      return Err(NoPlan(chosen.error));
    }
    r := Provision(world, catalogue, regional, secrets, nc, chosen.value);
  }

  /** The rest of `Create`, once the plan is chosen. */
  method Provision(world: Session, ghost catalogue: InstanceTypes.CatalogueCall, ghost regional: InstanceTypes.RegionCall,
                   secrets: TokenProvider.Session, nc: NodeClass, plan: InstanceTypes.Plan) returns (r: Result<Launched, CreateError>)
    requires !nc.deleting && !HeldBack(nc) && world.pc == AfterChoice(Choosing(nc), Ok(plan))
    requires Sane(world.setting, world.order, world.pc) && secrets.call == TokenCall.FirstList
    requires Selection.Selected(Ok(plan), catalogue.caller, regional.caller, nc.spec.region, world.order.matches, nc.spec.plan)
    modifies world, secrets
    ensures world.pc.Ended? && world.pc.result == r
    ensures Sourced(world.setting, world.order, world.pc, Sources(catalogue.caller, regional.caller, world.caHash, secrets.call))
  {
    var order, caHash := world.order, nc.spec.caCertHash;
    if caHash == "" {
      var hash := world.ClusterCAHash();
      if hash == None {
        return Err(ClusterCAUnavailable);
      }
      caHash := hash.value;
    }
    var token := TokenProvider.Token(secrets);
    world.TokenFetched(secrets);
    if token.Err? {
      return Err(BootstrapTokenUnavailable(token.error));
    }
    ghost var rendering := world.pc;
    r := Submit(world, nc, plan, caHash, token.value);
    SubmittedSourced(world.setting, order, rendering, world.pc, Sources(catalogue.caller, regional.caller, world.caHash, secrets.call));
  }

  lemma SubmittedSourced(setting: Setting, order: Order, before: Position, end: Position, src: Sources)
    requires before.Rendering? && Sane(setting, order, before) && !before.nc.deleting && !HeldBack(before.nc)
    requires SelectedBy(order, before.nc, Ok(before.plan), src) && TokenFrom(Ok(before.token), src)
    requires Some(before.caHash) == if before.nc.spec.caCertHash != "" then Some(before.nc.spec.caCertHash) else src.caHash
    requires end.Ended? && (end == AfterRender(setting, order, before) || (end.last.Requesting? && end.last == AfterRender(setting, order, before)))
    ensures Sourced(setting, order, end, src)
  {
  }

  /** And once the token is there. */
  method Submit(world: Session, nc: NodeClass, plan: InstanceTypes.Plan, caHash: string, token: string) returns (r: Result<Launched, CreateError>)
    requires world.pc == Rendering(nc, plan, caHash, token) && Sane(world.setting, world.order, world.pc)
    modifies world`pc
    ensures world.pc.Ended? && world.pc.result == r
    ensures var next := AfterRender(world.setting, world.order, old(world.pc)); world.pc == next || (next.Requesting? && world.pc.last == next)
  {
    var order := world.order;
    var userData := Render.Render(world.setting.lib, Config(order, nc, caHash), token);
    world.Rendered();
    if userData.Err? {
      return Err(BootstrapConfigurationInvalid(userData.error));
    }
    Rendered(world.setting, Config(order, nc, caHash), token);
    var id := world.CreateInstance(InstanceRequest(
      nc.spec.region, plan.id, nc.spec.osID, nc.spec.snapshotID, order.name, order.name, nc.spec.sshKeyIDs,
      nc.spec.vpcIDs, Render.Payload(userData.value), nc.spec.enableIPv6 == Some(true),
      Tags.InstanceTags(world.setting.cluster, order.name, order.pool, nc.name)));
    if id.Err? {
      return Err(Classify(id.error));
    }
    return Ok(Launched(Teardown.ProviderID(id.value), Stamp(world.setting.build, nc.spec), plan));
  }

  /** The status of the Ready condition, if there is one. */
  method Readiness(conditions: seq<Condition>) returns (status: Option<string>)
    ensures status == ReadyStatus(conditions)
  {
    for i := 0 to |conditions|
      invariant ReadyStatus(conditions) == ReadyStatus(conditions[i..])
    {
      assert conditions[i..][1..] == conditions[i + 1..];
      if conditions[i].kind == READY {
        return Some(conditions[i].status);
      }
    }
    return None;
  }

  // ---- What a launch leaves behind ----

  /** The plan requested is, in what the caches answered, known and available, and compatible; and the fixed one, if one is. */
  lemma PlanFits(setting: Setting, order: Order, pc: Position, src: Sources)
    requires pc.Requesting? && Underway(setting, order, pc, src)
    ensures Cache.Answered(src.catalogue) && Cache.Answered(src.regional) && src.regional.key == pc.nc.spec.region
    ensures var plans, available, plan := Cache.Answer(src.catalogue), Cache.Answer(src.regional), pc.request.plan;
            plans.Ok? && available.Ok? && plan in plans.value && plan in available.value && order.matches(plan)
            && (pc.nc.spec.plan in ["", plan])
  {
    Selection.SelectedFits(pc.plan, src.catalogue, src.regional, pc.nc.spec.region, order.matches, pc.nc.spec.plan);
  }

  /**
   * What is requested: the NodeClass's region, image, keys, networks and addressing, the plan selected, and the claim's name
   * as host name and label, with the four tags.
   */
  lemma RequestExactly(setting: Setting, order: Order, pc: Position, src: Sources)
    requires pc.Requesting? && Underway(setting, order, pc, src)
    ensures var q, spec := pc.request, pc.nc.spec;
            && q.region == spec.region && q.plan == pc.plan.id && q.osID == spec.osID && q.snapshotID == spec.snapshotID
            && q.sshKeyIDs == spec.sshKeyIDs && q.vpcIDs == spec.vpcIDs && (q.enableIPv6 <==> spec.enableIPv6 == Some(true))
            && q.hostname == order.name && q.name == order.name
            && q.tags == ["karpenter-cluster=" + setting.cluster, "karpenter-nodeclaim=" + order.name,
                          "karpenter-nodepool=" + order.pool, "karpenter-nodeclass=" + pc.nc.name]
  {
  }

  /**
   * The instance requested is the claim's own under the installation's tags and nobody else's, and the script it receives
   * as user data holds what it was ordered with, the token among it.
   */
  lemma RequestIsOwn(setting: Setting, order: Order, pc: Position, reader: string)
    requires pc.Rendering? && Sane(setting, order, pc) && AfterRender(setting, order, pc).Requesting?
    ensures var q := AfterRender(setting, order, pc).request;
            && Tags.NodeClaimName(q.tags, reader) ==
               (if reader == setting.cluster && reader != "" && Tags.Plain(reader) && order.name != "" && Tags.Plain(order.name)
                then Some(order.name) else None)
            && q.userData.Some? && Receives(setting, q.userData.value, order.name, pc.nc.spec, pc.caHash, pc.token)
  {
    var q, cfg := AfterRender(setting, order, pc).request, Config(order, pc.nc, pc.caHash);
    Tags.OwnershipRoundTrip(q.tags, setting.cluster, order.name, order.pool, pc.nc.name, [], reader);
    Render.RenderRoundTrip(setting.lib, cfg, pc.token);
    Render.SixVariables(setting.lib, cfg, pc.token);
    Base64.RoundTrip(pc.nc.spec.extraUserData);
  }

  /** The script in the user data assigns the six variables, the extra data encoded, and the token, hash and data verbatim. */
  predicate Receives(setting: Setting, userData: string, name: string, spec: Spec, caHash: string, token: string) {
    && Render.KubernetesMinor(spec.kubernetesVersion).Some? && setting.lib.normalize(spec.clusterEndpoint).Some?
    && match Render.ReceivedScript(userData)
       case None => false
       case Some(script) =>
         && Render.Holds(script, "KUBERNETES_MINOR=", Render.KubernetesMinor(spec.kubernetesVersion).value)
         && Render.Holds(script, "API_SERVER=", setting.lib.normalize(spec.clusterEndpoint).value)
         && Render.Holds(script, "NODE_NAME=", name)
         && Render.Variable(script, "BOOTSTRAP_TOKEN=") == Some(token)
         && Render.Variable(script, "CA_CERT_HASH=") == Some(caHash)
         && Render.Variable(script, "EXTRA_USER_DATA_B64=").Some?
         && Base64.Decode(Render.Variable(script, "EXTRA_USER_DATA_B64=").value) == Some(spec.extraUserData)
  }

  /**
   * A launched claim bears just the hash and the version of its NodeClass, and the provider ID of its instance. It is found
   * drifted exactly when the hash has changed since, and its provider ID leads back to the instance; unless Vultr answered
   * without an ID, for then `Delete` can never find it.
   */
  lemma LaunchedIsInStep(setting: Setting, pc: Position, id: string, claim: Claim, live: NodeClass)
    requires pc.Requesting? && !live.deleting
    ensures AfterRequest(setting, pc, Ok(id)).Ended? && AfterRequest(setting, pc, Ok(id)).result.Ok?
    ensures var l := AfterRequest(setting, pc, Ok(id)).result.value;
            && l.providerID == "vultr://" + id && l.plan == pc.plan
            && l.annotations == map["karpenter.vultr.com/nodeclass-hash" := setting.build.hash(pc.nc.spec),
                                    "karpenter.vultr.com/nodeclass-hash-version" := setting.build.version]
            && (claim.annotations == l.annotations ==>
                  (IsDrifted(setting.build, Ok(live), claim) == Ok(NodeClassDrifted) <==>
                     setting.build.hash(live.spec) != setting.build.hash(pc.nc.spec)))
            && Teardown.ParseProviderID(l.providerID) == if id == "" then None else Some(id)
  {
    var l := AfterRequest(setting, pc, Ok(id)).result.value;
    assert l.providerID[|Teardown.SCHEME|..] == id;
  }

  /** A request refused with 409 means no capacity, one refused with 400 or 422 a configuration that is not valid. */
  lemma RefusedExactly(setting: Setting, pc: Position, e: Teardown.ApiError)
    requires pc.Requesting?
    ensures AfterRequest(setting, pc, Err(e)) ==
            Ended(pc, Err(if e == Teardown.Status(409) then InsufficientCapacity
                          else if e in [Teardown.Status(400), Teardown.Status(422)] then InvalidInstanceConfiguration
                          else InstanceCreateFailed))
  {
  }

  /**
   * A launch goes on exactly with a NodeClass that was found, is not being deleted, and whose first Ready condition, if it
   * has one, is not `False`; a failed lookup is passed on, and a NodeClass being deleted counts as not found.
   */
  lemma ResolvedExactly(answer: Result<NodeClass, ApiError>)
    ensures AfterResolve(answer) ==
            match answer
            case Err(e) => Ended(Resolving, Err(Unresolved(e)))
            case Ok(nc) =>
              if nc.deleting then Ended(Resolving, Err(Unresolved(NotFound)))
              else if exists k :: FirstReady(nc.status.conditions, k) && nc.status.conditions[k].status == "False"
              then Ended(Resolving, Err(NodeClassNotReady))
              else Choosing(nc)
  {
    if answer.Ok? {
      var conditions := answer.value.status.conditions;
      ReadyExactly(conditions);
    }
  }

  predicate FirstReady(conditions: seq<Condition>, k: int) {
    0 <= k < |conditions| && conditions[k].kind == "Ready" && forall j :: 0 <= j < k ==> conditions[j].kind != "Ready"
  }

  lemma {:induction false} ReadyExactly(conditions: seq<Condition>)
    ensures forall k :: FirstReady(conditions, k) ==> ReadyStatus(conditions) == Some(conditions[k].status)
    ensures ReadyStatus(conditions).Some? ==> exists k :: FirstReady(conditions, k)
  {
    if conditions != [] {
      if conditions[0].kind == "Ready" {
        assert FirstReady(conditions, 0);
      } else {
        ReadyExactly(conditions[1..]);
        forall k | FirstReady(conditions, k) ensures ReadyStatus(conditions) == Some(conditions[k].status) {
          assert FirstReady(conditions[1..], k - 1);
        }
        if ReadyStatus(conditions).Some? {
          var k :| FirstReady(conditions[1..], k);
          assert FirstReady(conditions, k + 1);
        }
      }
    }
  }
}
