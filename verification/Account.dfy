/**
 * Several installations sharing one Vultr account. A step is one API call, one clock reading or one move of the
 * environment, so launches, deletes, listings and orphan scans interleave freely, and Vultr may fail, delay or apply
 * any request as it likes.
 */
module Account {
  import opened Prelude
  import opened Teardown
  import Orphan
  import Tags

  /** `names[k]` is the cluster name of installation `k`; `lag` bounds how stale a claim read can be. */
  datatype Config = Config(names: seq<string>, lag: Time)

  /** What Vultr stores of an instance, with who launched it and when. Tags and dates never change, IDs are never reused. */
  datatype Record = Record(instance: Instance, owner: Option<nat>, claim: string, created: Time, gone: bool)

  /** A NodeClaim's lifetime. Claim names are never reused, so a claim that died stays dead. */
  datatype Life = Life(born: Time, died: Option<Time>)

  /** A delete request sent to Vultr. */
  datatype Sent = Sent(site: nat, id: string, byOrphanLoop: bool)

  datatype State = State(
    now: Time,
    store: map<string, Record>,
    claims: map<(nat, string), Life>,
    known: set<(nat, string)>,
    loops: map<nat, Orphan.Loop>,
    calls: map<(nat, nat), Call>,
    targets: map<(nat, nat), string>,
    sent: set<Sent>)

  datatype Step =
    | Tick(d: Time)
    | PersistClaim(site: nat, name: string)
    | RemoveClaim(site: nat, name: string)
    | Launch(site: nat, name: string, pool: string, nodeClass: string, id: string, tags: seq<string>, foreign: seq<string>, answered: bool)
    | LaunchElsewhere(instance: Instance)
    | Destroy(id: string)
    | ListOwn(site: nat, ids: seq<string>)
    | StartDelete(site: nat, call: nat, providerID: string)
    | SendDelete(site: nat, call: nat, answer: Option<ApiError>)
    | SendGet(site: nat, call: nat, answer: Option<ApiError>)
    | OrphanList(site: nat, ids: seq<string>)
    | OrphanClock(site: nat)
    | OrphanRead(site: nat, asOf: Time, readable: bool)
    | OrphanDelete(site: nat, answer: Option<ApiError>)

  predicate Legal(c: Config) {
    && (forall k :: 0 <= k < |c.names| ==> c.names[k] != "")
    && forall j, k :: 0 <= j < k < |c.names| ==> c.names[j] != c.names[k]
  }

  predicate ExistedAt(claims: map<(nat, string), Life>, claim: (nat, string), t: Time) {
    claim in claims && claims[claim].born <= t && (claims[claim].died == None || t < claims[claim].died.value)
  }

  predicate Dead(claims: map<(nat, string), Life>, claim: (nat, string), now: Time) {
    claim in claims && claims[claim].died.Some? && claims[claim].died.value <= now
  }

  function Listed(s: State, ids: seq<string>): seq<Instance>
    requires forall k :: 0 <= k < |ids| ==> ids[k] in s.store
  {
    seq(|ids|, k requires 0 <= k < |ids| => s.store[ids[k]].instance)
  }

  /** Vultr answers 404 for an instance only when it is gone. */
  predicate Truthful(s: State, id: string, answer: Option<ApiError>) {
    answer.Some? && NotFound(answer.value) && id in s.store ==> s.store[id].gone
  }

  ghost predicate Init(c: Config, s: State) {
    && s.now >= 0 && s.store == map[] && s.claims == map[] && s.known == {}
    && s.loops == map[] && s.calls == map[] && s.targets == map[] && s.sent == {}
  }

  ghost predicate Enabled(c: Config, s: State, step: Step) {
    match step
    case Tick(d) => d >= 0
    case PersistClaim(site, name) => site < |c.names| && (site, name) !in s.claims
    case RemoveClaim(site, name) => (site, name) in s.claims && s.claims[(site, name)].died == None
    case Launch(site, name, pool, nodeClass, id, tags, foreign, _) =>
      && site < |c.names| && (site, name) in s.claims && id !in s.store && id != ""
      && Tags.Carries(tags, c.names[site], name, pool, nodeClass, foreign)
    case LaunchElsewhere(i) => i.id !in s.store && i.id != "" && forall t :: t in i.tags ==> Tags.Foreign(t)
    case Destroy(id) => id in s.store
    case ListOwn(site, ids) => site < |c.names| && forall k :: 0 <= k < |ids| ==> ids[k] in s.store
    case StartDelete(site, call, providerID) => (site, providerID) in s.known
    case SendDelete(site, call, answer) =>
      (site, call) in s.calls && s.calls[(site, call)].Deleting? && Truthful(s, s.calls[(site, call)].id, answer)
    case SendGet(site, call, answer) =>
      (site, call) in s.calls && s.calls[(site, call)].Confirming? && Truthful(s, s.calls[(site, call)].id, answer)
    case OrphanList(site, ids) => site < |c.names| && forall k :: 0 <= k < |ids| ==> ids[k] in s.store
    case OrphanClock(site) => LoopReady(c, s, site) && s.loops[site].Aging?
    case OrphanRead(site, asOf, _) => LoopReady(c, s, site) && s.loops[site].Checking? && s.now - c.lag <= asOf <= s.now
    case OrphanDelete(site, answer) =>
      LoopReady(c, s, site) && s.loops[site].Removing? && Truthful(s, s.loops[site].todo[0].id, answer)
  }

  predicate LoopReady(c: Config, s: State, site: nat) {
    && site < |c.names| && site in s.loops
    && (s.loops[site].Aging? || s.loops[site].Checking? || s.loops[site].Removing? ==>
          s.loops[site].todo != [] && Orphan.Candidate(c.names[site], s.loops[site].todo[0]))
  }

  /** The claim read of the orphan loop: the API server's state at some moment at most `lag` ago. */
  function ReadClaim(c: Config, s: State, site: nat, asOf: Time, readable: bool): Orphan.ClaimRead
    requires LoopReady(c, s, site) && s.loops[site].Checking?
  {
    var name := Tags.NodeClaimName(s.loops[site].todo[0].tags, c.names[site]).value;
    if !readable then Orphan.Unreadable
    else if ExistedAt(s.claims, (site, name), asOf) then Orphan.Found
    else Orphan.Missing
  }

  function StoreNext(c: Config, s: State, step: Step): map<string, Record>
    requires step.Destroy? ==> step.id in s.store
  {
    match step
    case Launch(site, name, _, _, id, tags, _, _) =>
      s.store[id := Record(Instance(id, tags, Some(WholeSeconds(s.now))), Some(site), name, s.now, false)]
    case LaunchElsewhere(i) => s.store[i.id := Record(i, None, "", s.now, false)]
    case Destroy(id) => s.store[id := s.store[id].(gone := true)]
    case _ => s.store
  }

  function ClaimsNext(c: Config, s: State, step: Step): map<(nat, string), Life>
    requires step.RemoveClaim? ==> (step.site, step.name) in s.claims
  {
    match step
    case PersistClaim(site, name) => s.claims[(site, name) := Life(s.now, None)]
    case RemoveClaim(site, name) => s.claims[(site, name) := s.claims[(site, name)].(died := Some(s.now))]
    case _ => s.claims
  }

  /** Provider IDs come from a launch that was answered and from listings, and from nowhere else. */
  ghost function KnownNext(c: Config, s: State, step: Step): set<(nat, string)>
    requires Enabled(c, s, step)
  {
    match step
    case Launch(site, _, _, _, id, _, _, answered) => if answered then s.known + {(site, ProviderID(id))} else s.known
    case ListOwn(site, ids) => s.known + set p | p in OwnProviderIDs(Listed(s, ids), c.names[site]) :: (site, p)
    case _ => s.known
  }

  ghost function CallsNext(c: Config, s: State, step: Step): map<(nat, nat), Call>
    requires Enabled(c, s, step)
  {
    match step
    case StartDelete(site, call, providerID) => s.calls[(site, call) := Begin(providerID)]
    case SendDelete(site, call, answer) => s.calls[(site, call) := AfterDelete(s.calls[(site, call)], answer)]
    case SendGet(site, call, answer) => s.calls[(site, call) := AfterGet(s.calls[(site, call)], answer)]
    case _ => s.calls
  }

  ghost function LoopsNext(c: Config, s: State, step: Step): map<nat, Orphan.Loop>
    requires Enabled(c, s, step)
  {
    match step
    case OrphanList(site, ids) => s.loops[site := Orphan.AfterList(c.names[site], Ok(Listed(s, ids)))]
    case OrphanClock(site) => s.loops[site := Orphan.AfterClock(c.names[site], s.loops[site], s.now)]
    case OrphanRead(site, asOf, readable) =>
      s.loops[site := Orphan.AfterRead(c.names[site], s.loops[site], ReadClaim(c, s, site, asOf, readable))]
    case OrphanDelete(site, answer) => s.loops[site := Orphan.AfterRemove(c.names[site], s.loops[site], answer)]
    case _ => s.loops
  }

  ghost function SentNext(c: Config, s: State, step: Step): set<Sent>
    requires Enabled(c, s, step)
  {
    match step
    case SendDelete(site, call, _) => s.sent + {Sent(site, s.calls[(site, call)].id, false)}
    case OrphanDelete(site, _) => s.sent + {Sent(site, s.loops[site].todo[0].id, true)}
    case _ => s.sent
  }

  ghost function Apply(c: Config, s: State, step: Step): State
    requires Enabled(c, s, step)
  {
    State(
      if step.Tick? then s.now + step.d else s.now,
      StoreNext(c, s, step), ClaimsNext(c, s, step), KnownNext(c, s, step), LoopsNext(c, s, step), CallsNext(c, s, step),
      if step.StartDelete? then s.targets[(step.site, step.call) := step.providerID] else s.targets,
      SentNext(c, s, step))
  }

  ghost predicate IsRun(c: Config, run: seq<State>, steps: seq<Step>) {
    && |run| == |steps| + 1
    && Init(c, run[0])
    && forall k {:trigger steps[k]} :: 0 <= k < |steps| ==> Enabled(c, run[k], steps[k]) && run[k + 1] == Apply(c, run[k], steps[k])
  }

  // ---- Invariant ----

  /** The tags of a stored instance name its launcher and claim, or nobody. */
  ghost predicate TagsTellOwner(c: Config, r: Record) {
    forall k :: 0 <= k < |c.names| && Tags.NodeClaimName(r.instance.tags, c.names[k]).Some? ==>
      r.owner == Some(k) && Tags.NodeClaimName(r.instance.tags, c.names[k]).value == r.claim
  }

  ghost predicate Backed(s: State, r: Record) {
    r.owner.Some? ==>
      && r.created <= s.now
      && r.instance.dateCreated == Some(WholeSeconds(r.created))
      && (r.owner.value, r.claim) in s.claims
      && s.claims[(r.owner.value, r.claim)].born <= r.created
  }

  ghost predicate StoreOk(c: Config, s: State) {
    forall id :: id in s.store ==>
      id != "" && s.store[id].instance.id == id && TagsTellOwner(c, s.store[id]) && Backed(s, s.store[id])
  }

  predicate ClaimsOk(s: State) {
    forall n :: n in s.claims ==> s.claims[n].born <= s.now
  }

  predicate Owns(s: State, site: nat, id: string) {
    id in s.store && s.store[id].owner == Some(site)
  }

  ghost predicate KnownOk(s: State) {
    forall p :: p in s.known ==> exists id :: Owns(s, p.0, id) && p.1 == ProviderID(id)
  }

  predicate Gone(s: State, providerID: string) {
    var id := ParseProviderID(providerID);
    id.Some? && id.value in s.store && s.store[id.value].gone
  }

  /** A running `Delete` works on an own instance, and has released a claim only when the instance is gone. */
  ghost predicate CallOk(s: State, p: (nat, nat))
    requires p in s.calls
  {
    && p in s.targets
    && (s.calls[p].Deleting? || s.calls[p].Confirming? ==>
          Owns(s, p.0, s.calls[p].id) && ParseProviderID(s.targets[p]) == Some(s.calls[p].id))
    && (s.calls[p] == Finished(Released) ==> Gone(s, s.targets[p]))
  }

  ghost predicate Stored(s: State, todo: seq<Instance>) {
    forall i :: i in todo ==> i.id in s.store && s.store[i.id].instance == i
  }

  ghost predicate LoopOk(c: Config, s: State, site: nat)
    requires site in s.loops
  {
    var l := s.loops[site];
    && site < |c.names|
    && l != Orphan.Listing
    && (l.Aging? || l.Checking? || l.Removing? ==>
          && l.todo != [] && Orphan.Candidate(c.names[site], l.todo[0]) && Stored(s, l.todo)
          && (l.Aging? || s.now - l.todo[0].dateCreated.value >= Orphan.GRACE))
  }

  ghost predicate Inv(c: Config, s: State) {
    && ClaimsOk(s) && StoreOk(c, s) && KnownOk(s)
    && (forall p :: p in s.calls ==> CallOk(s, p))
    && (forall site :: site in s.loops ==> LoopOk(c, s, site))
    && (forall q :: q in s.sent ==> Owns(s, q.site, q.id))
  }

  /** The orphan loop removes, and has removed, only instances whose claim is dead. */
  ghost predicate OnlyDead(s: State) {
    && (forall site :: site in s.loops && s.loops[site].Removing? && s.loops[site].todo != [] ==>
          var id := s.loops[site].todo[0].id;
          id in s.store ==> Dead(s.claims, (site, s.store[id].claim), s.now))
    && (forall q :: q in s.sent && q.byOrphanLoop && q.id in s.store ==>
          Dead(s.claims, (q.site, s.store[q.id].claim), s.now))
  }
}
