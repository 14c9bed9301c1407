/** Safety over whole runs of the shared account: isolation, timed orphan safety and sound teardown. */
module AccountSafety {
  import opened Prelude
  import opened Teardown
  import opened Account
  import Orphan
  import Tags

  /** The longest lag the grace period covers: creation dates lose up to a second, and the age test is inclusive. */
  const TOLERATED_LAG: Time := 20 * MINUTE - SECOND + 1

  /** Stored instances stay as they are, but for going; and gone ones stay gone. */
  ghost predicate StoreGrows(s: map<string, Record>, t: map<string, Record>) {
    forall id :: id in s ==>
      && id in t && t[id].instance == s[id].instance && t[id].owner == s[id].owner
      && t[id].claim == s[id].claim && t[id].created == s[id].created && (s[id].gone ==> t[id].gone)
  }

  ghost predicate ClaimsGrow(s: map<(nat, string), Life>, t: map<(nat, string), Life>) {
    forall n :: n in s ==> n in t && t[n].born == s[n].born && (s[n].died.Some? ==> t[n] == s[n])
  }

  /** The invariants only ever gain ground as the store, the claims and the clock move on. */
  ghost predicate Grows(s: State, t: State) {
    s.now <= t.now && StoreGrows(s.store, t.store) && ClaimsGrow(s.claims, t.claims)
  }

  lemma StoreNextGrows(c: Config, s: State, step: Step)
    requires Enabled(c, s, step)
    ensures StoreGrows(s.store, StoreNext(c, s, step))
  {
  }

  lemma ClaimsNextGrow(c: Config, s: State, step: Step)
    requires Enabled(c, s, step)
    ensures ClaimsGrow(s.claims, ClaimsNext(c, s, step))
  {
  }

  lemma ApplyGrows(c: Config, s: State, step: Step)
    requires Enabled(c, s, step)
    ensures Grows(s, Apply(c, s, step))
  {
    StoreNextGrows(c, s, step);
    ClaimsNextGrow(c, s, step);
  }

  lemma LoopCarries(c: Config, s: State, t: State, site: nat)
    requires site in s.loops && LoopOk(c, s, site) && Grows(s, t)
    requires site in t.loops && t.loops[site] == s.loops[site]
    ensures LoopOk(c, t, site)
  {
  }

  lemma OwnsCarries(s: State, t: State, site: nat, id: string)
    requires Grows(s, t) && Owns(s, site, id)
    ensures Owns(t, site, id)
  {
  }

  /** Scanning on from stored instances leaves a loop that is in order. */
  lemma ScanOk(c: Config, t: State, site: nat, todo: seq<Instance>)
    requires site < |c.names| && site in t.loops && Stored(t, todo)
    requires t.loops[site] == Orphan.Scan(c.names[site], todo)
    ensures LoopOk(c, t, site)
  {
  }

  lemma StoreCarries(c: Config, s: State, t: State)
    requires Grows(s, t) && StoreOk(c, s)
    ensures forall id :: id in s.store ==>
              t.store[id].instance.id == id && id != "" && TagsTellOwner(c, t.store[id]) && Backed(t, t.store[id])
  {
  }

  lemma LaunchTagged(c: Config, r: Record, pool: string, nodeClass: string, foreign: seq<string>)
    requires Legal(c) && r.owner.Some? && r.owner.value < |c.names|
    requires Tags.Carries(r.instance.tags, c.names[r.owner.value], r.claim, pool, nodeClass, foreign)
    ensures TagsTellOwner(c, r)
  {
    forall k | 0 <= k < |c.names| && Tags.NodeClaimName(r.instance.tags, c.names[k]).Some?
      ensures r.owner == Some(k) && Tags.NodeClaimName(r.instance.tags, c.names[k]).value == r.claim
    {
      Tags.OwnershipRoundTrip(r.instance.tags, c.names[r.owner.value], r.claim, pool, nodeClass, foreign, c.names[k]);
    }
  }

  lemma LaunchedOk(c: Config, s: State, step: Step)
    requires Legal(c) && Enabled(c, s, step) && ClaimsOk(s) && step.Launch?
    ensures var r := StoreNext(c, s, step)[step.id];
            step.id != "" && r.instance.id == step.id && TagsTellOwner(c, r) && Backed(Apply(c, s, step), r)
  {
    LaunchTagged(c, StoreNext(c, s, step)[step.id], step.pool, step.nodeClass, step.foreign);
  }

  lemma ElsewhereOk(c: Config, s: State, step: Step)
    requires Enabled(c, s, step) && step.LaunchElsewhere?
    ensures var r := StoreNext(c, s, step)[step.instance.id];
            step.instance.id != "" && r.instance.id == step.instance.id && TagsTellOwner(c, r) && Backed(Apply(c, s, step), r)
  {
    forall k | 0 <= k < |c.names| ensures Tags.NodeClaimName(step.instance.tags, c.names[k]) == None {
      Tags.ForeignUnowned(step.instance.tags, c.names[k]);
    }
  }

  lemma StoreStep(c: Config, s: State, step: Step)
    requires Legal(c) && Enabled(c, s, step) && ClaimsOk(s) && StoreOk(c, s)
    ensures ClaimsOk(Apply(c, s, step)) && StoreOk(c, Apply(c, s, step))
  {
    var t := Apply(c, s, step);
    ApplyGrows(c, s, step);
    StoreCarries(c, s, t);
    assert t.store == StoreNext(c, s, step) && t.claims == ClaimsNext(c, s, step);
    if step.Launch? {
      LaunchedOk(c, s, step);
    } else if step.LaunchElsewhere? {
      ElsewhereOk(c, s, step);
    }
  }

  /** Where a provider ID comes from: an earlier state, a launch, or a listing of own instances. */
  lemma KnownFrom(c: Config, s: State, step: Step, p: (nat, string))
    requires Enabled(c, s, step) && p in Apply(c, s, step).known
    ensures p in s.known
         || (step.Launch? && p == (step.site, ProviderID(step.id)))
         || (step.ListOwn? && p.0 == step.site && p.1 in OwnProviderIDs(Listed(s, step.ids), c.names[step.site]))
  {
  }

  lemma KnownStep(c: Config, s: State, step: Step)
    requires Enabled(c, s, step) && StoreOk(c, s) && KnownOk(s)
    ensures KnownOk(Apply(c, s, step))
  {
    var t := Apply(c, s, step);
    ApplyGrows(c, s, step);
    forall p | p in t.known ensures exists id :: Owns(t, p.0, id) && p.1 == ProviderID(id) {
      KnownFrom(c, s, step, p);
      if p in s.known {
        var id :| Owns(s, p.0, id) && p.1 == ProviderID(id);
        OwnsCarries(s, t, p.0, id);
      } else if step.Launch? {
        assert Owns(t, step.site, step.id);
      } else {
        ListedAreOwned(c, s, t, step.site, step.ids, p.1);
      }
    }
  }

  lemma ListedAreOwned(c: Config, s: State, t: State, site: nat, ids: seq<string>, p: string)
    requires site < |c.names| && StoreOk(c, s) && Grows(s, t) && forall k :: 0 <= k < |ids| ==> ids[k] in s.store
    requires p in OwnProviderIDs(Listed(s, ids), c.names[site])
    ensures exists id :: Owns(t, site, id) && p == ProviderID(id)
  {
  }

  lemma CallCarries(s: State, t: State, p: (nat, nat))
    requires Grows(s, t) && p in s.calls && CallOk(s, p)
    requires p in t.calls && t.calls[p] == s.calls[p] && p in t.targets && t.targets[p] == s.targets[p]
    ensures CallOk(t, p)
  {
  }

  /** The call that moved: begun on a known instance, or answered truthfully. */
  lemma CallMoved(c: Config, s: State, step: Step)
    requires Enabled(c, s, step) && KnownOk(s) && (step.StartDelete? || step.SendDelete? || step.SendGet?)
    requires !step.StartDelete? ==> CallOk(s, (step.site, step.call))
    ensures (step.site, step.call) in Apply(c, s, step).calls && CallOk(Apply(c, s, step), (step.site, step.call))
  {
  }

  lemma CallsStep(c: Config, s: State, step: Step)
    requires Enabled(c, s, step) && KnownOk(s) && forall p :: p in s.calls ==> CallOk(s, p)
    ensures var t := Apply(c, s, step); forall p :: p in t.calls ==> CallOk(t, p)
  {
    var t := Apply(c, s, step);
    ApplyGrows(c, s, step);
    assert t.calls == CallsNext(c, s, step);
    forall p | p in t.calls ensures CallOk(t, p) {
      if (step.StartDelete? || step.SendDelete? || step.SendGet?) && p == (step.site, step.call) {
        CallMoved(c, s, step);
      } else {
        CallCarries(s, t, p);
      }
    }
  }

  lemma SentStep(c: Config, s: State, step: Step)
    requires Enabled(c, s, step) && Inv(c, s)
    ensures forall q :: q in Apply(c, s, step).sent ==> Owns(Apply(c, s, step), q.site, q.id)
  {
    var t := Apply(c, s, step);
    ApplyGrows(c, s, step);
    forall q | q in t.sent ensures Owns(t, q.site, q.id) {
      if q !in s.sent {
        if step.SendDelete? {
          assert CallOk(s, (step.site, step.call));
        } else {
          RemovedIsOwn(c, s, q.site);
        }
      }
      OwnsCarries(s, t, q.site, q.id);
    }
  }

  lemma RemovedIsOwn(c: Config, s: State, site: nat)
    requires StoreOk(c, s) && site in s.loops && LoopOk(c, s, site) && (s.loops[site].Removing? || s.loops[site].Checking?)
    ensures Owns(s, site, s.loops[site].todo[0].id)
    ensures Tags.NodeClaimName(s.loops[site].todo[0].tags, c.names[site]) == Some(s.store[s.loops[site].todo[0].id].claim)
  {
  }

  /** A claim missing from a read no staler than tolerated, of an instance past its grace period, is dead. */
  lemma MissingMeansDead(c: Config, s: State, site: nat, asOf: Time)
    requires c.lag <= TOLERATED_LAG && StoreOk(c, s)
    requires site in s.loops && LoopOk(c, s, site) && s.loops[site].Checking?
    requires s.now - c.lag <= asOf <= s.now
    ensures LoopReady(c, s, site)
    ensures ReadClaim(c, s, site, asOf, true) == Orphan.Missing ==>
              Dead(s.claims, (site, s.store[s.loops[site].todo[0].id].claim), s.now)
  {
  }

  ghost predicate RemovesDead(s: State, site: nat)
    requires site in s.loops
  {
    s.loops[site].Removing? && s.loops[site].todo != [] && s.loops[site].todo[0].id in s.store ==>
      Dead(s.claims, (site, s.store[s.loops[site].todo[0].id].claim), s.now)
  }

  /** A loop gets to the removal of an instance only by a read that misses its claim. */
  lemma LoopsRemoveDead(c: Config, s: State, step: Step, site: nat)
    requires c.lag <= TOLERATED_LAG && Enabled(c, s, step) && Inv(c, s) && OnlyDead(s) && site in Apply(c, s, step).loops
    ensures RemovesDead(Apply(c, s, step), site)
  {
    if step.OrphanRead? && step.site == site {
      ReadRemovesDead(c, s, step);
    } else if Apply(c, s, step).loops[site].Removing? {
      RemovalsByRead(c, s, step, site);
      RemovalStands(c, s, step, site);
    }
  }

  lemma ReadRemovesDead(c: Config, s: State, step: Step)
    requires c.lag <= TOLERATED_LAG && Enabled(c, s, step) && Inv(c, s) && step.OrphanRead?
    ensures RemovesDead(Apply(c, s, step), step.site)
  {
    assert LoopOk(c, s, step.site);
    RemovedIsOwn(c, s, step.site);
    MissingMeansDead(c, s, step.site, step.asOf);
    assert Apply(c, s, step).loops == LoopsNext(c, s, step);
  }

  lemma RemovalsByRead(c: Config, s: State, step: Step, site: nat)
    requires Enabled(c, s, step) && site in Apply(c, s, step).loops && Apply(c, s, step).loops[site].Removing?
    requires !(step.OrphanRead? && step.site == site)
    ensures site in s.loops && Apply(c, s, step).loops[site] == s.loops[site]
  {
    assert Apply(c, s, step).loops == LoopsNext(c, s, step);
  }

  /** A removal decided on earlier stands: what is dead stays dead, and tags are never rewritten. */
  lemma RemovalStands(c: Config, s: State, step: Step, site: nat)
    requires Enabled(c, s, step) && Inv(c, s) && site in s.loops && s.loops[site].Removing? && RemovesDead(s, site)
    requires site in Apply(c, s, step).loops && Apply(c, s, step).loops[site] == s.loops[site]
    ensures RemovesDead(Apply(c, s, step), site)
  {
    ApplyGrows(c, s, step);
    assert LoopOk(c, s, site);
    assert s.loops[site].todo[0] in s.loops[site].todo;
  }

  lemma SentForDead(c: Config, s: State, step: Step, q: Sent)
    requires Enabled(c, s, step) && Inv(c, s) && OnlyDead(s) && q in Apply(c, s, step).sent && q.byOrphanLoop
    ensures q.id in Apply(c, s, step).store ==>
              Dead(Apply(c, s, step).claims, (q.site, Apply(c, s, step).store[q.id].claim), Apply(c, s, step).now)
  {
    ApplyGrows(c, s, step);
    assert Apply(c, s, step).sent == SentNext(c, s, step);
    if q in s.sent {
      assert Owns(s, q.site, q.id);
    } else {
      RemovedIsOwn(c, s, q.site);
    }
  }

  lemma OnlyDeadStep(c: Config, s: State, step: Step)
    requires c.lag <= TOLERATED_LAG && Enabled(c, s, step) && Inv(c, s) && OnlyDead(s)
    ensures OnlyDead(Apply(c, s, step))
  {
    var t := Apply(c, s, step);
    forall site | site in t.loops ensures RemovesDead(t, site) { LoopsRemoveDead(c, s, step, site); }
    forall q | q in t.sent && q.byOrphanLoop && q.id in t.store
      ensures Dead(t.claims, (q.site, t.store[q.id].claim), t.now)
    {
      SentForDead(c, s, step, q);
    }
  }

  lemma LoopsStep(c: Config, s: State, step: Step)
    requires Enabled(c, s, step) && Inv(c, s)
    ensures var t := Apply(c, s, step); forall site :: site in t.loops ==> LoopOk(c, t, site)
  {
    var t := Apply(c, s, step);
    ApplyGrows(c, s, step);
    forall site | site in t.loops ensures LoopOk(c, t, site) {
      if site in s.loops && t.loops[site] == s.loops[site] {
        LoopCarries(c, s, t, site);
      } else {
        match step
        case OrphanList(_, ids) =>
          ScanOk(c, t, site, Listed(s, ids));
        case OrphanClock(_) =>
          if t.loops[site] == Orphan.Scan(c.names[site], s.loops[site].todo[1..]) {
            ScanOk(c, t, site, s.loops[site].todo[1..]);
          }
        case OrphanRead(_, asOf, readable) =>
          if t.loops[site] == Orphan.Scan(c.names[site], s.loops[site].todo[1..]) {
            ScanOk(c, t, site, s.loops[site].todo[1..]);
          }
        case OrphanDelete(_, _) =>
          if t.loops[site] == Orphan.Scan(c.names[site], s.loops[site].todo[1..]) {
            ScanOk(c, t, site, s.loops[site].todo[1..]);
          }
      }
    }
  }

  lemma {:induction false} InvAlways(c: Config, run: seq<State>, steps: seq<Step>, k: nat)
    requires Legal(c) && IsRun(c, run, steps) && k < |run|
    ensures Inv(c, run[k])
  {
    if k > 0 {
      InvAlways(c, run, steps, k - 1);
      StoreStep(c, run[k - 1], steps[k - 1]);
      KnownStep(c, run[k - 1], steps[k - 1]);
      CallsStep(c, run[k - 1], steps[k - 1]);
      SentStep(c, run[k - 1], steps[k - 1]);
      LoopsStep(c, run[k - 1], steps[k - 1]);
    }
  }

  lemma {:induction false} OnlyDeadAlways(c: Config, run: seq<State>, steps: seq<Step>, k: nat)
    requires Legal(c) && c.lag <= TOLERATED_LAG && IsRun(c, run, steps) && k < |run|
    ensures OnlyDead(run[k])
  {
    if k > 0 {
      OnlyDeadAlways(c, run, steps, k - 1);
      InvAlways(c, run, steps, k - 1);
      OnlyDeadStep(c, run[k - 1], steps[k - 1]);
    }
  }

  lemma {:induction false} RunGrows(c: Config, run: seq<State>, steps: seq<Step>, k: nat, later: nat)
    requires IsRun(c, run, steps) && k <= later < |run|
    ensures Grows(run[k], run[later])
  {
    if k < later {
      RunGrows(c, run, steps, k, later - 1);
      ApplyGrows(c, run[later - 1], steps[later - 1]);
    }
  }

  /** Every instance an installation asks Vultr to delete, through `Delete` or the orphan loop, is one it launched. */
  lemma Isolation(c: Config, run: seq<State>, steps: seq<Step>, k: nat, q: Sent)
    requires Legal(c) && IsRun(c, run, steps) && k < |run| && q in run[k].sent
    ensures q.id in run[k].store && run[k].store[q.id].owner == Some(q.site)
  {
    InvAlways(c, run, steps, k);
  }

  /** The orphan loop asks for the deletion only of instances whose claim is gone, for good. */
  lemma OrphanSafety(c: Config, run: seq<State>, steps: seq<Step>, k: nat, later: nat, q: Sent)
    requires Legal(c) && c.lag <= 20 * MINUTE - SECOND + 1 && IsRun(c, run, steps) && k <= later < |run|
    requires q in run[k].sent && q.byOrphanLoop
    ensures q.id in run[k].store && (q.site, run[k].store[q.id].claim) in run[k].claims
    ensures !ExistedAt(run[later].claims, (q.site, run[k].store[q.id].claim), run[later].now)
  {
    InvAlways(c, run, steps, k);
    OnlyDeadAlways(c, run, steps, k);
    RunGrows(c, run, steps, k, later);
  }

  /** What the orphan loop asks to delete is stored, the installation's own, and dated twenty minutes ago or earlier. */
  lemma OnlyAged(c: Config, run: seq<State>, steps: seq<Step>, k: nat)
    requires Legal(c) && IsRun(c, run, steps) && k < |steps| && steps[k].OrphanDelete?
    ensures steps[k].site in run[k].loops && run[k].loops[steps[k].site].Removing? && run[k].loops[steps[k].site].todo != []
    ensures var i := run[k].loops[steps[k].site].todo[0];
            && i.id in run[k].store && run[k].store[i.id].instance == i && run[k].store[i.id].owner == Some(steps[k].site)
            && i.dateCreated.Some? && run[k].now - i.dateCreated.value >= 20 * MINUTE
  {
    InvAlways(c, run, steps, k);
    var s, site := run[k], steps[k].site;
    assert LoopOk(c, s, site);
    RemovedIsOwn(c, s, site);
    assert s.loops[site].todo[0] in s.loops[site].todo;
  }

  /** A `Delete` that reports the claim's instance as not found is right for ever. */
  lemma TeardownSound(c: Config, run: seq<State>, steps: seq<Step>, k: nat, later: nat, call: (nat, nat))
    requires Legal(c) && IsRun(c, run, steps) && k <= later < |run|
    requires call in run[k].calls && run[k].calls[call] == Finished(Released)
    ensures call in run[k].targets && Gone(run[later], run[k].targets[call])
  {
    InvAlways(c, run, steps, k);
    assert CallOk(run[k], call);
    RunGrows(c, run, steps, k, later);
  }

  ghost predicate RemovesLive(s: State, q: Sent) {
    && q in s.sent && q.byOrphanLoop && q.id in s.store
    && ExistedAt(s.claims, (q.site, s.store[q.id].claim), s.now)
  }

  lemma Extend(c: Config, run: seq<State>, steps: seq<Step>, step: Step) returns (run': seq<State>, steps': seq<Step>)
    requires IsRun(c, run, steps) && Enabled(c, run[|run| - 1], step)
    ensures IsRun(c, run', steps') && |run'| > 0 && run'[|run'| - 1] == Apply(c, run[|run| - 1], step)
  {
    run', steps' := run + [Apply(c, run[|run| - 1], step)], steps + [step];
  }

  /** An instance created one nanosecond before a full second, once its recorded age reaches the grace period. */
  lemma AgedInstance(c: Config) returns (run: seq<State>, steps: seq<Step>, i: Instance)
    requires Legal(c) && |c.names| > 0
    ensures IsRun(c, run, steps) && i == Instance("i", Tags.InstanceTags(c.names[0], "n", "p", "c"), Some(0))
    ensures run[|run| - 1] == State(
              Orphan.GRACE, map["i" := Record(i, Some(0), "n", SECOND - 1, false)], map[(0, "n") := Life(SECOND - 1, None)],
              {(0, ProviderID("i"))}, map[], map[], map[], {})
  {
    i := Instance("i", Tags.InstanceTags(c.names[0], "n", "p", "c"), Some(0));
    assert WholeSeconds(SECOND - 1) == 0;
    run, steps := [State(SECOND - 1, map[], map[], {}, map[], map[], map[], {})], [];
    run, steps := Extend(c, run, steps, PersistClaim(0, "n"));
    run, steps := Extend(c, run, steps, Launch(0, "n", "p", "c", "i", i.tags, [], true));
    run, steps := Extend(c, run, steps, Tick(Orphan.GRACE - SECOND + 1));
  }

  /** The scan of an orphan loop up to the read of the claim. */
  lemma ScanToRead(c: Config, run: seq<State>, steps: seq<Step>, i: Instance) returns (run': seq<State>, steps': seq<Step>)
    requires Legal(c) && IsRun(c, run, steps) && |c.names| > 0
    requires var s := run[|run| - 1]; s.loops == map[] && s.store.Keys == {i.id} && s.store[i.id].instance == i
    requires Tags.NodeClaimName(i.tags, c.names[0]) == Some("n") && i.dateCreated.Some?
    requires run[|run| - 1].now - i.dateCreated.value >= Orphan.GRACE
    ensures IsRun(c, run', steps')
    ensures run'[|run'| - 1] == run[|run| - 1].(loops := map[0 := Orphan.Checking([i])])
  {
    assert Listed(run[|run| - 1], [i.id]) == [i];
    run', steps' := Extend(c, run, steps, OrphanList(0, [i.id]));
    assert run'[|run'| - 1].loops == map[0 := Orphan.Aging([i])];
    run', steps' := Extend(c, run', steps', OrphanClock(0));
    assert run'[|run'| - 1].loops == map[0 := Orphan.Checking([i])];
  }

  /** A read from before the claim was stored sends the loop on to the removal. */
  lemma StaleRead(c: Config, run: seq<State>, steps: seq<Step>, i: Instance, asOf: Time) returns (run': seq<State>, steps': seq<Step>)
    requires IsRun(c, run, steps) && |c.names| > 0 && Orphan.Candidate(c.names[0], i)
    requires Tags.NodeClaimName(i.tags, c.names[0]) == Some("n")
    requires var s := run[|run| - 1];
             s.loops == map[0 := Orphan.Checking([i])] && s.now - c.lag <= asOf <= s.now && !ExistedAt(s.claims, (0, "n"), asOf)
    ensures IsRun(c, run', steps') && run'[|run'| - 1] == run[|run| - 1].(loops := map[0 := Orphan.Removing([i])])
  {
    run', steps' := Extend(c, run, steps, OrphanRead(0, asOf, true));
    assert run'[|run'| - 1].loops == map[0 := Orphan.Removing([i])];
  }

  /**
   * One nanosecond more and the grace period no longer protects: the read can predate the claim of an instance that
   * has come of age.
   */
  lemma LagBoundIsTight(c: Config) returns (run: seq<State>, steps: seq<Step>)
    requires Legal(c) && |c.names| > 0 && Tags.Plain(c.names[0]) && c.lag > 20 * MINUTE - SECOND + 1
    ensures IsRun(c, run, steps) && RemovesLive(run[|run| - 1], Sent(0, "i", true))
  {
    var i;
    run, steps, i := AgedInstance(c);
    Tags.OwnershipRoundTrip(i.tags, c.names[0], "n", "p", "c", [], c.names[0]);
    run, steps := ScanToRead(c, run, steps, i);
    run, steps := StaleRead(c, run, steps, i, Orphan.GRACE - c.lag);
    run, steps := Extend(c, run, steps, OrphanDelete(0, None));
  }
}
