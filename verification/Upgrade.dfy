/** An upgrade of the hashing scheme drifts no claim while the spec stands, and a later edit is reported again. */
module Upgrade {
  import opened Prelude
  import opened NodeClass
  import opened NodeClassRuns
  import Migration

  /** The NodeClass watched, and the claims of the first state that already bear a hash under the new version. */
  datatype Watch = Watch(name: string, spec: Spec, exempt: set<string>)

  /** What the provider makes of the API server's answer to its lookup of a NodeClass. */
  function Found(r: Response): Result<NodeClass, ApiError>
    requires r.Object? || r.Failure?
  {
    match r
    case Object(nc) => Ok(nc)
    case Failure(e) => Err(e)
  }

  /**
   * For every lookup and claim: drift is reported exactly if the lookup found a NodeClass not being deleted, the claim has
   * both annotations, the version is the build's and the hashes differ; and an error exactly if the lookup failed with it
   * other than for want of the NodeClass.
   */
  lemma DriftExactly(b: Build, lookup: Result<NodeClass, ApiError>, c: Claim)
    ensures IsDrifted(b, lookup, c) == Ok(NodeClassDrifted) <==>
              && lookup.Ok? && !lookup.value.deleting
              && "karpenter.vultr.com/nodeclass-hash" in c.annotations
              && "karpenter.vultr.com/nodeclass-hash-version" in c.annotations
              && c.annotations["karpenter.vultr.com/nodeclass-hash-version"] == b.version
              && c.annotations["karpenter.vultr.com/nodeclass-hash"] != b.hash(lookup.value.spec)
    ensures forall e :: IsDrifted(b, lookup, c) == Err(e) <==> lookup == Err(e) && e != NotFound
  {
  }

  predicate Comparable(b: Build, a: Annotations) {
    HASH in a && VERSION in a && a[VERSION] == b.version
  }

  predicate HasHash(a: Annotations, h: string) {
    HASH in a && a[HASH] == h
  }

  /** A hash that counts is the hash of the spec. */
  predicate Good(b: Build, h: string, a: Annotations) {
    Comparable(b, a) ==> a[HASH] == h
  }

  predicate Watched(w: Watch, s: State, c: string) {
    c in s.claims && s.claims[c].nodeClass == w.name && c !in s.everDrifted && c !in w.exempt
  }

  predicate SpecStands(w: Watch, s: State) {
    w.name in s.classes ==> s.classes[w.name].spec == w.spec
  }

  /** A listed claim that already had the new hash still has it, and one listed with a Drifted condition is remembered. */
  predicate SnapshotOk(s: State, h: string, c: Claim) {
    && (c.drifted.Some? ==> c.name in s.everDrifted)
    && (HasHash(c.annotations, h) && c.name in s.claims ==> HasHash(s.claims[c.name].annotations, h))
  }

  predicate PcOk(b: Build, w: Watch, s: State, pc: Pc) {
    && ((pc.AddFinalizer? || pc.ListForMigration? || pc.Restamp?) && pc.nc.name == w.name ==> pc.nc.spec == w.spec)
    && (pc.Restamp? && pc.nc.name == w.name ==>
          forall c :: c in pc.todo ==> c.name in s.names && SnapshotOk(s, b.hash(w.spec), c))
  }

  ghost predicate LaunchesOk(b: Build, w: Watch, s: State) {
    forall c :: c in s.launches ==>
      c in s.names && (c in s.claims && s.claims[c].nodeClass == w.name ==> s.launches[c].stamp == Stamp(b, w.spec))
  }

  ghost predicate Inv(b: Build, w: Watch, s: State) {
    && Migration.Inv(b, s) && SpecStands(w, s) && LaunchesOk(b, w, s)
    && (forall p :: p in s.reconciles ==> PcOk(b, w, s, s.reconciles[p]))
    && forall c :: Watched(w, s, c) ==> Good(b, b.hash(w.spec), s.claims[c].annotations)
  }

  /** What a step may do to a claim of the NodeClass: a right hash stays, and a good claim stays good. */
  ghost predicate Keeps(b: Build, w: Watch, s: State, t: State) {
    && s.names <= t.names && s.everDrifted <= t.everDrifted
    && forall c :: c in t.claims && t.claims[c].nodeClass == w.name ==>
         if c in s.names then c in s.claims && s.claims[c].nodeClass == w.name && ClaimKept(b, w, s, t, c)
         else HASH !in t.claims[c].annotations
  }

  predicate ClaimKept(b: Build, w: Watch, s: State, t: State, c: string)
    requires c in s.claims && c in t.claims
  {
    var h, a, d := b.hash(w.spec), s.claims[c].annotations, t.claims[c].annotations;
    && (HasHash(a, h) ==> HasHash(d, h))
    && (c !in s.everDrifted && Good(b, h, a) ==> Good(b, h, d))
  }

  /** A patch of the NodeClass's own pass, on a claim whose snapshot is in order. */
  lemma PatchKeeps(b: Build, w: Watch, s: State, pc: Pc)
    requires PcOk(b, w, s, pc) && pc.Restamp? && pc.todo != [] && !Current(b, pc.todo[0].annotations) && pc.nc.name == w.name
    requires pc.todo[0].name in s.claims
    ensures var c := pc.todo[0].name;
            var h, a, d := b.hash(w.spec), s.claims[c].annotations, ClaimsAfter(s.claims, Ask(b, pc))[c].annotations;
            && (HasHash(a, h) ==> HasHash(d, h))
            && (c !in s.everDrifted ==> Good(b, h, d))
  {
  }

  lemma ServedKeeps(b: Build, w: Watch, s: State, step: Step)
    requires Enabled(b, s, step) && Inv(b, w, s) && step.Serve?
    ensures Keeps(b, w, s, Apply(b, s, step))
  {
    var t, pc := Apply(b, s, step), s.reconciles[step.p];
    assert t.claims == ClaimsNext(b, s, step);
    if step.applied {
      assert Migration.PassOk(b, s, step.p, pc) && PcOk(b, w, s, pc);
      Migration.RequestAdvances(b, s, pc);
      if pc.Restamp? {
        assert Migration.ListedOk(s, pc.nc, pc.todo[0]);
        if pc.nc.name == w.name { PatchKeeps(b, w, s, pc); }
      }
    }
  }

  /** No step but an answered request or the end of a launch changes the annotations of a claim. */
  lemma AnnotationsStay(b: Build, s: State, step: Step)
    requires Enabled(b, s, step) && WellFormed(s) && !step.Serve? && !step.EndCreate?
    ensures forall c :: c in ClaimsNext(b, s, step) ==>
              if c in s.names
              then c in s.claims && ClaimsNext(b, s, step)[c].(drifted := s.claims[c].drifted) == s.claims[c]
              else step.NewClaim? && ClaimsNext(b, s, step)[c] == step.c
  {
  }

  lemma EndCreateKeeps(b: Build, w: Watch, s: State, step: Step)
    requires Enabled(b, s, step) && WellFormed(s) && LaunchesOk(b, w, s) && step.EndCreate?
    ensures Keeps(b, w, s, Apply(b, s, step))
  {
    var t, c := Apply(b, s, step), step.claim;
    assert t.claims == ClaimsNext(b, s, step) && t.names == s.names && t.everDrifted == s.everDrifted;
    forall n | n in t.claims && t.claims[n].nodeClass == w.name ensures n in s.names && n in s.claims && ClaimKept(b, w, s, t, n) {
      if n == c {
        StampKeeps(b, w.spec, s.claims[c].annotations);
      }
    }
  }

  lemma StampKeeps(b: Build, spec: Spec, a: Annotations)
    ensures HasHash(a + Stamp(b, spec), b.hash(spec))
  {
  }

  lemma StepKeeps(b: Build, w: Watch, s: State, step: Step)
    requires Enabled(b, s, step) && Inv(b, w, s)
    ensures Keeps(b, w, s, Apply(b, s, step))
  {
    if step.Serve? {
      ServedKeeps(b, w, s, step);
    } else if step.EndCreate? {
      EndCreateKeeps(b, w, s, step);
    } else {
      AnnotationsStay(b, s, step);
      assert Apply(b, s, step).claims == ClaimsNext(b, s, step);
    }
  }

  lemma PcCarries(b: Build, w: Watch, s: State, t: State, pc: Pc)
    requires PcOk(b, w, s, pc) && Keeps(b, w, s, t)
    requires pc.Restamp? ==> forall c :: c in pc.todo ==> Migration.ListedOk(t, pc.nc, c)
    ensures PcOk(b, w, t, pc)
  {
  }

  lemma {:induction false} NextClaimFrom(b: Build, nc: NodeClass, todo: seq<Claim>, failed: bool, listed: seq<Claim>)
    ensures var d := NextClaim(b, nc, todo, failed, listed);
            && !d.AddFinalizer? && !d.ListForMigration?
            && (d.Restamp? ==> d.nc == nc && forall c :: c in d.todo ==> c in todo)
  {
    if todo == [] {
      AssessKind(b, nc);
    } else if Current(b, todo[0].annotations) {
      NextClaimFrom(b, nc, todo[1..], failed, listed);
    }
  }

  lemma AssessKind(b: Build, nc: NodeClass)
    ensures var d := StartAssess(b, nc); !d.AddFinalizer? && !d.ListForMigration? && !d.Restamp?
  {
  }

  /** How a reconcile gets to the positions of a migration: with the object it fetched, or the one its patch returned. */
  lemma ResumeSpec(b: Build, pc: Pc, r: Response)
    requires !pc.Finished? && !pc.Restamp? && !(pc.ListForMigration? && r.Claims?) && Fits(Ask(b, pc), r)
    ensures var d := Resume(b, pc, r);
            && !d.Restamp?
            && (d.AddFinalizer? || d.ListForMigration? ==>
                  || (pc.Fetch? && r.Object? && d.nc == r.nc)
                  || (pc.AddFinalizer? && r.Object? && d.nc == r.nc)
                  || (pc.AddFinalizer? && d.nc == WithFinalizer(pc.nc)))
  {
  }

  lemma ServedPcOk(b: Build, w: Watch, s: State, step: Step)
    requires Enabled(b, s, step) && step.Serve? && Inv(b, w, s)
    ensures PcOk(b, w, Apply(b, s, step), Resume(b, s.reconciles[step.p], step.r))
  {
    var t, pc, r := Apply(b, s, step), s.reconciles[step.p], step.r;
    assert PcOk(b, w, s, pc) && Migration.PassOk(b, s, step.p, pc);
    if pc.Restamp? {
      StepKeeps(b, w, s, step);
      Migration.StepAdvances(b, s, step);
      Migration.PassCarries(b, s, t, step.p, pc);
      PcCarries(b, w, s, t, pc);
      NextClaimFrom(b, pc.nc, pc.todo[1..], pc.failed || (r.Failure? && r.error != NotFound), pc.listed);
    } else if pc.ListForMigration? && r.Claims? {
      assert t.claims == s.claims && t.names == s.names && t.everDrifted == s.everDrifted;
      NextClaimFrom(b, pc.nc, r.items, false, r.items);
    } else {
      ResumeSpec(b, pc, r);
    }
  }

  lemma LaunchesStep(b: Build, w: Watch, s: State, step: Step)
    requires Enabled(b, s, step) && Inv(b, w, s)
    ensures LaunchesOk(b, w, Apply(b, s, step))
  {
    var t := Apply(b, s, step);
    StepKeeps(b, w, s, step);
    assert t.launches == LaunchesNext(b, s, step);
  }

  lemma InvStep(b: Build, w: Watch, s: State, step: Step)
    requires Enabled(b, s, step) && Inv(b, w, s)
    requires Migration.Inv(b, Apply(b, s, step)) && SpecStands(w, Apply(b, s, step))
    ensures Inv(b, w, Apply(b, s, step))
  {
    var t := Apply(b, s, step);
    StepKeeps(b, w, s, step);
    LaunchesStep(b, w, s, step);
    assert t.reconciles == ReconcilesNext(b, s, step);
    forall p | p in t.reconciles ensures PcOk(b, w, t, t.reconciles[p]) {
      if step.Serve? && p == step.p {
        ServedPcOk(b, w, s, step);
      } else if !(step.Start? && p == step.p) {
        assert Migration.PassOk(b, t, p, t.reconciles[p]);
        PcCarries(b, w, s, t, s.reconciles[p]);
      }
    }
  }

  lemma {:induction false} InvAlways(b: Build, w: Watch, run: seq<State>, steps: seq<Step>, k: nat)
    requires IsRun(b, run, steps) && k < |run| && forall j :: 0 <= j <= k ==> SpecStands(w, run[j])
    requires forall c :: Watched(w, run[0], c) ==> Good(b, b.hash(w.spec), run[0].claims[c].annotations)
    ensures Inv(b, w, run[k])
  {
    Migration.InvAlways(b, run, steps, k);
    if k > 0 {
      InvAlways(b, w, run, steps, k - 1);
      InvStep(b, w, run[k - 1], steps[k - 1]);
    }
  }

  /**
   * From any first state, through every interleaving of passes, failed and unreported patches, stopped reconciles and
   * launches: as long as the spec of the NodeClass stands, no claim of it is found drifted that has never carried a Drifted
   * condition and did not start out with a different hash under the current version. So it is for every answer the lookup
   * may get; a failure is passed on.
   */
  lemma NoMassDrift(b: Build, run: seq<State>, steps: seq<Step>, k: nat, n: string, spec: Spec, claim: string, r: Response, done: bool)
    requires IsRun(b, run, steps) && k < |run| && Answers(run[k], GetNodeClass(n), r, done)
    requires forall j :: 0 <= j <= k && n in run[j].classes ==> run[j].classes[n].spec == spec
    requires claim in run[k].claims && run[k].claims[claim].nodeClass == n && claim !in run[k].everDrifted
    requires claim in run[0].claims ==> Good(b, b.hash(spec), run[0].claims[claim].annotations)
    ensures Good(b, b.hash(spec), run[k].claims[claim].annotations)
    ensures IsDrifted(b, Found(r), run[k].claims[claim]) ==
            if r.Failure? && r.error != NotFound then Err(r.error) else Ok(NoDrift)
  {
    var exempt := set c | c in run[0].claims && !Good(b, b.hash(spec), run[0].claims[c].annotations);
    var w := Watch(n, spec, exempt);
    forall j | 0 <= j <= k ensures SpecStands(w, run[j]) {}
    InvAlways(b, w, run, steps, k);
    assert Watched(w, run[k], claim);
  }

  /**
   * An edit that changes the hash is then reported, by every lookup that succeeds, for exactly the claims that bear a hash
   * under the current version, unless the NodeClass is being deleted.
   */
  lemma EditReported(b: Build, run: seq<State>, steps: seq<Step>, k: nat, n: string, spec: Spec, claim: string, r: Response)
    requires IsRun(b, run, steps) && k < |steps|
    requires forall j :: 0 <= j <= k && n in run[j].classes ==> run[j].classes[n].spec == spec
    requires claim in run[k].claims && run[k].claims[claim].nodeClass == n && claim !in run[k].everDrifted
    requires claim in run[0].claims ==> Good(b, b.hash(spec), run[0].claims[claim].annotations)
    requires steps[k].EditSpec? && steps[k].name == n && b.hash(steps[k].spec) != b.hash(spec)
    requires Answers(run[k + 1], GetNodeClass(n), r, true) && r.Object?
    ensures claim in run[k + 1].claims
    ensures IsDrifted(b, Found(r), run[k + 1].claims[claim]) == Ok(NodeClassDrifted) <==>
              Comparable(b, run[k].claims[claim].annotations) && !run[k].classes[n].deleting
  {
    NoMassDrift(b, run, steps, k, n, spec, claim, Failure(Other("")), false);
    var s, t := run[k], run[k + 1];
    assert t.claims == ClaimsNext(b, s, steps[k]);
    assert t.classes == Store(s, ClassWrite(b, s, steps[k])).classes;
  }
}
