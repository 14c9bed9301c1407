/** What the reconciler's requests do to a stored NodeClass, how a reconcile ends, and what makes a NodeClass ready. */
module Effects {
  import opened Prelude
  import opened NodeClass
  import opened NodeClassRuns
  import Finalizer
  import Strings

  // ---- Writes ----

  /** What is left of `s` without `x`: the other elements, each once for each time it was there, in their order. */
  ghost predicate Others(r: seq<string>, s: seq<string>, x: string) {
    exists at: seq<nat> :: Places(at, r, s, x)
  }

  predicate Places(at: seq<nat>, r: seq<string>, s: seq<string>, x: string) {
    && |at| == |r|
    && (forall j, k :: 0 <= j < k < |at| ==> at[j] < at[k])
    && (forall k :: 0 <= k < |at| ==> at[k] < |s| && s[at[k]] != x && r[k] == s[at[k]])
    && (forall j :: 0 <= j < |s| && s[j] != x ==> j in at)
  }

  function Moved(at: seq<nat>): seq<nat> {
    seq(|at|, k requires 0 <= k < |at| => at[k] + 1)
  }

  lemma PlacesSkip(at: seq<nat>, r: seq<string>, s: seq<string>, x: string)
    requires s != [] && s[0] == x && Places(at, r, s[1..], x)
    ensures Places(Moved(at), r, s, x)
  {
    forall j | 0 <= j < |s| && s[j] != x ensures j in Moved(at) {
      assert s[1..][j - 1] != x;
      var k :| 0 <= k < |at| && at[k] == j - 1;
      assert Moved(at)[k] == j;
    }
  }

  function Shifted(at: seq<nat>): (t: seq<nat>)
    ensures |t| == |at| + 1 && t[0] == 0 && forall k :: 0 < k < |t| ==> t[k] == at[k - 1] + 1
  {
    seq(|at| + 1, k requires 0 <= k < |at| + 1 => if k == 0 then 0 else at[k - 1] + 1)
  }

  lemma PlacesTake(at: seq<nat>, r: seq<string>, out: seq<string>, s: seq<string>, x: string)
    requires s != [] && s[0] != x && Places(at, r, s[1..], x)
    requires |out| == |r| + 1 && out[0] == s[0] && forall k :: 0 < k < |out| ==> out[k] == r[k - 1]
    ensures Places(Shifted(at), out, s, x)
  {
    forall k | 0 <= k < |out| ensures Shifted(at)[k] < |s| && s[Shifted(at)[k]] != x && out[k] == s[Shifted(at)[k]] {
      if k > 0 { assert s[at[k - 1] + 1] == s[1..][at[k - 1]]; }
    }
    forall j | 0 <= j < |s| && s[j] != x ensures j in Shifted(at) { TakenAt(at, r, s, x, j); }
  }

  lemma TakenAt(at: seq<nat>, r: seq<string>, s: seq<string>, x: string, j: nat)
    requires s != [] && Places(at, r, s[1..], x) && j < |s| && (j > 0 ==> s[j] != x)
    ensures j in Shifted(at)
  {
    if j == 0 {
      assert Shifted(at)[0] == 0;
    } else {
      assert s[1..][j - 1] != x;
      var k :| 0 <= k < |at| && at[k] == j - 1;
      assert Shifted(at)[k + 1] == j;
    }
  }

  lemma {:induction false} WithoutPlaces(s: seq<string>, x: string) returns (at: seq<nat>)
    ensures Places(at, Without(s, x), s, x)
  {
    at := [];
    if s != [] {
      var rest := WithoutPlaces(s[1..], x);
      if s[0] == x {
        PlacesSkip(rest, Without(s[1..], x), s, x);
        at := Moved(rest);
      } else {
        PlacesTake(rest, Without(s[1..], x), Without(s, x), s, x);
        at := Shifted(rest);
      }
    }
  }

  lemma WithoutOthers(s: seq<string>)
    ensures Others(Without(s, FINALIZER), s, "karpenter.vultr.com/termination")
    ensures Without(s, FINALIZER) == [] <==> forall x :: x in s ==> x == "karpenter.vultr.com/termination"
  {
    var at := WithoutPlaces(s, FINALIZER);
    var left := Without(s, FINALIZER);
    if left != [] { assert left[0] in left; }
  }

  /** The stored NodeClass a release goes to is the one the reconcile read. */
  lemma ReleaseWrites(b: Build, s: State, step: Step)
    requires Enabled(b, s, step) && Finalizer.Inv(s) && step.Serve? && step.applied && s.reconciles[step.p].Release?
    ensures var nc := s.reconciles[step.p].nc;
            && nc.name in s.classes && s.classes[nc.name] == nc && nc.deleting
            && ClassWrite(b, s, step) ==
               Write(nc.name, nc.(finalizers := Without(nc.finalizers, FINALIZER), resourceVersion := s.next))
  {
    var nc := s.reconciles[step.p].nc;
    assert Finalizer.PcInv(s, s.reconciles[step.p]);
    assert nc.annotations + map[] == nc.annotations;
  }

  /**
   * A release that is carried out takes the provider's finalizer off and nothing else: the NodeClass is gone if that was
   * the only one, and else is stored with exactly the others, in their order.
   */
  lemma ReleaseTakesOff(b: Build, run: seq<State>, steps: seq<Step>, k: nat)
    requires IsRun(b, run, steps) && k < |steps| && steps[k].Serve? && steps[k].applied && run[k].reconciles[steps[k].p].Release?
    ensures run[k].reconciles[steps[k].p].nc.name in run[k].classes
    ensures var n := run[k].reconciles[steps[k].p].nc.name;
            var before := run[k].classes[n];
            && before.deleting
            && (n in run[k + 1].classes <==> exists x :: x in before.finalizers && x != "karpenter.vultr.com/termination")
            && (n in run[k + 1].classes ==>
                  var after := run[k + 1].classes[n];
                  && Others(after.finalizers, before.finalizers, "karpenter.vultr.com/termination")
                  && after.(finalizers := before.finalizers, resourceVersion := before.resourceVersion) == before)
  {
    var s, step := run[k], steps[k];
    Finalizer.InvAlways(b, run, steps, k);
    ReleaseWrites(b, s, step);
    WithoutOthers(s.reconciles[step.p].nc.finalizers);
    assert run[k + 1].classes == Store(s, ClassWrite(b, s, step)).classes;
  }

  /** Adding the finalizer keeps the others and everything else. */
  lemma GuardPutsOn(b: Build, run: seq<State>, steps: seq<Step>, k: nat)
    requires IsRun(b, run, steps) && k < |steps| && steps[k].Serve? && steps[k].applied && run[k].reconciles[steps[k].p].AddFinalizer?
    ensures var n := run[k].reconciles[steps[k].p].nc.name;
            && n in run[k].classes && n in run[k + 1].classes
            && var before, after := run[k].classes[n], run[k + 1].classes[n];
               && !before.deleting && after.finalizers == before.finalizers + ["karpenter.vultr.com/termination"]
               && after.(finalizers := before.finalizers, resourceVersion := before.resourceVersion) == before
  {
    var s, step := run[k], steps[k];
    var nc := s.reconciles[step.p].nc;
    Finalizer.InvAlways(b, run, steps, k);
    assert Finalizer.PcInv(s, s.reconciles[step.p]);
    assert nc.annotations + map[] == nc.annotations;
    assert run[k + 1].classes == Store(s, ClassWrite(b, s, step)).classes;
  }

  /** The annotation is the new value unless the reconcile had read that already, and then it is as stored. */
  predicate Recorded(key: string, value: string, read: Annotations, before: Annotations, after: Annotations) {
    if key in read && read[key] == value then (key in after <==> key in before) && (key in before ==> after[key] == before[key])
    else key in after && after[key] == value
  }

  /** Recording sets the hash of the spec read and the build's version, and nothing else. */
  lemma RecordsHash(b: Build, run: seq<State>, steps: seq<Step>, k: nat)
    requires IsRun(b, run, steps) && k < |steps| && steps[k].Serve? && steps[k].applied && run[k].reconciles[steps[k].p].RecordHash?
    requires run[k].reconciles[steps[k].p].nc.name in run[k + 1].classes
    ensures var nc := run[k].reconciles[steps[k].p].nc;
            && nc.name in run[k].classes
            && var before, after := run[k].classes[nc.name], run[k + 1].classes[nc.name];
               && after.(annotations := before.annotations, resourceVersion := before.resourceVersion) == before
               && Recorded("karpenter.vultr.com/nodeclass-hash", b.hash(nc.spec), nc.annotations, before.annotations, after.annotations)
               && Recorded("karpenter.vultr.com/nodeclass-hash-version", b.version, nc.annotations, before.annotations, after.annotations)
               && forall key :: key !in ["karpenter.vultr.com/nodeclass-hash", "karpenter.vultr.com/nodeclass-hash-version"] ==>
                    (key in after.annotations <==> key in before.annotations)
                    && (key in before.annotations ==> after.annotations[key] == before.annotations[key])
  {
    var s, step := run[k], steps[k];
    assert run[k + 1].classes == Store(s, ClassWrite(b, s, step)).classes;
  }

  /**
   * The finalizer and the status are written only if the NodeClass is still as it was read; the hash is recorded and a claim
   * re-stamped whatever has become of them since, as long as they are there.
   */
  lemma InsistsExactly(b: Build, s: State, pc: Pc)
    requires pc.Release? || pc.AddFinalizer? || pc.WriteStatus? || pc.RecordHash? || (pc.Restamp? && pc.todo != [])
    ensures Applicable(s, Ask(b, pc)) <==>
              if pc.Restamp? then pc.todo[0].name in s.claims
              else pc.nc.name in s.classes && (pc.RecordHash? || s.classes[pc.nc.name].resourceVersion == pc.nc.resourceVersion)
  {
  }

  /** Claims and NodeClasses are compared with the build by one annotation; a missing version counts as an empty one. */
  lemma CurrentExactly(b: Build, a: Annotations)
    ensures Current(b, a) <==>
              if "karpenter.vultr.com/nodeclass-hash-version" in a then a["karpenter.vultr.com/nodeclass-hash-version"] == b.version
              else b.version == ""
  {
  }

  // ---- Endings ----

  /**
   * A NodeClass that is gone by the time of a patch is treated like one that was patched; any other failure of the patch
   * fails the reconcile, and so does a failure to list the claims for a migration.
   */
  lemma PatchFails(b: Build, nc: NodeClass, listed: seq<Claim>, e: ApiError)
    ensures Resume(b, ListForMigration(nc), Failure(e)) == Finished(Error)
    ensures Resume(b, AddFinalizer(nc), Failure(e)) ==
            if e == NotFound
            then Resume(b, AddFinalizer(nc), Object(nc.(finalizers := nc.finalizers + ["karpenter.vultr.com/termination"])))
            else Finished(Error)
    ensures var hash, version := "karpenter.vultr.com/nodeclass-hash", "karpenter.vultr.com/nodeclass-hash-version";
            Resume(b, RecordHash(nc, listed), Failure(e)) ==
            if e == NotFound
            then Resume(b, RecordHash(nc, listed), Object(nc.(annotations := nc.annotations[hash := b.hash(nc.spec)][version := b.version])))
            else Finished(Error)
  {
  }

  /** A failed lookup makes the NodeClass not ready, and why is passed on. */
  lemma LookupFails(b: Build, before: NodeClass, nc: NodeClass, available: set<string>, cause: string)
    requires nc.spec.osID.Some?
    ensures Resume(b, LookupOS(before, nc), Failure(Other(cause))) ==
            Conclude(before, nc, Some(OSLookupFailed(nc.spec.osID.value, cause)), true)
    ensures Resume(b, LookupRegion(before, nc), Failure(Other(cause))) ==
            Conclude(before, nc, Some(VultrAPIUnavailable(nc.spec.region, cause)), true)
    ensures Resume(b, LookupPlans(before, nc, available), Failure(Other(cause))) ==
            Conclude(before, nc, Some(PlanLookupFailed(nc.spec.plan, cause)), true)
  {
  }

  // ---- A pass ----

  /** What the API server answers to the patch of each claim. */
  type Patches = Claim -> Option<ApiError>

  function Answer(w: Patches, c: Claim): Response {
    match w(c)
    case None => Done
    case Some(e) => Failure(e)
  }

  lemma {:induction false} NextClaimShrinks(b: Build, nc: NodeClass, todo: seq<Claim>, failed: bool, listed: seq<Claim>)
    ensures var d := NextClaim(b, nc, todo, failed, listed);
            d.Restamp? ==> d.todo != [] && |d.todo| <= |todo| && d.nc == nc && d.failed == failed && d.listed == listed
  {
    if todo != [] && Current(b, todo[0].annotations) {
      NextClaimShrinks(b, nc, todo[1..], failed, listed);
    }
  }

  /** Where a pass ends, and the claims whose patches it sends. */
  ghost function Pass(b: Build, w: Patches, pc: Pc): (Pc, seq<Claim>)
    requires pc.Restamp? ==> pc.todo != []
    decreases if pc.Restamp? then |pc.todo| else 0
  {
    if !pc.Restamp? then (pc, [])
    else
      var r := Answer(w, pc.todo[0]);
      NextClaimShrinks(b, pc.nc, pc.todo[1..], pc.failed || (r.Failure? && r.error != NotFound), pc.listed);
      var (end, sent) := Pass(b, w, Resume(b, pc, r));
      (end, [pc.todo[0]] + sent)
  }

  predicate OffVersion(b: Build, c: Claim) {
    if "karpenter.vultr.com/nodeclass-hash-version" in c.annotations
    then c.annotations["karpenter.vultr.com/nodeclass-hash-version"] != b.version
    else b.version != ""
  }

  function OffVersions(b: Build, items: seq<Claim>): seq<Claim> {
    if items == [] then [] else (if OffVersion(b, items[0]) then [items[0]] else []) + OffVersions(b, items[1..])
  }

  /** A patch failed other than for want of its claim. */
  predicate Breaks(b: Build, w: Patches, items: seq<Claim>) {
    exists k :: 0 <= k < |items| && OffVersion(b, items[k]) && w(items[k]) !in {None, Some(NotFound)}
  }

  /**
   * A pass sends a patch for each claim listed off the current version, in order, failures or not, and then fails if any
   * failed other than for want of its claim; or else goes on to record the hash.
   */
  lemma PassExactly(b: Build, w: Patches, nc: NodeClass, items: seq<Claim>)
    ensures var pc := Resume(b, ListForMigration(nc), Claims(items));
            && (pc.Restamp? ==> pc.todo != [])
            && var (end, sent) := Pass(b, w, pc);
               && sent == OffVersions(b, items)
               && end == if Breaks(b, w, items) then Finished(Error) else StartRecord(b, nc, items)
  {
    NextClaimShrinks(b, nc, items, false, items);
    PassFrom(b, w, nc, items, false, items);
  }

  lemma {:induction false} PassFrom(b: Build, w: Patches, nc: NodeClass, todo: seq<Claim>, failed: bool, listed: seq<Claim>)
    ensures var pc := NextClaim(b, nc, todo, failed, listed);
            && (pc.Restamp? ==> pc.todo != [])
            && var (end, sent) := Pass(b, w, pc);
               && sent == OffVersions(b, todo)
               && end == if failed || Breaks(b, w, todo) then Finished(Error) else StartRecord(b, nc, listed)
  {
    NextClaimShrinks(b, nc, todo, failed, listed);
    if todo != [] {
      CurrentExactly(b, todo[0].annotations);
      BreaksFirst(b, w, todo);
      var r := Answer(w, todo[0]);
      PassFrom(b, w, nc, todo[1..], failed || (OffVersion(b, todo[0]) && w(todo[0]) !in {None, Some(NotFound)}), listed);
    }
  }

  lemma BreaksFirst(b: Build, w: Patches, items: seq<Claim>)
    requires items != []
    ensures Breaks(b, w, items) <==> (OffVersion(b, items[0]) && w(items[0]) !in {None, Some(NotFound)}) || Breaks(b, w, items[1..])
  {
    if k :| 0 <= k < |items[1..]| && OffVersion(b, items[1..][k]) && w(items[1..][k]) !in {None, Some(NotFound)} {
      assert items[k + 1] == items[1..][k];
    }
    if k :| 0 < k < |items| && OffVersion(b, items[k]) && w(items[k]) !in {None, Some(NotFound)} {
      assert items[1..][k - 1] == items[k];
    }
  }

  /** A NodeClass that is gone needs nothing; any other failure to fetch it fails the reconcile. */
  lemma FetchFails(b: Build, name: string, e: ApiError)
    ensures Resume(b, Fetch(name), Failure(e)) == Finished(if e == NotFound then NoRequeue else Error)
  {
  }

  /**
   * The reconcile of a NodeClass being deleted, from the answers: without the finalizer it ends at once; else it asks for
   * the claims, waits fifteen seconds if there are any, and releases the NodeClass if there are none; a conflict is tried
   * again after a second.
   */
  lemma DeletionExactly(b: Build, nc: NodeClass, list: Response, release: Response)
    requires nc.deleting && Fits(ListClaims(nc.name), list)
    requires release.Object? || release.Failure?
    ensures var start := Resume(b, Fetch(nc.name), Object(nc));
            if "karpenter.vultr.com/termination" !in nc.finalizers then start == Finished(NoRequeue)
            else
              && !start.Finished? && !start.Restamp? && Ask(b, start) == ListClaims(nc.name)
              && var next := Resume(b, start, list);
                 if list.Failure? then next == Finished(Error)
                 else if list.items != [] then next == Finished(Requeue(15 * SECOND))
                 else
                   && !next.Finished? && !next.Restamp? && Ask(b, next).PatchNodeClass?
                   && Resume(b, next, release) ==
                      Finished(if release.Object? || release.error == NotFound then NoRequeue
                               else if release.error == Conflict then Requeue(1 * SECOND) else Error)
  {
  }

  /** An assessment is due again in five minutes, or in thirty seconds if a lookup failed; a failed update fails it. */
  lemma TimesExactly(b: Build, pc: Pc, r: Response)
    requires (pc.LookupOS? || pc.LookupRegion? || pc.LookupPlans? || pc.WriteStatus?) && Fits(Ask(b, pc), r)
    ensures var d := Resume(b, pc, r);
            if pc.WriteStatus? then
              d == Finished(if r.Failure? then Error else Requeue(if pc.requeue then 30 * SECOND else 5 * MINUTE))
            else
              && (d.Finished? ==> d.outcome == Requeue(if r.Failure? then 30 * SECOND else 5 * MINUTE))
              && (d.WriteStatus? ==> d.requeue == r.Failure?)
  {
  }

  // ---- Readiness ----

  predicate Hashes(h: string) {
    && |h| == 71 && h[..7] == "sha256:"
    && forall k :: 7 <= k < 71 ==> '0' <= h[k] <= '9' || 'a' <= h[k] <= 'f' || 'A' <= h[k] <= 'F'
  }

  /** The checks of the spec, in their order; a spec that fails one needs no lookup, and is looked at again in five minutes. */
  lemma SpecExactly(b: Build, nc: NodeClass)
    ensures var s := nc.spec;
            SpecProblem(b, s) ==
            if Strings.TrimSpace(s.region) == "" then Some(InvalidRegion)
            else if s.osID == None && s.snapshotID == "" then Some(ImageNotConfigured)
            else if s.osID != None && s.snapshotID != "" then Some(MultipleImagesConfigured)
            else if s.kubernetesVersion == "" then Some(KubernetesVersionMissing)
            else if s.clusterEndpoint == "" then Some(ClusterEndpointMissing)
            else if !b.validEndpoint(s.clusterEndpoint) then Some(InvalidClusterEndpoint)
            else if !(s.caCertHash == "" || Hashes(s.caCertHash)) then Some(InvalidCACertHash)
            else None
    ensures SpecProblem(b, nc.spec).Some? ==>
              StartAssess(b, nc) == Finished(Requeue(5 * MINUTE)) || (StartAssess(b, nc).WriteStatus? && !StartAssess(b, nc).requeue)
  {
    var h := nc.spec.caCertHash;
    assert |h| >= 7 ==> ("sha256:" <= h <==> h[..7] == "sha256:");
  }

  /** Equal but for capitals, where the second is in small letters. */
  predicate SameLetters(a: string, small: string) {
    |a| == |small| && forall k :: 0 <= k < |a| ==> a[k] == small[k] || ('A' <= a[k] <= 'Z' && a[k] as int + 32 == small[k] as int)
  }

  lemma SmallExactly(a: string, small: string)
    requires forall k :: 0 <= k < |small| ==> !('A' <= small[k] <= 'Z')
    ensures Lower(a) == small <==> SameLetters(a, small)
  {
    if Lower(a) == small {
      forall k | 0 <= k < |a| ensures a[k] == small[k] || ('A' <= a[k] <= 'Z' && a[k] as int + 32 == small[k] as int) {
        assert Lower(a)[k] == small[k];
      }
    }
    if SameLetters(a, small) {
      assert forall k :: 0 <= k < |a| ==> Lower(a)[k] == small[k];
    }
  }

  /** The 64-bit x86 architecture under any of its four names, in small or capital letters. */
  lemma AMD64Exactly(arch: string)
    ensures IsAMD64(arch) <==>
              SameLetters(arch, "x64") || SameLetters(arch, "amd64") || SameLetters(arch, "x86_64") || SameLetters(arch, "x86-64")
  {
    SmallExactly(arch, "x64");
    SmallExactly(arch, "amd64");
    SmallExactly(arch, "x86_64");
    SmallExactly(arch, "x86-64");
  }

  predicate FirstImage(images: seq<OSImage>, id: int, k: int) {
    0 <= k < |images| && images[k].id == id && forall j :: 0 <= j < k ==> images[j].id != id
  }

  /** The first image with the ID must be for that architecture, and there must be one. */
  lemma {:induction false} ImageExactly(id: int, images: seq<OSImage>)
    ensures forall k :: FirstImage(images, id, k) ==>
              ImageProblem(id, images) == if IsAMD64(images[k].arch) then None else Some(UnsupportedOSArchitecture(id, images[k].arch))
    ensures (forall k :: !FirstImage(images, id, k)) ==> ImageProblem(id, images) == Some(InvalidOS(id))
  {
    if images != [] && images[0].id != id {
      ImageExactly(id, images[1..]);
      forall k | FirstImage(images, id, k) ensures FirstImage(images[1..], id, k - 1) {}
      forall k | FirstImage(images[1..], id, k) ensures FirstImage(images, id, k + 1) {}
      if exists k :: FirstImage(images[1..], id, k) {
        var k :| FirstImage(images[1..], id, k);
        assert FirstImage(images, id, k + 1);
      }
    } else if images != [] {
      assert FirstImage(images, id, 0);
    }
  }

  predicate FirstOfKind(cs: seq<Condition>, kind: string, k: int) {
    0 <= k < |cs| && cs[k].kind == kind && forall j :: 0 <= j < k ==> cs[j].kind != kind
  }

  /** Setting a condition replaces the first of its kind, or adds it at the end. */
  lemma {:induction false} SetConditionExactly(cs: seq<Condition>, c: Condition)
    ensures forall k :: FirstOfKind(cs, c.kind, k) ==> SetCondition(cs, c) == cs[k := c]
    ensures (forall k :: !FirstOfKind(cs, c.kind, k)) ==> SetCondition(cs, c) == cs + [c]
  {
    if cs != [] && cs[0].kind != c.kind {
      SetConditionExactly(cs[1..], c);
      forall k | FirstOfKind(cs, c.kind, k) ensures SetCondition(cs, c) == cs[k := c] {
        assert FirstOfKind(cs[1..], c.kind, k - 1);
        assert [cs[0]] + cs[1..][k - 1 := c] == cs[k := c];
      }
      if exists k :: FirstOfKind(cs[1..], c.kind, k) {
        var k :| FirstOfKind(cs[1..], c.kind, k);
        assert FirstOfKind(cs, c.kind, k + 1);
      } else {
        assert [cs[0]] + (cs[1..] + [c]) == cs + [c];
      }
    } else if cs != [] {
      assert FirstOfKind(cs, c.kind, 0);
    }
  }
}
