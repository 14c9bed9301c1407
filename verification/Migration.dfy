/** The hash migration: a pass touches what it should, and the version is recorded only when the pass is complete. */
module Migration {
  import opened Prelude
  import opened NodeClass
  import opened NodeClassRuns

  // ---- One claim ----

  /** What the patch does to the stored claim, as it has become since it was listed. */
  lemma PatchedClaim(b: Build, nc: NodeClass, listed: Claim, stored: Annotations)
    requires !Current(b, listed.annotations)
    ensures var a := stored + Changes(listed.annotations, Restamped(b, nc, listed).annotations);
            && Current(b, a) && VERSION in a
            && (forall key :: key != HASH && key != VERSION ==> (key in a <==> key in stored) && (key in a ==> a[key] == stored[key]))
            && (listed.drifted.Some? ==> (HASH in a <==> HASH in stored) && (HASH in a ==> a[HASH] == stored[HASH]))
            && (listed.drifted == None && !(HASH in listed.annotations && listed.annotations[HASH] == b.hash(nc.spec)) ==>
                  HASH in a && a[HASH] == b.hash(nc.spec))
            && (listed.drifted == None && HASH in listed.annotations && listed.annotations[HASH] == b.hash(nc.spec) ==>
                  (HASH in a <==> HASH in stored) && (HASH in a ==> a[HASH] == stored[HASH]))
  {
  }

  // ---- One pass ----

  lemma {:induction false} FailedStaysFailed(b: Build, nc: NodeClass, todo: seq<Claim>, listed: seq<Claim>)
    ensures var pc := NextClaim(b, nc, todo, true, listed); pc == Finished(Error) || (pc.Restamp? && pc.failed)
  {
    if todo != [] && Current(b, todo[0].annotations) {
      FailedStaysFailed(b, nc, todo[1..], listed);
    }
  }

  // ---- Completeness over runs ----

  /** The claim is gone or at the current version. */
  predicate Settled(b: Build, s: State, name: string) {
    name in s.claims ==> Current(b, s.claims[name].annotations)
  }

  /** Every claim of the NodeClass that existed when the pass listed is among the listed. */
  ghost predicate Covers(s: State, p: nat, nodeClass: string, listed: seq<Claim>) {
    && p in s.listedAt && s.listedAt[p] <= s.names
    && forall n :: n in s.claims && n in s.listedAt[p] && s.claims[n].nodeClass == nodeClass ==> exists c :: c in listed && c.name == n
  }

  /** A listed claim belongs to the NodeClass of the pass, and so does what is stored under its name. */
  predicate ListedOk(s: State, nc: NodeClass, c: Claim) {
    c.name in s.names && c.nodeClass == nc.name && (c.name in s.claims ==> s.claims[c.name].nodeClass == nc.name)
  }

  ghost predicate RestampOk(b: Build, s: State, nc: NodeClass, todo: seq<Claim>, failed: bool, listed: seq<Claim>) {
    && (forall c :: c in todo ==> c in listed)
    && (forall c :: c in todo && Current(b, c.annotations) ==> Settled(b, s, c.name))
    && forall c :: c in listed ==> ListedOk(s, nc, c) && (c in todo || failed || Settled(b, s, c.name))
  }

  ghost predicate PassOk(b: Build, s: State, p: nat, pc: Pc) {
    && PcOk(b, pc)
    && (pc.Restamp? ==> Covers(s, p, pc.nc.name, pc.listed) && RestampOk(b, s, pc.nc, pc.todo, pc.failed, pc.listed))
    && (pc.RecordHash? && !Current(b, pc.nc.annotations) ==>
          Covers(s, p, pc.nc.name, pc.listed) && RestampOk(b, s, pc.nc, [], false, pc.listed))
  }

  /** A claim keeps its NodeClass, and once at the current version stays there. */
  ghost predicate ClaimAdvances(b: Build, s: State, n: string, c: Claim) {
    n in s.claims && s.claims[n].nodeClass == c.nodeClass && (Current(b, s.claims[n].annotations) ==> Current(b, c.annotations))
  }

  ghost predicate Advances(b: Build, s: State, t: State) {
    s.names <= t.names && forall n :: n in t.claims && n in s.names ==> ClaimAdvances(b, s, n, t.claims[n])
  }

  /** Annotations under way to a claim carry no version but the current one. */
  ghost predicate StampsOk(b: Build, s: State) {
    forall c :: c in s.launches ==> Current(b, s.launches[c].stamp) && VERSION in s.launches[c].stamp
  }

  ghost predicate Inv(b: Build, s: State) {
    && WellFormed(s) && StampsOk(b, s)
    && forall p :: p in s.reconciles ==> PassOk(b, s, p, s.reconciles[p])
  }

  lemma StampsStep(b: Build, s: State, step: Step)
    requires Enabled(b, s, step) && StampsOk(b, s)
    ensures StampsOk(b, Apply(b, s, step))
  {
  }

  /** A patch of a pass leaves its claim at the current version; no other request changes a claim. */
  lemma RequestAdvances(b: Build, s: State, pc: Pc)
    requires !pc.Finished? && PcOk(b, pc) && (pc.Restamp? ==> pc.todo[0].name in s.claims)
    ensures var after := ClaimsAfter(s.claims, Ask(b, pc));
            && after.Keys == s.claims.Keys
            && (forall n :: n in s.claims && !(pc.Restamp? && n == pc.todo[0].name) ==> after[n] == s.claims[n])
            && (pc.Restamp? ==>
                  var c := s.claims[pc.todo[0].name]; var d := after[pc.todo[0].name];
                  d.(annotations := c.annotations) == c && Current(b, d.annotations))
  {
    if pc.Restamp? {
      PatchedClaim(b, pc.nc, pc.todo[0], s.claims[pc.todo[0].name].annotations);
    }
  }

  lemma StepAdvances(b: Build, s: State, step: Step)
    requires Enabled(b, s, step) && Inv(b, s)
    ensures Advances(b, s, Apply(b, s, step))
  {
    var t := Apply(b, s, step);
    assert t.claims == ClaimsNext(b, s, step);
    if step.Serve? && step.applied {
      assert PassOk(b, s, step.p, s.reconciles[step.p]);
      RequestAdvances(b, s, s.reconciles[step.p]);
    }
  }

  /** A reconcile that did not move keeps its pass in order. */
  lemma PassCarries(b: Build, s: State, t: State, p: nat, pc: Pc)
    requires PassOk(b, s, p, pc) && Advances(b, s, t)
    requires p in s.listedAt ==> p in t.listedAt && t.listedAt[p] == s.listedAt[p]
    ensures PassOk(b, t, p, pc)
  {
  }

  /** Going on in a pass, with every listed claim still to do, failed or settled. */
  lemma {:induction false} NextClaimPass(b: Build, s: State, p: nat, nc: NodeClass, todo: seq<Claim>, failed: bool, listed: seq<Claim>)
    requires Covers(s, p, nc.name, listed) && RestampOk(b, s, nc, todo, failed, listed)
    ensures PassOk(b, s, p, NextClaim(b, nc, todo, failed, listed))
  {
    if todo == [] {
      if !failed { AssessKind(b, nc); }
    } else if Current(b, todo[0].annotations) {
      assert todo[0] in todo;
      NextClaimPass(b, s, p, nc, todo[1..], failed, listed);
    }
  }

  lemma AssessKind(b: Build, nc: NodeClass)
    ensures var d := StartAssess(b, nc); !d.Restamp? && !d.RecordHash?
  {
  }

  /** Only a listing starts a pass, and without one nothing but a hash under the current version is recorded. */
  lemma PassKind(b: Build, pc: Pc, r: Response)
    requires !pc.Finished? && !pc.ListForMigration? && !pc.Restamp? && Fits(Ask(b, pc), r)
    ensures var d := Resume(b, pc, r); !d.Restamp? && (d.RecordHash? ==> Current(b, d.nc.annotations))
  {
  }

  lemma ServedListing(b: Build, s: State, step: Step)
    requires Enabled(b, s, step) && Inv(b, s) && step.Serve? && s.reconciles[step.p].ListForMigration? && step.r.Claims?
    ensures PassOk(b, Apply(b, s, step), step.p, Resume(b, s.reconciles[step.p], step.r))
  {
    var t, nc, items := Apply(b, s, step), s.reconciles[step.p].nc, step.r.items;
    assert t.claims == s.claims && t.names == s.names && t.listedAt == s.listedAt[step.p := s.names];
    assert ListsClaims(s, nc.name, items);
    forall n | n in t.claims && t.claims[n].nodeClass == nc.name ensures exists c :: c in items && c.name == n {
      assert t.claims[n] in items && t.claims[n].name == n;
    }
    NextClaimPass(b, t, step.p, nc, items, false, items);
  }

  lemma ServedRestamp(b: Build, s: State, step: Step)
    requires Enabled(b, s, step) && Inv(b, s) && step.Serve? && s.reconciles[step.p].Restamp?
    ensures PassOk(b, Apply(b, s, step), step.p, Resume(b, s.reconciles[step.p], step.r))
  {
    var t, pc := Apply(b, s, step), s.reconciles[step.p];
    assert PassOk(b, s, step.p, pc);
    StepAdvances(b, s, step);
    PassCarries(b, s, t, step.p, pc);
    var failed := pc.failed || (step.r.Failure? && step.r.error != NotFound);
    if !failed {
      assert t.claims == ClaimsNext(b, s, step);
      if step.applied { RequestAdvances(b, s, pc); }
      assert Settled(b, t, pc.todo[0].name);
    }
    NextClaimPass(b, t, step.p, pc.nc, pc.todo[1..], failed, pc.listed);
  }

  lemma ServedPassOk(b: Build, s: State, step: Step)
    requires Enabled(b, s, step) && Inv(b, s) && step.Serve?
    ensures PassOk(b, Apply(b, s, step), step.p, Apply(b, s, step).reconciles[step.p])
  {
    var pc := s.reconciles[step.p];
    assert Apply(b, s, step).reconciles == ReconcilesNext(b, s, step);
    if pc.Restamp? {
      ServedRestamp(b, s, step);
    } else if !pc.ListForMigration? {
      PassKind(b, pc, step.r);
    } else if step.r.Claims? {
      ServedListing(b, s, step);
    }
  }

  lemma InvStep(b: Build, s: State, step: Step)
    requires Enabled(b, s, step) && Inv(b, s) && WellFormed(Apply(b, s, step))
    ensures Inv(b, Apply(b, s, step))
  {
    var t := Apply(b, s, step);
    StampsStep(b, s, step);
    StepAdvances(b, s, step);
    assert t.reconciles == ReconcilesNext(b, s, step);
    forall p | p in t.reconciles ensures PassOk(b, t, p, t.reconciles[p]) {
      if step.Serve? && p == step.p {
        ServedPassOk(b, s, step);
      } else if !(step.Start? && p == step.p) {
        assert PassOk(b, s, p, s.reconciles[p]);
        PassCarries(b, s, t, p, s.reconciles[p]);
      }
    }
  }

  lemma {:induction false} InvAlways(b: Build, run: seq<State>, steps: seq<Step>, k: nat)
    requires IsRun(b, run, steps) && k < |run|
    ensures Inv(b, run[k])
  {
    if k > 0 {
      InvAlways(b, run, steps, k - 1);
      WellFormedAlways(b, run, steps, k);
      InvStep(b, run[k - 1], steps[k - 1]);
    }
  }

  /** The version of a stored NodeClass becomes current only when it is recorded at the end of a pass. */
  lemma VersionWrites(b: Build, s: State, step: Step, n: string)
    requires Enabled(b, s, step) && ClassesOk(s) && n in s.classes && n in Apply(b, s, step).classes
    requires b.version != "" && !Current(b, s.classes[n].annotations) && Current(b, Apply(b, s, step).classes[n].annotations)
    ensures step.Serve? && step.applied
            && var pc := s.reconciles[step.p]; pc.RecordHash? && pc.nc.name == n && !Current(b, pc.nc.annotations)
  {
    assert Apply(b, s, step).classes == Store(s, ClassWrite(b, s, step)).classes;
    if step.Serve? && step.applied && s.reconciles[step.p].RecordHash? {
      VersionRecorded(b, s.reconciles[step.p].nc);
    }
  }

  lemma VersionRecorded(b: Build, nc: NodeClass)
    ensures var d := Changes(nc.annotations, WithHash(b, nc).annotations);
            VERSION in d ==> !Current(b, nc.annotations) || b.version == ""
  {
  }

  lemma {:induction false} SettledForEver(b: Build, run: seq<State>, steps: seq<Step>, k: nat, later: nat, c: string)
    requires IsRun(b, run, steps) && k <= later < |run| && c in run[k].names && Settled(b, run[k], c)
    ensures c in run[later].names && Settled(b, run[later], c)
  {
    if k < later {
      SettledForEver(b, run, steps, k, later - 1, c);
      InvAlways(b, run, steps, later - 1);
      StepAdvances(b, run[later - 1], steps[later - 1]);
    }
  }

  /**
   * When the current version is written to a NodeClass, by a reconcile `p`, then every claim of that NodeClass that
   * existed when `p` listed, and still exists, is at the current version, now and in every later state.
   */
  lemma MigrationComplete(b: Build, run: seq<State>, steps: seq<Step>, k: nat, later: nat, n: string, claim: string)
    requires IsRun(b, run, steps) && k < later < |run| && n in run[k].classes && n in run[k + 1].classes
    requires b.version != "" && !Current(b, run[k].classes[n].annotations) && Current(b, run[k + 1].classes[n].annotations)
    ensures steps[k].Serve? && steps[k].p in run[k].listedAt
    ensures claim in run[k].listedAt[steps[k].p] && claim in run[k].claims && run[k].claims[claim].nodeClass == n ==>
              Settled(b, run[k], claim) && Settled(b, run[later], claim)
  {
    var s, p := run[k], steps[k].p;
    InvAlways(b, run, steps, k);
    VersionWrites(b, s, steps[k], n);
    assert PassOk(b, s, p, s.reconciles[p]);
    if claim in s.listedAt[p] && claim in s.claims && s.claims[claim].nodeClass == n {
      var c :| c in s.reconciles[p].listed && c.name == claim;
      assert Settled(b, s, c.name);
      SettledForEver(b, run, steps, k, later, claim);
    }
  }

  // ---- One pass over a run ----

  /** From state `i` to state `k` reconcile `p` is not started anew. */
  predicate Unrestarted(steps: seq<Step>, i: nat, k: nat, p: nat)
    requires k <= |steps|
  {
    forall j :: i <= j < k ==> !(steps[j].Start? && steps[j].p == p)
  }

  /** Positions after a pass, from which none leads back into one. */
  predicate Past(pc: Pc) {
    pc.RecordHash? || pc.LookupOS? || pc.LookupRegion? || pc.LookupPlans? || pc.WriteStatus? || pc.Finished?
  }

  lemma AssessPast(b: Build, nc: NodeClass)
    ensures Past(StartAssess(b, nc))
  {
  }

  lemma {:induction false} NextClaimWithin(b: Build, nc: NodeClass, todo: seq<Claim>, failed: bool, listed: seq<Claim>)
    ensures var d := NextClaim(b, nc, todo, failed, listed);
            Past(d) || (d.Restamp? && d.nc == nc && d.listed == listed && (failed ==> d.failed) && forall c :: c in d.todo ==> c in todo)
  {
    if todo == [] {
      AssessPast(b, nc);
    } else if Current(b, todo[0].annotations) {
      NextClaimWithin(b, nc, todo[1..], failed, listed);
    }
  }

  lemma PastStays(b: Build, pc: Pc, r: Response)
    requires Past(pc) && !pc.Finished? && Fits(Ask(b, pc), r)
    ensures Past(Resume(b, pc, r))
  {
  }

  /** The reconcile is past its pass, or in it with the claims listed. */
  predicate InPass(pc: Pc, items: seq<Claim>) {
    Past(pc) || (pc.Restamp? && pc.listed == items && forall c :: c in pc.todo ==> c in items)
  }

  lemma PassOn(b: Build, run: seq<State>, steps: seq<Step>, k: nat, p: nat, items: seq<Claim>)
    requires IsRun(b, run, steps) && k < |steps| && Unrestarted(steps, k, k + 1, p)
    requires p in run[k].reconciles && InPass(run[k].reconciles[p], items)
    ensures p in run[k + 1].reconciles && InPass(run[k + 1].reconciles[p], items)
  {
    var s, step := run[k], steps[k];
    assert run[k + 1].reconciles == ReconcilesNext(b, s, step);
    if step.Serve? && step.p == p {
      var pc := s.reconciles[p];
      if pc.Restamp? {
        NextClaimWithin(b, pc.nc, pc.todo[1..], pc.failed || (step.r.Failure? && step.r.error != NotFound), pc.listed);
      } else {
        PastStays(b, pc, step.r);
      }
    }
  }

  lemma {:induction false} PassFrom(b: Build, run: seq<State>, steps: seq<Step>, i: nat, k: nat, p: nat, items: seq<Claim>)
    requires IsRun(b, run, steps) && i <= k < |run| && Unrestarted(steps, i, k, p)
    requires p in run[i].reconciles && InPass(run[i].reconciles[p], items)
    ensures p in run[k].reconciles && InPass(run[k].reconciles[p], items)
  {
    if i < k {
      PassFrom(b, run, steps, i, k - 1, p, items);
      PassOn(b, run, steps, k - 1, p, items);
    }
  }

  /** A claim at the current version when a pass lists is never patched by that pass, however many came between. */
  lemma PassSpares(b: Build, run: seq<State>, steps: seq<Step>, i: nat, k: nat, claim: string)
    requires IsRun(b, run, steps) && i < k < |steps| && steps[i].Serve? && steps[k].Serve? && steps[k].p == steps[i].p
    requires run[i].reconciles[steps[i].p].ListForMigration? && steps[i].r.Claims? && Unrestarted(steps, i + 1, k, steps[i].p)
    requires claim in run[i].claims && Current(b, run[i].claims[claim].annotations)
    ensures var q := Ask(b, run[k].reconciles[steps[k].p]); q.PatchClaim? ==> q.name != claim
  {
    var s, p, items := run[i], steps[i].p, steps[i].r.items;
    assert run[i + 1].reconciles == ReconcilesNext(b, s, steps[i]);
    NextClaimWithin(b, s.reconciles[p].nc, items, false, items);
    PassFrom(b, run, steps, i + 1, k, p, items);
    InvAlways(b, run, steps, k);
    var pc := run[k].reconciles[p];
    assert PassOk(b, run[k], p, pc);
    if pc.Restamp? {
      assert pc.todo[0] in items && ListsClaims(s, s.reconciles[p].nc.name, items);
    }
  }

  predicate Doomed(pc: Pc) {
    pc == Finished(Error) || (pc.Restamp? && pc.failed)
  }

  lemma DoomedStays(b: Build, run: seq<State>, steps: seq<Step>, k: nat, p: nat)
    requires IsRun(b, run, steps) && k < |steps| && Unrestarted(steps, k, k + 1, p)
    requires p in run[k].reconciles
    requires Doomed(run[k].reconciles[p]) || (run[k].reconciles[p].Restamp? && PatchFails(steps[k], p))
    ensures p in run[k + 1].reconciles && Doomed(run[k + 1].reconciles[p])
  {
    assert run[k + 1].reconciles == ReconcilesNext(b, run[k], steps[k]);
    if steps[k].Serve? && steps[k].p == p {
      var pc := run[k].reconciles[p];
      FailedStaysFailed(b, pc.nc, pc.todo[1..], pc.listed);
    }
  }

  /** A patch of `p` is reported as failed, other than for want of the claim. */
  predicate PatchFails(step: Step, p: nat) {
    step.Serve? && step.p == p && step.r.Failure? && step.r.error != NotFound
  }

  lemma {:induction false} DoomedFrom(b: Build, run: seq<State>, steps: seq<Step>, i: nat, k: nat, p: nat)
    requires IsRun(b, run, steps) && i <= k < |run| && Unrestarted(steps, i, k, p)
    requires p in run[i].reconciles && Doomed(run[i].reconciles[p])
    ensures p in run[k].reconciles && Doomed(run[k].reconciles[p])
  {
    if i < k {
      DoomedFrom(b, run, steps, i, k - 1, p);
      DoomedStays(b, run, steps, k - 1, p);
    }
  }

  /** Once one patch of a pass has failed, the reconcile writes no NodeClass any more, so the old version stays for a retry. */
  lemma FailedPassRecordsNothing(b: Build, run: seq<State>, steps: seq<Step>, i: nat, k: nat, p: nat)
    requires IsRun(b, run, steps) && i < k < |steps| && p in run[i].reconciles && run[i].reconciles[p].Restamp?
    requires PatchFails(steps[i], p) && Unrestarted(steps, i + 1, k, p)
    ensures steps[k].Serve? && steps[k].p == p ==> ClassWrite(b, run[k], steps[k]) == NoWrite
  {
    DoomedStays(b, run, steps, i, p);
    DoomedFrom(b, run, steps, i + 1, k, p);
  }

  // ---- The measure ----

  /** The claims of a NodeClass that are off the current version. */
  ghost function OffVersion(b: Build, s: State, n: string): set<string> {
    set c | c in s.claims && s.claims[c].nodeClass == n && !Current(b, s.claims[c].annotations)
  }

  /** No step but the creation of a claim puts a claim off the current version. */
  lemma NeverRises(b: Build, run: seq<State>, steps: seq<Step>, k: nat, n: string)
    requires IsRun(b, run, steps) && k < |steps|
    ensures OffVersion(b, run[k + 1], n) <= OffVersion(b, run[k], n) + (if steps[k].NewClaim? then {steps[k].c.name} else {})
  {
    var s, t := run[k], run[k + 1];
    InvAlways(b, run, steps, k);
    StepAdvances(b, s, steps[k]);
    assert t.claims == ClaimsNext(b, s, steps[k]);
    forall c | c in OffVersion(b, t, n) && c in s.names ensures c in OffVersion(b, s, n) {
      assert ClaimAdvances(b, s, c, t.claims[c]);
    }
  }

  lemma PatchTakesOut(b: Build, s: State, step: Step)
    requires Enabled(b, s, step) && Inv(b, s) && step.Serve? && step.applied && s.reconciles[step.p].Restamp?
    ensures var pc := s.reconciles[step.p];
            OffVersion(b, Apply(b, s, step), pc.nc.name) == OffVersion(b, s, pc.nc.name) - {pc.todo[0].name}
  {
    assert PassOk(b, s, step.p, s.reconciles[step.p]);
    assert Apply(b, s, step).claims == ClaimsNext(b, s, step);
    RequestAdvances(b, s, s.reconciles[step.p]);
  }

  /** A patch that goes through takes exactly its claim out of those off the current version. */
  lemma FallsWithEachPatch(b: Build, run: seq<State>, steps: seq<Step>, k: nat)
    requires IsRun(b, run, steps) && k < |steps| && steps[k].Serve? && steps[k].applied
    requires run[k].reconciles[steps[k].p].Restamp?
    ensures var pc := run[k].reconciles[steps[k].p]; var c, n := pc.todo[0].name, pc.nc.name;
            && OffVersion(b, run[k + 1], n) == OffVersion(b, run[k], n) - {c}
            && (c in OffVersion(b, run[k], n) ==> |OffVersion(b, run[k + 1], n)| == |OffVersion(b, run[k], n)| - 1)
  {
    InvAlways(b, run, steps, k);
    PatchTakesOut(b, run[k], steps[k]);
  }

  /** A pass touches no claim of another NodeClass. */
  lemma OthersUntouched(b: Build, run: seq<State>, steps: seq<Step>, k: nat, claim: string)
    requires IsRun(b, run, steps) && k < |steps| && steps[k].Serve? && claim in run[k].claims
    requires var pc := run[k].reconciles[steps[k].p]; pc.Restamp? ==> run[k].claims[claim].nodeClass != pc.nc.name
    ensures claim in run[k + 1].claims && run[k + 1].claims[claim] == run[k].claims[claim]
  {
    InvAlways(b, run, steps, k);
    var s, pc := run[k], run[k].reconciles[steps[k].p];
    assert PassOk(b, s, steps[k].p, pc);
    assert run[k + 1].claims == ClaimsNext(b, s, steps[k]);
    if steps[k].applied {
      if pc.Restamp? { assert ListedOk(s, pc.nc, pc.todo[0]); }
      RequestAdvances(b, s, pc);
    }
  }
}
