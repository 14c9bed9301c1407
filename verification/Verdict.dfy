/** A drift verdict outlives the migration: in every run a claim with a Drifted condition keeps the hash it was judged by. */
module Verdict {
  import opened Prelude
  import opened NodeClass
  import opened NodeClassRuns
  import opened Scenarios
  import Migration

  predicate SameHash(a: Annotations, d: Annotations) {
    (HASH in a <==> HASH in d) && (HASH in a ==> a[HASH] == d[HASH])
  }

  /** From state `i` to state `k` the condition of the claim is not cleared and no launch of it returns. */
  predicate Untouched(steps: seq<Step>, i: nat, k: nat, claim: string)
    requires k <= |steps|
  {
    forall j :: i <= j < k ==> steps[j] != ClearDrifted(claim) && steps[j] != EndCreate(claim)
  }

  /** No pass under way listed the claim before it had the condition. */
  ghost predicate SeenDrifted(s: State, claim: string) {
    forall p :: p in s.reconciles ==> Saw(s.reconciles[p], claim)
  }

  predicate Saw(pc: Pc, claim: string) {
    pc.Restamp? ==> forall c :: c in pc.todo && c.name == claim ==> c.drifted.Some?
  }

  ghost predicate Kept(s: State, claim: string, before: Claim) {
    && claim in s.names
    && (claim in s.claims ==>
          && s.claims[claim].drifted.Some? && SameHash(before.annotations, s.claims[claim].annotations)
          && s.claims[claim].nodeClass == before.nodeClass)
  }

  lemma KeptStep(b: Build, s: State, step: Step, claim: string, before: Claim)
    requires Enabled(b, s, step) && Migration.Inv(b, s) && Kept(s, claim, before) && SeenDrifted(s, claim)
    requires step != ClearDrifted(claim) && step != EndCreate(claim)
    ensures Kept(Apply(b, s, step), claim, before)
  {
    assert Apply(b, s, step).claims == ClaimsNext(b, s, step);
    if step.Serve? && step.applied {
      var pc := s.reconciles[step.p];
      assert Migration.PassOk(b, s, step.p, pc) && Saw(pc, claim);
      Migration.RequestAdvances(b, s, pc);
      if pc.Restamp? && pc.todo[0].name in s.claims {
        assert pc.todo[0] in pc.todo;
        Migration.PatchedClaim(b, pc.nc, pc.todo[0], s.claims[pc.todo[0].name].annotations);
      }
    }
  }

  lemma SawNext(b: Build, s: State, step: Step, claim: string)
    requires Enabled(b, s, step) && Migration.Inv(b, s) && step.Serve? && Saw(s.reconciles[step.p], claim)
    requires claim in s.claims ==> s.claims[claim].drifted.Some?
    ensures Saw(Resume(b, s.reconciles[step.p], step.r), claim)
  {
    var pc, r := s.reconciles[step.p], step.r;
    if pc.Restamp? {
      Migration.NextClaimWithin(b, pc.nc, pc.todo[1..], pc.failed || (r.Failure? && r.error != NotFound), pc.listed);
    } else if !pc.ListForMigration? {
      Migration.PassKind(b, pc, r);
    } else if r.Claims? {
      assert ListsClaims(s, pc.nc.name, r.items);
      Migration.NextClaimWithin(b, pc.nc, r.items, false, r.items);
    }
  }

  lemma SeenStep(b: Build, s: State, step: Step, claim: string)
    requires Enabled(b, s, step) && Migration.Inv(b, s) && SeenDrifted(s, claim)
    requires claim in s.claims ==> s.claims[claim].drifted.Some?
    ensures SeenDrifted(Apply(b, s, step), claim)
  {
    assert Apply(b, s, step).reconciles == ReconcilesNext(b, s, step);
    if step.Serve? {
      SawNext(b, s, step, claim);
    }
  }

  lemma {:induction false} KeptAlways(b: Build, run: seq<State>, steps: seq<Step>, i: nat, k: nat, claim: string)
    requires IsRun(b, run, steps) && i <= k < |run| && Untouched(steps, i, k, claim)
    requires claim in run[i].claims && run[i].claims[claim].drifted.Some? && SeenDrifted(run[i], claim)
    ensures Kept(run[k], claim, run[i].claims[claim]) && SeenDrifted(run[k], claim)
  {
    Migration.InvAlways(b, run, steps, k);
    if i < k {
      KeptAlways(b, run, steps, i, k - 1, claim);
      Migration.InvAlways(b, run, steps, k - 1);
      KeptStep(b, run[k - 1], steps[k - 1], claim, run[i].claims[claim]);
      SeenStep(b, run[k - 1], steps[k - 1], claim);
    }
  }

  /** Once the claim's version is current and its NodeClass is live, it is reported drifted exactly if the hash it had differs. */
  predicate JudgedByHash(b: Build, s: State, claim: string, before: Claim)
    requires claim in s.claims
  {
    var after, n := s.claims[claim], before.nodeClass;
    n in s.classes && !s.classes[n].deleting && VERSION in after.annotations && Current(b, after.annotations) ==>
      (IsDrifted(b, Ok(s.classes[n]), after) == Ok(NodeClassDrifted) <==>
         HASH in before.annotations && before.annotations[HASH] != b.hash(s.classes[n].spec))
  }

  /**
   * Through every interleaving of passes, failures and retries: a claim with a Drifted condition of whatever status, that
   * no pass under way had listed without it, keeps its hash for as long as the condition stays and no launch returns, and
   * is judged by it once it can be judged again.
   */
  lemma VerdictPreserved(b: Build, run: seq<State>, steps: seq<Step>, i: nat, k: nat, claim: string)
    requires IsRun(b, run, steps) && i <= k < |run| && Untouched(steps, i, k, claim)
    requires claim in run[i].claims && run[i].claims[claim].drifted.Some? && SeenDrifted(run[i], claim)
    requires claim in run[k].claims
    ensures run[k].claims[claim].drifted.Some? && SameHash(run[i].claims[claim].annotations, run[k].claims[claim].annotations)
    ensures JudgedByHash(b, run[k], claim, run[i].claims[claim])
  {
    KeptAlways(b, run, steps, i, k, claim);
  }

  /** The same from the first state, when no reconcile is under way. */
  lemma VerdictPreservedFromStart(b: Build, run: seq<State>, steps: seq<Step>, k: nat, claim: string)
    requires IsRun(b, run, steps) && k < |run| && Untouched(steps, 0, k, claim)
    requires claim in run[0].claims && run[0].claims[claim].drifted.Some? && claim in run[k].claims
    ensures SameHash(run[0].claims[claim].annotations, run[k].claims[claim].annotations)
    ensures JudgedByHash(b, run[k], claim, run[0].claims[claim])
  {
    VerdictPreserved(b, run, steps, 0, k, claim);
  }

  // ---- A condition that comes too late ----

  /**
   * What the patch does to the hash is decided by the listed claim, not by the stored one: it is overwritten if and only
   * if the claim was listed without the condition and without the new hash.
   */
  lemma ListingDecides(b: Build, run: seq<State>, steps: seq<Step>, k: nat)
    requires IsRun(b, run, steps) && k < |steps| && steps[k].Serve? && steps[k].applied && run[k].reconciles[steps[k].p].Restamp?
    ensures var pc := run[k].reconciles[steps[k].p];
            var c, h := pc.todo[0], b.hash(pc.nc.spec);
            && c.name in run[k].claims && c.name in run[k + 1].claims
            && var stored, patched := run[k].claims[c.name].annotations, run[k + 1].claims[c.name].annotations;
               if c.drifted == None && !(HASH in c.annotations && c.annotations[HASH] == h)
               then HASH in patched && patched[HASH] == h
               else SameHash(stored, patched)
  {
    Migration.InvAlways(b, run, steps, k);
    var s, pc := run[k], run[k].reconciles[steps[k].p];
    assert Migration.PassOk(b, s, steps[k].p, pc);
    assert run[k + 1].claims == ClaimsNext(b, s, steps[k]);
    Migration.PatchedClaim(b, pc.nc, pc.todo[0], s.claims[pc.todo[0].name].annotations);
  }

  /** So a condition of status `False` is enough to keep the hash, whatever has become of it by the time of the patch. */
  lemma FalseConditionKeepsHash(b: Build, run: seq<State>, steps: seq<Step>, k: nat)
    requires IsRun(b, run, steps) && k < |steps| && steps[k].Serve? && steps[k].applied && run[k].reconciles[steps[k].p].Restamp?
    requires var pc := run[k].reconciles[steps[k].p]; pc.todo != [] && pc.todo[0].drifted == Some("False")
    ensures var claim := run[k].reconciles[steps[k].p].todo[0].name;
            && claim in run[k].claims && claim in run[k + 1].claims
            && SameHash(run[k].claims[claim].annotations, run[k + 1].claims[claim].annotations)
            && Current(b, run[k + 1].claims[claim].annotations)
  {
    ListingDecides(b, run, steps, k);
    Migration.InvAlways(b, run, steps, k);
    assert Migration.PassOk(b, run[k], steps[k].p, run[k].reconciles[steps[k].p]);
    assert run[k + 1].claims == ClaimsNext(b, run[k], steps[k]);
    Migration.RequestAdvances(b, run[k], run[k].reconciles[steps[k].p]);
  }

  /**
   * The proviso is needed: if core sets the condition after the claim was listed, the patch still replaces the hash, and
   * a claim judged drifted is reported no longer.
   */
  lemma LateVerdictIsLost(b: Build, first: State, nc: NodeClass, c: Claim) returns (run: seq<State>, steps: seq<Step>)
    requires AtRest(first, nc, map[c.name := c]) && Migrating(b, nc) && c.nodeClass == nc.name
    requires !Current(b, c.annotations) && c.drifted == None && HASH in c.annotations && c.annotations[HASH] != b.hash(nc.spec)
    ensures IsRun(b, run, steps) && |run| > 0 && run[0] == first
    ensures var t := run[|run| - 1];
            && c.name in t.claims && t.claims[c.name].drifted == Some("True") && !SameHash(c.annotations, t.claims[c.name].annotations)
            && t.classes == map[nc.name := nc] && IsDrifted(b, Ok(nc), t.claims[c.name]) == Ok(NoDrift)
  {
    run, steps := Fetches(b, [first], [], nc, 0);
    run, steps := ListsOne(b, run, steps, nc, 0, c);
    run, steps := JudgedThenPatched(b, run, steps, nc, c);
  }

  lemma JudgedThenPatched(b: Build, run: seq<State>, steps: seq<Step>, nc: NodeClass, c: Claim) returns (run': seq<State>, steps': seq<Step>)
    requires IsRun(b, run, steps)
    requires var s := run[|run| - 1];
             s.classes == map[nc.name := nc] && s.claims == map[c.name := c] && s.reconciles == map[0 := Restamp(nc, [c], false, [c])]
    requires c.drifted == None && !Current(b, c.annotations) && HASH in c.annotations && c.annotations[HASH] != b.hash(nc.spec)
    ensures IsRun(b, run', steps') && |run'| > 0 && run'[0] == run[0]
    ensures var t := run'[|run'| - 1];
            && c.name in t.claims && t.claims[c.name].drifted == Some("True") && !SameHash(c.annotations, t.claims[c.name].annotations)
            && t.classes == map[nc.name := nc] && IsDrifted(b, Ok(nc), t.claims[c.name]) == Ok(NoDrift)
  {
    run', steps' := Extend(b, run, steps, SetDrifted(c.name, "True"));
    var s := run'[|run'| - 1];
    assert s.claims == map[c.name := c.(drifted := Some("True"))] && s.classes == run[|run| - 1].classes;
    assert s.reconciles == run[|run| - 1].reconciles;
    PatchLands(b, s, nc, c);
    run', steps' := Extend(b, run', steps', Serve(0, Done, true));
  }

  lemma PatchLands(b: Build, s: State, nc: NodeClass, c: Claim)
    requires c.name in s.claims && s.claims[c.name].annotations == c.annotations
    requires 0 in s.reconciles && s.reconciles[0] == Restamp(nc, [c], false, [c]) && s.classes == map[nc.name := nc]
    requires c.drifted == None && !Current(b, c.annotations) && !(HASH in c.annotations && c.annotations[HASH] == b.hash(nc.spec))
    ensures Enabled(b, s, Serve(0, Done, true))
    ensures var t := Apply(b, s, Serve(0, Done, true));
            && t.classes == s.classes && c.name in t.claims && t.claims[c.name].drifted == s.claims[c.name].drifted
            && HASH in t.claims[c.name].annotations && t.claims[c.name].annotations[HASH] == b.hash(nc.spec)
  {
    Migration.PatchedClaim(b, nc, c, c.annotations);
    assert Apply(b, s, Serve(0, Done, true)).claims == ClaimsNext(b, s, Serve(0, Done, true));
  }
}
