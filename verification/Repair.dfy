/** Which claims the controller re-stamps: those a pass lists, and a pass runs exactly if the NodeClass was fetched off-version. */
module Repair {
  import opened Prelude
  import opened NodeClass
  import opened NodeClassRuns
  import opened Scenarios
  import Migration

  // ---- Under a NodeClass that stays at the current version ----

  /** The reconcile neither migrates the NodeClass nor is going to. */
  predicate Idle(b: Build, n: string, pc: Pc) {
    && (pc.ListForMigration? || pc.Restamp? ==> pc.nc.name != n)
    && (pc.AddFinalizer? && pc.nc.name == n ==> Current(b, pc.nc.annotations))
  }

  ghost predicate AllIdle(b: Build, n: string, s: State) {
    forall p :: p in s.reconciles ==> Idle(b, n, s.reconciles[p])
  }

  ghost predicate CurrentIfStored(b: Build, n: string, s: State) {
    n in s.classes ==> Current(b, s.classes[n].annotations)
  }

  lemma SyncIdle(b: Build, n: string, nc: NodeClass)
    requires nc.name == n ==> Current(b, nc.annotations)
    ensures Idle(b, n, StartSync(b, nc))
  {
    Migration.AssessPast(b, nc);
  }

  lemma FetchIdle(b: Build, n: string, nc: NodeClass)
    requires nc.name == n ==> Current(b, nc.annotations)
    ensures Idle(b, n, AfterFetch(b, nc))
  {
    SyncIdle(b, n, nc);
  }

  /** The object an answered patch returns is as current as the stored one. */
  lemma ServedIdle(b: Build, n: string, s: State, step: Step)
    requires Enabled(b, s, step) && step.Serve? && ClassesOk(s) && CurrentIfStored(b, n, s) && Idle(b, n, s.reconciles[step.p])
    ensures Idle(b, n, Resume(b, s.reconciles[step.p], step.r))
  {
    var pc, r := s.reconciles[step.p], step.r;
    if Migration.Past(pc) {
      Migration.PastStays(b, pc, r);
    } else if pc.Restamp? {
      Migration.NextClaimWithin(b, pc.nc, pc.todo[1..], pc.failed || (r.Failure? && r.error != NotFound), pc.listed);
    } else if pc.ListForMigration? {
      if r.Claims? { Migration.NextClaimWithin(b, pc.nc, r.items, false, r.items); }
    } else if pc.Fetch? {
      if r.Object? { FetchIdle(b, n, r.nc); }
    } else if pc.AddFinalizer? {
      SyncIdle(b, n, if r.Object? then r.nc else WithFinalizer(pc.nc));
    }
  }

  lemma IdleStep(b: Build, n: string, s: State, step: Step)
    requires Enabled(b, s, step) && ClassesOk(s) && CurrentIfStored(b, n, s) && AllIdle(b, n, s)
    ensures AllIdle(b, n, Apply(b, s, step))
  {
    assert Apply(b, s, step).reconciles == ReconcilesNext(b, s, step);
    if step.Serve? {
      ServedIdle(b, n, s, step);
    }
  }

  ghost predicate Same(s: State, claim: string, before: Claim) {
    claim in s.names && (claim in s.claims ==>
      s.claims[claim].annotations == before.annotations && s.claims[claim].nodeClass == before.nodeClass)
  }

  lemma SameStep(b: Build, s: State, step: Step, claim: string, before: Claim)
    requires Enabled(b, s, step) && Migration.Inv(b, s) && AllIdle(b, before.nodeClass, s) && Same(s, claim, before)
    requires step != EndCreate(claim)
    ensures Same(Apply(b, s, step), claim, before)
  {
    assert Apply(b, s, step).claims == ClaimsNext(b, s, step);
    if step.Serve? && step.applied {
      var pc := s.reconciles[step.p];
      assert Migration.PassOk(b, s, step.p, pc) && Idle(b, before.nodeClass, pc);
      Migration.RequestAdvances(b, s, pc);
      if pc.Restamp? { assert Migration.ListedOk(s, pc.nc, pc.todo[0]); }
    }
  }

  /** Up to state `k` the NodeClass is at the current version wherever it is stored, and no launch of the claim returns. */
  ghost predicate StaysCurrent(b: Build, run: seq<State>, steps: seq<Step>, k: nat, n: string, claim: string)
    requires k <= |steps| < |run|
  {
    forall j {:trigger run[j]} :: 0 <= j < k ==> CurrentIfStored(b, n, run[j]) && steps[j] != EndCreate(claim)
  }

  lemma {:induction false} IdleAlways(b: Build, run: seq<State>, steps: seq<Step>, k: nat, claim: string, before: Claim)
    requires IsRun(b, run, steps) && k < |run| && claim in run[0].claims && run[0].claims[claim] == before
    requires StaysCurrent(b, run, steps, k, before.nodeClass, claim)
    ensures AllIdle(b, before.nodeClass, run[k]) && Same(run[k], claim, before)
  {
    if k == 0 {
      WellFormedAlways(b, run, steps, 0);
    } else {
      IdleAlways(b, run, steps, k - 1, claim, before);
      IdleOn(b, run, steps, k - 1, claim, before);
    }
  }

  lemma IdleOn(b: Build, run: seq<State>, steps: seq<Step>, k: nat, claim: string, before: Claim)
    requires IsRun(b, run, steps) && k < |steps| && CurrentIfStored(b, before.nodeClass, run[k]) && steps[k] != EndCreate(claim)
    requires AllIdle(b, before.nodeClass, run[k]) && Same(run[k], claim, before)
    ensures AllIdle(b, before.nodeClass, run[k + 1]) && Same(run[k + 1], claim, before)
  {
    Migration.InvAlways(b, run, steps, k);
    IdleStep(b, before.nodeClass, run[k], steps[k]);
    SameStep(b, run[k], steps[k], claim, before);
  }

  /**
   * While a NodeClass stays at the current version its claims are not re-stamped, whatever their annotations lack; only
   * the end of their own launch still changes these.
   */
  lemma NeverRepaired(b: Build, run: seq<State>, steps: seq<Step>, k: nat, claim: string)
    requires IsRun(b, run, steps) && k < |run| && claim in run[0].claims && claim in run[k].claims
    requires StaysCurrent(b, run, steps, k, run[0].claims[claim].nodeClass, claim)
    ensures run[k].claims[claim].annotations == run[0].claims[claim].annotations
  {
    IdleAlways(b, run, steps, k, claim, run[0].claims[claim]);
  }

  // ---- The condition ----

  /** Between states `i` and `k` reconcile `p` neither starts nor is answered. */
  predicate Waiting(steps: seq<Step>, i: nat, k: nat, p: nat)
    requires k <= |steps|
  {
    forall j :: i <= j < k ==> !((steps[j].Start? || steps[j].Serve?) && steps[j].p == p)
  }

  lemma {:induction false} StillWaiting(b: Build, run: seq<State>, steps: seq<Step>, i: nat, k: nat, p: nat)
    requires IsRun(b, run, steps) && i <= k < |run| && Waiting(steps, i, k, p) && p in run[i].reconciles
    ensures p in run[k].reconciles && run[k].reconciles[p] == run[i].reconciles[p]
  {
    if i < k {
      StillWaiting(b, run, steps, i, k - 1, p);
      assert run[k].reconciles == ReconcilesNext(b, run[k - 1], steps[k - 1]);
    }
  }

  /**
   * A reconcile started for a live NodeClass with the finalizer migrates it, once its fetch is answered, if and only if
   * what is stored at that moment is off the current version.
   */
  lemma MigratesIfOffVersion(b: Build, run: seq<State>, steps: seq<Step>, i: nat, k: nat, p: nat, n: string)
    requires IsRun(b, run, steps) && i < k < |steps| && steps[i] == Start(p, n) && Waiting(steps, i + 1, k, p)
    requires steps[k].Serve? && steps[k].p == p && steps[k].r.Object?
    ensures n in run[k].classes && p in run[k + 1].reconciles
    ensures !run[k].classes[n].deleting && FINALIZER in run[k].classes[n].finalizers ==>
              (run[k + 1].reconciles[p] == ListForMigration(run[k].classes[n]) <==> !Current(b, run[k].classes[n].annotations))
  {
    assert run[i + 1].reconciles == ReconcilesNext(b, run[i], steps[i]);
    StillWaiting(b, run, steps, i + 1, k, p);
    assert run[k + 1].reconciles == ReconcilesNext(b, run[k], steps[k]);
    Migration.AssessPast(b, run[k].classes[n]);
  }

  /** One that gives it the finalizer first, if and only if what is stored then is. */
  lemma MigratesOnceGuarded(b: Build, run: seq<State>, steps: seq<Step>, k: nat, p: nat)
    requires IsRun(b, run, steps) && k < |steps| && p in run[k].reconciles && run[k].reconciles[p].AddFinalizer?
    requires steps[k].Serve? && steps[k].p == p && steps[k].r.Object?
    ensures var n := run[k].reconciles[p].nc.name;
            && n in run[k + 1].classes && p in run[k + 1].reconciles
            && (run[k + 1].reconciles[p] == ListForMigration(run[k + 1].classes[n]) <==> !Current(b, run[k + 1].classes[n].annotations))
  {
    var s, step := run[k], steps[k];
    assert run[k + 1].reconciles == ReconcilesNext(b, s, step);
    assert run[k + 1].classes == Store(s, ClassWrite(b, s, step)).classes;
    Migration.AssessPast(b, step.r.nc);
  }

  /** In every run a pass works from a NodeClass that was off the current version when fetched. */
  ghost predicate FetchedOff(b: Build, s: State) {
    forall p :: p in s.reconciles && (s.reconciles[p].ListForMigration? || s.reconciles[p].Restamp?) ==>
      !Current(b, s.reconciles[p].nc.annotations)
  }

  lemma ServedOff(b: Build, pc: Pc, r: Response)
    requires !pc.Finished? && (pc.Restamp? ==> pc.todo != []) && Fits(Ask(b, pc), r)
    requires pc.ListForMigration? || pc.Restamp? ==> !Current(b, pc.nc.annotations)
    ensures var d := Resume(b, pc, r); d.ListForMigration? || d.Restamp? ==> !Current(b, d.nc.annotations)
  {
    if Migration.Past(pc) {
      Migration.PastStays(b, pc, r);
    } else if pc.Restamp? {
      Migration.NextClaimWithin(b, pc.nc, pc.todo[1..], pc.failed || (r.Failure? && r.error != NotFound), pc.listed);
    } else if pc.ListForMigration? {
      if r.Claims? { Migration.NextClaimWithin(b, pc.nc, r.items, false, r.items); }
    } else if pc.Fetch? {
      if r.Object? { SyncOff(b, r.nc); }
    } else if pc.AddFinalizer? {
      SyncOff(b, if r.Object? then r.nc else WithFinalizer(pc.nc));
    }
  }

  lemma SyncOff(b: Build, nc: NodeClass)
    ensures var d := StartSync(b, nc); !d.Restamp? && (d.ListForMigration? ==> d.nc == nc && !Current(b, nc.annotations))
  {
    Migration.AssessPast(b, nc);
  }

  lemma {:induction false} FetchedOffAlways(b: Build, run: seq<State>, steps: seq<Step>, k: nat)
    requires IsRun(b, run, steps) && k < |run|
    ensures FetchedOff(b, run[k])
  {
    if k > 0 {
      var s, step := run[k - 1], steps[k - 1];
      FetchedOffAlways(b, run, steps, k - 1);
      assert run[k].reconciles == ReconcilesNext(b, s, step);
      if step.Serve? {
        ServedOff(b, s.reconciles[step.p], step.r);
      }
    }
  }

  // ---- And a pass does repair ----

  predicate Hashed(s: State, name: string) {
    name in s.claims ==> HASH in s.claims[name].annotations
  }

  /** A listed claim that needs a hash has one, unless it is still to do or the pass has failed. */
  predicate HashOk(b: Build, s: State, c: Claim, todo: seq<Claim>, failed: bool) {
    && (HASH in c.annotations ==> Hashed(s, c.name))
    && (c.drifted == None && !Current(b, c.annotations) ==> c in todo || failed || Hashed(s, c.name))
  }

  ghost predicate PassHashed(b: Build, s: State, pc: Pc) {
    && (pc.Restamp? ==> forall c :: c in pc.listed ==> HashOk(b, s, c, pc.todo, pc.failed))
    && (pc.RecordHash? && !Current(b, pc.nc.annotations) ==> forall c :: c in pc.listed ==> HashOk(b, s, c, [], false))
  }

  /** No step takes a hash off a claim. */
  ghost predicate HashesStay(s: State, t: State) {
    s.names <= t.names && forall n :: n in t.claims && n in s.names ==> n in s.claims && (Hashed(s, n) ==> Hashed(t, n))
  }

  lemma HashesStayStep(b: Build, s: State, step: Step)
    requires Enabled(b, s, step) && WellFormed(s)
    ensures HashesStay(s, Apply(b, s, step))
  {
    assert Apply(b, s, step).claims == ClaimsNext(b, s, step);
  }

  lemma PassHashedCarries(b: Build, s: State, t: State, p: nat, pc: Pc)
    requires Migration.PassOk(b, s, p, pc) && PassHashed(b, s, pc) && HashesStay(s, t)
    ensures PassHashed(b, t, pc)
  {
    if pc.Restamp? || (pc.RecordHash? && !Current(b, pc.nc.annotations)) {
      forall c | c in pc.listed && Hashed(s, c.name) ensures Hashed(t, c.name) {
        assert Migration.ListedOk(s, pc.nc, c);
      }
    }
  }

  lemma {:induction false} NextClaimHashed(b: Build, s: State, nc: NodeClass, todo: seq<Claim>, failed: bool, listed: seq<Claim>)
    requires forall c :: c in listed ==> HashOk(b, s, c, todo, failed)
    ensures PassHashed(b, s, NextClaim(b, nc, todo, failed, listed))
  {
    if todo == [] {
      Migration.AssessPast(b, nc);
      Migration.AssessKind(b, nc);
    } else if Current(b, todo[0].annotations) {
      forall c | c in listed ensures HashOk(b, s, c, todo[1..], failed) {
        assert HashOk(b, s, c, todo, failed);
      }
      NextClaimHashed(b, s, nc, todo[1..], failed, listed);
    }
  }

  lemma RestampHashed(b: Build, s: State, step: Step)
    requires Enabled(b, s, step) && Migration.Inv(b, s) && step.Serve? && s.reconciles[step.p].Restamp?
    requires PassHashed(b, s, s.reconciles[step.p])
    ensures PassHashed(b, Apply(b, s, step), Resume(b, s.reconciles[step.p], step.r))
  {
    var t, pc := Apply(b, s, step), s.reconciles[step.p];
    var failed := pc.failed || (step.r.Failure? && step.r.error != NotFound);
    assert Migration.PassOk(b, s, step.p, pc) && t.claims == ClaimsNext(b, s, step);
    HashesStayStep(b, s, step);
    PassHashedCarries(b, s, t, step.p, pc);
    var c := pc.todo[0];
    if !failed && c.drifted == None {
      if c.name in s.claims && step.applied {
        Migration.PatchedClaim(b, pc.nc, c, s.claims[c.name].annotations);
        assert HashOk(b, s, c, pc.todo, pc.failed);
      }
      assert Hashed(t, c.name);
    }
    forall x | x in pc.listed ensures HashOk(b, t, x, pc.todo[1..], failed) {
      assert HashOk(b, t, x, pc.todo, pc.failed);
    }
    NextClaimHashed(b, t, pc.nc, pc.todo[1..], failed, pc.listed);
  }

  lemma ServedHashed(b: Build, s: State, step: Step)
    requires Enabled(b, s, step) && Migration.Inv(b, s) && step.Serve? && PassHashed(b, s, s.reconciles[step.p])
    ensures PassHashed(b, Apply(b, s, step), Resume(b, s.reconciles[step.p], step.r))
  {
    var t, pc, r := Apply(b, s, step), s.reconciles[step.p], step.r;
    if pc.Restamp? {
      RestampHashed(b, s, step);
    } else if !pc.ListForMigration? {
      Migration.PassKind(b, pc, r);
    } else if r.Claims? {
      assert t.claims == ClaimsNext(b, s, step) && ListsClaims(s, pc.nc.name, r.items);
      NextClaimHashed(b, t, pc.nc, r.items, false, r.items);
    }
  }

  ghost predicate AllHashed(b: Build, s: State) {
    forall p :: p in s.reconciles ==> PassHashed(b, s, s.reconciles[p])
  }

  lemma {:induction false} HashedAlways(b: Build, run: seq<State>, steps: seq<Step>, k: nat)
    requires IsRun(b, run, steps) && k < |run|
    ensures AllHashed(b, run[k])
  {
    if k > 0 {
      HashedAlways(b, run, steps, k - 1);
      Migration.InvAlways(b, run, steps, k - 1);
      HashedStep(b, run[k - 1], steps[k - 1]);
    }
  }

  lemma HashedStep(b: Build, s: State, step: Step)
    requires Enabled(b, s, step) && Migration.Inv(b, s) && AllHashed(b, s)
    ensures AllHashed(b, Apply(b, s, step))
  {
    var t := Apply(b, s, step);
    assert t.reconciles == ReconcilesNext(b, s, step);
    HashesStayStep(b, s, step);
    forall p | p in t.reconciles ensures PassHashed(b, t, t.reconciles[p]) {
      if step.Serve? && p == step.p {
        ServedHashed(b, s, step);
      } else if !(step.Start? && p == step.p) {
        assert Migration.PassOk(b, s, p, s.reconciles[p]);
        PassHashedCarries(b, s, t, p, s.reconciles[p]);
      }
    }
  }

  /**
   * When a pass has got through, every claim it listed off the current version and without a Drifted condition, with or
   * without a hash, is gone or can be compared again.
   */
  lemma PassRepairs(b: Build, run: seq<State>, steps: seq<Step>, k: nat, p: nat, c: Claim)
    requires IsRun(b, run, steps) && k < |run| && p in run[k].reconciles && run[k].reconciles[p].RecordHash?
    requires !Current(b, run[k].reconciles[p].nc.annotations) && c in run[k].reconciles[p].listed
    ensures c.drifted == None && !Current(b, c.annotations) && c.name in run[k].claims ==>
              Current(b, run[k].claims[c.name].annotations) && HASH in run[k].claims[c.name].annotations
  {
    Migration.InvAlways(b, run, steps, k);
    HashedAlways(b, run, steps, k);
    var pc := run[k].reconciles[p];
    assert Migration.PassOk(b, run[k], p, pc) && PassHashed(b, run[k], pc);
    assert HashOk(b, run[k], c, [], false) && Migration.ListedOk(run[k], pc.nc, c);
  }

  // ---- It is the fetch that counts ----

  /** Reconcile 0 lists no claim and is about to record the version; then a claim is created. */
  lemma ListsNoneThenCreated(b: Build, run: seq<State>, steps: seq<Step>, nc: NodeClass, c: Claim)
    returns (run': seq<State>, steps': seq<Step>)
    requires IsRun(b, run, steps) && Migrating(b, nc)
    requires var s := run[|run| - 1]; s.claims == map[] && 0 in s.reconciles && s.reconciles[0] == ListForMigration(nc) && c.name !in s.names
    requires HASH !in c.annotations && VERSION !in c.annotations && c.drifted == None
    ensures IsRun(b, run', steps') && |run'| > 0
    ensures var s, t := run[|run| - 1], run'[|run'| - 1];
            && t.classes == s.classes && t.claims == map[c.name := c] && t.next == s.next
            && t.reconciles == s.reconciles[0 := RecordHash(nc, [])]
  {
    var s, list := run[|run| - 1], Serve(0, Claims([]), true);
    assert WithHash(b, nc) != nc by { assert Get(WithHash(b, nc).annotations, VERSION) == b.version; }
    run', steps' := Extend(b, run, steps, list);
    var u := run'[|run'| - 1];
    assert u.reconciles == ReconcilesNext(b, s, list) && u.claims == s.claims && u.classes == s.classes && u.names == s.names;
    run', steps' := Extend(b, run', steps', NewClaim(c));
  }

  /** Reconcile 0 records the current version. */
  lemma Records(b: Build, run: seq<State>, steps: seq<Step>, nc: NodeClass, todo: Pc) returns (run': seq<State>, steps': seq<Step>)
    requires IsRun(b, run, steps) && Migrating(b, nc) && todo.Restamp?
    requires var s := run[|run| - 1]; s.classes == map[nc.name := nc] && s.reconciles == map[0 := RecordHash(nc, []), 1 := todo]
    ensures IsRun(b, run', steps') && |run'| > 0
    ensures var s, t := run[|run| - 1], run'[|run'| - 1];
            && t.claims == s.claims && 1 in t.reconciles && t.reconciles[1] == todo
            && nc.name in t.classes && Current(b, t.classes[nc.name].annotations)
  {
    var s := run[|run| - 1];
    var patch := Ask(b, RecordHash(nc, [])).patch;
    var step := Serve(0, Object(Patched(nc, patch, s.next)), true);
    assert VERSION in patch.annotations && patch.annotations[VERSION] == b.version;
    run', steps' := Extend(b, run, steps, step);
    var t := run'[|run'| - 1];
    assert t.classes == Store(s, ClassWrite(b, s, step)).classes && t.reconciles == ReconcilesNext(b, s, step);
    assert t.claims == ClaimsNext(b, s, step);
  }

  /**
   * So a claim may still be re-stamped under a NodeClass already at the current version, by a pass that fetched it before:
   * two reconciles fetch it, one lists nothing and records the version, and the other lists a claim created meanwhile.
   */
  lemma StampedUnderCurrent(b: Build, first: State, nc: NodeClass, c: Claim) returns (run: seq<State>, steps: seq<Step>)
    requires AtRest(first, nc, map[]) && Migrating(b, nc) && b.version != ""
    requires c.nodeClass == nc.name && c.name !in first.names && HASH !in c.annotations && VERSION !in c.annotations && c.drifted == None
    ensures IsRun(b, run, steps) && |run| > 1
    ensures var s, t := run[|run| - 2], run[|run| - 1];
            && nc.name in s.classes && Current(b, s.classes[nc.name].annotations)
            && s.claims == map[c.name := c] && c.name in t.claims && HASH in t.claims[c.name].annotations
  {
    run, steps := BothUnderWay(b, first, nc, c);
    run, steps := Records(b, run, steps, nc, Restamp(nc, [c], false, [c]));
    run, steps := PatchesOne(b, run, steps, nc, c);
  }

  lemma BothUnderWay(b: Build, first: State, nc: NodeClass, c: Claim) returns (run: seq<State>, steps: seq<Step>)
    requires AtRest(first, nc, map[]) && Migrating(b, nc) && b.version != ""
    requires c.nodeClass == nc.name && c.name !in first.names && HASH !in c.annotations && VERSION !in c.annotations && c.drifted == None
    ensures IsRun(b, run, steps) && |run| > 0
    ensures var s := run[|run| - 1];
            && s.classes == map[nc.name := nc] && s.claims == map[c.name := c]
            && s.reconciles == map[0 := RecordHash(nc, []), 1 := Restamp(nc, [c], false, [c])]
  {
    run, steps := BothFetch(b, first, nc);
    run, steps := ListsNoneThenCreated(b, run, steps, nc, c);
    run, steps := ListsOne(b, run, steps, nc, 1, c);
  }

  lemma BothFetch(b: Build, first: State, nc: NodeClass) returns (run: seq<State>, steps: seq<Step>)
    requires AtRest(first, nc, map[]) && Migrating(b, nc)
    ensures IsRun(b, run, steps) && |run| > 0
    ensures var s := run[|run| - 1];
            && s.classes == map[nc.name := nc] && s.claims == map[] && s.names == first.names
            && s.reconciles == map[0 := ListForMigration(nc), 1 := ListForMigration(nc)]
  {
    run, steps := Fetches(b, [first], [], nc, 0);
    run, steps := Fetches(b, run, steps, nc, 1);
  }

  lemma PatchesOne(b: Build, run: seq<State>, steps: seq<Step>, nc: NodeClass, c: Claim) returns (run': seq<State>, steps': seq<Step>)
    requires IsRun(b, run, steps) && !Current(b, c.annotations) && HASH !in c.annotations && c.drifted == None
    requires var s := run[|run| - 1];
             s.claims == map[c.name := c] && 1 in s.reconciles && s.reconciles[1] == Restamp(nc, [c], false, [c])
    ensures IsRun(b, run', steps') && |run'| == |run| + 1 && run'[|run'| - 2] == run[|run| - 1]
    ensures c.name in run'[|run'| - 1].claims && HASH in run'[|run'| - 1].claims[c.name].annotations
  {
    var s, step := run[|run| - 1], Serve(1, Done, true);
    run', steps' := Extend(b, run, steps, step);
    assert run'[|run'| - 1].claims == ClaimsNext(b, s, step);
    Migration.PatchedClaim(b, nc, c, c.annotations);
  }
}
