/** The finalizer handshake between a NodeClass being deleted and the claims launched from it. */
module Finalizer {
  import opened Prelude
  import opened NodeClass
  import opened NodeClassRuns
  import opened Scenarios

  /** How the store moves on in one step. */
  ghost predicate Evolves(s: State, t: State) {
    && s.next <= t.next && s.names <= t.names && s.passed <= t.passed
    && (forall u :: u in s.owners ==> u in t.owners && t.owners[u] == s.owners[u])
    && (forall n :: n in t.classes ==> ClassEvolves(s, n, t.classes[n]))
    && (forall c :: c in t.claims ==> (c in s.claims && s.claims[c].nodeClass == t.claims[c].nodeClass) || c !in s.names)
    && (forall x :: x in t.passed && x !in s.passed ==> SeenLive(s, x.0, x.1))
  }

  predicate ClassEvolves(s: State, n: string, nc: NodeClass) {
    || (n in s.classes && s.classes[n] == nc)
    || (nc.resourceVersion >= s.next
        && (nc.uid >= s.next || (n in s.classes && s.classes[n].uid == nc.uid && (s.classes[n].deleting ==> nc.deleting))))
  }

  predicate SeenLive(s: State, claim: string, uid: nat) {
    && claim in s.claims && s.claims[claim].nodeClass in s.classes
    && s.classes[s.claims[claim].nodeClass].uid == uid && !s.classes[s.claims[claim].nodeClass].deleting
  }

  lemma StepEvolves(b: Build, s: State, step: Step)
    requires Enabled(b, s, step) && WellFormed(s)
    ensures Evolves(s, Apply(b, s, step))
  {
    WritesOk(b, s, step);
    ClassesEvolve(s, ClassWrite(b, s, step));
    OwnersEvolve(s, ClassWrite(b, s, step));
    ClaimsEvolve(b, s, step);
  }

  lemma ClaimsEvolve(b: Build, s: State, step: Step)
    requires Enabled(b, s, step) && WellFormed(s)
    ensures forall c :: c in ClaimsNext(b, s, step) ==>
              (c in s.claims && s.claims[c].nodeClass == ClaimsNext(b, s, step)[c].nodeClass) || c !in s.names
  {
  }

  lemma OwnersEvolve(s: State, w: Write)
    requires WriteOk(s, w) && ClassesOk(s)
    ensures var t := Store(s, w); s.next <= t.next && forall u :: u in s.owners ==> u in t.owners && t.owners[u] == s.owners[u]
  {
    if w.Write? && w.name in s.classes { assert ClassOk(s, w.name, s.classes[w.name]); }
  }

  lemma ClassesEvolve(s: State, w: Write)
    requires WriteOk(s, w)
    ensures forall n :: n in Store(s, w).classes ==> ClassEvolves(s, n, Store(s, w).classes[n])
  {
  }

  // ---- Invariant ----

  /** The stored object of the snapshot's version, if still there, is the snapshot. */
  ghost predicate Snapshot(s: State, nc: NodeClass) {
    && nc.resourceVersion < s.next && nc.uid in s.owners && s.owners[nc.uid] == nc.name
    && forall n :: n in s.classes && s.classes[n].resourceVersion == nc.resourceVersion ==> s.classes[n] == nc
  }

  ghost predicate PcInv(s: State, pc: Pc) {
    match pc
    case CheckClaims(nc) => Snapshot(s, nc) && nc.deleting && DeletingForEver(s, nc.uid)
    case Release(nc) => Snapshot(s, nc) && nc.deleting && DeletingForEver(s, nc.uid) && Unused(s, nc.uid)
    case AddFinalizer(nc) => Snapshot(s, nc) && !nc.deleting
    case _ => true
  }

  ghost predicate Inv(s: State) {
    && WellFormed(s) && PassedOk(s)
    && (forall p :: p in s.reconciles ==> PcInv(s, s.reconciles[p]))
    && (forall u :: u in s.guarded ==> GuardedOk(s, u))
  }

  lemma DeletingCarries(s: State, t: State, uid: nat)
    requires Evolves(s, t) && DeletingForEver(s, uid) && uid < s.next
    ensures DeletingForEver(t, uid)
  {
  }

  lemma UnusedCarries(s: State, t: State, uid: nat)
    requires Evolves(s, t) && DeletingForEver(s, uid) && Unused(s, uid) && PassedOk(s) && WellFormed(s)
    ensures Unused(t, uid)
  {
  }

  lemma PcCarries(s: State, t: State, pc: Pc)
    requires Evolves(s, t) && PcInv(s, pc) && PassedOk(s) && WellFormed(s)
    ensures PcInv(t, pc)
  {
  }

  /** Nothing but a fetch leads to the positions that hold a snapshot, save for the way from the check to the release. */
  lemma {:induction false} NextClaimKind(b: Build, nc: NodeClass, todo: seq<Claim>, failed: bool, listed: seq<Claim>)
    ensures var pc := NextClaim(b, nc, todo, failed, listed); !pc.CheckClaims? && !pc.Release? && !pc.AddFinalizer?
  {
    if todo != [] && Current(b, todo[0].annotations) {
      NextClaimKind(b, nc, todo[1..], failed, listed);
    }
  }

  lemma ResumeKind(b: Build, pc: Pc, r: Response)
    requires !pc.Finished? && (pc.Restamp? ==> pc.todo != []) && Fits(Ask(b, pc), r)
    ensures var d := Resume(b, pc, r);
            && (d.CheckClaims? || d.AddFinalizer? ==> pc.Fetch? && r.Object? && d == AfterFetch(b, r.nc))
            && (d.Release? ==> pc.CheckClaims? && d.nc == pc.nc && r.Claims? && r.items == [])
  {
    match pc
    case ListForMigration(nc) => if r.Claims? { NextClaimKind(b, nc, r.items, false, r.items); }
    case Restamp(nc, todo, failed, listed) =>
      NextClaimKind(b, nc, todo[1..], failed || (r.Failure? && r.error != NotFound), listed);
    case _ =>
  }

  /** The list that releases a NodeClass was empty, so no claim of its name, launched or not, exists. */
  lemma EmptyListMeansUnused(s: State, nc: NodeClass, items: seq<Claim>)
    requires WellFormed(s) && PassedOk(s) && Snapshot(s, nc) && ListsClaims(s, nc.name, items) && items == []
    ensures Unused(s, nc.uid)
  {
  }

  /** What a fetch returns is what is stored. */
  lemma FetchedPcOk(s: State, name: string)
    requires WellFormed(s) && name in s.classes
    ensures Snapshot(s, s.classes[name]) && (s.classes[name].deleting ==> DeletingForEver(s, s.classes[name].uid))
  {
    assert ClassOk(s, name, s.classes[name]);
    OneName(s, name);
  }

  lemma OneName(s: State, name: string)
    requires WellFormed(s) && name in s.classes
    ensures forall n :: n in s.classes && s.classes[n].uid == s.classes[name].uid ==> n == name
  {
    forall n | n in s.classes && s.classes[n].uid == s.classes[name].uid ensures n == name {
      assert ClassOk(s, n, s.classes[n]) && ClassOk(s, name, s.classes[name]);
    }
  }

  lemma ServedPcOk(b: Build, s: State, step: Step)
    requires Enabled(b, s, step) && step.Serve? && Inv(s)
    ensures PcInv(s, Resume(b, s.reconciles[step.p], step.r))
  {
    var pc := s.reconciles[step.p];
    ResumeKind(b, pc, step.r);
    var d := Resume(b, pc, step.r);
    assert PcInv(s, pc);
    if d.CheckClaims? || d.AddFinalizer? {
      FetchedPcOk(s, pc.name);
    } else if d.Release? {
      EmptyListMeansUnused(s, pc.nc, step.r.items);
    }
  }

  lemma GuardedStep(b: Build, s: State, step: Step, u: nat)
    requires Enabled(b, s, step) && Inv(s) && u in Apply(b, s, step).guarded
    ensures GuardedOk(Apply(b, s, step), u)
  {
    var t := Apply(b, s, step);
    StepEvolves(b, s, step);
    if u !in s.guarded {
      var n := step.name;
      assert n in t.classes && t.classes[n].uid == u && t.classes[n].deleting && FINALIZER in t.classes[n].finalizers;
    } else {
      assert GuardedOk(s, u);
      DeletingCarries(s, t, u);
      if Unused(s, u) {
        UnusedCarries(s, t, u);
      } else {
        HeldOrReleased(b, s, step, u);
      }
    }
  }

  /** A guarded NodeClass keeps the finalizer until a release goes through, and that needs it to be unused. */
  lemma HeldOrReleased(b: Build, s: State, step: Step, u: nat)
    requires Enabled(b, s, step) && Inv(s) && Held(s, u) && DeletingForEver(s, u) && u in s.owners
    ensures Held(Apply(b, s, step), u) || Unused(Apply(b, s, step), u)
  {
    var t := Apply(b, s, step);
    var n :| n in s.classes && s.classes[n].uid == u && s.classes[n].deleting && FINALIZER in s.classes[n].finalizers;
    StepEvolves(b, s, step);
    if step.Serve? && s.reconciles[step.p].Release? && step.applied && s.reconciles[step.p].nc.name == n {
      assert PcInv(s, s.reconciles[step.p]);
      UnusedCarries(s, t, u);
    } else {
      FinalizerKept(b, s, step, n);
    }
  }

  lemma FinalizerKept(b: Build, s: State, step: Step, n: string)
    requires Enabled(b, s, step) && WellFormed(s) && n in s.classes && FINALIZER in s.classes[n].finalizers && s.classes[n].deleting
    requires !(step.Serve? && step.applied && s.reconciles[step.p].Release? && s.reconciles[step.p].nc.name == n)
    ensures var t := Apply(b, s, step);
            && n in t.classes && t.classes[n].uid == s.classes[n].uid
            && t.classes[n].deleting && FINALIZER in t.classes[n].finalizers
  {
  }

  lemma {:induction false} InvAlways(b: Build, run: seq<State>, steps: seq<Step>, k: nat)
    requires IsRun(b, run, steps) && k < |run|
    ensures Inv(run[k])
  {
    if k > 0 {
      var s, t, step := run[k - 1], run[k], steps[k - 1];
      InvAlways(b, run, steps, k - 1);
      WellFormedAlways(b, run, steps, k);
      StepEvolves(b, s, step);
      PassedStep(b, s, step);
      assert t.reconciles == ReconcilesNext(b, s, step);
      forall p | p in t.reconciles ensures PcInv(t, t.reconciles[p]) {
        if step.Serve? && p == step.p {
          ServedPcOk(b, s, step);
        } else if !(step.Start? && p == step.p) {
          assert PcInv(s, s.reconciles[p]);
        }
        if PcInv(s, t.reconciles[p]) { PcCarries(s, t, t.reconciles[p]); }
      }
      forall u | u in t.guarded ensures GuardedOk(t, u) { GuardedStep(b, s, step, u); }
    }
  }

  lemma PassedStep(b: Build, s: State, step: Step)
    requires Enabled(b, s, step) && Inv(s)
    ensures PassedOk(Apply(b, s, step))
  {
    var t := Apply(b, s, step);
    StepEvolves(b, s, step);
    forall x | x in t.passed
      ensures x.0 in t.names && x.1 in t.owners && (x.0 in t.claims ==> t.claims[x.0].nodeClass == t.owners[x.1])
    {
      if x !in s.passed { assert SeenLive(s, x.0, x.1); }
    }
  }

  /**
   * A NodeClass deleted when it had the finalizer stays, with the finalizer, for as long as a claim exists whose launch
   * saw it live.
   */
  lemma Handshake(b: Build, run: seq<State>, steps: seq<Step>, k: nat, uid: nat, claim: string)
    requires IsRun(b, run, steps) && k < |run| && uid in run[k].guarded
    requires claim in run[k].claims && (claim, uid) in run[k].passed
    ensures exists n :: n in run[k].classes && run[k].classes[n].uid == uid && FINALIZER in run[k].classes[n].finalizers
  {
    InvAlways(b, run, steps, k);
    assert GuardedOk(run[k], uid);
  }

  /** Whatever step takes the finalizer off a NodeClass, no claim launched from it exists then or later. */
  lemma RemovalMeansUnused(b: Build, run: seq<State>, steps: seq<Step>, k: nat, later: nat, n: string)
    requires IsRun(b, run, steps) && k < later < |run| && n in run[k].classes
    requires run[k].classes[n].deleting && FINALIZER in run[k].classes[n].finalizers
    requires n in run[k + 1].classes && run[k + 1].classes[n].uid == run[k].classes[n].uid ==> FINALIZER !in run[k + 1].classes[n].finalizers
    ensures Unused(run[later], run[k].classes[n].uid)
  {
    var s, step, u := run[k], steps[k], run[k].classes[n].uid;
    InvAlways(b, run, steps, k);
    if !(step.Serve? && step.applied && s.reconciles[step.p].Release? && s.reconciles[step.p].nc.name == n) {
      FinalizerKept(b, s, step, n);
    }
    assert PcInv(s, s.reconciles[step.p]);
    UnusedForEver(b, run, steps, k, later, u);
  }

  lemma {:induction false} UnusedForEver(b: Build, run: seq<State>, steps: seq<Step>, k: nat, later: nat, u: nat)
    requires IsRun(b, run, steps) && k <= later < |run|
    requires u in run[k].owners && DeletingForEver(run[k], u) && Unused(run[k], u)
    ensures u in run[later].owners && DeletingForEver(run[later], u) && Unused(run[later], u)
  {
    if k < later {
      UnusedForEver(b, run, steps, k, later - 1, u);
      InvAlways(b, run, steps, later - 1);
      StepEvolves(b, run[later - 1], steps[later - 1]);
      DeletingCarries(run[later - 1], run[later], u);
      UnusedCarries(run[later - 1], run[later], u);
    }
  }

  /** A NodeClass being deleted that has lost the finalizer, or never had it, does not get it in any later state. */
  lemma {:induction false} NeverRegained(b: Build, run: seq<State>, steps: seq<Step>, k: nat, later: nat, n: string)
    requires IsRun(b, run, steps) && k <= later < |run| && n in run[k].classes && n in run[later].classes
    requires run[k].classes[n].deleting && FINALIZER !in run[k].classes[n].finalizers
    requires run[later].classes[n].uid == run[k].classes[n].uid
    ensures run[later].classes[n].deleting && FINALIZER !in run[later].classes[n].finalizers
  {
    if k < later {
      StoredBefore(b, run, steps, k, later, n);
      NeverRegained(b, run, steps, k, later - 1, n);
      NotAddedNext(b, run, steps, later - 1, n);
    }
  }

  lemma NotAddedNext(b: Build, run: seq<State>, steps: seq<Step>, k: nat, n: string)
    requires IsRun(b, run, steps) && k < |steps| && n in run[k].classes && n in run[k + 1].classes
    requires run[k].classes[n].deleting && FINALIZER !in run[k].classes[n].finalizers
    ensures run[k + 1].classes[n].deleting && FINALIZER !in run[k + 1].classes[n].finalizers
  {
    InvAlways(b, run, steps, k);
    NotAdded(b, run[k], steps[k], n);
    WritesOk(b, run[k], steps[k]);
  }

  /** A NodeClass as old as state `k` was stored in every state since. */
  lemma StoredBefore(b: Build, run: seq<State>, steps: seq<Step>, k: nat, later: nat, n: string)
    requires IsRun(b, run, steps) && k < later < |run| && n in run[k].classes && n in run[later].classes
    requires run[later].classes[n].uid == run[k].classes[n].uid
    ensures n in run[later - 1].classes && run[later - 1].classes[n].uid == run[k].classes[n].uid
  {
    WellFormedAlways(b, run, steps, k);
    WellFormedAlways(b, run, steps, later - 1);
    OwnersGrow(b, run, steps, k, later - 1);
    assert ClassOk(run[k], n, run[k].classes[n]);
    StepEvolves(b, run[later - 1], steps[later - 1]);
    assert ClassEvolves(run[later - 1], n, run[later].classes[n]);
  }

  lemma {:induction false} OwnersGrow(b: Build, run: seq<State>, steps: seq<Step>, k: nat, later: nat)
    requires IsRun(b, run, steps) && k <= later < |run|
    ensures run[k].next <= run[later].next
  {
    if k < later {
      OwnersGrow(b, run, steps, k, later - 1);
      WellFormedAlways(b, run, steps, later - 1);
      StepEvolves(b, run[later - 1], steps[later - 1]);
    }
  }

  /** Adding the finalizer needs the very version that was read, and that was live. */
  lemma NotAdded(b: Build, s: State, step: Step, n: string)
    requires Enabled(b, s, step) && Inv(s) && n in s.classes && n in Apply(b, s, step).classes
    requires s.classes[n].deleting && FINALIZER !in s.classes[n].finalizers
    ensures FINALIZER !in Apply(b, s, step).classes[n].finalizers
  {
  }

  /**
   * A reconcile that looks for claims and is told goes on to release the NodeClass if and only if no claim of it is
   * stored; claims of other NodeClasses never block it.
   */
  lemma OthersNeverBlock(b: Build, run: seq<State>, steps: seq<Step>, k: nat, p: nat)
    requires IsRun(b, run, steps) && k < |steps| && p in run[k].reconciles && run[k].reconciles[p].CheckClaims?
    requires steps[k].Serve? && steps[k].p == p && steps[k].r.Claims?
    ensures p in run[k + 1].reconciles
    ensures var nc := run[k].reconciles[p].nc;
            run[k + 1].reconciles[p] == Release(nc) <==> forall c :: c in run[k].claims ==> run[k].claims[c].nodeClass != nc.name
  {
    var s, items := run[k], steps[k].r.items;
    assert run[k + 1].reconciles == ReconcilesNext(b, s, steps[k]);
    if items != [] {
      assert items[0] in items;
    }
  }

  lemma Passes(b: Build, s: State, c: string)
    requires Enabled(b, s, BeginCreate(c))
    ensures var t := Apply(b, s, BeginCreate(c));
            t.classes == s.classes && t.claims == s.claims && t.passed == s.passed + {(c, s.classes[s.claims[c].nodeClass].uid)}
  {
  }

  /** The other finalizers are taken off; that of the provider is not there. */
  lemma Unguards(b: Build, s: State, n: string)
    requires n in s.classes && !s.classes[n].deleting && FINALIZER !in s.classes[n].finalizers
    ensures Enabled(b, s, EditOthers(n, map[], []))
    ensures var t := Apply(b, s, EditOthers(n, map[], []));
            && t.claims == s.claims && t.passed == s.passed && t.classes.Keys == s.classes.Keys
            && t.classes[n].uid == s.classes[n].uid && t.classes[n].finalizers == []
            && forall m :: m in s.classes && m != n ==> t.classes[m] == s.classes[m]
  {
  }

  lemma GoneAtOnce(b: Build, s: State, n: string)
    requires n in s.classes && s.classes[n].finalizers == []
    ensures var t := Apply(b, s, DeleteNodeClass(n)); t.classes == s.classes - {n} && t.claims == s.claims && t.passed == s.passed
  {
  }

  /**
   * The finalizer must be there when the deletion is requested: any run that comes to a live NodeClass without it, and to
   * a claim of it, can go on so that the claim is launched and its NodeClass is gone.
   */
  lemma UnguardedIsLost(b: Build, run: seq<State>, steps: seq<Step>, n: string, claim: string)
    returns (run': seq<State>, steps': seq<Step>)
    requires IsRun(b, run, steps)
    requires var s := run[|run| - 1];
             && n in s.classes && !s.classes[n].deleting && FINALIZER !in s.classes[n].finalizers
             && claim in s.claims && s.claims[claim].nodeClass == n
    ensures IsRun(b, run', steps') && run < run'
    ensures var uid, t := run[|run| - 1].classes[n].uid, run'[|run'| - 1];
            claim in t.claims && (claim, uid) in t.passed && forall m :: m in t.classes ==> t.classes[m].uid != uid
  {
    var s := run[|run| - 1];
    WellFormedAlways(b, run, steps, |run| - 1);
    OneName(s, n);
    run', steps' := LaunchedUnguarded(b, run, steps, n, claim);
    GoneAtOnce(b, run'[|run'| - 1], n);
    run', steps' := Extend(b, run', steps', DeleteNodeClass(n));
  }

  lemma LaunchedUnguarded(b: Build, run: seq<State>, steps: seq<Step>, n: string, claim: string)
    returns (run': seq<State>, steps': seq<Step>)
    requires IsRun(b, run, steps)
    requires var s := run[|run| - 1];
             && n in s.classes && !s.classes[n].deleting && FINALIZER !in s.classes[n].finalizers
             && claim in s.claims && s.claims[claim].nodeClass == n
    ensures IsRun(b, run', steps') && run < run'
    ensures var s, t := run[|run| - 1], run'[|run'| - 1];
            && t.claims == s.claims && (claim, s.classes[n].uid) in t.passed && t.classes.Keys == s.classes.Keys
            && t.classes[n].finalizers == [] && forall m :: m in s.classes ==> t.classes[m].uid == s.classes[m].uid
  {
    var s := run[|run| - 1];
    Passes(b, s, claim);
    run', steps' := Extend(b, run, steps, BeginCreate(claim));
    Unguards(b, run'[|run'| - 1], n);
    run', steps' := Extend(b, run', steps', EditOthers(n, map[], []));
  }
}
