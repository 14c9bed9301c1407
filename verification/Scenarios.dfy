/** Runs of one NodeClass, built step by step: what the counterexamples about migrations start with. */
module Scenarios {
  import opened Prelude
  import opened NodeClass
  import opened NodeClassRuns

  /** A run grown by one step. */
  lemma Extend(b: Build, run: seq<State>, steps: seq<Step>, step: Step) returns (run': seq<State>, steps': seq<Step>)
    requires IsRun(b, run, steps) && Enabled(b, run[|run| - 1], step)
    ensures IsRun(b, run', steps') && |run'| == |run| + 1 && run' == run + [Apply(b, run[|run| - 1], step)]
  {
    run', steps' := run + [Apply(b, run[|run| - 1], step)], steps + [step];
  }

  /** A store with one NodeClass and its claims, at rest. */
  ghost predicate AtRest(s: State, nc: NodeClass, claims: map<string, Claim>) {
    && WellFormed(s) && s.classes == map[nc.name := nc] && s.claims == claims
    && s.reconciles == map[] && s.launches == map[] && s.passed == {} && s.guarded == {} && s.listedAt == map[]
  }

  predicate Migrating(b: Build, nc: NodeClass) {
    !nc.deleting && FINALIZER in nc.finalizers && !Current(b, nc.annotations)
  }

  /** Reconcile `p` fetches a NodeClass off the current version. */
  lemma Fetches(b: Build, run: seq<State>, steps: seq<Step>, nc: NodeClass, p: nat) returns (run': seq<State>, steps': seq<Step>)
    requires IsRun(b, run, steps) && Migrating(b, nc)
    requires nc.name in run[|run| - 1].classes && run[|run| - 1].classes[nc.name] == nc
    ensures IsRun(b, run', steps') && |run'| > 0 && run'[0] == run[0]
    ensures var s, t := run[|run| - 1], run'[|run'| - 1];
            t.classes == s.classes && t.claims == s.claims && t.names == s.names && t.next == s.next
            && t.reconciles == s.reconciles[p := ListForMigration(nc)]
  {
    run', steps' := Extend(b, run, steps, Start(p, nc.name));
    assert run'[|run'| - 1].reconciles == run[|run| - 1].reconciles[p := Fetch(nc.name)];
    var begun := run'[|run'| - 1];
    run', steps' := Extend(b, run', steps', Serve(p, Object(nc), true));
    assert run'[|run'| - 1].reconciles == ReconcilesNext(b, begun, Serve(p, Object(nc), true));
    assert begun.reconciles[p := ListForMigration(nc)] == run[|run| - 1].reconciles[p := ListForMigration(nc)];
  }

  /** And lists its one claim, which is off the current version too. */
  lemma ListsOne(b: Build, run: seq<State>, steps: seq<Step>, nc: NodeClass, p: nat, c: Claim) returns (run': seq<State>, steps': seq<Step>)
    requires IsRun(b, run, steps)
    requires var s := run[|run| - 1]; s.claims == map[c.name := c] && p in s.reconciles && s.reconciles[p] == ListForMigration(nc)
    requires c.nodeClass == nc.name && !Current(b, c.annotations)
    ensures IsRun(b, run', steps') && |run'| > 0 && run'[0] == run[0]
    ensures var s, t := run[|run| - 1], run'[|run'| - 1];
            t.classes == s.classes && t.claims == s.claims && t.names == s.names && t.next == s.next
            && t.reconciles == s.reconciles[p := Restamp(nc, [c], false, [c])]
  {
    var s, step := run[|run| - 1], Serve(p, Claims([c]), true);
    run', steps' := Extend(b, run, steps, step);
    assert run'[|run'| - 1].reconciles == ReconcilesNext(b, s, step);
  }
}
