/** The orphan cleaner: deletes instances that outlived their NodeClaim. */
module Orphan {
  import opened Prelude
  import opened Teardown
  import Tags

  const GRACE: Time := 20 * MINUTE
  const SCAN_INTERVAL: Time := 5 * MINUTE

  datatype Outcome = RequeueAfter(d: Time) | Failed

  datatype ClaimRead = Found | Missing | Unreadable

  /** Where one reconcile stands; `todo[0]` is the instance under examination. */
  datatype Loop =
    | Listing
    | Aging(todo: seq<Instance>)
    | Checking(todo: seq<Instance>)
    | Removing(todo: seq<Instance>)
    | Done(outcome: Outcome)

  /** Skips the instances that are not this installation's or whose creation date does not parse. */
  function Scan(cluster: string, todo: seq<Instance>): (l: Loop)
    ensures l == Done(RequeueAfter(SCAN_INTERVAL)) || l.Aging?
    ensures l.Aging? ==> l.todo != [] && Candidate(cluster, l.todo[0])
    ensures l.Aging? ==> forall i :: i in l.todo ==> i in todo
  {
    if todo == [] then Done(RequeueAfter(SCAN_INTERVAL))
    else if Candidate(cluster, todo[0]) then Aging(todo)
    else Scan(cluster, todo[1..])
  }

  /** Just the instances before the first candidate are skipped. */
  lemma {:induction false} ScanSkips(cluster: string, todo: seq<Instance>) returns (k: nat)
    ensures k <= |todo| && forall j :: 0 <= j < k ==> !Candidate(cluster, todo[j])
    ensures k < |todo| ==> Candidate(cluster, todo[k])
    ensures Scan(cluster, todo) == if k == |todo| then Done(RequeueAfter(SCAN_INTERVAL)) else Aging(todo[k..])
  {
    k := 0;
    if todo != [] && !Candidate(cluster, todo[0]) {
      k := ScanSkips(cluster, todo[1..]);
      k := k + 1;
    }
  }

  predicate Candidate(cluster: string, i: Instance) {
    Tags.NodeClaimName(i.tags, cluster).Some? && i.dateCreated.Some?
  }

  function AfterList(cluster: string, answer: Result<seq<Instance>, ApiError>): Loop {
    match answer
    case Err(_) => Done(Failed)
    case Ok(instances) => Scan(cluster, instances)
  }

  function AfterClock(cluster: string, l: Loop, now: Time): Loop
    requires l.Aging? && l.todo != [] && Candidate(cluster, l.todo[0])
  {
    if now - l.todo[0].dateCreated.value < GRACE then Scan(cluster, l.todo[1..]) else Checking(l.todo)
  }

  function AfterRead(cluster: string, l: Loop, answer: ClaimRead): Loop
    requires l.Checking? && l.todo != []
  {
    match answer
    case Found => Scan(cluster, l.todo[1..])
    case Missing => Removing(l.todo)
    case Unreadable => Done(Failed)
  }

  function AfterRemove(cluster: string, l: Loop, answer: Option<ApiError>): Loop
    requires l.Removing? && l.todo != []
  {
    if answer == None || NotFound(answer.value) then Scan(cluster, l.todo[1..]) else Done(Failed)
  }

  /** Vultr, the clock and the API server as seen by one reconcile; see `Teardown.Session`. */
  class Session {
    const cluster: string
    ghost var loop: Loop

    constructor (cluster: string)
      ensures this.cluster == cluster && loop == Listing
    {
      this.cluster := cluster;
      loop := Listing;
    }

    method ListInstances() returns (answer: Result<seq<Instance>, ApiError>)
      requires loop == Listing
      modifies this
      ensures loop == AfterList(cluster, answer)
    {
      answer := *;
      loop := AfterList(cluster, answer);
    }

    method Now() returns (now: Time)
      requires loop.Aging? && loop.todo != [] && Candidate(cluster, loop.todo[0])
      modifies this
      ensures loop == AfterClock(cluster, old(loop), now)
    {
      now := *;
      loop := AfterClock(cluster, loop, now);
    }

    method GetClaim(name: string) returns (answer: ClaimRead)
      requires loop.Checking? && loop.todo != [] && Tags.NodeClaimName(loop.todo[0].tags, cluster) == Some(name)
      modifies this
      ensures loop == AfterRead(cluster, old(loop), answer)
    {
      answer := *;
      loop := AfterRead(cluster, loop, answer);
    }

    method DeleteInstance(id: string) returns (answer: Option<ApiError>)
      requires loop.Removing? && loop.todo != [] && loop.todo[0].id == id
      modifies this
      ensures loop == AfterRemove(cluster, old(loop), answer)
    {
      answer := *;
      loop := AfterRemove(cluster, loop, answer);
    }
  }

  method Reconcile(world: Session) returns (outcome: Outcome)
    requires world.loop == Listing
    modifies world
    ensures world.loop == Done(outcome)
  {
    var listed := world.ListInstances();
    if listed.Err? {
      return Failed;
    }
    var instances := listed.value;
    for k := 0 to |instances|
      invariant world.loop == Scan(world.cluster, instances[k..])
    {
      var instance := instances[k];
      assert instances[k..][1..] == instances[k + 1..];
      var name := Tags.NodeClaimName(instance.tags, world.cluster);
      if name == None {
        continue;
      }
      if instance.dateCreated == None {
        continue;
      }
      var now := world.Now();
      if now - instance.dateCreated.value < GRACE {
        continue;
      }
      var claim := world.GetClaim(name.value);
      if claim == Found {
        continue;
      }
      if claim == Unreadable {
        return Failed;
      }
      var err := world.DeleteInstance(instance.id);
      if err.Some? {
        if NotFound(err.value) {
          continue;
        }
        return Failed;
      }
    }
    return RequeueAfter(SCAN_INTERVAL);
  }

  // ---- One whole pass ----

  /** What clock, API server and Vultr would answer about each instance. */
  datatype Answers = Answers(now: Instance -> Time, read: Instance -> ClaimRead, remove: Instance -> Option<ApiError>)

  /** An instance of the installation's own, dated twenty minutes ago or earlier. */
  predicate Aged(cluster: string, w: Answers, i: Instance) {
    Tags.NodeClaimName(i.tags, cluster).Some? && i.dateCreated.Some? && w.now(i) - i.dateCreated.value >= 20 * MINUTE
  }

  /** The instances that should go, in the order they were listed. */
  function Orphans(cluster: string, w: Answers, instances: seq<Instance>): seq<Instance> {
    if instances == [] then []
    else (if Aged(cluster, w, instances[0]) && w.read(instances[0]) == Missing then [instances[0]] else []) + Orphans(cluster, w, instances[1..])
  }

  /** No claim of an aged instance is unreadable, and no removal of an orphan fails but for want of the instance. */
  predicate Smooth(cluster: string, w: Answers, instances: seq<Instance>) {
    forall i :: i in instances && Aged(cluster, w, i) ==>
      && w.read(i) != Unreadable
      && (w.read(i) == Missing && w.remove(i).Some? ==> NotFound(w.remove(i).value))
  }

  /** The outcome of a pass under these answers, and the instances it asks Vultr to delete. */
  function Sweep(cluster: string, w: Answers, l: Loop): (Outcome, seq<Instance>)
    requires l != Listing
    requires l.Aging? || l.Checking? || l.Removing? ==> l.todo != [] && Candidate(cluster, l.todo[0])
    decreases if l.Done? then 0 else |l.todo|, if l.Aging? then 2 else if l.Checking? then 1 else 0
  {
    match l
    case Done(o) => (o, [])
    case Aging(todo) =>
      ScanShrinks(cluster, todo[1..]);
      Sweep(cluster, w, AfterClock(cluster, l, w.now(todo[0])))
    case Checking(todo) =>
      ScanShrinks(cluster, todo[1..]);
      Sweep(cluster, w, AfterRead(cluster, l, w.read(todo[0])))
    case Removing(todo) =>
      ScanShrinks(cluster, todo[1..]);
      var (o, sent) := Sweep(cluster, w, AfterRemove(cluster, l, w.remove(todo[0])));
      (o, [todo[0]] + sent)
  }

  lemma {:induction false} ScanShrinks(cluster: string, todo: seq<Instance>)
    ensures Scan(cluster, todo).Aging? ==> |Scan(cluster, todo).todo| <= |todo|
  {
    if todo != [] && !Candidate(cluster, todo[0]) {
      ScanShrinks(cluster, todo[1..]);
    }
  }

  /** What becomes of the first instance of a pass. */
  lemma SweepFirst(cluster: string, w: Answers, todo: seq<Instance>)
    requires todo != [] && Candidate(cluster, todo[0])
    ensures Sweep(cluster, w, Aging(todo)) ==
            var i := todo[0];
            var rest := Sweep(cluster, w, Scan(cluster, todo[1..]));
            if !Aged(cluster, w, i) || w.read(i) == Found then rest
            else if w.read(i) == Unreadable then (Failed, [])
            else if w.remove(i).Some? && !NotFound(w.remove(i).value) then (Failed, [i])
            else (rest.0, [i] + rest.1)
  {
    var i, rest := todo[0], Scan(cluster, todo[1..]);
    ScanShrinks(cluster, todo[1..]);
    if Aged(cluster, w, i) {
      assert Sweep(cluster, w, Aging(todo)) == Sweep(cluster, w, Checking(todo));
      if w.read(i) == Missing {
        assert Sweep(cluster, w, Checking(todo)) == Sweep(cluster, w, Removing(todo));
        var next := AfterRemove(cluster, Removing(todo), w.remove(i));
        assert Sweep(cluster, w, Removing(todo)) == (Sweep(cluster, w, next).0, [i] + Sweep(cluster, w, next).1);
        assert next == Done(Failed) ==> Sweep(cluster, w, next).1 == [] && [i] + [] == [i];
      } else {
        var next := AfterRead(cluster, Checking(todo), w.read(i));
        assert Sweep(cluster, w, Checking(todo)) == Sweep(cluster, w, next);
      }
    }
  }

  /**
   * A pass deletes exactly the orphans, in order, if and only if nothing fails, and is due again five minutes later;
   * otherwise it fails, having asked for the deletion of the first few of them and of nothing else. Without a list it
   * fails at once.
   */
  lemma PassIsExact(cluster: string, w: Answers, listing: Result<seq<Instance>, ApiError>)
    ensures listing.Err? ==> Sweep(cluster, w, AfterList(cluster, listing)) == (Failed, [])
    ensures listing.Ok? ==>
              var (o, sent) := Sweep(cluster, w, AfterList(cluster, listing));
              && sent <= Orphans(cluster, w, listing.value)
              && (o == RequeueAfter(5 * MINUTE) <==> Smooth(cluster, w, listing.value))
              && (o == Failed <==> !Smooth(cluster, w, listing.value))
              && (o != Failed ==> sent == Orphans(cluster, w, listing.value))
  {
    if listing.Ok? { SweepIsExact(cluster, w, listing.value); }
  }

  lemma {:induction false} SweepIsExact(cluster: string, w: Answers, instances: seq<Instance>)
    ensures var (o, sent) := Sweep(cluster, w, Scan(cluster, instances));
            && sent <= Orphans(cluster, w, instances)
            && (o == RequeueAfter(5 * MINUTE) <==> Smooth(cluster, w, instances))
            && (o == Failed <==> !Smooth(cluster, w, instances))
            && (o != Failed ==> sent == Orphans(cluster, w, instances))
  {
    if instances != [] {
      SweepIsExact(cluster, w, instances[1..]);
      SmoothFirst(cluster, w, instances);
      if Candidate(cluster, instances[0]) {
        assert Scan(cluster, instances) == Aging(instances);
        SweepFirst(cluster, w, instances);
        PrefixCons(instances[0], Sweep(cluster, w, Scan(cluster, instances[1..])).1, Orphans(cluster, w, instances[1..]));
      } else {
        assert Orphans(cluster, w, instances) == Orphans(cluster, w, instances[1..]);
      }
    }
  }

  lemma PrefixCons(i: Instance, a: seq<Instance>, b: seq<Instance>)
    requires a <= b
    ensures [i] + a <= [i] + b && [i] <= [i] + b && [] + b == b
  {
  }

  lemma SmoothFirst(cluster: string, w: Answers, instances: seq<Instance>)
    requires instances != []
    ensures var i := instances[0];
            Smooth(cluster, w, instances) <==>
              && Smooth(cluster, w, instances[1..])
              && (Aged(cluster, w, i) ==>
                    w.read(i) != Unreadable && (w.read(i) == Missing && w.remove(i).Some? ==> NotFound(w.remove(i).value)))
  {
    assert forall x :: x in instances <==> x == instances[0] || x in instances[1..];
  }
}
