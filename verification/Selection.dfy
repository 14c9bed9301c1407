/** What the scheduler is shown, and which plan a launch picks. */
module Selection {
  import opened Prelude
  import opened InstanceTypes
  import Cache
  import Strings

  /** An instance type with its single offering. */
  datatype InstanceType = InstanceType(
    name: string, region: string, cpu: int, memory: int, pods: int, storage: Option<int>, evictionMemory: int,
    price: real, available: bool)

  predicate Sellable(p: Plan) {
    p.id != "" && p.vcpus > 0 && p.ram > 0 && p.monthlyCost.Some? && p.monthlyCost.value > 0.0
  }

  function Describe(p: Plan, region: string, available: bool): InstanceType
    requires Sellable(p)
  {
    InstanceType(
      p.id, region, p.vcpus, p.ram * 1024 * 1024, MAX_PODS,
      if p.disk > 0 then Some(p.disk * 1000 * 1000 * 1000) else None,
      ((p.ram * 1024 * 1024) as real * 0.075).Floor,
      p.monthlyCost.value / 730.0, available)
  }

  /** One entry per sellable plan, in ascending order of plan ID, whether available or not. */
  ghost predicate IsListing(l: seq<InstanceType>, plans: map<string, Plan>, available: set<string>, region: string, configured: string) {
    && (forall j, k :: 0 <= j < k < |l| ==> Strings.Less(l[j].name, l[k].name))
    && (forall k :: 0 <= k < |l| ==> Offered(plans, configured, l[k].name) && l[k] == Describe(plans[l[k].name], region, l[k].name in available))
    && (forall id :: Offered(plans, configured, id) ==> exists k :: 0 <= k < |l| && l[k].name == id)
  }

  predicate Offered(plans: map<string, Plan>, configured: string, id: string) {
    id in plans && (configured == "" || id == configured) && Sellable(plans[id])
  }

  /** The entries of the sellable plans among `ids`, in the order of `ids`. */
  function Entries(ids: seq<string>, plans: map<string, Plan>, available: set<string>, region: string): seq<InstanceType>
    requires forall id :: id in ids ==> id in plans
  {
    if ids == [] then []
    else
      var id := ids[|ids| - 1];
      Entries(ids[..|ids| - 1], plans, available, region)
      + if Sellable(plans[id]) then [Describe(plans[id], region, id in available)] else []
  }

  /** The listing of the sellable plans among `ids`. */
  ghost predicate Lists(l: seq<InstanceType>, ids: seq<string>, plans: map<string, Plan>, available: set<string>, region: string)
    requires forall id :: id in ids ==> id in plans
  {
    && (forall j, k :: 0 <= j < k < |l| ==> Strings.Less(l[j].name, l[k].name))
    && (forall k :: 0 <= k < |l| ==> EntryOf(l[k], ids, plans, available, region))
    && (forall id :: id in ids && Sellable(plans[id]) ==> exists k :: 0 <= k < |l| && l[k].name == id)
  }

  predicate EntryOf(t: InstanceType, ids: seq<string>, plans: map<string, Plan>, available: set<string>, region: string)
    requires forall id :: id in ids ==> id in plans
  {
    t.name in ids && Sellable(plans[t.name]) && t == Describe(plans[t.name], region, t.name in available)
  }

  lemma Appended(m: seq<InstanceType>, ids: seq<string>, last: string, plans: map<string, Plan>, available: set<string>, region: string)
    requires Keyed(plans) && (forall id :: id in ids + [last] ==> id in plans) && (forall id :: id in ids ==> id in plans)
    requires Lists(m, ids, plans, available, region) && Sellable(plans[last])
    requires forall k :: 0 <= k < |ids| ==> Strings.Less(ids[k], last)
    ensures Lists(m + [Describe(plans[last], region, last in available)], ids + [last], plans, available, region)
  {
    var l := m + [Describe(plans[last], region, last in available)];
    forall k | 0 <= k < |m| ensures EntryOf(l[k], ids + [last], plans, available, region) && Strings.Less(l[k].name, last) {
      assert EntryOf(m[k], ids, plans, available, region);
    }
    forall id | id in ids + [last] && Sellable(plans[id]) ensures exists k :: 0 <= k < |l| && l[k].name == id {
      if id == last {
        assert l[|m|].name == id;
      } else {
        var k :| 0 <= k < |m| && m[k].name == id;
        assert l[k].name == id;
      }
    }
  }

  lemma {:induction false} EntriesAreListing(ids: seq<string>, plans: map<string, Plan>, available: set<string>, region: string)
    requires Keyed(plans) && Strings.Ascending(ids) && forall id :: id in ids ==> id in plans
    ensures Lists(Entries(ids, plans, available, region), ids, plans, available, region)
  {
    if ids != [] {
      var init, last := ids[..|ids| - 1], ids[|ids| - 1];
      EntriesAreListing(init, plans, available, region);
      assert ids == init + [last];
      if Sellable(plans[last]) {
        Appended(Entries(init, plans, available, region), init, last, plans, available, region);
      } else {
        assert Entries(ids, plans, available, region) == Entries(init, plans, available, region);
        forall k | 0 <= k < |Entries(ids, plans, available, region)|
          ensures EntryOf(Entries(ids, plans, available, region)[k], ids, plans, available, region)
        {
          assert EntryOf(Entries(init, plans, available, region)[k], init, plans, available, region);
        }
      }
    }
  }

  method List(plans: map<string, Plan>, available: set<string>, region: string, configured: string) returns (l: seq<InstanceType>)
    requires Keyed(plans)
    ensures IsListing(l, plans, available, region, configured)
  {
    var ids: seq<string> := [];
    var left := plans.Keys;
    while left != {}
      invariant left <= plans.Keys
      invariant forall id :: id in ids <==> id in plans && id !in left && (configured == "" || id == configured)
      decreases |left|
    {
      var id :| id in left;
      if configured == "" || id == configured {
        ids := ids + [id];
      }
      left := left - {id};
    }
    ids := Strings.Sorted(ids);
    l := [];
    for k := 0 to |ids|
      invariant l == Entries(ids[..k], plans, available, region)
    {
      assert ids[k] in ids && ids[..k + 1][..k] == ids[..k];
      var plan := plans[ids[k]];
      if plan.id == "" || plan.vcpus <= 0 || plan.ram <= 0 || plan.monthlyCost == None || plan.monthlyCost.value <= 0.0 {
        continue;
      }
      l := l + [Describe(plan, region, plan.id in available)];
    }
    assert ids[..|ids|] == ids;
    EntriesAreListing(ids, plans, available, region);
    ListsAll(l, ids, plans, available, region, configured);
  }

  lemma ListsAll(l: seq<InstanceType>, ids: seq<string>, plans: map<string, Plan>, available: set<string>, region: string, configured: string)
    requires forall id :: id in ids <==> id in plans && (configured == "" || id == configured)
    requires Lists(l, ids, plans, available, region)
    ensures IsListing(l, plans, available, region, configured)
  {
  }

  /** Losing or regaining capacity changes nothing of a listing but which offerings are available. */
  lemma {:induction false} StableUniverse(a: seq<InstanceType>, b: seq<InstanceType>, plans: map<string, Plan>,
                                          before: set<string>, after: set<string>, region: string, configured: string)
    requires IsListing(a, plans, before, region, configured) && IsListing(b, plans, after, region, configured)
    ensures |a| == |b|
    ensures forall k :: 0 <= k < |a| ==> a[k].(available := a[k].name in after) == b[k]
  {
    var namesA := seq(|a|, k requires 0 <= k < |a| => a[k].name);
    var namesB := seq(|b|, k requires 0 <= k < |b| => b[k].name);
    forall id ensures id in namesA <==> id in namesB {
      SameNames(a, namesA, plans, before, region, configured, id);
      SameNames(b, namesB, plans, after, region, configured, id);
    }
    Strings.AscendingUnique(namesA, namesB);
    forall k | 0 <= k < |a| ensures a[k].(available := a[k].name in after) == b[k] {
      assert namesA[k] == namesB[k];
    }
  }

  lemma SameNames(l: seq<InstanceType>, names: seq<string>, plans: map<string, Plan>, available: set<string>, region: string,
                  configured: string, id: string)
    requires IsListing(l, plans, available, region, configured)
    requires |names| == |l| && forall k :: 0 <= k < |l| ==> names[k] == l[k].name
    ensures id in names <==> Offered(plans, configured, id)
  {
  }

  /** Listed is exactly what has an ID, processors, memory and a price, and is the configured plan if there is one. */
  lemma ListedExactly(l: seq<InstanceType>, plans: map<string, Plan>, available: set<string>, region: string, configured: string, id: string)
    requires Keyed(plans) && IsListing(l, plans, available, region, configured)
    ensures (exists k :: 0 <= k < |l| && l[k].name == id) <==>
              && id in plans && (configured == "" || id == configured)
              && plans[id].vcpus > 0 && plans[id].ram > 0 && plans[id].monthlyCost.Some? && plans[id].monthlyCost.value > 0.0
  {
    if k :| 0 <= k < |l| && l[k].name == id {
      assert Offered(plans, configured, l[k].name);
    }
    if Offered(plans, configured, id) {
      var k :| 0 <= k < |l| && l[k].name == id;
    }
  }

  /** What an entry says of its plan: memory in MiB, disk in GB, the month at 730 hours, 7.5 % of the memory held back. */
  lemma EntryExactly(l: seq<InstanceType>, plans: map<string, Plan>, available: set<string>, region: string, configured: string, k: nat)
    requires Keyed(plans) && IsListing(l, plans, available, region, configured) && k < |l|
    ensures l[k].name in plans
    ensures var t, p := l[k], plans[l[k].name];
            && t.region == region && t.cpu == p.vcpus && t.memory == p.ram * 1_048_576 && t.pods == 110
            && t.storage == (if p.disk > 0 then Some(p.disk * 1_000_000_000) else None)
            && (t.evictionMemory as real) * 40.0 <= (t.memory as real) * 3.0 < (t.evictionMemory as real + 1.0) * 40.0
            && p.monthlyCost.Some? && t.price * 730.0 == p.monthlyCost.value
            && (t.available <==> t.name in available)
  {
    assert Offered(plans, configured, l[k].name) && l[k] == Describe(plans[l[k].name], region, l[k].name in available);
  }

  datatype SelectError =
    | PlanLookupFailed(cause: Cache.FetchError)
    | InvalidRegion(cause: Cache.FetchError)
    | CapacityLookupFailed(cause: Cache.FetchError)
    | InvalidPlan
    | InvalidInstanceConfiguration
    | InsufficientCapacity

  predicate Eligible(plans: map<string, Plan>, available: set<string>, matches: string -> bool, id: string) {
    id in plans && id in available && matches(id) && Sellable(plans[id])
  }

  predicate Preferred(p: Plan, q: Plan)
    requires Sellable(p) && Sellable(q)
  {
    p.monthlyCost.value < q.monthlyCost.value || (p.monthlyCost.value == q.monthlyCost.value && Strings.Less(p.id, q.id))
  }

  lemma PreferredTransitive(p: Plan, q: Plan, r: Plan)
    requires Sellable(p) && Sellable(q) && Sellable(r) && Preferred(p, q) && Preferred(q, r)
    ensures Preferred(p, r)
  {
    if p.monthlyCost == q.monthlyCost == r.monthlyCost {
      Strings.LessTransitive(p.id, q.id, r.id);
    }
  }

  /** The choice among the eligible plans: the one preferred to all others, or insufficient capacity when there is none. */
  ghost predicate IsChoice(r: Result<Plan, SelectError>, plans: map<string, Plan>, available: set<string>, matches: string -> bool) {
    match r
    case Ok(p) =>
      && Eligible(plans, available, matches, p.id) && p == plans[p.id]
      && forall id :: Eligible(plans, available, matches, id) && id != p.id ==> Preferred(p, plans[id])
    case Err(e) => e == InsufficientCapacity && forall id :: !Eligible(plans, available, matches, id)
  }

  /** A plan fixed by the NodeClass is taken unless it is unknown, incompatible or unavailable, in this order. */
  function FixedChoice(plans: map<string, Plan>, available: set<string>, matches: string -> bool, configured: string): Result<Plan, SelectError> {
    if configured !in plans then Err(InvalidPlan)
    else if !matches(configured) then Err(InvalidInstanceConfiguration)
    else if configured !in available then Err(InsufficientCapacity)
    else Ok(plans[configured])
  }

  /** The plan can be launched: known, available, compatible, with processors, memory and a price. */
  predicate Qualifies(plans: map<string, Plan>, available: set<string>, matches: string -> bool, id: string) {
    && id in plans && id in available && matches(id)
    && plans[id].vcpus > 0 && plans[id].ram > 0 && plans[id].monthlyCost.Some? && plans[id].monthlyCost.value > 0.0
  }

  /** Without a fixed plan: the cheapest that qualifies, of the cheapest the one whose ID is the least byte by byte; or none. */
  lemma ChoiceExactly(r: Result<Plan, SelectError>, plans: map<string, Plan>, available: set<string>, matches: string -> bool)
    requires Keyed(plans) && IsChoice(r, plans, available, matches)
    ensures r.Err? ==> r.error == InsufficientCapacity && forall id :: !Qualifies(plans, available, matches, id)
    ensures r.Ok? ==> Qualifies(plans, available, matches, r.value.id) && plans[r.value.id] == r.value
    ensures r.Ok? ==> forall id :: Qualifies(plans, available, matches, id) && id != r.value.id ==>
              || r.value.monthlyCost.value < plans[id].monthlyCost.value
              || (r.value.monthlyCost == plans[id].monthlyCost && exists k :: Strings.FirstSmaller(r.value.id, id, k))
  {
    forall id ensures Qualifies(plans, available, matches, id) <==> Eligible(plans, available, matches, id) {}
    if r.Ok? {
      forall id | Qualifies(plans, available, matches, id) && id != r.value.id
        ensures || r.value.monthlyCost.value < plans[id].monthlyCost.value
                || (r.value.monthlyCost == plans[id].monthlyCost && exists k :: Strings.FirstSmaller(r.value.id, id, k))
      {
        assert Preferred(r.value, plans[id]);
        Strings.LessExactly(r.value.id, id);
      }
    }
  }

  /** With one: it, exactly if it is known, compatible and available; otherwise the first of these that fails says why. */
  lemma FixedExactly(plans: map<string, Plan>, available: set<string>, matches: string -> bool, id: string)
    ensures var r := FixedChoice(plans, available, matches, id);
            && (r.Ok? <==> id in plans && matches(id) && id in available)
            && (r.Ok? ==> r.value == plans[id])
            && (r == Err(InvalidPlan) <==> id !in plans)
            && (r == Err(InvalidInstanceConfiguration) <==> id in plans && !matches(id))
            && (r == Err(InsufficientCapacity) <==> id in plans && matches(id) && id !in available)
  {
  }

  /** `selectPlan` once catalogue and availability are known; the catalogue is a map, iterated in any order. */
  method Select(plans: map<string, Plan>, available: set<string>, matches: string -> bool, configured: string)
    returns (r: Result<Plan, SelectError>)
    requires Keyed(plans)
    ensures configured == "" ==> IsChoice(r, plans, available, matches)
    ensures configured != "" ==> r == FixedChoice(plans, available, matches, configured)
  {
    if configured != "" {
      if configured !in plans {
        return Err(InvalidPlan);
      }
      if !matches(configured) {
        return Err(InvalidInstanceConfiguration);
      }
      if configured !in available {
        return Err(InsufficientCapacity);
      }
      return Ok(plans[configured]);
    }
    var selected: Plan := Plan("", 0, 0, 0, None);
    var found := false;
    var left := plans.Keys;
    while left != {}
      invariant left <= plans.Keys
      invariant found ==> selected.id !in left && Eligible(plans, available, matches, selected.id) && selected == plans[selected.id]
      invariant found ==> forall id :: id !in left && Eligible(plans, available, matches, id) && id != selected.id ==> Preferred(selected, plans[id])
      invariant !found ==> forall id :: id !in left ==> !Eligible(plans, available, matches, id)
      decreases |left|
    {
      var id :| id in left;
      var plan := plans[id];
      left := left - {id};
      if id !in available || !matches(id) || plan.vcpus <= 0 || plan.ram <= 0 || plan.monthlyCost == None || plan.monthlyCost.value <= 0.0 {
        continue;
      }
      if !found || plan.monthlyCost.value < selected.monthlyCost.value
         || (plan.monthlyCost.value == selected.monthlyCost.value && Strings.Less(plan.id, selected.id)) {
        if found {
          forall other | other !in left && Eligible(plans, available, matches, other) && other != id
            ensures Preferred(plan, plans[other])
          {
            if other != selected.id { PreferredTransitive(plan, selected, plans[other]); }
          }
        }
        selected, found := plan, true;
      } else {
        Strings.LessTotal(plan.id, selected.id);
      }
    }
    if !found {
      return Err(InsufficientCapacity);
    }
    return Ok(selected);
  }

  /** What `selectPlan` answers, from the answers it got for the catalogue and for the region. */
  ghost predicate Selected(r: Result<Plan, SelectError>, catalogue: Cache.Caller<map<string, Plan>>,
                           regional: Cache.Caller<map<string, ()>>, region: string, matches: string -> bool, configured: string)
  {
    Cache.Answered(catalogue) &&
    match Cache.Answer(catalogue)
    case Err(e) => r == Err(PlanLookupFailed(e))
    case Ok(plans) =>
      Keyed(plans) && Cache.Answered(regional) && regional.key == region &&
      match Cache.Answer(regional)
      case Err(e) => r == Err(if e == Cache.Api(404) then InvalidRegion(e) else CapacityLookupFailed(e))
      case Ok(available) =>
        if configured == "" then IsChoice(r, plans, available.Keys, matches)
        else r == FixedChoice(plans, available.Keys, matches, configured)
  }

  /** A plan selected is known and available, by what the caches answered, and compatible; and the fixed one, if one is. */
  lemma SelectedFits(p: Plan, catalogue: Cache.Caller<map<string, Plan>>, regional: Cache.Caller<map<string, ()>>,
                     region: string, matches: string -> bool, configured: string)
    requires Selected(Ok(p), catalogue, regional, region, matches, configured)
    ensures Cache.Answered(catalogue) && Cache.Answered(regional) && regional.key == region
    ensures var plans, available := Cache.Answer(catalogue), Cache.Answer(regional);
            plans.Ok? && available.Ok? && p.id in plans.value && plans.value[p.id] == p && p.id in available.value
            && matches(p.id) && (configured in ["", p.id])
  {
  }

  /** `selectPlan` as a whole: both lookups go through the caches, and a region Vultr does not know is told apart. */
  method SelectPlan(provider: Provider, catalogue: CatalogueCall, regional: RegionCall, region: string,
                    matches: string -> bool, configured: string) returns (r: Result<Plan, SelectError>)
    requires provider.Valid()
    requires !catalogue.entered && !regional.entered
    requires catalogue.caller == Cache.Called("") && regional.caller == Cache.Called("")
    modifies provider, catalogue, regional
    ensures provider.Valid()
    ensures Selected(r, catalogue.caller, regional.caller, region, matches, configured)
  {
    catalogue.Enter(provider);
    var plans := provider.Plans(catalogue);
    if plans.Err? {
      return Err(PlanLookupFailed(plans.error));
    }
    regional.Enter(provider, region);
    var available := provider.AvailablePlans(regional, region);
    if available.Err? {
      if available.error == Cache.Api(404) {
        return Err(InvalidRegion(available.error));
      }
      return Err(CapacityLookupFailed(available.error));
    }
    r := Select(plans.value.entries, available.value.entries.Keys, matches, configured);
  }

  /** `list` as a whole, from the same two answers. */
  method ListForPlan(provider: Provider, catalogue: CatalogueCall, regional: RegionCall, region: string, configured: string)
    returns (r: Result<seq<InstanceType>, Cache.FetchError>)
    requires provider.Valid()
    requires !catalogue.entered && !regional.entered
    requires catalogue.caller == Cache.Called("") && regional.caller == Cache.Called("")
    modifies provider, catalogue, regional
    ensures provider.Valid() && Cache.Answered(catalogue.caller)
    ensures match Cache.Answer(catalogue.caller)
            case Err(e) => r == Err(e)
            case Ok(plans) =>
              Cache.Answered(regional.caller) && regional.caller.key == region &&
              match Cache.Answer(regional.caller)
              case Err(e) => r == Err(e)
              case Ok(available) => r.Ok? && IsListing(r.value, plans, available.Keys, region, configured)
  {
    catalogue.Enter(provider);
    var plans := provider.Plans(catalogue);
    if plans.Err? {
      return Err(plans.error);
    }
    regional.Enter(provider, region);
    var available := provider.AvailablePlans(regional, region);
    if available.Err? {
      return Err(available.error);
    }
    var l := List(plans.value.entries, available.value.entries.Keys, region, configured);
    return Ok(l);
  }

  predicate Launchable(t: InstanceType, matches: string -> bool) {
    t.available && matches(t.name)
  }

  /** Order of two entries as the scheduler sees them: by price, then by name. */
  predicate CheaperEntry(t: InstanceType, u: InstanceType) {
    t.price < u.price || (t.price == u.price && Strings.Less(t.name, u.name))
  }

  /** The launch picks, from what the scheduler was shown, the cheapest launchable entry, and none exactly when none is. */
  lemma SelectionRefinesListing(l: seq<InstanceType>, r: Result<Plan, SelectError>, plans: map<string, Plan>,
                                available: set<string>, region: string, matches: string -> bool)
    requires Keyed(plans) && IsListing(l, plans, available, region, "") && IsChoice(r, plans, available, matches)
    ensures r.Err? <==> forall k :: 0 <= k < |l| ==> !Launchable(l[k], matches)
    ensures r.Ok? ==> exists k :: 0 <= k < |l| && l[k].name == r.value.id && Launchable(l[k], matches)
                        && forall j :: 0 <= j < |l| && j != k && Launchable(l[j], matches) ==> CheaperEntry(l[k], l[j])
  {
    forall j | 0 <= j < |l| ensures Launchable(l[j], matches) <==> Eligible(plans, available, matches, l[j].name) {
      assert Offered(plans, "", l[j].name);
    }
    if r.Ok? {
      assert Offered(plans, "", r.value.id);
      var k :| 0 <= k < |l| && l[k].name == r.value.id;
      forall j | 0 <= j < |l| && j != k && Launchable(l[j], matches) ensures CheaperEntry(l[k], l[j]) {
        if l[j].name == l[k].name { Strings.LessIrreflexive(l[k].name); }
        var p, q := r.value.monthlyCost.value, plans[l[j].name].monthlyCost.value;
        assert p < q ==> p / 730.0 < q / 730.0;
      }
    }
  }
}
