/** The plan catalogue and regional availability, cached; and the instance types and launch plan drawn from them. */
module InstanceTypes {
  import opened Prelude
  import opened Cache

  const PLAN_TTL: Time := 5 * MINUTE
  const AVAILABILITY_TTL: Time := 60 * SECOND
  const MAX_PODS := 110

  /** `monthlyCost` is `None` for a cost that is not a finite number. */
  datatype Plan = Plan(id: string, vcpus: int, ram: int, disk: int, monthlyCost: Option<real>)

  /** A Go map: a reference, so that sharing one and copying one differ. */
  class Table<V> {
    var entries: map<string, V>

    constructor (entries: map<string, V>)
      ensures this.entries == entries
    {
      this.entries := entries;
    }

    /** `clonePlans` and `cloneSet`. */
    method Clone() returns (out: Table<V>)
      ensures fresh(out) && out.entries == entries
    {
      out := new Table(map[]);
      var left := entries.Keys;
      while left != {}
        invariant fresh(out) && left <= entries.Keys
        invariant out.entries == map k | k in entries && k !in left :: entries[k]
        decreases |left|
      {
        var k :| k in left;
        out.entries := out.entries[k := entries[k]];
        left := left - {k};
      }
    }
  }

  datatype CacheEntry<V> = CacheEntry(plans: Table<V>, refreshedAt: Time)

  ghost function View<V>(e: Option<CacheEntry<V>>): Option<Entry<map<string, V>>>
    reads if e.Some? then {e.value.plans} else {}
  {
    match e
    case None => None
    case Some(c) => Some(Entry(c.plans.entries, c.refreshedAt))
  }

  predicate Keyed(plans: map<string, Plan>) {
    forall id :: id in plans ==> id != "" && plans[id].id == id
  }

  /** The catalogue by ID: of plans with one ID the last wins, plans without ID are dropped. */
  function ByID(plans: seq<Plan>): (m: map<string, Plan>)
    ensures Keyed(m)
    ensures forall id :: id in m <==> id != "" && exists k :: 0 <= k < |plans| && plans[k].id == id
    ensures forall k :: 0 <= k < |plans| && plans[k].id in m && (forall j :: k < j < |plans| ==> plans[j].id != plans[k].id) ==>
              m[plans[k].id] == plans[k]
  {
    if plans == [] then map[]
    else
      var last := plans[|plans| - 1];
      var init := plans[..|plans| - 1];
      var rest := ByID(init);
      assert forall k :: 0 <= k < |init| ==> init[k] == plans[k];
      if last.id != "" then rest[last.id := last] else rest
  }

  function AsSet(ids: seq<string>): map<string, ()> {
    map id | id in ids && id != "" :: ()
  }

  /** The loop that fills a new catalogue. */
  method Index(listed: seq<Plan>) returns (byID: Table<Plan>)
    ensures fresh(byID) && byID.entries == ByID(listed)
  {
    byID := new Table<Plan>(map[]);
    for k := 0 to |listed|
      invariant fresh(byID) && byID.entries == ByID(listed[..k])
    {
      assert listed[..k + 1][..k] == listed[..k];
      if listed[k].id != "" {
        byID.entries := byID.entries[listed[k].id := listed[k]];
      }
    }
    assert listed[..|listed|] == listed;
  }

  /** The loop that fills a new availability set. */
  method Collect(ids: seq<string>) returns (plans: Table<()>)
    ensures fresh(plans) && plans.entries == AsSet(ids)
    ensures forall id :: id in plans.entries <==> id in ids && id != ""
  {
    plans := new Table<()>(map[]);
    for k := 0 to |ids|
      invariant fresh(plans) && plans.entries == AsSet(ids[..k])
    {
      if ids[k] != "" {
        plans.entries := plans.entries[ids[k] := ()];
      }
      assert plans.entries == AsSet(ids[..k + 1]);
    }
    assert ids[..|ids|] == ids;
  }

  /** What the lock guards. */
  datatype Slots = Slots(plans: Option<CacheEntry<Plan>>, cache: map<string, CacheEntry<()>>)

  /**
   * Clock, lock and Vultr as seen by one `Plans` call, which may only do what its caller's position asks for. Other
   * callers run up to the moment the lock is taken and during the fetch; `left` is how they last left the slots, and the
   * call itself must not have touched them since.
   */
  class CatalogueCall {
    ghost var caller: Caller<map<string, Plan>>
    ghost var left: Slots
    ghost var entered: bool

    constructor ()
      ensures caller == Called("") && !entered
    {
      caller, left, entered := Called(""), Slots(None, map[]), false;
    }

    /** The call is made, once. */
    ghost method Enter(p: Provider)
      requires !entered && caller == Called("")
      modifies this
      ensures entered && caller == old(caller) && left == p.Guarded()
    {
      entered, left := true, p.Guarded();
    }

    method Now() returns (now: Time)
      requires entered && caller.Called?
      modifies this
      ensures caller == AfterClock(old(caller), now) && left == old(left) && entered
    {
      now := *;
      caller := AfterClock(caller, now);
    }

    method Lock(p: Provider)
      requires caller.Clocked? && p.Valid() && p.Guarded() == left
      modifies this, p
      ensures p.Valid() && old(p.owned) <= p.owned && fresh(p.owned - old(p.owned)) && left == p.Guarded()
      ensures caller == AfterLookup(PLAN_TTL, old(caller), View(p.plans))
    {
      p.OthersRun();
      left := p.Guarded();
      caller := AfterLookup(PLAN_TTL, caller, View(p.plans));
    }

    method ListPlans(p: Provider) returns (r: Result<seq<Plan>, FetchError>, ghost began: Time)
      requires caller.Missed? && p.Valid() && p.Guarded() == left
      modifies this, p
      ensures p.Valid() && old(p.owned) <= p.owned && fresh(p.owned - old(p.owned)) && left == p.Guarded()
      ensures r.Ok? ==> caller == AfterFetch(AfterBegin(old(caller), began), Fetched(ByID(r.value)))
      ensures r.Err? ==> caller == AfterFetch(AfterBegin(old(caller), began), Failed(r.error))
    {
      began := *;
      p.OthersRun();
      left := p.Guarded();
      r := *;
      match r {
        case Ok(fetched) => caller := AfterFetch(AfterBegin(caller, began), Fetched(ByID(fetched)));
        case Err(e) => caller := AfterFetch(AfterBegin(caller, began), Failed(e));
      }
    }

    /** The slot has been written: what was fetched, under the first clock reading, and nothing else. */
    ghost method Published(p: Provider)
      requires caller.Publishing? && p.Guarded() == left.(plans := p.plans)
      requires View(p.plans) == Some(Entry(caller.value, caller.now))
      modifies this
      ensures caller == AfterPublish(old(caller)) && left == old(left)
    {
      caller := AfterPublish(caller);
    }
  }

  /** The same for one `availablePlans` call. */
  class RegionCall {
    ghost var caller: Caller<map<string, ()>>
    ghost var left: Slots
    ghost var entered: bool

    constructor ()
      ensures caller == Called("") && !entered
    {
      caller, left, entered := Called(""), Slots(None, map[]), false;
    }

    ghost method Enter(p: Provider, region: string)
      requires !entered && caller == Called("")
      modifies this
      ensures entered && caller == Called(region) && left == p.Guarded()
    {
      entered, caller, left := true, Called(region), p.Guarded();
    }

    method Now() returns (now: Time)
      requires entered && caller.Called?
      modifies this
      ensures caller == AfterClock(old(caller), now) && left == old(left) && entered
    {
      now := *;
      caller := AfterClock(caller, now);
    }

    method Lock(p: Provider)
      requires caller.Clocked? && p.Valid() && p.Guarded() == left
      modifies this, p
      ensures p.Valid() && old(p.owned) <= p.owned && fresh(p.owned - old(p.owned)) && left == p.Guarded()
      ensures caller == AfterLookup(AVAILABILITY_TTL, old(caller), View(p.Slot(old(caller.key))))
    {
      p.OthersRun();
      left := p.Guarded();
      caller := AfterLookup(AVAILABILITY_TTL, caller, View(p.Slot(caller.key)));
    }

    method GetRegionAvailability(p: Provider, region: string) returns (r: Result<seq<string>, FetchError>, ghost began: Time)
      requires caller.Missed? && caller.key == region && p.Valid() && p.Guarded() == left
      modifies this, p
      ensures p.Valid() && old(p.owned) <= p.owned && fresh(p.owned - old(p.owned)) && left == p.Guarded()
      ensures r.Ok? ==> caller == AfterFetch(AfterBegin(old(caller), began), Fetched(AsSet(r.value)))
      ensures r.Err? ==> caller == AfterFetch(AfterBegin(old(caller), began), Failed(r.error))
    {
      began := *;
      p.OthersRun();
      left := p.Guarded();
      r := *;
      match r {
        case Ok(fetched) => caller := AfterFetch(AfterBegin(caller, began), Fetched(AsSet(fetched)));
        case Err(e) => caller := AfterFetch(AfterBegin(caller, began), Failed(e));
      }
    }

    ghost method Published(p: Provider)
      requires caller.Publishing? && caller.key in p.cache && p.Guarded() == left.(cache := left.cache[caller.key := p.cache[caller.key]])
      requires View(p.Slot(caller.key)) == Some(Entry(caller.value, caller.now))
      modifies this
      ensures caller == AfterPublish(old(caller)) && left == old(left)
    {
      caller := AfterPublish(caller);
    }
  }

  class Provider {
    var plans: Option<CacheEntry<Plan>>
    var cache: map<string, CacheEntry<()>>

    /** The maps the cache owns: published once, never written again, never handed out. */
    ghost var owned: set<object>

    ghost predicate Valid()
      reads this, owned
    {
      && (plans.Some? ==> plans.value.plans in owned && Keyed(plans.value.plans.entries))
      && (forall r :: r in cache ==> cache[r].plans in owned)
    }

    constructor ()
      ensures Valid() && plans == None && cache == map[] && owned == {}
    {
      plans, cache, owned := None, map[], {};
    }

    ghost function Guarded(): Slots
      reads this
    {
      Slots(plans, cache)
    }

    function Slot(region: string): Option<CacheEntry<()>>
      reads this
    {
      if region in cache then Some(cache[region]) else None
    }

    /** Other callers, while this one does not hold the lock: any number of them publish whatever they fetched. */
    method OthersRun()
      requires Valid()
      modifies this
      ensures Valid() && old(owned) <= owned && fresh(owned - old(owned))
    {
      var left: nat := *;
      while left > 0
        invariant Valid() && old(owned) <= owned && fresh(owned - old(owned))
      {
        var now: Time := *;
        var byPlan: bool := *;
        if byPlan {
          var fetched: seq<Plan> := *;
          var t := new Table(ByID(fetched));
          plans, owned := Some(CacheEntry(t, now)), owned + {t};
        } else {
          var region: string := *;
          var fetched: map<string, ()> := *;
          var t := new Table(fetched);
          cache, owned := cache[region := CacheEntry(t, now)], owned + {t};
        }
        left := left - 1;
      }
    }

    /**
     * Answers what the refresh rule makes of the slot found under the lock and the fetch, from a map of its own. The slots
     * end up as the other callers last left them, but for what this call published.
     */
    method Plans(call: CatalogueCall) returns (r: Result<Table<Plan>, FetchError>)
      requires Valid() && call.entered && call.caller.Called? && call.left == Guarded()
      modifies this, call
      ensures Valid() && old(owned) <= owned
      ensures Answered(call.caller) && call.caller.key == old(call.caller.key)
      ensures if r.Ok? then Answer(call.caller) == Ok(r.value.entries) else Answer(call.caller) == Err(r.error)
      ensures Follows(5 * MINUTE, call.caller, Answer(call.caller))
      ensures r.Ok? ==> fresh(r.value) && r.value !in owned && Keyed(r.value.entries)
      ensures !call.caller.Refreshed? ==> Guarded() == call.left
      ensures call.caller.Refreshed? ==>
                Guarded() == call.left.(plans := plans) && View(plans) == Some(Entry(call.caller.value, call.caller.now))
    {
      var now := call.Now();
      call.Lock(this);
      var cached := plans;
      if cached.Some? && now - cached.value.refreshedAt < PLAN_TTL {
        var result := cached.value.plans.Clone();
        return Ok(result);
      }
      var listed, _ := call.ListPlans(this);
      if listed.Err? {
        if cached.Some? && StaleUsable(listed.error) {
          var result := cached.value.plans.Clone();
          return Ok(result);
        }
        return Err(listed.error);
      }
      var byID := Index(listed.value);
      plans, owned := Some(CacheEntry(byID, now)), owned + {byID};
      call.Published(this);
      var result := byID.Clone();
      return Ok(result);
    }

    method Publish(call: RegionCall, region: string, plans: Table<()>, now: Time)
      requires Valid() && call.caller.Publishing? && call.caller.key == region && now == call.caller.now && plans.entries == call.caller.value
      requires Guarded() == call.left
      modifies this, call
      ensures Valid() && owned == old(owned) + {plans}
      ensures call.caller == AfterPublish(old(call.caller)) && call.left == old(call.left)
      ensures Guarded() == call.left.(cache := call.left.cache[region := CacheEntry(plans, now)])
      ensures View(Slot(region)) == Some(Entry(call.caller.value, call.caller.now))
    {
      cache, owned := cache[region := CacheEntry(plans, now)], owned + {plans};
      call.Published(this);
    }

    /** As `Plans`, for the slot of one region. */
    method AvailablePlans(call: RegionCall, region: string) returns (r: Result<Table<()>, FetchError>)
      requires Valid() && call.entered && call.caller == Called(region) && call.left == Guarded()
      modifies this, call
      ensures Valid() && old(owned) <= owned
      ensures Answered(call.caller) && call.caller.key == region
      ensures if r.Ok? then Answer(call.caller) == Ok(r.value.entries) else Answer(call.caller) == Err(r.error)
      ensures Follows(60 * SECOND, call.caller, Answer(call.caller))
      ensures r.Ok? ==> fresh(r.value) && r.value !in owned
      ensures !call.caller.Refreshed? ==> Guarded() == call.left
      ensures call.caller.Refreshed? ==>
                && region in cache && Guarded() == call.left.(cache := call.left.cache[region := cache[region]])
                && View(Slot(region)) == Some(Entry(call.caller.value, call.caller.now))
    {
      var now := call.Now();
      call.Lock(this);
      var cached := Slot(region);
      if cached.Some? && now - cached.value.refreshedAt < AVAILABILITY_TTL {
        var result := cached.value.plans.Clone();
        return Ok(result);
      }
      var availability, _ := call.GetRegionAvailability(this, region);
      if availability.Err? {
        if cached.Some? && StaleUsable(availability.error) {
          var result := cached.value.plans.Clone();
          return Ok(result);
        }
        return Err(availability.error);
      }
      var plans := Collect(availability.value);
      Publish(call, region, plans, now);
      var result := plans.Clone();
      return Ok(result);
    }
  }
}
