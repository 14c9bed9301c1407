/** The refresh rule both discovery caches follow, call by call, and its runs under any number of concurrent callers. */
module Cache {
  import opened Prelude

  datatype Entry<+V> = Entry(value: V, refreshedAt: Time)

  datatype FetchError = Cancelled | DeadlineExceeded | Api(status: int) | Other

  predicate StaleUsable(e: FetchError) {
    match e
    case Cancelled => false
    case DeadlineExceeded => false
    case Api(status) => status == 429 || status >= 500
    case Other => true
  }

  datatype Outcome<+V> = Fetched(value: V) | Failed(error: FetchError)

  predicate Fresh<V>(ttl: Time, seen: Option<Entry<V>>, now: Time) {
    seen.Some? && now - seen.value.refreshedAt < ttl
  }

  /**
   * Where one caller stands. It reads the clock before taking the lock, and holds the lock only while looking up and
   * while publishing, so other callers run between any two of these. `began` is when its fetch began.
   */
  datatype Caller<+V> =
    | Called(key: string)
    | Clocked(key: string, now: Time)
    | Missed(key: string, now: Time, seen: Option<Entry<V>>)
    | Fetching(key: string, now: Time, seen: Option<Entry<V>>, began: Time)
    | Publishing(key: string, now: Time, value: V)
    | Hit(key: string, now: Time, found: Entry<V>)
    | Refreshed(key: string, now: Time, value: V)
    | Denied(key: string, now: Time, seen: Option<Entry<V>>, began: Time, error: FetchError)

  function AfterClock<V>(c: Caller<V>, now: Time): Caller<V>
    requires c.Called?
  {
    Clocked(c.key, now)
  }

  function AfterLookup<V>(ttl: Time, c: Caller<V>, seen: Option<Entry<V>>): Caller<V>
    requires c.Clocked?
  {
    if Fresh(ttl, seen, c.now) then Hit(c.key, c.now, seen.value) else Missed(c.key, c.now, seen)
  }

  function AfterBegin<V>(c: Caller<V>, began: Time): Caller<V>
    requires c.Missed?
  {
    Fetching(c.key, c.now, c.seen, began)
  }

  function AfterFetch<V>(c: Caller<V>, outcome: Outcome<V>): Caller<V>
    requires c.Fetching?
  {
    match outcome
    case Fetched(v) => Publishing(c.key, c.now, v)
    case Failed(e) => Denied(c.key, c.now, c.seen, c.began, e)
  }

  function AfterPublish<V>(c: Caller<V>): Caller<V>
    requires c.Publishing?
  {
    Refreshed(c.key, c.now, c.value)
  }

  predicate Answered<V>(c: Caller<V>) {
    c.Hit? || c.Refreshed? || c.Denied?
  }

  /** A failed fetch is answered from the entry seen, if there was one and the failure permits it. */
  function Answer<V>(c: Caller<V>): Result<V, FetchError>
    requires Answered(c)
  {
    match c
    case Hit(_, _, found) => Ok(found.value)
    case Refreshed(_, _, value) => Ok(value)
    case Denied(_, _, seen, _, error) => if seen.Some? && StaleUsable(error) then Ok(seen.value.value) else Err(error)
  }

  /**
   * The rule in full: an entry younger than its time to live is the answer; else it is what the call fetches; and if that
   * fails by a status of 429 or from 500 on, or for want of any answer, the entry past its time, if there is one. Every
   * other failure, and a call cancelled or out of time, is answered with the error.
   */
  predicate Follows<V(==)>(ttl: Time, c: Caller<V>, r: Result<V, FetchError>) {
    match c
    case Hit(_, now, found) => now - found.refreshedAt < ttl && r == Ok(found.value)
    case Refreshed(_, _, value) => r == Ok(value)
    case Denied(_, now, seen, _, error) =>
      && (seen.Some? ==> now - seen.value.refreshedAt >= ttl)
      && r == if seen.Some? && (error == Other || (error.Api? && (error.status == 429 || error.status >= 500)))
              then Ok(seen.value.value) else Err(error)
    case _ => false
  }
}

module CacheRuns {
  import opened Prelude
  import opened Cache

  /** A successful response of the server. */
  datatype Response<V> = Response(key: string, began: Time, caller: nat, value: V)

  datatype State<V(==)> = State(now: Time, cache: map<string, Entry<V>>, callers: map<nat, Caller<V>>, responses: set<Response<V>>)

  datatype Step<V> =
    | Tick(d: Time)
    | Call(caller: nat, key: string)
    | ReadClock(caller: nat)
    | Lookup(caller: nat)
    | BeginFetch(caller: nat)
    | EndFetch(caller: nat, outcome: Outcome<V>)
    | Publish(caller: nat)

  function Slot<V>(cache: map<string, Entry<V>>, key: string): Option<Entry<V>> {
    if key in cache then Some(cache[key]) else None
  }

  predicate Enabled<V(==)>(s: State<V>, step: Step<V>) {
    match step
    case Tick(d) => d >= 0
    case Call(p, _) => p !in s.callers
    case ReadClock(p) => p in s.callers && s.callers[p].Called?
    case Lookup(p) => p in s.callers && s.callers[p].Clocked?
    case BeginFetch(p) => p in s.callers && s.callers[p].Missed?
    case EndFetch(p, _) => p in s.callers && s.callers[p].Fetching?
    case Publish(p) => p in s.callers && s.callers[p].Publishing?
  }

  function Apply<V(==)>(ttl: Time, s: State<V>, step: Step<V>): State<V>
    requires Enabled(s, step)
  {
    match step
    case Tick(d) => s.(now := s.now + d)
    case Call(p, key) => s.(callers := s.callers[p := Called(key)])
    case ReadClock(p) => s.(callers := s.callers[p := AfterClock(s.callers[p], s.now)])
    case Lookup(p) => s.(callers := s.callers[p := AfterLookup(ttl, s.callers[p], Slot(s.cache, s.callers[p].key))])
    case BeginFetch(p) => s.(callers := s.callers[p := AfterBegin(s.callers[p], s.now)])
    case EndFetch(p, outcome) =>
      var c := s.callers[p];
      s.(callers := s.callers[p := AfterFetch(c, outcome)],
         responses := if outcome.Fetched? then s.responses + {Response(c.key, c.began, p, outcome.value)} else s.responses)
    case Publish(p) =>
      var c := s.callers[p];
      s.(cache := s.cache[c.key := Entry(c.value, c.now)], callers := s.callers[p := AfterPublish(c)])
  }

  ghost predicate IsRun<V(!new)>(ttl: Time, run: seq<State<V>>, steps: seq<Step<V>>) {
    && |run| == |steps| + 1
    && run[0].cache == map[] && run[0].callers == map[] && run[0].responses == {}
    && forall k :: 0 <= k < |steps| ==> Enabled(run[k], steps[k]) && run[k + 1] == Apply(ttl, run[k], steps[k])
  }

  /** The entry is exactly a successful response, whose fetch began between the entry's timestamp and `end`. */
  ghost predicate Honest<V(!new)>(s: State<V>, key: string, e: Entry<V>, end: Time) {
    exists r :: r in s.responses && r.key == key && r.value == e.value && e.refreshedAt <= r.began <= end
  }

  ghost predicate CallerOk<V(!new)>(ttl: Time, s: State<V>, p: nat)
    requires p in s.callers
  {
    match s.callers[p]
    case Called(_) => true
    case Clocked(_, now) => now <= s.now
    case Missed(key, now, seen) =>
      now <= s.now && !Fresh(ttl, seen, now) && (seen.Some? ==> Honest(s, key, seen.value, s.now))
    case Fetching(key, now, seen, began) =>
      now <= began <= s.now && !Fresh(ttl, seen, now) && (seen.Some? ==> Honest(s, key, seen.value, began))
    case Denied(key, now, seen, began, _) =>
      now <= began && !Fresh(ttl, seen, now) && (seen.Some? ==> Honest(s, key, seen.value, began))
    case Hit(key, now, found) => Fresh(ttl, Some(found), now) && Honest(s, key, found, s.now)
    case Publishing(key, now, value) => now <= s.now && Own(s, p, key, now, value)
    case Refreshed(key, now, value) => Own(s, p, key, now, value)
  }

  ghost predicate Own<V(!new)>(s: State<V>, p: nat, key: string, now: Time, value: V) {
    exists r :: r in s.responses && r.key == key && r.value == value && r.caller == p && now <= r.began <= s.now
  }

  ghost predicate Inv<V(!new)>(ttl: Time, s: State<V>) {
    && (forall key :: key in s.cache ==> Honest(s, key, s.cache[key], s.now))
    && (forall p :: p in s.callers ==> CallerOk(ttl, s, p))
  }

  lemma InvStep<V(!new)>(ttl: Time, s: State<V>, step: Step<V>)
    requires Enabled(s, step) && Inv(ttl, s)
    ensures Inv(ttl, Apply(ttl, s, step))
  {
    var t := Apply(ttl, s, step);
    assert s.now <= t.now && s.responses <= t.responses;
    if step.EndFetch? && step.outcome.Fetched? {
      assert CallerOk(ttl, s, step.caller);
      var c := s.callers[step.caller];
      assert Response(c.key, c.began, step.caller, step.outcome.value) in t.responses;
    }
    forall p | p in t.callers ensures CallerOk(ttl, t, p) {
      if p in s.callers { assert CallerOk(ttl, s, p); }
    }
    forall key | key in t.cache ensures Honest(t, key, t.cache[key], t.now) {
      if step.Publish? { assert CallerOk(ttl, s, step.caller); }
    }
  }

  lemma {:induction false} InvAlways<V(!new)>(ttl: Time, run: seq<State<V>>, steps: seq<Step<V>>, k: nat)
    requires IsRun(ttl, run, steps) && k < |run|
    ensures Inv(ttl, run[k])
  {
    if k > 0 {
      InvAlways(ttl, run, steps, k - 1);
      InvStep(ttl, run[k - 1], steps[k - 1]);
    }
  }

  /** The response an answer is, by how the call came to it. */
  ghost predicate Explains<V(!new)>(ttl: Time, c: Caller<V>, p: nat, r: Response<V>)
    requires Answered(c)
  {
    match c
    case Hit(_, now, _) => r.began > now - ttl
    case Refreshed(_, now, _) => r.caller == p && now <= r.began
    case Denied(_, now, seen, began, error) =>
      && (error == Other || (error.Api? && (error.status == 429 || error.status >= 500)))
      && seen.Some? && now - seen.value.refreshedAt >= ttl && seen.value.refreshedAt <= r.began <= began
  }

  /**
   * Whatever the interleaving, an answer is exactly one successful response of the server: one whose fetch began less
   * than a TTL before this call read its clock, or this call's own; or, only after a failure that permits it, one that
   * began no later than this call's failed fetch and whose entry was past its TTL. A call that answers with an error has
   * failed itself.
   */
  lemma Provenance<V(!new)>(ttl: Time, run: seq<State<V>>, steps: seq<Step<V>>, k: nat, p: nat)
    requires IsRun(ttl, run, steps) && k < |run| && p in run[k].callers && Answered(run[k].callers[p])
    ensures var c := run[k].callers[p];
            Follows(ttl, c, Answer(c)) &&
            match Answer(c)
            case Err(e) =>
              c.Denied? && e == c.error
              && (c.seen == None || e == Cancelled || e == DeadlineExceeded || (e.Api? && e.status != 429 && e.status < 500))
            case Ok(v) => exists r :: r in run[k].responses && r.key == c.key && r.value == v && Explains(ttl, c, p, r)
  {
    InvAlways(ttl, run, steps, k);
    var s, c := run[k], run[k].callers[p];
    assert CallerOk(ttl, s, p);
    if Answer(c).Ok? {
      var v := Answer(c).value;
      match c
      case Hit(_, _, found) =>
        var r :| r in s.responses && r.key == c.key && r.value == v && found.refreshedAt <= r.began <= s.now;
        assert Explains(ttl, c, p, r);
      case Refreshed(_, now, _) =>
        var r :| r in s.responses && r.key == c.key && r.value == v && r.caller == p && now <= r.began <= s.now;
        assert Explains(ttl, c, p, r);
      case Denied(_, _, seen, began, _) =>
        var r :| r in s.responses && r.key == c.key && r.value == v && seen.value.refreshedAt <= r.began <= began;
        assert Explains(ttl, c, p, r);
    }
  }

  /** Only a successful fetch changes the cache, and only the slot it was for. */
  lemma OnlySuccessPublishes<V(!new)>(ttl: Time, s: State<V>, step: Step<V>, key: string)
    requires Enabled(s, step) && Slot(Apply(ttl, s, step).cache, key) != Slot(s.cache, key)
    requires Inv(ttl, s)
    ensures step.Publish? && s.callers[step.caller].key == key
    ensures exists r :: r in s.responses && r.caller == step.caller && r.key == key && r.value == s.callers[step.caller].value
  {
    assert CallerOk(ttl, s, step.caller);
  }

  // ---- Timestamps ----

  /** The caller has found no fresh entry and may still publish. */
  predicate Refreshing<V>(c: Caller<V>) {
    c.Missed? || c.Fetching? || c.Publishing?
  }

  predicate Refreshes<V>(s: State<V>, p: nat, key: string) {
    p in s.callers && Refreshing(s.callers[p]) && s.callers[p].key == key
  }

  /** No two callers of the key are between their miss and their end; any number may find a fresh entry meanwhile. */
  ghost predicate Serial<V(!new)>(s: State<V>, key: string) {
    forall p, q :: Refreshes(s, p, key) && Refreshes(s, q, key) ==> p == q
  }

  /** The slot's timestamp has passed, and is no later than the reading of any caller that may still replace it. */
  ghost predicate InOrder<V(!new)>(s: State<V>, key: string) {
    && (forall p :: p in s.callers && !s.callers[p].Called? ==> s.callers[p].now <= s.now)
    && (key in s.cache ==>
          && s.cache[key].refreshedAt <= s.now
          && forall p :: Refreshes(s, p, key) ==> s.cache[key].refreshedAt <= s.callers[p].now)
  }

  lemma {:induction false} InOrderAlways<V(!new)>(ttl: Time, run: seq<State<V>>, steps: seq<Step<V>>, k: nat, key: string)
    requires IsRun(ttl, run, steps) && ttl >= 0 && k < |run| && forall j :: 0 <= j < k ==> Serial(run[j], key)
    ensures InOrder(run[k], key)
  {
    if k > 0 {
      InOrderAlways(ttl, run, steps, k - 1, key);
      InOrderStep(ttl, run[k - 1], steps[k - 1], key);
    }
  }

  lemma InOrderStep<V(!new)>(ttl: Time, s: State<V>, step: Step<V>, key: string)
    requires ttl >= 0 && Enabled(s, step) && InOrder(s, key) && Serial(s, key)
    ensures InOrder(Apply(ttl, s, step), key)
  {
    var t := Apply(ttl, s, step);
    forall p | Refreshes(t, p, key) && key in t.cache ensures t.cache[key].refreshedAt <= t.callers[p].now {
      if !step.Lookup? || p != step.caller { assert Refreshes(s, p, key); }
      if step.Publish? && s.callers[step.caller].key == key { assert Refreshes(s, step.caller, key); }
    }
  }

  /** As long as the refreshers of a key do not overlap, its slot is never emptied and its timestamp never goes back. */
  lemma SerialNeverGoesBack<V(!new)>(ttl: Time, run: seq<State<V>>, steps: seq<Step<V>>, k: nat, key: string)
    requires IsRun(ttl, run, steps) && ttl >= 0 && k < |steps| && key in run[k].cache
    requires forall j :: 0 <= j < k ==> Serial(run[j], key)
    ensures key in run[k + 1].cache && run[k].cache[key].refreshedAt <= run[k + 1].cache[key].refreshedAt
  {
    InOrderAlways(ttl, run, steps, k, key);
    if steps[k].Publish? && run[k].callers[steps[k].caller].key == key { assert Refreshes(run[k], steps[k].caller, key); }
  }

  lemma Extend(ttl: Time, run: seq<State<int>>, steps: seq<Step<int>>, step: Step<int>)
    returns (run': seq<State<int>>, steps': seq<Step<int>>)
    requires IsRun(ttl, run, steps) && Enabled(run[|run| - 1], step)
    ensures IsRun(ttl, run', steps') && |run'| == |run| + 1
    ensures run'[|run'| - 2] == run[|run| - 1] && run'[|run'| - 1] == Apply(ttl, run[|run| - 1], step)
  {
    run', steps' := run + [Apply(ttl, run[|run| - 1], step)], steps + [step];
  }

  /** One caller's way from its clock reading to having fetched, the slot being empty. */
  lemma Fetches(ttl: Time, run: seq<State<int>>, steps: seq<Step<int>>, p: nat, key: string, value: int)
    returns (run': seq<State<int>>, steps': seq<Step<int>>)
    requires IsRun(ttl, run, steps) && p !in run[|run| - 1].callers && run[|run| - 1].cache == map[]
    ensures IsRun(ttl, run', steps') && run'[|run'| - 1].cache == map[] && run'[|run'| - 1].now == run[|run| - 1].now
    ensures run'[|run'| - 1].callers == run[|run| - 1].callers[p := Publishing(key, run[|run| - 1].now, value)]
  {
    run', steps' := Extend(ttl, run, steps, Call(p, key));
    run', steps' := Extend(ttl, run', steps', ReadClock(p));
    run', steps' := Extend(ttl, run', steps', Lookup(p));
    run', steps' := Extend(ttl, run', steps', BeginFetch(p));
    run', steps' := Extend(ttl, run', steps', EndFetch(p, Fetched(value)));
  }

  /** When they do overlap it can: the refresher that read its clock first may publish last. */
  lemma OlderMayOverwrite(ttl: Time, key: string, first: int, second: int) returns (run: seq<State<int>>, steps: seq<Step<int>>)
    ensures IsRun(ttl, run, steps) && |run| > 1
    ensures run[|run| - 2].cache == map[key := Entry(second, 1)] && run[|run| - 1].cache == map[key := Entry(first, 0)]
  {
    run, steps := Fetches(ttl, [State(0, map[], map[], {})], [], 0, key, first);
    run, steps := Extend(ttl, run, steps, Tick(1));
    run, steps := Fetches(ttl, run, steps, 1, key, second);
    run, steps := Extend(ttl, run, steps, Publish(1));
    run, steps := Extend(ttl, run, steps, Publish(0));
  }
}
