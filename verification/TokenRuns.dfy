/**
 * Token calls running side by side without a lock. Lists are linearizable, all clocks agree, and a secret that carries
 * an expiration is removed only once that has passed; a create may be applied and still be reported as failed.
 */
module TokenRuns {
  import opened Prelude
  import opened TokenCall

  /** A token created by a call: the clock reading stamped on it, and when its call last listed and when it was stored. */
  datatype Creation = Creation(secret: Secret, stamped: Time, relisted: nat, created: nat)

  datatype State = State(
    now: Time, step: nat, secrets: map<string, Secret>, stored: set<Secret>,
    calls: map<nat, Call>, relisted: map<nat, nat>, creations: seq<Creation>)

  datatype Step =
    | Tick(d: Time)
    | Start(p: nat)
    | DoList(p: nat, answer: Option<seq<Secret>>)
    | DoClock(p: nat)
    | DoRandom(p: nat, bytes: Option<seq<int>>)
    | DoCreate(p: nat, applied: bool, ok: bool)
    | Clean(name: string)
    | Intrude(s: Secret)

  ghost predicate Enabled(s: State, step: Step) {
    match step
    case Tick(d) => d >= 0
    case Start(p) => p !in s.calls
    case DoList(p, answer) =>
      && p in s.calls && (s.calls[p].FirstList? || s.calls[p].SecondList?)
      && (answer.Some? ==> forall x :: x in answer.value <==> x.name in s.secrets && s.secrets[x.name] == x)
    case DoClock(p) => p in s.calls && (AtSecret(s.calls[p]) || s.calls[p].Stamping?)
    case DoRandom(p, bytes) => p in s.calls && s.calls[p].Generating? && (bytes.Some? ==> Is22Bytes(bytes.value))
    case DoCreate(p, applied, ok) =>
      p in s.calls && s.calls[p].Creating? && (ok ==> applied) && (applied ==> s.calls[p].minted.name !in s.secrets)
    case Clean(name) => name in s.secrets && (s.secrets[name].expiry.Some? ==> s.secrets[name].expiry.value <= s.now)
    case Intrude(x) => x.name !in s.secrets
  }

  ghost function Apply(s: State, step: Step): State
    requires Enabled(s, step)
  {
    var t := s.(step := s.step + 1);
    match step
    case Tick(d) => t.(now := s.now + d)
    case Start(p) => t.(calls := s.calls[p := FirstList])
    case DoList(p, answer) =>
      t.(calls := s.calls[p := AfterList(s.calls[p], answer)],
         relisted := if s.calls[p].SecondList? then s.relisted[p := s.step] else s.relisted)
    case DoClock(p) => t.(calls := s.calls[p := AfterClock(s.calls[p], s.now)])
    case DoRandom(p, bytes) => t.(calls := s.calls[p := AfterRandom(s.calls[p], bytes)])
    case DoCreate(p, applied, ok) =>
      var c := s.calls[p];
      var u := t.(calls := s.calls[p := AfterCreate(c, ok)]);
      if !applied then u
      else
        u.(secrets := s.secrets[c.minted.name := c.minted], stored := s.stored + {c.minted},
           creations := s.creations + [Creation(c.minted, c.at, if p in s.relisted then s.relisted[p] else 0, s.step)])
    case Clean(name) => t.(secrets := map n | n in s.secrets && n != name :: s.secrets[n])
    case Intrude(x) => t.(secrets := s.secrets[x.name := x], stored := s.stored + {x})
  }

  ghost predicate IsRun(run: seq<State>, steps: seq<Step>) {
    && |run| == |steps| + 1
    && run[0].step == 0 && run[0].calls == map[] && run[0].relisted == map[] && run[0].creations == []
    && (forall n :: n in run[0].secrets ==> run[0].secrets[n].name == n && run[0].secrets[n] in run[0].stored)
    && forall k :: 0 <= k < |steps| ==> Enabled(run[k], steps[k]) && run[k + 1] == Apply(run[k], steps[k])
  }

  const SPACING: Time := 10 * HOUR - SECOND

  /** The call has listed for the second time and not yet created. */
  predicate Relisted(c: Call) {
    c.SecondScan? || c.Generating? || c.Stamping? || c.Creating?
  }

  predicate Scanning(c: Call) {
    c.FirstScan? || Relisted(c) || c.Found?
  }

  ghost predicate SecretsOk(s: State) {
    forall n :: n in s.secrets ==> s.secrets[n].name == n && s.secrets[n] in s.stored
  }

  /** A created token is stored as minted until it expires. */
  ghost predicate CreationOk(s: State, a: Creation) {
    && a.created < s.step && a.stamped <= s.now
    && Usable(a.secret) && a.secret.expiry == Some(WholeSeconds(a.stamped + LIFETIME))
    && ((a.secret.name in s.secrets && s.secrets[a.secret.name] == a.secret) || a.secret.expiry.value <= s.now)
  }

  ghost predicate CallsOk(s: State, p: nat)
    requires p in s.calls
  {
    var c := s.calls[p];
    && CallOk(c)
    && (Scanning(c) ==>
          && (forall k :: 0 <= k < |c.checks| && c.checks[k].Some? ==> c.checks[k].value <= s.now)
          && (forall x :: x in c.items ==> x in s.stored))
    && (c.Creating? ==> c.at <= s.now)
    && (c.Created? ==> c.minted in s.stored)
    && (c.Found? && p !in s.relisted ==> c.latest)
    && (Relisted(c) ==> p in s.relisted && s.relisted[p] < s.step)
  }

  /** A call that listed after a creation has that token before it, unless enough time has passed. */
  ghost predicate Notices(s: State, p: nat, a: Creation)
    requires p in s.calls
  {
    var c := s.calls[p];
    Relisted(c) && p in s.relisted && s.relisted[p] >= a.created ==>
      if c.Creating? then c.at - a.stamped > SPACING else a.secret in c.items || s.now - a.stamped > SPACING
  }

  ghost predicate Spaced(a: Creation, b: Creation) {
    b.relisted < a.created || b.stamped - a.stamped > SPACING
  }

  ghost predicate Inv(s: State) {
    && SecretsOk(s)
    && (forall a :: a in s.creations ==> CreationOk(s, a))
    && (forall p :: p in s.calls ==> CallsOk(s, p))
    && (forall p, a :: p in s.calls && a in s.creations ==> Notices(s, p, a))
    && (forall i, j :: 0 <= i < j < |s.creations| ==> Spaced(s.creations[i], s.creations[j]))
  }

  /** A token judged not to last any more was stamped more than the spacing ago. */
  lemma JudgedLongAgo(s: State, p: nat, a: Creation)
    requires p in s.calls && CallsOk(s, p) && CreationOk(s, a) && s.calls[p].Stamping? && a.secret in s.calls[p].items
    ensures s.now - a.stamped > SPACING
  {
    var c := s.calls[p];
    var k :| 0 <= k < |c.items| && c.items[k] == a.secret;
    assert !Passed(c.items, c.checks, k);
    assert c.checks[k].Some? && c.checks[k].value <= s.now;
  }

  lemma CreationsStep(s: State, step: Step)
    requires Enabled(s, step) && Inv(s)
    ensures var t := Apply(s, step); forall a :: a in t.creations ==> CreationOk(t, a)
  {
  }

  /** What one move makes of a call, and that it keeps `CallOk`. */
  lemma MoveOk(s: State, step: Step, p: nat)
    requires Enabled(s, step) && Inv(s) && p in Apply(s, step).calls
    ensures CallOk(Apply(s, step).calls[p])
  {
    if p in s.calls { assert CallsOk(s, p); }
    match step
    case DoList(q, answer) => AfterListOk(s.calls[q], answer);
    case DoClock(q) => if p == q { AfterClockOk(s.calls[p], s.now); }
    case DoRandom(q, bytes) => if p == q { AfterRandomOk(s.calls[p], bytes); }
    case _ =>
  }

  lemma {:induction false} FirstKeeps(items: seq<Secret>, checks: seq<Option<Time>>, best: Option<nat>, now: Time)
    requires |checks| <= |items| && forall k :: 0 <= k < |checks| && checks[k].Some? ==> checks[k].value <= now
    ensures var c := First(items, checks, best);
            && !Relisted(c) && !c.Creating? && !c.Created? && !c.Failed? && (c.Found? ==> c.latest)
            && (Scanning(c) ==> c.items == items && forall k :: 0 <= k < |c.checks| && c.checks[k].Some? ==> c.checks[k].value <= now)
    decreases |items| - |checks|
  {
    if |checks| < |items| && !Readable(items[|checks|]) {
      FirstKeeps(items, checks + [None], best, now);
    }
  }

  lemma {:induction false} SecondKeeps(items: seq<Secret>, checks: seq<Option<Time>>, now: Time)
    requires |checks| <= |items| && forall k :: 0 <= k < |checks| && checks[k].Some? ==> checks[k].value <= now
    ensures var c := Second(items, checks);
            && (c.SecondScan? || c.Generating?) && c.items == items
            && forall k :: 0 <= k < |c.checks| && c.checks[k].Some? ==> c.checks[k].value <= now
    decreases |items| - |checks|
  {
    if |checks| < |items| && !Readable(items[|checks|]) {
      SecondKeeps(items, checks + [None], now);
    }
  }

  lemma ClockKeeps(c: Call, now: Time)
    requires CallOk(c) && (c.FirstScan? || c.SecondScan?)
    requires forall k :: 0 <= k < |c.checks| && c.checks[k].Some? ==> c.checks[k].value <= now
    ensures var d := AfterClock(c, now);
            && !d.Creating? && !d.Created? && !d.Stamping? && (Relisted(d) ==> c.SecondScan?)
            && (d.Found? && c.FirstScan? ==> d.latest)
            && (Scanning(d) ==> d.items == c.items && forall k :: 0 <= k < |d.checks| && d.checks[k].Some? ==> d.checks[k].value <= now)
  {
    var checks := c.checks + [Some(now)];
    FirstKeeps(c.items, checks, Some(|c.checks|), now);
    if c.FirstScan? { FirstKeeps(c.items, checks, c.best, now); }
    SecondKeeps(c.items, checks, now);
  }

  lemma CallCarries(s: State, t: State, p: nat)
    requires p in s.calls && CallsOk(s, p) && p in t.calls && t.calls[p] == s.calls[p]
    requires s.now <= t.now && s.step <= t.step && s.stored <= t.stored && (p in s.relisted ==> p in t.relisted && t.relisted[p] == s.relisted[p])
    ensures CallsOk(t, p)
  {
  }

  lemma CallsStep(s: State, step: Step, p: nat)
    requires Enabled(s, step) && Inv(s) && p in Apply(s, step).calls
    ensures CallsOk(Apply(s, step), p)
  {
    var t := Apply(s, step);
    if p in s.calls && t.calls[p] == s.calls[p] && !step.DoList? {
      CallCarries(s, t, p);
    } else {
      MoveOk(s, step, p);
      MovedCall(s, step, p);
    }
  }

  lemma ListedCall(s: State, step: Step)
    requires Enabled(s, step) && Inv(s) && step.DoList? && CallOk(Apply(s, step).calls[step.p])
    ensures CallsOk(Apply(s, step), step.p)
  {
    if step.answer.Some? {
      FirstKeeps(step.answer.value, [], None, s.now);
      SecondKeeps(step.answer.value, [], s.now);
    }
  }

  lemma ClockedCall(s: State, step: Step)
    requires Enabled(s, step) && Inv(s) && step.DoClock? && CallOk(Apply(s, step).calls[step.p])
    ensures CallsOk(Apply(s, step), step.p)
  {
    assert CallsOk(s, step.p);
    if !s.calls[step.p].Stamping? { ClockKeeps(s.calls[step.p], s.now); }
  }

  lemma MovedCall(s: State, step: Step, p: nat)
    requires Enabled(s, step) && Inv(s) && p in Apply(s, step).calls && CallOk(Apply(s, step).calls[p])
    requires p in s.calls && Apply(s, step).calls[p] == s.calls[p] ==> step.DoList?
    ensures CallsOk(Apply(s, step), p)
  {
    if step.DoList? && p == step.p {
      ListedCall(s, step);
    } else if step.DoClock? && p == step.p {
      ClockedCall(s, step);
    } else if p in s.calls {
      assert CallsOk(s, p);
    }
  }

  lemma NoticesCarries(s: State, t: State, p: nat, a: Creation)
    requires p in s.calls && p in t.calls && t.calls[p] == s.calls[p] && Notices(s, p, a) && s.now <= t.now
    requires p in s.relisted ==> p in t.relisted && t.relisted[p] == s.relisted[p]
    requires Relisted(s.calls[p]) ==> p in s.relisted
    ensures Notices(t, p, a)
  {
  }

  lemma NoticesListed(s: State, step: Step, a: Creation)
    requires Enabled(s, step) && Inv(s) && step.DoList? && a in s.creations
    ensures Notices(Apply(s, step), step.p, a)
  {
    assert CreationOk(s, a);
    if step.answer.Some? {
      FirstKeeps(step.answer.value, [], None, s.now);
      SecondKeeps(step.answer.value, [], s.now);
    }
  }

  lemma NoticesClocked(s: State, step: Step, a: Creation)
    requires Enabled(s, step) && Inv(s) && step.DoClock? && a in s.creations
    ensures Notices(Apply(s, step), step.p, a)
  {
    var c := s.calls[step.p];
    assert CallsOk(s, step.p) && Notices(s, step.p, a) && CreationOk(s, a);
    if !c.Stamping? {
      ClockKeeps(c, s.now);
    } else if a.secret in c.items {
      JudgedLongAgo(s, step.p, a);
    }
  }

  /** A creation that is new is later than any list. */
  lemma NoticesNew(s: State, step: Step, p: nat, a: Creation)
    requires Enabled(s, step) && Inv(s) && p in Apply(s, step).calls && a in Apply(s, step).creations && a !in s.creations
    ensures Notices(Apply(s, step), p, a)
  {
    if p in s.calls { assert CallsOk(s, p); }
  }

  lemma NoticesStep(s: State, step: Step, p: nat, a: Creation)
    requires Enabled(s, step) && Inv(s) && p in Apply(s, step).calls && a in Apply(s, step).creations
    ensures Notices(Apply(s, step), p, a)
  {
    if a !in s.creations {
      NoticesNew(s, step, p, a);
    } else if step.DoList? && p == step.p {
      NoticesListed(s, step, a);
    } else if step.DoClock? && p == step.p {
      NoticesClocked(s, step, a);
    } else if p in s.calls {
      assert CallsOk(s, p) && Notices(s, p, a);
      if Apply(s, step).calls[p] == s.calls[p] { NoticesCarries(s, Apply(s, step), p, a); }
    }
  }

  lemma SpacedStep(s: State, step: Step)
    requires Enabled(s, step) && Inv(s)
    ensures var cs := Apply(s, step).creations; forall i, j :: 0 <= i < j < |cs| ==> Spaced(cs[i], cs[j])
  {
    if step.DoCreate? && step.applied {
      var p := step.p;
      assert CallsOk(s, p);
      forall i | 0 <= i < |s.creations| ensures Spaced(s.creations[i], Apply(s, step).creations[|s.creations|]) {
        assert Notices(s, p, s.creations[i]);
      }
    }
  }

  lemma {:induction false} InvAlways(run: seq<State>, steps: seq<Step>, k: nat)
    requires IsRun(run, steps) && k < |run|
    ensures Inv(run[k])
  {
    if k > 0 {
      var s, step := run[k - 1], steps[k - 1];
      InvAlways(run, steps, k - 1);
      CreationsStep(s, step);
      forall p | p in run[k].calls ensures CallsOk(run[k], p) { CallsStep(s, step, p); }
      forall p, a | p in run[k].calls && a in run[k].creations ensures Notices(run[k], p, a) { NoticesStep(s, step, p, a); }
      SpacedStep(s, step);
    }
  }

  /**
   * Two tokens stamped at most ten hours less a second apart come from calls that overlapped: the later call listed
   * before the earlier token was stored.
   */
  lemma CreationSpacing(run: seq<State>, steps: seq<Step>, k: nat, i: nat, j: nat)
    requires IsRun(run, steps) && k < |run| && i < j < |run[k].creations|
    requires -SPACING <= run[k].creations[j].stamped - run[k].creations[i].stamped <= SPACING
    ensures run[k].creations[j].relisted < run[k].creations[i].created
  {
    InvAlways(run, steps, k);
    assert Spaced(run[k].creations[i], run[k].creations[j]);
  }

  /** Calls that do not overlap create tokens more than ten hours less a second apart. */
  lemma SerializedSpacing(run: seq<State>, steps: seq<Step>, k: nat, i: nat, j: nat)
    requires IsRun(run, steps) && k < |run| && i < j < |run[k].creations|
    requires run[k].creations[i].created < run[k].creations[j].relisted
    ensures run[k].creations[j].stamped - run[k].creations[i].stamped > 10 * HOUR - SECOND
  {
    InvAlways(run, steps, k);
    assert Spaced(run[k].creations[i], run[k].creations[j]);
  }

  /**
   * In every run, a token handed out is that of a secret that was stored: a listed one with more than two hours left when
   * judged, of those the last to expire if the call listed only once, or the one the call created.
   */
  lemma HandedOut(run: seq<State>, steps: seq<Step>, k: nat, p: nat) returns (s: Secret)
    requires IsRun(run, steps) && k < |run| && p in run[k].calls && Ended(run[k].calls[p]) && !run[k].calls[p].Failed?
    ensures var c := run[k].calls[p];
            && Backs(c, s) && s in run[k].stored && (c.Found? ==> c.chosen < |c.items|)
            && Answer(c) == Ok(s.id + "." + s.secret)
            && (c.Found? && p !in run[k].relisted ==> c.latest)
            && (c.Found? ==> c.checks[c.chosen].value <= run[k].now)
  {
    InvAlways(run, steps, k);
    assert CallsOk(run[k], p);
    s := AnswerGuarantee(run[k].calls[p]);
  }

  /** A list, a draw or a creation that fails ends the call with that failure, and one that succeeds does not. */
  lemma FailuresEnd(run: seq<State>, steps: seq<Step>, k: nat)
    requires IsRun(run, steps) && k < |steps| && (steps[k].DoList? || steps[k].DoRandom? || steps[k].DoCreate?)
    ensures steps[k].p in run[k + 1].calls
    ensures var d := run[k + 1].calls[steps[k].p];
            && (d.Failed? <==> match steps[k]
                               case DoList(_, answer) => answer == None
                               case DoRandom(_, bytes) => bytes == None
                               case DoCreate(_, _, ok) => !ok)
            && (d.Failed? ==> d.error == if steps[k].DoList? then ListFailed else if steps[k].DoRandom? then RandomFailed else CreateFailed)
            && (steps[k].DoCreate? && steps[k].ok ==> d == Created(run[k].calls[steps[k].p].minted, run[k].calls[steps[k].p].at))
  {
    if steps[k].DoList? && steps[k].answer.Some? {
      FirstKeeps(steps[k].answer.value, [], None, run[k].now);
      SecondKeeps(steps[k].answer.value, [], run[k].now);
    }
  }

  // ---- The bound is tight ----

  lemma Extend(run: seq<State>, steps: seq<Step>, step: Step) returns (run': seq<State>, steps': seq<Step>)
    requires IsRun(run, steps) && Enabled(run[|run| - 1], step)
    ensures IsRun(run', steps') && |run'| > 0 && run'[|run'| - 1] == Apply(run[|run| - 1], step)
  {
    run', steps' := run + [Apply(run[|run| - 1], step)], steps + [step];
  }

  function Bytes(b: int): (r: seq<int>)
    requires 0 <= b < 256
    ensures Is22Bytes(r)
  {
    seq(22, _ => b)
  }

  /** What a call that drew the same byte throughout mints at a time. */
  function Minted(b: int, at: Time): Secret
    requires 0 <= b < 256
  {
    var letters := Letters(Bytes(b));
    var id := Text(letters[..6]);
    Secret("bootstrap-token-" + id, id, Text(letters[6..]), Some(WholeSeconds(at + LIFETIME)))
  }

  /** Listing nothing, or one token that does not last, a call comes to generate one. */
  lemma FindsNone(run: seq<State>, steps: seq<Step>, p: nat) returns (run': seq<State>, steps': seq<Step>)
    requires IsRun(run, steps) && p !in run[|run| - 1].calls && run[|run| - 1].secrets == map[]
    ensures IsRun(run', steps') && |run'| > 0
    ensures var s, t := run[|run| - 1], run'[|run'| - 1];
            && t.now == s.now && t.step == s.step + 3 && t.secrets == s.secrets && t.creations == s.creations
            && t.calls == s.calls[p := Generating([], [])] && t.relisted == s.relisted[p := s.step + 2]
  {
    run', steps' := Extend(run, steps, Start(p));
    run', steps' := Extend(run', steps', DoList(p, Some([])));
    assert run'[|run'| - 1].calls == run[|run| - 1].calls[p := SecondList];
    run', steps' := Extend(run', steps', DoList(p, Some([])));
  }

  lemma FindsExpiring(run: seq<State>, steps: seq<Step>, p: nat, m: Secret) returns (run': seq<State>, steps': seq<Step>)
    requires IsRun(run, steps) && p !in run[|run| - 1].calls && run[|run| - 1].secrets == map[m.name := m]
    requires Readable(m) && !Lasting(m, run[|run| - 1].now)
    ensures IsRun(run', steps') && |run'| > 0
    ensures var s, t := run[|run| - 1], run'[|run'| - 1];
            && t.now == s.now && t.secrets == s.secrets && t.creations == s.creations && p in t.calls && p in t.relisted
            && t.calls[p] == Generating([m], [Some(s.now)]) && t.relisted[p] >= s.step
  {
    var s := run[|run| - 1];
    run', steps' := Extend(run, steps, Start(p));
    run', steps' := Extend(run', steps', DoList(p, Some([m])));
    assert run'[|run'| - 1].calls[p] == FirstScan([m], [], None);
    run', steps' := Extend(run', steps', DoClock(p));
    assert run'[|run'| - 1].calls[p] == SecondList && run'[|run'| - 1].now == s.now;
    run', steps' := ListsExpiring(run', steps', p, m);
  }

  lemma ListsExpiring(run: seq<State>, steps: seq<Step>, p: nat, m: Secret) returns (run': seq<State>, steps': seq<Step>)
    requires IsRun(run, steps) && p in run[|run| - 1].calls && run[|run| - 1].calls[p] == SecondList
    requires run[|run| - 1].secrets == map[m.name := m] && Readable(m) && !Lasting(m, run[|run| - 1].now)
    ensures IsRun(run', steps') && |run'| > 0
    ensures var s, t := run[|run| - 1], run'[|run'| - 1];
            && t.now == s.now && t.secrets == s.secrets && t.creations == s.creations && p in t.calls && p in t.relisted
            && t.calls[p] == Generating([m], [Some(s.now)]) && t.relisted[p] == s.step
  {
    run', steps' := Extend(run, steps, DoList(p, Some([m])));
    assert run'[|run'| - 1].calls[p] == SecondScan([m], []);
    run', steps' := Extend(run', steps', DoClock(p));
  }

  lemma Mints(run: seq<State>, steps: seq<Step>, p: nat, b: int) returns (run': seq<State>, steps': seq<Step>)
    requires IsRun(run, steps) && 0 <= b < 256 && p in run[|run| - 1].calls && p in run[|run| - 1].relisted
    requires run[|run| - 1].calls[p].Generating? && Minted(b, run[|run| - 1].now).name !in run[|run| - 1].secrets
    ensures IsRun(run', steps') && |run'| > 0
    ensures var s, t := run[|run| - 1], run'[|run'| - 1];
            var m := Minted(b, s.now);
            && t.now == s.now && t.secrets == s.secrets[m.name := m] && t.calls.Keys == s.calls.Keys && t.step == s.step + 3
            && t.creations == s.creations + [Creation(m, s.now, s.relisted[p], s.step + 2)]
  {
    var s, c := run[|run| - 1], run[|run| - 1].calls[p];
    run', steps' := Extend(run, steps, DoRandom(p, Some(Bytes(b))));
    run', steps' := Extend(run', steps', DoClock(p));
    assert run'[|run'| - 1].calls[p] == Creating(c.items, c.checks, Minted(b, s.now), s.now);
    run', steps' := Extend(run', steps', DoCreate(p, true, true));
  }

  lemma MintedReadable(b: int, at: Time)
    requires 0 <= b < 256
    ensures Readable(Minted(b, at))
  {
    AfterRandomOk(Generating([], []), Some(Bytes(b)));
  }

  lemma MintedApart(at: Time, later: Time)
    ensures Minted(0, at).name != Minted(1, later).name
  {
    var a, b := Minted(0, at), Minted(1, later);
    assert a.name[|"bootstrap-token-"|..] == a.id && b.name[|"bootstrap-token-"|..] == b.id;
    FirstLetters();
    assert a.id[0] == Letter(0) as char && b.id[0] == Letter(1) as char;
  }

  lemma FirstLetters()
    ensures Letter(0) as char == 'a' && Letter(1) as char == 'b'
  {
  }

  /** Calls one after the other can create tokens a single nanosecond more than the spacing apart. */
  lemma SpacingIsTight() returns (run: seq<State>, steps: seq<Step>)
    ensures IsRun(run, steps) && |run| > 0 && |run[|run| - 1].creations| == 2
    ensures var cs := run[|run| - 1].creations;
            cs[0].created < cs[1].relisted && cs[1].stamped - cs[0].stamped == SPACING + 1
  {
    var first := Minted(0, SECOND - 1);
    MintedReadable(0, SECOND - 1);
    MintedApart(SECOND - 1, 10 * HOUR);
    assert first.expiry == Some(12 * HOUR);
    run, steps := [State(SECOND - 1, 0, map[], {}, map[], map[], [])], [];
    run, steps := FindsNone(run, steps, 0);
    run, steps := Mints(run, steps, 0, 0);
    assert run[|run| - 1].secrets == map[first.name := first];
    run, steps := Extend(run, steps, Tick(10 * HOUR - SECOND + 1));
    run, steps := FindsExpiring(run, steps, 1, first);
    run, steps := Mints(run, steps, 1, 1);
  }
}
