/** `TokenProvider.Token` and `generateToken`. */
module TokenProvider {
  import opened Prelude
  import opened TokenCall

  /** API server, clock and random source as seen by one call, which may only do what its position asks for. */
  class Session {
    ghost var call: Call

    constructor ()
      ensures call == FirstList
    {
      call := FirstList;
    }

    method ListSecrets() returns (answer: Option<seq<Secret>>)
      requires call.FirstList? || call.SecondList?
      modifies this
      ensures call == AfterList(old(call), answer)
    {
      answer := *;
      call := AfterList(call, answer);
    }

    method Now() returns (now: Time)
      requires AtSecret(call) || call.Stamping?
      modifies this
      ensures call == AfterClock(old(call), now)
    {
      now := *;
      call := AfterClock(call, now);
    }

    method ReadRandom() returns (bytes: Option<seq<int>>)
      requires call.Generating?
      modifies this
      ensures bytes.Some? ==> Is22Bytes(bytes.value)
      ensures call == AfterRandom(old(call), bytes)
    {
      bytes := *;
      if bytes.Some? && !Is22Bytes(bytes.value) {
        bytes := None;
      }
      call := AfterRandom(call, bytes);
    }

    method CreateSecret(s: Secret) returns (ok: bool)
      requires call.Creating? && s == call.minted
      modifies this
      ensures call == AfterCreate(old(call), ok)
    {
      ok := *;
      call := AfterCreate(call, ok);
    }
  }

  /** Overwrites each byte of the buffer with its letter. */
  method SpellOut(random: array<int>)
    modifies random
    ensures random[..] == Letters(old(random[..]))
  {
    for i := 0 to random.Length
      invariant forall k :: 0 <= k < i ==> random[k] == Letter(old(random[k]))
      invariant forall k :: i <= k < random.Length ==> random[k] == old(random[k])
    {
      random[i] := ALPHABET[random[i] % |ALPHABET|] as int;
    }
  }

  method GenerateToken(world: Session) returns (token: Option<(string, string)>)
    requires world.call.Generating? && CallOk(world.call)
    modifies world
    ensures CallOk(world.call)
    ensures token == None ==> world.call == Failed(RandomFailed)
    ensures token.Some? ==> world.call == Stamping(old(world.call.items), old(world.call.checks), token.value.0, token.value.1)
  {
    ghost var before := world.call;
    var bytes := world.ReadRandom();
    AfterRandomOk(before, bytes);
    if bytes == None {
      return None;
    }
    var random := new int[22](k requires 0 <= k < 22 => bytes.value[k]);
    assert random[..] == bytes.value;
    SpellOut(random);
    return Some((Text(random[..6]), Text(random[6..])));
  }

  method Token(world: Session) returns (r: Result<string, Error>)
    requires world.call == FirstList
    modifies world
    ensures Ended(world.call) && CallOk(world.call) && Answer(world.call) == r
    ensures r.Ok? ==> exists s :: Backs(world.call, s) && r.value == s.id + "." + s.secret && WellFormed(r.value)
  {
    var list := world.ListSecrets();
    if list == None {
      return Err(ListFailed);
    }
    var items := list.value;
    AfterListOk(FirstList, list);
    var best: Option<nat> := None;
    ghost var checks: seq<Option<Time>> := [];
    for i := 0 to |items|
      invariant |checks| == i && (best.Some? ==> best.value < i && items[best.value].expiry.Some?)
      invariant world.call == First(items, checks, best) && CallOk(world.call)
    {
      if !Usable(items[i]) || items[i].expiry == None {
        checks := checks + [None];
        continue;
      }
      ghost var before := world.call;
      var now := world.Now();
      AfterClockOk(before, now);
      checks := checks + [Some(now)];
      if items[i].expiry.value <= now + REFRESH {
        continue;
      }
      if best == None || items[i].expiry.value > items[best.value].expiry.value {
        best := Some(i);
      }
    }
    if best.Some? {
      ghost var backing := AnswerGuarantee(world.call);
      return Ok(TokenOf(items[best.value]));
    }
    r := CreateUnlessCurrent(world);
  }

  /** The second half of `Token`: checks once more, then creates. */
  method CreateUnlessCurrent(world: Session) returns (r: Result<string, Error>)
    requires world.call == SecondList
    modifies world
    ensures Ended(world.call) && CallOk(world.call) && Answer(world.call) == r
    ensures r.Ok? ==> exists s :: Backs(world.call, s) && r.value == s.id + "." + s.secret && WellFormed(r.value)
  {
    var list := world.ListSecrets();
    if list == None {
      return Err(ListFailed);
    }
    var current := list.value;
    AfterListOk(SecondList, list);
    ghost var checks: seq<Option<Time>> := [];
    for i := 0 to |current|
      invariant |checks| == i
      invariant world.call == Second(current, checks) && CallOk(world.call)
    {
      if !Usable(current[i]) || current[i].expiry == None {
        checks := checks + [None];
        continue;
      }
      ghost var before := world.call;
      var now := world.Now();
      AfterClockOk(before, now);
      checks := checks + [Some(now)];
      if current[i].expiry.value > now + REFRESH {
        ghost var backing := AnswerGuarantee(world.call);
        return Ok(TokenOf(current[i]));
      }
    }
    var token := GenerateToken(world);
    if token == None {
      return Err(RandomFailed);
    }
    var (id, secret) := token.value;
    ghost var before := world.call;
    var now := world.Now();
    AfterClockOk(before, now);
    var ok := world.CreateSecret(Secret("bootstrap-token-" + id, id, secret, Some(WholeSeconds(now + LIFETIME))));
    if !ok {
      return Err(CreateFailed);
    }
    ghost var backing := AnswerGuarantee(world.call);
    return Ok(Join(id, secret));
  }
}
