/** kubeadm bootstrap tokens: reuse of stored ones, and creation of a fresh one when none has two hours left. */
module TokenCall {
  import opened Prelude

  const LIFETIME: Time := 12 * HOUR
  const REFRESH: Time := 2 * HOUR
  const ALPHABET := "abcdefghijklmnopqrstuvwxyz0123456789"

  /** A managed Secret: the fields a token is read from, and its expiration if that parses. A missing field reads empty. */
  datatype Secret = Secret(name: string, id: string, secret: string, expiry: Option<Time>)

  predicate TokenChar(c: char) {
    'a' <= c <= 'z' || '0' <= c <= '9'
  }

  predicate AllTokenChars(s: string) {
    forall c :: c in s ==> TokenChar(c)
  }

  /** The pattern `^[a-z0-9]{6}\.[a-z0-9]{16}$`. */
  predicate WellFormed(token: string) {
    |token| == 23 && token[6] == '.' && AllTokenChars(token[..6]) && AllTokenChars(token[7..])
  }

  function Join(id: string, secret: string): string {
    id + "." + secret
  }

  predicate Usable(s: Secret) {
    |s.id| == 6 && AllTokenChars(s.id) && WellFormed(Join(s.id, s.secret))
  }

  /** Joined from parts of any length, a string fits the pattern exactly when its parts do. */
  lemma WellFormedParts(id: string, secret: string)
    ensures |id| == 6 && AllTokenChars(id) && WellFormed(Join(id, secret)) <==>
            |id| == 6 && |secret| == 16 && AllTokenChars(id) && AllTokenChars(secret)
  {
  }

  function TokenOf(s: Secret): string {
    Join(s.id, s.secret)
  }

  predicate AreBytes(bytes: seq<int>) {
    forall b :: b in bytes ==> 0 <= b < 256
  }

  /** The letter a random byte becomes, as a byte. */
  function Letter(b: int): (l: int)
    ensures 0 <= l < 256 && TokenChar(l as char)
  {
    assert forall k :: 0 <= k < |ALPHABET| ==> TokenChar(ALPHABET[k]);
    ALPHABET[b % |ALPHABET|] as int
  }

  function Letters(bytes: seq<int>): seq<int> {
    seq(|bytes|, k requires 0 <= k < |bytes| => Letter(bytes[k]))
  }

  function Text(bytes: seq<int>): string
    requires AreBytes(bytes)
  {
    seq(|bytes|, k requires 0 <= k < |bytes| => assert bytes[k] in bytes; bytes[k] as char)
  }

  predicate Is22Bytes(r: seq<int>) {
    |r| == 22 && AreBytes(r)
  }

  datatype Error = ListFailed | RandomFailed | CreateFailed

  /**
   * Where one call stands. In the two scans `items[|checks|]` is the secret under examination; `checks` keeps the clock
   * reading each earlier one was judged by, if it got that far.
   */
  datatype Call =
    | FirstList
    | FirstScan(items: seq<Secret>, checks: seq<Option<Time>>, best: Option<nat>)
    | SecondList
    | SecondScan(items: seq<Secret>, checks: seq<Option<Time>>)
    | Generating(items: seq<Secret>, checks: seq<Option<Time>>)
    | Stamping(items: seq<Secret>, checks: seq<Option<Time>>, id: string, secret: string)
    | Creating(items: seq<Secret>, checks: seq<Option<Time>>, minted: Secret, at: Time)
    | Found(items: seq<Secret>, checks: seq<Option<Time>>, chosen: nat, latest: bool)
    | Created(minted: Secret, at: Time)
    | Failed(error: Error)

  /** Skips the secrets that no token or no expiration can be read from. */
  function First(items: seq<Secret>, checks: seq<Option<Time>>, best: Option<nat>): Call
    requires |checks| <= |items|
    decreases |items| - |checks|
  {
    if |checks| == |items| then
      match best
      case None => SecondList
      case Some(b) => Found(items, checks, b, true)
    else if Readable(items[|checks|]) then FirstScan(items, checks, best)
    else First(items, checks + [None], best)
  }

  predicate Readable(s: Secret) {
    Usable(s) && s.expiry.Some?
  }

  function Second(items: seq<Secret>, checks: seq<Option<Time>>): Call
    requires |checks| <= |items|
    decreases |items| - |checks|
  {
    if |checks| == |items| then Generating(items, checks)
    else if Readable(items[|checks|]) then SecondScan(items, checks)
    else Second(items, checks + [None])
  }

  predicate AtSecret(c: Call) {
    (c.FirstScan? || c.SecondScan?) && |c.checks| < |c.items| && Readable(c.items[|c.checks|])
    && (c.FirstScan? && c.best.Some? ==> c.best.value < |c.checks| && c.items[c.best.value].expiry.Some?)
  }

  predicate Lasting(s: Secret, now: Time)
    requires s.expiry.Some?
  {
    s.expiry.value > now + REFRESH
  }

  function AfterList(c: Call, answer: Option<seq<Secret>>): Call
    requires c.FirstList? || c.SecondList?
  {
    match answer
    case None => Failed(ListFailed)
    case Some(items) => if c.FirstList? then First(items, [], None) else Second(items, [])
  }

  function AfterClock(c: Call, now: Time): Call
    requires AtSecret(c) || c.Stamping?
  {
    if c.Stamping? then
      Creating(c.items, c.checks, Secret("bootstrap-token-" + c.id, c.id, c.secret, Some(WholeSeconds(now + LIFETIME))), now)
    else
      var k, checks := |c.checks|, c.checks + [Some(now)];
      var s := c.items[k];
      if c.SecondScan? then
        if Lasting(s, now) then Found(c.items, checks, k, false) else Second(c.items, checks)
      else if Lasting(s, now) && (c.best == None || s.expiry.value > c.items[c.best.value].expiry.value) then
        First(c.items, checks, Some(k))
      else First(c.items, checks, c.best)
  }

  function AfterRandom(c: Call, bytes: Option<seq<int>>): Call
    requires c.Generating?
    requires bytes.Some? ==> Is22Bytes(bytes.value)
  {
    match bytes
    case None => Failed(RandomFailed)
    case Some(r) =>
      var letters := Letters(r);
      Stamping(c.items, c.checks, Text(letters[..6]), Text(letters[6..]))
  }

  function AfterCreate(c: Call, ok: bool): Call
    requires c.Creating?
  {
    if ok then Created(c.minted, c.at) else Failed(CreateFailed)
  }

  predicate Ended(c: Call) {
    c.Found? || c.Created? || c.Failed?
  }

  function Answer(c: Call): Result<string, Error>
    requires Ended(c)
    requires c.Found? ==> c.chosen < |c.items|
  {
    match c
    case Found(items, _, chosen, _) => Ok(TokenOf(items[chosen]))
    case Created(minted, _) => Ok(TokenOf(minted))
    case Failed(e) => Err(e)
  }

  // ---- What every reachable position guarantees ----

  predicate Passed(items: seq<Secret>, checks: seq<Option<Time>>, k: nat) {
    k < |checks| <= |items| && checks[k].Some? && Readable(items[k]) && Lasting(items[k], checks[k].value)
  }

  predicate CallOk(c: Call) {
    match c
    case FirstScan(items, checks, best) => AtSecret(c) && BestOf(items, checks, best)
    case SecondScan(items, checks) => AtSecret(c) && NonePassed(items, checks)
    case Generating(items, checks) => |checks| == |items| && NonePassed(items, checks)
    case Stamping(items, checks, id, secret) => |checks| == |items| && NonePassed(items, checks) && Usable(Secret("", id, secret, None))
    case Creating(items, checks, minted, at) => |checks| == |items| && NonePassed(items, checks) && MintedOk(minted, at)
    case Found(items, checks, best, latest) => Passed(items, checks, best) && (latest ==> |checks| == |items| && BestOf(items, checks, Some(best)))
    case Created(minted, at) => MintedOk(minted, at)
    case _ => true
  }

  predicate MintedOk(minted: Secret, at: Time) {
    Usable(minted) && minted.expiry == Some(WholeSeconds(at + LIFETIME)) && minted.name == "bootstrap-token-" + minted.id
  }

  predicate AllJudged(items: seq<Secret>, checks: seq<Option<Time>>) {
    |checks| <= |items| && forall k :: 0 <= k < |checks| && Readable(items[k]) ==> checks[k].Some?
  }

  /** Every readable secret was judged, and none had enough time left. */
  predicate NonePassed(items: seq<Secret>, checks: seq<Option<Time>>) {
    AllJudged(items, checks) && forall k :: 0 <= k < |checks| ==> !Passed(items, checks, k)
  }

  /** The best so far passed, and no other that passed expires later; there is none only if none passed. */
  predicate BestOf(items: seq<Secret>, checks: seq<Option<Time>>, best: Option<nat>) {
    AllJudged(items, checks) &&
    match best
    case None => NonePassed(items, checks)
    case Some(b) =>
      Passed(items, checks, b)
      && forall k :: 0 <= k < |checks| && Passed(items, checks, k) ==> items[k].expiry.value <= items[b].expiry.value
  }

  lemma {:induction false} FirstOk(items: seq<Secret>, checks: seq<Option<Time>>, best: Option<nat>)
    requires BestOf(items, checks, best)
    ensures CallOk(First(items, checks, best))
    decreases |items| - |checks|
  {
    if |checks| < |items| && !Readable(items[|checks|]) {
      var next := checks + [None];
      assert forall k :: 0 <= k < |next| && Passed(items, next, k) ==> k < |checks| && Passed(items, checks, k);
      FirstOk(items, next, best);
    }
  }

  lemma {:induction false} SecondOk(items: seq<Secret>, checks: seq<Option<Time>>)
    requires NonePassed(items, checks)
    ensures CallOk(Second(items, checks))
    decreases |items| - |checks|
  {
    if |checks| < |items| && !Readable(items[|checks|]) {
      var next := checks + [None];
      assert forall k :: 0 <= k < |checks| && Passed(items, next, k) ==> Passed(items, checks, k);
      SecondOk(items, next);
    }
  }

  lemma AfterListOk(c: Call, answer: Option<seq<Secret>>)
    requires c.FirstList? || c.SecondList?
    ensures CallOk(AfterList(c, answer))
  {
    if answer.Some? {
      FirstOk(answer.value, [], None);
      SecondOk(answer.value, []);
    }
  }

  lemma AfterClockOk(c: Call, now: Time)
    requires CallOk(c) && (c.FirstScan? || c.SecondScan? || c.Stamping?)
    ensures CallOk(AfterClock(c, now))
  {
    if !c.Stamping? {
      var k, checks := |c.checks|, c.checks + [Some(now)];
      assert forall j :: 0 <= j < k ==> (Passed(c.items, checks, j) <==> Passed(c.items, c.checks, j));
      assert Passed(c.items, checks, k) <==> Lasting(c.items[k], now);
      if c.SecondScan? {
        if !Lasting(c.items[k], now) { SecondOk(c.items, checks); }
      } else if Lasting(c.items[k], now) && (c.best == None || c.items[k].expiry.value > c.items[c.best.value].expiry.value) {
        FirstOk(c.items, checks, Some(k));
      } else {
        FirstOk(c.items, checks, c.best);
      }
    }
  }

  lemma AfterRandomOk(c: Call, bytes: Option<seq<int>>)
    requires CallOk(c) && c.Generating? && (bytes.Some? ==> Is22Bytes(bytes.value))
    ensures CallOk(AfterRandom(c, bytes))
  {
  }

  /** A secret a token can be read from, in full: six and sixteen small letters or digits, and an expiration. */
  predicate Offers(s: Secret) {
    && |s.id| == 6 && |s.secret| == 16 && s.expiry.Some?
    && (forall k :: 0 <= k < 6 ==> 'a' <= s.id[k] <= 'z' || '0' <= s.id[k] <= '9')
    && forall k :: 0 <= k < 16 ==> 'a' <= s.secret[k] <= 'z' || '0' <= s.secret[k] <= '9'
  }

  lemma ReadableOffers(s: Secret)
    ensures Readable(s) <==> Offers(s)
  {
    WellFormedParts(s.id, s.secret);
    CharsByIndex(s.id);
    CharsByIndex(s.secret);
  }

  lemma CharsByIndex(s: string)
    ensures AllTokenChars(s) <==> forall k :: 0 <= k < |s| ==> 'a' <= s[k] <= 'z' || '0' <= s[k] <= '9'
  {
    if AllTokenChars(s) {
      forall k | 0 <= k < |s| ensures 'a' <= s[k] <= 'z' || '0' <= s[k] <= '9' { assert s[k] in s; }
    }
  }

  predicate JudgedLasting(c: Call, k: nat)
    requires c.Found?
  {
    k < |c.items| && k < |c.checks| && c.checks[k].Some? && Offers(c.items[k]) && c.items[k].expiry.value > c.checks[k].value + 2 * HOUR
  }

  /**
   * The secret behind an answer. A found one was listed and had more than two hours left when judged; from the first list
   * it is one that expires last of all such. A created one is new, and lasts twelve hours to the second.
   */
  predicate Backs(c: Call, s: Secret) {
    || (c.Found? && JudgedLasting(c, c.chosen) && s == c.items[c.chosen] && s in c.items
        && (c.latest ==> forall k :: 0 <= k < |c.items| && JudgedLasting(c, k) ==> c.items[k].expiry.value <= s.expiry.value))
    || (c.Created? && s == c.minted && Offers(s) && s.name == "bootstrap-token-" + s.id
        && c.at + 12 * HOUR - SECOND < s.expiry.value <= c.at + 12 * HOUR)
  }

  /** A call that ends without failure answers with the token of the secret behind it: its ID, a dot and its secret. */
  lemma AnswerGuarantee(c: Call) returns (s: Secret)
    requires CallOk(c) && Ended(c) && !c.Failed?
    ensures Backs(c, s) && (c.Found? ==> c.chosen < |c.items|)
    ensures Answer(c) == Ok(s.id + "." + s.secret) && WellFormed(s.id + "." + s.secret)
  {
    s := if c.Found? then c.items[c.chosen] else c.minted;
    ReadableOffers(s);
    if c.Found? {
      forall k | 0 <= k < |c.items| && JudgedLasting(c, k) ensures Passed(c.items, c.checks, k) {
        ReadableOffers(c.items[k]);
      }
    }
  }

  /** A call creates a token only after its second list showed none with more than two hours left when judged. */
  lemma CreatesOnlyIfNoneLasts(c: Call)
    requires CallOk(c) && c.Creating?
    ensures |c.checks| == |c.items|
    ensures forall k :: 0 <= k < |c.items| && Offers(c.items[k]) ==>
              c.checks[k].Some? && c.items[k].expiry.value <= c.checks[k].value + 2 * HOUR
  {
    forall k | 0 <= k < |c.items| && Offers(c.items[k])
      ensures c.checks[k].Some? && c.items[k].expiry.value <= c.checks[k].value + 2 * HOUR
    {
      ReadableOffers(c.items[k]);
      assert !Passed(c.items, c.checks, k);
    }
  }

  /** No randomness is lost but what does not fit the alphabet: two bytes give one letter only if they are equal modulo 36. */
  lemma LettersSpread(b: int, c: int)
    requires 0 <= b < 256 && 0 <= c < 256
    ensures Letter(b) == if b % 36 < 26 then 'a' as int + b % 36 else '0' as int + b % 36 - 26
    ensures Letter(b) == Letter(c) <==> b % 36 == c % 36
  {
    AlphabetAt(b % 36);
    AlphabetAt(c % 36);
  }

  lemma AlphabetAt(k: nat)
    requires k < 36
    ensures |ALPHABET| == 36 && ALPHABET[k] as int == if k < 26 then 'a' as int + k else '0' as int + k - 26
  {
  }
}
