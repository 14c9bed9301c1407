/** Byte-wise string order, sorting, and the string helpers the provider relies on. */
module Strings {
  import opened Prelude

  /** The order of Go's `<` on strings and of `sort.Strings`. */
  predicate Less(a: string, b: string) {
    b != "" && (a == "" || a[0] < b[0] || (a[0] == b[0] && Less(a[1..], b[1..])))
  }

  /** At the first place where they differ the smaller string has the smaller byte, or has ended. */
  lemma {:induction false} LessExactly(a: string, b: string)
    ensures Less(a, b) <==> exists k :: FirstSmaller(a, b, k)
  {
    if b != "" && a != "" && a[0] == b[0] {
      LessExactly(a[1..], b[1..]);
      if Less(a, b) {
        var k :| FirstSmaller(a[1..], b[1..], k);
        assert a[..k + 1] == [a[0]] + a[1..][..k] && b[..k + 1] == [b[0]] + b[1..][..k];
        assert FirstSmaller(a, b, k + 1);
      }
      forall k | FirstSmaller(a, b, k) ensures FirstSmaller(a[1..], b[1..], k - 1) {
        assert k > 0;
        assert a[1..][..k - 1] == a[..k][1..] && b[1..][..k - 1] == b[..k][1..];
      }
    } else if Less(a, b) {
      assert FirstSmaller(a, b, 0);
    } else if b != "" {
      forall k | FirstSmaller(a, b, k) ensures false {
        SameStart(a, b, k);
      }
    }
  }

  lemma SameStart(a: string, b: string, k: int)
    requires 0 <= k <= |a| && k <= |b| && a[..k] == b[..k]
    ensures k > 0 ==> a[0] == b[0]
  {
    if k > 0 { assert a[..k][0] == b[..k][0]; }
  }

  predicate FirstSmaller(a: string, b: string, k: int) {
    0 <= k <= |a| && k < |b| && a[..k] == b[..k] && (k == |a| || a[k] < b[k])
  }

  lemma {:induction false} LessTotal(a: string, b: string)
    ensures a == b || Less(a, b) || Less(b, a)
  {
    if a != "" && b != "" && a[0] == b[0] {
      LessTotal(a[1..], b[1..]);
      assert a == [a[0]] + a[1..] && b == [b[0]] + b[1..];
    }
  }

  lemma {:induction false} LessTransitive(a: string, b: string, c: string)
    requires Less(a, b) && Less(b, c)
    ensures Less(a, c)
  {
    if a != "" && a[0] == b[0] && b[0] == c[0] {
      LessTransitive(a[1..], b[1..], c[1..]);
    }
  }

  lemma {:induction false} LessIrreflexive(a: string)
    ensures !Less(a, a)
  {
    if a != "" {
      LessIrreflexive(a[1..]);
    }
  }

  ghost predicate Ascending(s: seq<string>) {
    forall i, j :: 0 <= i < j < |s| ==> Less(s[i], s[j])
  }

  /** A set of strings can be written in ascending order in only one way. */
  lemma {:induction false} AscendingUnique(a: seq<string>, b: seq<string>)
    requires Ascending(a) && Ascending(b)
    requires forall x :: x in a <==> x in b
    ensures a == b
  {
    if a != [] { assert a[0] in b; }
    if b != [] { assert b[0] in a; }
    if a != [] {
      var i :| 0 <= i < |a| && a[i] == b[0];
      var j :| 0 <= j < |b| && b[j] == a[0];
      if i > 0 && j > 0 {
        LessTransitive(a[0], a[i], b[j]);
        LessIrreflexive(a[0]);
      }
      assert a[0] == b[0];
      forall x ensures x in a[1..] <==> x in b[1..] {
        LessIrreflexive(a[0]);
        if x in a[1..] { assert x in a; }
        if x in b[1..] { assert x in b; }
      }
      AscendingUnique(a[1..], b[1..]);
      assert a == [a[0]] + a[1..] && b == [b[0]] + b[1..];
    }
  }

  /** Inserts into an ascending sequence; equal elements are kept once. */
  function Insert(x: string, s: seq<string>): (r: seq<string>)
    ensures forall y :: y in r <==> y == x || y in s
  {
    if s == [] then [x]
    else if x == s[0] then s
    else if Less(x, s[0]) then [x] + s
    else [s[0]] + Insert(x, s[1..])
  }

  lemma {:induction false} InsertAscending(x: string, s: seq<string>)
    requires Ascending(s)
    ensures Ascending(Insert(x, s))
  {
    if s == [] || x == s[0] {
    } else if Less(x, s[0]) {
      forall k | 0 <= k < |s| ensures Less(x, s[k]) {
        if k > 0 { LessTransitive(x, s[0], s[k]); }
      }
    } else {
      LessTotal(x, s[0]);
      var rest := Insert(x, s[1..]);
      InsertAscending(x, s[1..]);
      forall k | 0 <= k < |rest| ensures Less(s[0], rest[k]) {
        assert rest[k] in rest;
        if rest[k] != x { var m :| 0 <= m < |s[1..]| && s[1..][m] == rest[k]; }
      }
    }
  }

  /** `sort.Strings` on the keys of a map: all its inputs here are free of duplicates. */
  function Sorted(s: seq<string>): (r: seq<string>)
    ensures Ascending(r)
    ensures forall y :: y in r <==> y in s
  {
    if s == [] then []
    else
      var rest := Sorted(s[1..]);
      InsertAscending(s[0], rest);
      Insert(s[0], rest)
  }

  /** Collects and sorts the keys of a map, whatever order the map is iterated in. */
  method SortedSet(keys: set<string>) returns (out: seq<string>)
    ensures Ascending(out)
    ensures forall x :: x in out <==> x in keys
  {
    var left := keys;
    out := [];
    while left != {}
      invariant left <= keys
      invariant forall x :: x in out <==> x in keys - left
      decreases |left|
    {
      var x :| x in left;
      out := out + [x];
      left := left - {x};
    }
    out := Sorted(out);
  }

  /** The least string of a set. */
  ghost predicate IsLeast(x: string, keys: set<string>) {
    x in keys && forall y :: y in keys && y != x ==> Less(x, y)
  }

  lemma {:induction false} LeastExists(keys: set<string>)
    requires keys != {}
    ensures exists x :: IsLeast(x, keys)
  {
    var k :| k in keys;
    if keys == {k} {
      assert IsLeast(k, keys);
    } else {
      LeastExists(keys - {k});
      var x :| IsLeast(x, keys - {k});
      LessTotal(x, k);
      if Less(x, k) {
        assert IsLeast(x, keys);
      } else {
        forall y | y in keys && y != k ensures Less(k, y) {
          if y != x { LessTransitive(k, x, y); }
        }
        assert IsLeast(k, keys);
      }
    }
  }

  /** The elements of a set in ascending order. */
  ghost function Enumerated(keys: set<string>): (r: seq<string>)
    ensures Ascending(r)
    ensures forall y :: y in r <==> y in keys
  {
    if keys == {} then []
    else
      LeastExists(keys);
      var x :| x in keys && IsLeast(x, keys);
      [x] + Enumerated(keys - {x})
  }

  // ---- Trimming. Go strings are byte strings: each character stands for one byte, and white space is told by its UTF-8 form.

  predicate AsciiSpace(c: char) {
    '\t' <= c <= '\r' || c == ' '
  }

  /** U+0085 and U+00A0. */
  predicate TwoByteSpace(a: char, b: char) {
    a == '\U{C2}' && (b == '\U{85}' || b == '\U{A0}')
  }

  /** U+1680, U+2000 to U+200A, U+2028, U+2029, U+202F, U+205F and U+3000. */
  predicate ThreeByteSpace(a: char, b: char, c: char) {
    || (a == '\U{E1}' && b == '\U{9A}' && c == '\U{80}')
    || (a == '\U{E2}' && b == '\U{80}' && ('\U{80}' <= c <= '\U{8A}' || c == '\U{A8}' || c == '\U{A9}' || c == '\U{AF}'))
    || (a == '\U{E2}' && b == '\U{81}' && c == '\U{9F}')
    || (a == '\U{E3}' && b == '\U{80}' && c == '\U{80}')
  }

  /** How many bytes the white-space character takes that the string begins with; none if it begins with another. */
  function LeadingSpace(s: string): (n: nat)
    ensures n <= |s|
  {
    if |s| >= 1 && AsciiSpace(s[0]) then 1
    else if |s| >= 2 && TwoByteSpace(s[0], s[1]) then 2
    else if |s| >= 3 && ThreeByteSpace(s[0], s[1], s[2]) then 3
    else 0
  }

  function TrailingSpace(s: string): (n: nat)
    ensures n <= |s|
  {
    var e := |s|;
    if e >= 1 && AsciiSpace(s[e - 1]) then 1
    else if e >= 2 && TwoByteSpace(s[e - 2], s[e - 1]) then 2
    else if e >= 3 && ThreeByteSpace(s[e - 3], s[e - 2], s[e - 1]) then 3
    else 0
  }

  function TrimLeft(s: string): string {
    if LeadingSpace(s) > 0 then TrimLeft(s[LeadingSpace(s)..]) else s
  }

  function TrimRight(s: string): string {
    if TrailingSpace(s) > 0 then TrimRight(s[..|s| - TrailingSpace(s)]) else s
  }

  function TrimSpace(s: string): string {
    TrimRight(TrimLeft(s))
  }

  /** The white-space characters of Unicode, in UTF-8. */
  const SPACES := [
    "\t", "\n", "\U{0B}", "\U{0C}", "\r", " ", "\U{C2}\U{85}", "\U{C2}\U{A0}", "\U{E1}\U{9A}\U{80}",
    "\U{E2}\U{80}\U{80}", "\U{E2}\U{80}\U{81}", "\U{E2}\U{80}\U{82}", "\U{E2}\U{80}\U{83}", "\U{E2}\U{80}\U{84}",
    "\U{E2}\U{80}\U{85}", "\U{E2}\U{80}\U{86}", "\U{E2}\U{80}\U{87}", "\U{E2}\U{80}\U{88}", "\U{E2}\U{80}\U{89}",
    "\U{E2}\U{80}\U{8A}", "\U{E2}\U{80}\U{A8}", "\U{E2}\U{80}\U{A9}", "\U{E2}\U{80}\U{AF}", "\U{E2}\U{81}\U{9F}",
    "\U{E3}\U{80}\U{80}"]

  predicate Space(w: string) {
    || (|w| == 1 && AsciiSpace(w[0]))
    || (|w| == 2 && TwoByteSpace(w[0], w[1]))
    || (|w| == 3 && ThreeByteSpace(w[0], w[1], w[2]))
  }

  lemma ListedSpaces()
    ensures forall k :: 0 <= k < |SPACES| ==> Space(SPACES[k])
  {
  }

  lemma SpacesListed(w: string)
    requires Space(w)
    ensures w in SPACES
  {
    if |w| == 1 {
      assert w == [w[0]];
      assert SPACES[0] == "\t" && SPACES[1] == "\n" && SPACES[2] == "\U{0B}" && SPACES[3] == "\U{0C}" && SPACES[4] == "\r" && SPACES[5] == " ";
    } else if |w| == 2 {
      assert w == [w[0], w[1]];
      assert SPACES[6] == "\U{C2}\U{85}" && SPACES[7] == "\U{C2}\U{A0}";
    } else {
      assert w == [w[0], w[1], w[2]];
      ThreeByteListed(w[2]);
      assert SPACES[8] == "\U{E1}\U{9A}\U{80}" && SPACES[23] == "\U{E2}\U{81}\U{9F}" && SPACES[24] == "\U{E3}\U{80}\U{80}";
    }
  }

  lemma ThreeByteListed(c: char)
    ensures '\U{80}' <= c <= '\U{8A}' ==> ['\U{E2}', '\U{80}', c] == SPACES[9 + c as int - 0x80]
    ensures c == '\U{A8}' ==> ['\U{E2}', '\U{80}', c] == SPACES[20]
    ensures c == '\U{A9}' ==> ['\U{E2}', '\U{80}', c] == SPACES[21]
    ensures c == '\U{AF}' ==> ['\U{E2}', '\U{80}', c] == SPACES[22]
  {
  }

  function Joined(parts: seq<string>): string {
    if parts == [] then "" else parts[0] + Joined(parts[1..])
  }

  predicate Ends(s: string, w: string) {
    |w| <= |s| && s[|s| - |w|..] == w
  }

  /** What is told as white space at the start of the string is in the list; and if none is, no string of the list starts it. */
  predicate LeadingOk(spaces: seq<string>, s: string) {
    if LeadingSpace(s) > 0 then s[..LeadingSpace(s)] in spaces else forall w :: w in spaces ==> !(w <= s)
  }

  predicate TrailingOk(spaces: seq<string>, s: string) {
    if TrailingSpace(s) > 0 then s[|s| - TrailingSpace(s)..] in spaces else forall w :: w in spaces ==> !Ends(s, w)
  }

  ghost predicate Tells(spaces: seq<string>) {
    forall s :: LeadingOk(spaces, s) && TrailingOk(spaces, s)
  }

  lemma SpaceLeads(s: string, w: string)
    requires Space(w) && w <= s
    ensures LeadingSpace(s) > 0
  {
  }

  lemma SpaceEnds(s: string, w: string)
    requires Space(w) && Ends(s, w)
    ensures TrailingSpace(s) > 0
  {
    assert forall j :: 0 <= j < |w| ==> s[|s| - |w| + j] == w[j];
  }

  lemma ListedIsSpace(w: string)
    requires w in SPACES
    ensures Space(w)
  {
    ListedSpaces();
  }

  lemma LeadingListed(s: string)
    ensures LeadingOk(SPACES, s)
  {
    if LeadingSpace(s) > 0 {
      SpacesListed(s[..LeadingSpace(s)]);
    } else {
      forall w | w in SPACES ensures !(w <= s) {
        ListedIsSpace(w);
        if w <= s { SpaceLeads(s, w); }
      }
    }
  }

  lemma TrailingListed(s: string)
    ensures TrailingOk(SPACES, s)
  {
    if TrailingSpace(s) > 0 {
      SpacesListed(s[|s| - TrailingSpace(s)..]);
    } else {
      forall w | w in SPACES ensures !Ends(s, w) {
        ListedIsSpace(w);
        if Ends(s, w) { SpaceEnds(s, w); }
      }
    }
  }

  lemma JoinedCons(w: string, parts: seq<string>, rest: string)
    ensures Joined([w] + parts) + rest == w + (Joined(parts) + rest)
  {
    assert ([w] + parts)[1..] == parts;
  }

  lemma {:induction false} JoinedAppend(parts: seq<string>, w: string)
    ensures Joined(parts + [w]) == Joined(parts) + w
  {
    if parts != [] {
      JoinedAppend(parts[1..], w);
      assert (parts + [w])[1..] == parts[1..] + [w];
    }
  }

  lemma {:induction false} TrimLeftExactly(spaces: seq<string>, s: string) returns (lead: seq<string>)
    requires Tells(spaces)
    ensures s == Joined(lead) + TrimLeft(s) && forall w :: w in lead ==> w in spaces
    ensures LeadingSpace(TrimLeft(s)) == 0
  {
    lead := [];
    var n := LeadingSpace(s);
    if n > 0 {
      assert LeadingOk(spaces, s);
      var rest := TrimLeftExactly(spaces, s[n..]);
      lead := [s[..n]] + rest;
      JoinedCons(s[..n], rest, TrimLeft(s));
      assert s == s[..n] + s[n..];
    }
  }

  lemma {:induction false} TrimRightExactly(spaces: seq<string>, s: string) returns (trail: seq<string>)
    requires Tells(spaces)
    ensures s == TrimRight(s) + Joined(trail) && forall w :: w in trail ==> w in spaces
    ensures TrailingSpace(TrimRight(s)) == 0
  {
    trail := [];
    var n := |s| - TrailingSpace(s);
    if n < |s| {
      assert TrailingOk(spaces, s);
      var rest := TrimRightExactly(spaces, s[..n]);
      trail := rest + [s[n..]];
      JoinedAppend(rest, s[n..]);
      Associative(TrimRight(s), Joined(rest), s[n..]);
      assert s == s[..n] + s[n..];
    }
  }

  lemma Associative(a: string, b: string, c: string)
    ensures a + (b + c) == a + b + c
  {
  }

  lemma NoPrefix(spaces: seq<string>, t: string, rest: string)
    requires forall w :: w in spaces ==> !(w <= t + rest)
    ensures forall w :: w in spaces ==> !(w <= t)
  {
    assert t <= t + rest;
  }

  lemma TrimBoth(spaces: seq<string>, s: string) returns (lead: seq<string>, trail: seq<string>)
    requires Tells(spaces)
    ensures s == Joined(lead) + TrimSpace(s) + Joined(trail)
    ensures forall w :: w in lead || w in trail ==> w in spaces
    ensures forall w :: w in spaces ==> !(w <= TrimSpace(s)) && !Ends(TrimSpace(s), w)
  {
    var left := TrimLeft(s);
    lead := TrimLeftExactly(spaces, s);
    trail := TrimRightExactly(spaces, left);
    var middle := TrimRight(left);
    Associative(Joined(lead), middle, Joined(trail));
    assert LeadingOk(spaces, left) && TrailingOk(spaces, middle);
    NoPrefix(spaces, middle, Joined(trail));
  }

  /** Trimming takes white-space characters, and nothing else, off both ends, and all of them. */
  lemma TrimSpaceExactly(s: string) returns (lead: seq<string>, trail: seq<string>)
    ensures s == Joined(lead) + TrimSpace(s) + Joined(trail)
    ensures forall w :: w in lead || w in trail ==> w in SPACES
    ensures forall w :: w in SPACES ==> !(w <= TrimSpace(s)) && !Ends(TrimSpace(s), w)
  {
    forall t: string ensures LeadingOk(SPACES, t) && TrailingOk(SPACES, t) {
      LeadingListed(t);
      TrailingListed(t);
    }
    lead, trail := TrimBoth(SPACES, s);
  }

  predicate HexDigit(c: char) {
    '0' <= c <= '9' || 'a' <= c <= 'f' || 'A' <= c <= 'F'
  }

  function TrimPrefix(s: string, prefix: string): string {
    if prefix <= s then s[|prefix|..] else s
  }
}
