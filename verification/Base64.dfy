/** Base64 as in section 4 of RFC 4648: padded, standard alphabet. Byte strings are strings of characters below 256. */
module Base64 {
  import opened Prelude

  predicate IsBytes(s: string) {
    forall c :: c in s ==> c as int < 256
  }

  function Digit(v: int): (c: char)
    requires 0 <= v < 64
    ensures IsDigit(c) && Value(c) == v
  {
    if v < 26 then ('A' as int + v) as char
    else if v < 52 then ('a' as int + v - 26) as char
    else if v < 62 then ('0' as int + v - 52) as char
    else if v == 62 then '+'
    else '/'
  }

  predicate IsDigit(c: char) {
    'A' <= c <= 'Z' || 'a' <= c <= 'z' || '0' <= c <= '9' || c == '+' || c == '/'
  }

  function Value(c: char): (v: int)
    requires IsDigit(c)
    ensures 0 <= v < 64
  {
    if 'A' <= c <= 'Z' then c as int - 'A' as int
    else if 'a' <= c <= 'z' then c as int - 'a' as int + 26
    else if '0' <= c <= '9' then c as int - '0' as int + 52
    else if c == '+' then 62
    else 63
  }

  /** Characters that may occur in an encoding. */
  predicate Encoded(c: char) {
    IsDigit(c) || c == '='
  }

  function Encode(s: string): (e: string)
    requires IsBytes(s)
    ensures forall c :: c in e ==> Encoded(c)
  {
    if s == "" then ""
    else
      assert s[0] in s;
      var a := s[0] as int;
      if |s| == 1 then [Digit(a / 4), Digit(a % 4 * 16), '=', '=']
      else
        assert s[1] in s;
        var b := s[1] as int;
        if |s| == 2 then [Digit(a / 4), Digit(a % 4 * 16 + b / 16), Digit(b % 16 * 4), '=']
        else
          assert s[2] in s && forall c :: c in s[3..] ==> c in s;
          var c := s[2] as int;
          [Digit(a / 4), Digit(a % 4 * 16 + b / 16), Digit(b % 16 * 4 + c / 64), Digit(c % 64)] + Encode(s[3..])
  }

  /** Decoding; `None` for text that is not a padded encoding. */
  function Decode(e: string): Option<string> {
    if e == "" then Some("")
    else if |e| < 4 || !IsDigit(e[0]) || !IsDigit(e[1]) then None
    else
      var a := Value(e[0]) * 4 + Value(e[1]) / 16;
      if e[2..] == "==" then Some([a as char])
      else if !IsDigit(e[2]) then None
      else
        var b := Value(e[1]) % 16 * 16 + Value(e[2]) / 4;
        if e[3..] == "=" then Some([a as char, b as char])
        else if !IsDigit(e[3]) then None
        else
          var c := Value(e[2]) % 4 * 64 + Value(e[3]);
          match Decode(e[4..])
          case None => None
          case Some(rest) => Some([a as char, b as char, c as char] + rest)
  }

  /** The alphabet in its order. */
  lemma DigitExactly(v: int)
    requires 0 <= v < 64
    ensures v < 26 ==> Digit(v) == "ABCDEFGHIJKLMNOPQRSTUVWXYZ"[v]
    ensures 26 <= v < 52 ==> Digit(v) == "abcdefghijklmnopqrstuvwxyz"[v - 26]
    ensures 52 <= v < 62 ==> Digit(v) == "0123456789"[v - 52]
    ensures v >= 62 ==> Digit(v) == "+/"[v - 62]
  {
  }

  /** The examples in section 10 of RFC 4648 that end within the first group. */
  lemma Examples()
    ensures IsBytes("f") && IsBytes("fo") && IsBytes("foo")
    ensures Encode("") == "" && Encode("f") == "Zg==" && Encode("fo") == "Zm8=" && Encode("foo") == "Zm9v"
  {
    assert "foo"[3..] == "" && Digit(25) == 'Z' && Digit(38) == 'm' && Digit(61) == '9' && Digit(47) == 'v';
  }

  /** Four sextets hold three bytes, and three or two of them hold two bytes or one. */
  lemma Regrouped(a: int, b: int, c: int)
    requires 0 <= a < 256 && 0 <= b < 256 && 0 <= c < 256
    ensures 0 <= a / 4 < 64 && 0 <= a % 4 * 16 + b / 16 < 64 && 0 <= b % 16 * 4 + c / 64 < 64 && 0 <= c % 64 < 64
    ensures a / 4 * 4 + (a % 4 * 16 + b / 16) / 16 == a
    ensures (a % 4 * 16 + b / 16) % 16 * 16 + (b % 16 * 4 + c / 64) / 4 == b
    ensures (b % 16 * 4 + c / 64) % 4 * 64 + c % 64 == c
  {
  }

  lemma DecodeFour(w: int, x: int, y: int, z: int, rest: string, s: string)
    requires 0 <= w < 64 && 0 <= x < 64 && 0 <= y < 64 && 0 <= z < 64
    requires |s| >= 3 && Decode(rest) == Some(s[3..])
    requires w * 4 + x / 16 == s[0] as int && x % 16 * 16 + y / 4 == s[1] as int && y % 4 * 64 + z == s[2] as int
    ensures Decode([Digit(w), Digit(x), Digit(y), Digit(z)] + rest) == Some(s)
  {
    var e := [Digit(w), Digit(x), Digit(y), Digit(z)] + rest;
    assert e[2..][0] == Digit(y) && e[3..][0] == Digit(z) && e[4..] == rest;
    assert s == [s[0], s[1], s[2]] + s[3..];
  }

  lemma DecodeThree(w: int, x: int, y: int, s: string)
    requires 0 <= w < 64 && 0 <= x < 64 && 0 <= y < 64 && |s| == 2
    requires w * 4 + x / 16 == s[0] as int && x % 16 * 16 + y / 4 == s[1] as int
    ensures Decode([Digit(w), Digit(x), Digit(y), '=']) == Some(s)
  {
    var e := [Digit(w), Digit(x), Digit(y), '='];
    assert e[2..][0] == Digit(y) && e[3..] == "=" && s == [s[0], s[1]];
  }

  lemma DecodeTwo(w: int, x: int, s: string)
    requires 0 <= w < 64 && 0 <= x < 64 && |s| == 1 && w * 4 + x / 16 == s[0] as int
    ensures Decode([Digit(w), Digit(x), '=', '=']) == Some(s)
  {
    assert [Digit(w), Digit(x), '=', '='][2..] == "==" && s == [s[0]];
  }

  /** The four sextets the first three bytes are encoded as. */
  lemma FirstGroup(s: string) returns (w: int, x: int, y: int, z: int)
    requires |s| >= 3 && IsBytes(s) && IsBytes(s[3..])
    ensures 0 <= w < 64 && 0 <= x < 64 && 0 <= y < 64 && 0 <= z < 64
    ensures Encode(s) == [Digit(w), Digit(x), Digit(y), Digit(z)] + Encode(s[3..])
    ensures w * 4 + x / 16 == s[0] as int && x % 16 * 16 + y / 4 == s[1] as int && y % 4 * 64 + z == s[2] as int
  {
    assert s[0] in s && s[1] in s && s[2] in s;
    var a, b, c := s[0] as int, s[1] as int, s[2] as int;
    Regrouped(a, b, c);
    w, x, y, z := a / 4, a % 4 * 16 + b / 16, b % 16 * 4 + c / 64, c % 64;
  }

  lemma TwoBytes(s: string) returns (w: int, x: int, y: int)
    requires |s| == 2 && IsBytes(s)
    ensures 0 <= w < 64 && 0 <= x < 64 && 0 <= y < 64
    ensures Encode(s) == [Digit(w), Digit(x), Digit(y), '=']
    ensures w * 4 + x / 16 == s[0] as int && x % 16 * 16 + y / 4 == s[1] as int
  {
    assert s[0] in s && s[1] in s;
    var a, b := s[0] as int, s[1] as int;
    Regrouped(a, b, 0);
    w, x, y := a / 4, a % 4 * 16 + b / 16, b % 16 * 4;
  }

  lemma OneByte(s: string) returns (w: int, x: int)
    requires |s| == 1 && IsBytes(s)
    ensures 0 <= w < 64 && 0 <= x < 64 && Encode(s) == [Digit(w), Digit(x), '=', '='] && w * 4 + x / 16 == s[0] as int
  {
    assert s[0] in s;
    var a := s[0] as int;
    Regrouped(a, 0, 0);
    w, x := a / 4, a % 4 * 16;
  }

  /** Decoding undoes encoding, so an encoding stands for one byte string only. */
  lemma {:induction false} RoundTrip(s: string)
    requires IsBytes(s)
    ensures Decode(Encode(s)) == Some(s)
  {
    if |s| >= 3 {
      assert forall c :: c in s[3..] ==> c in s;
      RoundTrip(s[3..]);
      var w, x, y, z := FirstGroup(s);
      DecodeFour(w, x, y, z, Encode(s[3..]), s);
    } else if |s| == 2 {
      var w, x, y := TwoBytes(s);
      DecodeThree(w, x, y, s);
    } else if |s| == 1 {
      var w, x := OneByte(s);
      DecodeTwo(w, x, s);
    }
  }
}
