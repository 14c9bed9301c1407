/** Cloud-Init user data for a new worker: validation, rendering, and reading back what was rendered. */
module Render {
  import opened Prelude
  import opened TokenCall
  import Base64
  import Integers
  import Strings

  datatype BootstrapConfig = BootstrapConfig(
    kubernetesVersion: string, clusterEndpoint: string, caCertHash: string, nodeName: string, extraUserData: string)

  /**
   * What this model does not look into: the endpoint normalisation with its URL parser, how a quoted string shows the
   * bytes from 128 up, and the shell text before and after the assignments.
   */
  datatype Library = Library(
    normalize: string -> Option<string>, wide: (string, nat) -> string, opening: seq<string>, body: string)

  datatype RenderError =
    | VersionRequired | VersionInvalid | EndpointInvalid | HashInvalid | HashNotHex | NodeNameRequired | TokenInvalid

  // ---- Validation ----

  /** The part up to the first dot, and what follows it if there is one. */
  function Cut(s: string): (string, Option<string>) {
    if s == "" then ("", None)
    else if s[0] == '.' then ("", Some(s[1..]))
    else
      var (head, tail) := Cut(s[1..]);
      ([s[0]] + head, tail)
  }

  /** The minor version, as in `v1.35`, of a version such as `v1.35.2`; only Kubernetes 1 is known. */
  function KubernetesMinor(version: string): Option<string> {
    var (major, rest) := Cut(Strings.TrimPrefix(Strings.TrimSpace(version), "v"));
    if rest == None || major != "1" then None
    else
      var minor := Cut(rest.value).0;
      if Integers.PositiveInt(minor) == None then None else Some("v1." + minor)
  }

  lemma {:induction false} CutExactly(s: string)
    ensures var (head, tail) := Cut(s); '.' !in head && s == head + if tail == None then "" else "." + tail.value
  {
    if s != "" && s[0] != '.' {
      CutExactly(s[1..]);
      assert s == [s[0]] + s[1..];
    } else if s != "" {
      assert s == "." + s[1..];
    }
  }

  /** Between the first two dots, or after the only one. */
  predicate Dotted(v: string, m: string) {
    '.' !in m && (v == "1." + m || "1." + m + "." <= v || v == "v1." + m || "v1." + m + "." <= v)
  }

  lemma {:induction false} CutAt(head: string, rest: string)
    requires '.' !in head
    ensures Cut(head) == (head, None) && Cut(head + "." + rest) == (head, Some(rest))
  {
    if head != "" {
      CutAt(head[1..], rest);
      assert (head + "." + rest)[1..] == head[1..] + "." + rest && head == [head[0]] + head[1..];
    } else {
      assert ("." + rest)[1..] == rest && "" + "." + rest == "." + rest;
    }
  }

  lemma MinorFrom(v: string, m: string)
    requires "1." <= v && '.' !in m
    ensures (v == "1." + m || "1." + m + "." <= v) <==> Cut(v[2..]).0 == m
  {
    var x := v[2..];
    assert v == "1." + x;
    CutExactly(x);
    CutAt(m, "");
    if "1." + m + "." <= v {
      var rest := v[|m| + 3..];
      assert v == "1." + m + "." + rest;
      assert x == m + "." + rest;
      CutAt(m, rest);
    }
    if Cut(x).0 == m && Cut(x).1.Some? {
      assert v == "1." + m + "." + Cut(x).1.value;
    }
  }

  predicate Unprefixed(t: string, m: string) {
    t == "1." + m || "1." + m + "." <= t
  }

  lemma DottedStripped(v: string, m: string)
    requires '.' !in m
    ensures Dotted(v, m) <==> Unprefixed(Strings.TrimPrefix(v, "v"), m)
  {
    var t := Strings.TrimPrefix(v, "v");
    assert "v1." + m == "v" + ("1." + m) && "v1." + m + "." == "v" + ("1." + m + ".");
    if "v" <= v {
      assert v == "v" + t;
      Headed(t, "1." + m);
      Headed(t, "1." + m + ".");
      assert v[0] == 'v' && ("1." + m)[0] == '1' && ("1." + m + ".")[0] == '1';
      assert v != "1." + m && !("1." + m + "." <= v);
    } else {
      NotHeaded(v, "1." + m);
      NotHeaded(v, "1." + m + ".");
    }
  }

  lemma NotHeaded(v: string, p: string)
    requires !("v" <= v)
    ensures !("v" + p <= v)
  {
    assert "v" <= "v" + p;
  }

  lemma Headed(t: string, p: string)
    ensures "v" + p <= "v" + t <==> p <= t
    ensures "v" + p == "v" + t <==> p == t
  {
    assert ("v" + p)[1..] == p && ("v" + t)[1..] == t;
    if "v" + p <= "v" + t { assert ("v" + t)[..|p| + 1][1..] == t[..|p|]; }
  }

  lemma UnprefixedExactly(t: string, m: string)
    requires '.' !in m
    ensures Unprefixed(t, m) <==> Cut(t).0 == "1" && Cut(t).1.Some? && Cut(Cut(t).1.value).0 == m
  {
    CutExactly(t);
    if Unprefixed(t, m) {
      assert "1." <= t by { assert "1." <= "1." + m && "1." <= "1." + m + "."; }
      assert t == "1" + "." + t[2..];
      CutAt("1", t[2..]);
      MinorFrom(t, m);
    } else if Cut(t).0 == "1" && Cut(t).1.Some? {
      assert t == "1." + Cut(t).1.value && t[2..] == Cut(t).1.value;
      MinorFrom(t, m);
    }
  }

  /** A version is read exactly if, without white space around, it is `1.` or `v1.`, a positive number, and no more or a dot. */
  lemma MinorExactly(version: string, m: string)
    requires '.' !in m
    ensures KubernetesMinor(version) == Some("v1." + m) <==>
              Dotted(Strings.TrimSpace(version), m) && Integers.PositiveInt(m).Some?
    ensures KubernetesMinor(version).Some? ==> exists n :: '.' !in n && KubernetesMinor(version) == Some("v1." + n)
  {
    var v := Strings.TrimSpace(version);
    var t := Strings.TrimPrefix(v, "v");
    DottedStripped(v, m);
    UnprefixedExactly(t, m);
    if KubernetesMinor(version).Some? {
      var n := Cut(Cut(t).1.value).0;
      CutExactly(Cut(t).1.value);
      assert ("v1." + n)[3..] == n && ("v1." + m)[3..] == m;
      assert KubernetesMinor(version) == Some("v1." + n);
    }
  }

  const SHA256 := "sha256:"

  function Validate(lib: Library, cfg: BootstrapConfig, token: string): Option<RenderError> {
    if cfg.kubernetesVersion == "" then Some(VersionRequired)
    else if KubernetesMinor(cfg.kubernetesVersion) == None then Some(VersionInvalid)
    else if lib.normalize(cfg.clusterEndpoint) == None then Some(EndpointInvalid)
    else if !(SHA256 <= cfg.caCertHash) || |cfg.caCertHash| != |SHA256| + 64 then Some(HashInvalid)
    else if exists k :: |SHA256| <= k < |cfg.caCertHash| && !Strings.HexDigit(cfg.caCertHash[k]) then Some(HashNotHex)
    else if cfg.nodeName == "" then Some(NodeNameRequired)
    else if !WellFormed(token) then Some(TokenInvalid)
    else None
  }

  predicate Hashes(h: string) {
    && |h| == 71 && h[..7] == "sha256:"
    && forall k :: 7 <= k < 71 ==> '0' <= h[k] <= '9' || 'a' <= h[k] <= 'f' || 'A' <= h[k] <= 'F'
  }

  predicate Tokens(t: string) {
    && |t| == 23 && t[6] == '.'
    && forall k :: 0 <= k < 23 && k != 6 ==> 'a' <= t[k] <= 'z' || '0' <= t[k] <= '9'
  }

  lemma TokensExactly(t: string)
    ensures WellFormed(t) <==> Tokens(t)
  {
    if |t| == 23 {
      CharsByIndex(t[..6]);
      CharsByIndex(t[7..]);
      assert forall k :: 7 <= k < 23 ==> t[k] == t[7..][k - 7];
      assert forall k :: 0 <= k < 6 ==> t[k] == t[..6][k];
      assert forall k :: 0 <= k < 16 ==> t[7..][k] == t[k + 7];
    }
  }

  /** A configuration is accepted exactly if everything in it is as it should be; and the first thing that is not says why. */
  lemma ValidateExactly(lib: Library, cfg: BootstrapConfig, token: string)
    ensures Validate(lib, cfg, token) == None <==>
              && cfg.kubernetesVersion != "" && KubernetesMinor(cfg.kubernetesVersion).Some?
              && lib.normalize(cfg.clusterEndpoint).Some? && Hashes(cfg.caCertHash) && cfg.nodeName != "" && Tokens(token)
    ensures Validate(lib, cfg, token) == Some(VersionRequired) <==> cfg.kubernetesVersion == ""
    ensures Validate(lib, cfg, token) == Some(VersionInvalid) <==>
              cfg.kubernetesVersion != "" && KubernetesMinor(cfg.kubernetesVersion) == None
    ensures Validate(lib, cfg, token) == Some(EndpointInvalid) <==>
              KubernetesMinor(cfg.kubernetesVersion).Some? && cfg.kubernetesVersion != "" && lib.normalize(cfg.clusterEndpoint) == None
    ensures Validate(lib, cfg, token) == Some(NodeNameRequired) ==> cfg.nodeName == "" && Hashes(cfg.caCertHash)
    ensures Validate(lib, cfg, token) == Some(TokenInvalid) ==> !Tokens(token) && cfg.nodeName != "" && Hashes(cfg.caCertHash)
    ensures Validate(lib, cfg, token) in {Some(HashInvalid), Some(HashNotHex)} ==> !Hashes(cfg.caCertHash)
    ensures Validate(lib, cfg, token) == Some(HashNotHex) ==> |cfg.caCertHash| == 71 && cfg.caCertHash[..7] == "sha256:"
  {
    TokensExactly(token);
    var h := cfg.caCertHash;
    assert |h| >= 7 ==> (SHA256 <= h <==> h[..7] == "sha256:");
  }

  // ---- Rendering ----

  function LowHex(v: int): char
    requires 0 <= v < 16
  {
    if v < 10 then ('0' as int + v) as char else ('a' as int + v - 10) as char
  }

  /** How `%q` shows the byte at position `k`. */
  function Escaped(lib: Library, s: string, k: nat): string
    requires k < |s|
  {
    var c := s[k];
    if c == '"' then "\\\""
    else if c == '\\' then "\\\\"
    else if ' ' <= c <= '~' then [c]
    else if c as int == 7 then "\\a"
    else if c as int == 8 then "\\b"
    else if c as int == 9 then "\\t"
    else if c as int == 10 then "\\n"
    else if c as int == 11 then "\\v"
    else if c as int == 12 then "\\f"
    else if c as int == 13 then "\\r"
    else if c as int < 128 then ['\\', 'x', LowHex(c as int / 16), LowHex(c as int % 16)]
    else lib.wide(s, k)
  }

  function EscapedUpTo(lib: Library, s: string, n: nat): string
    requires n <= |s|
  {
    if n == 0 then "" else EscapedUpTo(lib, s, n - 1) + Escaped(lib, s, n - 1)
  }

  function Quote(lib: Library, s: string): string {
    "\"" + EscapedUpTo(lib, s, |s|) + "\""
  }

  function JoinLines(lines: seq<string>, tail: string): string {
    if lines == [] then tail else lines[0] + "\n" + JoinLines(lines[1..], tail)
  }

  /** The variables the script assigns, in this order. */
  const VARIABLES := [
    "KUBERNETES_MINOR=", "API_SERVER=", "BOOTSTRAP_TOKEN=", "CA_CERT_HASH=", "NODE_NAME=", "EXTRA_USER_DATA_B64="]

  function ScriptLines(lib: Library, values: seq<string>): (lines: seq<string>)
    requires |values| == |VARIABLES|
    ensures |lines| == |lib.opening| + |VARIABLES|
  {
    lib.opening + seq(|values|, k requires 0 <= k < |values| => VARIABLES[k] + Quote(lib, values[k]))
  }

  function Script(lib: Library, values: seq<string>): string
    requires |values| == |VARIABLES|
  {
    JoinLines(ScriptLines(lib, values), lib.body)
  }

  const CONTENT := "    content: "
  const BINARY := "/usr/local/sbin/" + "karpenter-vultr-bootstrap"

  /** Cloud-Init writes the decoded content to a file, then runs that. */
  const CLOUD_OPENING := [
    "#cloud-config", "write_files:", "  - path: " + BINARY, "    permissions: " + "\"0700\"", "    encoding: b64"]
  const CLOUD_CLOSING := ["runcmd:", "  - [\"" + BINARY + "\"]"]

  function UserData(script: string): string
    requires Base64.IsBytes(script)
  {
    JoinLines(CLOUD_OPENING + [CONTENT + Base64.Encode(script)], JoinLines(CLOUD_CLOSING, ""))
  }

  /**
   * The parts left out stay within byte strings, quoting never breaks a line, and the lines before the assignments
   * assign none of the variables.
   */
  ghost predicate Sound(lib: Library) {
    && Base64.IsBytes(lib.body)
    && (forall l :: l in lib.opening ==> Inline(l) && forall v :: 0 <= v < |VARIABLES| ==> !(VARIABLES[v] <= l))
    && (forall s, k :: Inline(lib.wide(s, k)))
    && (forall s :: Base64.IsBytes(s) && lib.normalize(s).Some? ==> Base64.IsBytes(lib.normalize(s).value))
  }

  predicate ByteConfig(cfg: BootstrapConfig) {
    && Base64.IsBytes(cfg.kubernetesVersion) && Base64.IsBytes(cfg.clusterEndpoint) && Base64.IsBytes(cfg.caCertHash)
    && Base64.IsBytes(cfg.nodeName) && Base64.IsBytes(cfg.extraUserData)
  }

  /** No line break, and nothing but bytes. */
  predicate Inline(s: string) {
    Base64.IsBytes(s) && '\n' !in s
  }

  lemma {:induction false} EscapedInline(lib: Library, s: string, n: nat)
    requires Sound(lib) && Base64.IsBytes(s) && n <= |s|
    ensures Inline(EscapedUpTo(lib, s, n))
  {
    if n > 0 {
      EscapedInline(lib, s, n - 1);
      assert s[n - 1] in s;
      assert Base64.IsBytes(lib.wide(s, n - 1));
    }
  }

  lemma {:induction false} LinesAreBytes(lines: seq<string>, tail: string)
    requires Base64.IsBytes(tail) && forall l :: l in lines ==> Base64.IsBytes(l)
    ensures Base64.IsBytes(JoinLines(lines, tail))
  {
    if lines != [] {
      assert lines[0] in lines && forall l :: l in lines[1..] ==> l in lines;
      LinesAreBytes(lines[1..], tail);
    }
  }

  lemma QuoteInline(lib: Library, s: string)
    requires Sound(lib) && Base64.IsBytes(s)
    ensures Inline(Quote(lib, s))
  {
    EscapedInline(lib, s, |s|);
  }

  lemma InlineAppend(a: string, b: string)
    requires Inline(a) && Inline(b)
    ensures Inline(a + b)
  {
  }

  lemma VariableInline(k: nat)
    requires k < |VARIABLES|
    ensures Inline(VARIABLES[k])
  {
  }

  lemma ScriptInline(lib: Library, values: seq<string>, k: nat)
    requires Sound(lib) && |values| == |VARIABLES| && forall v :: v in values ==> Base64.IsBytes(v)
    requires k < |ScriptLines(lib, values)|
    ensures Inline(ScriptLines(lib, values)[k])
  {
    if k < |lib.opening| {
      assert ScriptLines(lib, values)[k] == lib.opening[k];
    } else {
      var j := k - |lib.opening|;
      assert values[j] in values;
      VariableInline(j);
      QuoteInline(lib, values[j]);
      InlineAppend(VARIABLES[j], Quote(lib, values[j]));
    }
  }

  lemma ScriptIsBytes(lib: Library, values: seq<string>)
    requires Sound(lib) && |values| == |VARIABLES| && forall v :: v in values ==> Base64.IsBytes(v)
    ensures Base64.IsBytes(Script(lib, values))
  {
    var lines := ScriptLines(lib, values);
    forall l | l in lines ensures Base64.IsBytes(l) {
      var k :| 0 <= k < |lines| && lines[k] == l;
      ScriptInline(lib, values, k);
    }
    LinesAreBytes(lines, lib.body);
  }

  // ---- Reading back ----

  function LineEnd(s: string): (n: nat)
    ensures n <= |s| && '\n' !in s[..n] && (n < |s| ==> s[n] == '\n')
  {
    if s == "" || s[0] == '\n' then 0
    else
      var n := LineEnd(s[1..]);
      assert s[..n + 1] == [s[0]] + s[1..][..n];
      n + 1
  }

  /** What follows the prefix on the first line that has it. */
  function Field(text: string, prefix: string): Option<string>
    decreases |text|
  {
    var n := LineEnd(text);
    if prefix <= text[..n] then Some(text[..n][|prefix|..])
    else if n == |text| then None
    else Field(text[n + 1..], prefix)
  }

  lemma {:induction false} LineEndAt(line: string, rest: string)
    requires '\n' !in line
    ensures LineEnd(line + "\n" + rest) == |line|
  {
    var s := line + "\n" + rest;
    if line != "" {
      LineEndAt(line[1..], rest);
      assert s[1..] == line[1..] + "\n" + rest;
    }
  }

  lemma {:induction false} FieldOfLines(lines: seq<string>, tail: string, prefix: string, k: nat)
    requires k < |lines| && forall j :: 0 <= j <= k ==> '\n' !in lines[j]
    requires prefix <= lines[k] && forall j :: 0 <= j < k ==> !(prefix <= lines[j])
    ensures Field(JoinLines(lines, tail), prefix) == Some(lines[k][|prefix|..])
  {
    var rest := JoinLines(lines[1..], tail);
    var text := JoinLines(lines, tail);
    LineEndAt(lines[0], rest);
    assert text == lines[0] + "\n" + rest;
    assert text[..|lines[0]|] == lines[0] && text[|lines[0]| + 1..] == rest;
    if k > 0 {
      FieldOfLines(lines[1..], tail, prefix, k - 1);
    }
  }

  /** Text `%q` shows as it is, between double quotes. */
  predicate Verbatim(s: string) {
    forall k :: 0 <= k < |s| ==> ' ' <= s[k] <= '~' && s[k] != '"' && s[k] != '\\'
  }

  lemma {:induction false} EscapedVerbatim(lib: Library, s: string, n: nat)
    requires Verbatim(s) && n <= |s|
    ensures EscapedUpTo(lib, s, n) == s[..n]
  {
    if n > 0 {
      EscapedVerbatim(lib, s, n - 1);
      assert s[..n] == s[..n - 1] + [s[n - 1]];
    }
  }

  function Unquoted(s: string): string {
    if |s| >= 2 then s[1..|s| - 1] else s
  }

  lemma QuotedVerbatim(lib: Library, s: string)
    requires Verbatim(s)
    ensures Unquoted(Quote(lib, s)) == s
  {
    EscapedVerbatim(lib, s, |s|);
    assert s[..|s|] == s;
  }

  /** No variable's assignment can be taken for another's. */
  lemma VariableLines(lib: Library, values: seq<string>, v: nat)
    requires Sound(lib) && |values| == |VARIABLES| && forall x :: x in values ==> Base64.IsBytes(x)
    requires v < |VARIABLES|
    ensures Field(Script(lib, values), VARIABLES[v]) == Some(Quote(lib, values[v]))
  {
    var lines := ScriptLines(lib, values);
    var k := |lib.opening| + v;
    forall j | 0 <= j <= k ensures '\n' !in lines[j] { ScriptInline(lib, values, j); }
    forall j | 0 <= j < k ensures !(VARIABLES[v] <= lines[j]) {
      HeadsDiffer(lib, values, v, j);
    }
    assert lines[k] == VARIABLES[v] + Quote(lib, values[v]);
    FieldOfLines(lines, lib.body, VARIABLES[v], k);
  }

  lemma HeadsDiffer(lib: Library, values: seq<string>, v: nat, j: nat)
    requires Sound(lib) && |values| == |VARIABLES| && v < |VARIABLES| && j < |lib.opening| + v
    ensures !(VARIABLES[v] <= ScriptLines(lib, values)[j])
  {
    var line := ScriptLines(lib, values)[j];
    if j < |lib.opening| {
      assert line == lib.opening[j] && lib.opening[j] in lib.opening;
    } else {
      assert line == VARIABLES[j - |lib.opening|] + Quote(lib, values[j - |lib.opening|]);
      assert VARIABLES[0][0] == 'K' && VARIABLES[1][0] == 'A' && VARIABLES[2][0] == 'B';
      assert VARIABLES[3][0] == 'C' && VARIABLES[4][0] == 'N' && VARIABLES[5][0] == 'E';
    }
  }

  lemma BinaryInline()
    ensures Inline(BINARY)
  {
  }

  lemma CloudOpening()
    ensures forall j :: 0 <= j < |CLOUD_OPENING| ==> Inline(CLOUD_OPENING[j])
  {
    BinaryInline();
    OpeningInline();
    FileInline();
    InlineAppend("  - path: ", BINARY);
    InlineAppend("    permissions: ", "\"0700\"");
  }

  lemma OpeningInline()
    ensures Inline("#cloud-config") && Inline("write_files:") && Inline("  - path: ")
  {
  }

  lemma FileInline()
    ensures Inline("    permissions: ") && Inline("\"0700\"") && Inline("    encoding: b64")
  {
  }

  lemma CloudClosing()
    ensures Base64.IsBytes(JoinLines(CLOUD_CLOSING, ""))
  {
    BinaryInline();
    LinesAreBytes(CLOUD_CLOSING, "");
  }

  lemma EncodingVerbatim(s: string)
    requires Base64.IsBytes(s)
    ensures Verbatim(Base64.Encode(s)) && Inline(Base64.Encode(s))
  {
    var e := Base64.Encode(s);
    forall k | 0 <= k < |e| ensures ' ' <= e[k] <= '~' && e[k] != '"' && e[k] != '\\' {
      assert e[k] in e;
    }
  }

  // ---- Undoing the quotes ----

  function HexValue(c: char): int {
    if '0' <= c <= '9' then c as int - 48 else if 'a' <= c <= 'f' then c as int - 87 else -1
  }

  /** The escapes of a Go string literal, for bytes below 128; `None` for text that is none. */
  function Unescaped(s: string): Option<string> {
    if s == "" then Some("")
    else if s[0] != '\\' then Prepend(s[0], Unescaped(s[1..]))
    else if |s| < 2 then None
    else if s[1] == 'x' then
      if |s| < 4 || !(0 <= HexValue(s[2]) < 8) || HexValue(s[3]) < 0 then None
      else Prepend((HexValue(s[2]) * 16 + HexValue(s[3])) as char, Unescaped(s[4..]))
    else
      match s[1]
      case '"' => Prepend('"', Unescaped(s[2..]))
      case '\\' => Prepend('\\', Unescaped(s[2..]))
      case 'a' => Prepend(7 as char, Unescaped(s[2..]))
      case 'b' => Prepend(8 as char, Unescaped(s[2..]))
      case 't' => Prepend(9 as char, Unescaped(s[2..]))
      case 'n' => Prepend(10 as char, Unescaped(s[2..]))
      case 'v' => Prepend(11 as char, Unescaped(s[2..]))
      case 'f' => Prepend(12 as char, Unescaped(s[2..]))
      case 'r' => Prepend(13 as char, Unescaped(s[2..]))
      case _ => None
  }

  function Prepend(c: char, rest: Option<string>): Option<string> {
    if rest == None then None else Some([c] + rest.value)
  }

  predicate Ascii(s: string) {
    forall k :: 0 <= k < |s| ==> s[k] as int < 128
  }

  lemma UnescapedPlain(c: char, rest: string)
    requires c != '\\'
    ensures Unescaped([c] + rest) == Prepend(c, Unescaped(rest))
  {
    assert ([c] + rest)[1..] == rest;
  }

  /** The letter after the backslash, for the bytes that have one. */
  function EscapeLetter(c: char): Option<char> {
    match c as int
    case 34 => Some('"')
    case 92 => Some('\\')
    case 7 => Some('a')
    case 8 => Some('b')
    case 9 => Some('t')
    case 10 => Some('n')
    case 11 => Some('v')
    case 12 => Some('f')
    case 13 => Some('r')
    case _ => None
  }

  lemma UnescapedLetter(c: char, rest: string)
    requires EscapeLetter(c).Some?
    ensures Unescaped(['\\', EscapeLetter(c).value] + rest) == Prepend(c, Unescaped(rest))
  {
    assert (['\\', EscapeLetter(c).value] + rest)[2..] == rest;
  }

  lemma UnescapedHex(v: int, rest: string)
    requires 0 <= v < 128
    ensures Unescaped(['\\', 'x', LowHex(v / 16), LowHex(v % 16)] + rest) == Prepend(v as char, Unescaped(rest))
  {
    HexDigits(v);
    assert (['\\', 'x', LowHex(v / 16), LowHex(v % 16)] + rest)[4..] == rest;
  }

  lemma EscapedCases(lib: Library, s: string, k: nat)
    requires k < |s| && s[k] as int < 128
    ensures var c := s[k];
            Escaped(lib, s, k) ==
            if EscapeLetter(c).Some? then ['\\', EscapeLetter(c).value]
            else if ' ' <= c <= '~' then [c]
            else ['\\', 'x', LowHex(c as int / 16), LowHex(c as int % 16)]
  {
  }

  lemma UnescapedOne(lib: Library, s: string, k: nat, rest: string)
    requires k < |s| && Ascii(s)
    ensures Unescaped(Escaped(lib, s, k) + rest) == Prepend(s[k], Unescaped(rest))
  {
    EscapedCases(lib, s, k);
    if EscapeLetter(s[k]).Some? {
      UnescapedLetter(s[k], rest);
    } else if ' ' <= s[k] <= '~' {
      UnescapedPlain(s[k], rest);
    } else {
      UnescapedHex(s[k] as int, rest);
    }
  }

  lemma HexDigits(v: int)
    requires 0 <= v < 128
    ensures HexValue(LowHex(v / 16)) == v / 16 && HexValue(LowHex(v % 16)) == v % 16 && v / 16 * 16 + v % 16 == v
  {
  }

  /** Reading takes one escape after the other. */
  ghost predicate Undoes(read: string -> Option<string>, lib: Library, s: string) {
    forall k: nat, rest {:trigger Escaped(lib, s, k) + rest} :: k < |s| ==> read(Escaped(lib, s, k) + rest) == Prepend(s[k], read(rest))
  }

  lemma {:induction false} UndoneUpTo(read: string -> Option<string>, lib: Library, s: string, n: nat, rest: string, tail: string)
    requires n <= |s| && Undoes(read, lib, s) && read(rest) == Some(tail)
    ensures read(EscapedUpTo(lib, s, n) + rest) == Some(s[..n] + tail)
  {
    if n == 0 {
      assert EscapedUpTo(lib, s, 0) + rest == rest && s[..0] + tail == tail;
    } else {
      var e := Escaped(lib, s, n - 1);
      UndoneUpTo(read, lib, s, n - 1, e + rest, [s[n - 1]] + tail);
      assert EscapedUpTo(lib, s, n) + rest == EscapedUpTo(lib, s, n - 1) + (e + rest);
      assert s[..n] + tail == s[..n - 1] + ([s[n - 1]] + tail);
    }
  }

  /** Quoting loses nothing: read as a Go string literal, what is between the quotes is the text again. */
  lemma QuoteUndone(lib: Library, s: string)
    requires Ascii(s)
    ensures var q := Quote(lib, s);
            |q| >= 2 && q[0] == q[|q| - 1] == '"' && Unescaped(Unquoted(q)) == Some(s)
  {
    forall k: nat, rest | k < |s| ensures Unescaped(Escaped(lib, s, k) + rest) == Prepend(s[k], Unescaped(rest)) {
      UnescapedOne(lib, s, k, rest);
    }
    UndoneUpTo(Unescaped, lib, s, |s|, "", "");
    var e := EscapedUpTo(lib, s, |s|);
    assert Unquoted(Quote(lib, s)) == e && e + "" == e && s[..|s|] + "" == s;
  }

  // ---- The whole way ----

  function Values(lib: Library, cfg: BootstrapConfig, token: string): (values: seq<string>)
    requires Validate(lib, cfg, token) == None && Base64.IsBytes(cfg.extraUserData)
    ensures |values| == |VARIABLES|
  {
    [KubernetesMinor(cfg.kubernetesVersion).value, lib.normalize(cfg.clusterEndpoint).value, token, cfg.caCertHash,
     cfg.nodeName, Base64.Encode(cfg.extraUserData)]
  }

  lemma ValuesAreBytes(lib: Library, cfg: BootstrapConfig, token: string)
    requires Sound(lib) && ByteConfig(cfg) && Validate(lib, cfg, token) == None
    ensures forall v :: v in Values(lib, cfg, token) ==> Base64.IsBytes(v)
  {
    MinorIsBytes(cfg.kubernetesVersion);
    TokenVerbatim(token);
    VerbatimIsBytes(token);
  }

  lemma MinorVerbatim(version: string)
    requires KubernetesMinor(version).Some?
    ensures Verbatim(KubernetesMinor(version).value)
  {
  }

  lemma MinorIsBytes(version: string)
    requires KubernetesMinor(version).Some?
    ensures Base64.IsBytes(KubernetesMinor(version).value)
  {
  }

  lemma VerbatimIsBytes(s: string)
    requires Verbatim(s)
    ensures Base64.IsBytes(s)
  {
  }

  function Render(lib: Library, cfg: BootstrapConfig, token: string): Result<string, RenderError>
    requires Sound(lib) && ByteConfig(cfg)
  {
    match Validate(lib, cfg, token)
    case Some(e) => Err(e)
    case None =>
      ValuesAreBytes(lib, cfg, token);
      ScriptIsBytes(lib, Values(lib, cfg, token));
      Ok(UserData(Script(lib, Values(lib, cfg, token))))
  }

  /** The `user_data` of the create request; empty user data is not sent. */
  function Payload(userData: string): Option<string>
    requires Base64.IsBytes(userData)
  {
    if userData == "" then None else Some(Base64.Encode(userData))
  }

  /** What the new instance makes of the request: a script, written to a file that is then run. */
  datatype Installed = Installed(path: string, script: string)

  /**
   * Cloud-Init: a file of the given path with the decoded content, if the content is said to be Base64, the file may be
   * executed, and it is what is run.
   */
  function Received(payload: string): Option<Installed> {
    match Base64.Decode(payload)
    case None => None
    case Some(userData) =>
      var path, content, run := Field(userData, "  - path: "), Field(userData, "    content: "), Field(userData, "  - [\"");
      if !("#cloud-config\nwrite_files:\n" <= userData) || path == None || content == None || Base64.Decode(content.value) == None
         || Field(userData, "    encoding: ") != Some("b64") || Field(userData, "    permissions: ") != Some("\"0700\"")
         || Field(userData, "runcmd:") != Some("") || run != Some(path.value + "\"]")
      then None
      else Some(Installed(path.value, Base64.Decode(content.value).value))
  }

  function ReceivedScript(payload: string): Option<string> {
    match Received(payload)
    case None => None
    case Some(i) => Some(i.script)
  }

  /** What a variable of the script holds. */
  function Variable(script: string, name: string): Option<string> {
    match Field(script, name)
    case None => None
    case Some(quoted) => Some(Unquoted(quoted))
  }

  lemma UserDataIsBytes(script: string)
    requires Base64.IsBytes(script)
    ensures Base64.IsBytes(UserData(script)) && UserData(script) != ""
  {
    var lines := CLOUD_OPENING + [CONTENT + Base64.Encode(script)];
    CloudOpening();
    CloudClosing();
    EncodingVerbatim(script);
    forall l | l in lines ensures Base64.IsBytes(l) {
      var k :| 0 <= k < |lines| && lines[k] == l;
      if k < |CLOUD_OPENING| { assert l == CLOUD_OPENING[k]; } else { InlineAppend(CONTENT, Base64.Encode(script)); }
    }
    LinesAreBytes(lines, JoinLines(CLOUD_CLOSING, ""));
  }

  /** The lines of the user data, the content being the fifth after the first. */
  function CloudLines(content: string): (lines: seq<string>)
    ensures |lines| == 8
  {
    CLOUD_OPENING + ["    content: " + content] + CLOUD_CLOSING
  }

  lemma {:induction false} JoinLinesAppend(a: seq<string>, b: seq<string>, tail: string)
    ensures JoinLines(a, JoinLines(b, tail)) == JoinLines(a + b, tail)
  {
    if a != [] {
      JoinLinesAppend(a[1..], b, tail);
      assert (a + b)[1..] == a[1..] + b;
    } else {
      assert a + b == b;
    }
  }

  lemma HeaderTogether(rest: string)
    ensures "#cloud-config" + "\n" + ("write_files:" + "\n" + rest) == "#cloud-config\nwrite_files:\n" + rest
  {
  }

  lemma HeaderLines(lines: seq<string>)
    requires |lines| >= 2 && lines[0] == "#cloud-config" && lines[1] == "write_files:"
    ensures "#cloud-config\nwrite_files:\n" <= JoinLines(lines, "")
  {
    assert lines[1..][0] == lines[1] && lines[1..][1..] == lines[2..];
    HeaderTogether(JoinLines(lines[2..], ""));
  }

  lemma UserDataLines(script: string)
    requires Base64.IsBytes(script)
    ensures UserData(script) == JoinLines(CloudLines(Base64.Encode(script)), "")
    ensures "#cloud-config\nwrite_files:\n" <= UserData(script)
  {
    JoinLinesAppend(CLOUD_OPENING + [CONTENT + Base64.Encode(script)], CLOUD_CLOSING, "");
    HeaderLines(CloudLines(Base64.Encode(script)));
  }

  lemma CloudInline(content: string)
    requires Inline(content)
    ensures forall k :: 0 <= k < 8 ==> '\n' !in CloudLines(content)[k]
  {
    CloudOpening();
    BinaryInline();
    forall k | 0 <= k < 8 ensures '\n' !in CloudLines(content)[k] {
      if k < 5 { assert CloudLines(content)[k] == CLOUD_OPENING[k]; }
    }
  }

  /** The line and the prefix differ at the position. */
  predicate Apart(line: string, prefix: string, i: nat) {
    i < |prefix| && (i >= |line| || line[i] != prefix[i])
  }

  lemma FieldAmong(lines: seq<string>, prefix: string, rest: string, k: nat, at: seq<nat>)
    requires k < |lines| && |at| == k && lines[k] == prefix + rest
    requires forall j :: 0 <= j < |lines| ==> '\n' !in lines[j]
    requires forall j :: 0 <= j < k ==> Apart(lines[j], prefix, at[j])
    ensures Field(JoinLines(lines, ""), prefix) == Some(rest)
  {
    forall j | 0 <= j < k ensures !(prefix <= lines[j]) {
      assert Apart(lines[j], prefix, at[j]);
    }
    assert lines[k][|prefix|..] == rest;
    FieldOfLines(lines, "", prefix, k);
  }

  lemma PathField(content: string, text: string)
    requires Inline(content) && text == JoinLines(CloudLines(content), "")
    ensures Field(text, "  - path: ") == Some(BINARY)
  {
    CloudInline(content);
    FieldAmong(CloudLines(content), "  - path: ", BINARY, 2, [0, 0]);
  }

  lemma PermissionsField(content: string, text: string)
    requires Inline(content) && text == JoinLines(CloudLines(content), "")
    ensures Field(text, "    permissions: ") == Some("\"0700\"")
  {
    CloudInline(content);
    FieldAmong(CloudLines(content), "    permissions: ", "\"0700\"", 3, [0, 0, 2]);
  }

  lemma EncodingField(content: string, text: string)
    requires Inline(content) && text == JoinLines(CloudLines(content), "")
    ensures Field(text, "    encoding: ") == Some("b64")
  {
    CloudInline(content);
    assert "    encoding: b64" == "    encoding: " + "b64";
    FieldAmong(CloudLines(content), "    encoding: ", "b64", 4, [0, 0, 2, 4]);
  }

  lemma ContentField(content: string, text: string)
    requires Inline(content) && text == JoinLines(CloudLines(content), "")
    ensures Field(text, "    content: ") == Some(content)
  {
    CloudInline(content);
    FieldAmong(CloudLines(content), "    content: ", content, 5, [0, 0, 2, 4, 4]);
  }

  lemma RunHeadField(content: string, text: string)
    requires Inline(content) && text == JoinLines(CloudLines(content), "")
    ensures Field(text, "runcmd:") == Some("")
  {
    CloudInline(content);
    FieldAmong(CloudLines(content), "runcmd:", "", 6, [0, 0, 0, 0, 0, 0]);
  }

  lemma RunField(content: string, text: string)
    requires Inline(content) && text == JoinLines(CloudLines(content), "")
    ensures Field(text, "  - [\"") == Some(BINARY + "\"]")
  {
    CloudInline(content);
    assert "  - [\"" + BINARY + "\"]" == "  - [\"" + (BINARY + "\"]");
    FieldAmong(CloudLines(content), "  - [\"", BINARY + "\"]", 7, [0, 0, 4, 2, 2, 2, 0]);
  }

  lemma ReceivedFrom(payload: string, text: string, script: string)
    requires Base64.Decode(payload) == Some(text) && Base64.IsBytes(script)
    requires text == JoinLines(CloudLines(Base64.Encode(script)), "") && "#cloud-config\nwrite_files:\n" <= text
    ensures Received(payload) == Some(Installed(BINARY, script))
  {
    var content := Base64.Encode(script);
    EncodingVerbatim(script);
    PathField(content, text);
    PermissionsField(content, text);
    EncodingField(content, text);
    ContentField(content, text);
    RunHeadField(content, text);
    RunField(content, text);
    Base64.RoundTrip(script);
  }

  lemma BinaryPath()
    ensures BINARY == "/usr/local/sbin/karpenter-vultr-bootstrap"
  {
  }

  lemma ReceivedAtBinary(script: string)
    requires Base64.IsBytes(script) && Base64.IsBytes(UserData(script))
    ensures Payload(UserData(script)).Some? && Received(Payload(UserData(script)).value) == Some(Installed(BINARY, script))
  {
    UserDataIsBytes(script);
    UserDataLines(script);
    Base64.RoundTrip(UserData(script));
    ReceivedFrom(Payload(UserData(script)).value, UserData(script), script);
  }

  /** The very script is installed under the one path, and run from there. */
  lemma UserDataReceived(script: string)
    requires Base64.IsBytes(script) && Base64.IsBytes(UserData(script))
    ensures Payload(UserData(script)).Some?
    ensures var i := Received(Payload(UserData(script)).value);
            i.Some? && i.value.path == "/usr/local/sbin/karpenter-vultr-bootstrap" && i.value.script == script
  {
    ReceivedAtBinary(script);
    BinaryPath();
  }

  /** Each variable is assigned its own value, quoted. */
  lemma ScriptAssigns(lib: Library, cfg: BootstrapConfig, token: string)
    requires Sound(lib) && ByteConfig(cfg) && Validate(lib, cfg, token) == None
    ensures var values := Values(lib, cfg, token);
            && Base64.IsBytes(Script(lib, values))
            && forall v :: 0 <= v < |VARIABLES| ==> Field(Script(lib, values), VARIABLES[v]) == Some(Quote(lib, values[v]))
  {
    var values := Values(lib, cfg, token);
    ValuesAreBytes(lib, cfg, token);
    ScriptIsBytes(lib, values);
    forall v | 0 <= v < |VARIABLES| ensures Field(Script(lib, values), VARIABLES[v]) == Some(Quote(lib, values[v])) {
      VariableLines(lib, values, v);
    }
  }

  /** What the script assigns can be read back from it: the token and the hash as they are, the extra data encoded. */
  lemma ScriptVariables(lib: Library, cfg: BootstrapConfig, token: string)
    requires Sound(lib) && ByteConfig(cfg) && Validate(lib, cfg, token) == None
    ensures var script := Script(lib, Values(lib, cfg, token));
            && Field(script, "API_SERVER=") == Some(Quote(lib, lib.normalize(cfg.clusterEndpoint).value))
            && Field(script, "NODE_NAME=") == Some(Quote(lib, cfg.nodeName))
            && Variable(script, "BOOTSTRAP_TOKEN=") == Some(token)
            && Variable(script, "CA_CERT_HASH=") == Some(cfg.caCertHash)
            && Variable(script, "EXTRA_USER_DATA_B64=") == Some(Base64.Encode(cfg.extraUserData))
  {
    ScriptAssigns(lib, cfg, token);
    var values := Values(lib, cfg, token);
    assert VARIABLES[1] == "API_SERVER=" && VARIABLES[4] == "NODE_NAME=";
    assert VARIABLES[2] == "BOOTSTRAP_TOKEN=" && VARIABLES[3] == "CA_CERT_HASH=" && VARIABLES[5] == "EXTRA_USER_DATA_B64=";
    TokenVerbatim(token);
    HashVerbatim(lib, cfg, token);
    EncodingVerbatim(cfg.extraUserData);
    QuotedVerbatim(lib, token);
    QuotedVerbatim(lib, cfg.caCertHash);
    QuotedVerbatim(lib, Base64.Encode(cfg.extraUserData));
  }

  /** The minor version is what follows `v1.`, and it too passes unchanged. */
  lemma MinorAssigned(lib: Library, cfg: BootstrapConfig, token: string)
    requires Sound(lib) && ByteConfig(cfg) && Validate(lib, cfg, token) == None
    ensures Variable(Script(lib, Values(lib, cfg, token)), "KUBERNETES_MINOR=") == KubernetesMinor(cfg.kubernetesVersion)
  {
    ScriptAssigns(lib, cfg, token);
    assert VARIABLES[0] == "KUBERNETES_MINOR=";
    MinorVerbatim(cfg.kubernetesVersion);
    QuotedVerbatim(lib, KubernetesMinor(cfg.kubernetesVersion).value);
  }

  lemma TokenVerbatim(token: string)
    requires WellFormed(token)
    ensures Verbatim(token)
  {
    forall k | 0 <= k < |token| ensures TokenChar(token[k]) || token[k] == '.' {
      if k < 6 { assert token[..6][k] in token[..6]; }
      if k > 6 { assert token[7..][k - 7] in token[7..]; }
    }
  }

  lemma HashVerbatim(lib: Library, cfg: BootstrapConfig, token: string)
    requires Validate(lib, cfg, token) == None
    ensures Verbatim(cfg.caCertHash)
  {
  }

  /**
   * From every accepted configuration the instance receives the rendered script, finds in it the very token and hash,
   * and decodes the extra user data it was configured with.
   */
  lemma RenderRoundTrip(lib: Library, cfg: BootstrapConfig, token: string)
    requires Sound(lib) && ByteConfig(cfg) && Render(lib, cfg, token).Ok?
    ensures Base64.IsBytes(Render(lib, cfg, token).value) && Payload(Render(lib, cfg, token).value).Some?
    ensures var script := ReceivedScript(Payload(Render(lib, cfg, token).value).value);
            && script == Some(Script(lib, Values(lib, cfg, token)))
            && Variable(script.value, "BOOTSTRAP_TOKEN=") == Some(token)
            && Variable(script.value, "CA_CERT_HASH=") == Some(cfg.caCertHash)
            && Variable(script.value, "EXTRA_USER_DATA_B64=").Some?
            && Base64.Decode(Variable(script.value, "EXTRA_USER_DATA_B64=").value) == Some(cfg.extraUserData)
  {
    ScriptAssigns(lib, cfg, token);
    ScriptVariables(lib, cfg, token);
    var script := Script(lib, Values(lib, cfg, token));
    UserDataIsBytes(script);
    UserDataReceived(script);
    Base64.RoundTrip(cfg.extraUserData);
  }

  /** The variable is assigned the value, as a Go string literal. */
  predicate Holds(script: string, name: string, value: string) {
    Variable(script, name).Some? && (Ascii(value) ==> Unescaped(Variable(script, name).value) == Some(value))
  }

  lemma HoldsQuoted(lib: Library, script: string, name: string, value: string)
    requires Field(script, name) == Some(Quote(lib, value))
    ensures Holds(script, name, value)
  {
    if Ascii(value) { QuoteUndone(lib, value); }
  }

  /** Each of the six variables holds what it is named for. */
  lemma SixVariables(lib: Library, cfg: BootstrapConfig, token: string)
    requires Sound(lib) && ByteConfig(cfg) && Validate(lib, cfg, token) == None
    ensures var script := Script(lib, Values(lib, cfg, token));
            && Holds(script, "KUBERNETES_MINOR=", KubernetesMinor(cfg.kubernetesVersion).value)
            && Holds(script, "API_SERVER=", lib.normalize(cfg.clusterEndpoint).value)
            && Holds(script, "BOOTSTRAP_TOKEN=", token)
            && Holds(script, "CA_CERT_HASH=", cfg.caCertHash)
            && Holds(script, "NODE_NAME=", cfg.nodeName)
            && Holds(script, "EXTRA_USER_DATA_B64=", Base64.Encode(cfg.extraUserData))
  {
    ScriptAssigns(lib, cfg, token);
    var values := Values(lib, cfg, token);
    var script := Script(lib, values);
    assert VARIABLES[0] == "KUBERNETES_MINOR=" && VARIABLES[1] == "API_SERVER=" && VARIABLES[2] == "BOOTSTRAP_TOKEN=";
    assert VARIABLES[3] == "CA_CERT_HASH=" && VARIABLES[4] == "NODE_NAME=" && VARIABLES[5] == "EXTRA_USER_DATA_B64=";
    forall v | 0 <= v < |VARIABLES| ensures Holds(script, VARIABLES[v], values[v]) {
      HoldsQuoted(lib, script, VARIABLES[v], values[v]);
    }
  }
}
