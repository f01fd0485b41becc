// The agent's token on its way to the server: percent coding and the connect URL
// (crates/catalerum-agent/src/config.rs), and how the server reads it back
// (crates/catalerum-api/src/auth.rs). A byte is a character below U+0100 here; strings become
// bytes, and bytes strings again, by UTF-8 (section 3 of RFC 3629).

module PercentCoding {
  import opened Collections
  import opened Text

  predicate Bytes(s: string) {
    forall i :: 0 <= i < |s| ==> s[i] < '\U{100}'
  }

  // ---------- UTF-8 ----------

  function Byte(n: nat): char
    requires n < 256
  {
    n as char
  }

  function Utf8Char(c: char): string {
    var n := c as int;
    if n < 0x80 then [Byte(n)]
    else if n < 0x800 then [Byte(0xC0 + n / 64), Byte(0x80 + n % 64)]
    else if n < 0x10000 then [Byte(0xE0 + n / 4096), Byte(0x80 + n / 64 % 64), Byte(0x80 + n % 64)]
    else [Byte(0xF0 + n / 262144), Byte(0x80 + n / 4096 % 64), Byte(0x80 + n / 64 % 64), Byte(0x80 + n % 64)]
  }

  function Utf8(s: string): string {
    if s == "" then "" else Utf8Char(s[0]) + Utf8(s[1..])
  }

  lemma {:induction false} Utf8IsBytes(s: string)
    ensures Bytes(Utf8(s))
  {
    if s != "" {
      Utf8IsBytes(s[1..]);
    }
  }

  /** How many bytes a character with this first byte takes; none begins with the others. */
  function Width(lead: char): nat {
    if lead < '\U{80}' then 1
    else if '\U{c0}' <= lead < '\U{e0}' then 2
    else if '\U{e0}' <= lead < '\U{f0}' then 3
    else if '\U{f0}' <= lead < '\U{f8}' then 4
    else 0
  }

  /** The six bits of a continuation byte. */
  function Tail(b: char): int {
    b as int - 0x80
  }

  function CodePoint(b: string): int
    requires b != "" && |b| == Width(b[0])
  {
    var lead := b[0] as int;
    if |b| == 1 then lead
    else if |b| == 2 then (lead - 0xC0) * 64 + Tail(b[1])
    else if |b| == 3 then (lead - 0xE0) * 4096 + Tail(b[1]) * 64 + Tail(b[2])
    else (lead - 0xF0) * 262144 + Tail(b[1]) * 4096 + Tail(b[2]) * 64 + Tail(b[3])
  }

  predicate IsScalar(n: int) {
    0 <= n < 0xD800 || 0xE000 <= n < 0x110000
  }

  /** The character these bytes encode, and they alone: overlong forms and surrogates are refused. */
  function DecodedChar(b: string): Option<char>
    requires b != "" && |b| == Width(b[0])
  {
    var n := CodePoint(b);
    if IsScalar(n) && Utf8Char(n as char) == b then Some(n as char) else None
  }

  function FromUtf8(b: string): Option<string> {
    if b == "" then Some("")
    else
      var w := Width(b[0]);
      if w == 0 || w > |b| then None
      else
        match DecodedChar(b[..w])
        case None => None
        case Some(c) => (match FromUtf8(b[w..]) case None => None case Some(more) => Some([c] + more))
  }

  lemma CharReads(c: char)
    ensures Utf8Char(c) != "" && |Utf8Char(c)| == Width(Utf8Char(c)[0])
    ensures CodePoint(Utf8Char(c)) == c as int
  {
    var n := c as int;
    assert n == n / 64 * 64 + n % 64;
    assert n / 64 == n / 4096 * 64 + n / 64 % 64;
    assert n / 4096 == n / 262144 * 64 + n / 4096 % 64;
  }

  /** Text comes back from its bytes unchanged. */
  lemma {:induction false} Utf8Reads(s: string)
    ensures FromUtf8(Utf8(s)) == Some(s)
  {
    if s != "" {
      var b, w := Utf8(s), |Utf8Char(s[0])|;
      CharReads(s[0]);
      assert b[..w] == Utf8Char(s[0]) && b[w..] == Utf8(s[1..]);
      Utf8Reads(s[1..]);
      assert [s[0]] + s[1..] == s;
    }
  }

  /** What the server makes of decoded bytes: their text, or, where they are no UTF-8, something
      with replacement characters in it. */
  function Lossy(replace: string -> string, b: string): string {
    match FromUtf8(b) case Some(text) => text case None => replace(b)
  }

  // ---------- Percent coding ----------

  /** Section 2.3 of RFC 3986. */
  predicate Unreserved(c: char) {
    'A' <= c <= 'Z' || 'a' <= c <= 'z' || '0' <= c <= '9' || c == '-' || c == '_' || c == '.' || c == '~'
  }

  function HexDigit(d: nat): char
    requires d < 16
  {
    if d < 10 then '0' + d as char else 'A' + (d - 10) as char
  }

  function HexVal(c: char): Option<nat> {
    if '0' <= c <= '9' then Some((c - '0') as nat)
    else if 'a' <= c <= 'f' then Some((c - 'a') as nat + 10)
    else if 'A' <= c <= 'F' then Some((c - 'A') as nat + 10)
    else None
  }

  function EncodedByte(c: char): string
    requires c < '\U{100}'
  {
    if Unreserved(c) then [c] else ['%', HexDigit(c as int / 16), HexDigit(c as int % 16)]
  }

  function Encoded(s: string): string
    requires Bytes(s)
  {
    if s == "" then "" else EncodedByte(s[0]) + Encoded(s[1..])
  }

  /** A `%` not followed by two hex digits stands for itself. */
  function Decoded(s: string): string {
    if s == "" then ""
    else if s[0] == '+' then " " + Decoded(s[1..])
    else if s[0] == '%' && |s| > 2 && HexVal(s[1]).Some? && HexVal(s[2]).Some?
    then [(HexVal(s[1]).value * 16 + HexVal(s[2]).value) as char] + Decoded(s[3..])
    else [s[0]] + Decoded(s[1..])
  }

  method UrlEncode(s: string) returns (out: string)
    ensures Bytes(Utf8(s)) && out == Encoded(Utf8(s))
  {
    var bytes := Utf8(s);
    Utf8IsBytes(s);
    out := "";
    for i := 0 to |bytes|
      invariant out + Encoded(bytes[i..]) == Encoded(bytes)
    {
      var b := bytes[i];
      assert bytes[i..][0] == b && bytes[i..][1..] == bytes[i + 1..];
      Associate(out, EncodedByte(b), Encoded(bytes[i + 1..]));
      if Unreserved(b) {
        out := out + [b];
      } else {
        out := out + ['%', HexDigit(b as int / 16), HexDigit(b as int % 16)];
      }
    }
    assert bytes[|bytes|..] == "" && out + "" == out;
  }

  /** What stands at position `i`: a decoded character and how far it reaches. */
  function UnitAt(s: string, i: nat): (r: (char, nat))
    requires i < |s|
    ensures 1 <= r.1 && i + r.1 <= |s|
  {
    if s[i] == '+' then (' ', 1)
    else if s[i] == '%' && i + 2 < |s| && HexVal(s[i + 1]).Some? && HexVal(s[i + 2]).Some?
    then ((HexVal(s[i + 1]).value * 16 + HexVal(s[i + 2]).value) as char, 3)
    else (s[i], 1)
  }

  method PercentDecode(s: string) returns (out: string)
    ensures out == Decoded(s)
  {
    out := "";
    var i := 0;
    while i < |s|
      invariant i <= |s|
      invariant out + Decoded(s[i..]) == Decoded(s)
    {
      ghost var unit := UnitAt(s, i);
      Associate(out, [unit.0], Decoded(s[i + unit.1..]));
      if s[i] == '+' {
        out, i := out + " ", i + 1;
      } else if s[i] == '%' && i + 2 < |s| {
        var hi, lo := HexVal(s[i + 1]), HexVal(s[i + 2]);
        if hi.Some? && lo.Some? {
          out, i := out + [(hi.value * 16 + lo.value) as char], i + 3;
        } else {
          out, i := out + [s[i]], i + 1;
        }
      } else {
        out, i := out + [s[i]], i + 1;
      }
    }
    assert s[|s|..] == "" && out + "" == out;
  }

  /** A hex digit in either case. */
  function Hex(d: nat, upper: bool): char
    requires d < 16
  {
    if d < 10 then '0' + d as char else (if upper then 'A' else 'a') + (d - 10) as char
  }

  ghost predicate IsHex(c: char) {
    exists d: nat, upper: bool :: d < 16 && c == Hex(d, upper)
  }

  lemma HexReads(c: char)
    ensures HexVal(c).Some? <==> IsHex(c)
    ensures forall d: nat, upper: bool :: d < 16 && c == Hex(d, upper) ==> HexVal(c) == Some(d)
  {
    if HexVal(c).Some? { assert c == Hex(HexVal(c).value, true) || c == Hex(HexVal(c).value, false); }
  }

  lemma TripleIsItsByte(hi: nat, lo: nat, upper: bool, lower: bool, rest: string)
    requires hi < 16 && lo < 16
    ensures Decoded("%" + ([Hex(hi, upper)] + ([Hex(lo, lower)] + rest))) == [(16 * hi + lo) as char] + Decoded(rest)
  {
    var x, y := Hex(hi, upper), Hex(lo, lower);
    HexReads(x);
    HexReads(y);
    var s := "%" + ([x] + ([y] + rest));
    assert s[0] == '%' && s[1] == x && s[2] == y && s[3..] == rest;
  }

  lemma OthersStand(c: char, rest: string)
    requires c != '+' && (c == '%' ==> |rest| < 2 || !IsHex(rest[0]) || !IsHex(rest[1]))
    ensures Decoded([c] + rest) == [c] + Decoded(rest)
  {
    var s := [c] + rest;
    assert s[1..] == rest;
    if |rest| >= 2 {
      HexReads(rest[0]);
      HexReads(rest[1]);
      assert s[1] == rest[0] && s[2] == rest[1];
    }
  }

  /** Decoding, unit by unit: a plus is a space, a percent sign with two hex digits of either case is
      their byte, and anything else stands for itself, a percent sign without them included. */
  lemma DecodedIs(hi: nat, lo: nat, upper: bool, lower: bool, c: char, rest: string)
    requires hi < 16 && lo < 16
    ensures Decoded("") == "" && Decoded("+" + rest) == " " + Decoded(rest)
    ensures Decoded("%" + ([Hex(hi, upper)] + ([Hex(lo, lower)] + rest))) == [(16 * hi + lo) as char] + Decoded(rest)
    ensures c != '+' && (c == '%' ==> |rest| < 2 || !IsHex(rest[0]) || !IsHex(rest[1])) ==>
      Decoded([c] + rest) == [c] + Decoded(rest)
  {
    assert ("+" + rest)[1..] == rest;
    TripleIsItsByte(hi, lo, upper, lower, rest);
    if c != '+' && (c == '%' ==> |rest| < 2 || !IsHex(rest[0]) || !IsHex(rest[1])) { OthersStand(c, rest); }
  }

  // ---------- Round trips ----------

  lemma HexDigitReads(d: nat)
    requires d < 16
    ensures HexVal(HexDigit(d)) == Some(d)
  {
  }

  lemma DecodeByte(c: char, rest: string)
    requires c < '\U{100}'
    ensures Decoded(EncodedByte(c) + rest) == [c] + Decoded(rest)
  {
    var s := EncodedByte(c) + rest;
    if Unreserved(c) {
      assert s[1..] == rest;
    } else {
      HexDigitReads(c as int / 16);
      HexDigitReads(c as int % 16);
      assert s[3..] == rest;
    }
  }

  lemma {:induction false} DecodeAfter(s: string, rest: string)
    requires Bytes(s)
    ensures Decoded(Encoded(s) + rest) == s + Decoded(rest)
  {
    if s == "" {
      assert "" + rest == rest;
      assert "" + Decoded(rest) == Decoded(rest);
    } else {
      Associate(EncodedByte(s[0]), Encoded(s[1..]), rest);
      DecodeByte(s[0], Encoded(s[1..]) + rest);
      DecodeAfter(s[1..], rest);
      assert [s[0]] + s[1..] == s;
      Associate([s[0]], s[1..], Decoded(rest));
    }
  }

  /** Decoding undoes encoding, on every byte string. */
  lemma {:induction false} DecodeUndoesEncode(s: string)
    requires Bytes(s)
    ensures Decoded(Encoded(s)) == s
  {
    DecodeAfter(s, "");
    assert Encoded(s) + "" == Encoded(s) && s + "" == s;
  }

  predicate UpperHex(c: char) {
    '0' <= c <= '9' || 'A' <= c <= 'F'
  }

  /** Unreserved bytes, and `%XX` in upper case standing for a byte that is not unreserved. */
  predicate Canonical(s: string) {
    || s == ""
    || (Unreserved(s[0]) && Canonical(s[1..]))
    || (|s| > 2 && s[0] == '%' && UpperHex(s[1]) && UpperHex(s[2])
        && !Unreserved((HexVal(s[1]).value * 16 + HexVal(s[2]).value) as char) && Canonical(s[3..]))
  }

  lemma {:induction false} EncodeIsCanonical(s: string)
    requires Bytes(s)
    ensures Canonical(Encoded(s))
    ensures forall i :: 0 <= i < |Encoded(s)| ==> Unreserved(Encoded(s)[i]) || Encoded(s)[i] == '%'
  {
    if s != "" {
      EncodeIsCanonical(s[1..]);
      var e, c := Encoded(s), s[0];
      if Unreserved(c) {
        assert e[1..] == Encoded(s[1..]);
      } else {
        HexDigitReads(c as int / 16);
        HexDigitReads(c as int % 16);
        assert e[3..] == Encoded(s[1..]);
      }
    }
  }

  lemma HexPair(a: char, b: char)
    requires UpperHex(a) && UpperHex(b)
    ensures var n := HexVal(a).value * 16 + HexVal(b).value;
      n < 256 && HexDigit(n / 16) == a && HexDigit(n % 16) == b
  {
  }

  function Triple(a: char, b: char): char
    requires UpperHex(a) && UpperHex(b)
  {
    (HexVal(a).value * 16 + HexVal(b).value) as char
  }

  lemma TripleEncodes(a: char, b: char)
    requires UpperHex(a) && UpperHex(b) && !Unreserved(Triple(a, b))
    ensures Triple(a, b) < '\U{100}' && EncodedByte(Triple(a, b)) == ['%', a, b]
  {
    HexPair(a, b);
  }

  lemma CanonicalTriple(e: string)
    requires Canonical(e) && e != "" && e[0] == '%'
    ensures |e| > 2 && UpperHex(e[1]) && UpperHex(e[2]) && !Unreserved(Triple(e[1], e[2])) && Canonical(e[3..])
    ensures Decoded(e) == [Triple(e[1], e[2])] + Decoded(e[3..])
  {
  }

  lemma EncodeCons(c: char, s: string)
    requires c < '\U{100}' && Bytes(s)
    ensures Bytes([c] + s) && Encoded([c] + s) == EncodedByte(c) + Encoded(s)
  {
    assert ([c] + s)[1..] == s;
  }

  /** ... and encoding undoes decoding on canonical text: these are exactly the encodings. */
  lemma {:induction false} EncodeUndoesDecode(e: string)
    requires Canonical(e)
    ensures Bytes(Decoded(e)) && Encoded(Decoded(e)) == e
  {
    if e == "" {
    } else if e[0] == '%' {
      CanonicalTriple(e);
      EncodeUndoesDecode(e[3..]);
      TripleEncodes(e[1], e[2]);
      EncodeCons(Triple(e[1], e[2]), Decoded(e[3..]));
      assert e == ['%', e[1], e[2]] + e[3..];
    } else {
      EncodeUndoesDecode(e[1..]);
      EncodeCons(e[0], Decoded(e[1..]));
      assert e == [e[0]] + e[1..];
    }
  }

  // ---------- Queries ----------

  predicate HasKey(pair: string, key: string) {
    SplitOnce(pair, '=').0 == key
  }

  function PairValue(pair: string): string {
    var raw := SplitOnce(pair, '=').1;
    Decoded(if raw.Some? then raw.value else "")
  }

  function FirstValue(pairs: seq<string>, key: string): Option<string> {
    if pairs == [] then None
    else if HasKey(pairs[0], key) then Some(PairValue(pairs[0]))
    else FirstValue(pairs[1..], key)
  }

  function QueryValue(query: string, key: string): Option<string> {
    FirstValue(Split(query, '&'), key)
  }

  method UrlQueryValue(query: string, key: string) returns (value: Option<string>)
    ensures value == QueryValue(query, key)
  {
    var pairs := Split(query, '&');
    for i := 0 to |pairs|
      invariant FirstValue(pairs, key) == FirstValue(pairs[i..], key)
    {
      assert pairs[i..][0] == pairs[i] && pairs[i..][1..] == pairs[i + 1..];
      var (k, raw) := SplitOnce(pairs[i], '=');
      if k == key {
        var decoded := PercentDecode(if raw.Some? then raw.value else "");
        return Some(decoded);
      }
    }
    assert pairs[|pairs|..] == [];
    return None;
  }

  lemma {:induction false} FirstValueAt(pairs: seq<string>, key: string, i: nat)
    requires i < |pairs| && HasKey(pairs[i], key)
    requires forall j :: 0 <= j < i ==> !HasKey(pairs[j], key)
    ensures FirstValue(pairs, key) == Some(PairValue(pairs[i]))
  {
    if i > 0 {
      assert !HasKey(pairs[0], key);
      assert forall j :: 0 <= j < i - 1 ==> pairs[1..][j] == pairs[j + 1];
      FirstValueAt(pairs[1..], key, i - 1);
    }
  }

  lemma EncodedPair(key: string, v: string)
    requires '=' !in key && Bytes(v)
    ensures HasKey(key + "=" + Encoded(v), key) && PairValue(key + "=" + Encoded(v)) == v
  {
    SplitOnceAt(key, '=', Encoded(v));
    DecodeUndoesEncode(v);
  }

  /** In any query, whatever else it holds, an encoded value is recovered when no earlier pair has
      its key. */
  lemma QueryRecoversTheValue(query: string, key: string, v: string, i: nat)
    requires '=' !in key && Bytes(v)
    requires var pairs := Split(query, '&');
      && i < |pairs| && pairs[i] == key + "=" + Encoded(v)
      && forall j :: 0 <= j < i ==> !HasKey(pairs[j], key)
    ensures QueryValue(query, key) == Some(v)
  {
    EncodedPair(key, v);
    FirstValueAt(Split(query, '&'), key, i);
  }

  /** A key no pair has is not found. */
  lemma {:induction false} NoKeyNoValue(pairs: seq<string>, key: string)
    requires forall j :: 0 <= j < |pairs| ==> !HasKey(pairs[j], key)
    ensures FirstValue(pairs, key) == None
  {
    if pairs != [] {
      NoKeyNoValue(pairs[1..], key);
    }
  }

  // ---------- The connect URL ----------

  function TrimSlashes(s: string): string {
    if s != "" && s[|s| - 1] == '/' then TrimSlashes(s[..|s| - 1]) else s
  }

  predicate StartsWith(s: string, prefix: string) {
    prefix <= s
  }

  function OverSockets(base: string): string {
    if StartsWith(base, "https://") then "wss://" + base[8..]
    else if StartsWith(base, "http://") then "ws://" + base[7..]
    else if StartsWith(base, "ws://") || StartsWith(base, "wss://") then base
    else "wss://" + base
  }

  function WsBase(serverUrl: string): string {
    OverSockets(TrimSlashes(Trim(serverUrl)))
  }

  function Slashes(n: nat): string {
    seq(n, _ => '/')
  }

  lemma {:induction false} SlashesGo(s: string, n: nat)
    requires s == "" || s[|s| - 1] != '/'
    ensures TrimSlashes(s + Slashes(n)) == s
  {
    if n == 0 {
      assert s + Slashes(n) == s;
    } else {
      assert (s + Slashes(n))[..|s| + n - 1] == s + Slashes(n - 1);
      SlashesGo(s, n - 1);
    }
  }

  /** A host as it may be written after a scheme. */
  predicate IsHost(host: string) {
    host != "" && Trimmed(host) && host[|host| - 1] != '/'
  }

  lemma BaseOf(before: string, scheme: string, host: string, n: nat, after: string)
    requires AllSpace(before) && AllSpace(after) && IsHost(host)
    requires scheme != "" ==> !IsSpace(scheme[0])
    ensures TrimSlashes(Trim(before + (scheme + host + Slashes(n)) + after)) == scheme + host
  {
    var s := scheme + host + Slashes(n);
    assert s[0] == (if scheme == "" then host[0] else scheme[0]);
    assert s[|s| - 1] == (if n == 0 then host[|host| - 1] else '/');
    TrimOf(before, s, after);
    SlashesGo(scheme + host, n);
  }

  predicate Maps(scheme: string, target: string) {
    || (scheme == "https://" && target == "wss://") || (scheme == "http://" && target == "ws://")
    || (scheme == target && (scheme == "wss://" || scheme == "ws://"))
  }

  lemma MappedScheme(scheme: string, target: string, host: string)
    requires Maps(scheme, target)
    ensures OverSockets(scheme + host) == target + host
  {
    var s := scheme + host;
    assert s[..|scheme|] == scheme && s[|scheme|..] == host;
    if scheme == "http://" { assert s[4] == ':'; }
    if scheme == target { assert s[0] == 'w'; }
  }

  /** Whatever white space and slashes surround the address: https becomes wss, http becomes ws, and
      the two socket schemes stay. */
  lemma SchemeIsMapped(before: string, scheme: string, target: string, host: string, n: nat, after: string)
    requires AllSpace(before) && AllSpace(after) && IsHost(host) && Maps(scheme, target)
    ensures WsBase(before + (scheme + host + Slashes(n)) + after) == target + host
  {
    BaseOf(before, scheme, host, n, after);
    MappedScheme(scheme, target, host);
  }

  lemma NoScheme(host: string)
    requires forall scheme, target :: Maps(scheme, target) ==> !StartsWith(host, scheme)
    ensures OverSockets(host) == "wss://" + host
  {
    assert Maps("https://", "wss://") && Maps("http://", "ws://") && Maps("wss://", "wss://") && Maps("ws://", "ws://");
  }

  /** An address with none of these schemes is reached over wss. */
  lemma BareHostIsSecure(before: string, host: string, n: nat, after: string)
    requires AllSpace(before) && AllSpace(after) && IsHost(host)
    requires forall scheme, target :: Maps(scheme, target) ==> !StartsWith(host, scheme)
    ensures WsBase(before + (host + Slashes(n)) + after) == "wss://" + host
  {
    assert "" + host == host;
    BaseOf(before, "", host, n, after);
    NoScheme(host);
  }

  const CONNECT_PATH := "/computer-agents/connect"

  function ConnectUrl(serverUrl: string, token: string): string {
    Utf8IsBytes(Trim(token));
    WsBase(serverUrl) + CONNECT_PATH + "?" + ("token=" + Encoded(Utf8(Trim(token))))
  }

  /** The query of a URL: after its first `?`, up to a `#`. */
  function UrlQuery(url: string): Option<string> {
    SplitOnce(SplitOnce(url, '#').0, '?').1
  }

  /** The bytes of the token the server takes from a query. */
  function TokenBytes(query: string): Option<string> {
    var access := QueryValue(query, "access_token");
    if access.Some? then access else QueryValue(query, "token")
  }

  function TokenOf(replace: string -> string, query: string): Option<string> {
    match TokenBytes(query) case None => None case Some(b) => Some(Lossy(replace, b))
  }

  lemma {:induction false} TrimStartKeeps(s: string, c: char)
    requires c !in s
    ensures c !in TrimStart(s)
  {
    if s != "" && IsSpace(s[0]) { TrimStartKeeps(s[1..], c); }
  }

  lemma {:induction false} TrimEndKeeps(s: string, c: char)
    requires c !in s
    ensures c !in TrimEnd(s)
  {
    if s != "" && IsSpace(s[|s| - 1]) { TrimEndKeeps(s[..|s| - 1], c); }
  }

  lemma {:induction false} TrimSlashesKeeps(s: string, c: char)
    requires c !in s
    ensures c !in TrimSlashes(s)
  {
    if s != "" && s[|s| - 1] == '/' { TrimSlashesKeeps(s[..|s| - 1], c); }
  }

  lemma BaseKeeps(serverUrl: string, c: char)
    requires c !in serverUrl && c !in "wss://"
    ensures c !in WsBase(serverUrl)
  {
    TrimStartKeeps(serverUrl, c);
    TrimEndKeeps(TrimStart(serverUrl), c);
    TrimSlashesKeeps(Trim(serverUrl), c);
  }

  lemma TokenQuery(token: string)
    requires Bytes(token)
    ensures TokenBytes("token=" + Encoded(token)) == Some(token)
  {
    var pair := "token" + "=" + Encoded(token);
    assert "token" + "=" == "token=";
    EncodeIsCanonical(token);
    SplitNothing(pair, '&');
    EncodedPair("token", token);
    assert HasKey(pair, "token") && !HasKey(pair, "access_token");
    NoKeyNoValue([pair], "access_token");
    FirstValueAt([pair], "token", 0);
  }

  lemma QueryOf(path: string, query: string)
    requires '?' !in path && '#' !in path && '#' !in query
    ensures UrlQuery(path + "?" + query) == Some(query)
  {
    SplitOnceMissing(path + "?" + query, '#');
    SplitOnceAt(path, '?', query);
  }

  lemma NoFragment(token: string)
    requires Bytes(token)
    ensures '#' !in "token=" + Encoded(token)
  {
  }

  lemma PathKeeps(serverUrl: string)
    requires '?' !in serverUrl && '#' !in serverUrl
    ensures '?' !in WsBase(serverUrl) + CONNECT_PATH && '#' !in WsBase(serverUrl) + CONNECT_PATH
  {
    BaseKeeps(serverUrl, '?');
    BaseKeeps(serverUrl, '#');
  }

  lemma BytesArrive(serverUrl: string, bytes: string)
    requires '?' !in serverUrl && '#' !in serverUrl && Bytes(bytes)
    ensures var url := WsBase(serverUrl) + CONNECT_PATH + "?" + ("token=" + Encoded(bytes));
      UrlQuery(url).Some? && TokenBytes(UrlQuery(url).value) == Some(bytes)
  {
    PathKeeps(serverUrl);
    NoFragment(bytes);
    QueryOf(WsBase(serverUrl) + CONNECT_PATH, "token=" + Encoded(bytes));
    TokenQuery(bytes);
  }

  /** What the agent puts into its connect URL is the token the server authenticates, for every
      token and every server address without a query or fragment of its own. */
  lemma ConnectTokenArrives(replace: string -> string, serverUrl: string, token: string)
    requires '?' !in serverUrl && '#' !in serverUrl
    ensures UrlQuery(ConnectUrl(serverUrl, token)).Some?
    ensures TokenOf(replace, UrlQuery(ConnectUrl(serverUrl, token)).value) == Some(Trim(token))
  {
    Utf8IsBytes(Trim(token));
    Utf8Reads(Trim(token));
    BytesArrive(serverUrl, Utf8(Trim(token)));
  }

  // ---------- Which pair of a query is read ----------

  /** The value of a key: that of the first pair with it, what follows the first `=` decoded, empty when
      there is none; no pair, no value. */
  lemma QueryValueIs(query: string, key: string, i: nat)
    ensures var pairs := Split(query, '&');
      && (i < |pairs| && HasKey(pairs[i], key) && (forall j :: 0 <= j < i ==> !HasKey(pairs[j], key)) ==>
            && (forall value :: pairs[i] == key + "=" + value && '=' !in key ==>
                  QueryValue(query, key) == Some(Decoded(value)))
            && (pairs[i] == key && '=' !in key ==> QueryValue(query, key) == Some("")))
      && ((forall j :: 0 <= j < |pairs| ==> !HasKey(pairs[j], key)) ==> QueryValue(query, key) == None)
  {
    var pairs := Split(query, '&');
    if i < |pairs| && HasKey(pairs[i], key) && forall j :: 0 <= j < i ==> !HasKey(pairs[j], key) {
      FirstValueAt(pairs, key, i);
      forall value | pairs[i] == key + "=" + value && '=' !in key ensures PairValue(pairs[i]) == Decoded(value) {
        SplitOnceAt(key, '=', value);
      }
      if '=' !in key { SplitOnceMissing(key, '='); }
    }
    if forall j :: 0 <= j < |pairs| ==> !HasKey(pairs[j], key) {
      forall pair | pair in pairs ensures !HasKey(pair, key) {
        var j :| 0 <= j < |pairs| && pairs[j] == pair;
      }
      NoKeyNoValue(pairs, key);
    }
  }

  predicate HoldsKey(query: string, key: string) {
    exists j :: 0 <= j < |Split(query, '&')| && HasKey(Split(query, '&')[j], key)
  }

  lemma ValueIfKey(query: string, key: string)
    ensures QueryValue(query, key).Some? <==> HoldsKey(query, key)
  {
    if HoldsKey(query, key) { SomeKeySomeValue(Split(query, '&'), key); } else { QueryValueIs(query, key, 0); }
  }

  /** A query may carry the token under either key; `access_token` comes first. */
  lemma TokenIsReadFrom(query: string)
    ensures HoldsKey(query, "access_token") ==> TokenBytes(query) == QueryValue(query, "access_token")
    ensures !HoldsKey(query, "access_token") ==> TokenBytes(query) == QueryValue(query, "token")
  {
    ValueIfKey(query, "access_token");
  }

  lemma {:induction false} SomeKeySomeValue(pairs: seq<string>, key: string)
    requires exists j :: 0 <= j < |pairs| && HasKey(pairs[j], key)
    ensures FirstValue(pairs, key).Some?
  {
    var j :| 0 <= j < |pairs| && HasKey(pairs[j], key);
    if !HasKey(pairs[0], key) {
      assert pairs[1..][j - 1] == pairs[j];
      SomeKeySomeValue(pairs[1..], key);
    }
  }

  /** Letters, digits and the four marks of section 2.3 of RFC 3986 are sent as they are, and every
      other byte as a triple. */
  lemma UnreservedStand(c: char)
    requires c < '\U{100}'
    ensures var plain := 'a' <= c <= 'z' || 'A' <= c <= 'Z' || '0' <= c <= '9' || c in "-._~";
      if plain then Encoded([c]) == [c] else |Encoded([c])| == 3 && Encoded([c])[0] == '%'
  {
    assert [c][1..] == [] && Encoded([]) == "";
    assert Encoded([c]) == EncodedByte(c) + "";
  }

  /** The address the agent dials. */
  lemma ConnectUrlIs(serverUrl: string, token: string)
    ensures WsBase(serverUrl) + "/computer-agents/connect?token=" <= ConnectUrl(serverUrl, token)
  {
    Utf8IsBytes(Trim(token));
    var encoded := Encoded(Utf8(Trim(token)));
    var base, url := WsBase(serverUrl), ConnectUrl(serverUrl, token);
    assert CONNECT_PATH + "?" + "token=" == "/computer-agents/connect?token=";
    assert url == base + (CONNECT_PATH + "?" + "token=") + encoded;
  }
}
