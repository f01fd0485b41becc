// Text helpers: decimal numbers, splitting, trimming.

module Text {
  import opened Collections

  // ---------- Decimal numbers ----------

  function Digit(d: nat): char
    requires d < 10
  {
    '0' + d as char
  }

  function NatText(n: nat): string {
    if n < 10 then [Digit(n)] else NatText(n / 10) + [Digit(n % 10)]
  }

  function IntText(n: int): string {
    if n < 0 then "-" + NatText(-n) else NatText(n)
  }

  function NatValue(s: string): nat {
    if s == "" then 0
    else
      var d := s[|s| - 1];
      10 * NatValue(s[..|s| - 1]) + if '0' <= d <= '9' then (d - '0') as int else 0
  }

  lemma {:induction false} NatTextReads(n: nat)
    ensures NatValue(NatText(n)) == n
    ensures NatText(n) != "" && forall c :: c in NatText(n) ==> '0' <= c <= '9'
  {
    if n >= 10 {
      NatTextReads(n / 10);
      assert NatText(n)[..|NatText(n)| - 1] == NatText(n / 10);
    }
  }

  /** Two different numbers never print alike. */
  lemma IntTextInjective(m: int, n: int)
    requires IntText(m) == IntText(n)
    ensures m == n
  {
    var a, b := if m < 0 then -m else m, if n < 0 then -n else n;
    NatTextReads(a);
    NatTextReads(b);
    assert m >= 0 ==> IntText(m)[0] in NatText(a);
    assert n >= 0 ==> IntText(n)[0] in NatText(b);
    assert m < 0 ==> IntText(m)[0] == '-' && NatText(a) == IntText(m)[1..];
    assert n < 0 ==> IntText(n)[0] == '-' && NatText(b) == IntText(n)[1..];
  }

  // ---------- Trimming ----------

  /** The Unicode White_Space property. */
  predicate IsSpace(c: char) {
    || '\U{9}' <= c <= '\U{d}' || c == ' ' || c == '\U{85}' || c == '\U{a0}' || c == '\U{1680}'
    || '\U{2000}' <= c <= '\U{200a}' || c == '\U{2028}' || c == '\U{2029}' || c == '\U{202f}'
    || c == '\U{205f}' || c == '\U{3000}'
  }

  function TrimStart(s: string): string {
    if s != "" && IsSpace(s[0]) then TrimStart(s[1..]) else s
  }

  function TrimEnd(s: string): string {
    if s != "" && IsSpace(s[|s| - 1]) then TrimEnd(s[..|s| - 1]) else s
  }

  function Trim(s: string): string {
    TrimEnd(TrimStart(s))
  }

  predicate AllSpace(s: string) {
    forall i :: 0 <= i < |s| ==> IsSpace(s[i])
  }

  /** Nothing to trim at either end. */
  predicate Trimmed(s: string) {
    s != "" ==> !IsSpace(s[0]) && !IsSpace(s[|s| - 1])
  }

  lemma {:induction false} TrimStartIs(s: string) returns (n: nat)
    ensures n <= |s| && AllSpace(s[..n]) && TrimStart(s) == s[n..] && (n < |s| ==> !IsSpace(s[n]))
  {
    n := 0;
    if s != "" && IsSpace(s[0]) {
      var k := TrimStartIs(s[1..]);
      n := k + 1;
      assert forall i :: 0 < i < n ==> s[i] == s[1..][..k][i - 1];
      assert s[1..][k..] == s[n..];
    }
  }

  lemma {:induction false} TrimEndIs(s: string) returns (n: nat)
    ensures n <= |s| && AllSpace(s[n..]) && TrimEnd(s) == s[..n] && (n > 0 ==> !IsSpace(s[n - 1]))
  {
    n := |s|;
    if s != "" && IsSpace(s[|s| - 1]) {
      var t := s[..|s| - 1];
      n := TrimEndIs(t);
      assert forall i :: n <= i < |t| ==> s[i] == t[n..][i - n];
      assert t[..n] == s[..n];
    }
  }

  /** Trimming takes white space off both ends, all of it and nothing else. */
  lemma TrimIs(s: string) returns (before: string, after: string)
    ensures s == before + Trim(s) + after && AllSpace(before) && AllSpace(after) && Trimmed(Trim(s))
  {
    var n := TrimStartIs(s);
    var t := s[n..];
    var k := TrimEndIs(t);
    before, after := s[..n], t[k..];
    assert s == s[..n] + (t[..k] + t[k..]);
    if k > 0 { assert t[..k][0] == s[n]; }
  }

  lemma {:induction false} TrimStartAfter(before: string, s: string)
    requires AllSpace(before) && (s != "" ==> !IsSpace(s[0]))
    ensures TrimStart(before + s) == s
  {
    if before == "" {
      assert before + s == s;
    } else {
      assert (before + s)[1..] == before[1..] + s;
      TrimStartAfter(before[1..], s);
    }
  }

  lemma {:induction false} TrimEndBefore(s: string, after: string)
    requires AllSpace(after) && (s != "" ==> !IsSpace(s[|s| - 1]))
    ensures TrimEnd(s + after) == s
  {
    if after == "" {
      assert s + after == s;
    } else {
      assert (s + after)[..|s + after| - 1] == s + after[..|after| - 1];
      TrimEndBefore(s, after[..|after| - 1]);
    }
  }

  /** A text with nothing to trim is what is left of it in any white space. */
  lemma TrimOf(before: string, s: string, after: string)
    requires AllSpace(before) && AllSpace(after) && Trimmed(s) && s != ""
    ensures Trim(before + s + after) == s
  {
    assert before + s + after == before + (s + after) && (s + after)[0] == s[0];
    TrimStartAfter(before, s + after);
    TrimEndBefore(s, after);
  }

  // ---------- Splitting ----------

  /** Everything between separators, empty pieces included. */
  function Split(s: string, c: char): (parts: seq<string>)
    ensures parts != []
  {
    if s == "" then [""]
    else
      var rest := Split(s[1..], c);
      if s[0] == c then [""] + rest else [[s[0]] + rest[0]] + rest[1..]
  }

  lemma {:induction false} SplitConcat(p: string, q: string, c: char)
    ensures Split(p + [c] + q, c) == Split(p, c) + Split(q, c)
  {
    if p == "" {
      assert p + [c] + q == [c] + q;
      assert ([c] + q)[1..] == q;
    } else {
      var s := p + [c] + q;
      assert s[1..] == p[1..] + [c] + q;
      SplitConcat(p[1..], q, c);
    }
  }

  lemma {:induction false} SplitNothing(s: string, c: char)
    requires c !in s
    ensures Split(s, c) == [s]
  {
    if s != "" {
      SplitNothing(s[1..], c);
      assert [s[0]] + s[1..] == s;
    }
  }

  /** The text before and after the first `c`. */
  function SplitOnce(s: string, c: char): (string, Option<string>) {
    if s == "" then ("", None)
    else if s[0] == c then ("", Some(s[1..]))
    else
      var (before, after) := SplitOnce(s[1..], c);
      ([s[0]] + before, after)
  }

  lemma {:induction false} SplitOnceAt(before: string, c: char, after: string)
    requires c !in before
    ensures SplitOnce(before + [c] + after, c) == (before, Some(after))
  {
    var s := before + [c] + after;
    if before == "" {
      assert s == [c] + after && s[1..] == after;
    } else {
      assert s[1..] == before[1..] + [c] + after;
      SplitOnceAt(before[1..], c, after);
      assert [before[0]] + before[1..] == before;
    }
  }

  lemma {:induction false} SplitOnceMissing(s: string, c: char)
    requires c !in s
    ensures SplitOnce(s, c) == (s, None)
  {
    if s != "" {
      SplitOnceMissing(s[1..], c);
      assert [s[0]] + s[1..] == s;
    }
  }

  function NonEmpty(parts: seq<string>): seq<string> {
    if parts == [] then []
    else (if parts[0] == "" then [] else [parts[0]]) + NonEmpty(parts[1..])
  }

  lemma {:induction false} NonEmptyConcat(a: seq<string>, b: seq<string>)
    ensures NonEmpty(a + b) == NonEmpty(a) + NonEmpty(b)
  {
    if a == [] {
      assert a + b == b;
    } else {
      assert (a + b)[1..] == a[1..] + b;
      NonEmptyConcat(a[1..], b);
    }
  }

  // ---------- Doubled marks ----------

  predicate PairAt(s: string, c: char, i: nat) {
    i + 1 < |s| && s[i] == c && s[i + 1] == c
  }

  /** Where two `c` in a row first start, from a position on. */
  function FindPairFrom(s: string, c: char, i: nat): (r: Option<nat>)
    ensures r.Some? ==> i <= r.value && r.value + 2 <= |s|
    decreases |s| - i
  {
    if i + 1 >= |s| then None else if PairAt(s, c, i) then Some(i) else FindPairFrom(s, c, i + 1)
  }

  function FindPair(s: string, c: char): Option<nat> {
    FindPairFrom(s, c, 0)
  }

  lemma {:induction false} FindPairFromFinds(s: string, c: char, i: nat)
    ensures match FindPairFrom(s, c, i)
            case None => forall k: nat :: i <= k ==> !PairAt(s, c, k)
            case Some(n) => PairAt(s, c, n) && forall k :: i <= k < n ==> !PairAt(s, c, k)
    decreases |s| - i
  {
    if i + 1 < |s| && !PairAt(s, c, i) {
      FindPairFromFinds(s, c, i + 1);
    }
  }

  lemma FindPairFinds(s: string, c: char)
    ensures match FindPair(s, c)
            case None => forall i: nat :: !PairAt(s, c, i)
            case Some(n) => n + 2 <= |s| && PairAt(s, c, n) && forall i :: 0 <= i < n ==> !PairAt(s, c, i)
  {
    FindPairFromFinds(s, c, 0);
  }

  /** The first pair is where it is: nothing before it, not even half of it, looks like one. */
  lemma FindPairAt(before: string, c: char, rest: string)
    requires forall i :: 0 <= i < |before| ==> !PairAt(before + [c], c, i)
    ensures FindPair(before + [c, c] + rest, c) == Some(|before|)
  {
    var s := before + [c, c] + rest;
    FindPairFinds(s, c);
    assert PairAt(s, c, |before|);
    forall i | 0 <= i < |before| ensures !PairAt(s, c, i) {
      assert !PairAt(before + [c], c, i);
      assert s[i] == (before + [c])[i] && s[i + 1] == (before + [c])[i + 1];
    }
  }
}
