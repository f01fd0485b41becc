// The lock names of the inbound channel listener
// (crates/catalerum-api/src/channel_listener.rs, the two key builders).

module ChannelKeys {
  /** What identifies one inbound message. */
  datatype Ident = Ident(workspace: string, channel: string, source: string, id: string)

  function LeaderKey(workspace: string, channel: string): string {
    "leader:channel:" + workspace + ":" + channel
  }

  function ClaimKey(m: Ident): string {
    "channel-msg:" + m.workspace + ":" + m.channel + ":" + m.source + ":" + m.id
  }

  predicate ColonFree(s: string) { ':' !in s }

  /** Workspace ids print as UUIDs, so they never hold a colon. */
  predicate PlainNames(m: Ident) { ColonFree(m.workspace) && ColonFree(m.channel) }

  lemma KeysApart(workspace: string, channel: string, m: Ident)
    ensures LeaderKey(workspace, channel) != ClaimKey(m)
  {
    assert LeaderKey(workspace, channel)[0] == 'l';
    assert ClaimKey(m)[0] == 'c';
  }

  function FirstColon(s: string): nat {
    if s == [] || s[0] == ':' then 0 else 1 + FirstColon(s[1..])
  }

  lemma {:induction false} FirstColonAfter(a: string, x: string)
    requires ColonFree(a)
    ensures FirstColon(a + ":" + x) == |a|
  {
    if a == [] {
      assert a + ":" + x == ":" + x;
    } else {
      assert (a + ":" + x)[1..] == a[1..] + ":" + x;
      FirstColonAfter(a[1..], x);
    }
  }

  /** Two splits of one text at a colon agree when the parts before it hold none. */
  lemma SplitsAgree(a: string, x: string, b: string, y: string)
    requires ColonFree(a) && ColonFree(b)
    requires a + ":" + x == b + ":" + y
    ensures a == b && x == y
  {
    FirstColonAfter(a, x);
    FirstColonAfter(b, y);
    assert a == (a + ":" + x)[..|a|] && b == (b + ":" + y)[..|b|];
    assert x == (a + ":" + x)[|a| + 1..] && y == (b + ":" + y)[|b| + 1..];
  }

  /** `long`'s source swallows a piece of `short`'s id: "a:b" + "c" against "a" + "b:c". */
  ghost predicate Shifted(short: Ident, long: Ident) {
    exists piece: string ::
      long.source == short.source + ":" + piece && short.id == piece + ":" + long.id
  }

  lemma LastColon(m: Ident, n: Ident)
    requires m.source + ":" + m.id == n.source + ":" + n.id && |m.source| < |n.source|
    ensures Shifted(m, n)
  {
    var s, t := m.source + ":" + m.id, n.source + ":" + n.id;
    var cut := |m.source| + 1;
    var piece := n.source[cut..];
    assert n.source == t[..|n.source|] == s[..|n.source|];
    assert n.source[..cut] == s[..cut] == m.source + ":";
    assert n.source == n.source[..cut] + piece;
    assert m.id == s[cut..] == t[cut..];
    assert m.id == piece + ":" + n.id;
  }

  /** Exactly when two messages share a claim: they are the same message, or one is the
      other with the colon boundary between source and id moved. */
  lemma ClaimKeysCollide(m: Ident, n: Ident)
    requires PlainNames(m) && PlainNames(n)
    ensures ClaimKey(m) == ClaimKey(n) <==>
            m.workspace == n.workspace && m.channel == n.channel
            && (m == n || Shifted(m, n) || Shifted(n, m))
  {
    var ms, ns := m.source + ":" + m.id, n.source + ":" + n.id;
    var mc, nc := m.channel + ":" + ms, n.channel + ":" + ns;
    assert ClaimKey(m) == "channel-msg:" + (m.workspace + ":" + mc);
    assert ClaimKey(n) == "channel-msg:" + (n.workspace + ":" + nc);
    if ClaimKey(m) == ClaimKey(n) {
      assert m.workspace + ":" + mc == ClaimKey(m)[|"channel-msg:"|..];
      assert n.workspace + ":" + nc == ClaimKey(n)[|"channel-msg:"|..];
      SplitsAgree(m.workspace, mc, n.workspace, nc);
      SplitsAgree(m.channel, ms, n.channel, ns);
      if |m.source| < |n.source| {
        LastColon(m, n);
      } else if |n.source| < |m.source| {
        LastColon(n, m);
      } else {
        assert m.source == ms[..|m.source|] == ns[..|n.source|] == n.source;
        assert m.id == ms[|m.source| + 1..] == ns[|n.source| + 1..] == n.id;
      }
    } else if m.workspace == n.workspace && m.channel == n.channel {
      if Shifted(m, n) {
        ShiftedSameKey(m, n);
      }
      if Shifted(n, m) {
        ShiftedSameKey(n, m);
      }
    }
  }

  lemma ShiftedSameKey(m: Ident, n: Ident)
    requires Shifted(m, n) && m.workspace == n.workspace && m.channel == n.channel
    ensures ClaimKey(m) == ClaimKey(n)
  {
  }

  /** With colon-free message ids the claim is the message's identity. */
  lemma ClaimKeyInjective(m: Ident, n: Ident)
    requires PlainNames(m) && PlainNames(n) && ColonFree(m.id) && ColonFree(n.id)
    requires ClaimKey(m) == ClaimKey(n)
    ensures m == n
  {
    ClaimKeysCollide(m, n);
  }

  /** Ids with a colon can collide: two different messages, one claim. */
  lemma ClaimKeyCollision(workspace: string, channel: string)
    ensures var m := Ident(workspace, channel, "a", "b:c");
            var n := Ident(workspace, channel, "a:b", "c");
            m != n && ClaimKey(m) == ClaimKey(n)
  {
  }

  /** No two channels share a lease. */
  lemma LeaderKeyInjective(v: string, a: string, w: string, b: string)
    requires ColonFree(v) && ColonFree(w) && LeaderKey(v, a) == LeaderKey(w, b)
    ensures v == w && a == b
  {
    var n := |"leader:channel:"|;
    assert LeaderKey(v, a)[n..] == v + ":" + a && LeaderKey(w, b)[n..] == w + ":" + b;
    SplitsAgree(v, a, w, b);
  }
}
