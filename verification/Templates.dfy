// Template references in action parameters (crates/catalerum-api/src/action_runner.rs).

module Templates {
  import opened Collections
  import opened Text

  /** Number text is kept as it is; nothing here does arithmetic on it. */
  datatype Json =
    | Null
    | Bool(b: bool)
    | Number(text: string)
    | Str(s: string)
    | Arr(items: seq<Json>)
    | Obj(fields: map<string, Json>)

  // ---------- Paths ----------

  const USIZE_MAX := 0xFFFF_FFFF_FFFF_FFFF

  predicate AllDigits(s: string) {
    s != "" && forall i :: 0 <= i < |s| ==> '0' <= s[i] <= '9'
  }

  /** Rust's reading of an unsigned number: one leading plus is allowed. */
  function ParseIndex(seg: string): Option<nat> {
    var digits := if seg != "" && seg[0] == '+' then seg[1..] else seg;
    if AllDigits(digits) && NatValue(digits) <= USIZE_MAX then Some(NatValue(digits)) else None
  }

  /** An index segment is digits, or digits after a plus - which the documentation does not allow -
      and the plus makes no difference. */
  lemma PlusIsAllowed(digits: string)
    requires AllDigits(digits)
    ensures ParseIndex("+" + digits) == ParseIndex(digits) && !AllDigits("+" + digits)
  {
    assert ("+" + digits)[1..] == digits && ("+" + digits)[0] == '+' && digits[0] != '+';
  }

  lemma PlusOneIsOne()
    ensures ParseIndex("+1") == Some(1)
  {
    assert "+1" == "+" + "1" && "1"[..0] == "";
    assert NatValue("1") == 1;
    PlusIsAllowed("1");
  }

  function Child(v: Json, seg: string): Option<Json> {
    match v
    case Obj(fields) => if seg in fields then Some(fields[seg]) else None
    case Arr(items) =>
      var i := ParseIndex(seg);
      if i.Some? && i.value < |items| then Some(items[i.value]) else None
    case _ => None
  }

  /** In an object a key names its field. */
  lemma KeyIs(fields: map<string, Json>, seg: string)
    ensures Child(Obj(fields), seg) == if seg in fields then Some(fields[seg]) else None
  {
  }

  /** In an array digits, zeros in front or not, name the item of that number, up to the largest index
      there can be. */
  lemma IndexIs(items: seq<Json>, n: nat, zeros: nat)
    requires n <= USIZE_MAX
    ensures Child(Arr(items), Zeros(zeros) + NatText(n)) == if n < |items| then Some(items[n]) else None
  {
    PaddedReads(n, zeros);
    ParsesDigits(Zeros(zeros) + NatText(n));
  }

  lemma ParsesDigits(digits: string)
    requires AllDigits(digits)
    ensures ParseIndex(digits) == if NatValue(digits) <= USIZE_MAX then Some(NatValue(digits)) else None
  {
    assert digits[0] != '+';
  }

  /** Nothing else names anything: no other segment of an array, and nothing in a scalar. */
  lemma NothingElseIs(v: Json, seg: string)
    requires !v.Obj?
    requires v.Arr? ==> !AllDigits(seg) && forall digits :: AllDigits(digits) ==> seg != "+" + digits
    ensures Child(v, seg) == None
  {
    if seg != "" && seg[0] == '+' { assert seg == "+" + seg[1..]; }
  }

  function Zeros(n: nat): string {
    seq(n, _ => '0')
  }

  lemma {:induction false} ZerosAreZero(n: nat)
    ensures NatValue(Zeros(n)) == 0
  {
    if n > 0 {
      assert Zeros(n)[..n - 1] == Zeros(n - 1);
      ZerosAreZero(n - 1);
    }
  }

  lemma {:induction false} PaddedReads(n: nat, zeros: nat)
    ensures AllDigits(Zeros(zeros) + NatText(n)) && NatValue(Zeros(zeros) + NatText(n)) == n
    decreases n
  {
    var s := Zeros(zeros) + NatText(n);
    NatTextReads(n);
    if n < 10 {
      assert s[..|s| - 1] == Zeros(zeros);
      ZerosAreZero(zeros);
    } else {
      assert s[..|s| - 1] == Zeros(zeros) + NatText(n / 10);
      PaddedReads(n / 10, zeros);
    }
  }

  function Descend(v: Json, segs: seq<string>): Option<Json> {
    if segs == [] then Some(v)
    else match Child(v, segs[0]) case None => None case Some(w) => Descend(w, segs[1..])
  }

  function Segments(path: string): seq<string> {
    NonEmpty(Split(path, '.'))
  }

  function Resolve(v: Json, path: string): Option<Json> {
    Descend(v, Segments(path))
  }

  method ResolvePath(ctx: Json, path: string) returns (found: Option<Json>)
    ensures found == Resolve(ctx, path)
  {
    var segs := Segments(path);
    var cur := ctx;
    for i := 0 to |segs|
      invariant Descend(ctx, segs) == Descend(cur, segs[i..])
    {
      assert segs[i..][0] == segs[i] && segs[i..][1..] == segs[i + 1..];
      var next := Child(cur, segs[i]);
      if next.None? {
        return None;
      }
      cur := next.value;
    }
    assert segs[|segs|..] == [];
    return Some(cur);
  }

  lemma {:induction false} DescendConcat(v: Json, a: seq<string>, b: seq<string>)
    ensures Descend(v, a + b) == match Descend(v, a) case None => None case Some(w) => Descend(w, b)
  {
    if a == [] {
      assert a + b == b;
    } else {
      assert (a + b)[1..] == a[1..] + b;
      match Child(v, a[0]) {
        case None =>
        case Some(w) => DescendConcat(w, a[1..], b);
      }
    }
  }

  /** Paths compose: `p.q` is `p`, then `q` - for any two texts, empty segments included. */
  lemma ResolveComposes(v: Json, p: string, q: string)
    ensures Resolve(v, p + "." + q) == match Resolve(v, p) case None => None case Some(w) => Resolve(w, q)
  {
    SplitConcat(p, q, '.');
    NonEmptyConcat(Split(p, '.'), Split(q, '.'));
    DescendConcat(v, Segments(p), Segments(q));
  }

  /** A path of dots alone, or none, is the context itself. */
  lemma DotsAreTheContext(v: Json, dots: string)
    requires forall i :: 0 <= i < |dots| ==> dots[i] == '.'
    ensures Resolve(v, dots) == Some(v)
  {
    DotsHaveNoSegments(dots);
  }

  lemma {:induction false} DotsHaveNoSegments(dots: string)
    requires forall i :: 0 <= i < |dots| ==> dots[i] == '.'
    ensures Segments(dots) == []
  {
    if dots != "" {
      DotsHaveNoSegments(dots[1..]);
      assert ([""] + Split(dots[1..], '.'))[1..] == Split(dots[1..], '.');
    }
  }

  // ---------- Strings ----------

  /** Where scanning splits a string: literal text, and what stands between `{{` and `}}`. */
  datatype Piece = Lit(text: string) | Token(inner: string)

  /** The text before the first closed token, what the token holds, and the text after it. */
  function FirstToken(s: string): (r: Option<(string, string, string)>)
    ensures r.Some? ==> |r.value.2| < |s|
  {
    match FindPair(s, '{')
    case None => None
    case Some(start) =>
      var after := s[start + 2..];
      match FindPair(after, '}')
      case None => None
      case Some(end) => Some((s[..start], after[..end], after[end + 2..]))
  }

  function Pieces(s: string): seq<Piece>
    decreases |s|
  {
    match FirstToken(s)
    case None => [Lit(s)]
    case Some((before, inner, rest)) => [Lit(before), Token(inner)] + Pieces(rest)
  }

  function Unparse(p: Piece): string {
    match p case Lit(text) => text case Token(inner) => "{{" + inner + "}}"
  }

  function UnparseAll(ps: seq<Piece>): string {
    if ps == [] then "" else Unparse(ps[0]) + UnparseAll(ps[1..])
  }

  /** `show` prints a value that is not a string as compact JSON. */
  function Stringify(show: Json -> string, v: Json): string {
    if v.Str? then v.s else show(v)
  }

  function RenderPiece(show: Json -> string, ctx: Json, p: Piece): string {
    match p
    case Lit(text) => text
    case Token(inner) =>
      match Resolve(ctx, Trim(inner))
      case Some(found) => Stringify(show, found)
      case None => Unparse(p)
  }

  function RenderPieces(show: Json -> string, ctx: Json, ps: seq<Piece>): string {
    if ps == [] then "" else RenderPiece(show, ctx, ps[0]) + RenderPieces(show, ctx, ps[1..])
  }

  /** A string outside the whole-string form, scanned from left to right. */
  function Scanned(show: Json -> string, ctx: Json, s: string): string {
    RenderPieces(show, ctx, Pieces(s))
  }

  /** The path of a string that, trimmed, opens with `{{` and closes with `}}`. */
  function WholePath(s: string): Option<string> {
    var t := Trim(s);
    if |t| >= 4 && t[..2] == "{{" && t[|t| - 2..] == "}}" then Some(t[2..|t| - 2]) else None
  }

  function RenderedString(show: Json -> string, ctx: Json, s: string): Json {
    match WholePath(s)
    case Some(path) => (match Resolve(ctx, Trim(path)) case Some(found) => found case None => Str(s))
    case None => Str(Scanned(show, ctx, s))
  }

  lemma ScanLiteral(show: Json -> string, ctx: Json, s: string)
    requires Pieces(s) == [Lit(s)]
    ensures Scanned(show, ctx, s) == s
  {
    assert [Lit(s)][1..] == [];
    assert RenderPieces(show, ctx, [Lit(s)]) == s + RenderPieces(show, ctx, []);
    assert s + "" == s;
  }

  lemma RenderTwo(show: Json -> string, ctx: Json, a: Piece, b: Piece, rest: seq<Piece>)
    ensures RenderPieces(show, ctx, [a, b] + rest) ==
            RenderPiece(show, ctx, a) + (RenderPiece(show, ctx, b) + RenderPieces(show, ctx, rest))
  {
  }

  lemma ScanToken(show: Json -> string, ctx: Json, s: string, before: string, inner: string, rest: string)
    requires FirstToken(s) == Some((before, inner, rest))
    ensures Scanned(show, ctx, s) == before + (RenderPiece(show, ctx, Token(inner)) + Scanned(show, ctx, rest))
  {
    RenderTwo(show, ctx, Lit(before), Token(inner), Pieces(rest));
  }

  lemma SplitAtPair(s: string, c: char, start: nat)
    requires FindPair(s, c) == Some(start)
    ensures s == s[..start] + ([c, c] + s[start + 2..])
  {
    FindPairFinds(s, c);
  }

  method RenderToken(show: Json -> string, ctx: Json, inner: string) returns (out: string)
    ensures out == RenderPiece(show, ctx, Token(inner))
  {
    var found := ResolvePath(ctx, Trim(inner));
    if found.Some? {
      out := Stringify(show, found.value);
    } else {
      out := "{{" + inner + "}}";
    }
  }

  method Scan(show: Json -> string, ctx: Json, s: string) returns (out: string)
    ensures out == Scanned(show, ctx, s)
  {
    var rest := s;
    out := "";
    var start := FindPair(rest, '{');
    while start.Some?
      invariant out + Scanned(show, ctx, rest) == Scanned(show, ctx, s)
      invariant start == FindPair(rest, '{')
      decreases |rest|
    {
      var before, after := rest[..start.value], rest[start.value + 2..];
      var end := FindPair(after, '}');
      if end.None? {
        ScanLiteral(show, ctx, rest);
        SplitAtPair(rest, '{', start.value);
        Associate(out, before, "{{" + after);
        Associate(out + before, "{{", after);
        return out + before + "{{" + after;
      }
      ScanToken(show, ctx, rest, before, after[..end.value], after[end.value + 2..]);
      var shown := RenderToken(show, ctx, after[..end.value]);
      ghost var more := Scanned(show, ctx, after[end.value + 2..]);
      Associate(out, before, shown + more);
      Associate(out + before, shown, more);
      out := out + before + shown;
      rest := after[end.value + 2..];
      start := FindPair(rest, '{');
    }
    ScanLiteral(show, ctx, rest);
    out := out + rest;
  }

  /** Any string that is not one whole reference; without an opening pair it is done at once. */
  method Interpolate(show: Json -> string, ctx: Json, s: string) returns (out: string)
    ensures out == Scanned(show, ctx, s)
  {
    if FindPair(s, '{').None? {
      ScanLiteral(show, ctx, s);
      return s;
    }
    out := Scan(show, ctx, s);
  }

  method WholeReference(s: string) returns (path: Option<string>)
    ensures path == WholePath(s)
  {
    var trimmed := Trim(s);
    path := None;
    if |trimmed| >= 4 && trimmed[..2] == "{{" && trimmed[|trimmed| - 2..] == "}}" {
      path := Some(trimmed[2..|trimmed| - 2]);
    }
  }

  method RenderString(show: Json -> string, ctx: Json, s: string) returns (r: Json)
    ensures r == RenderedString(show, ctx, s)
  {
    var path := WholeReference(s);
    if path.Some? {
      var found := ResolvePath(ctx, Trim(path.value));
      if found.Some? {
        return found.value;
      }
      return Str(s);
    }
    var out := Interpolate(show, ctx, s);
    return Str(out);
  }

  // ---------- What the scan sees ----------

  predicate NoPair(s: string, c: char) {
    forall i :: 0 <= i < |s| ==> !PairAt(s + [c], c, i)
  }

  /** Literal text, token, literal text, ..., ending in literal text. A literal before a token
      holds no `{{`, not even one half before the token's own; a token holds no `}}` likewise;
      the last literal may hold a `{{` that is never closed. */
  ghost predicate WellFormed(ps: seq<Piece>)
    decreases |ps|
  {
    if |ps| < 2 then |ps| == 1 && ps[0].Lit? && Unclosed(ps[0].text)
    else ps[0].Lit? && NoPair(ps[0].text, '{') && ps[1].Token? && NoPair(ps[1].inner, '}') && WellFormed(ps[2..])
  }

  predicate Unclosed(s: string) {
    match FindPair(s, '{') case None => true case Some(i) => FindPair(s[i + 2..], '}').None?
  }

  lemma NoPairBeforeFirst(s: string, c: char, n: nat)
    requires FindPair(s, c) == Some(n)
    ensures NoPair(s[..n], c)
  {
    FindPairFinds(s, c);
    forall i | 0 <= i < n ensures !PairAt(s[..n] + [c], c, i) {
      assert !PairAt(s, c, i);
    }
  }

  lemma FirstTokenHasNoPairs(s: string)
    ensures match FirstToken(s)
            case None => Unclosed(s)
            case Some((before, inner, rest)) => NoPair(before, '{') && NoPair(inner, '}')
  {
    if FindPair(s, '{').Some? {
      var start := FindPair(s, '{').value;
      var after := s[start + 2..];
      NoPairBeforeFirst(s, '{', start);
      if FindPair(after, '}').Some? {
        NoPairBeforeFirst(after, '}', FindPair(after, '}').value);
      }
    }
  }

  lemma {:induction false} PiecesAreWellFormed(s: string)
    ensures WellFormed(Pieces(s))
    decreases |s|
  {
    FirstTokenHasNoPairs(s);
    match FirstToken(s)
    case None =>
    case Some((before, inner, rest)) =>
      PiecesAreWellFormed(rest);
      assert ([Lit(before), Token(inner)] + Pieces(rest))[2..] == Pieces(rest);
  }

  lemma UnparseTwo(a: string, b: string, rest: seq<Piece>)
    ensures UnparseAll([Lit(a), Token(b)] + rest) == a + ("{{" + (b + ("}}" + UnparseAll(rest))))
  {
    assert [Lit(a), Token(b)] + rest == [Lit(a)] + ([Token(b)] + rest);
    Regroup("{{", b, "}}", UnparseAll(rest));
  }

  lemma Regroup(x: string, y: string, z: string, w: string)
    ensures (x + y + z) + w == x + (y + (z + w))
  {
  }

  /** The pieces put back together are the string. */
  lemma {:induction false} PiecesUnparse(s: string)
    ensures UnparseAll(Pieces(s)) == s
    decreases |s|
  {
    if Pieces(s) == [Lit(s)] {
      assert [Lit(s)][1..] == [];
      assert UnparseAll([Lit(s)]) == s + UnparseAll([]);
      assert s + "" == s;
    } else {
      var start := FindPair(s, '{').value;
      var after := s[start + 2..];
      var end := FindPair(after, '}').value;
      PiecesUnparse(after[end + 2..]);
      UnparseTwo(s[..start], after[..end], Pieces(after[end + 2..]));
      SplitAtPair(s, '{', start);
      SplitAtPair(after, '}', end);
      assert ['{', '{'] == "{{" && ['}', '}'] == "}}";
    }
  }

  lemma FirstPair(before: string, c: char, rest: string)
    requires NoPair(before, c)
    ensures var s := before + ([c, c] + rest);
      FindPair(s, c) == Some(|before|) && s[..|before|] == before && s[|before| + 2..] == rest
  {
    FindPairAt(before, c, rest);
    Associate(before, [c, c], rest);
  }

  lemma PiecesOf(before: string, inner: string, rest: string)
    requires NoPair(before, '{') && NoPair(inner, '}')
    ensures Pieces(before + ("{{" + (inner + ("}}" + rest)))) == [Lit(before), Token(inner)] + Pieces(rest)
  {
    assert ['{', '{'] == "{{" && ['}', '}'] == "}}";
    var after := inner + ("}}" + rest);
    FirstPair(before, '{', after);
    FirstPair(inner, '}', rest);
    assert FirstToken(before + ("{{" + after)) == Some((before, inner, rest));
  }

  lemma PiecesOfUnparsed(ps: seq<Piece>, before: string, inner: string, rest: seq<Piece>)
    requires NoPair(before, '{') && NoPair(inner, '}') && Pieces(UnparseAll(rest)) == rest
    requires ps == [Lit(before), Token(inner)] + rest
    ensures Pieces(UnparseAll(ps)) == ps
  {
    UnparseTwo(before, inner, rest);
    PiecesOf(before, inner, UnparseAll(rest));
  }

  lemma UnclosedIsOnePiece(text: string)
    requires Unclosed(text)
    ensures Pieces(UnparseAll([Lit(text)])) == [Lit(text)]
  {
    assert [Lit(text)][1..] == [];
    assert UnparseAll([Lit(text)]) == text + UnparseAll([]);
    assert text + "" == text;
  }

  /** And they are the only ones: any well-formed list of pieces is found again in its text. */
  lemma {:induction false} PiecesAreUnique(ps: seq<Piece>)
    requires WellFormed(ps)
    ensures Pieces(UnparseAll(ps)) == ps
    decreases |ps|
  {
    if |ps| < 2 {
      assert ps == [Lit(ps[0].text)];
      UnclosedIsOnePiece(ps[0].text);
    } else {
      var rest := ps[2..];
      assert ps == [Lit(ps[0].text), Token(ps[1].inner)] + rest;
      PiecesAreUnique(rest);
      PiecesOfUnparsed(ps, ps[0].text, ps[1].inner, rest);
    }
  }

  /** What is put in for a token is never scanned itself, whatever it contains: the scan goes on
      with the text after the token. */
  lemma SubstitutedTextIsNotRescanned(show: Json -> string, ctx: Json, before: string, inner: string, rest: string)
    requires NoPair(before, '{') && NoPair(inner, '}') && Resolve(ctx, Trim(inner)).Some?
    ensures Scanned(show, ctx, before + ("{{" + (inner + ("}}" + rest)))) ==
            before + (Stringify(show, Resolve(ctx, Trim(inner)).value) + Scanned(show, ctx, rest))
  {
    PiecesOf(before, inner, rest);
    RenderTwo(show, ctx, Lit(before), Token(inner), Pieces(rest));
  }

  // ---------- Values ----------

  function RenderValue(show: Json -> string, ctx: Json, v: Json): Json {
    match v
    case Str(s) => RenderedString(show, ctx, s)
    case Arr(items) => Arr(seq(|items|, i requires 0 <= i < |items| => RenderValue(show, ctx, items[i])))
    case Obj(fields) => Obj(map k | k in fields :: RenderValue(show, ctx, fields[k]))
    case _ => v
  }

  function RenderParams(show: Json -> string, ctx: Option<Json>, params: map<string, Json>): map<string, Json> {
    match ctx
    case None => params
    case Some(c) => map k | k in params :: RenderValue(show, c, params[k])
  }

  /** What may stand for a piece of a string: its own text, the text of a string found, the JSON of
      anything else found, and a token as it was when nothing is. */
  ghost predicate Shows(show: Json -> string, ctx: Json, p: Piece, out: string) {
    match p
    case Lit(text) => out == text
    case Token(inner) =>
      match Resolve(ctx, Trim(inner))
      case Some(Str(text)) => out == text
      case Some(found) => out == show(found)
      case None => out == "{{" + inner + "}}"
  }

  ghost predicate ShowsAll(show: Json -> string, ctx: Json, ps: seq<Piece>, outs: seq<string>) {
    |outs| == |ps| && forall i :: 0 <= i < |ps| ==> Shows(show, ctx, ps[i], outs[i])
  }

  function Joined(outs: seq<string>): string {
    if outs == [] then "" else outs[0] + Joined(outs[1..])
  }

  /** The string, trimmed, is this path between braces. */
  predicate IsWhole(s: string, path: string) {
    Trim(s) == "{{" + path + "}}"
  }

  /** A whole reference becomes the very value it resolves to, or stays as it is; any other string is
      split into literals and tokens, and becomes the text of what each of them shows. */
  ghost predicate StringRenders(show: Json -> string, ctx: Json, s: string, w: Json) {
    && (forall path :: IsWhole(s, path) ==>
          w == match Resolve(ctx, Trim(path)) case Some(found) => found case None => Str(s))
    && ((forall path :: !IsWhole(s, path)) ==>
          exists ps, outs :: SplitShows(show, ctx, s, ps, outs) && w == Str(Joined(outs)))
  }

  ghost predicate SplitShows(show: Json -> string, ctx: Json, s: string, ps: seq<Piece>, outs: seq<string>) {
    WellFormed(ps) && UnparseAll(ps) == s && ShowsAll(show, ctx, ps, outs)
  }

  /** At every depth: arrays and objects item by item, scalars as they are. */
  ghost predicate Renders(show: Json -> string, ctx: Json, v: Json, w: Json)
    decreases v
  {
    match v
    case Str(s) => StringRenders(show, ctx, s, w)
    case Arr(items) =>
      w.Arr? && |w.items| == |items| && forall i :: 0 <= i < |items| ==> Renders(show, ctx, items[i], w.items[i])
    case Obj(fields) =>
      w.Obj? && w.fields.Keys == fields.Keys &&
      forall k :: k in fields ==> Renders(show, ctx, fields[k], w.fields[k])
    case _ => w == v
  }

  lemma WholePathIs(s: string, path: string)
    ensures WholePath(s) == Some(path) <==> IsWhole(s, path)
  {
    var t := Trim(s);
    if IsWhole(s, path) {
      assert t[..2] == "{{" && t[|t| - 2..] == "}}" && t[2..|t| - 2] == path;
    }
    if WholePath(s) == Some(path) {
      assert t == t[..2] + t[2..|t| - 2] + t[|t| - 2..];
    }
  }

  lemma {:induction false} PiecesShow(show: Json -> string, ctx: Json, ps: seq<Piece>, outs: seq<string>)
    requires ShowsAll(show, ctx, ps, outs)
    ensures RenderPieces(show, ctx, ps) == Joined(outs)
  {
    if ps != [] {
      PiecesShow(show, ctx, ps[1..], outs[1..]);
      assert Shows(show, ctx, ps[0], outs[0]);
    }
  }

  lemma SplitShowsScanned(show: Json -> string, ctx: Json, s: string, ps: seq<Piece>, outs: seq<string>)
    requires SplitShows(show, ctx, s, ps, outs)
    ensures Joined(outs) == Scanned(show, ctx, s)
  {
    PiecesAreUnique(ps);
    PiecesShow(show, ctx, ps, outs);
  }

  lemma PieceShows(show: Json -> string, ctx: Json, p: Piece)
    ensures Shows(show, ctx, p, RenderPiece(show, ctx, p))
  {
  }

  lemma ScannedSplits(show: Json -> string, ctx: Json, s: string) returns (outs: seq<string>)
    ensures SplitShows(show, ctx, s, Pieces(s), outs)
  {
    var ps := Pieces(s);
    outs := seq(|ps|, i requires 0 <= i < |ps| => RenderPiece(show, ctx, ps[i]));
    PiecesAreWellFormed(s);
    PiecesUnparse(s);
    forall i | 0 <= i < |ps| ensures Shows(show, ctx, ps[i], outs[i]) { PieceShows(show, ctx, ps[i]); }
  }

  lemma SplitIff(show: Json -> string, ctx: Json, s: string, w: Json)
    ensures (exists ps, outs :: SplitShows(show, ctx, s, ps, outs) && w == Str(Joined(outs))) <==>
            w == Str(Scanned(show, ctx, s))
  {
    var outs := ScannedSplits(show, ctx, s);
    SplitShowsScanned(show, ctx, s, Pieces(s), outs);
    if ps, shown :| SplitShows(show, ctx, s, ps, shown) && w == Str(Joined(shown)) {
      SplitShowsScanned(show, ctx, s, ps, shown);
    }
  }

  lemma StringRendersIff(show: Json -> string, ctx: Json, s: string, w: Json)
    ensures StringRenders(show, ctx, s, w) <==> w == RenderedString(show, ctx, s)
  {
    SplitIff(show, ctx, s, w);
    if WholePath(s).Some? {
      WholePathAlone(s, WholePath(s).value);
    } else {
      forall path ensures !IsWhole(s, path) { WholePathIs(s, path); }
    }
  }

  lemma WholePathAlone(s: string, path: string)
    requires WholePath(s) == Some(path)
    ensures IsWhole(s, path) && forall other :: IsWhole(s, other) ==> other == path
  {
    WholePathIs(s, path);
    forall other | IsWhole(s, other) ensures other == path { WholePathIs(s, other); }
  }

  /** Main result. Rendering is what the relation says, on every JSON tree, and nothing else is. */
  lemma {:induction false} RendersIff(show: Json -> string, ctx: Json, v: Json, w: Json)
    ensures Renders(show, ctx, v, w) <==> w == RenderValue(show, ctx, v)
    decreases v
  {
    match v
    case Str(s) => StringRendersIff(show, ctx, s, w);
    case Arr(items) =>
      if w.Arr? && |w.items| == |items| {
        forall i | 0 <= i < |items|
          ensures Renders(show, ctx, items[i], w.items[i]) <==> w.items[i] == RenderValue(show, ctx, items[i])
        {
          RendersIff(show, ctx, items[i], w.items[i]);
        }
      }
    case Obj(fields) =>
      if w.Obj? && w.fields.Keys == fields.Keys {
        forall k | k in fields
          ensures Renders(show, ctx, fields[k], w.fields[k]) <==> w.fields[k] == RenderValue(show, ctx, fields[k])
        {
          RendersIff(show, ctx, fields[k], w.fields[k]);
        }
      }
    case _ =>
  }

  /** And of each parameter, where there is a context. */
  lemma ParamsRender(show: Json -> string, ctx: Json, params: map<string, Json>)
    ensures RenderParams(show, Some(ctx), params).Keys == params.Keys
    ensures forall k :: k in params ==> Renders(show, ctx, params[k], RenderParams(show, Some(ctx), params)[k])
  {
    forall k | k in params ensures Renders(show, ctx, params[k], RenderValue(show, ctx, params[k])) {
      RendersIff(show, ctx, params[k], RenderValue(show, ctx, params[k]));
    }
  }

  /** No reference of the string resolves: the path of the whole, or the path of each token. */
  ghost predicate StringUnresolved(ctx: Json, s: string) {
    match WholePath(s)
    case Some(path) => Resolve(ctx, Trim(path)).None?
    case None => forall p :: p in Pieces(s) && p.Token? ==> Resolve(ctx, Trim(p.inner)).None?
  }

  ghost predicate Unresolved(ctx: Json, v: Json) {
    match v
    case Str(s) => StringUnresolved(ctx, s)
    case Arr(items) => forall i :: 0 <= i < |items| ==> Unresolved(ctx, items[i])
    case Obj(fields) => forall k :: k in fields ==> Unresolved(ctx, fields[k])
    case _ => true
  }

  lemma {:induction false} UnresolvedPieces(show: Json -> string, ctx: Json, ps: seq<Piece>)
    requires forall p :: p in ps && p.Token? ==> Resolve(ctx, Trim(p.inner)).None?
    ensures RenderPieces(show, ctx, ps) == UnparseAll(ps)
  {
    if ps != [] {
      assert ps[0] in ps;
      UnresolvedPieces(show, ctx, ps[1..]);
    }
  }

  lemma UnresolvedString(show: Json -> string, ctx: Json, s: string)
    requires StringUnresolved(ctx, s)
    ensures RenderedString(show, ctx, s) == Str(s)
  {
    if WholePath(s).None? {
      UnresolvedPieces(show, ctx, Pieces(s));
      PiecesUnparse(s);
    }
  }

  /** When nothing resolves, rendering is the identity, on every JSON tree. */
  lemma {:induction false} UnresolvedIsVerbatim(show: Json -> string, ctx: Json, v: Json)
    requires Unresolved(ctx, v)
    ensures RenderValue(show, ctx, v) == v
  {
    match v
    case Str(s) => UnresolvedString(show, ctx, s);
    case Arr(items) =>
      forall i | 0 <= i < |items| ensures RenderValue(show, ctx, items[i]) == items[i] {
        UnresolvedIsVerbatim(show, ctx, items[i]);
      }
    case Obj(fields) =>
      forall k | k in fields ensures RenderValue(show, ctx, fields[k]) == fields[k] {
        UnresolvedIsVerbatim(show, ctx, fields[k]);
      }
    case _ =>
  }

  /** Everything but the strings stays in place: keys, lengths, scalars, at every depth. */
  ghost predicate SameShape(v: Json, w: Json)
    decreases v
  {
    match v
    case Str(_) => true
    case Arr(items) =>
      w.Arr? && |w.items| == |items| && forall i :: 0 <= i < |items| ==> SameShape(items[i], w.items[i])
    case Obj(fields) =>
      w.Obj? && w.fields.Keys == fields.Keys && forall k :: k in fields ==> SameShape(fields[k], w.fields[k])
    case _ => w == v
  }

  lemma {:induction false} ShapeIsKept(show: Json -> string, ctx: Json, v: Json)
    ensures SameShape(v, RenderValue(show, ctx, v))
  {
    match v
    case Arr(items) =>
      forall i | 0 <= i < |items| ensures SameShape(items[i], RenderValue(show, ctx, items[i])) {
        ShapeIsKept(show, ctx, items[i]);
      }
    case Obj(fields) =>
      forall k | k in fields ensures SameShape(fields[k], RenderValue(show, ctx, fields[k])) {
        ShapeIsKept(show, ctx, fields[k]);
      }
      assert (map k | k in fields :: RenderValue(show, ctx, fields[k])).Keys == fields.Keys;
    case _ =>
  }

  /** Parameters keep their names; without a context, or when nothing resolves in it, they are
      returned as they are. */
  lemma ParamsAreKept(show: Json -> string, ctx: Option<Json>, params: map<string, Json>)
    ensures RenderParams(show, ctx, params).Keys == params.Keys
    ensures (ctx.None? || forall k :: k in params ==> Unresolved(ctx.value, params[k])) ==>
      RenderParams(show, ctx, params) == params
    ensures ctx.Some? ==> forall k :: k in params ==> SameShape(params[k], RenderParams(show, ctx, params)[k])
  {
    if ctx.Some? {
      forall k | k in params ensures SameShape(params[k], RenderValue(show, ctx.value, params[k])) {
        ShapeIsKept(show, ctx.value, params[k]);
      }
      if forall k :: k in params ==> Unresolved(ctx.value, params[k]) {
        forall k | k in params ensures RenderValue(show, ctx.value, params[k]) == params[k] {
          UnresolvedIsVerbatim(show, ctx.value, params[k]);
        }
      }
    }
  }

  // ---------- Where the whole-string form surprises ----------

  function BothEnds(x: string, between: string, y: string): string {
    "{{" + (x + "}}" + between + "{{" + y) + "}}"
  }

  /** A string with references at both ends is taken for one reference, to whatever stands between
      the outermost braces: unless that resolves, the string stays as it is, and its two references
      are not interpolated. */
  lemma OuterBracesWin(show: Json -> string, ctx: Json, x: string, between: string, y: string)
    ensures var s, path := BothEnds(x, between, y), x + "}}" + between + "{{" + y;
      && WholePath(s) == Some(path)
      && RenderedString(show, ctx, s) == match Resolve(ctx, Trim(path)) case Some(found) => found case None => Str(s)
  {
    var s, path := BothEnds(x, between, y), x + "}}" + between + "{{" + y;
    assert s[0] == '{' && s[|s| - 1] == '}';
    assert s[..2] == "{{" && s[|s| - 2..] == "}}" && s[2..|s| - 2] == path;
  }

  lemma PlainKey(v: Json, key: string)
    requires key != "" && '.' !in key
    ensures Resolve(v, key) == Child(v, key)
  {
    SplitNothing(key, '.');
    assert NonEmpty([key]) == [key] by { assert [key][1..] == []; }
    assert [key][1..] == [];
    if Child(v, key).Some? { assert Descend(Child(v, key).value, []) == Child(v, key); }
  }

  function TwoKeys(): Json {
    Obj(map["a" := Str("1"), "b" := Str("2")])
  }

  lemma TwoKeysResolve()
    ensures Resolve(TwoKeys(), "a") == Some(Str("1")) && Resolve(TwoKeys(), "b") == Some(Str("2"))
  {
    PlainKey(TwoKeys(), "a");
    PlainKey(TwoKeys(), "b");
  }

  /** What stands between the outermost braces of `{{a}} {{b}}` is no key. */
  lemma BetweenResolvesToNothing()
    ensures Resolve(TwoKeys(), Trim("a" + "}}" + " " + "{{" + "b")) == None
  {
    var path := "a" + "}}" + " " + "{{" + "b";
    PlainKey(TwoKeys(), path);
  }

  lemma InterpolatedInText(show: Json -> string)
    ensures Scanned(show, TwoKeys(), "(" + ("{{" + ("a" + ("}}" + ")")))) == "(" + ("1" + ")")
  {
    TwoKeysResolve();
    SubstitutedTextIsNotRescanned(show, TwoKeys(), "(", "a", ")");
    ScanLiteral(show, TwoKeys(), ")");
  }

  /** `{{a}} {{b}}` renders as itself where both `a` and `b` resolve; the same reference with text
      around it is interpolated. */
  lemma TwoReferencesStayVerbatim(show: Json -> string)
    ensures Resolve(TwoKeys(), "a") == Some(Str("1")) && Resolve(TwoKeys(), "b") == Some(Str("2"))
    ensures RenderedString(show, TwoKeys(), BothEnds("a", " ", "b")) == Str(BothEnds("a", " ", "b"))
    ensures Scanned(show, TwoKeys(), "(" + ("{{" + ("a" + ("}}" + ")")))) == "(" + ("1" + ")")
  {
    TwoKeysResolve();
    BetweenResolvesToNothing();
    OuterBracesWin(show, TwoKeys(), "a", " ", "b");
    InterpolatedInText(show);
  }
}
