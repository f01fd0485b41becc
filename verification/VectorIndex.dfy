// The in-memory vector indexes (crates/catalerum-api/src/article_index.rs and node_index.rs, one
// algorithm over two corpora). Components are exact reals: rounding and NaN are not modelled.

module VectorIndex {
  import opened Collections

  // ---------- Cosine similarity ----------

  function Dot(a: seq<real>, b: seq<real>): real
    requires |a| == |b|
  {
    if a == [] then 0.0
    else Dot(a[..|a| - 1], b[..|b| - 1]) + a[|a| - 1] * b[|b| - 1]
  }

  /** A square root, as far as one value is concerned. */
  predicate IsRoot(root: real -> real, x: real) {
    root(x) >= 0.0 && root(x) * root(x) == x
  }

  /** The sum of the squares (a[i] t - b[i])^2, written as a quadratic in t. */
  predicate AboveAxis(na: real, dot: real, nb: real, t: real) {
    na * (t * t) - 2.0 * (dot * t) + nb >= 0.0
  }

  lemma OneMoreSquare(na: real, dot: real, nb: real, x: real, y: real, t: real, na': real, dot': real, nb': real)
    requires AboveAxis(na, dot, nb, t)
    requires na' == na + x * x && dot' == dot + x * y && nb' == nb + y * y
    ensures AboveAxis(na', dot', nb', t)
  {
    var u := x * t;
    Distribute(na, x * x, t * t);
    Distribute(dot, x * y, t);
    SquareOfProduct(x, t);
    SquareOfDifference(u, y);
    Regroup(x, t, y);
  }

  lemma Regroup(x: real, t: real, y: real)
    ensures (x * t) * y == (x * y) * t
  {
  }

  lemma Distribute(x: real, y: real, z: real)
    ensures (x + y) * z == x * z + y * z
  {
  }

  lemma SquareOfDifference(u: real, y: real)
    ensures u * u - 2.0 * (u * y) + y * y >= 0.0
  {
  }

  lemma {:induction false} Quadratic(a: seq<real>, b: seq<real>, t: real)
    requires |a| == |b|
    ensures AboveAxis(Dot(a, a), Dot(a, b), Dot(b, b), t)
  {
    if a != [] {
      var n := |a| - 1;
      Quadratic(a[..n], b[..n], t);
      OneMoreSquare(Dot(a[..n], a[..n]), Dot(a[..n], b[..n]), Dot(b[..n], b[..n]), a[n], b[n], t,
                    Dot(a, a), Dot(a, b), Dot(b, b));
    }
  }

  lemma SquareIsNonNegative(x: real)
    ensures x * x >= 0.0
  {
  }

  lemma SameSign(x: real, y: real, product: real)
    requires product == x * y && ((x > 0.0 && y > 0.0) || (x < 0.0 && y < 0.0))
    ensures product > 0.0
  {
  }

  lemma ZeroSquare(x: real, square: real)
    requires square == x * x && square <= 0.0
    ensures x == 0.0
  {
    if x != 0.0 { SameSign(x, x, square); }
  }

  lemma {:induction false} NormNonNegative(a: seq<real>)
    ensures Dot(a, a) >= 0.0
  {
    if a != [] {
      NormNonNegative(a[..|a| - 1]);
      SquareIsNonNegative(a[|a| - 1]);
    }
  }

  lemma {:induction false} ZeroNorm(a: seq<real>, b: seq<real>)
    requires |a| == |b| && Dot(a, a) == 0.0
    ensures Dot(a, b) == 0.0
  {
    if a != [] {
      var n := |a| - 1;
      NormNonNegative(a[..n]);
      SquareIsNonNegative(a[n]);
      ZeroNorm(a[..n], b[..n]);
      ZeroSquare(a[n], a[n] * a[n]);
    }
  }

  lemma AtTheVertex(na: real, dot: real, nb: real)
    requires na > 0.0 && AboveAxis(na, dot, nb, dot / na)
    ensures dot * dot <= na * nb
  {
  }

  lemma BoundedEitherWay(na: real, dot: real, nb: real, t: real)
    requires na >= 0.0 && (na > 0.0 ==> t == dot / na && AboveAxis(na, dot, nb, t)) && (na == 0.0 ==> dot == 0.0)
    ensures dot * dot <= na * nb
  {
    if na > 0.0 { AtTheVertex(na, dot, nb); } else { ZeroIsBounded(na, dot, nb); }
  }

  /** Cauchy-Schwarz, for the accumulators of the loop. */
  lemma CauchySchwarz(a: seq<real>, b: seq<real>)
    requires |a| == |b|
    ensures Dot(a, b) * Dot(a, b) <= Dot(a, a) * Dot(b, b)
  {
    var na, t := Dot(a, a), 0.0;
    NormNonNegative(a);
    if na > 0.0 {
      t := Dot(a, b) / na;
      Quadratic(a, b, t);
    } else {
      ZeroNorm(a, b);
    }
    BoundedEitherWay(na, Dot(a, b), Dot(b, b), t);
  }

  lemma ZeroIsBounded(na: real, dot: real, nb: real)
    requires na == 0.0 && dot == 0.0
    ensures dot * dot <= na * nb
  {
  }

  function Quotient(dot: real, ra: real, rb: real): real {
    if ra * rb == 0.0 then 0.0 else dot / (ra * rb)
  }

  /** Zero when the lengths differ or a vector has no direction. */
  function Cosine(root: real -> real, a: seq<real>, b: seq<real>): real {
    if |a| != |b| then 0.0 else Quotient(Dot(a, b), root(Dot(a, a)), root(Dot(b, b)))
  }

  method CosineLoop(root: real -> real, a: seq<real>, b: seq<real>) returns (score: real)
    ensures score == Cosine(root, a, b)
  {
    if |a| != |b| {
      return 0.0;
    }
    var dot, na, nb := 0.0, 0.0, 0.0;
    for i := 0 to |a|
      invariant dot == Dot(a[..i], b[..i]) && na == Dot(a[..i], a[..i]) && nb == Dot(b[..i], b[..i])
    {
      assert a[..i + 1][..i] == a[..i] && b[..i + 1][..i] == b[..i];
      dot := dot + a[i] * b[i];
      na := na + a[i] * a[i];
      nb := nb + b[i] * b[i];
    }
    assert a[..|a|] == a && b[..|b|] == b;
    var denom := root(na) * root(nb);
    if denom == 0.0 {
      return 0.0;
    }
    return dot / denom;
  }

  lemma LargerSquare(x: real, y: real)
    requires y > 0.0 && (x > y || x < -y)
    ensures x * x > y * y
  {
  }

  lemma SquareOfProduct(x: real, y: real)
    ensures (x * y) * (x * y) == (x * x) * (y * y)
  {
  }

  lemma RatioWithin(q: real, x: real, y: real)
    requires y > 0.0 && q * y == x
    ensures q > 1.0 ==> x > y
    ensures q < -1.0 ==> x < -y
  {
  }

  lemma RatioIsBounded(dot: real, na: real, nb: real, ra: real, rb: real)
    requires ra >= 0.0 && rb >= 0.0 && ra * ra == na && rb * rb == nb
    requires dot * dot <= na * nb
    ensures -1.0 <= Quotient(dot, ra, rb) <= 1.0
  {
    var denom := ra * rb;
    ProductOfNonNegatives(ra, rb);
    if denom != 0.0 {
      SquareOfProduct(ra, rb);
      assert denom * denom == na * nb;
      var q := dot / denom;
      assert q * denom == dot;
      RatioWithin(q, dot, denom);
      if dot > denom || dot < -denom { LargerSquare(dot, denom); }
    }
  }

  lemma ProductOfNonNegatives(x: real, y: real)
    requires x >= 0.0 && y >= 0.0
    ensures x * y >= 0.0
  {
  }

  /** Scores lie in [-1, 1]. */
  lemma ScoreIsBounded(root: real -> real, a: seq<real>, b: seq<real>)
    requires IsRoot(root, Dot(a, a)) && IsRoot(root, Dot(b, b))
    ensures -1.0 <= Cosine(root, a, b) <= 1.0
  {
    if |a| == |b| {
      var dot, na, nb := Dot(a, b), Dot(a, a), Dot(b, b);
      CauchySchwarz(a, b);
      assert IsRoot(root, na) && IsRoot(root, nb);
      RatioIsBounded(dot, na, nb, root(na), root(nb));
    }
  }

  /** A document embedded like the query scores the maximum, so nothing outranks it. */
  lemma SameVectorScoresOne(root: real -> real, a: seq<real>)
    requires IsRoot(root, Dot(a, a)) && Dot(a, a) != 0.0
    ensures Cosine(root, a, a) == 1.0
  {
    assert root(Dot(a, a)) * root(Dot(a, a)) == Dot(a, a);
    SelfRatio(Dot(a, a));
  }

  lemma QuotientTimes(dot: real, denom: real)
    requires denom != 0.0
    ensures dot / denom * denom == dot
  {
  }

  lemma ZeroRoot(r: real, square: real)
    requires r == 0.0 && square == r * r
    ensures square == 0.0
  {
  }

  /** The score times both lengths is the dot product - its sign is the dot product's - and without a
      direction on one side it is zero. */
  lemma CosineIs(root: real -> real, a: seq<real>, b: seq<real>)
    requires |a| == |b| && IsRoot(root, Dot(a, a)) && IsRoot(root, Dot(b, b))
    ensures var lengths := root(Dot(a, a)) * root(Dot(b, b));
      Cosine(root, a, b) * lengths == Dot(a, b) && (lengths == 0.0 ==> Cosine(root, a, b) == 0.0)
  {
    var ra, rb := root(Dot(a, a)), root(Dot(b, b));
    if ra * rb != 0.0 {
      QuotientTimes(Dot(a, b), ra * rb);
    } else if ra == 0.0 {
      ZeroRoot(ra, Dot(a, a));
      ZeroNorm(a, b);
    } else {
      OneIsZero(ra, rb, ra * rb);
      ZeroRoot(rb, Dot(b, b));
      ZeroNorm(b, a);
      DotIsSymmetric(a, b);
    }
  }

  lemma OneIsZero(x: real, y: real, product: real)
    requires product == x * y && product == 0.0 && x != 0.0
    ensures y == 0.0
  {
    if y != 0.0 {
      if (x > 0.0) == (y > 0.0) { SameSign(x, y, product); } else { SameSign(-x, y, -product); }
    }
  }

  lemma {:induction false} DotIsSymmetric(a: seq<real>, b: seq<real>)
    requires |a| == |b|
    ensures Dot(a, b) == Dot(b, a)
  {
    if a != [] { DotIsSymmetric(a[..|a| - 1], b[..|b| - 1]); }
  }

  /** The dot product multiplies components and adds up over any way of cutting the vectors in two; no
      other function does. */
  lemma {:induction false} DotIs(a: seq<real>, b: seq<real>, c: seq<real>, d: seq<real>, x: real, y: real)
    requires |a| == |b| && |c| == |d|
    ensures Dot(a + c, b + d) == Dot(a, b) + Dot(c, d)
    ensures Dot([x], [y]) == x * y
    decreases |c|
  {
    if c == [] {
      assert a + c == a && b + d == b;
    } else {
      var n := |c| - 1;
      assert (a + c)[..|a| + n] == a + c[..n] && (b + d)[..|a| + n] == b + d[..n];
      DotIs(a, b, c[..n], d[..n], x, y);
    }
    assert [x][..0] == [] && [y][..0] == [];
  }

  lemma SelfRatio(x: real)
    requires x != 0.0
    ensures x / x == 1.0
  {
  }

  // ---------- Stable descending sort ----------

  function Insert<T>(key: T -> real, x: T, s: seq<T>): seq<T> {
    if s == [] then [x]
    else if key(x) >= key(s[0]) then [x] + s
    else [s[0]] + Insert(key, x, s[1..])
  }

  function Sort<T>(key: T -> real, s: seq<T>): seq<T> {
    if s == [] then [] else Insert(key, s[0], Sort(key, s[1..]))
  }

  ghost predicate Descending<T>(key: T -> real, s: seq<T>) {
    forall i, j :: 0 <= i < j < |s| ==> key(s[i]) >= key(s[j])
  }

  /** The elements with one key, in order. */
  function WithKey<T>(key: T -> real, k: real, s: seq<T>): seq<T> {
    if s == [] then [] else (if key(s[0]) == k then [s[0]] else []) + WithKey(key, k, s[1..])
  }

  lemma {:induction false} InsertPermutes<T>(key: T -> real, x: T, s: seq<T>)
    ensures multiset(Insert(key, x, s)) == multiset([x]) + multiset(s)
  {
    if s != [] && key(x) < key(s[0]) {
      InsertPermutes(key, x, s[1..]);
      assert s == [s[0]] + s[1..];
    }
  }

  /** A largest element in front of a descending list. */
  lemma ConsDescends<T>(key: T -> real, x: T, s: seq<T>)
    requires Descending(key, s) && forall y :: y in s ==> key(x) >= key(y)
    ensures Descending(key, [x] + s)
  {
    forall i, j | 0 <= i < j < |s| + 1 ensures key(([x] + s)[i]) >= key(([x] + s)[j]) {
      assert ([x] + s)[j] == s[j - 1];
      if i > 0 { assert ([x] + s)[i] == s[i - 1]; } else { assert s[j - 1] in s; }
    }
  }

  lemma HeadIsLargest<T>(key: T -> real, s: seq<T>)
    requires Descending(key, s) && s != []
    ensures forall y :: y in s ==> key(s[0]) >= key(y)
  {
  }

  lemma {:induction false} InsertDescends<T>(key: T -> real, x: T, s: seq<T>)
    requires Descending(key, s)
    ensures Descending(key, Insert(key, x, s))
  {
    if s != [] {
      HeadIsLargest(key, s);
      if key(x) >= key(s[0]) {
        ConsDescends(key, x, s);
      } else {
        var rest := Insert(key, x, s[1..]);
        InsertDescends(key, x, s[1..]);
        InsertPermutes(key, x, s[1..]);
        InsertedMembers(key, x, s[1..]);
        ConsDescends(key, s[0], rest);
      }
    }
  }

  lemma InsertedMembers<T>(key: T -> real, x: T, s: seq<T>)
    ensures forall y :: y in Insert(key, x, s) ==> y == x || y in s
  {
    InsertPermutes(key, x, s);
    forall y | y in Insert(key, x, s) ensures y == x || y in s {
      assert y in multiset(Insert(key, x, s));
    }
  }

  lemma {:induction false} InsertKeeps<T>(key: T -> real, x: T, s: seq<T>, k: real)
    ensures WithKey(key, k, Insert(key, x, s)) == (if key(x) == k then [x] else []) + WithKey(key, k, s)
  {
    if s == [] || key(x) >= key(s[0]) {
      assert Insert(key, x, s) == [x] + s && ([x] + s)[1..] == s;
    } else {
      var rest, w := Insert(key, x, s[1..]), WithKey(key, k, s[1..]);
      InsertKeeps(key, x, s[1..], k);
      assert ([s[0]] + rest)[1..] == rest;
      assert [] + w == w && [] + ([x] + w) == [x] + w && [] + ([s[0]] + w) == [s[0]] + w;
    }
  }

  /** Sorting permutes, puts larger keys first, and keeps the order of equal keys. */
  lemma {:induction false} SortSorts<T>(key: T -> real, s: seq<T>)
    ensures multiset(Sort(key, s)) == multiset(s)
    ensures |Sort(key, s)| == |s|
    ensures Descending(key, Sort(key, s))
    ensures forall k :: WithKey(key, k, Sort(key, s)) == WithKey(key, k, s)
  {
    if s != [] {
      SortSorts(key, s[1..]);
      InsertPermutes(key, s[0], Sort(key, s[1..]));
      InsertDescends(key, s[0], Sort(key, s[1..]));
      assert s == [s[0]] + s[1..];
      forall k ensures WithKey(key, k, Sort(key, s)) == WithKey(key, k, s) {
        InsertKeeps(key, s[0], Sort(key, s[1..]), k);
      }
    }
  }

  ghost predicate DistinctKeys<T>(key: T -> real, s: seq<T>) {
    forall i, j :: 0 <= i < j < |s| ==> key(s[i]) != key(s[j])
  }

  lemma HeadsAgree<T>(key: T -> real, s: seq<T>, t: seq<T>)
    requires Descending(key, s) && Descending(key, t) && s != [] && t != []
    requires s[0] in t && t[0] in s && DistinctKeys(key, t)
    ensures s[0] == t[0]
  {
  }

  lemma TailsPermute<T>(s: seq<T>, t: seq<T>)
    requires s != [] && t != [] && s[0] == t[0] && multiset(s) == multiset(t)
    ensures multiset(s[1..]) == multiset(t[1..])
  {
    assert s == [s[0]] + s[1..] && t == [t[0]] + t[1..];
    assert multiset(s[1..]) == multiset(s) - multiset{s[0]};
    assert multiset(t[1..]) == multiset(t) - multiset{t[0]};
  }

  lemma SameElements<T>(s: seq<T>, t: seq<T>)
    requires multiset(s) == multiset(t)
    ensures |s| == |t|
    ensures s != [] ==> s[0] in t && t != [] && t[0] in s
  {
    assert |multiset(s)| == |s| && |multiset(t)| == |t|;
    if s != [] {
      assert s[0] in multiset(t) && t[0] in multiset(s);
    }
  }

  lemma TailsAreOrdered<T>(key: T -> real, s: seq<T>)
    requires s != []
    ensures Descending(key, s) ==> Descending(key, s[1..])
    ensures DistinctKeys(key, s) ==> DistinctKeys(key, s[1..])
  {
  }

  /** With distinct keys there is one way to be sorted. */
  lemma {:induction false} SortedIsUnique<T>(key: T -> real, s: seq<T>, t: seq<T>)
    requires Descending(key, s) && Descending(key, t) && multiset(s) == multiset(t) && DistinctKeys(key, t)
    ensures s == t
  {
    SameElements(s, t);
    if s != [] {
      HeadsAgree(key, s, t);
      TailsPermute(s, t);
      TailsAreOrdered(key, s);
      TailsAreOrdered(key, t);
      SortedIsUnique(key, s[1..], t[1..]);
      assert s == [s[0]] + s[1..] && t == [t[0]] + t[1..];
    }
  }

  // ---------- The index ----------

  datatype Doc = Doc(id: string, text: string)
  datatype Embedding = Embedding(index: nat, vector: seq<real>)
  datatype Hit = Hit(doc: Doc, score: real)

  function ByIndex(e: Embedding): real {
    -(e.index as real)
  }

  function ByScore(h: Hit): real {
    h.score
  }

  function VectorsOf(embeddings: seq<Embedding>): (v: seq<seq<real>>)
    ensures |v| == |embeddings| && forall i :: 0 <= i < |v| ==> v[i] == embeddings[i].vector
  {
    seq(|embeddings|, i requires 0 <= i < |embeddings| => embeddings[i].vector)
  }

  /** A response in index order, whatever order it came in. */
  function Ordered(response: seq<Embedding>): seq<seq<real>> {
    VectorsOf(Sort(ByIndex, response))
  }

  function Missing(docs: seq<Doc>, vectors: map<string, seq<real>>): seq<Doc> {
    if docs == [] then []
    else (if docs[0].id in vectors then [] else [docs[0]]) + Missing(docs[1..], vectors)
  }

  /** Pairs stop at the shorter list. */
  function Inserted(vectors: map<string, seq<real>>, docs: seq<Doc>, embedded: seq<seq<real>>): map<string, seq<real>>
    decreases |docs|
  {
    if docs == [] || embedded == [] then vectors
    else
      Inserted(vectors[docs[0].id := embedded[0]], docs[1..], embedded[1..])
  }

  function HitsOf(root: real -> real, docs: seq<Doc>, vectors: map<string, seq<real>>, query: seq<real>): seq<Hit> {
    if docs == [] then []
    else (if docs[0].id in vectors then [Hit(docs[0], Cosine(root, query, vectors[docs[0].id]))] else [])
         + HitsOf(root, docs[1..], vectors, query)
  }

  function Top(limit: nat, hits: seq<Hit>): seq<Hit> {
    Sort(ByScore, hits)[..Min(limit, |Sort(ByScore, hits)|)]
  }

  function Omitted(limit: nat, hits: seq<Hit>): seq<Hit> {
    Sort(ByScore, hits)[Min(limit, |Sort(ByScore, hits)|)..]
  }

  lemma InsertedNext(vectors: map<string, seq<real>>, docs: seq<Doc>, embedded: seq<seq<real>>, i: nat)
    requires i < |docs| && i < |embedded|
    ensures Inserted(vectors, docs[i..], embedded[i..]) ==
            Inserted(vectors[docs[i].id := embedded[i]], docs[i + 1..], embedded[i + 1..])
  {
    assert docs[i..][0] == docs[i] && docs[i..][1..] == docs[i + 1..];
    assert embedded[i..][0] == embedded[i] && embedded[i..][1..] == embedded[i + 1..];
  }

  /** The vectors after a reconcile: as they were when nothing is missing or the embedder fails. */
  function Warmed(docs: seq<Doc>, vectors: map<string, seq<real>>, response: Option<seq<Embedding>>)
    : map<string, seq<real>>
  {
    var missing := Missing(docs, vectors);
    if missing == [] || response.None? then vectors else Inserted(vectors, missing, Ordered(response.value))
  }

  /** A search ranks what the index holds once warmed; without a query vector there is no answer. */
  function Searched(
      root: real -> real, docs: seq<Doc>, warmed: map<string, seq<real>>, query: Option<seq<Embedding>>, limit: nat)
    : Option<seq<Hit>>
  {
    if query.None? || Ordered(query.value) == [] then None
    else Some(Top(limit, HitsOf(root, docs, warmed, Ordered(query.value)[0])))
  }

  class Index {
    const docs: seq<Doc>
    var vectors: map<string, seq<real>>

    constructor (docs: seq<Doc>)
      ensures this.docs == docs && vectors == map[]
    {
      this.docs := docs;
      vectors := map[];
    }

    /** `response` is what the embedder answers to the missing texts, absent when it fails. The
        count returned is that of the texts sent, whatever came back. */
    method Reconcile(response: Option<seq<Embedding>>) returns (count: Option<nat>)
      modifies this`vectors
      ensures vectors == Warmed(docs, old(vectors), response)
      ensures count ==
        if Missing(docs, old(vectors)) == [] then Some(0)
        else if response.None? then None
        else Some(|Missing(docs, old(vectors))|)
    {
      var toEmbed := Missing(docs, vectors);
      if toEmbed == [] {
        return Some(0);
      }
      if response.None? {
        return None;
      }
      var embedded := Ordered(response.value);
      var i := 0;
      while i < |toEmbed| && i < |embedded|
        invariant i <= |toEmbed| && i <= |embedded|
        invariant Inserted(vectors, toEmbed[i..], embedded[i..]) == Inserted(old(vectors), toEmbed, embedded)
      {
        InsertedNext(vectors, toEmbed, embedded, i);
        vectors := vectors[toEmbed[i].id := embedded[i]];
        i := i + 1;
      }
      return Some(|toEmbed|);
    }

    /** Warms the index first, and searches even if that fails. `query` is the embedder's answer to the
        query text, absent when it fails. */
    method Search(root: real -> real, response: Option<seq<Embedding>>, query: Option<seq<Embedding>>, limit: nat)
      returns (hits: Option<seq<Hit>>)
      modifies this`vectors
      ensures vectors == Warmed(docs, old(vectors), response)
      ensures hits.None? <==> query.None? || query.value == []
      ensures hits == Searched(root, docs, Warmed(docs, old(vectors), response), query, limit)
    {
      var _ := Reconcile(response);
      if query.None? {
        return None;
      }
      var answers := Ordered(query.value);
      SortSorts(ByIndex, query.value);
      if answers == [] {
        return None;
      }
      var found := HitsOf(root, docs, vectors, answers[0]);
      var sorted := Sort(ByScore, found);
      return Some(sorted[..Min(limit, |sorted|)]);
    }
  }

  // ---------- Reconciling ----------

  /** A complete response: one embedding per text, numbered in the order asked. */
  function Complete(embed: string -> seq<real>, docs: seq<Doc>): (r: seq<Embedding>)
    ensures |r| == |docs| && forall i :: 0 <= i < |r| ==> r[i] == Embedding(i, embed(docs[i].text))
  {
    seq(|docs|, i requires 0 <= i < |docs| => Embedding(i, embed(docs[i].text)))
  }

  /** Sorting by index undoes any reordering of the response. */
  lemma OrderIsRestored(embed: string -> seq<real>, docs: seq<Doc>, response: seq<Embedding>)
    requires multiset(response) == multiset(Complete(embed, docs))
    ensures |Ordered(response)| == |docs|
    ensures forall i :: 0 <= i < |docs| ==> Ordered(response)[i] == embed(docs[i].text)
  {
    var ideal := Complete(embed, docs);
    SortSorts(ByIndex, response);
    SortedIsUnique(ByIndex, Sort(ByIndex, response), ideal);
  }

  predicate DistinctIds(docs: seq<Doc>) {
    forall i, j :: 0 <= i < j < |docs| ==> docs[i].id != docs[j].id
  }

  lemma {:induction false} InsertedIs(
      vectors: map<string, seq<real>>, docs: seq<Doc>, embedded: seq<seq<real>>, id: string)
    requires DistinctIds(docs) && |embedded| == |docs|
    ensures var out := Inserted(vectors, docs, embedded);
      && (id in out <==> id in vectors || exists i :: 0 <= i < |docs| && docs[i].id == id)
      && (forall i :: 0 <= i < |docs| && docs[i].id == id ==> id in out && out[id] == embedded[i])
      && ((forall i :: 0 <= i < |docs| ==> docs[i].id != id) && id in vectors ==> out[id] == vectors[id])
    decreases |docs|
  {
    if docs != [] {
      var d, v := docs[0], embedded[0];
      InsertedIs(vectors[d.id := v], docs[1..], embedded[1..], id);
      assert forall i :: 1 <= i < |docs| ==> docs[i] == docs[1..][i - 1] && embedded[i] == embedded[1..][i - 1];
    }
  }

  lemma {:induction false} MissingIs(docs: seq<Doc>, vectors: map<string, seq<real>>)
    ensures forall d :: d in Missing(docs, vectors) <==> d in docs && d.id !in vectors
    ensures DistinctIds(docs) ==> DistinctIds(Missing(docs, vectors))
  {
    if docs != [] {
      MissingIs(docs[1..], vectors);
      assert docs == [docs[0]] + docs[1..];
      if DistinctIds(docs) {
        var rest := Missing(docs[1..], vectors);
        forall j | 0 <= j < |rest| ensures rest[j].id != docs[0].id {
          assert rest[j] in docs[1..];
        }
      }
    }
  }

  lemma {:induction false} NothingMissing(docs: seq<Doc>, vectors: map<string, seq<real>>)
    requires forall d :: d in docs ==> d.id in vectors
    ensures Missing(docs, vectors) == []
  {
    if docs != [] {
      NothingMissing(docs[1..], vectors);
    }
  }

  /** Reconciling against a complete response, in whatever order it comes, gives every document
      without a vector its own text's vector and touches no other; after that nothing is missing,
      so reconciling again embeds nothing. */
  lemma ReconcilePairsEachDocument(
      embed: string -> seq<real>, docs: seq<Doc>, vectors: map<string, seq<real>>, response: seq<Embedding>)
    requires DistinctIds(docs) && multiset(response) == multiset(Complete(embed, Missing(docs, vectors)))
    ensures var out := Inserted(vectors, Missing(docs, vectors), Ordered(response));
      && (forall d :: d in docs ==>
            d.id in out && out[d.id] == if d.id in vectors then vectors[d.id] else embed(d.text))
      && (forall id :: id in vectors ==> id in out && out[id] == vectors[id])
      && Missing(docs, out) == []
  {
    var missing := Missing(docs, vectors);
    var out := Inserted(vectors, missing, Ordered(response));
    OrderIsRestored(embed, missing, response);
    MissingIs(docs, vectors);
    forall id | id in vectors ensures id in out && out[id] == vectors[id] {
      InsertedIs(vectors, missing, Ordered(response), id);
      forall i | 0 <= i < |missing| ensures missing[i].id != id { assert missing[i] in missing; }
    }
    forall d | d in docs && d.id !in vectors ensures d.id in out && out[d.id] == embed(d.text) {
      InsertedIs(vectors, missing, Ordered(response), d.id);
      var i :| 0 <= i < |missing| && missing[i] == d;
    }
    NothingMissing(docs, out);
  }

  lemma {:induction false} InsertedCount(vectors: map<string, seq<real>>, docs: seq<Doc>, embedded: seq<seq<real>>)
    requires DistinctIds(docs) && forall d :: d in docs ==> d.id !in vectors
    ensures |Inserted(vectors, docs, embedded)| == |vectors| + Min(|docs|, |embedded|)
    decreases |docs|
  {
    if docs != [] && embedded != [] {
      var more := vectors[docs[0].id := embedded[0]];
      assert more.Keys == vectors.Keys + {docs[0].id};
      forall d | d in docs[1..] ensures d.id !in more {
        var i :| 1 <= i < |docs| && docs[i] == d;
        assert docs[0].id != docs[i].id;
      }
      InsertedCount(more, docs[1..], embedded[1..]);
    }
  }

  /** The count a reconcile returns, that of the texts it sent, is that of the documents it gave a
      vector exactly when the response is no shorter than the request. */
  lemma CountIsRightIff(docs: seq<Doc>, vectors: map<string, seq<real>>, response: seq<Embedding>)
    requires DistinctIds(docs)
    ensures var missing := Missing(docs, vectors);
      |Inserted(vectors, missing, Ordered(response))| == |vectors| + |missing| <==> |response| >= |missing|
  {
    var missing := Missing(docs, vectors);
    MissingIs(docs, vectors);
    SortSorts(ByIndex, response);
    InsertedCount(vectors, missing, Ordered(response));
  }

  // ---------- Ranking ----------

  lemma {:induction false} HitsAre(
      root: real -> real, docs: seq<Doc>, vectors: map<string, seq<real>>, query: seq<real>)
    ensures forall h :: h in HitsOf(root, docs, vectors, query) ==>
      h.doc in docs && h.doc.id in vectors && h.score == Cosine(root, query, vectors[h.doc.id])
    ensures forall d :: d in docs && d.id in vectors ==>
      Hit(d, Cosine(root, query, vectors[d.id])) in HitsOf(root, docs, vectors, query)
    ensures |HitsOf(root, docs, vectors, query)| + |Missing(docs, vectors)| == |docs|
  {
    if docs != [] {
      HitsAre(root, docs[1..], vectors, query);
      assert docs == [docs[0]] + docs[1..];
    }
  }

  /** The result is the best of the indexed documents: as many as the limit and the index allow,
      best first, equal scores in corpus order, and nothing left out scores above anything kept. */
  lemma TopIsBest(limit: nat, hits: seq<Hit>)
    ensures |Top(limit, hits)| == Min(limit, |hits|)
    ensures Descending(ByScore, Top(limit, hits))
    ensures multiset(Top(limit, hits)) + multiset(Omitted(limit, hits)) == multiset(hits)
    ensures forall h, o :: h in Top(limit, hits) && o in Omitted(limit, hits) ==> o.score <= h.score
    ensures forall k :: WithKey(ByScore, k, Top(limit, hits) + Omitted(limit, hits)) == WithKey(ByScore, k, hits)
  {
    SortSorts(ByScore, hits);
    var sorted := Sort(ByScore, hits);
    var n := Min(limit, |sorted|);
    assert sorted == sorted[..n] + sorted[n..];
    forall h, o | h in sorted[..n] && o in sorted[n..] ensures o.score <= h.score {
      var i :| 0 <= i < n && sorted[i] == h;
      var j :| n <= j < |sorted| && sorted[j] == o;
      assert ByScore(sorted[i]) >= ByScore(sorted[j]);
    }
  }

  /** Every vector the index holds is its own document's. */
  predicate Faithful(embed: string -> seq<real>, docs: seq<Doc>, vectors: map<string, seq<real>>) {
    forall d :: d in docs && d.id in vectors ==> vectors[d.id] == embed(d.text)
  }

  /** End to end, on an index that is empty or partly filled: if the embedder answers in full, in any
      order, a search ranks all documents, each by the cosine of the query's vector and its own text's. */
  lemma SearchRanksEveryDocument(
      root: real -> real, embed: string -> seq<real>, docs: seq<Doc>, vectors: map<string, seq<real>>,
      response: seq<Embedding>, text: string, answer: seq<Embedding>, limit: nat)
    requires DistinctIds(docs) && Faithful(embed, docs, vectors)
    requires multiset(response) == multiset(Complete(embed, Missing(docs, vectors)))
    requires answer == [Embedding(0, embed(text))]
    ensures var result := Searched(root, docs, Warmed(docs, vectors, Some(response)), Some(answer), limit);
      && result.Some? && |result.value| == Min(limit, |docs|) && Descending(ByScore, result.value)
      && (forall h :: h in result.value ==>
            h.doc in docs && h.score == Cosine(root, embed(text), embed(h.doc.text)))
      && (forall d :: d in docs && limit >= |docs| ==>
            Hit(d, Cosine(root, embed(text), embed(d.text))) in result.value)
  {
    ReconcilePairsEachDocument(embed, docs, vectors, response);
    AnswerAlone(embed(text));
    RanksAll(root, embed, docs, Warmed(docs, vectors, Some(response)), embed(text), limit);
  }

  lemma RanksAll(
      root: real -> real, embed: string -> seq<real>, docs: seq<Doc>, warmed: map<string, seq<real>>, query: seq<real>,
      limit: nat)
    requires Faithful(embed, docs, warmed) && Missing(docs, warmed) == []
    ensures var top := Top(limit, HitsOf(root, docs, warmed, query));
      && |top| == Min(limit, |docs|) && Descending(ByScore, top)
      && (forall h :: h in top ==> h.doc in docs && h.score == Cosine(root, query, embed(h.doc.text)))
      && (forall d :: d in docs && limit >= |docs| ==> Hit(d, Cosine(root, query, embed(d.text))) in top)
  {
    var found := HitsOf(root, docs, warmed, query);
    MissingIs(docs, warmed);
    HitsAre(root, docs, warmed, query);
    TopIsBest(limit, found);
    TopIsFrom(limit, found);
  }

  lemma AnswerAlone(v: seq<real>)
    ensures Ordered([Embedding(0, v)]) == [v]
  {
    var answer := [Embedding(0, v)];
    assert Sort(ByIndex, answer[1..]) == [];
    assert Sort(ByIndex, answer) == answer;
  }

  lemma TopIsFrom(limit: nat, hits: seq<Hit>)
    ensures forall h :: h in Top(limit, hits) ==> h in hits
    ensures limit >= |hits| ==> forall h :: h in hits ==> h in Top(limit, hits)
  {
    SortSorts(ByScore, hits);
    forall h | h in Sort(ByScore, hits) ensures h in hits { assert h in multiset(Sort(ByScore, hits)); }
    forall h | h in hits ensures h in Sort(ByScore, hits) { assert h in multiset(hits); }
  }

  ghost predicate InOrder(docs: seq<Doc>, a: Doc, b: Doc) {
    exists k, l :: 0 <= k < l < |docs| && docs[k] == a && docs[l] == b
  }

  lemma InOrderInTail(docs: seq<Doc>, a: Doc, b: Doc)
    requires docs != [] && (InOrder(docs[1..], a, b) || (a == docs[0] && b in docs[1..]))
    ensures InOrder(docs, a, b)
  {
    if InOrder(docs[1..], a, b) {
      var k, l :| 0 <= k < l < |docs[1..]| && docs[1..][k] == a && docs[1..][l] == b;
      assert docs[k + 1] == a && docs[l + 1] == b;
    } else {
      var l :| 0 <= l < |docs[1..]| && docs[1..][l] == b;
      assert docs[0] == a && docs[l + 1] == b;
    }
  }

  /** Hits come in corpus order, which is what a tie keeps. */
  lemma {:induction false} HitsKeepOrder(
      root: real -> real, docs: seq<Doc>, vectors: map<string, seq<real>>, query: seq<real>, i: nat, j: nat)
    requires i < j < |HitsOf(root, docs, vectors, query)|
    ensures var hits := HitsOf(root, docs, vectors, query); InOrder(docs, hits[i].doc, hits[j].doc)
  {
    var n := if docs[0].id in vectors then 1 else 0;
    var hits, later := HitsOf(root, docs, vectors, query), HitsOf(root, docs[1..], vectors, query);
    assert hits[n..] == later;
    if i < n {
      HitsAre(root, docs[1..], vectors, query);
      assert later[j - 1] in later;
    } else {
      HitsKeepOrder(root, docs[1..], vectors, query, i - n, j - n);
    }
    InOrderInTail(docs, hits[i].doc, hits[j].doc);
  }
}
