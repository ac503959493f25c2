/** Ranking runbook entries by lexical similarity, TF-IDF and cosine (similarity.go), and the
    store's lookup that falls back on it (runbooks.go). */
module Similarity {
  import opened Wrappers
  import opened Runbooks
  import opened SparseVectors
  import Text

  type Tokens = seq<string>

  /** What is taken from Go's libraries: the cut into lower-case words, the stopword table,
      and the two functions of package math. */
  datatype Library = Library(words: string -> Tokens, stopwords: set<string>, log: real -> real, sqrt: real -> real)

  ghost predicate Lawful(lib: Library) {
    && IsSqrt(lib.sqrt)
    && forall x: real :: x > 1.0 ==> lib.log(x) > 0.0
  }

  function Kept(lib: Library, raw: Tokens): Tokens {
    if raw == [] then []
    else
      var last := raw[|raw| - 1];
      Kept(lib, raw[..|raw| - 1]) + (if last in lib.stopwords then [] else [last])
  }

  function TokensOf(lib: Library, s: string): Tokens {
    Kept(lib, lib.words(s))
  }

  lemma {:induction false} KeptAre(lib: Library, raw: Tokens)
    ensures forall t :: t in Kept(lib, raw) <==> t in raw && t !in lib.stopwords
    ensures forall t :: multiset(Kept(lib, raw))[t] == if t in lib.stopwords then 0 else multiset(raw)[t]
  {
    if raw != [] {
      KeptAre(lib, raw[..|raw| - 1]);
      assert raw == raw[..|raw| - 1] + [raw[|raw| - 1]];
    }
  }

  /** Each word is kept or dropped by itself, so the order stays. */
  lemma {:induction false} KeptSplits(lib: Library, xs: Tokens, ys: Tokens)
    ensures Kept(lib, xs + ys) == Kept(lib, xs) + Kept(lib, ys)
  {
    if ys == [] {
      assert xs + ys == xs;
      assert Kept(lib, xs) + [] == Kept(lib, xs);
    } else {
      var n := |ys| - 1;
      KeptSplits(lib, xs, ys[..n]);
      var last := if ys[n] in lib.stopwords then [] else [ys[n]];
      assert (xs + ys)[..|xs + ys| - 1] == xs + ys[..n] && (xs + ys)[|xs + ys| - 1] == ys[n];
      assert Kept(lib, xs + ys) == Kept(lib, xs + ys[..n]) + last;
      assert Kept(lib, ys) == Kept(lib, ys[..n]) + last;
      hide Kept;
      assert Kept(lib, xs) + Kept(lib, ys[..n]) + last == Kept(lib, xs) + (Kept(lib, ys[..n]) + last);
    }
  }

  method Tokenize(lib: Library, s: string) returns (tokens: Tokens)
    ensures tokens == TokensOf(lib, s)
  {
    var raw := lib.words(s);
    tokens := [];
    for i := 0 to |raw|
      invariant tokens == Kept(lib, raw[..i])
    {
      assert raw[..i + 1][..i] == raw[..i];
      if raw[i] !in lib.stopwords {
        tokens := tokens + [raw[i]];
      }
    }
    assert raw[..|raw|] == raw;
  }

  // ------------------------------------------------------------ document frequency

  /** How many of the documents hold a term, however often each of them does. */
  function DocsWith(docs: seq<Tokens>, t: string): nat {
    if docs == [] then 0 else DocsWith(docs[..|docs| - 1], t) + if t in docs[|docs| - 1] then 1 else 0
  }

  lemma {:induction false} DocsWithCounts(docs: seq<Tokens>, t: string)
    ensures DocsWith(docs, t) == |set i | 0 <= i < |docs| && t in docs[i]|
  {
    var holding := set i | 0 <= i < |docs| && t in docs[i];
    if docs == [] {
      assert holding == {};
    } else {
      var n := |docs| - 1;
      var front := docs[..n];
      DocsWithCounts(front, t);
      var before := set i | 0 <= i < |front| && t in front[i];
      assert holding == before + if t in docs[n] then {n} else {};
    }
  }

  lemma {:induction false} DocsWithSome(docs: seq<Tokens>, t: string)
    ensures DocsWith(docs, t) <= |docs|
    ensures DocsWith(docs, t) > 0 <==> exists i :: 0 <= i < |docs| && t in docs[i]
  {
    if docs != [] {
      var n := |docs| - 1;
      DocsWithSome(docs[..n], t);
      if i :| 0 <= i < n && t in docs[..n][i] {
        assert t in docs[i];
      }
      if i :| 0 <= i < |docs| && t in docs[i] && i < n {
        assert t in docs[..n][i];
      }
    }
  }

  function Weight(lib: Library, docs: seq<Tokens>, count: nat): real
    requires count > 0
  {
    lib.log(1.0 + |docs| as real / count as real) + 1.0
  }

  ghost predicate IsIDF(lib: Library, docs: seq<Tokens>, idf: Vector) {
    && (forall t :: t in idf <==> DocsWith(docs, t) > 0)
    && (forall t | t in idf :: idf[t] == Weight(lib, docs, DocsWith(docs, t)))
  }

  ghost predicate Counted(docs: seq<Tokens>, df: map<string, nat>) {
    && (forall t :: t in df <==> DocsWith(docs, t) > 0)
    && (forall t | t in df :: df[t] == DocsWith(docs, t))
  }

  /** One document more: every term it holds is counted once. */
  method CountDocument(ghost docs: seq<Tokens>, doc: Tokens, df: map<string, nat>) returns (more: map<string, nat>)
    requires Counted(docs, df)
    ensures Counted(docs + [doc], more)
  {
    more := df;
    var seen: set<string> := {};
    assert (docs + [doc])[..|docs|] == docs;
    for i := 0 to |doc|
      invariant seen == set t | t in doc[..i]
      invariant forall t :: t in more <==> DocsWith(docs, t) > 0 || t in seen
      invariant forall t | t in more :: more[t] == DocsWith(docs, t) + if t in seen then 1 else 0
    {
      var tok := doc[i];
      assert doc[..i + 1] == doc[..i] + [tok];
      if tok !in seen {
        more := more[tok := (if tok in more then more[tok] else 0) + 1];
        seen := seen + {tok};
      }
    }
    assert doc[..|doc|] == doc;
  }

  method BuildIDF(lib: Library, docs: seq<Tokens>) returns (idf: Vector)
    ensures IsIDF(lib, docs, idf)
  {
    var df: map<string, nat> := map[];
    assert docs[..0] == [];
    for i := 0 to |docs|
      invariant Counted(docs[..i], df)
    {
      assert docs[..i + 1] == docs[..i] + [docs[i]];
      df := CountDocument(docs[..i], docs[i], df);
    }
    assert docs[..|docs|] == docs;
    idf := map[];
    var todo := df.Keys;
    while todo != {}
      invariant todo <= df.Keys && idf.Keys == df.Keys - todo
      invariant forall t | t in idf :: idf[t] == Weight(lib, docs, df[t])
      decreases |todo|
    {
      var term :| term in todo;
      todo := todo - {term};
      idf := idf[term := lib.log(1.0 + |docs| as real / df[term] as real) + 1.0];
    }
  }

  /** What BuildIDF computes: a weight for exactly the terms of the corpus, from how many of its
      documents hold each. */
  lemma IDFMeans(lib: Library, docs: seq<Tokens>, idf: Vector)
    requires IsIDF(lib, docs, idf)
    ensures forall t :: t in idf <==> exists i :: 0 <= i < |docs| && t in docs[i]
    ensures forall t | t in idf ::
              var holding := set i | 0 <= i < |docs| && t in docs[i];
              |holding| > 0 && idf[t] == lib.log(1.0 + |docs| as real / |holding| as real) + 1.0
  {
    hide DocsWith;
    forall t
      ensures t in idf <==> exists i :: 0 <= i < |docs| && t in docs[i]
      ensures DocsWith(docs, t) == |set i | 0 <= i < |docs| && t in docs[i]|
    {
      DocsWithSome(docs, t);
      DocsWithCounts(docs, t);
    }
  }

  lemma WeightIsPositive(lib: Library, docs: seq<Tokens>, count: nat)
    requires Lawful(lib) && 0 < count && docs != []
    ensures Weight(lib, docs, count) > 1.0
  {
    var q := |docs| as real / count as real;
    assert q > 0.0 by {
      QuotientOrder(|docs| as real, count as real);
    }
  }

  /** The rarer of two terms weighs more, if the logarithm grows. */
  lemma RarerTermsWeighMore(lib: Library, docs: seq<Tokens>, rare: nat, common: nat)
    requires forall x: real, y: real :: 0.0 < x < y ==> lib.log(x) < lib.log(y)
    requires 0 < rare < common && docs != []
    ensures Weight(lib, docs, rare) > Weight(lib, docs, common)
  {
    var n, r, c := |docs| as real, rare as real, common as real;
    QuotientOrder(n, c);
    assert (n / r) * r == n && (n / c) * c == n;
    MulSign(n / c, c - r);
    assert (n / r - n / c) * r == Mul(n / c, c - r);
    assert n / r > n / c;
  }

  // ------------------------------------------------------------ TF-IDF vectors

  function Occurrences(tokens: Tokens, t: string): nat {
    multiset(tokens)[t]
  }

  /** A term unseen in the corpus weighs nothing. */
  function VectorOf(tokens: Tokens, idf: Vector): Vector {
    map t | t in tokens :: Mul(Occurrences(tokens, t) as real, At(idf, t))
  }

  ghost predicate TermCounts(tokens: Tokens, tf: map<string, nat>) {
    && (forall t :: t in tf <==> t in tokens)
    && (forall t | t in tf :: tf[t] == Occurrences(tokens, t))
  }

  lemma CountOneMore(tokens: Tokens, tok: string, tf: map<string, nat>)
    requires TermCounts(tokens, tf)
    ensures TermCounts(tokens + [tok], tf[tok := (if tok in tf then tf[tok] else 0) + 1])
  {
    assert tok !in tokens ==> Occurrences(tokens, tok) == 0;
  }

  method TfIdfVector(tokens: Tokens, idf: Vector) returns (vec: Vector)
    ensures vec == VectorOf(tokens, idf)
    ensures forall t :: t in vec <==> t in tokens
    ensures forall t | t in vec :: vec[t] == multiset(tokens)[t] as real * (if t in idf then idf[t] else 0.0)
  {
    hide Mul, Occurrences;
    var tf: map<string, nat> := map[];
    assert tokens[..0] == [];
    for i := 0 to |tokens|
      invariant TermCounts(tokens[..i], tf)
    {
      assert tokens[..i + 1] == tokens[..i] + [tokens[i]];
      CountOneMore(tokens[..i], tokens[i], tf);
      var tok := tokens[i];
      tf := tf[tok := (if tok in tf then tf[tok] else 0) + 1];
    }
    assert tokens[..|tokens|] == tokens;
    vec := map[];
    var todo := tf.Keys;
    while todo != {}
      invariant todo <= tf.Keys && vec.Keys == tf.Keys - todo
      invariant forall t | t in vec :: vec[t] == Mul(Occurrences(tokens, t) as real, At(idf, t))
      decreases |todo|
    {
      var term :| term in todo;
      todo := todo - {term};
      vec := vec[term := Mul(tf[term] as real, At(idf, term))];
    }
    forall t | t in vec
      ensures vec[t] == multiset(tokens)[t] as real * (if t in idf then idf[t] else 0.0)
    {
      WeightOfTerm(tokens, idf, t);
    }
  }

  lemma WeightOfTerm(tokens: Tokens, idf: Vector, t: string)
    ensures Mul(Occurrences(tokens, t) as real, At(idf, t))
         == multiset(tokens)[t] as real * (if t in idf then idf[t] else 0.0)
  {
  }

  lemma VectorIsNonNegative(lib: Library, docs: seq<Tokens>, idf: Vector, tokens: Tokens)
    requires Lawful(lib) && docs != [] && IsIDF(lib, docs, idf)
    ensures NonNegative(VectorOf(tokens, idf))
    ensures forall t :: At(VectorOf(tokens, idf), t) > 0.0 <==> t in tokens && t in idf
  {
    hide Mul, Lawful;
    forall t | t in tokens
      ensures Mul(Occurrences(tokens, t) as real, At(idf, t)) >= 0.0
      ensures Mul(Occurrences(tokens, t) as real, At(idf, t)) > 0.0 <==> t in idf
    {
      if t in idf {
        WeightIsPositive(lib, docs, DocsWith(docs, t));
      }
      MulSign(Occurrences(tokens, t) as real, At(idf, t));
    }
  }

  /** Term frequency is additive: every occurrence of a token adds its weight once. */
  lemma VectorsAdd(xs: Tokens, ys: Tokens, idf: Vector, t: string)
    ensures At(VectorOf(xs + ys, idf), t) == At(VectorOf(xs, idf), t) + At(VectorOf(ys, idf), t)
  {
    var a, b, w := Occurrences(xs, t), Occurrences(ys, t), At(idf, t);
    assert multiset(xs + ys)[t] == a + b;
    MulSign(0.0, w);
    assert Mul((a + b) as real, w) == Mul(a as real, w) + Mul(b as real, w);
  }

  // ------------------------------------------------------------ ranking

  function TextOf(e: Entry): string {
    e.title + " " + Text.Join(e.keywords, " ") + " " + e.body
  }

  function DocsOf(lib: Library, entries: seq<Entry>): seq<Tokens> {
    seq(|entries|, i requires 0 <= i < |entries| => TokensOf(lib, TextOf(entries[i])))
  }

  /** The entry and the query have a word in common that is not a stopword. */
  ghost predicate SharesWord(lib: Library, e: Entry, query: string) {
    exists t :: t in lib.words(e.title + " " + Text.Join(e.keywords, " ") + " " + e.body)
                && t in lib.words(query) && t !in lib.stopwords
  }

  ghost function TheIDF(lib: Library, docs: seq<Tokens>): (idf: Vector)
    ensures IsIDF(lib, docs, idf)
  {
    var terms := set i, t | 0 <= i < |docs| && t in docs[i] :: t;
    assert forall t :: t in terms <==> DocsWith(docs, t) > 0 by {
      forall t
        ensures t in terms <==> DocsWith(docs, t) > 0
      {
        DocsWithSome(docs, t);
      }
    }
    map t | t in terms :: Weight(lib, docs, DocsWith(docs, t))
  }

  lemma OneIDF(lib: Library, docs: seq<Tokens>, x: Vector, y: Vector)
    requires IsIDF(lib, docs, x) && IsIDF(lib, docs, y)
    ensures x == y
  {
    assert forall t :: t in x <==> t in y;
  }

  /** The cosine of the query and entry number i, both weighed over all the entries. */
  ghost function SimilarityTo(lib: Library, entries: seq<Entry>, query: string, i: nat): real
    requires Lawful(lib) && i < |entries|
  {
    var docs := DocsOf(lib, entries);
    var idf := TheIDF(lib, docs);
    Cosine(lib.sqrt, VectorOf(TokensOf(lib, query), idf), VectorOf(docs[i], idf))
  }

  /** Similarity is a number between 0 and 1, and is not 0 exactly when there is a shared word. */
  lemma SimilarIffSharesWord(lib: Library, entries: seq<Entry>, query: string, i: nat)
    requires Lawful(lib) && i < |entries|
    ensures 0.0 <= SimilarityTo(lib, entries, query, i) <= 1.0
    ensures SimilarityTo(lib, entries, query, i) > 0.0 <==> SharesWord(lib, entries[i], query)
  {
    var docs := DocsOf(lib, entries);
    var idf := TheIDF(lib, docs);
    var q, d := TokensOf(lib, query), docs[i];
    KeptAre(lib, lib.words(query));
    KeptAre(lib, lib.words(TextOf(entries[i])));
    var a, b := VectorOf(q, idf), VectorOf(d, idf);
    hide Mul, Cosine, VectorOf, TheIDF, Kept;
    VectorIsNonNegative(lib, docs, idf, q);
    VectorIsNonNegative(lib, docs, idf, d);
    CosineIsPositiveIff(lib.sqrt, a, b);
    if t :| Shared(t, a, b) {
      assert t in q && t in d;
    }
    if t :| t in lib.words(TextOf(entries[i])) && t in lib.words(query) && t !in lib.stopwords {
      assert t in q && t in d;
      DocsWithSome(docs, t);
      assert Shared(t, a, b);
    }
  }

  /** Number i is the earliest of the most similar entries. */
  ghost predicate FirstBest(lib: Library, entries: seq<Entry>, query: string, i: nat)
    requires Lawful(lib)
  {
    && i < |entries|
    && (forall j: nat | j < i :: SimilarityTo(lib, entries, query, j) < SimilarityTo(lib, entries, query, i))
    && (forall j: nat | i <= j < |entries| ::
          SimilarityTo(lib, entries, query, j) <= SimilarityTo(lib, entries, query, i))
  }

  const NO_ENTRY := Titled("")

  method Score(lib: Library, entries: seq<Entry>, query: string) returns (best: Entry, bestScore: real, ok: bool)
    requires Lawful(lib)
    ensures ok <==> exists i :: 0 <= i < |entries| && SharesWord(lib, entries[i], query)
    ensures ok ==> exists i: nat :: FirstBest(lib, entries, query, i) && best == entries[i]
                                    && bestScore == SimilarityTo(lib, entries, query, i) > 0.0
    ensures !ok ==> best == NO_ENTRY && bestScore == 0.0
  {
    hide IsIDF, VectorOf, Cosine, SharesWord, SimilarityTo, Lawful, Kept;
    best, bestScore, ok := NO_ENTRY, 0.0, false;
    var queryTokens := Tokenize(lib, query);
    if |queryTokens| == 0 || |entries| == 0 {
      forall i: nat | i < |entries|
        ensures !SharesWord(lib, entries[i], query)
      {
        NothingShared(lib, entries[i], query);
      }
      return;
    }
    var docs: seq<Tokens> := [];
    for i := 0 to |entries|
      invariant docs == DocsOf(lib, entries)[..i]
    {
      var doc := Tokenize(lib, TextOf(entries[i]));
      docs := docs + [doc];
    }
    assert docs == DocsOf(lib, entries);
    var idf := BuildIDF(lib, docs);
    var queryVec := TfIdfVector(queryTokens, idf);
    LawfulSqrt(lib);

    ghost var at: nat := 0;
    for i := 0 to |entries|
      invariant !ok ==> best == NO_ENTRY && bestScore == 0.0
      invariant !ok ==> forall j: nat | j < i :: SimilarityTo(lib, entries, query, j) <= 0.0
      invariant ok ==> at < i && best == entries[at] && bestScore == SimilarityTo(lib, entries, query, at) > 0.0
      invariant ok ==> forall j: nat | j < at :: SimilarityTo(lib, entries, query, j) < bestScore
      invariant ok ==> forall j: nat | at <= j < i :: SimilarityTo(lib, entries, query, j) <= bestScore
    {
      var docVec := TfIdfVector(docs[i], idf);
      var s := ComputeCosine(lib.sqrt, queryVec, docVec);
      SimilarityIs(lib, entries, query, i, idf);
      if s > bestScore {
        bestScore, best, ok := s, entries[i], true;
        at := i;
      }
    }
    forall i: nat | i < |entries|
      ensures SimilarityTo(lib, entries, query, i) > 0.0 <==> SharesWord(lib, entries[i], query)
    {
      SimilarIffSharesWord(lib, entries, query, i);
    }
    assert ok ==> FirstBest(lib, entries, query, at);
    assert ok ==> SharesWord(lib, entries[at], query);
  }

  lemma LawfulSqrt(lib: Library)
    requires Lawful(lib)
    ensures IsSqrt(lib.sqrt)
  {
  }

  lemma NothingShared(lib: Library, e: Entry, query: string)
    requires TokensOf(lib, query) == []
    ensures !SharesWord(lib, e, query)
  {
    KeptAre(lib, lib.words(query));
  }

  lemma SimilarityIs(lib: Library, entries: seq<Entry>, query: string, i: nat, idf: Vector)
    requires Lawful(lib) && i < |entries| && IsIDF(lib, DocsOf(lib, entries), idf)
    ensures SimilarityTo(lib, entries, query, i)
         == Cosine(lib.sqrt, VectorOf(TokensOf(lib, query), idf), VectorOf(DocsOf(lib, entries)[i], idf))
  {
    hide VectorOf, Cosine, IsIDF, TheIDF;
    OneIDF(lib, DocsOf(lib, entries), idf, TheIDF(lib, DocsOf(lib, entries)));
  }

  // ------------------------------------------------------------ the store

  const MIN_MATCH_SCORE := 0.1

  ghost predicate FirstOfKind(entries: seq<Entry>, kind: string, i: nat) {
    i < |entries| && entries[i].kind == kind && forall j: nat | j < i :: entries[j].kind != kind
  }

  /** A lookup by kind that can succeed. */
  ghost predicate HasKind(entries: seq<Entry>, kind: string) {
    kind != "" && exists i: nat :: FirstOfKind(entries, kind, i)
  }

  class Store {
    var entries: seq<Entry>

    constructor (data: string)
      ensures entries == Parsed(data)
    {
      new;
      entries := Parse(data);
    }

    /** NewStore: a file that cannot be read at startup gives no store at all. */
    static method Open(data: Option<string>) returns (s: Store?, ok: bool)
      ensures ok <==> data.Some?
      ensures ok <==> s != null
      ensures ok ==> fresh(s) && s.entries == Parsed(data.value)
    {
      s, ok := null, data.Some?;
      if ok {
        s := new Store(data.value);
      }
    }

    /** A file that cannot be read leaves the entries as they were. */
    method Reload(data: Option<string>) returns (ok: bool)
      modifies this
      ensures ok == data.Some?
      ensures entries == if ok then Parsed(data.value) else old(entries)
    {
      ok := data.Some?;
      if ok {
        entries := Parse(data.value);
      }
    }

    /** Find: the first entry of that very kind if there is one; otherwise the first of the
        entries most similar to the query, if any is similar enough. */
    method Find(lib: Library, kind: string, query: string) returns (e: Entry, ok: bool)
      requires Lawful(lib)
      ensures HasKind(entries, kind) ==>
                ok && exists i: nat :: FirstOfKind(entries, kind, i) && e == entries[i]
      ensures !HasKind(entries, kind) && Text.TrimSpace(query) == "" ==> !ok
      ensures !HasKind(entries, kind) && Text.TrimSpace(query) != "" ==>
                (ok <==> exists i: nat :: i < |entries| && SimilarityTo(lib, entries, query, i) >= 0.1)
      ensures !HasKind(entries, kind) && ok ==>
                exists i: nat :: FirstBest(lib, entries, query, i) && e == entries[i]
                                 && SimilarityTo(lib, entries, query, i) >= 0.1
      ensures !ok ==> e == NO_ENTRY
    {
      hide SimilarityTo, Lawful, SharesWord;
      if kind != "" {
        for i := 0 to |entries|
          invariant forall j: nat | j < i :: entries[j].kind != kind
        {
          if entries[i].kind == kind {
            assert FirstOfKind(entries, kind, i);
            return entries[i], true;
          }
        }
      }
      if Text.TrimSpace(query) == "" {
        return NO_ENTRY, false;
      }
      var best, bestScore, found := Score(lib, entries, query);
      forall i: nat | i < |entries|
        ensures SimilarityTo(lib, entries, query, i) > 0.0 <==> SharesWord(lib, entries[i], query)
      {
        SimilarIffSharesWord(lib, entries, query, i);
      }
      if !found || bestScore < MIN_MATCH_SCORE {
        return NO_ENTRY, false;
      }
      return best, true;
    }
  }

  /** Sections added at the end of a document never change what a lookup by kind returned. */
  lemma AppendingKeepsKindLookups(d: string, rest: string, kind: string, i: nat)
    requires FirstOfKind(Parsed(d), kind, i)
    ensures var longer := Parsed(d + LINE + HEADING + rest);
            FirstOfKind(longer, kind, i) && longer[i] == Parsed(d)[i]
  {
    SectionsAreIndependent(d, rest);
    hide Parsed;
  }
}
