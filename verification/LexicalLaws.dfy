/** What the score of fuzzy recall means: rarer words count more, heavier fields count more, a document that holds more
  * of the query scores more, and one that holds all of it in the heaviest fields covers it whole. */
module LexicalLaws {
  import opened Lexical

  /** The logarithm grows, and is 0 at 1. */
  ghost predicate Grows(ln: real -> real) {
    ln(1.0) == 0.0 && forall x, y | 0.0 < x < y :: ln(x) < ln(y)
  }

  /** A word that fewer documents hold counts more; one that all of them hold counts 1. */
  lemma RarerCountsMore(ln: real -> real, count: nat, rare: nat, common: nat)
    requires Grows(ln) && rare < common <= count
    ensures Rarity(ln, count, rare) > Rarity(ln, count, common)
    ensures Rarity(ln, count, count) == 1.0
  {
    var n, r, c := count as real + 1.0, rare as real + 1.0, common as real + 1.0;
    assert 0.0 < n / c < n / r by { Divides(n, r, c); }
    assert n / n == 1.0;
  }

  lemma Divides(n: real, r: real, c: real)
    requires 0.0 < r < c && 0.0 < n
    ensures 0.0 < n / c < n / r
  {
    assert n / r - n / c == n * (c - r) / (r * c);
    assert n * (c - r) > 0.0 && r * c > 0.0;
  }

  /** How many documents hold a word is how many of them mention it. */
  lemma CountsMentions(documents: seq<Document>, d: Document, token: string)
    ensures DocumentsWith([], token) == 0
    ensures DocumentsWith(documents + [d], token) ==
            DocumentsWith(documents, token) + if Mentions(d, token) then 1 else 0
  {
    assert (documents + [d])[..|documents|] == documents;
  }

  /** A word weighs in a document what the heaviest field that holds it does. */
  lemma {:induction false} FieldWeightIsHeaviest(fields: seq<WeightedField>, token: string)
    requires forall f | f in fields :: f.weight > 0.0
    ensures forall f | f in fields && token in f.tokens :: f.weight <= FieldWeight(fields, token)
    ensures if exists f :: f in fields && token in f.tokens
            then exists f :: f in fields && token in f.tokens && f.weight == FieldWeight(fields, token)
            else FieldWeight(fields, token) == 0.0
    decreases |fields|
  {
    if fields != [] {
      assert fields[0] in fields && fields == [fields[0]] + fields[1..];
      FieldWeightIsHeaviest(fields[1..], token);
      var rest := FieldWeight(fields[1..], token);
      if token in fields[0].tokens && fields[0].weight > rest {
        assert FieldWeight(fields, token) == fields[0].weight;
      } else if f :| f in fields[1..] && token in f.tokens && f.weight == rest {
        assert f in fields;
      }
    }
  }

  lemma {:induction false} MaxWeightIsHeaviest(fields: seq<WeightedField>)
    requires forall f | f in fields :: f.weight > 0.0
    ensures forall f | f in fields :: f.weight <= MaxWeight(fields)
    ensures fields != [] ==> exists f :: f in fields && f.weight == MaxWeight(fields)
    decreases |fields|
  {
    if fields != [] {
      assert fields[0] in fields && fields == [fields[0]] + fields[1..];
      MaxWeightIsHeaviest(fields[1..]);
      if fields[0].weight <= MaxWeight(fields[1..]) {
        assert fields[1..] != [] ==> exists f :: f in fields[1..] && f.weight == MaxWeight(fields[1..]);
        if f :| f in fields[1..] && f.weight == MaxWeight(fields[1..]) { assert f in fields; }
      }
    }
  }

  // ---- what a document covers ----

  /** A document that holds no word of the query matches nothing of it. */
  lemma {:induction false} NoWordNoMatch(ln: real -> real, query: seq<string>, documents: seq<Document>, d: Document)
    requires forall t | t in query :: FieldWeight(d.fields, t) == 0.0
    ensures MatchWeight(ln, query, documents, d) == 0.0
    decreases |query|
  {
    if query != [] {
      hide WordWeight, FieldWeight;
      var rest, last := query[..|query| - 1], query[|query| - 1];
      assert last in query && forall t | t in rest :: t in query;
      NoWordNoMatch(ln, rest, documents, d);
    }
  }

  /** One that holds every word of it in a field of the top weight covers all of it. */
  lemma {:induction false} EveryWordIsFullMatch(ln: real -> real, query: seq<string>, documents: seq<Document>,
                                                d: Document,
                                                top: real)
    requires forall t | t in query :: FieldWeight(d.fields, t) == top
    ensures MatchWeight(ln, query, documents, d) == QueryWeight(ln, query, documents) * top
    decreases |query|
  {
    if query != [] {
      hide WordWeight, FieldWeight;
      var rest, last := query[..|query| - 1], query[|query| - 1];
      assert last in query && forall t | t in rest :: t in query;
      EveryWordIsFullMatch(ln, rest, documents, d, top);
    }
  }

  lemma CoverageEnds(queryWeight: real, top: real)
    requires queryWeight > 0.0 && top > 0.0
    ensures Coverage(queryWeight * top, queryWeight, top) == 1.0 && Coverage(0.0, queryWeight, top) == 0.0
  {
    assert queryWeight * top > 0.0;
  }

  /** A document in which every word of the query weighs as much as in another matches at least as much of it, and more
    * when one of them weighs more. */
  lemma {:induction false} HeavierMatchesMore(ln: real -> real, query: seq<string>, documents: seq<Document>,
                                              d: Document,
                                              e: Document)
    requires Logarithm(ln) && forall t | t in query :: FieldWeight(d.fields, t) <= FieldWeight(e.fields, t)
    ensures MatchWeight(ln, query, documents, d) <= MatchWeight(ln, query, documents, e)
    ensures (exists t :: t in query && FieldWeight(d.fields, t) < FieldWeight(e.fields, t)) ==>
              MatchWeight(ln, query, documents, d) < MatchWeight(ln, query, documents, e)
    decreases |query|
  {
    hide FieldWeight, Rarity, Logarithm, WordWeight, MatchWeight;
    if query == [] {
      NoWordNoMatch(ln, query, documents, d);
      NoWordNoMatch(ln, query, documents, e);
    } else {
      var rest, last := query[..|query| - 1], query[|query| - 1];
      assert last in query && query == rest + [last];
      HeavierMatchesMore(ln, rest, documents, d, e);
      LastWordMatches(ln, query, documents, d, e);
    }
  }

  lemma LastWordMatches(ln: real -> real, query: seq<string>, documents: seq<Document>, d: Document, e: Document)
    requires Logarithm(ln) && query != []
    requires FieldWeight(d.fields, query[|query| - 1]) <= FieldWeight(e.fields, query[|query| - 1])
    ensures var rest, last := query[..|query| - 1], query[|query| - 1];
            var more, moreOfE := MatchWeight(ln, query, documents, d) - MatchWeight(ln, rest, documents, d),
                                 MatchWeight(ln, query, documents, e) - MatchWeight(ln, rest, documents, e);
            more <= moreOfE && (FieldWeight(d.fields, last) < FieldWeight(e.fields, last) ==> more < moreOfE)
  {
    hide FieldWeight, Rarity, Logarithm;
    var last := query[|query| - 1];
    AtMostAll(documents, last);
    RarityIsPositive(ln, |documents|, DocumentsWith(documents, last));
    hide DocumentsWith;
    Weighs(WordWeight(ln, last, documents), FieldWeight(d.fields, last), FieldWeight(e.fields, last));
    hide WordWeight;
  }

  lemma Weighs(rarity: real, x: real, y: real)
    requires rarity >= 1.0 && x <= y
    ensures rarity * x <= rarity * y && (x < y ==> rarity * x < rarity * y)
  {
  }

  // ---- the score ----

  /** Covering the query is worth 0.9 of a score and a summary like it 0.1, so a perfect match scores 1; a document that
    * contradicts the query scores a tenth. */
  lemma ScoreMeaning(coverage: real, similarity: real)
    ensures ScoreOf(1.0, 1.0, 1.0) == 1.0 && ScoreOf(1.0, 0.0, 1.0) == 0.9 && ScoreOf(0.0, 1.0, 1.0) == 0.1
    ensures ScoreOf(coverage, similarity, 1.0) ==
            coverage * ScoreOf(1.0, 0.0, 1.0) + similarity * ScoreOf(0.0, 1.0, 1.0)
    ensures ScoreOf(coverage, similarity, 0.1) * 10.0 == ScoreOf(coverage, similarity, 1.0)
  {
  }

  /** Model sizes are digits and a `b`, GPUs `mi`, digits and an `x`, and no other words are. */
  lemma KindsOfWord(t: string)
    ensures IsModelSize(t) <==> exists digits :: IsNumber(digits) && t == digits + "b"
    ensures IsGpu(t) <==> exists digits :: IsNumber(digits) && t == "mi" + digits + "x"
  {
    if IsModelSize(t) { assert IsNumber(t[..|t| - 1]) && t == t[..|t| - 1] + "b"; }
    if IsGpu(t) { assert IsNumber(t[2..|t| - 1]) && t == "mi" + t[2..|t| - 1] + "x"; }
  }

  ghost predicate IsNumber(s: string) {
    s != "" && forall i | 0 <= i < |s| :: IsDigit(s[i])
  }

  /** A document is marked down exactly when it and the query both name model sizes and none in common, or both name
    * GPUs and none in common. */
  lemma CompatibilityMeaning(query: set<string>, identity: set<string>)
    ensures Compatibility(query, identity) in {0.1, 1.0}
    ensures Compatibility(query, identity) == 0.1 <==>
              || ((exists t :: t in query && IsModelSize(t)) && (exists t :: t in identity && IsModelSize(t))
                  && forall t | t in query && t in identity :: !IsModelSize(t))
              || ((exists t :: t in query && IsGpu(t)) && (exists t :: t in identity && IsGpu(t))
                  && forall t | t in query && t in identity :: !IsGpu(t))
  {
    hide IsModelSize, IsGpu;
    ContradictsIff(query, identity, IsModelSize);
    ContradictsIff(query, identity, IsGpu);
  }

  lemma ContradictsIff(query: set<string>, identity: set<string>, kind: string -> bool)
    ensures Contradicts(set t | t in query && kind(t), set t | t in identity && kind(t)) <==>
              && (exists t :: t in query && kind(t)) && (exists t :: t in identity && kind(t))
              && forall t | t in query && t in identity :: !kind(t)
  {
    var a, b := set t | t in query && kind(t), set t | t in identity && kind(t);
    if a * b == {} {
      forall t | t in query && t in identity ensures !kind(t) { assert t !in a * b; }
    }
    assert forall t :: t in a * b ==> t in query && t in identity && kind(t);
    if a != {} { var t :| t in a; }
    if b != {} { var t :| t in b; }
  }

  /** Of two documents that are as compatible and as like the query, the one in which its words weigh more scores
    * more. */
  lemma HeavierScoresMore(ln: real -> real, query: seq<string>, documents: seq<Document>, similarity: nat -> real,
                          i: nat,
                          j: nat)
    requires Recallable(ln, documents, similarity) && i < |documents| && j < |documents| &&
             similarity(i) == similarity(j)
    requires Compatibility(Words(query), documents[i].identity) == Compatibility(Words(query), documents[j].identity)
    requires forall t | t in query :: FieldWeight(documents[i].fields, t) <= FieldWeight(documents[j].fields, t)
    requires exists t :: t in query && FieldWeight(documents[i].fields, t) < FieldWeight(documents[j].fields, t)
    ensures ScoreAt(ln, query, documents, similarity, i) < ScoreAt(ln, query, documents, similarity, j)
  {
    hide MatchWeight, QueryWeight, MaxFieldWeight, Compatibility, Logarithm, Searchable, FieldWeight;
    MatchIsBounded(ln, query, documents, documents[i]);
    MatchIsBounded(ln, query, documents, documents[j]);
    HeavierMatchesMore(ln, query, documents, documents[i], documents[j]);
    CompatibilityIsFactor(Words(query), documents[i].identity);
    var q, top := QueryWeight(ln, query, documents), MaxFieldWeight(documents);
    assert query != [] && q > 0.0;
    CoversMore(MatchWeight(ln, query, documents, documents[i]), MatchWeight(ln, query, documents, documents[j]), q,
      top);
    ScoresMore(Coverage(MatchWeight(ln, query, documents, documents[i]), q, top),
      Coverage(MatchWeight(ln, query, documents, documents[j]), q, top), similarity(i),
      Compatibility(Words(query), documents[i].identity));
  }

  lemma CoversMore(x: real, y: real, queryWeight: real, top: real)
    requires x < y && queryWeight > 0.0 && top > 0.0
    ensures Coverage(x, queryWeight, top) < Coverage(y, queryWeight, top)
  {
    var whole := queryWeight * top;
    assert whole > 0.0;
    assert y / whole - x / whole == (y - x) / whole;
  }

  lemma ScoresMore(x: real, y: real, similarity: real, compatibility: real)
    requires x < y && (compatibility == 0.1 || compatibility == 1.0)
    ensures ScoreOf(x, similarity, compatibility) < ScoreOf(y, similarity, compatibility)
  {
  }
}
