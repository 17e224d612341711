/** The score of fuzzy recall: how much of a query a document covers, by the weight of the fields that hold each word
  * and how rare it is, with a little for the likeness of its summary. Arithmetic is over the real numbers. */
module Lexical {
  import opened Prelude
  import opened Sorting
  import Ordering

  datatype WeightedField = WeightedField(weight: real, tokens: set<string>)

  datatype Document = Document(id: string, fields: seq<WeightedField>, identity: set<string>)

  /** A declaration gives every searched field a positive weight. */
  ghost predicate Searchable(d: Document) {
    forall f | f in d.fields :: f.weight > 0.0
  }

  // ---- how many documents hold a word ----

  predicate Mentions(d: Document, token: string) {
    exists f :: f in d.fields && token in f.tokens
  }

  function TokensOf(fields: seq<WeightedField>): set<string> {
    set f, t | f in fields && t in f.tokens :: t
  }

  function DocumentsWith(documents: seq<Document>, token: string): nat {
    if documents == [] then 0
    else
      DocumentsWith(documents[..|documents| - 1], token)
      + if Mentions(documents[|documents| - 1], token) then 1 else 0
  }

  lemma {:induction false} AtMostAll(documents: seq<Document>, token: string)
    ensures DocumentsWith(documents, token) <= |documents|
    decreases |documents|
  {
    if documents != [] { AtMostAll(documents[..|documents| - 1], token); }
  }

  function Frequency(frequencies: map<string, nat>, token: string): nat {
    if token in frequencies then frequencies[token] else 0
  }

  /** Count one more document: each of its words once, however many fields hold it. */
  method CountOne(frequencies: map<string, nat>, d: Document) returns (frequencies': map<string, nat>)
    ensures forall t :: Frequency(frequencies', t) == Frequency(frequencies, t) + if Mentions(d, t) then 1 else 0
  {
    var tokens := TokensOf(d.fields);
    frequencies' := frequencies;
    var rest := tokens;
    while rest != {}
      invariant rest <= tokens
      invariant forall t ::
                Frequency(frequencies', t) == Frequency(frequencies, t) + if t in tokens && t !in rest then 1 else 0
      decreases rest
    {
      var t :| t in rest;
      frequencies' := frequencies'[t := Frequency(frequencies', t) + 1];
      rest := rest - {t};
    }
    assert forall t :: t in tokens <==> Mentions(d, t);
  }

  method CountDocuments(documents: seq<Document>) returns (frequencies: map<string, nat>)
    ensures forall t :: Frequency(frequencies, t) == DocumentsWith(documents, t) <= |documents|
  {
    hide Mentions;
    frequencies := map[];
    var i := 0;
    while i < |documents|
      invariant 0 <= i <= |documents| && forall t :: Frequency(frequencies, t) == DocumentsWith(documents[..i], t)
    {
      assert documents[..i + 1][..i] == documents[..i];
      frequencies := CountOne(frequencies, documents[i]);
      i := i + 1;
    }
    assert documents[..i] == documents;
    forall t ensures DocumentsWith(documents, t) <= |documents| { AtMostAll(documents, t); }
  }

  // ---- the score ----

  /** The one property of the natural logarithm the score relies on. */
  ghost predicate Logarithm(ln: real -> real) {
    forall x | x >= 1.0 :: ln(x) >= 0.0
  }

  /** How much a word counts: the more, the fewer documents hold it. */
  function Rarity(ln: real -> real, count: nat, frequency: nat): real {
    ln((count as real + 1.0) / (frequency as real + 1.0)) + 1.0
  }

  lemma RarityIsPositive(ln: real -> real, count: nat, frequency: nat)
    requires Logarithm(ln) && frequency <= count
    ensures Rarity(ln, count, frequency) >= 1.0
  {
    var n, f := count as real + 1.0, frequency as real + 1.0;
    assert n >= f && f > 0.0;
    Quotient(n, f);
  }

  lemma NotNegative(a: real, b: real)
    requires a >= 0.0 && b > 0.0
    ensures a / b >= 0.0
  {
  }

  lemma Quotient(n: real, f: real)
    requires n >= f > 0.0
    ensures n / f >= 1.0
  {
    NotNegative(n - f, f);
    assert f / f == 1.0;
    assert (n - f) / f == n / f - f / f;
  }

  /** The weight of the heaviest field of a document that holds the word; 0 when none does. */
  function FieldWeight(fields: seq<WeightedField>, token: string): real {
    if fields == [] then 0.0
    else
      var rest := FieldWeight(fields[1..], token);
      if token in fields[0].tokens && fields[0].weight > rest then fields[0].weight else rest
  }

  function MaxWeight(fields: seq<WeightedField>): real {
    if fields == [] then 0.0
    else
      var rest := MaxWeight(fields[1..]);
      if fields[0].weight > rest then fields[0].weight else rest
  }

  function MaxOfAll(documents: seq<Document>): real {
    if documents == [] then 0.0
    else
      var rest := MaxOfAll(documents[1..]);
      if MaxWeight(documents[0].fields) > rest then MaxWeight(documents[0].fields) else rest
  }

  /** The heaviest field of any document, or 1 when no document has a field. */
  function MaxFieldWeight(documents: seq<Document>): real {
    if forall d | d in documents :: d.fields == [] then 1.0 else MaxOfAll(documents)
  }

  lemma {:induction false} FieldIsNotHeavier(fields: seq<WeightedField>, token: string)
    ensures 0.0 <= FieldWeight(fields, token) <= MaxWeight(fields)
    decreases |fields|
  {
    if fields != [] { FieldIsNotHeavier(fields[1..], token); }
  }

  lemma {:induction false} DocumentIsNotHeavier(documents: seq<Document>, d: Document)
    requires d in documents
    ensures MaxWeight(d.fields) <= MaxOfAll(documents)
    decreases |documents|
  {
    if d != documents[0] { DocumentIsNotHeavier(documents[1..], d); }
  }

  lemma SomeFieldWeighs(fields: seq<WeightedField>)
    requires fields != [] && fields[0].weight > 0.0
    ensures MaxWeight(fields) > 0.0
  {
  }

  lemma MaxFieldWeightBounds(documents: seq<Document>, d: Document, token: string)
    requires d in documents && forall x | x in documents :: Searchable(x)
    ensures MaxFieldWeight(documents) > 0.0 && 0.0 <= FieldWeight(d.fields, token) <= MaxFieldWeight(documents)
  {
    FieldIsNotHeavier(d.fields, token);
    DocumentIsNotHeavier(documents, d);
    if x :| x in documents && x.fields != [] {
      assert Searchable(x) && x.fields[0] in x.fields;
      SomeFieldWeighs(x.fields);
      DocumentIsNotHeavier(documents, x);
    }
  }

  /** How much a word of the query counts. */
  function WordWeight(ln: real -> real, token: string, documents: seq<Document>): real {
    Rarity(ln, |documents|, DocumentsWith(documents, token))
  }

  function QueryWeight(ln: real -> real, query: seq<string>, documents: seq<Document>): real {
    if query == [] then 0.0
    else QueryWeight(ln, query[..|query| - 1], documents) + WordWeight(ln, query[|query| - 1], documents)
  }

  function MatchWeight(ln: real -> real, query: seq<string>, documents: seq<Document>, d: Document): real {
    if query == [] then 0.0
    else
      MatchWeight(ln, query[..|query| - 1], documents, d)
      + WordWeight(ln, query[|query| - 1], documents) * FieldWeight(d.fields, query[|query| - 1])
  }

  /** The words of the query a document matches weigh, all together, at most what the query weighs at the top weight. */
  lemma {:induction false} MatchIsBounded(ln: real -> real, query: seq<string>, documents: seq<Document>, d: Document)
    requires Logarithm(ln) && d in documents && (forall x | x in documents :: Searchable(x))
    ensures 0.0 <= MatchWeight(ln, query, documents, d) <= QueryWeight(ln, query, documents) * MaxFieldWeight(documents)
    ensures QueryWeight(ln, query, documents) >= |query| as real && MaxFieldWeight(documents) > 0.0
    decreases |query|
  {
    hide Logarithm, Rarity, FieldWeight, MaxFieldWeight, DocumentsWith;
    MaxFieldWeightBounds(documents, d, "");
    if query != [] {
      var rest, last, top := query[..|query| - 1], query[|query| - 1], MaxFieldWeight(documents);
      MatchIsBounded(ln, rest, documents, d);
      AtMostAll(documents, last);
      RarityIsPositive(ln, |documents|, DocumentsWith(documents, last));
      MaxFieldWeightBounds(documents, d, last);
      var rarity, weight := WordWeight(ln, last, documents), FieldWeight(d.fields, last);
      ProductGrows(rarity, weight, top);
      var q := QueryWeight(ln, rest, documents);
      assert (q + rarity) * top == q * top + rarity * top;
    }
  }

  method WeighQuery(ln: real -> real, query: seq<string>, documents: seq<Document>, frequencies: map<string, nat>)
                    returns (weight: real)
    requires forall t :: Frequency(frequencies, t) == DocumentsWith(documents, t)
    ensures weight == QueryWeight(ln, query, documents)
  {
    hide DocumentsWith, Rarity;
    weight := 0.0;
    var i := 0;
    while i < |query|
      invariant 0 <= i <= |query| && weight == QueryWeight(ln, query[..i], documents)
    {
      assert query[..i + 1][..i] == query[..i];
      weight := weight + Rarity(ln, |documents|, Frequency(frequencies, query[i]));
      i := i + 1;
    }
    assert query[..i] == query;
  }

  method WeighMatch(ln: real -> real, query: seq<string>, documents: seq<Document>,
                    frequencies: map<string, nat>, d: Document)
    returns (weight: real)
    requires forall t :: Frequency(frequencies, t) == DocumentsWith(documents, t)
    ensures weight == MatchWeight(ln, query, documents, d)
  {
    hide DocumentsWith, Rarity, FieldWeight;
    weight := 0.0;
    var i := 0;
    while i < |query|
      invariant 0 <= i <= |query| && weight == MatchWeight(ln, query[..i], documents, d)
    {
      assert query[..i + 1][..i] == query[..i];
      var fieldWeight := FieldWeight(d.fields, query[i]);
      if fieldWeight != 0.0 {
        weight := weight + Rarity(ln, |documents|, Frequency(frequencies, query[i])) * fieldWeight;
      }
      i := i + 1;
    }
    assert query[..i] == query;
  }

  lemma ProductGrows(a: real, x: real, y: real)
    requires a >= 0.0 && 0.0 <= x <= y
    ensures 0.0 <= a * x <= a * y
  {
  }

  // ---- compatibility ----

  predicate IsDigit(c: char) {
    '0' <= c <= '9'
  }

  /** Digits and a `b`: a model size. */
  predicate IsModelSize(t: string) {
    |t| >= 2 && t[|t| - 1] == 'b' && forall i | 0 <= i < |t| - 1 :: IsDigit(t[i])
  }

  /** `mi`, digits and an `x`: a GPU. */
  predicate IsGpu(t: string) {
    |t| >= 4 && t[0] == 'm' && t[1] == 'i' && t[|t| - 1] == 'x' && forall i | 2 <= i < |t| - 1 :: IsDigit(t[i])
  }

  predicate Contradicts(query: set<string>, identity: set<string>) {
    query != {} && identity != {} && query * identity == {}
  }

  /** A document whose identity names other model sizes or GPUs than the query is marked down. */
  function Compatibility(query: set<string>, identity: set<string>): real {
    if Contradicts(set t | t in query && IsModelSize(t), set t | t in identity && IsModelSize(t))
       || Contradicts(set t | t in query && IsGpu(t), set t | t in identity && IsGpu(t))
    then 0.1 else 1.0
  }

  // ---- the score of a document ----

  function Coverage(matched: real, queryWeight: real, top: real): real
    requires queryWeight >= 0.0 && top > 0.0
  {
    if queryWeight == 0.0 then 0.0 else matched / (queryWeight * top)
  }

  function ScoreOf(coverage: real, similarity: real, compatibility: real): real {
    (0.9 * coverage + 0.1 * similarity) * compatibility
  }

  /** The clamp a score goes through later. */
  function Clamped(score: real): real {
    if score < 0.0 then 0.0 else if score > 1.0 then 1.0 else score
  }

  lemma ScoreIsFraction(coverage: real, similarity: real, compatibility: real)
    requires 0.0 <= coverage <= 1.0 && 0.0 <= similarity <= 1.0 && (compatibility == 0.1 || compatibility == 1.0)
    ensures 0.0 <= ScoreOf(coverage, similarity, compatibility) <= 1.0
  {
    var sum := 0.9 * coverage + 0.1 * similarity;
    assert 0.0 <= sum <= 1.0;
  }

  lemma CoverageIsFraction(matched: real, queryWeight: real, top: real)
    requires queryWeight >= 0.0 && top > 0.0 && 0.0 <= matched <= queryWeight * top
    ensures 0.0 <= Coverage(matched, queryWeight, top) <= 1.0
  {
    if queryWeight != 0.0 {
      ProductGrows(queryWeight, top, top);
      assert queryWeight * top > 0.0;
      Fraction(matched, queryWeight * top);
    }
  }

  lemma Fraction(part: real, whole: real)
    requires 0.0 <= part <= whole && whole > 0.0
    ensures 0.0 <= part / whole <= 1.0
  {
    NotNegative(part, whole);
    NotNegative(whole - part, whole);
    assert 1.0 == part / whole + (whole - part) / whole;
  }

  function Words(query: seq<string>): set<string> {
    set t | t in query
  }

  ghost predicate Recallable(ln: real -> real, documents: seq<Document>, similarity: nat -> real) {
    && Logarithm(ln) && (forall d | d in documents :: Searchable(d))
    && (forall i | 0 <= i < |documents| :: 0.0 <= similarity(i) <= 1.0)
  }

  /** The score of document `i` for a query. */
  ghost function ScoreAt(ln: real -> real, query: seq<string>, documents: seq<Document>, similarity: nat -> real,
                         i: nat): real
    requires Recallable(ln, documents, similarity) && i < |documents|
  {
    MatchIsBounded(ln, query, documents, documents[i]);
    ScoreOf(Coverage(MatchWeight(ln, query, documents, documents[i]), QueryWeight(ln, query, documents),
      MaxFieldWeight(documents)),
            similarity(i), Compatibility(Words(query), documents[i].identity))
  }

  /** Every score is a fraction, because no word is in more documents than there are; so the clamp never changes one. */
  lemma ScoreAtIsFraction(ln: real -> real, query: seq<string>, documents: seq<Document>, similarity: nat -> real,
                          i: nat)
    requires Recallable(ln, documents, similarity) && i < |documents|
    ensures 0.0 <= ScoreAt(ln, query, documents, similarity, i) <= 1.0
    ensures Clamped(ScoreAt(ln, query, documents, similarity, i)) == ScoreAt(ln, query, documents, similarity, i)
  {
    hide MatchWeight, QueryWeight, MaxFieldWeight, Compatibility, Logarithm, Searchable, Coverage, ScoreOf;
    var d := documents[i];
    MatchIsBounded(ln, query, documents, d);
    var coverage := Coverage(MatchWeight(ln, query, documents, d), QueryWeight(ln, query, documents),
      MaxFieldWeight(documents));
    CoverageIsFraction(MatchWeight(ln, query, documents, d), QueryWeight(ln, query, documents),
      MaxFieldWeight(documents));
    CompatibilityIsFactor(Words(query), d.identity);
    ScoreIsFraction(coverage, similarity(i), Compatibility(Words(query), d.identity));
  }

  datatype Hit = Hit(document: nat, score: real)

  ghost predicate IsHit(ln: real -> real, query: seq<string>, documents: seq<Document>, similarity: nat -> real, h: Hit)
    requires Recallable(ln, documents, similarity)
  {
    h.document < |documents| && h.score == ScoreAt(ln, query, documents, similarity, h.document) && h.score > 0.0
  }

  /** Score every document; those that score nothing are left out, and an empty query finds none. */
  method ScoreAll(ln: real -> real, query: seq<string>, documents: seq<Document>, similarity: nat -> real)
                  returns (hits: seq<Hit>)
    requires Recallable(ln, documents, similarity)
    ensures query == [] ==> hits == []
    ensures query != [] ==> forall h :: h in hits <==> IsHit(ln, query, documents, similarity, h)
    ensures forall h | h in hits :: 0.0 < h.score <= 1.0 && Clamped(h.score) == h.score
    ensures Distinct(hits)
  {
    hide DocumentsWith, QueryWeight, Recallable, IsHit, Frequency, ScoreAt;
    if query == [] {
      return [];
    }
    var frequencies := CountDocuments(documents);
    var queryWeight := WeighQuery(ln, query, documents, frequencies);
    hits := [];
    var i := 0;
    while i < |documents|
      invariant 0 <= i <= |documents|
      invariant forall h :: h in hits <==> h.document < i && IsHit(ln, query, documents, similarity, h)
      invariant forall h | h in hits :: 0.0 < h.score <= 1.0
      invariant Distinct(hits)
    {
      var score := ScoreOne(ln, query, documents, frequencies, queryWeight, similarity, i);
      HitsAt(ln, query, documents, similarity, i);
      if score > 0.0 { hits := hits + [Hit(i, score)]; }
      i := i + 1;
    }
    HitsAreIn(ln, query, documents, similarity);
  }

  /** Better first, and of equal score by id. */
  function ByScore(documents: seq<Document>): (Hit, Hit) -> bool {
    (a: Hit, b: Hit) =>
      a.score > b.score || (a.score == b.score && Ordering.Le(IdAt(documents, a.document), IdAt(documents, b.document)))
  }

  function IdAt(documents: seq<Document>, i: nat): string {
    if i < |documents| then documents[i].id else ""
  }

  lemma ByScoreIsOrder(documents: seq<Document>)
    ensures IsOrder(ByScore(documents))
  {
    var le := ByScore(documents);
    forall a, b ensures le(a, b) || le(b, a) {
      Ordering.LeTotal(IdAt(documents, a.document), IdAt(documents, b.document));
    }
    forall a, b, c | le(a, b) && le(b, c) ensures le(a, c) {
      if a.score == b.score == c.score {
        Ordering.LeTransitive(IdAt(documents, a.document), IdAt(documents, b.document), IdAt(documents, c.document));
      }
    }
  }

  /** The best documents for a query: of those that score at all, as many as asked for or all, best first, and none left
    * out goes before one returned. */
  method Recall(ln: real -> real, query: seq<string>, documents: seq<Document>, similarity: nat -> real, limit: nat)
    returns (hits: seq<Hit>)
    requires Recallable(ln, documents, similarity)
    ensures query == [] ==> hits == []
    ensures forall h | h in hits ::
            IsHit(ln, query, documents, similarity, h) && h.score <= 1.0 && Clamped(h.score) == h.score
    ensures Distinct(hits) && InOrder(ByScore(documents), hits) && |hits| <= limit
    ensures query != [] ==> forall h | IsHit(ln, query, documents, similarity, h) && h !in hits ::
              |hits| == limit && forall g | g in hits :: ByScore(documents)(g, h)
  {
    hide Recallable, IsHit, ByScore, Distinct, InOrder, Sort;
    var found := ScoreAll(ln, query, documents, similarity);
    ByScoreIsOrder(documents);
    hits := FirstOf(Sort(ByScore(documents), found), limit);
    ghost var left := TopOf(ByScore(documents), found, limit);
    if query == [] { assert found == []; NothingIsSorted(ByScore(documents)); }
  }

  lemma HitsAt(ln: real -> real, query: seq<string>, documents: seq<Document>, similarity: nat -> real, i: nat)
    requires Recallable(ln, documents, similarity) && i < |documents|
    ensures forall h :: IsHit(ln, query, documents, similarity, h) && h.document == i <==>
              h == Hit(i, ScoreAt(ln, query, documents, similarity, i)) &&
                ScoreAt(ln, query, documents, similarity, i) > 0.0
  {
    hide ScoreAt, Recallable;
  }

  lemma HitsAreIn(ln: real -> real, query: seq<string>, documents: seq<Document>, similarity: nat -> real)
    requires Recallable(ln, documents, similarity)
    ensures forall h | IsHit(ln, query, documents, similarity, h) :: h.document < |documents|
  {
    hide ScoreAt, Recallable;
  }

  method ScoreOne(ln: real -> real, query: seq<string>, documents: seq<Document>,
                  frequencies: map<string, nat>, queryWeight: real,
                  similarity: nat -> real, i: nat) returns (score: real)
    requires Recallable(ln, documents, similarity) && i < |documents| &&
             queryWeight == QueryWeight(ln, query, documents)
    requires forall t :: Frequency(frequencies, t) == DocumentsWith(documents, t)
    ensures score == ScoreAt(ln, query, documents, similarity, i) && 0.0 <= score <= 1.0
  {
    hide MatchWeight, QueryWeight, MaxFieldWeight, Compatibility, Logarithm, Searchable, Coverage, ScoreOf,
         DocumentsWith;
    var matched := WeighMatch(ln, query, documents, frequencies, documents[i]);
    MatchIsBounded(ln, query, documents, documents[i]);
    var coverage := Coverage(matched, queryWeight, MaxFieldWeight(documents));
    score := ScoreOf(coverage, similarity(i), Compatibility(Words(query), documents[i].identity));
    ScoreAtIsFraction(ln, query, documents, similarity, i);
  }

  lemma CompatibilityIsFactor(query: set<string>, identity: set<string>)
    ensures Compatibility(query, identity) == 0.1 || Compatibility(query, identity) == 1.0
  {
  }
}
