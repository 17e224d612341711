/** Repeat groups and the weighted ranking over them: scores are sums over a plan's signals of the best contribution of
  * a group's members, and the result is the best groups in order. Scores are real numbers.
  */
module Ranking {
  import opened Prelude

  type Id = string
  type SignalId = string
  type GroupKey = string

  datatype Capability = Exact | Filter | Fuzzy | Semantic

  datatype Signal = Signal(id: SignalId, weight: real)

  /** A record recalled for a signal, and what it contributes under it. */
  datatype Contribution = Contribution(signal: SignalId, capability: Capability, id: Id, raw: real, normalized: real,
    amount: real)

  function Normalized(capability: Capability, score: real): real {
    if capability.Exact? || capability.Filter? then 1.0
    else if score < 0.0 then 0.0
    else if score > 1.0 then 1.0
    else score
  }

  /** The part of a signal's weight that a score is worth. */
  function Share(normalized: real, weight: real): real {
    normalized * weight
  }

  function Contribute(signal: Signal, capability: Capability, id: Id, score: Option<real>): Contribution {
    var raw := if score.Some? then score.value else 1.0;
    var normalized := Normalized(capability, raw);
    Contribution(signal.id, capability, id, raw, normalized, Share(normalized, signal.weight))
  }

  /** What a record recalled for a signal contributes: the signal's whole weight when it was looked up exactly or has no
    * score, and otherwise the part of it that its score is, at least nothing and at most all. */
  lemma ContributionMeaning(signal: Signal, capability: Capability, id: Id, score: Option<real>)
    ensures var c := Contribute(signal, capability, id, score);
            && c.signal == signal.id && c.capability == capability && c.id == id
            && (capability.Exact? || capability.Filter? || score.None? ==> c.amount == signal.weight)
            && ((capability.Fuzzy? || capability.Semantic?) && score.Some? ==>
                  && (0.0 <= score.value <= 1.0 ==> c.amount == score.value * signal.weight)
                  && (score.value < 0.0 ==> c.amount == 0.0) && (score.value > 1.0 ==> c.amount == signal.weight))
  {
  }

  /** So a better match contributes more. */
  lemma BetterMatchContributesMore(signal: Signal, capability: Capability, a: Id, b: Id, x: real, y: real)
    requires (capability.Fuzzy? || capability.Semantic?) && 0.0 < signal.weight && 0.0 <= x < y <= 1.0
    ensures Contribute(signal, capability, a, Some(x)).amount < Contribute(signal, capability, b, Some(y)).amount
  {
    hide Contribute;
    Scales(x, y, signal.weight);
    var low, high := x * signal.weight, y * signal.weight;
    assert Contribute(signal, capability, a, Some(x)).amount == low by {
      ContributionMeaning(signal, capability, a, Some(x));
    }
    assert Contribute(signal, capability, b, Some(y)).amount == high by {
      ContributionMeaning(signal, capability, b, Some(y));
    }
  }

  lemma Scales(x: real, y: real, weight: real)
    requires x < y && 0.0 < weight
    ensures x * weight < y * weight
  {
    assert (y - x) * weight > 0.0;
  }

  lemma ContributionIsBounded(signal: Signal, capability: Capability, id: Id, score: Option<real>)
    requires 0.0 <= signal.weight
    ensures 0.0 <= Contribute(signal, capability, id, score).amount <= signal.weight
  {
    hide Normalized, Share;
    var raw := if score.Some? then score.value else 1.0;
    NormalizedIsFraction(capability, raw);
    ShareIsPart(Normalized(capability, raw), signal.weight);
  }

  lemma NormalizedIsFraction(capability: Capability, score: real)
    ensures 0.0 <= Normalized(capability, score) <= 1.0
  {
  }

  lemma ShareIsPart(normalized: real, weight: real)
    requires 0.0 <= normalized <= 1.0 && 0.0 <= weight
    ensures 0.0 <= Share(normalized, weight) <= weight
  {
    var left := 1.0 - normalized;
    assert weight == normalized * weight + left * weight;
    NotNegative(normalized, weight);
    NotNegative(left, weight);
  }

  lemma NotNegative(a: real, b: real)
    requires 0.0 <= a && 0.0 <= b
    ensures 0.0 <= a * b
  {
  }

  // ---- totals ----

  lemma {:induction false} TotalGrows(m: map<SignalId, real>, n: map<SignalId, real>)
    requires forall k | k in m :: k in n && m[k] <= n[k]
    requires forall k | k in n :: n[k] >= 0.0
    ensures Total(m) <= Total(n)
    decreases |n|
  {
    if n == map[] {
      assert m == map[];
    } else {
      var k :| k in n;
      TotalWithout(n, k);
      if k in m {
        TotalWithout(m, k);
        TotalGrows(m - {k}, n - {k});
      } else {
        TotalGrows(m, n - {k});
      }
    }
  }

  // ---- the score of a group ----

  /** The best contribution for a signal; 0 when there is none. */
  function Best(items: seq<Contribution>, signal: SignalId): real {
    if items == [] then 0.0
    else
      var rest := Best(items[..|items| - 1], signal);
      var last := items[|items| - 1];
      if last.signal == signal && last.amount > rest then last.amount else rest
  }

  ghost predicate IsBest(items: seq<Contribution>, signal: SignalId, best: real) {
    && best >= 0.0
    && (forall c | c in items && c.signal == signal :: c.amount <= best)
    && (best == 0.0 || exists c :: c in items && c.signal == signal && c.amount == best)
  }

  lemma {:induction false} BestIsBest(items: seq<Contribution>, signal: SignalId)
    ensures IsBest(items, signal, Best(items, signal))
    decreases |items|
  {
    if items != [] {
      var rest, last := items[..|items| - 1], items[|items| - 1];
      BestIsBest(rest, signal);
      assert forall c | c in items :: c in rest || c == last;
      assert last in items;
      var best := Best(rest, signal);
      if best != 0.0 {
        var c :| c in rest && c.signal == signal && c.amount == best;
        assert c in items;
      }
    }
  }

  function SignalsOf(items: seq<Contribution>): set<SignalId> {
    set c | c in items :: c.signal
  }

  function PerSignal(items: seq<Contribution>): map<SignalId, real> {
    map s | s in SignalsOf(items) :: Best(items, s)
  }

  ghost function Score(items: seq<Contribution>): real {
    Total(PerSignal(items))
  }

  method PerSignalLoop(items: seq<Contribution>) returns (best: map<SignalId, real>)
    ensures best == PerSignal(items)
  {
    best := map[];
    var i := 0;
    while i < |items|
      invariant 0 <= i <= |items| && best == PerSignal(items[..i])
    {
      var c := items[i];
      PerSignalMore(items, i);
      var was := if c.signal in best then best[c.signal] else 0.0;
      best := best[c.signal := if c.amount > was then c.amount else was];
      i := i + 1;
    }
    assert items[..i] == items;
  }

  lemma PerSignalMore(items: seq<Contribution>, i: nat)
    requires i < |items|
    ensures var c, best := items[i], PerSignal(items[..i]);
            var was := if c.signal in best then best[c.signal] else 0.0;
            PerSignal(items[..i + 1]) == best[c.signal := if c.amount > was then c.amount else was]
  {
    var before, after, c := items[..i], items[..i + 1], items[i];
    assert after[..|after| - 1] == before && after[|after| - 1] == c && after == before + [c];
    assert SignalsOf(after) == SignalsOf(before) + {c.signal};
    if c.signal !in SignalsOf(before) { NoneIsZero(before, c.signal); }
  }

  lemma {:induction false} NoneIsZero(items: seq<Contribution>, signal: SignalId)
    requires signal !in SignalsOf(items)
    ensures Best(items, signal) == 0.0
    decreases |items|
  {
    if items != [] {
      assert items[|items| - 1] in items;
      NoneIsZero(items[..|items| - 1], signal);
    }
  }

  /** The score of contributions to one signal is the best of them. */
  lemma OneSignalScore(items: seq<Contribution>, signal: SignalId)
    requires items != [] && (forall c | c in items :: c.signal == signal) && exists c :: c in items && c.amount >= 0.0
    ensures (exists c :: c in items && c.amount == Score(items)) && forall c | c in items :: c.amount <= Score(items)
  {
    BestIsBest(items, signal);
    assert items[0] in items;
    assert SignalsOf(items) == {signal};
    var best := PerSignal(items);
    assert best == map[signal := Best(items, signal)];
    TotalWithout(best, signal);
    assert best - {signal} == map[];
    var c :| c in items && c.amount >= 0.0;
    if Best(items, signal) == 0.0 { assert c.amount == 0.0; }
  }

  /** The scores of disjoint sets of signals add up. */
  lemma {:induction false} ScoresAddUp(a: seq<Contribution>, b: seq<Contribution>)
    requires forall c, d | c in a && d in b :: c.signal != d.signal
    ensures Score(a + b) == Score(a) + Score(b)
  {
    var both := PerSignal(a + b);
    assert forall c :: c in a + b <==> c in a || c in b;
    forall s | s in SignalsOf(a) ensures Best(a + b, s) == Best(a, s) { BestOfPart(a + b, a, s); }
    forall s | s in SignalsOf(b) ensures Best(a + b, s) == Best(b, s) { BestOfPart(a + b, b, s); }
    assert SignalsOf(a + b) == SignalsOf(a) + SignalsOf(b);
    assert both == PerSignal(a) + PerSignal(b);
    TotalOfBoth(PerSignal(a), PerSignal(b));
  }

  lemma BestOfPart(all: seq<Contribution>, part: seq<Contribution>, s: SignalId)
    requires forall c: Contribution | c.signal == s :: c in all <==> c in part
    ensures Best(all, s) == Best(part, s)
  {
    BestIsBest(all, s);
    BestIsBest(part, s);
  }

  lemma {:induction false} TotalOfBoth(m: map<SignalId, real>, n: map<SignalId, real>)
    requires m.Keys !! n.Keys
    ensures Total(m + n) == Total(m) + Total(n)
    decreases |n|
  {
    hide Total;
    if n == map[] {
      NothingAdds(m, n);
    } else {
      var k :| k in n;
      TotalWithout(n, k);
      TotalWithout(m + n, k);
      RestOfBoth(m, n, k);
      TotalOfBoth(m, n - {k});
    }
  }

  lemma NothingAdds(m: map<SignalId, real>, n: map<SignalId, real>)
    requires n == map[]
    ensures m + n == m && Total(n) == 0.0
  {
  }

  lemma RestOfBoth(m: map<SignalId, real>, n: map<SignalId, real>, k: SignalId)
    requires m.Keys !! n.Keys && k in n
    ensures k in m + n && (m + n)[k] == n[k] && (m + n) - {k} == m + (n - {k}) && m.Keys !! (n - {k}).Keys
    ensures |n - {k}| < |n|
  {
  }

  /** The score does not depend on the order, or repetition, in which contributions were recalled. */
  lemma ScoreIgnoresOrder(a: seq<Contribution>, b: seq<Contribution>)
    requires forall c :: c in a <==> c in b
    ensures Score(a) == Score(b)
  {
    forall s | s in SignalsOf(a) ensures Best(a, s) == Best(b, s) {
      BestIsBest(a, s);
      BestIsBest(b, s);
    }
    assert SignalsOf(a) == SignalsOf(b);
    assert PerSignal(a) == PerSignal(b);
  }

  /** More hits never lower a score. */
  lemma ScoreIsMonotone(a: seq<Contribution>, b: seq<Contribution>)
    requires forall c | c in a :: c in b
    ensures Score(a) <= Score(b)
  {
    forall s | s in SignalsOf(a) ensures Best(a, s) <= Best(b, s) {
      BestIsBest(a, s);
      BestIsBest(b, s);
    }
    forall s ensures Best(b, s) >= 0.0 { BestIsBest(b, s); }
    TotalGrows(PerSignal(a), PerSignal(b));
  }

  function Weights(signals: seq<Signal>): map<SignalId, real> {
    if signals == [] then map[]
      else Weights(signals[..|signals| - 1])[signals[|signals| - 1].id := signals[|signals| - 1].weight]
  }

  function SumOfWeights(signals: seq<Signal>): real {
    if signals == [] then 0.0 else SumOfWeights(signals[..|signals| - 1]) + signals[|signals| - 1].weight
  }

  ghost predicate ValidPlan(signals: seq<Signal>) {
    && (forall s | s in signals :: 0.0 < s.weight <= 1.0)
    && (forall i, j | 0 <= i < j < |signals| :: signals[i].id != signals[j].id)
  }

  lemma {:induction false} WeightsOfPlan(signals: seq<Signal>)
    requires ValidPlan(signals)
    ensures Total(Weights(signals)) == SumOfWeights(signals)
    ensures forall s | s in signals :: s.id in Weights(signals) && Weights(signals)[s.id] == s.weight
    ensures forall id | id in Weights(signals) :: Weights(signals)[id] >= 0.0
    decreases |signals|
  {
    if signals != [] {
      var rest, last := signals[..|signals| - 1], signals[|signals| - 1];
      WeightsOfPlan(rest);
      WeightKeys(rest);
      assert last in signals;
      assert forall s | s in signals :: s in rest || s == last;
      assert forall s | s in rest :: s.id != last.id;
      TotalWithout(Weights(signals), last.id);
      assert Weights(signals) - {last.id} == Weights(rest);
    }
  }

  lemma {:induction false} WeightKeys(signals: seq<Signal>)
    ensures Weights(signals).Keys == set s | s in signals :: s.id
    decreases |signals|
  {
    if signals != [] {
      var rest, last := signals[..|signals| - 1], signals[|signals| - 1];
      WeightKeys(rest);
      assert signals == rest + [last];
    }
  }

  /** Contributions recalled for a plan: each is what some signal of it makes of some score. */
  ghost predicate FromPlan(items: seq<Contribution>, signals: seq<Signal>) {
    forall c | c in items :: exists s :: s in signals && IsFrom(c, s)
  }

  ghost predicate IsFrom(c: Contribution, s: Signal) {
    exists score :: c == Contribute(s, c.capability, c.id, score)
  }

  /** A score is at most the sum of the plan's weights, and never negative. */
  lemma ScoreIsBounded(items: seq<Contribution>, signals: seq<Signal>)
    requires ValidPlan(signals) && FromPlan(items, signals)
    ensures 0.0 <= Score(items) <= SumOfWeights(signals)
  {
    WeightsOfPlan(signals);
    var best, weights := PerSignal(items), Weights(signals);
    forall id | id in best ensures id in weights && 0.0 <= best[id] <= weights[id] {
      BestIsBest(items, id);
      var c0 :| c0 in items && c0.signal == id;
      var s0 :| s0 in signals && IsFrom(c0, s0);
      assert s0.id == id;
      if best[id] != 0.0 {
        var c :| c in items && c.signal == id && c.amount == best[id];
        var s :| s in signals && IsFrom(c, s);
        var score :| c == Contribute(s, c.capability, c.id, score);
        ContributionIsBounded(s, c.capability, c.id, score);
        assert s.id == id;
      }
    }
    hide Contribute;
    TotalGrows(best, weights);
    TotalGrows(map[], best);
  }

  // ---- repeat groups ----

  /** A record of the corpus and the key of the attempt it repeats. */
  datatype Member = Member(id: Id, key: GroupKey)

  ghost predicate DistinctIds(corpus: seq<Member>) {
    forall i, j | 0 <= i < j < |corpus| :: corpus[i].id != corpus[j].id
  }

  /** The ids of one group, in corpus order. */
  function MembersOf(corpus: seq<Member>, key: GroupKey): seq<Id> {
    if corpus == [] then []
    else
      MembersOf(corpus[..|corpus| - 1], key)
      + (if corpus[|corpus| - 1].key == key then [corpus[|corpus| - 1].id] else [])
  }

  function KeysOf(corpus: seq<Member>): set<GroupKey> {
    set m | m in corpus :: m.key
  }

  function GroupsOf(corpus: seq<Member>): map<GroupKey, seq<Id>> {
    map k | k in KeysOf(corpus) :: MembersOf(corpus, k)
  }

  function HomesOf(corpus: seq<Member>): map<Id, GroupKey> {
    if corpus == [] then map[] else HomesOf(corpus[..|corpus| - 1])[corpus[|corpus| - 1].id := corpus[|corpus| - 1].key]
  }

  method BuildGroups(corpus: seq<Member>) returns (groups: map<GroupKey, seq<Id>>, homes: map<Id, GroupKey>)
    ensures groups == GroupsOf(corpus) && homes == HomesOf(corpus)
  {
    groups, homes := map[], map[];
    var i := 0;
    while i < |corpus|
      invariant 0 <= i <= |corpus| && groups == GroupsOf(corpus[..i]) && homes == HomesOf(corpus[..i])
    {
      var m := corpus[i];
      assert corpus[..i + 1][..i] == corpus[..i];
      GroupsMore(corpus, i);
      groups := groups[m.key := (if m.key in groups then groups[m.key] else []) + [m.id]];
      homes := homes[m.id := m.key];
      i := i + 1;
    }
    assert corpus[..i] == corpus;
  }

  lemma MembersMore(corpus: seq<Member>, m: Member, key: GroupKey)
    ensures MembersOf(corpus + [m], key) == MembersOf(corpus, key) + (if m.key == key then [m.id] else [])
  {
    assert (corpus + [m])[..|corpus|] == corpus;
  }

  lemma KeysMore(corpus: seq<Member>, m: Member)
    ensures KeysOf(corpus + [m]) == KeysOf(corpus) + {m.key}
  {
    assert forall x :: x in corpus + [m] <==> x in corpus || x == m;
  }

  lemma GroupsMore(corpus: seq<Member>, i: nat)
    requires i < |corpus|
    ensures var m, groups := corpus[i], GroupsOf(corpus[..i]);
            GroupsOf(corpus[..i + 1]) == groups[m.key := (if m.key in groups then groups[m.key] else []) + [m.id]]
  {
    var before, m := corpus[..i], corpus[i];
    assert corpus[..i + 1] == before + [m];
    KeysMore(before, m);
    forall k ensures MembersOf(before + [m], k) == MembersOf(before, k) + (if m.key == k then [m.id] else []) {
      MembersMore(before, m, k);
    }
    if m.key !in KeysOf(before) { NoMembers(before, m.key); }
    hide MembersOf, KeysOf;
    assert forall k :: MembersOf(before, k) + [] == MembersOf(before, k);
  }

  lemma {:induction false} NoMembers(corpus: seq<Member>, key: GroupKey)
    requires key !in KeysOf(corpus)
    ensures MembersOf(corpus, key) == []
    decreases |corpus|
  {
    if corpus != [] {
      assert corpus[|corpus| - 1] in corpus;
      NoMembers(corpus[..|corpus| - 1], key);
    }
  }

  lemma {:induction false} MembersMeaning(corpus: seq<Member>, key: GroupKey, id: Id)
    ensures id in MembersOf(corpus, key) <==> Member(id, key) in corpus
    decreases |corpus|
  {
    if corpus != [] {
      var rest, last := corpus[..|corpus| - 1], corpus[|corpus| - 1];
      MembersMeaning(rest, key, id);
      assert corpus == rest + [last];
    }
  }

  lemma {:induction false} HomesMeaning(corpus: seq<Member>, m: Member)
    requires DistinctIds(corpus)
    ensures m in corpus <==> m.id in HomesOf(corpus) && HomesOf(corpus)[m.id] == m.key
    decreases |corpus|
  {
    if corpus != [] {
      var rest, last := corpus[..|corpus| - 1], corpus[|corpus| - 1];
      HomesMeaning(rest, m);
      assert corpus == rest + [last];
      if m.id == last.id { assert m in rest ==> m == last; }
    }
  }

  /** Repeat groups partition the corpus: each record is a member of exactly the group it is filed under. */
  lemma GroupsPartition(corpus: seq<Member>, id: Id)
    requires DistinctIds(corpus)
    ensures id in HomesOf(corpus) <==> exists m :: m in corpus && m.id == id
    ensures id in HomesOf(corpus) ==> HomesOf(corpus)[id] in GroupsOf(corpus)
    ensures forall k | k in GroupsOf(corpus) :: id in GroupsOf(corpus)[k] <==>
            id in HomesOf(corpus) && HomesOf(corpus)[id] == k
  {
    forall k | k in GroupsOf(corpus) ensures id in GroupsOf(corpus)[k] <==>
      id in HomesOf(corpus) && HomesOf(corpus)[id] == k {
      MembersMeaning(corpus, k, id);
      HomesMeaning(corpus, Member(id, k));
    }
    if id in HomesOf(corpus) {
      HomesMeaning(corpus, Member(id, HomesOf(corpus)[id]));
    }
    forall m | m in corpus && m.id == id ensures id in HomesOf(corpus) { HomesMeaning(corpus, m); }
  }
}
