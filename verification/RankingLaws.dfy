/** What the order of an answer means: which group comes first under each policy, and that of two groups a text finds,
  * the better match comes first. */
module RankingLaws {
  import opened Prelude
  import Ordering
  import opened QueryExecution
  import QueryIndex
  import opened Ranking
  import opened Sorting

  lemma {:induction false} MaxAmountIsMax(items: seq<Contribution>)
    requires items != []
    ensures (exists c :: c in items && c.amount == MaxAmount(items)) &&
            forall c | c in items :: c.amount <= MaxAmount(items)
    decreases |items|
  {
    assert items[0] in items && items == [items[0]] + items[1..];
    if |items| > 1 {
      MaxAmountIsMax(items[1..]);
      assert forall c | c in items[1..] :: c in items;
    }
  }

  lemma {:induction false} FirstPriorityIsFirst(items: seq<Contribution>)
    requires items != []
    ensures exists c :: c in items && Priority(c.capability) == FirstPriority(items)
    ensures forall c | c in items :: FirstPriority(items) <= Priority(c.capability)
    decreases |items|
  {
    assert items[0] in items && items == [items[0]] + items[1..];
    if |items| > 1 {
      FirstPriorityIsFirst(items[1..]);
      assert forall c | c in items[1..] :: c in items;
    }
  }

  /** Exact lookups go before filters, these before fuzzy recall, and that before semantic recall. */
  lemma PrioritiesAscend()
    ensures Priority(Exact) < Priority(Filter) < Priority(Fuzzy) < Priority(Semantic) < 4.0
  {
  }

  /** Which of two groups comes first under each policy; the group key decides what is otherwise equal. */
  lemma PolicyMeaning(policy: Policy, a: Ranked, b: Ranked)
    ensures ByPolicy(policy)(a, b) <==>
      match policy
      case WeightedSignalSum => a.score > b.score || (a.score == b.score && Ordering.Le(a.key, b.key))
      case MaxHitScore =>
        || MaxAmount(a.items) > MaxAmount(b.items)
        || (MaxAmount(a.items) == MaxAmount(b.items) && Ordering.Le(a.key, b.key))
      case CapabilityPriority =>
        || FirstPriority(a.items) < FirstPriority(b.items)
        || (FirstPriority(a.items) == FirstPriority(b.items)
            && (a.score > b.score || (a.score == b.score && Ordering.Le(a.key, b.key))))
      case _ => Ordering.Le(a.key, b.key)
  {
    hide MaxAmount, FirstPriority, Ordering.Le;
  }

  // ---- two matches of one text ----

  /** One text asked of one provider, which offers two records of different groups. */
  ghost predicate TwoMatches(view: View, providers: Providers, p: PlanSignal, a: Id, b: Id, x: real, y: real) {
    && ValidView(view) && p.query.Text? && 0.0 < p.signal.weight <= 1.0
    && Fuzzy in view.ready && Fuzzy in providers.of && providers.limits(Fuzzy) >= 2
    && providers.of[Fuzzy](p.query.text, p.signal.id, providers.limits(Fuzzy))
       == [Offer(a, Fuzzy, Some(x)), Offer(b, Fuzzy, Some(y))]
    && a in view.visible && b in view.visible && a in view.homes && b in view.homes && view.homes[a] != view.homes[b]
    && 0.0 <= x < y <= 1.0
  }

  lemma TwoFound(view: View, providers: Providers, p: PlanSignal, a: Id, b: Id, x: real, y: real)
    requires TwoMatches(view, providers, p, a, b, x, y)
    ensures RecallOf(view, providers)(p, Fuzzy) == Some([Recalled(a, Some(x)), Recalled(b, Some(y))])
  {
    var first, second := Offer(a, Fuzzy, Some(x)), Offer(b, Fuzzy, Some(y));
    var offers, found := [first, second], [Recalled(a, Some(x)), Recalled(b, Some(y))];
    hide ValidView;
    assert offers[..1] == [first] && [first][..0] == [];
    assert Kept([], view.visible, Fuzzy) == [];
    assert Kept([first], view.visible, Fuzzy) == [] + [found[0]] == [found[0]];
    assert Kept(offers, view.visible, Fuzzy) == [found[0]] + [found[1]] == found;
    assert FirstOf(found, providers.limits(Fuzzy)) == found;
  }

  lemma TwoContribute(view: View, providers: Providers, p: PlanSignal, a: Id, b: Id, x: real, y: real, c: Contribution)
    requires TwoMatches(view, providers, p, a, b, x, y)
    ensures Contributed(c, [p], {Fuzzy}, RecallOf(view, providers)) <==>
              c == Contribute(p.signal, Fuzzy, a, Some(x)) || c == Contribute(p.signal, Fuzzy, b, Some(y))
  {
    TwoFound(view, providers, p, a, b, x, y);
    hide ValidView, RecallOf, Contribute;
    var recall, found := RecallOf(view, providers), [Recalled(a, Some(x)), Recalled(b, Some(y))];
    assert found[0] in found && found[1] in found && forall r | r in found :: r == found[0] || r == found[1];
    assert forall capability :: Used(p, {Fuzzy}, recall, capability) <==> capability == Fuzzy;
    assert p in [p];
    assert FoundBy(c, p, {Fuzzy}, recall, Fuzzy) <==> FoundAs(c, p.signal, Fuzzy, found);
  }

  /** A group with one record found scores what that contributes. */
  lemma OneFoundScores(r: Ranked, g: Candidate, contributions: seq<Contribution>, policy: RepresentativePolicy,
                       c: Contribution)
    requires IsRanked(r, g, contributions, policy) && c.amount >= 0.0
    requires forall x :: x in contributions && x.id in g.members <==> x == c
    ensures r.key == g.key && r.score == c.amount
  {
    forall x ensures x in r.items <==> x == c {
      ItemsMeaning(g.members, contributions, x);
      assert x in r.items <==> x in multiset(r.items);
      assert x in ItemsOf(g.members, contributions) <==> x in multiset(ItemsOf(g.members, contributions));
    }
    hide IsRanked, Score, ItemsOf;
    assert c in r.items;
    OneSignalScore(r.items, c.signal);
  }

  /** The record found in a group, and what it contributes. */
  ghost function MatchIn(view: View, p: PlanSignal, a: Id, b: Id, x: real, y: real, key: GroupKey): Contribution
    requires a in view.homes
  {
    if key == view.homes[a] then Contribute(p.signal, Fuzzy, a, Some(x)) else Contribute(p.signal, Fuzzy, b, Some(y))
  }

  lemma TwoHitKeys(view: View, contributions: seq<Contribution>, hits: seq<Hit>, signals: seq<Signal>,
                   ca: Contribution, cb: Contribution)
    requires (forall c :: c in contributions <==> c == ca || c == cb) &&
             Recalls(contributions, hits, signals, view.visible)
    requires ca.id in view.homes && cb.id in view.homes
    ensures HitKeys(hits, view.homes) == {view.homes[ca.id], view.homes[cb.id]}
  {
    hide FromPlan;
    assert HitOf(ca) in hits && HitOf(cb) in hits;
    assert forall h | h in hits :: h == HitOf(ca) || h == HitOf(cb);
  }

  lemma TwoGroups(view: View, providers: Providers, p: PlanSignal, a: Id, b: Id, x: real, y: real,
                  contributions: seq<Contribution>, hits: seq<Hit>, candidates: seq<Candidate>)
    requires TwoMatches(view, providers, p, a, b, x, y)
    requires forall c :: c in contributions <==>
               c == Contribute(p.signal, Fuzzy, a, Some(x)) || c == Contribute(p.signal, Fuzzy, b, Some(y))
    requires Recalls(contributions, hits, [p.signal], view.visible) &&
             Organized(candidates, hits, view.groups, view.homes)
    ensures |candidates| == 2 && (forall g | g in candidates :: g.key in {view.homes[a], view.homes[b]})
    ensures forall g, c | g in candidates ::
              c in contributions && c.id in g.members <==> c == MatchIn(view, p, a, b, x, y, g.key)
  {
    hide Contribute, Recalls, HitKeys, GroupsOf, HomesOf, IsCandidate, QueryIndex.Indexes;
    var ca, cb := Contribute(p.signal, Fuzzy, a, Some(x)), Contribute(p.signal, Fuzzy, b, Some(y));
    ContributionMeaning(p.signal, Fuzzy, a, Some(x));
    ContributionMeaning(p.signal, Fuzzy, b, Some(y));
    TwoHitKeys(view, contributions, hits, [p.signal], ca, cb);
    TwoKeys(view.homes[a], view.homes[b]);
    CandidatesAreGroups(candidates, hits, view);
    GroupsPartition(view.corpus, a);
    GroupsPartition(view.corpus, b);
  }

  lemma CandidatesAreGroups(candidates: seq<Candidate>, hits: seq<Hit>, view: View)
    requires Organized(candidates, hits, view.groups, view.homes)
    ensures forall g | g in candidates ::
              g.key in HitKeys(hits, view.homes) && g.key in view.groups && g.members == view.groups[g.key]
  {
    hide HitKeys, InOrder, In;
    forall g | g in candidates
      ensures g.key in HitKeys(hits, view.homes) && g.key in view.groups && g.members == view.groups[g.key]
    {
      assert IsCandidate(g, hits, view.groups, view.homes);
      var i :| 0 <= i < |candidates| && candidates[i] == g;
      assert g.key in Ordering.Sorted(HitKeys(hits, view.homes));
    }
  }

  lemma TwoKeys(k: GroupKey, l: GroupKey)
    requires k != l
    ensures |{k, l}| == 2
  {
  }

  lemma SignalsOfOne(p: PlanSignal)
    ensures SignalsIn([p]) == [p.signal]
  {
  }

  lemma TwoScores(view: View, providers: Providers, p: PlanSignal, a: Id, b: Id, x: real, y: real,
                  contributions: seq<Contribution>, candidates: seq<Candidate>, ranked: seq<Ranked>,
                  representatives: RepresentativePolicy)
    requires TwoMatches(view, providers, p, a, b, x, y) && |candidates| == 2
    requires forall g | g in candidates :: g.key in {view.homes[a], view.homes[b]}
    requires forall g, c | g in candidates ::
               c in contributions && c.id in g.members <==> c == MatchIn(view, p, a, b, x, y, g.key)
    requires AllRanked(ranked, candidates, contributions, representatives)
    ensures |ranked| == 2 && ranked[0].key == candidates[0].key && ranked[1].key == candidates[1].key
    ensures forall r | r in ranked ::
              r.key in {view.homes[a], view.homes[b]} && r.score == MatchIn(view, p, a, b, x, y, r.key).amount
  {
    hide ValidView, Contribute, IsRanked;
    ContributionIsBounded(p.signal, Fuzzy, a, Some(x));
    ContributionIsBounded(p.signal, Fuzzy, b, Some(y));
    hide TwoMatches;
    forall i | 0 <= i < |ranked| ensures && ranked[i].key == candidates[i].key
                                         && ranked[i].score == MatchIn(view, p, a, b, x, y, ranked[i].key).amount {
      var g := candidates[i];
      assert g in candidates && IsRanked(ranked[i], g, contributions, representatives);
      OneFoundScores(ranked[i], g, contributions, representatives, MatchIn(view, p, a, b, x, y, g.key));
    }
  }

  lemma AllAreReturned(ranked: seq<Ranked>, limit: nat)
    requires |ranked| <= limit
    ensures var top := FirstOf(SortBy(WeightedSignalSum, ranked), limit);
            |top| == |ranked| && forall r :: r in top <==> r in ranked
  {
    hide ByPolicy;
    ByPolicyIsOrder(WeightedSignalSum);
    SortedMembers(ByPolicy(WeightedSignalSum), ranked);
  }

  /** Two groups of different keys and scores are returned with the higher score first. */
  lemma OrderOfTwo(groups: seq<Ranked>, ranked: seq<Ranked>)
    requires |ranked| == 2 == |groups| && (forall r :: r in groups <==> r in ranked)
    requires ranked[0].key != ranked[1].key && InOrder(ByPolicy(WeightedSignalSum), groups) && Differ(groups)
    ensures groups[0] in ranked && groups[1] in ranked && groups[0].key != groups[1].key &&
            groups[0].score >= groups[1].score
  {
    hide ByPolicy;
    assert groups[0] in groups && groups[1] in groups && groups[0] != groups[1];
    assert forall r | r in ranked :: r == ranked[0] || r == ranked[1];
    PolicyMeaning(WeightedSignalSum, groups[0], groups[1]);
  }

  /** All groups ranked for such a text: the two, with their scores. */
  lemma TwoAreRanked(groups: seq<Ranked>, view: View, providers: Providers, p: PlanSignal, a: Id, b: Id, x: real,
                     y: real,
                     limit: nat, representatives: RepresentativePolicy) returns (ranked: seq<Ranked>)
    requires TwoMatches(view, providers, p, a, b, x, y)
    requires IsAnswer(groups, [p], {Fuzzy}, view, providers, limit, WeightedSignalSum, representatives)
    ensures |ranked| == 2 && ranked[0].key != ranked[1].key &&
            groups == FirstOf(SortBy(WeightedSignalSum, ranked), limit)
    ensures forall r | r in ranked ::
              r.key in {view.homes[a], view.homes[b]} && r.score == MatchIn(view, p, a, b, x, y, r.key).amount
  {
    hide ValidView, Contributed, RecallOf, Sound, Recalls, Organized, SortBy, Contribute, IsRanked, FirstOf, Differ,
         InOrder,
         MatchIn, ByPolicy;
    SignalsOfOne(p);
    var contributions, hits, candidates;
    contributions, hits, candidates, ranked :|
      && (forall c :: c in contributions <==> Contributed(c, [p], {Fuzzy}, RecallOf(view, providers)))
      && Recalls(contributions, hits, [p.signal], view.visible)
      && Organized(candidates, hits, view.groups, view.homes)
      && AllRanked(ranked, candidates, contributions, representatives)
      && groups == FirstOf(SortBy(WeightedSignalSum, ranked), limit);
    forall c ensures c in contributions <==>
                     c == Contribute(p.signal, Fuzzy, a, Some(x)) || c == Contribute(p.signal, Fuzzy, b, Some(y)) {
      TwoContribute(view, providers, p, a, b, x, y, c);
    }
    TwoGroups(view, providers, p, a, b, x, y, contributions, hits, candidates);
    TwoScores(view, providers, p, a, b, x, y, contributions, candidates, ranked, representatives);
    CandidateKeysDiffer(candidates, hits, view.groups, view.homes, 0, 1);
  }

  /** Of two groups a text finds, the one with the better match comes first, each with its share of the signal's
    * weight. */
  lemma BetterMatchComesFirst(groups: seq<Ranked>, view: View, providers: Providers, p: PlanSignal, a: Id, b: Id,
                              x: real,
                              y: real, limit: nat, representatives: RepresentativePolicy)
    requires TwoMatches(view, providers, p, a, b, x, y) && limit >= 2
    requires IsAnswer(groups, [p], {Fuzzy}, view, providers, limit, WeightedSignalSum, representatives)
    ensures |groups| == 2
    ensures groups[0].key == view.homes[b] && groups[0].score == y * p.signal.weight
    ensures groups[1].key == view.homes[a] && groups[1].score == x * p.signal.weight
  {
    hide ValidView, Contribute, SortBy, FirstOf, ByPolicy, Sound, Organized, Recalls, AllRanked, Contributed, Differ,
         InOrder,
         RecallOf;
    var ranked := TwoAreRanked(groups, view, providers, p, a, b, x, y, limit, representatives);
    AllAreReturned(ranked, limit);
    ContributionMeaning(p.signal, Fuzzy, a, Some(x));
    ContributionMeaning(p.signal, Fuzzy, b, Some(y));
    BetterMatchContributesMore(p.signal, Fuzzy, a, b, x, y);
    OrderOfTwo(groups, ranked);
  }
}
