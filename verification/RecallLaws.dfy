/** What a plan recalls and how a group presents it, told by the records, the offers and the plan. */
module RecallLaws {
  import opened Prelude
  import Ordering
  import opened QueryExecution
  import QueryIndex
  import opened Ranking
  import opened Sorting

  /** Offers are kept one by one, in the order offered. */
  lemma {:induction false} KeptConcat(a: seq<Offer>, b: seq<Offer>, visible: set<Id>, capability: Capability)
    ensures Kept(a + b, visible, capability) == Kept(a, visible, capability) + Kept(b, visible, capability)
    decreases |b|
  {
    if b == [] {
      assert a + b == a;
    } else {
      KeptConcat(a, b[..|b| - 1], visible, capability);
      assert (a + b)[..|a + b| - 1] == a + b[..|b| - 1];
    }
  }

  /** What is kept is what is offered of the visible records under the capability asked for, with its score. */
  lemma {:induction false} KeptMeaning(offers: seq<Offer>, visible: set<Id>, capability: Capability, r: Recalled)
    ensures r in Kept(offers, visible, capability) <==>
            r.id in visible && Offer(r.id, capability, r.score) in offers
    decreases |offers|
  {
    if offers != [] {
      KeptMeaning(offers[..|offers| - 1], visible, capability, r);
      assert offers == offers[..|offers| - 1] + [offers[|offers| - 1]];
    }
  }

  /** A text finds what a ready provider offers of the visible records, up to the limit; without such a provider the
    * capability is not available. */
  lemma TextFinds(view: View, providers: Providers, p: PlanSignal, capability: Capability, r: Recalled)
    requires p.query.Text?
    ensures var found := Found(view, providers, p, capability);
            var limit := providers.limits(capability);
            && (found.Some? <==> capability in view.ready && capability in providers.of)
            && (found.Some? ==>
                var offers := providers.of[capability](p.query.text, p.signal.id, limit);
                && |found.value| <= limit
                && (r in found.value ==> r.id in view.visible && Offer(r.id, capability, r.score) in offers)
                && (|offers| <= limit ==>
                    (r in found.value <==> r.id in view.visible && Offer(r.id, capability, r.score) in offers)))
  {
    if capability in view.ready && capability in providers.of {
      var offers := providers.of[capability](p.query.text, p.signal.id, providers.limits(capability));
      KeptMeaning(offers, view.visible, capability, r);
      KeptIsNoLonger(offers, view.visible, capability);
    }
  }

  lemma {:induction false} KeptIsNoLonger(offers: seq<Offer>, visible: set<Id>, capability: Capability)
    ensures |Kept(offers, visible, capability)| <= |offers|
    decreases |offers|
  {
    if offers != [] { KeptIsNoLonger(offers[..|offers| - 1], visible, capability); }
  }

  /** A field and value find, without a score, the visible records that have that value there, up to the limit. */
  lemma ClauseFinds(view: View, providers: Providers, p: PlanSignal, capability: Capability, r: Recalled)
    requires p.query.Clause?
    ensures var found := Found(view, providers, p, capability);
            var matching := QueryIndex.Scan(view.entries, view.visible, map[p.query.field := p.query.value]);
            && found.Some? && |found.value| == (if |matching| <= providers.limits(capability) then |matching|
                                                 else providers.limits(capability))
            && (r in found.value ==> r.score == None && r.id in matching)
            && (|matching| <= providers.limits(capability) ==>
                (r in found.value <==> r.score == None && r.id in matching))
  {
    hide QueryIndex.Scan;
    var matching := QueryIndex.Scan(view.entries, view.visible, map[p.query.field := p.query.value]);
    var ids := Ordering.Sorted(matching);
    Ordering.SortedIsAscending(matching);
    SortedIsAsMany(matching);
    var top := FirstOf(ids, providers.limits(capability));
    UnscoredMeaning(top, r);
  }

  lemma UnscoredMeaning(ids: seq<Id>, r: Recalled)
    ensures |Unscored(ids)| == |ids| && (r in Unscored(ids) <==> r.score == None && r.id in ids)
  {
    var all := Unscored(ids);
    assert forall i | 0 <= i < |ids| :: all[i] == Recalled(ids[i], None);
    if r.score == None && r.id in ids {
      var i :| 0 <= i < |ids| && ids[i] == r.id;
      assert all[i] == r;
    }
  }

  lemma {:induction false} SortedIsAsMany(ids: set<Id>)
    ensures |Ordering.Sorted(ids)| == |ids|
    decreases |ids|
  {
    if ids != {} { SortedIsAsMany(ids - {Ordering.Least(ids)}); }
  }

  /** Fields are looked up exactly; texts are recalled through the fuzzy and the semantic provider. */
  ghost predicate Suits(p: PlanSignal, capability: Capability) {
    match p.query
    case Clause(_, _) => capability == Exact
    case Text(_) => capability == Fuzzy || capability == Semantic
  }

  /** A record that a signal of the plan finds through a configured capability that suits it. */
  ghost predicate IsMatch(plan: seq<PlanSignal>, configured: set<Capability>, view: View, providers: Providers,
                          p: PlanSignal, capability: Capability, r: Recalled) {
    && p in plan && capability in configured && Suits(p, capability)
    && Found(view, providers, p, capability).Some? && r in Found(view, providers, p, capability).value
  }

  /** What a plan recalls: every match under every signal and capability, and nothing else. */
  lemma ContributedIff(plan: seq<PlanSignal>, configured: set<Capability>, view: View, providers: Providers,
                       c: Contribution)
    ensures Contributed(c, plan, configured, RecallOf(view, providers)) <==>
            exists p, capability, r :: IsMatch(plan, configured, view, providers, p, capability, r)
                                       && c == Contribute(p.signal, capability, r.id, r.score)
  {
    hide Found, Contribute;
    var recall := RecallOf(view, providers);
    if Contributed(c, plan, configured, recall) {
      var p, capability :| p in plan && FoundBy(c, p, configured, recall, capability);
      var r :| r in recall(p, capability).value && c == Contribute(p.signal, capability, r.id, r.score);
      assert IsMatch(plan, configured, view, providers, p, capability, r);
    }
    forall p, capability, r | IsMatch(plan, configured, view, providers, p, capability, r)
                              && c == Contribute(p.signal, capability, r.id, r.score)
      ensures Contributed(c, plan, configured, recall) {
      assert FoundAs(c, p.signal, capability, recall(p, capability).value);
      assert FoundBy(c, p, configured, recall, capability);
    }
  }

  /** A group shows its contributions best first, and is represented by its best match or, where several are best, by
    * the one with the least id. */
  lemma BestFirst(r: Ranked, c: Candidate, contributions: seq<Contribution>)
    requires IsRanked(r, c, contributions, MatchedFirst)
    ensures forall i, j | 0 <= i < j < |r.items| :: r.items[i].amount >= r.items[j].amount
    ensures c.hits != [] ==>
            exists h :: h in c.hits && h.id == r.representative
                        && (forall x | x in c.hits :: x.amount <= h.amount)
                        && (forall x | x in c.hits && x.amount == h.amount :: Ordering.Le(h.id, x.id))
    ensures forall x :: x in r.items <==> x in contributions && x.id in c.members
  {
    if c.hits != [] {
      var h :| h in c.hits && h.id == r.representative && forall x | x in c.hits :: Before(h, x);
      assert forall x | x in c.hits :: Before(h, x) ==> x.amount <= h.amount;
    }
    forall x ensures x in r.items <==> x in contributions && x.id in c.members {
      ItemsMeaning(c.members, contributions, x);
      assert x in r.items <==> x in multiset(r.items);
      assert x in ItemsOf(c.members, contributions) <==> x in multiset(ItemsOf(c.members, contributions));
    }
    assert forall a, b :: ItemLe(a, b) ==> a.amount >= b.amount;
  }
}
