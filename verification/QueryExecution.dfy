/** Running a weighted plan over one view: recall every signal, organize the hits into repeat groups, and rank them. */
module QueryExecution {
  import opened Prelude
  import Ordering
  import QueryIndex
  import opened Ranking
  import opened Sorting

  /** A record found for a signal; exact lookups give no score. */
  datatype Recalled = Recalled(id: Id, score: Option<real>)

  datatype Query = Clause(field: QueryIndex.Field, value: QueryIndex.Value) | Text(text: string)

  /** A signal of a plan: a field and value to look up exactly, or a text to recall. */
  datatype PlanSignal = PlanSignal(signal: Signal, query: Query)

  /** What each signal finds through each capability; none when the capability is not available. */
  type Recall = (PlanSignal, Capability) -> Option<seq<Recalled>>

  // ---- one view and what it finds ----

  /** A view: its records as lookups and groups know them, and the part of them it shows. */
  datatype View = View(
    entries: seq<QueryIndex.Entry>,
    index: QueryIndex.Index,
    corpus: seq<Member>,
    groups: map<GroupKey, seq<Id>>,
    homes: map<Id, GroupKey>,
    visible: set<Id>,
    hashes: map<Id, string>,
    ready: set<Capability>)

  ghost predicate ValidView(view: View) {
    && QueryIndex.Indexes(view.index, view.entries) && QueryIndex.DistinctIds(view.entries)
    && (forall id | id in view.visible :: exists e :: e in view.entries && e.id == id)
    && DistinctIds(view.corpus) && view.groups == GroupsOf(view.corpus) && view.homes == HomesOf(view.corpus)
  }

  /** What a provider returns, which may be any record under any capability. */
  datatype Offer = Offer(id: Id, capability: Capability, score: Option<real>)

  /** A provider is asked with a text, the signal it is for, and a limit. */
  type Provider = (string, SignalId, nat) -> seq<Offer>

  datatype Providers = Providers(of: map<Capability, Provider>, limits: Capability -> nat)

  predicate Keeps(o: Offer, visible: set<Id>, capability: Capability) {
    o.id in visible && o.capability == capability
  }

  /** Of what was offered, what is visible and of the capability asked for, in the order offered. */
  function Kept(offers: seq<Offer>, visible: set<Id>, capability: Capability): seq<Recalled> {
    if offers == [] then []
    else
      var last := offers[|offers| - 1];
      Kept(offers[..|offers| - 1], visible, capability)
      + (if Keeps(last, visible, capability) then [Recalled(last.id, last.score)] else [])
  }

  lemma {:induction false} KeptIsVisible(offers: seq<Offer>, visible: set<Id>, capability: Capability)
    ensures forall r | r in Kept(offers, visible, capability) :: r.id in visible
    decreases |offers|
  {
    if offers != [] { KeptIsVisible(offers[..|offers| - 1], visible, capability); }
  }

  method FilterOffers(offers: seq<Offer>, visible: set<Id>, capability: Capability) returns (found: seq<Recalled>)
    ensures found == Kept(offers, visible, capability)
  {
    found := [];
    for i := 0 to |offers|
      invariant found == Kept(offers[..i], visible, capability)
    {
      assert offers[..i + 1][..i] == offers[..i];
      if Keeps(offers[i], visible, capability) {
        found := found + [Recalled(offers[i].id, offers[i].score)];
      }
    }
    assert offers[..|offers|] == offers;
  }

  function Unscored(ids: seq<Id>): seq<Recalled> {
    seq(|ids|, i requires 0 <= i < |ids| => Recalled(ids[i], None))
  }

  /** What a signal finds: by a scan of the visible records, or what a provider that is ready offers of them. */
  function Found(view: View, providers: Providers, p: PlanSignal, capability: Capability): Option<seq<Recalled>> {
    var limit := providers.limits(capability);
    match p.query
    case Clause(field, value) =>
      var matching := QueryIndex.Scan(view.entries, view.visible, map[field := value]);
      Some(Unscored(FirstOf(Ordering.Sorted(matching), limit)))
    case Text(text) =>
      if capability !in view.ready || capability !in providers.of then None
      else Some(FirstOf(Kept(providers.of[capability](text, p.signal.id, limit), view.visible, capability), limit))
  }

  function RecallOf(view: View, providers: Providers): Recall {
    (p: PlanSignal, capability: Capability) => Found(view, providers, p, capability)
  }

  /** Find what a signal asks for, through the index or a provider. */
  method Find(view: View, providers: Providers, p: PlanSignal, capability: Capability)
    returns (found: Option<seq<Recalled>>)
    requires ValidView(view)
    ensures found == RecallOf(view, providers)(p, capability)
  {
    hide QueryIndex.Indexes, QueryIndex.DistinctIds, GroupsOf, HomesOf, DistinctIds, FirstOf, Kept;
    var limit := providers.limits(capability);
    match p.query {
      case Clause(field, value) =>
        var ids := QueryIndex.Lookup(view.index, view.entries, view.visible, map[field := value], limit);
        found := Some(Unscored(ids.value));
      case Text(text) =>
        if capability !in view.ready || capability !in providers.of {
          return None;
        }
        var kept := FilterOffers(providers.of[capability](text, p.signal.id, limit), view.visible, capability);
        found := Some(FirstOf(kept, limit));
    }
  }

  /** Whatever a provider offers, only visible records are found. */
  lemma FoundIsVisible(view: View, providers: Providers)
    ensures ShowsVisible(RecallOf(view, providers), view.visible)
  {
    forall p, capability | Found(view, providers, p, capability).Some?
      ensures forall r | r in Found(view, providers, p, capability).value :: r.id in view.visible
    {
      match p.query {
        case Clause(field, value) =>
          ScanIsVisible(view, map[field := value]);
        case Text(text) =>
          KeptIsVisible(providers.of[capability](text, p.signal.id, providers.limits(capability)), view.visible,
            capability);
      }
    }
  }

  lemma ScanIsVisible(view: View, where: map<QueryIndex.Field, QueryIndex.Value>)
    ensures forall id | id in Ordering.Sorted(QueryIndex.Scan(view.entries, view.visible, where)) :: id in view.visible
  {
    hide QueryIndex.Matches;
  }

  // ---- recall ----

  /** A hit weighted by its signal. */
  datatype Hit = Hit(id: Id, capability: Capability, amount: real)

  function HitOf(c: Contribution): Hit {
    Hit(c.id, c.capability, c.amount)
  }

  function SignalsIn(plan: seq<PlanSignal>): seq<Signal> {
    seq(|plan|, i requires 0 <= i < |plan| => plan[i].signal)
  }

  /** The hits are those of the contributions, and every one of them is visible. */
  ghost predicate Recalls(contributions: seq<Contribution>, hits: seq<Hit>, signals: seq<Signal>, visible: set<Id>) {
    && FromPlan(contributions, signals)
    && (forall c | c in contributions :: HitOf(c) in hits)
    && (forall h | h in hits :: h.id in visible && exists c :: c in contributions && HitOf(c) == h)
  }

  ghost predicate ShowsVisible(recall: Recall, visible: set<Id>) {
    forall s, c | recall(s, c).Some? :: forall r | r in recall(s, c).value :: r.id in visible
  }

  lemma RecallsMore(contributions: seq<Contribution>, hits: seq<Hit>, signals: seq<Signal>,
                    visible: set<Id>, c: Contribution, s: Signal)
    requires Recalls(contributions, hits, signals, visible) && s in signals && IsFrom(c, s) && c.id in visible
    ensures Recalls(contributions + [c], hits + [HitOf(c)], signals, visible)
  {
    var contributions', hits' := contributions + [c], hits + [HitOf(c)];
    assert forall x :: x in contributions' <==> x in contributions || x == c;
    assert forall h :: h in hits' <==> h in hits || h == HitOf(c);
    forall h | h in hits' ensures exists x :: x in contributions' && HitOf(x) == h {
      if h in hits {
        var x :| x in contributions && HitOf(x) == h;
        assert x in contributions';
      } else {
        assert c in contributions' && HitOf(c) == h;
      }
    }
    hide IsFrom;
  }

  /** Weight each record found for one signal through one capability. */
  method WeighAll(signal: Signal, capability: Capability, found: seq<Recalled>, contributions: seq<Contribution>,
                  hits: seq<Hit>,
                  ghost signals: seq<Signal>, ghost visible: set<Id>)
                    returns (contributions': seq<Contribution>, hits': seq<Hit>)
    requires Recalls(contributions, hits, signals, visible) && signal in signals &&
             forall r | r in found :: r.id in visible
    ensures Recalls(contributions', hits', signals, visible)
    ensures forall c :: c in contributions' <==> c in contributions || FoundAs(c, signal, capability, found)
  {
    hide Recalls, Contribute, HitOf;
    contributions', hits' := contributions, hits;
    var i := 0;
    while i < |found|
      invariant 0 <= i <= |found| && Recalls(contributions', hits', signals, visible)
      invariant forall c :: c in contributions' <==> c in contributions || FoundAs(c, signal, capability, found[..i])
    {
      var r := found[i];
      var c := Contribute(signal, capability, r.id, r.score);
      assert r in found;
      ContributedIsFrom(signal, capability, r);
      RecallsMore(contributions', hits', signals, visible, c, signal);
      FoundMore(signal, capability, found, i);
      contributions', hits' := contributions' + [c], hits' + [HitOf(c)];
      i := i + 1;
    }
    assert found[..i] == found;
  }

  /** What some record found contributes. */
  ghost predicate FoundAs(c: Contribution, signal: Signal, capability: Capability, found: seq<Recalled>) {
    exists r :: r in found && c == Contribute(signal, capability, r.id, r.score)
  }

  lemma FoundMore(signal: Signal, capability: Capability, found: seq<Recalled>, i: nat)
    requires i < |found|
    ensures forall c :: FoundAs(c, signal, capability, found[..i + 1])
              <==> FoundAs(c, signal, capability, found[..i])
                   || c == Contribute(signal, capability, found[i].id, found[i].score)
  {
    hide Contribute;
    var before, after, last := found[..i], found[..i + 1], found[i];
    assert last in after && forall r :: r in after <==> r in before || r == last;
    forall c
      ensures FoundAs(c, signal, capability, after) <==>
                FoundAs(c, signal, capability, before) || c == Contribute(signal, capability, last.id, last.score)
    {
      if FoundAs(c, signal, capability, after) {
        var r :| r in after && c == Contribute(signal, capability, r.id, r.score);
        assert r == last || r in before;
      }
      if FoundAs(c, signal, capability, before) {
        var r :| r in before && c == Contribute(signal, capability, r.id, r.score);
        assert r in after;
      }
    }
  }

  lemma ContributedIsFrom(signal: Signal, capability: Capability, r: Recalled)
    ensures var c := Contribute(signal, capability, r.id, r.score); IsFrom(c, signal) && c.id == r.id
  {
    var c := Contribute(signal, capability, r.id, r.score);
    assert c == Contribute(signal, c.capability, c.id, r.score);
  }

  /** What a record found for some signal of the plan, through a capability it is recalled through, contributes. */
  ghost predicate Contributed(c: Contribution, plan: seq<PlanSignal>, configured: set<Capability>, recall: Recall) {
    exists p, capability :: p in plan && FoundBy(c, p, configured, recall, capability)
  }

  ghost predicate FoundBy(c: Contribution, p: PlanSignal,
                          configured: set<Capability>, recall: Recall, capability: Capability) {
    Used(p, configured, recall, capability) && FoundAs(c, p.signal, capability, recall(p, capability).value)
  }

  function Fitting(p: PlanSignal): seq<Capability> {
    if p.query.Clause? then [Exact] else [Fuzzy, Semantic]
  }

  ghost predicate FoundByOne(c: Contribution, p: PlanSignal,
                             configured: set<Capability>, recall: Recall, capabilities: seq<Capability>) {
    exists capability :: capability in capabilities && FoundBy(c, p, configured, recall, capability)
  }

  lemma FoundByMore(p: PlanSignal, configured: set<Capability>, recall: Recall, capabilities: seq<Capability>, k: nat)
    requires k < |capabilities|
    ensures forall c :: FoundByOne(c, p, configured, recall, capabilities[..k + 1])
              <==> FoundByOne(c, p, configured, recall, capabilities[..k])
                   || FoundBy(c, p, configured, recall, capabilities[k])
  {
    hide FoundBy;
    var before, after, last := capabilities[..k], capabilities[..k + 1], capabilities[k];
    assert last in after && forall x :: x in after <==> x in before || x == last;
    forall c
      ensures FoundByOne(c, p, configured, recall, after) <==>
                FoundByOne(c, p, configured, recall, before) || FoundBy(c, p, configured, recall, last)
    {
      if FoundByOne(c, p, configured, recall, before) {
        var capability :| capability in before && FoundBy(c, p, configured, recall, capability);
        assert capability in after;
      }
    }
  }

  lemma FoundByFitting(p: PlanSignal, configured: set<Capability>, recall: Recall)
    ensures forall c :: FoundByOne(c, p, configured, recall, Fitting(p)) <==>
            exists capability :: FoundBy(c, p, configured, recall, capability)
    ensures forall c :: !FoundByOne(c, p, configured, recall, [])
  {
    hide FoundAs;
  }

  /** The capabilities of a list that were tried for a signal, and answered or not. */
  function Tried(capabilities: seq<Capability>, p: PlanSignal, configured: set<Capability>, recall: Recall,
                 answered: bool): seq<Capability> {
    if capabilities == [] then []
    else
      var last := capabilities[|capabilities| - 1];
      Tried(capabilities[..|capabilities| - 1], p, configured, recall, answered)
      + (if last in configured && recall(p, last).Some? == answered then [last] else [])
  }

  lemma {:induction false} TriedMeaning(capabilities: seq<Capability>, p: PlanSignal, configured: set<Capability>,
                                        recall: Recall, answered: bool, c: Capability)
    ensures c in Tried(capabilities, p, configured, recall, answered) <==>
              c in capabilities && c in configured && recall(p, c).Some? == answered
    decreases |capabilities|
  {
    if capabilities != [] {
      TriedMeaning(capabilities[..|capabilities| - 1], p, configured, recall, answered, c);
      assert capabilities == capabilities[..|capabilities| - 1] + [capabilities[|capabilities| - 1]];
    }
  }

  function TriedInPlan(plan: seq<PlanSignal>, configured: set<Capability>, recall: Recall, answered: bool)
    : seq<Capability>
  {
    if plan == [] then []
    else
      var last := plan[|plan| - 1];
      TriedInPlan(plan[..|plan| - 1], configured, recall, answered)
      + Tried(Fitting(last), last, configured, recall, answered)
  }

  ghost predicate IsTried(p: PlanSignal, configured: set<Capability>, recall: Recall, answered: bool, c: Capability) {
    c in Fitting(p) && c in configured && recall(p, c).Some? == answered
  }

  lemma {:induction false} TriedInPlanMeaning(plan: seq<PlanSignal>, configured: set<Capability>, recall: Recall,
                                              answered: bool, c: Capability)
    ensures c in TriedInPlan(plan, configured, recall, answered) <==>
              exists p :: p in plan && IsTried(p, configured, recall, answered, c)
    decreases |plan|
  {
    if plan != [] {
      var rest, last := plan[..|plan| - 1], plan[|plan| - 1];
      TriedInPlanMeaning(rest, configured, recall, answered, c);
      TriedMeaning(Fitting(last), last, configured, recall, answered, c);
      hide Tried, Fitting;
      assert last in plan && forall p :: p in plan <==> p in rest || p == last;
    }
  }

  /** A list with each of its members once, where it first comes. */
  function Once(all: seq<Capability>): seq<Capability> {
    if all == [] then []
    else
      var rest, last := Once(all[..|all| - 1]), all[|all| - 1];
      if last in rest then rest else rest + [last]
  }

  lemma {:induction false} OnceMeaning(all: seq<Capability>)
    ensures Distinct(Once(all)) && forall c :: c in Once(all) <==> c in all
    decreases |all|
  {
    if all != [] {
      OnceMeaning(all[..|all| - 1]);
      assert all == all[..|all| - 1] + [all[|all| - 1]];
    }
  }

  /** What is known of a plan after some of its signals: what they contribute and hit, and what was tried for them. */
  datatype Progress = Progress(contributions: seq<Contribution>, hits: seq<Hit>, executed: seq<Capability>,
    unavailable: seq<Capability>)

  /** Recall one signal through each configured capability that fits it and is available. */
  method RecallSignal(p: PlanSignal, configured: set<Capability>, view: View, providers: Providers, before: Progress,
                      ghost signals: seq<Signal>) returns (after: Progress)
    requires ValidView(view) && p.signal in signals
    requires Recalls(before.contributions, before.hits, signals, view.visible)
    ensures Recalls(after.contributions, after.hits, signals, view.visible)
    ensures forall c :: c in after.contributions <==>
              c in before.contributions
              || exists capability :: FoundBy(c, p, configured, RecallOf(view, providers), capability)
    ensures after.executed == before.executed + Tried(Fitting(p), p, configured, RecallOf(view, providers), true)
    ensures after.unavailable == before.unavailable + Tried(Fitting(p), p, configured, RecallOf(view, providers), false)
  {
    hide Recalls, FoundAs, FoundByOne, ValidView, RecallOf, Fitting;
    ghost var recall := RecallOf(view, providers);
    FoundIsVisible(view, providers);
    FoundByFitting(p, configured, recall);
    after := before;
    var capabilities := Fitting(p);
    var k := 0;
    while k < |capabilities|
      invariant 0 <= k <= |capabilities| && Recalls(after.contributions, after.hits, signals, view.visible)
      invariant forall c :: c in after.contributions <==>
                c in before.contributions || FoundByOne(c, p, configured, recall, capabilities[..k])
      invariant after.executed == before.executed + Tried(capabilities[..k], p, configured, recall, true)
      invariant after.unavailable == before.unavailable + Tried(capabilities[..k], p, configured, recall, false)
    {
      var capability := capabilities[k];
      FoundByMore(p, configured, recall, capabilities, k);
      assert capability in capabilities && capabilities[..k + 1][..k] == capabilities[..k];
      if capability in configured {
        var found := Find(view, providers, p, capability);
        if found.Some? {
          var contributions, hits :=
            WeighAll(p.signal, capability, found.value, after.contributions, after.hits, signals, view.visible);
          after := Progress(contributions, hits, after.executed + [capability], after.unavailable);
        } else {
          after := after.(unavailable := after.unavailable + [capability]);
        }
      }
      assert Used(p, configured, recall, capability) <==> capability in configured && recall(p, capability).Some?;
      k := k + 1;
    }
    assert capabilities[..k] == capabilities;
  }

  /** Recall every signal of a plan. */
  method RecallPlan(plan: seq<PlanSignal>, configured: set<Capability>, view: View, providers: Providers)
    returns (all: Progress)
    requires ValidView(view)
    ensures Recalls(all.contributions, all.hits, SignalsIn(plan), view.visible)
    ensures forall c :: c in all.contributions <==> Contributed(c, plan, configured, RecallOf(view, providers))
    ensures all.executed == TriedInPlan(plan, configured, RecallOf(view, providers), true)
    ensures all.unavailable == TriedInPlan(plan, configured, RecallOf(view, providers), false)
  {
    hide Recalls, FoundBy, ValidView, RecallOf, Tried;
    ghost var recall := RecallOf(view, providers);
    all := Progress([], [], [], []);
    NothingRecalled(SignalsIn(plan), view.visible);
    var i := 0;
    while i < |plan|
      invariant 0 <= i <= |plan| && Recalls(all.contributions, all.hits, SignalsIn(plan), view.visible)
      invariant forall c :: c in all.contributions <==> Contributed(c, plan[..i], configured, recall)
      invariant all.executed == TriedInPlan(plan[..i], configured, recall, true)
      invariant all.unavailable == TriedInPlan(plan[..i], configured, recall, false)
    {
      assert SignalsIn(plan)[i] == plan[i].signal && plan[..i + 1][..i] == plan[..i];
      ContributedMore(plan, configured, recall, i);
      all := RecallSignal(plan[i], configured, view, providers, all, SignalsIn(plan));
      i := i + 1;
    }
    assert plan[..i] == plan;
  }

  lemma ContributedMore(plan: seq<PlanSignal>, configured: set<Capability>, recall: Recall, i: nat)
    requires i < |plan|
    ensures forall c :: Contributed(c, plan[..i + 1], configured, recall)
              <==> Contributed(c, plan[..i], configured, recall)
                   || exists capability :: FoundBy(c, plan[i], configured, recall, capability)
  {
    hide FoundBy;
    assert plan[i] in plan[..i + 1];
    assert forall p :: p in plan[..i + 1] <==> p in plan[..i] || p == plan[i];
    forall c | Contributed(c, plan[..i], configured, recall) ensures Contributed(c, plan[..i + 1], configured, recall) {
      var p, capability :| p in plan[..i] && FoundBy(c, p, configured, recall, capability);
      assert p in plan[..i + 1];
    }
  }

  /** Whether a signal is recalled through a capability: it fits, is configured and is available. */
  predicate Used(p: PlanSignal, configured: set<Capability>, recall: Recall, c: Capability) {
    c in Fitting(p) && c in configured && recall(p, c).Some?
  }

  lemma NothingRecalled(signals: seq<Signal>, visible: set<Id>)
    ensures Recalls([], [], signals, visible)
  {
  }

  // ---- organizing hits into groups ----

  /** A repeat group with at least one hit. */
  datatype Candidate = Candidate(key: GroupKey, members: seq<Id>, hits: seq<Hit>)

  predicate In(h: Hit, homes: map<Id, GroupKey>, key: GroupKey) {
    h.id in homes && homes[h.id] == key
  }

  function HitKeys(hits: seq<Hit>, homes: map<Id, GroupKey>): set<GroupKey> {
    set h | h in hits && h.id in homes :: homes[h.id]
  }

  /** The order of hits inside a group: by id, capability and, best first, score. */
  predicate HitLe(a: Hit, b: Hit) {
    if a.id != b.id then Ordering.Le(a.id, b.id)
    else if a.capability != b.capability then Priority(a.capability) < Priority(b.capability)
    else a.amount >= b.amount
  }

  lemma HitLeIsOrder()
    ensures IsOrder(HitLe)
  {
    forall a, b ensures HitLe(a, b) || HitLe(b, a) { Ordering.LeTotal(a.id, b.id); }
    forall a, b, c | HitLe(a, b) && HitLe(b, c) ensures HitLe(a, c) { HitLeChains(a, b, c); }
  }

  lemma HitLeChains(a: Hit, b: Hit, c: Hit)
    requires HitLe(a, b) && HitLe(b, c)
    ensures HitLe(a, c)
  {
    if a.id != b.id && b.id != c.id {
      Ordering.LeTransitive(a.id, b.id, c.id);
      if a.id == c.id { Ordering.LeAntisymmetric(a.id, b.id); }
    }
  }

  /** A group for each key hit, in key order, with all the group's members and its hits, each as often as there are. */
  ghost predicate Organized(candidates: seq<Candidate>, hits: seq<Hit>,
                            groups: map<GroupKey, seq<Id>>, homes: map<Id, GroupKey>) {
    && |candidates| == |HitKeys(hits, homes)|
    && (forall i | 0 <= i < |candidates| :: candidates[i].key == Ordering.Sorted(HitKeys(hits, homes))[i])
    && (forall c | c in candidates :: IsCandidate(c, hits, groups, homes))
  }

  ghost predicate IsCandidate(c: Candidate, hits: seq<Hit>, groups: map<GroupKey, seq<Id>>, homes: map<Id, GroupKey>) {
    && c.key in groups && c.members == groups[c.key] && c.hits != []
    && InOrder(HitLe, c.hits)
    && (forall h :: multiset(c.hits)[h] == if In(h, homes, c.key) then multiset(hits)[h] else 0)
  }

  /** The hits of one record, in order. */
  function HitsOf(hits: seq<Hit>, id: Id): seq<Hit> {
    if hits == [] then []
    else HitsOf(hits[..|hits| - 1], id) + (if hits[|hits| - 1].id == id then [hits[|hits| - 1]] else [])
  }

  lemma {:induction false} HitsOfCount(hits: seq<Hit>, id: Id, h: Hit)
    ensures multiset(HitsOf(hits, id))[h] == if h.id == id then multiset(hits)[h] else 0
    decreases |hits|
  {
    if hits != [] {
      HitsOfCount(hits[..|hits| - 1], id, h);
      assert hits == hits[..|hits| - 1] + [hits[|hits| - 1]];
    }
  }

  lemma HitsOfMore(hits: seq<Hit>, i: nat, id: Id)
    requires i < |hits|
    ensures HitsOf(hits[..i + 1], id) == HitsOf(hits[..i], id) + (if hits[i].id == id then [hits[i]] else [])
  {
    assert hits[..i + 1][..i] == hits[..i];
  }

  /** Exactly the records of the view that were hit, each with its hits. */
  ghost predicate FoundHits(found: map<Id, seq<Hit>>, hits: seq<Hit>, homes: map<Id, GroupKey>) {
    forall id :: (id in found <==> id in homes && HitsOf(hits, id) != []) &&
      (id in found ==> found[id] == HitsOf(hits, id))
  }

  method ByExperience(hits: seq<Hit>, homes: map<Id, GroupKey>) returns (found: map<Id, seq<Hit>>)
    ensures FoundHits(found, hits, homes)
  {
    found := map[];
    var i := 0;
    while i < |hits|
      invariant 0 <= i <= |hits| && FoundHits(found, hits[..i], homes)
    {
      hide HitsOf;
      var hit := hits[i];
      forall id ensures HitsOf(hits[..i + 1], id) ==
        HitsOf(hits[..i], id) + (if hits[i].id == id then [hits[i]] else []) {
        HitsOfMore(hits, i, id);
      }
      if hit.id in homes {
        found := found[hit.id := (if hit.id in found then found[hit.id] else []) + [hit]];
      }
      i := i + 1;
    }
    assert hits[..i] == hits;
  }

  /** Of the records done, the hits of each group, as often as there are. */
  ghost predicate GroupedHits(grouped: map<GroupKey, seq<Hit>>, hits: seq<Hit>,
                              homes: map<Id, GroupKey>, done: set<Id>) {
    && (forall k | k in grouped :: grouped[k] != [])
    && (forall k, h :: Count(grouped, k, h) == if In(h, homes, k) && h.id in done then multiset(hits)[h] else 0)
  }

  function Count(grouped: map<GroupKey, seq<Hit>>, k: GroupKey, h: Hit): nat {
    multiset(if k in grouped then grouped[k] else [])[h]
  }

  lemma CountMore(grouped: map<GroupKey, seq<Hit>>, hits: seq<Hit>, homes: map<Id, GroupKey>, done: set<Id>, id: Id,
                  k: GroupKey, h: Hit)
    requires GroupedHits(grouped, hits, homes, done) && id !in done && id in homes
    ensures var more := (if homes[id] in grouped then grouped[homes[id]] else []) + HitsOf(hits, id);
            Count(grouped[homes[id] := more], k, h) ==
            if In(h, homes, k) && h.id in done + {id} then multiset(hits)[h] else 0
  {
    hide HitsOf;
    assert Count(grouped, k, h) == if In(h, homes, k) && h.id in done then multiset(hits)[h] else 0;
    HitsOfCount(hits, id, h);
    hide GroupedHits;
    var before := if homes[id] in grouped then grouped[homes[id]] else [];
    assert multiset(before + HitsOf(hits, id)) == multiset(before) + multiset(HitsOf(hits, id));
  }

  lemma GroupMore(grouped: map<GroupKey, seq<Hit>>, hits: seq<Hit>, homes: map<Id, GroupKey>, done: set<Id>, id: Id)
    requires GroupedHits(grouped, hits, homes, done) && id !in done && id in homes && HitsOf(hits, id) != []
    ensures var more := (if homes[id] in grouped then grouped[homes[id]] else []) + HitsOf(hits, id);
            GroupedHits(grouped[homes[id] := more], hits, homes, done + {id})
  {
    hide HitsOf, Count, In;
    var more := (if homes[id] in grouped then grouped[homes[id]] else []) + HitsOf(hits, id);
    forall k, h ensures Count(grouped[homes[id] := more], k, h) ==
                        if In(h, homes, k) && h.id in done + {id} then multiset(hits)[h] else 0 {
      CountMore(grouped, hits, homes, done, id, k, h);
    }
  }

  method ByGroup(found: map<Id, seq<Hit>>, ghost hits: seq<Hit>, homes: map<Id, GroupKey>)
                 returns (grouped: map<GroupKey, seq<Hit>>)
    requires FoundHits(found, hits, homes)
    ensures GroupedHits(grouped, hits, homes, found.Keys)
  {
    hide GroupedHits, HitsOf;
    grouped := map[];
    NothingGrouped(hits, homes);
    var rest := found.Keys;
    ghost var done: set<Id> := {};
    while rest != {}
      invariant rest <= found.Keys && done == found.Keys - rest && GroupedHits(grouped, hits, homes, done)
      decreases rest
    {
      var id :| id in rest;
      GroupMore(grouped, hits, homes, done, id);
      grouped := grouped[homes[id] := (if homes[id] in grouped then grouped[homes[id]] else []) + found[id]];
      rest, done := rest - {id}, done + {id};
    }
    assert done == found.Keys;
  }

  lemma NothingGrouped(hits: seq<Hit>, homes: map<Id, GroupKey>)
    ensures GroupedHits(map[], hits, homes, {})
  {
  }

  /** All hits of each group, as often as there are. */
  ghost predicate GroupsHit(grouped: map<GroupKey, seq<Hit>>, hits: seq<Hit>, homes: map<Id, GroupKey>) {
    && grouped.Keys == HitKeys(hits, homes) && (forall k | k in grouped :: grouped[k] != [])
    && (forall k, h | k in grouped :: multiset(grouped[k])[h] == if In(h, homes, k) then multiset(hits)[h] else 0)
  }

  lemma FoundIsHit(found: map<Id, seq<Hit>>, hits: seq<Hit>, homes: map<Id, GroupKey>, h: Hit)
    requires FoundHits(found, hits, homes) && h in hits && h.id in homes
    ensures h.id in found
  {
    HitsOfCount(hits, h.id, h);
    assert h in multiset(hits);
    hide HitsOf;
    assert h in multiset(HitsOf(hits, h.id));
  }

  lemma AllGrouped(grouped: map<GroupKey, seq<Hit>>, found: map<Id, seq<Hit>>, hits: seq<Hit>, homes: map<Id, GroupKey>)
    requires FoundHits(found, hits, homes) && GroupedHits(grouped, hits, homes, found.Keys)
    ensures GroupsHit(grouped, hits, homes)
  {
    hide FoundHits, HitsOf;
    forall h | h in hits && h.id in homes ensures h.id in found { FoundIsHit(found, hits, homes, h); }
    forall k, h | k in grouped ensures multiset(grouped[k])[h] == if In(h, homes, k) then multiset(hits)[h] else 0 {
      assert Count(grouped, k, h) == multiset(grouped[k])[h];
      if In(h, homes, k) && h.id !in found.Keys { assert h !in hits; }
    }
    forall k | k in grouped ensures k in HitKeys(hits, homes) {
      var h := grouped[k][0];
      assert h in multiset(grouped[k]);
      assert h in multiset(hits) && In(h, homes, k);
    }
    forall k | k in HitKeys(hits, homes) ensures k in grouped {
      var h :| h in hits && h.id in homes && homes[h.id] == k;
      assert h in multiset(hits) && In(h, homes, k);
      assert Count(grouped, k, h) > 0;
    }
  }

  method Organize(hits: seq<Hit>, groups: map<GroupKey, seq<Id>>, homes: map<Id, GroupKey>)
                  returns (candidates: seq<Candidate>)
    requires forall id | id in homes :: homes[id] in groups
    ensures Organized(candidates, hits, groups, homes)
  {
    hide IsCandidate, HitKeys, GroupedHits, FoundHits, In;
    var found := ByExperience(hits, homes);
    var grouped := ByGroup(found, hits, homes);
    AllGrouped(grouped, found, hits, homes);
    KeysAreGroups(hits, groups, homes);
    candidates := CandidatesOf(grouped, hits, groups, homes);
  }

  /** One candidate for each group hit, in key order. */
  method CandidatesOf(grouped: map<GroupKey, seq<Hit>>, ghost hits: seq<Hit>, groups: map<GroupKey, seq<Id>>,
                      ghost homes: map<Id, GroupKey>) returns (candidates: seq<Candidate>)
    requires grouped.Keys <= groups.Keys && GroupsHit(grouped, hits, homes)
    ensures |candidates| == |grouped.Keys|
    ensures forall i | 0 <= i < |candidates| :: candidates[i].key == Ordering.Sorted(grouped.Keys)[i]
    ensures forall c | c in candidates :: IsCandidate(c, hits, groups, homes)
  {
    hide IsCandidate, GroupsHit;
    var keys := Ordering.Sorted(grouped.Keys);
    hide Ordering.Sorted;
    candidates := [];
    while |candidates| < |keys|
      invariant |candidates| <= |keys|
      invariant forall i | 0 <= i < |candidates| :: candidates[i].key == keys[i]
      invariant forall c | c in candidates :: IsCandidate(c, hits, groups, homes)
    {
      var key := keys[|candidates|];
      assert key in keys;
      var c := Candidate(key, groups[key], Sort(HitLe, grouped[key]));
      MakesCandidate(c, grouped, hits, groups, homes);
      candidates := candidates + [c];
    }
  }

  lemma KeysAreGroups(hits: seq<Hit>, groups: map<GroupKey, seq<Id>>, homes: map<Id, GroupKey>)
    requires forall id | id in homes :: homes[id] in groups
    ensures HitKeys(hits, homes) <= groups.Keys
  {
  }

  lemma MakesCandidate(c: Candidate, grouped: map<GroupKey, seq<Hit>>, hits: seq<Hit>, groups: map<GroupKey, seq<Id>>,
                       homes: map<Id, GroupKey>)
    requires GroupsHit(grouped, hits, homes) && c.key in grouped && c.key in groups
    requires c == Candidate(c.key, groups[c.key], Sort(HitLe, grouped[c.key]))
    ensures IsCandidate(c, hits, groups, homes)
  {
    hide In, HitLe;
    HitLeIsOrder();
    SortSorts(HitLe, grouped[c.key]);
    SortedMembers(HitLe, grouped[c.key]);
    hide Sort;
  }

  // ---- ranking ----

  datatype Policy = WeightedSignalSum | MaxHitScore | CapabilityPriority | ByGroupKey | Unsupported(name: string)

  datatype RepresentativePolicy = MatchedFirst | FirstMember

  datatype Ranked = Ranked(key: GroupKey, score: real, members: seq<Id>, representative: Id, items: seq<Contribution>)

  predicate Before(a: Hit, b: Hit) {
    a.amount > b.amount || (a.amount == b.amount && Ordering.Le(a.id, b.id))
  }

  method FirstHit(hits: seq<Hit>) returns (first: Hit)
    requires hits != []
    ensures first in hits && forall h | h in hits :: Before(first, h)
  {
    first := hits[0];
    var i := 1;
    Ordering.LeTotal(first.id, first.id);
    while i < |hits|
      invariant 1 <= i <= |hits| && first in hits && forall j | 0 <= j < i :: Before(first, hits[j])
    {
      if !Before(first, hits[i]) {
        forall j | 0 <= j < i ensures Before(hits[i], hits[j]) { BeforeChains(hits[i], first, hits[j]); }
        Ordering.LeTotal(hits[i].id, hits[i].id);
        first := hits[i];
      }
      i := i + 1;
    }
  }

  lemma BeforeChains(a: Hit, b: Hit, c: Hit)
    requires !Before(b, a) && Before(b, c)
    ensures Before(a, c)
  {
    Ordering.LeTotal(a.id, b.id);
    if Ordering.Le(a.id, b.id) && Ordering.Le(b.id, c.id) { Ordering.LeTransitive(a.id, b.id, c.id); }
  }

  /** All contributions of the given members, one member after the other. */
  function ItemsOf(members: seq<Id>, contributions: seq<Contribution>): seq<Contribution> {
    if members == [] then [] else OfOne(members[0], contributions) + ItemsOf(members[1..], contributions)
  }

  function OfOne(id: Id, contributions: seq<Contribution>): seq<Contribution> {
    if contributions == [] then []
    else (if contributions[0].id == id then [contributions[0]] else []) + OfOne(id, contributions[1..])
  }

  lemma {:induction false} OfOneMeaning(id: Id, contributions: seq<Contribution>, c: Contribution)
    ensures c in OfOne(id, contributions) <==> c in contributions && c.id == id
    decreases |contributions|
  {
    if contributions != [] {
      OfOneMeaning(id, contributions[1..], c);
      assert contributions == [contributions[0]] + contributions[1..];
    }
  }

  lemma {:induction false} ItemsMeaning(members: seq<Id>, contributions: seq<Contribution>, c: Contribution)
    ensures c in ItemsOf(members, contributions) <==> c in contributions && c.id in members
    decreases |members|
  {
    if members != [] {
      OfOneMeaning(members[0], contributions, c);
      ItemsMeaning(members[1..], contributions, c);
      assert members == [members[0]] + members[1..];
    }
  }

  method Sum(m: map<SignalId, real>) returns (total: real)
    ensures total == Total(m)
  {
    total := 0.0;
    var rest := m;
    while rest != map[]
      invariant total + Total(rest) == Total(m)
      decreases |rest|
    {
      var k :| k in rest;
      TotalWithout(rest, k);
      total := total + rest[k];
      rest := rest - {k};
    }
  }

  /** The order of a group's contributions: best first, then by signal and record. */
  predicate ItemLe(a: Contribution, b: Contribution) {
    if a.amount != b.amount then a.amount > b.amount
    else if a.signal != b.signal then Ordering.Le(a.signal, b.signal)
    else Ordering.Le(a.id, b.id)
  }

  lemma ItemLeIsOrder()
    ensures IsOrder(ItemLe)
  {
    forall a, b ensures ItemLe(a, b) || ItemLe(b, a) {
      Ordering.LeTotal(a.signal, b.signal);
      Ordering.LeTotal(a.id, b.id);
    }
    forall a, b, c | ItemLe(a, b) && ItemLe(b, c) ensures ItemLe(a, c) { ItemLeChains(a, b, c); }
  }

  lemma ItemLeChains(a: Contribution, b: Contribution, c: Contribution)
    requires ItemLe(a, b) && ItemLe(b, c)
    ensures ItemLe(a, c)
  {
    if Ordering.Le(a.signal, b.signal) && Ordering.Le(b.signal, c.signal) {
      Ordering.LeTransitive(a.signal, b.signal, c.signal);
      if a.signal == c.signal { Ordering.LeAntisymmetric(a.signal, b.signal); }
    }
    if Ordering.Le(a.id, b.id) && Ordering.Le(b.id, c.id) { Ordering.LeTransitive(a.id, b.id, c.id); }
  }

  ghost predicate IsRanked(r: Ranked, c: Candidate, contributions: seq<Contribution>, policy: RepresentativePolicy) {
    && r.key == c.key && r.members == c.members
    && InOrder(ItemLe, r.items) && multiset(r.items) == multiset(ItemsOf(c.members, contributions))
    && r.score == Score(r.items)
    && (policy.FirstMember? || c.hits == [] ==> c.members != [] && r.representative == c.members[0])
    && (policy.MatchedFirst? && c.hits != [] ==> exists h ::
      h in c.hits && h.id == r.representative && forall x | x in c.hits :: Before(h, x))
  }

  method RankOne(c: Candidate, contributions: seq<Contribution>, policy: RepresentativePolicy) returns (r: Ranked)
    requires c.members != []
    ensures IsRanked(r, c, contributions, policy)
  {
    var items := ItemsOf(c.members, contributions);
    var best := PerSignalLoop(items);
    var score := Sum(best);
    var representative := c.members[0];
    if policy.MatchedFirst? && c.hits != [] {
      var first := FirstHit(c.hits);
      representative := first.id;
    }
    r := Ranked(c.key, score, c.members, representative, Sort(ItemLe, items));
    ItemLeIsOrder();
    SortSorts(ItemLe, items);
    SortedMembers(ItemLe, items);
    ScoreIgnoresOrder(items, r.items);
  }

  /** What a group is ordered by, least first; the group key decides what is otherwise equal. */
  datatype Place = Place(first: real, second: real, key: GroupKey)

  function MaxAmount(items: seq<Contribution>): real {
    if items == [] then 0.0
    else if |items| == 1 then items[0].amount
    else
      var rest := MaxAmount(items[1..]);
      if items[0].amount > rest then items[0].amount else rest
  }

  function Priority(c: Capability): real {
    match c
    case Exact => 0.0
    case Filter => 1.0
    case Fuzzy => 2.0
    case Semantic => 3.0
  }

  function FirstPriority(items: seq<Contribution>): real {
    if items == [] then 4.0
    else
      var rest := FirstPriority(items[1..]);
      if Priority(items[0].capability) < rest then Priority(items[0].capability) else rest
  }

  function PlaceOf(policy: Policy, r: Ranked): Place {
    match policy
    case WeightedSignalSum => Place(-r.score, 0.0, r.key)
    case MaxHitScore => Place(-MaxAmount(r.items), 0.0, r.key)
    case CapabilityPriority => Place(FirstPriority(r.items), -r.score, r.key)
    case ByGroupKey => Place(0.0, 0.0, r.key)
    case Unsupported(_) => Place(0.0, 0.0, r.key)
  }

  predicate NotAfter(a: Place, b: Place) {
    a.first < b.first || (a.first == b.first && (a.second < b.second ||
      (a.second == b.second && Ordering.Le(a.key, b.key))))
  }

  lemma NotAfterIsOrder(a: Place, b: Place, c: Place)
    ensures NotAfter(a, b) || NotAfter(b, a)
    ensures NotAfter(a, b) && NotAfter(b, c) ==> NotAfter(a, c)
  {
    Ordering.LeTotal(a.key, b.key);
    if Ordering.Le(a.key, b.key) && Ordering.Le(b.key, c.key) { Ordering.LeTransitive(a.key, b.key, c.key); }
  }

  /** The order of a policy. */
  function ByPolicy(policy: Policy): (Ranked, Ranked) -> bool {
    (a, b) => NotAfter(PlaceOf(policy, a), PlaceOf(policy, b))
  }

  lemma ByPolicyIsOrder(policy: Policy)
    ensures IsOrder(ByPolicy(policy))
  {
    hide NotAfter, PlaceOf;
    var le := ByPolicy(policy);
    forall a, b ensures le(a, b) || le(b, a) {
      NotAfterIsOrder(PlaceOf(policy, a), PlaceOf(policy, b), PlaceOf(policy, a));
    }
    forall a, b, c | le(a, b) && le(b, c) ensures le(a, c) {
      NotAfterIsOrder(PlaceOf(policy, a), PlaceOf(policy, b), PlaceOf(policy, c));
    }
  }

  /** All groups ranked, best first. */
  function SortBy(policy: Policy, all: seq<Ranked>): seq<Ranked> {
    Sort(ByPolicy(policy), all)
  }

  /** The true top: the groups returned are as many as asked for or all, in order, and none left out goes before one
    * returned. */
  lemma TopGroupsAreTrue(policy: Policy, all: seq<Ranked>, limit: nat) returns (left: seq<Ranked>)
    ensures var top := FirstOf(SortBy(policy, all), limit);
            && |top| == (if limit < |all| then limit else |all|) && InOrder(ByPolicy(policy), top)
            && multiset(top) + multiset(left) == multiset(all)
            && forall t, u | t in top && u in left :: NotAfter(PlaceOf(policy, t), PlaceOf(policy, u))
  {
    hide NotAfter, PlaceOf, Sort, InOrder, FirstOf, IsOrder;
    ByPolicyIsOrder(policy);
    left := TopIsTrue(ByPolicy(policy), all, limit);
  }

  // ---- the ranking of a plan ----

  ghost predicate AllRanked(ranked: seq<Ranked>, candidates: seq<Candidate>, contributions: seq<Contribution>,
                            policy: RepresentativePolicy) {
    && |ranked| == |candidates|
    && forall i | 0 <= i < |ranked| :: IsRanked(ranked[i], candidates[i], contributions, policy)
  }

  /** Rank the groups and return the best; a policy no one supports is an error. */
  method RankGroups(candidates: seq<Candidate>, contributions: seq<Contribution>, limit: nat, policy: Policy,
                    representatives: RepresentativePolicy)
    returns (result: Option<seq<Ranked>>, ranked: seq<Ranked>)
    requires forall c | c in candidates :: c.members != []
    ensures AllRanked(ranked, candidates, contributions, representatives)
    ensures result == if policy.Unsupported? then None else Some(FirstOf(SortBy(policy, ranked), limit))
  {
    hide IsRanked, SortBy;
    ranked := [];
    while |ranked| < |candidates|
      invariant |ranked| <= |candidates| && AllRanked(ranked, candidates[..|ranked|], contributions, representatives)
    {
      var c := candidates[|ranked|];
      assert c in candidates;
      var r := RankOne(c, contributions, representatives);
      ranked := ranked + [r];
    }
    assert candidates[..|ranked|] == candidates;
    result := if policy.Unsupported? then None else Some(FirstOf(SortBy(policy, ranked), limit));
  }

  // ---- representatives ----

  /** Candidates made of hits that are all visible, over groups that partition the corpus. */
  ghost predicate FromView(candidates: seq<Candidate>, hits: seq<Hit>, corpus: seq<Member>, visible: set<Id>) {
    && DistinctIds(corpus) && Organized(candidates, hits, GroupsOf(corpus), HomesOf(corpus))
    && forall h | h in hits :: h.id in visible
  }

  lemma CandidateKeysDiffer(candidates: seq<Candidate>, hits: seq<Hit>,
                            groups: map<GroupKey, seq<Id>>, homes: map<Id, GroupKey>, i: nat, j: nat)
    requires Organized(candidates, hits, groups, homes) && i < j < |candidates|
    ensures candidates[i].key != candidates[j].key
  {
    hide HitKeys, IsCandidate;
    Ordering.SortedIsAscending(HitKeys(hits, homes));
  }

  /** Under either policy a representative is a member of its group, so no two groups have the same one; matched first,
    * it is also visible. */
  lemma RepresentativesDiffer(candidates: seq<Candidate>, hits: seq<Hit>, corpus: seq<Member>, visible: set<Id>,
                              ranked: seq<Ranked>, contributions: seq<Contribution>, policy: RepresentativePolicy,
                                i: nat, j: nat)
    requires FromView(candidates, hits, corpus, visible) && AllRanked(ranked, candidates, contributions, policy) &&
             i < j < |ranked|
    ensures ranked[i].representative != ranked[j].representative
  {
    RepresentativeIsMember(candidates, hits, corpus, visible, ranked, contributions, policy, i);
    RepresentativeIsMember(candidates, hits, corpus, visible, ranked, contributions, policy, j);
    hide IsRanked, HitKeys, IsCandidate;
    CandidateKeysDiffer(candidates, hits, GroupsOf(corpus), HomesOf(corpus), i, j);
  }

  lemma RepresentativeIsMember(candidates: seq<Candidate>, hits: seq<Hit>, corpus: seq<Member>, visible: set<Id>,
                               ranked: seq<Ranked>, contributions: seq<Contribution>, policy: RepresentativePolicy,
                                 i: nat)
    requires FromView(candidates, hits, corpus, visible) && AllRanked(ranked, candidates, contributions, policy) &&
             i < |ranked|
    ensures var r := ranked[i];
            && r.key == candidates[i].key && r.representative in r.members
            && r.representative in HomesOf(corpus) && HomesOf(corpus)[r.representative] == r.key
            && (policy.MatchedFirst? ==> r.representative in visible)
  {
    var c, r := candidates[i], ranked[i];
    assert c in candidates && IsCandidate(c, hits, GroupsOf(corpus), HomesOf(corpus)) &&
      IsRanked(r, c, contributions, policy);
    if policy.FirstMember? {
      assert r.representative in c.members;
    } else {
      var h :| h in c.hits && h.id == r.representative;
      assert In(h, HomesOf(corpus), c.key);
    }
    GroupsPartition(corpus, r.representative);
  }

  ghost predicate Differ(rs: seq<Ranked>) {
    forall i, j | 0 <= i < j < |rs| :: rs[i].representative != rs[j].representative
  }

  lemma SortKeepsDifferent(policy: Policy, all: seq<Ranked>)
    requires Differ(all)
    ensures Differ(SortBy(policy, all)) && forall x :: x in SortBy(policy, all) <==> x in all
  {
    hide NotAfter, PlaceOf;
    ByPolicyIsOrder(policy);
    var sorted := SortBy(policy, all);
    SortedMembers(ByPolicy(policy), all);
    SortKeepsDistinct(ByPolicy(policy), all);
    forall i, j | 0 <= i < j < |sorted| ensures sorted[i].representative != sorted[j].representative {
      assert sorted[i] in sorted && sorted[j] in sorted && sorted[i] != sorted[j];
    }
  }

  lemma {:induction false} GroupsAreNotEmpty(corpus: seq<Member>)
    ensures forall k | k in GroupsOf(corpus) :: GroupsOf(corpus)[k] != []
  {
    forall k | k in GroupsOf(corpus) ensures GroupsOf(corpus)[k] != [] {
      var m :| m in corpus && m.key == k;
      MembersMeaning(corpus, k, m.id);
    }
  }

  /** What a group ranked for a plan is like. */
  ghost predicate Sound(r: Ranked, corpus: seq<Member>, signals: seq<Signal>, policy: RepresentativePolicy,
                        visible: set<Id>) {
    && 0.0 <= r.score <= SumOfWeights(signals)
    && r.representative in HomesOf(corpus) && HomesOf(corpus)[r.representative] == r.key
    && (policy.MatchedFirst? ==> r.representative in visible)
    && (policy.FirstMember? ==> IsFirstMember(r.representative, GroupsOf(corpus), r.key))
  }

  ghost predicate IsFirstMember(id: Id, groups: map<GroupKey, seq<Id>>, key: GroupKey) {
    key in groups && groups[key] != [] && id == groups[key][0]
  }

  /** Whether the first member of a group is visible. */
  ghost predicate ShowsFirst(corpus: seq<Member>, visible: set<Id>, key: GroupKey) {
    exists id :: id in visible && IsFirstMember(id, GroupsOf(corpus), key)
  }

  lemma RankedIsSound(candidates: seq<Candidate>, hits: seq<Hit>, corpus: seq<Member>,
                      visible: set<Id>, ranked: seq<Ranked>,
                      contributions: seq<Contribution>, signals: seq<Signal>, policy: RepresentativePolicy, i: nat)
    requires FromView(candidates, hits, corpus, visible) && AllRanked(ranked, candidates, contributions, policy) &&
             i < |ranked|
    requires ValidPlan(signals) && FromPlan(contributions, signals)
    ensures Sound(ranked[i], corpus, signals, policy, visible)
  {
    var r, c := ranked[i], candidates[i];
    assert IsRanked(r, c, contributions, policy);
    RepresentativeIsMember(candidates, hits, corpus, visible, ranked, contributions, policy, i);
    assert c in candidates && IsCandidate(c, hits, GroupsOf(corpus), HomesOf(corpus));
    forall x | x in r.items ensures x in contributions {
      assert x in multiset(r.items);
      ItemsMeaning(c.members, contributions, x);
    }
    hide IsFrom, IsRanked, Score;
    ScoreIsBounded(r.items, signals);
  }

  lemma SelectedIsSound(candidates: seq<Candidate>, hits: seq<Hit>, corpus: seq<Member>,
                        visible: set<Id>, ranked: seq<Ranked>,
                        contributions: seq<Contribution>, signals: seq<Signal>, policy: Policy,
                          representatives: RepresentativePolicy, limit: nat)
    requires FromView(candidates, hits, corpus, visible) &&
             AllRanked(ranked, candidates, contributions, representatives)
    requires ValidPlan(signals) && FromPlan(contributions, signals)
    ensures var top := FirstOf(SortBy(policy, ranked), limit);
            && |top| <= limit && InOrder(ByPolicy(policy), top) && Differ(top)
            && forall r | r in top :: Sound(r, corpus, signals, representatives, visible)
  {
    forall i, j | 0 <= i < j < |ranked| ensures ranked[i].representative != ranked[j].representative {
      RepresentativesDiffer(candidates, hits, corpus, visible, ranked, contributions, representatives, i, j);
    }
    forall r | r in ranked ensures Sound(r, corpus, signals, representatives, visible) {
      var i :| 0 <= i < |ranked| && ranked[i] == r;
      RankedIsSound(candidates, hits, corpus, visible, ranked, contributions, signals, representatives, i);
    }
    hide FromView, AllRanked, FromPlan, ValidPlan, Sound, SortBy, InOrder;
    SortKeepsDifferent(policy, ranked);
    var left := TopGroupsAreTrue(policy, ranked, limit);
    assert forall r | r in FirstOf(SortBy(policy, ranked), limit) :: r in SortBy(policy, ranked);
  }

  /** The groups a plan is answered with. */
  ghost predicate IsAnswer(groups: seq<Ranked>, plan: seq<PlanSignal>, configured: set<Capability>, view: View,
                           providers: Providers, limit: nat, policy: Policy, representatives: RepresentativePolicy) {
    && |groups| <= limit && InOrder(ByPolicy(policy), groups) && Differ(groups)
    && (forall r | r in groups :: Sound(r, view.corpus, SignalsIn(plan), representatives, view.visible))
    && exists contributions, hits, candidates, ranked ::
         && (forall c :: c in contributions <==> Contributed(c, plan, configured, RecallOf(view, providers)))
         && Recalls(contributions, hits, SignalsIn(plan), view.visible)
         && Organized(candidates, hits, view.groups, view.homes)
         && AllRanked(ranked, candidates, contributions, representatives)
         && groups == FirstOf(SortBy(policy, ranked), limit)
  }

  lemma TriedOnce(plan: seq<PlanSignal>, configured: set<Capability>, recall: Recall, answered: bool)
    ensures var tried := Once(TriedInPlan(plan, configured, recall, answered));
            Distinct(tried) && forall c :: c in tried <==>
              exists p :: p in plan && IsTried(p, configured, recall, answered, c)
  {
    hide TriedInPlan, IsTried, Once, Distinct;
    OnceMeaning(TriedInPlan(plan, configured, recall, answered));
    forall c
      ensures c in TriedInPlan(plan, configured, recall, answered) <==>
                exists p :: p in plan && IsTried(p, configured, recall, answered, c)
    {
      TriedInPlanMeaning(plan, configured, recall, answered, c);
    }
  }

  lemma RankingAnswers(plan: seq<PlanSignal>, configured: set<Capability>, view: View, providers: Providers,
                       all: Progress,
                       candidates: seq<Candidate>, ranked: seq<Ranked>, limit: nat, policy: Policy,
                       representatives: RepresentativePolicy)
    requires ValidPlan(SignalsIn(plan)) && ValidView(view)
    requires forall c :: c in all.contributions <==> Contributed(c, plan, configured, RecallOf(view, providers))
    requires Recalls(all.contributions, all.hits, SignalsIn(plan), view.visible)
    requires Organized(candidates, all.hits, view.groups, view.homes)
    requires AllRanked(ranked, candidates, all.contributions, representatives)
    ensures IsAnswer(FirstOf(SortBy(policy, ranked), limit), plan, configured, view, providers, limit, policy,
            representatives)
  {
    hide SortBy, Differ, InOrder, Sound, ValidPlan, FromPlan, Organized, AllRanked, GroupsOf, HomesOf, Contributed,
         FirstOf,
         RecallOf, DistinctIds, QueryIndex.Indexes, QueryIndex.DistinctIds;
    SelectedIsSound(candidates, all.hits, view.corpus, view.visible, ranked, all.contributions, SignalsIn(plan), policy,
      representatives, limit);
  }

  /** Run a plan: the groups returned are the first of all groups hit, ranked by what was recalled. They are in order,
    * their scores are bounded by the plan's weights, and their representatives differ and, matched first, are
    * visible. */
  method Execute(plan: seq<PlanSignal>, configured: set<Capability>, view: View, providers: Providers, limit: nat,
                 policy: Policy, representatives: RepresentativePolicy)
                   returns (result: Option<seq<Ranked>>, executed: seq<Capability>, unavailable: seq<Capability>)
    requires ValidPlan(SignalsIn(plan)) && ValidView(view)
    ensures result.None? <==> policy.Unsupported?
    ensures result.Some? ==> IsAnswer(result.value, plan, configured, view, providers, limit, policy, representatives)
    ensures Distinct(executed) && Distinct(unavailable)
    ensures forall c :: c in executed <==>
              exists p :: p in plan && IsTried(p, configured, RecallOf(view, providers), true, c)
    ensures forall c :: c in unavailable <==>
              exists p :: p in plan && IsTried(p, configured, RecallOf(view, providers), false, c)
  {
    hide ValidPlan, RecallOf, TriedInPlan, IsTried, Once, Distinct, IsAnswer, Recalls, Contributed, SortBy, FirstOf,
         Organized,
         IsCandidate, AllRanked, QueryIndex.Indexes, QueryIndex.DistinctIds, GroupsOf, HomesOf, DistinctIds;
    var all := RecallPlan(plan, configured, view, providers);
    executed, unavailable := Once(all.executed), Once(all.unavailable);
    TriedOnce(plan, configured, RecallOf(view, providers), true);
    TriedOnce(plan, configured, RecallOf(view, providers), false);
    forall id | id in view.homes ensures view.homes[id] in view.groups { GroupsPartition(view.corpus, id); }
    var candidates := Organize(all.hits, view.groups, view.homes);
    CandidatesHaveMembers(candidates, all.hits, view);
    var ranked;
    result, ranked := RankGroups(candidates, all.contributions, limit, policy, representatives);
    RankingAnswers(plan, configured, view, providers, all, candidates, ranked, limit, policy, representatives);
  }

  lemma CandidatesHaveMembers(candidates: seq<Candidate>, hits: seq<Hit>, view: View)
    requires ValidView(view) && Organized(candidates, hits, view.groups, view.homes)
    ensures forall c | c in candidates :: c.members != []
  {
    hide HitKeys, In, GroupsOf, HomesOf, QueryIndex.Indexes, QueryIndex.DistinctIds;
    GroupsAreNotEmpty(view.corpus);
  }
}
