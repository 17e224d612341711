/** A read: a plan is run over one view, and the representatives of the groups it finds are rendered. */
module KnowledgeRead {
  import opened Prelude
  import Ordering
  import opened QueryExecution
  import QueryIndex
  import opened Ranking
  import Rendering
  import opened Sorting

  // ---- views ----

  /** A record as it is stored, with the hash of its content. */
  datatype Record = Record(experience: QueryIndex.Experience, hash: string)

  predicate ById(a: Record, b: Record) {
    Ordering.Le(a.experience.id, b.experience.id)
  }

  lemma ByIdIsOrder()
    ensures IsOrder(ById)
  {
    forall a, b ensures ById(a, b) || ById(b, a) { Ordering.LeTotal(a.experience.id, b.experience.id); }
    forall a, b, c | ById(a, b) && ById(b, c) ensures ById(a, c) {
      Ordering.LeTransitive(a.experience.id, b.experience.id, c.experience.id);
    }
  }

  function ExperiencesOf(records: seq<Record>): seq<QueryIndex.Experience> {
    seq(|records|, i requires 0 <= i < |records| => records[i].experience)
  }

  function CorpusOf(records: seq<Record>, keyOf: QueryIndex.Experience -> GroupKey): seq<Member> {
    seq(|records|, i requires 0 <= i < |records| => Member(records[i].experience.id, keyOf(records[i].experience)))
  }

  function IdsOf(records: seq<Record>): set<Id> {
    set r | r in records :: r.experience.id
  }

  function HashesOf(records: seq<Record>): map<Id, string> {
    if records == [] then map[]
    else
      var last := records[|records| - 1];
      HashesOf(records[..|records| - 1])[last.experience.id := last.hash]
  }

  ghost predicate DifferentIds(records: seq<Record>) {
    forall i, j | 0 <= i < j < |records| :: records[i].experience.id != records[j].experience.id
  }

  /** The view of some records: it shows all of them, by id. */
  method BuildView(declared: set<(string, string)>, records: seq<Record>, keyOf: QueryIndex.Experience -> GroupKey,
                   ready: set<Capability>) returns (view: View)
    requires DifferentIds(records)
    ensures ValidView(view) && view.visible == IdsOf(records) && view.ready == ready
    ensures var sorted := Sort(ById, records);
            && view.entries == QueryIndex.EntriesOf(declared, ExperiencesOf(sorted))
            && view.corpus == CorpusOf(sorted, keyOf) && view.hashes == HashesOf(records)
  {
    var sorted := Sort(ById, records);
    SortedRecords(records);
    var experiences, corpus := ExperiencesOf(sorted), CorpusOf(sorted, keyOf);
    var index := QueryIndex.BuildLookup(declared, experiences);
    var groups, homes := BuildGroups(corpus);
    var entries := QueryIndex.EntriesOf(declared, experiences);
    view := View(entries, index, corpus, groups, homes, IdsOf(records), HashesOf(records), ready);
    QueryIndex.EntriesHaveIds(declared, experiences);
    EveryIdHasEntry(sorted);
    hide QueryIndex.Indexes, QueryIndex.DistinctIds, QueryIndex.EntriesOf, GroupsOf, HomesOf, Sort;
  }

  lemma SortedRecords(records: seq<Record>)
    requires DifferentIds(records)
    ensures DifferentIds(Sort(ById, records)) && IdsOf(Sort(ById, records)) == IdsOf(records)
  {
    ByIdIsOrder();
    SortedMembers(ById, records);
    SortKeepsDistinct(ById, records);
    hide Sort, ById;
    var sorted := Sort(ById, records);
    forall i, j | 0 <= i < j < |sorted| ensures sorted[i].experience.id != sorted[j].experience.id {
      assert sorted[i] in records && sorted[j] in records && sorted[i] != sorted[j];
    }
  }

  lemma EveryIdHasEntry(records: seq<Record>)
    ensures forall id | id in IdsOf(records) :: exists x :: x in ExperiencesOf(records) && x.id == id
  {
    forall id | id in IdsOf(records) ensures exists x :: x in ExperiencesOf(records) && x.id == id {
      var i :| 0 <= i < |records| && records[i].experience.id == id;
      assert ExperiencesOf(records)[i].id == id;
    }
  }

  /** A view narrowed to the given records; its groups stay those of the whole corpus. */
  function Restrict(view: View, allowed: set<Id>): (narrow: View)
    requires ValidView(view)
    ensures ValidView(narrow) && narrow == view.(visible := narrow.visible)
    ensures forall id :: id in narrow.visible <==> id in view.visible && id in allowed
  {
    view.(visible := view.visible * allowed)
  }

  // ---- the read ----

  datatype Configuration = Configuration(
    schemaRef: string,
    capabilities: set<Capability>,
    limits: Capability -> nat,
    pinned: map<Capability, string>,
    policy: Policy,
    representatives: RepresentativePolicy,
    maxGroups: nat,
    budget: Option<int>)

  /** What answers recall: the providers, and the references they go by. */
  datatype Backend = Backend(of: map<Capability, Provider>, refs: map<Capability, string>)

  datatype Store = Store(records: map<Id, Rendering.Stored>, renderer: Rendering.Renderer)

  predicate PinsMatch(pinned: map<Capability, string>, refs: map<Capability, string>) {
    forall c | c in pinned :: c in refs && refs[c] == pinned[c]
  }

  predicate Accepts(schemaRef: string, config: Configuration, backend: Backend) {
    schemaRef == config.schemaRef && PinsMatch(config.pinned, backend.refs) && !config.policy.Unsupported?
  }

  function ProvidersOf(config: Configuration, backend: Backend): Providers {
    Providers(backend.of, config.limits)
  }

  ghost predicate Answers(groups: seq<Ranked>, plan: seq<PlanSignal>, config: Configuration, backend: Backend,
                          view: View) {
    IsAnswer(groups, plan, config.capabilities, view, ProvidersOf(config, backend), config.maxGroups, config.policy,
      config.representatives)
  }

  /** The store holds the very record the view was built from. */
  predicate Intact(id: Id, view: View, store: Store) {
    id in store.records && id in view.hashes && store.records[id].hash == view.hashes[id]
  }

  /** Why a group cannot be rendered: its representative's record is gone or changed, or it is the group's first member
    * and the view hides that. */
  ghost predicate Unreadable(r: Ranked, policy: RepresentativePolicy, view: View, store: Store) {
    !Intact(r.representative, view, store) || (policy.FirstMember? && !ShowsFirst(view.corpus, view.visible, r.key))
  }

  function RepresentativesOf(groups: seq<Ranked>): seq<Id> {
    seq(|groups|, i requires 0 <= i < |groups| => groups[i].representative)
  }

  lemma SoundIsVisible(r: Ranked, plan: seq<PlanSignal>, policy: RepresentativePolicy, view: View)
    requires Sound(r, view.corpus, SignalsIn(plan), policy, view.visible)
    ensures r.representative in view.visible <==> policy.MatchedFirst? || ShowsFirst(view.corpus, view.visible, r.key)
  {
    hide GroupsOf, HomesOf, SumOfWeights;
  }

  /** Rendering refuses some representative exactly when some group is unreadable. */
  lemma RefusedIff(groups: seq<Ranked>, plan: seq<PlanSignal>, config: Configuration, backend: Backend, view: View,
                   store: Store)
    requires Answers(groups, plan, config, backend, view)
    ensures (exists id :: id in RepresentativesOf(groups)
                          && !Rendering.Available(id, view.visible, view.hashes, store.records))
         <==> exists r :: r in groups && Unreadable(r, config.representatives, view, store)
  {
    hide Differ, InOrder, Recalls, Organized, AllRanked, Contributed, RecallOf, SortBy, FirstOf, Sound, ShowsFirst;
    var ids := RepresentativesOf(groups);
    forall r | r in groups ensures Unreadable(r, config.representatives, view, store) <==>
                                   !Rendering.Available(r.representative, view.visible, view.hashes, store.records) {
      SoundIsVisible(r, plan, config.representatives, view);
    }
    hide Answers, Unreadable, Rendering.Available;
    forall r | r in groups ensures r.representative in ids {
      var i :| 0 <= i < |groups| && groups[i] == r;
      assert ids[i] == r.representative;
    }
    forall id | id in ids ensures exists r :: r in groups && r.representative == id {
      var i :| 0 <= i < |ids| && ids[i] == id;
      assert groups[i] in groups;
    }
  }

  /** A read does not start when the plan is for another schema, a pinned provider is missing or another one, or the
    * policy is not supported. */
  lemma NotAcceptedIff(schemaRef: string, config: Configuration, backend: Backend)
    ensures !Accepts(schemaRef, config, backend) <==>
            || schemaRef != config.schemaRef
            || (exists c :: c in config.pinned && !(c in backend.refs && backend.refs[c] == config.pinned[c]))
            || config.policy.Unsupported?
  {
  }

  /** Read: run the plan and render what it finds. It fails exactly when the plan and the configuration do not go
    * together, a pinned provider is not the one there, the policy is not supported, the budget is not positive, or a
    * group found is unreadable; otherwise whole records are shown, in the order of the groups, while they fit. */
  method Read(schemaRef: string, plan: seq<PlanSignal>, config: Configuration, backend: Backend, view: View,
              store: Store)
    returns (groups: seq<Ranked>, rendered: Option<Rendering.Rendered>, executed: seq<Capability>,
             unavailable: seq<Capability>)
    requires ValidPlan(SignalsIn(plan)) && ValidView(view)
    ensures Accepts(schemaRef, config, backend) ==> Answers(groups, plan, config, backend, view)
    ensures rendered.None? <==>
              || !Accepts(schemaRef, config, backend)
              || (config.budget.Some? && config.budget.value <= 0)
              || exists r :: r in groups && Unreadable(r, config.representatives, view, store)
    ensures rendered.Some? ==>
              && (forall id | id in RepresentativesOf(groups) :: id in store.records)
              && exists picks ::
                   var blocks := Rendering.BlocksOf(RepresentativesOf(groups), store.records, store.renderer);
                   && Rendering.Greedy(blocks, |groups|, picks, Rendering.Characters(config.budget))
                   && Rendering.Shows(rendered.value, RepresentativesOf(groups), blocks, picks)
    ensures rendered.Some? && config.budget.Some? ==> |rendered.value.text| <= config.budget.value
    ensures rendered.Some? ==> Distinct(executed) && Distinct(unavailable) && forall c ::
              var recall := RecallOf(view, ProvidersOf(config, backend));
              && (c in executed <==> exists p :: p in plan && IsTried(p, config.capabilities, recall, true, c))
              && (c in unavailable <==> exists p :: p in plan && IsTried(p, config.capabilities, recall, false, c))
  {
    hide IsAnswer, ValidPlan, ValidView, IsTried, RecallOf, Distinct, Rendering.Greedy, Rendering.Shows,
         Rendering.Available,
         Unreadable, PinsMatch, Rendering.BlocksOf;
    groups, rendered, executed, unavailable := [], None, [], [];
    if schemaRef != config.schemaRef || !PinsMatch(config.pinned, backend.refs) {
      return;
    }
    var result;
    result, executed, unavailable := Execute(plan, config.capabilities, view, ProvidersOf(config, backend),
      config.maxGroups,
      config.policy, config.representatives);
    if result.None? {
      return;
    }
    groups := result.value;
    RefusedIff(groups, plan, config, backend, view, store);
    rendered := Rendering.Render(RepresentativesOf(groups), view.visible, view.hashes, store.records, store.renderer,
      config.budget);
  }

  // ---- a read that first members make fail ----

  const TWO_RUNS: seq<Member> := [Member("a", "k"), Member("b", "k")]
  const ASKED: PlanSignal := PlanSignal(Signal("q", 1.0), Text("t"))
  const ON_B: Contribution := Contribution("q", Fuzzy, "b", 1.0, 1.0, 1.0)
  const OFFERS_B: Provider := (text: string, signal: SignalId, limit: nat) => [Offer("b", Fuzzy, Some(1.0))]
  const BACKEND: Backend := Backend(map[Fuzzy := OFFERS_B], map[])
  const CONFIG: Configuration :=
    Configuration("s", {Fuzzy}, (c: Capability) => 1, map[], WeightedSignalSum, FirstMember, 1, None)

  /** A view of two repeats of one attempt, narrowed to the second. */
  const NARROW: View :=
    View([QueryIndex.Entry("a", map[]), QueryIndex.Entry("b", map[])], map[], TWO_RUNS, map["k" := ["a", "b"]],
      map["a" := "k", "b" := "k"], {"b"}, map["a" := "h", "b" := "h"], {Fuzzy})

  lemma TwoRunsMeaning()
    ensures GroupsOf(TWO_RUNS) == map["k" := ["a", "b"]] && HomesOf(TWO_RUNS) == map["a" := "k", "b" := "k"]
  {
    var a, b := Member("a", "k"), Member("b", "k");
    assert [] + [a] == [a] && [a] + [b] == TWO_RUNS && [a][..0] == [] && TWO_RUNS[..1] == [a];
    MembersMore([], a, "k");
    MembersMore([a], b, "k");
    KeysMore([], a);
    KeysMore([a], b);
    assert KeysOf([]) == {};
    hide MembersOf, KeysOf;
    assert HomesOf([a]) == map["a" := "k"];
    assert map["a" := "k"]["b" := "k"] == map["a" := "k", "b" := "k"];
    NoMembers([], "k");
    assert [] + ["a"] + ["b"] == ["a", "b"];
  }

  lemma NarrowIsValid()
    ensures ValidView(NARROW)
  {
    TwoRunsMeaning();
    hide GroupsOf, HomesOf;
    assert NARROW.entries[1].id == "b";
  }

  lemma FindsB()
    ensures RecallOf(NARROW, ProvidersOf(CONFIG, BACKEND))(ASKED, Fuzzy) == Some([Recalled("b", Some(1.0))])
  {
    var offers, found := [Offer("b", Fuzzy, Some(1.0))], [Recalled("b", Some(1.0))];
    assert offers[..0] == [] && Kept([], {"b"}, Fuzzy) == [];
    assert Kept(offers, {"b"}, Fuzzy) == [] + found == found;
    assert found[..1] == found;
  }

  lemma OnlyBContributes(c: Contribution)
    ensures Contributed(c, [ASKED], {Fuzzy}, RecallOf(NARROW, ProvidersOf(CONFIG, BACKEND))) <==> c == ON_B
  {
    var recall, found := RecallOf(NARROW, ProvidersOf(CONFIG, BACKEND)), [Recalled("b", Some(1.0))];
    FindsB();
    hide RecallOf;
    assert found[0] in found && ON_B == Contribute(ASKED.signal, Fuzzy, "b", Some(1.0));
    assert FoundAs(c, ASKED.signal, Fuzzy, found) <==> c == ON_B;
    assert forall capability :: Used(ASKED, {Fuzzy}, recall, capability) <==> capability == Fuzzy;
    assert ASKED in [ASKED];
    assert FoundBy(c, ASKED, {Fuzzy}, recall, Fuzzy) <==> c == ON_B;
  }

  lemma OnlyGroup(hits: seq<Hit>, candidates: seq<Candidate>)
    requires hits != [] && (forall h | h in hits :: h == HitOf(ON_B))
    requires Organized(candidates, hits, NARROW.groups, NARROW.homes)
    ensures |candidates| == 1 && candidates[0].key == "k" && candidates[0].members == ["a", "b"]
  {
    assert hits[0] in hits && hits[0].id == "b";
    assert HitKeys(hits, NARROW.homes) == {"k"};
    var keys := Ordering.Sorted({"k"});
    assert keys[0] in keys;
    assert candidates[0] in candidates;
    hide InOrder, In, Ordering.Sorted;
  }

  lemma OnlyHit(contributions: seq<Contribution>, hits: seq<Hit>, signals: seq<Signal>)
    requires Recalls(contributions, hits, signals, {"b"}) && forall c :: c in contributions <==> c == ON_B
    ensures hits != [] && forall h | h in hits :: h == HitOf(ON_B)
  {
    hide FromPlan;
    assert HitOf(ON_B) in hits;
  }

  lemma OneRanked(ranked: seq<Ranked>, candidates: seq<Candidate>, contributions: seq<Contribution>)
    requires AllRanked(ranked, candidates, contributions, FirstMember)
    requires |candidates| == 1 && candidates[0].key == "k" && candidates[0].members == ["a", "b"]
    ensures var top := FirstOf(SortBy(WeightedSignalSum, ranked), 1);
            |top| == 1 && top[0].key == "k" && top[0].representative == "a"
  {
    assert IsRanked(ranked[0], candidates[0], contributions, FirstMember);
    hide IsRanked, ByPolicy;
    ByPolicyIsOrder(WeightedSignalSum);
    SortedMembers(ByPolicy(WeightedSignalSum), ranked);
    var sorted := SortBy(WeightedSignalSum, ranked);
    assert sorted[0] in sorted && |sorted| == 1;
  }

  lemma OneGroupAnswers(groups: seq<Ranked>)
    requires Answers(groups, [ASKED], CONFIG, BACKEND, NARROW)
    ensures |groups| == 1 && groups[0].key == "k" && groups[0].representative == "a"
  {
    hide SortBy, FirstOf, Sound, Differ, InOrder, Recalls, Organized, AllRanked, Contributed, RecallOf, SignalsIn;
    var recall := RecallOf(NARROW, ProvidersOf(CONFIG, BACKEND));
    var contributions, hits, candidates, ranked :|
      && (forall c :: c in contributions <==> Contributed(c, [ASKED], {Fuzzy}, recall))
      && Recalls(contributions, hits, SignalsIn([ASKED]), NARROW.visible)
      && Organized(candidates, hits, NARROW.groups, NARROW.homes)
      && AllRanked(ranked, candidates, contributions, FirstMember)
      && groups == FirstOf(SortBy(WeightedSignalSum, ranked), 1);
    forall c ensures c in contributions <==> c == ON_B { OnlyBContributes(c); }
    OnlyHit(contributions, hits, SignalsIn([ASKED]));
    OnlyGroup(hits, candidates);
    OneRanked(ranked, candidates, contributions);
  }

  lemma FirstIsHidden()
    ensures !ShowsFirst(TWO_RUNS, {"b"}, "k")
  {
    TwoRunsMeaning();
    hide GroupsOf, HomesOf;
  }

  /** First member: whatever the store holds, a plan that finds the second of two repeats is answered by their group,
    * which is represented by the first; a view that does not show the first refuses the whole read. */
  lemma FirstMemberCanBeRefused(groups: seq<Ranked>, store: Store)
    ensures ValidView(NARROW) && ValidPlan(SignalsIn([ASKED])) && Accepts("s", CONFIG, BACKEND)
    ensures Answers(groups, [ASKED], CONFIG, BACKEND, NARROW) ==>
              |groups| == 1 && Unreadable(groups[0], CONFIG.representatives, NARROW, store)
  {
    NarrowIsValid();
    FirstIsHidden();
    hide Answers, ValidView, ShowsFirst, Intact;
    assert SignalsIn([ASKED]) == [ASKED.signal];
    if Answers(groups, [ASKED], CONFIG, BACKEND, NARROW) { OneGroupAnswers(groups); }
  }
}
