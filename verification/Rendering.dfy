/** Rendering representatives into a prompt block: whole records, in order, while they fit a budget of characters. */
module Rendering {
  import opened Prelude
  type Id = string

  /** A record as the store holds it: the hash of its content, and the content. */
  datatype Stored = Stored(hash: string, body: string)

  type Renderer = (Id, string) -> string

  datatype Rendered = Rendered(text: string, refs: seq<Id>, truncated: bool)

  const GAP := "\n\n"

  function Join(blocks: seq<string>): string {
    if blocks == [] then "" else if |blocks| == 1 then blocks[0]
      else Join(blocks[..|blocks| - 1]) + GAP + blocks[|blocks| - 1]
  }

  lemma JoinMore(blocks: seq<string>, block: string)
    ensures Join(blocks + [block]) == if blocks == [] then block else Join(blocks) + GAP + block
  {
    assert (blocks + [block])[..|blocks|] == blocks;
  }

  /** Whether a view shows a record, and the store holds the very record it was built from. */
  predicate Available(id: Id, visible: set<Id>, hashes: map<Id, string>, store: map<Id, Stored>) {
    id in visible && id in store && id in hashes && store[id].hash == hashes[id]
  }

  // ---- what is shown ----

  function Pick(blocks: seq<string>, picks: seq<nat>): seq<string>
    requires forall p | p in picks :: p < |blocks|
  {
    seq(|picks|, i requires 0 <= i < |picks| => assert picks[i] in picks; blocks[picks[i]])
  }

  ghost predicate Ascending(picks: seq<nat>) {
    forall i, j | 0 <= i < j < |picks| :: picks[i] < picks[j]
  }

  /** Whether a block fits behind the blocks shown so far. */
  predicate Fits(shown: seq<string>, block: string, budget: Option<nat>) {
    budget.Some? ==> |Join(shown + [block])| <= budget.value
  }

  /** The picks before block `i`. */
  function Earlier(picks: seq<nat>, i: nat): (earlier: seq<nat>)
    ensures forall p | p in earlier :: p in picks
  {
    if picks == [] || picks[|picks| - 1] < i then picks else Earlier(picks[..|picks| - 1], i)
  }

  /** The blocks shown, of the first `n`: in order, each that fits behind those shown before it, and no other. */
  ghost predicate Greedy(blocks: seq<string>, n: nat, picks: seq<nat>, budget: Option<nat>) {
    && n <= |blocks| && Ascending(picks) && (forall p | p in picks :: p < n)
    && (forall i | 0 <= i < n :: i in picks <==> Fits(Pick(blocks, Earlier(picks, i)), blocks[i], budget))
    && (budget.Some? ==> |Join(Pick(blocks, picks))| <= budget.value)
  }

  lemma EarlierOfMore(picks: seq<nat>, n: nat, i: nat)
    requires i <= n
    ensures Earlier(picks + [n], i) == Earlier(picks, i)
  {
    assert (picks + [n])[..|picks|] == picks;
  }

  lemma EarlierIsAll(picks: seq<nat>, n: nat)
    requires forall p | p in picks :: p < n
    ensures Earlier(picks, n) == picks
  {
    if picks != [] { assert picks[|picks| - 1] in picks; }
  }

  lemma GreedySkips(blocks: seq<string>, n: nat, picks: seq<nat>, budget: Option<nat>)
    requires Greedy(blocks, n, picks, budget) && n < |blocks| && !Fits(Pick(blocks, picks), blocks[n], budget)
    ensures Greedy(blocks, n + 1, picks, budget)
  {
    EarlierIsAll(picks, n);
  }

  lemma GreedyTakes(blocks: seq<string>, n: nat, picks: seq<nat>, budget: Option<nat>)
    requires Greedy(blocks, n, picks, budget) && n < |blocks| && Fits(Pick(blocks, picks), blocks[n], budget)
    ensures Greedy(blocks, n + 1, picks + [n], budget)
  {
    var more := picks + [n];
    MorePicks(picks, n);
    PickMore(blocks, picks, n);
    FitsBudget(Pick(blocks, picks), blocks[n], budget);
    EarlierIsAll(picks, n);
    forall i | 0 <= i <= n ensures Earlier(more, i) == Earlier(picks, i) { EarlierOfMore(picks, n, i); }
    hide Fits, Pick, Earlier, Ascending;
  }

  lemma MorePicks(picks: seq<nat>, n: nat)
    requires Ascending(picks) && forall p | p in picks :: p < n
    ensures Ascending(picks + [n]) && forall p :: p in picks + [n] <==> p in picks || p == n
  {
    assert forall i | 0 <= i < |picks| :: picks[i] in picks;
  }

  lemma FitsBudget(shown: seq<string>, block: string, budget: Option<nat>)
    requires Fits(shown, block, budget)
    ensures budget.Some? ==> |Join(shown + [block])| <= budget.value
  {
  }

  lemma SizeOf(shown: seq<string>, block: string, budget: Option<nat>)
    ensures var size := |Join(shown)| + |block| + if shown != [] then |GAP| else 0;
            |Join(shown + [block])| == size && (Fits(shown, block, budget) <==> budget.None? || size <= budget.value)
  {
    JoinMore(shown, block);
  }

  /** Show blocks while they fit; `used` counts the characters of the text so far. */
  method Show(blocks: seq<string>, budget: Option<nat>) returns (picks: seq<nat>, shown: seq<string>)
    ensures Greedy(blocks, |blocks|, picks, budget) && shown == Pick(blocks, picks)
  {
    hide Greedy, Pick, Join, Fits;
    picks, shown := [], [];
    var used := 0;
    var i := 0;
    GreedyStart(blocks, budget);
    while i < |blocks|
      invariant 0 <= i <= |blocks| && Greedy(blocks, i, picks, budget) && (forall p | p in picks :: p < |blocks|)
      invariant shown == Pick(blocks, picks) && used == |Join(shown)|
    {
      var block := blocks[i];
      var size := |block| + if shown != [] then |GAP| else 0;
      SizeOf(shown, block, budget);
      if budget.Some? && used + size > budget.value {
        GreedySkips(blocks, i, picks, budget);
      } else {
        GreedyTakes(blocks, i, picks, budget);
        PickMore(blocks, picks, i);
        picks, shown := picks + [i], shown + [block];
        used := used + size;
      }
      i := i + 1;
    }
  }

  lemma GreedyStart(blocks: seq<string>, budget: Option<nat>)
    ensures Greedy(blocks, 0, [], budget) && Pick(blocks, []) == [] && |Join([])| == 0
  {
    assert Pick(blocks, []) == [];
  }

  lemma PickMore(blocks: seq<string>, picks: seq<nat>, n: nat)
    requires (forall p | p in picks :: p < |blocks|) && n < |blocks|
    ensures (forall p | p in picks + [n] :: p < |blocks|) &&
            Pick(blocks, picks + [n]) == Pick(blocks, picks) + [blocks[n]]
  {
  }

  // ---- rendering ----

  function BlocksOf(ids: seq<Id>, store: map<Id, Stored>, renderer: Renderer): seq<string>
    requires forall id | id in ids :: id in store
  {
    seq(|ids|, i requires 0 <= i < |ids| => assert ids[i] in ids; renderer(ids[i], store[ids[i]].body))
  }

  /** The text is the blocks picked, whole and in order; the refs name exactly those; it is cut when some were left
    * out. */
  ghost predicate Shows(r: Rendered, ids: seq<Id>, blocks: seq<string>, picks: seq<nat>)
    requires |blocks| == |ids| && forall p | p in picks :: p < |ids|
  {
    && r.text == Join(Pick(blocks, picks)) && r.truncated == (|picks| < |ids|)
    && |r.refs| == |picks| && forall i | 0 <= i < |picks| :: picks[i] in picks && r.refs[i] == ids[picks[i]]
  }

  /** Render representatives within a budget. Fails for a budget that is not positive, and for a representative the view
    * does not show or whose record is missing or not the one the view was built from. */
  method Render(ids: seq<Id>, visible: set<Id>,
                hashes: map<Id, string>, store: map<Id, Stored>, renderer: Renderer, budget: Option<int>)
    returns (r: Option<Rendered>)
    ensures r.None? <==>
            (budget.Some? && budget.value <= 0) || exists id :: id in ids && !Available(id, visible, hashes, store)
    ensures r.Some? ==> (forall id | id in ids :: id in store) && exists picks ::
              && Greedy(BlocksOf(ids, store, renderer), |ids|, picks, Characters(budget))
              && Shows(r.value, ids, BlocksOf(ids, store, renderer), picks)
    ensures r.Some? && budget.Some? ==> |r.value.text| <= budget.value
  {
    if budget.Some? && budget.value <= 0 {
      return None;
    }
    var i := 0;
    while i < |ids|
      invariant 0 <= i <= |ids| && forall j | 0 <= j < i :: Available(ids[j], visible, hashes, store)
    {
      if !Available(ids[i], visible, hashes, store) {
        assert ids[i] in ids;
        return None;
      }
      i := i + 1;
    }
    var blocks := BlocksOf(ids, store, renderer);
    var picks, shown := Show(blocks, Characters(budget));
    var refs := Refs(ids, picks);
    r := Some(Rendered(Join(shown), refs, |shown| < |ids|));
    assert Greedy(blocks, |ids|, picks, Characters(budget)) && Shows(r.value, ids, blocks, picks);
  }

  function Characters(budget: Option<int>): Option<nat> {
    if budget.Some? && budget.value > 0 then Some(budget.value) else None
  }

  function Refs(ids: seq<Id>, picks: seq<nat>): seq<Id>
    requires forall p | p in picks :: p < |ids|
  {
    seq(|picks|, i requires 0 <= i < |picks| => assert picks[i] in picks; ids[picks[i]])
  }

  // ---- when all fits ----

  lemma {:induction false} JoinGrows(blocks: seq<string>, n: nat)
    requires n <= |blocks|
    ensures |Join(blocks[..n])| <= |Join(blocks)|
    decreases |blocks| - n
  {
    if n == |blocks| {
      assert blocks[..n] == blocks;
    } else {
      JoinGrows(blocks, n + 1);
      JoinMore(blocks[..n], blocks[n]);
      assert blocks[..n + 1] == blocks[..n] + [blocks[n]];
    }
  }

  /** The first `n` indices. */
  ghost predicate CountsTo(picks: seq<nat>, n: nat) {
    |picks| == n && forall i | 0 <= i < n :: picks[i] == i
  }

  lemma {:induction false} EarlierCounts(picks: seq<nat>, n: nat)
    requires Ascending(picks) && forall i: nat | i < n :: i in picks
    ensures CountsTo(Earlier(picks, n), n)
    decreases |picks|
  {
    if picks != [] && picks[|picks| - 1] >= n {
      var front := picks[..|picks| - 1];
      forall i: nat | i < n ensures i in front { assert i in picks && i != picks[|picks| - 1]; }
      EarlierCounts(front, n);
    } else {
      AscendingCounts(picks, n);
    }
  }

  lemma {:induction false} AscendingCounts(picks: seq<nat>, n: nat)
    requires Ascending(picks) && forall i: nat | i < n :: i in picks
    requires picks == [] || picks[|picks| - 1] < n
    ensures CountsTo(picks, n)
    decreases n
  {
    if n > 0 {
      var last, most: nat := |picks| - 1, n - 1;
      assert most in picks;
      var j :| 0 <= j < |picks| && picks[j] == most;
      assert j == last;
      var front := picks[..last];
      forall i: nat | i < n - 1 ensures i in front {
        assert i in picks;
        var k :| 0 <= k < |picks| && picks[k] == i;
        assert k < last && front[k] == i;
      }
      AscendingCounts(front, n - 1);
      assert forall i | 0 <= i < last :: picks[i] == front[i];
    }
  }

  lemma NextFits(blocks: seq<string>, earlier: seq<nat>, n: nat, budget: Option<nat>)
    requires n < |blocks| && CountsTo(earlier, n) && (forall p | p in earlier :: p < |blocks|)
    requires budget.Some? ==> |Join(blocks[..n + 1])| <= budget.value
    ensures Fits(Pick(blocks, earlier), blocks[n], budget)
  {
    assert Pick(blocks, earlier) == blocks[..n];
    assert blocks[..n] + [blocks[n]] == blocks[..n + 1];
  }

  lemma {:induction false} AllPicked(blocks: seq<string>, picks: seq<nat>, budget: Option<nat>, n: nat)
    requires Greedy(blocks, |blocks|, picks, budget) && n <= |blocks|
    requires budget.Some? ==> |Join(blocks)| <= budget.value
    ensures forall i: nat | i < n :: i in picks
    decreases n
  {
    hide Fits, Join, Pick, Earlier, CountsTo;
    if n > 0 {
      AllPicked(blocks, picks, budget, n - 1);
      EarlierCounts(picks, n - 1);
      JoinGrows(blocks, n);
      NextFits(blocks, Earlier(picks, n - 1), n - 1, budget);
      forall i: nat | i < n ensures i in picks {}
    }
  }

  /** When all the blocks together fit the budget, or there is none, all are shown. */
  lemma AllFitAllShown(blocks: seq<string>, picks: seq<nat>, budget: Option<nat>)
    requires Greedy(blocks, |blocks|, picks, budget)
    requires budget.Some? ==> |Join(blocks)| <= budget.value
    ensures Pick(blocks, picks) == blocks
  {
    AllPicked(blocks, picks, budget, |blocks|);
    if picks != [] { assert picks[|picks| - 1] in picks; }
    AscendingCounts(picks, |blocks|);
  }
}
