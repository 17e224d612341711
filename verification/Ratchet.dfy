/** The code-metrics ratchet: which units over a limit are held against a change, given those over it at the base. */
module Ratchet {
  import opened Prelude
  import opened Sorting
  import Ordering
  /** What identifies a measured unit. */
  datatype Key = Key(metric: string, path: string, unit: string)

  /** The units over a limit in one tree, with their values; a higher value is worse. */
  type Findings = map<Key, nat>

  const MODULE := "<module>"

  /** What a move keeps: the metric, and the qualified name or, for a module, the file name. */
  datatype Identity = Identity(metric: string, name: string)

  function FileName(path: string): string {
    if path == "" || path[|path| - 1] == '/' then "" else FileName(path[..|path| - 1]) + [path[|path| - 1]]
  }

  function IdentityOf(key: Key): Identity {
    Identity(key.metric, if key.unit == MODULE then FileName(key.path) else key.unit)
  }

  // ---- moves ----

  /** Each key is listed once, under its identity, and nothing else is. */
  ghost predicate Grouped(groups: map<Identity, seq<Key>>, keys: set<Key>) {
    && (forall k | k in keys :: IdentityOf(k) in groups && k in groups[IdentityOf(k)])
    && (forall i, k | i in groups && k in groups[i] :: k in keys && IdentityOf(k) == i)
    && (forall i | i in groups :: groups[i] != [] && Distinct(groups[i]))
  }

  method ByIdentity(keys: set<Key>) returns (groups: map<Identity, seq<Key>>)
    ensures Grouped(groups, keys)
  {
    groups := map[];
    var rest := keys;
    while rest != {}
      invariant rest <= keys && Grouped(groups, keys - rest)
      decreases rest
    {
      var key :| key in rest;
      var i := IdentityOf(key);
      GroupedGrows(groups, keys - rest, key);
      assert keys - (rest - {key}) == keys - rest + {key};
      groups := groups[i := (if i in groups then groups[i] else []) + [key]];
      rest := rest - {key};
    }
    assert keys - rest == keys;
  }

  lemma GroupedGrows(groups: map<Identity, seq<Key>>, keys: set<Key>, key: Key)
    requires Grouped(groups, keys) && key !in keys
    ensures var i := IdentityOf(key);
            Grouped(groups[i := (if i in groups then groups[i] else []) + [key]], keys + {key})
  {
  }

  /** Two keys, gone and added, of an identity that no other key gone or added has. */
  ghost predicate Paired(removed: Findings, added: Findings, now: Key, was: Key) {
    && now in added && was in removed && IdentityOf(now) == IdentityOf(was)
    && (forall k | k in removed && IdentityOf(k) == IdentityOf(was) :: k == was)
    && (forall k | k in added && IdentityOf(k) == IdentityOf(now) :: k == now)
  }

  ghost predicate Moved(removed: Findings, added: Findings, now: Key, was: Key) {
    Paired(removed, added, now, was) && added[now] <= removed[was]
  }

  /** The pairing from added to removed keys: exactly the moves there are. */
  ghost predicate IsMoves(moves: map<Key, Key>, removed: Findings, added: Findings) {
    && (forall now | now in moves :: Moved(removed, added, now, moves[now]))
    && (forall now, was | Moved(removed, added, now, was) :: now in moves)
  }

  /** Only known metrics are ever compared. */
  ghost predicate PairsKnown(removed: Findings, added: Findings, metrics: set<string>) {
    forall now, was | Paired(removed, added, now, was) :: now.metric in metrics
  }

  ghost predicate OnlyOf(keys: set<Key>, key: Key) {
    key in keys && forall k | k in keys && IdentityOf(k) == IdentityOf(key) :: k == key
  }

  lemma LoneGroup(groups: map<Identity, seq<Key>>, keys: set<Key>, i: Identity)
    requires Grouped(groups, keys) && i in groups
    ensures |groups[i]| == 1 ==> OnlyOf(keys, groups[i][0]) && IdentityOf(groups[i][0]) == i
    ensures forall key | OnlyOf(keys, key) && IdentityOf(key) == i :: groups[i] == [key]
  {
    assert groups[i][0] in groups[i];
    forall key | OnlyOf(keys, key) && IdentityOf(key) == i ensures groups[i] == [key] {
      forall k | k in groups[i] ensures k == key { assert k in keys && IdentityOf(k) == i; }
      OnlyOne(groups[i], key);
    }
  }

  lemma OnlyOne(keys: seq<Key>, key: Key)
    requires Distinct(keys) && keys != [] && forall k | k in keys :: k == key
    ensures keys == [key]
  {
    assert keys[0] in keys && keys[|keys| - 1] in keys;
  }

  lemma PairOfGroups(removed: Findings, added: Findings,
                     olds: map<Identity, seq<Key>>, news: map<Identity, seq<Key>>, i: Identity)
    requires Grouped(olds, removed.Keys) && Grouped(news, added.Keys) && i in olds
    ensures i in news && |olds[i]| == 1 && |news[i]| == 1 ==>
              && Paired(removed, added, news[i][0], olds[i][0]) && news[i][0].metric == i.metric
              && news[i][0] in added && olds[i][0] in removed
    ensures forall now, was | Paired(removed, added, now, was) && IdentityOf(was) == i ::
              i in news && olds[i] == [was] && news[i] == [now]
  {
    forall now, was ensures Paired(removed, added, now, was)
        <==> OnlyOf(removed.Keys, was) && OnlyOf(added.Keys, now) && IdentityOf(now) == IdentityOf(was) {}
    forall now | OnlyOf(added.Keys, now) && IdentityOf(now) == i ensures i in news {}
    LoneGroup(olds, removed.Keys, i);
    if i in news { LoneGroup(news, added.Keys, i); }
    hide OnlyOf, Paired, Grouped;
  }

  lemma PairsAreIn(removed: Findings, added: Findings, olds: map<Identity, seq<Key>>)
    requires Grouped(olds, removed.Keys)
    ensures forall now, was | Paired(removed, added, now, was) :: IdentityOf(was) in olds
  {
  }

  method MatchMoves(removed: Findings, added: Findings, metrics: set<string>) returns (moves: Option<map<Key, Key>>)
    ensures moves.Some? <==> PairsKnown(removed, added, metrics)
    ensures moves.Some? ==> IsMoves(moves.value, removed, added)
  {
    hide Grouped, Paired, IdentityOf;
    var olds := ByIdentity(removed.Keys);
    var news := ByIdentity(added.Keys);
    PairsAreIn(removed, added, olds);
    var found: map<Key, Key> := map[];
    var rest := olds.Keys;
    while rest != {}
      invariant rest <= olds.Keys
      invariant forall now, was | Paired(removed, added, now, was) && IdentityOf(was) !in rest :: now.metric in metrics
      invariant forall now | now in found :: Moved(removed, added, now, found[now])
      invariant forall now, was | Moved(removed, added, now, was) && IdentityOf(was) !in rest :: now in found
      decreases rest
    {
      var i :| i in rest;
      PairOfGroups(removed, added, olds, news, i);
      if |olds[i]| == 1 && i in news && |news[i]| == 1 {
        var now, was := news[i][0], olds[i][0];
        if i.metric !in metrics {
          assert Paired(removed, added, now, was);
          return None;
        }
        if added[now] <= removed[was] { found := found[now := was]; }
      }
      rest := rest - {i};
    }
    moves := Some(found);
  }

  /** The moves between two trees are one pairing, and no two units share what one of them moved from. */
  ghost function Moves(removed: Findings, added: Findings): (moves: map<Key, Key>)
    ensures IsMoves(moves, removed, added)
  {
    map now | now in added && (exists was :: Moved(removed, added, now, was)) :: SourceOf(removed, added, now)
  }

  ghost function SourceOf(removed: Findings, added: Findings, now: Key): (was: Key)
    requires exists was :: Moved(removed, added, now, was)
    ensures Moved(removed, added, now, was)
  {
    var was :| Moved(removed, added, now, was);
    was
  }

  lemma MovesAreUnique(moves: map<Key, Key>, removed: Findings, added: Findings)
    requires IsMoves(moves, removed, added)
    ensures moves == Moves(removed, added)
    ensures forall a, b | a in moves && b in moves && moves[a] == moves[b] :: a == b
  {
    var same := Moves(removed, added);
    assert forall now | now in moves :: Moved(removed, added, now, moves[now]) && now in same;
    assert forall now | now in same :: Moved(removed, added, now, same[now]) && now in moves;
  }

  // ---- comparing with the base ----

  /** The units of one tree that the other does not have over the limit. */
  function Only(here: Findings, there: Findings): Findings {
    map k | k in here && k !in there :: here[k]
  }

  ghost function MovesTo(head: Findings, base: Findings): map<Key, Key> {
    Moves(Only(base, head), Only(head, base))
  }

  /** Whether a path is one the change touches, or a directory of one. */
  predicate Judged(touched: Option<set<string>>, path: string) {
    match touched
    case None => true
    case Some(files) => path in files || exists file :: file in files && IsUnder(file, path)
  }

  predicate IsUnder(file: string, directory: string) {
    |directory| < |file| && file[..|directory|] == directory && file[|directory|] == '/'
  }

  /** Whether the base grants a unit its value: it moved from there, or was there and is no worse. */
  ghost predicate Granted(head: Findings, base: Findings, key: Key)
    requires key in head
  {
    key in MovesTo(head, base) || (key in base && head[key] <= base[key])
  }

  ghost function NewKeys(head: Findings, base: Findings, touched: Option<set<string>>): set<Key> {
    set k | k in head && !Granted(head, base, k) && Judged(touched, k.path) && k !in base
  }

  ghost function WorseKeys(head: Findings, base: Findings, touched: Option<set<string>>): set<Key> {
    set k | k in head && !Granted(head, base, k) && Judged(touched, k.path) && k in base
  }

  ghost function UntouchedKeys(head: Findings, base: Findings, touched: Option<set<string>>): set<Key> {
    set k | k in head && !Granted(head, base, k) && !Judged(touched, k.path)
  }

  /** A comparison reads no unknown metric: not of a unit in both trees, nor of a pair that may be a move. */
  ghost predicate Comparable(head: Findings, base: Findings, metrics: set<string>) {
    && PairsKnown(Only(base, head), Only(head, base), metrics)
    && forall k | k in head && k in base :: k.metric in metrics
  }

  // ---- what passing means ----

  /** The base unit that grants a head unit its value. */
  ghost function Grant(head: Findings, base: Findings, key: Key): Key
    requires key in head && Granted(head, base, key)
  {
    if key in MovesTo(head, base) then MovesTo(head, base)[key] else key
  }

  lemma GrantKeeps(head: Findings, base: Findings, key: Key)
    requires key in head && Granted(head, base, key)
    ensures var was := Grant(head, base, key);
            was in base && was.metric == key.metric && head[key] <= base[was]
  {
    var removed, added := Only(base, head), Only(head, base);
    if key in MovesTo(head, base) { assert Moved(removed, added, key, MovesTo(head, base)[key]); }
  }

  /** No base unit grants two head units their values. */
  lemma GrantIsInjective(head: Findings, base: Findings, a: Key, b: Key)
    requires a in head && b in head && Granted(head, base, a) && Granted(head, base, b)
    requires Grant(head, base, a) == Grant(head, base, b)
    ensures a == b
  {
    var removed, added, moves := Only(base, head), Only(head, base), MovesTo(head, base);
    MovesAreUnique(moves, removed, added);
    if a in moves { assert Moved(removed, added, a, moves[a]); }
    if b in moves { assert Moved(removed, added, b, moves[b]); }
  }

  function Of(findings: Findings, metric: string): Findings {
    map k | k in findings && k.metric == metric :: findings[k]
  }

  /** The values of all units together. */
  ghost function TotalValue(findings: Findings): real {
    Total(Values(findings))
  }

  function Values(findings: Findings): map<Key, real> {
    map k | k in findings :: findings[k] as real
  }

  lemma ValueWithout(findings: Findings, key: Key)
    requires key in findings
    ensures TotalValue(findings) == findings[key] as real + TotalValue(findings - {key})
  {
    TotalWithout(Values(findings), key);
    assert Values(findings) - {key} == Values(findings - {key});
  }

  lemma NothingIsWorthNothing()
    ensures TotalValue(map[]) == 0.0
  {
    assert Values(map[]) == map[];
  }

  lemma {:induction false} ValueIsNotNegative(findings: Findings)
    ensures TotalValue(findings) >= 0.0
    decreases |findings|
  {
    hide TotalValue;
    if findings == map[] {
      NothingIsWorthNothing();
    } else {
      var key :| key in findings;
      ValueWithout(findings, key);
      ValueIsNotNegative(findings - {key});
    }
  }

  /** Units paired with distinct others, none of lower value, are no more of them and no more in all. */
  lemma {:induction false} InjectionIsBounded(units: Findings, from: map<Key, Key>, others: Findings)
    requires forall k | k in units :: k in from && from[k] in others && units[k] <= others[from[k]]
    requires forall a, b | a in units && b in units && from[a] == from[b] :: a == b
    ensures |units| <= |others| && TotalValue(units) <= TotalValue(others)
    decreases |units|
  {
    hide TotalValue;
    if units == map[] {
      NothingIsWorthNothing();
      ValueIsNotNegative(others);
    } else {
      var key :| key in units;
      var was := from[key];
      InjectionIsBounded(units - {key}, from, others - {was});
      ValueWithout(units, key);
      ValueWithout(others, was);
      assert (others - {was}).Keys == others.Keys - {was} && (units - {key}).Keys == units.Keys - {key};
    }
  }

  lemma GrantedIsBounded(units: Findings, head: Findings, base: Findings, others: Findings)
    requires forall k | k in units :: k in head && units[k] == head[k] && Granted(head, base, k)
    requires forall k | k in units ::
             Grant(head, base, k) in others && others[Grant(head, base, k)] == base[Grant(head, base, k)]
    ensures |units| <= |others| && TotalValue(units) <= TotalValue(others)
  {
    var from := map k | k in units :: Grant(head, base, k);
    forall k | k in units ensures units[k] <= others[from[k]] { GrantKeeps(head, base, k); }
    forall a, b | a in units && b in units && from[a] == from[b] ensures a == b { GrantIsInjective(head, base, a, b); }
    hide Grant, Granted;
    InjectionIsBounded(units, from, others);
  }

  /** The ratchet: for every metric, what a comparison does not list is no more units, and no more in value, than the
    * base had; so when it lists nothing, neither the number of units over the limit nor their total value grew. */
  lemma PassingDoesNotGrow(head: Findings, base: Findings, touched: Option<set<string>>, metric: string)
    ensures var listed := NewKeys(head, base, touched) + WorseKeys(head, base, touched) +
            UntouchedKeys(head, base, touched);
            && |Of(head - listed, metric)| <= |Of(base, metric)|
            && TotalValue(Of(head - listed, metric)) <= TotalValue(Of(base, metric))
            && (listed == {} ==>
              |Of(head, metric)| <= |Of(base, metric)| && TotalValue(Of(head, metric)) <= TotalValue(Of(base, metric)))
  {
    var listed := NewKeys(head, base, touched) + WorseKeys(head, base, touched) + UntouchedKeys(head, base, touched);
    var kept := Of(head - listed, metric);
    forall k | k in kept ensures k in head && Granted(head, base, k) && Grant(head, base, k) in Of(base, metric) {
      GrantKeeps(head, base, k);
    }
    GrantedIsBounded(kept, head, base, Of(base, metric));
    if listed == {} { assert head - listed == head; }
  }

  /** The same for all metrics together. */
  lemma PassingDoesNotGrowInAll(head: Findings, base: Findings, touched: Option<set<string>>)
    requires NewKeys(head, base, touched) == WorseKeys(head, base, touched) == UntouchedKeys(head, base, touched) == {}
    ensures |head| <= |base| && TotalValue(head) <= TotalValue(base)
  {
    forall k | k in head ensures Granted(head, base, k) && Grant(head, base, k) in base {
      assert k !in NewKeys(head, base, touched) && k !in WorseKeys(head, base, touched) &&
        k !in UntouchedKeys(head, base, touched);
      GrantKeeps(head, base, k);
    }
    GrantedIsBounded(head, head, base, base);
  }

  // ---- keys in order ----

  /** Keys are listed by metric, then path, then unit. */
  predicate KeyLe(a: Key, b: Key) {
    if a.metric != b.metric then Ordering.Le(a.metric, b.metric)
    else if a.path != b.path then Ordering.Le(a.path, b.path)
    else Ordering.Le(a.unit, b.unit)
  }

  lemma Lexical(a: string, b: string, c: string)
    ensures Ordering.Le(a, b) || Ordering.Le(b, a)
    ensures Ordering.Le(a, b) && Ordering.Le(b, c) ==> Ordering.Le(a, c)
    ensures Ordering.Le(a, b) && Ordering.Le(b, a) ==> a == b
  {
    Ordering.LeTotal(a, b);
    if Ordering.Le(a, b) && Ordering.Le(b, c) { Ordering.LeTransitive(a, b, c); }
    if Ordering.Le(a, b) && Ordering.Le(b, a) { Ordering.LeAntisymmetric(a, b); }
  }

  lemma KeyLeOf(a: Key, b: Key, c: Key)
    ensures KeyLe(a, b) || KeyLe(b, a)
    ensures KeyLe(a, b) && KeyLe(b, a) ==> a == b
    ensures KeyLe(a, b) && KeyLe(b, c) ==> KeyLe(a, c)
  {
    hide Ordering.Le;
    Lexical(a.metric, b.metric, c.metric);
    Lexical(b.metric, c.metric, a.metric);
    Lexical(a.path, b.path, c.path);
    Lexical(b.path, c.path, a.path);
    Lexical(a.unit, b.unit, c.unit);
  }

  lemma KeyLeIsOrder()
    ensures IsOrder(KeyLe)
  {
    hide KeyLe;
    forall a, b ensures KeyLe(a, b) || KeyLe(b, a) { KeyLeOf(a, b, a); }
    forall a, b, c | KeyLe(a, b) && KeyLe(b, c) ensures KeyLe(a, c) { KeyLeOf(a, b, c); }
  }

  /** The keys of a set, each once, in order. */
  ghost predicate IsListing(keys: seq<Key>, all: set<Key>) {
    InOrder(KeyLe, keys) && Distinct(keys) && forall k :: k in keys <==> k in all
  }

  method ListKeys(all: set<Key>) returns (keys: seq<Key>)
    ensures IsListing(keys, all)
  {
    hide KeyLe;
    keys := [];
    var rest := all;
    while rest != {}
      invariant rest <= all && Distinct(keys) && forall k :: k in keys <==> k in all - rest
      decreases rest
    {
      var k :| k in rest;
      PrependIsDistinct(k, keys);
      keys := [k] + keys;
      rest := rest - {k};
    }
    KeyLeIsOrder();
    SortSorts(KeyLe, keys);
    SortedMembers(KeyLe, keys);
    SortKeepsDistinct(KeyLe, keys);
    keys := Sort(KeyLe, keys);
  }

  lemma {:induction false} ListingExists(all: set<Key>) returns (keys: seq<Key>)
    ensures IsListing(keys, all)
    decreases |all|
  {
    hide KeyLe;
    if all == {} {
      keys := [];
    } else {
      var k :| k in all;
      var rest := ListingExists(all - {k});
      KeyLeIsOrder();
      InsertKeepsOrder(KeyLe, k, rest);
      InsertKeepsDistinct(KeyLe, k, rest);
      keys := Insert(KeyLe, k, rest);
    }
  }

  ghost function ListingOf(all: set<Key>): (keys: seq<Key>)
    ensures IsListing(keys, all)
  {
    assert exists keys :: IsListing(keys, all) by { var keys := ListingExists(all); }
    var keys :| IsListing(keys, all);
    keys
  }

  lemma {:induction false} ListingIsUnique(a: seq<Key>, b: seq<Key>, all: set<Key>)
    requires IsListing(a, all) && IsListing(b, all)
    ensures a == b
    decreases |a|
  {
    hide KeyLe;
    if a != [] || b != [] {
      var k := if a != [] then a[0] else b[0];
      assert k in all && k in a && k in b;
      assert a[0] in a && a[0] in b;
      assert b[0] in b && b[0] in a;
      FirstIsLeast(a, b[0]);
      FirstIsLeast(b, a[0]);
      KeyLeOf(a[0], b[0], a[0]);
      RestIsListing(a, all);
      RestIsListing(b, all);
      ListingIsUnique(a[1..], b[1..], all - {a[0]});
      assert a == [a[0]] + a[1..] && b == [b[0]] + b[1..];
    }
  }

  lemma FirstIsLeast(keys: seq<Key>, k: Key)
    requires InOrder(KeyLe, keys) && k in keys
    ensures KeyLe(keys[0], k)
  {
    var i :| 0 <= i < |keys| && keys[i] == k;
    KeyLeOf(k, k, k);
  }

  lemma RestIsListing(keys: seq<Key>, all: set<Key>)
    requires IsListing(keys, all) && keys != []
    ensures IsListing(keys[1..], all - {keys[0]})
  {
    hide KeyLe;
    assert keys == [keys[0]] + keys[1..];
  }

  /** Of some keys, those wanted. */
  function Pick(keys: seq<Key>, wanted: set<Key>): seq<Key> {
    if keys == [] then []
    else Pick(keys[..|keys| - 1], wanted) + (if keys[|keys| - 1] in wanted then [keys[|keys| - 1]] else [])
  }

  lemma PickMore(keys: seq<Key>, i: nat, wanted: set<Key>)
    requires i < |keys|
    ensures Pick(keys[..i + 1], wanted) == Pick(keys[..i], wanted) + (if keys[i] in wanted then [keys[i]] else [])
  {
    assert keys[..i + 1][..i] == keys[..i];
  }

  /** What is picked keeps its place: the front is no later than the last key. */
  lemma RestOfListing(keys: seq<Key>, all: set<Key>)
    requires IsListing(keys, all) && keys != []
    ensures var last, rest := keys[|keys| - 1], keys[..|keys| - 1];
            IsListing(rest, all - {last}) && last in all && forall k | k in rest :: KeyLe(k, last)
  {
    hide KeyLe;
    assert keys == keys[..|keys| - 1] + [keys[|keys| - 1]];
  }

  lemma AppendIsListing(front: seq<Key>, all: set<Key>, last: Key)
    requires IsListing(front, all) && last !in all && forall k | k in front :: KeyLe(k, last)
    ensures IsListing(front + [last], all + {last})
  {
    hide KeyLe;
    AppendKeepsOrder(KeyLe, front, last);
  }

  lemma {:induction false} PickIsListing(keys: seq<Key>, all: set<Key>, wanted: set<Key>)
    requires IsListing(keys, all)
    ensures IsListing(Pick(keys, wanted), all * wanted)
    decreases |keys|
  {
    if keys == [] {
      assert all == {} by { hide KeyLe; assert forall k :: k in keys <==> k in all; }
      assert Pick(keys, wanted) == [];
    } else {
      hide IsListing, KeyLe;
      var last, rest := keys[|keys| - 1], keys[..|keys| - 1];
      RestOfListing(keys, all);
      PickIsListing(rest, all - {last}, wanted);
      var picked := Pick(rest, wanted);
      ListingMembers(rest, all - {last});
      ListingMembers(picked, (all - {last}) * wanted);
      if last in wanted {
        AppendIsListing(picked, (all - {last}) * wanted, last);
        assert all * wanted == (all - {last}) * wanted + {last};
      } else {
        assert all * wanted == (all - {last}) * wanted;
        assert picked + [] == picked;
      }
    }
  }

  /** Picking from a listing lists what is picked. */
  lemma PickedListing(keys: seq<Key>, all: set<Key>, wanted: set<Key>)
    requires IsListing(keys, all) && wanted <= all
    ensures Pick(keys, wanted) == ListingOf(wanted)
  {
    PickIsListing(keys, all, wanted);
    assert all * wanted == wanted;
    ListingIsUnique(Pick(keys, wanted), ListingOf(wanted), wanted);
  }

  // ---- the comparison ----

  function BaseValue(base: Findings, key: Key): Option<nat> {
    if key in base then Some(base[key]) else None
  }

  /** Keys with their values at the base. */
  function WithBase(base: Findings, keys: seq<Key>): seq<(Key, Option<nat>)> {
    seq(|keys|, i requires 0 <= i < |keys| => (keys[i], BaseValue(base, keys[i])))
  }

  /** Where each base unit that moved went. */
  function Arrivals(moves: map<Key, Key>): map<Key, Key>
    requires forall a, b | a in moves && b in moves && moves[a] == moves[b] :: a == b
  {
    map now | now in moves :: moves[now] := now
  }

  /** What became of a base unit: itself or what it moved to, with its value; none when it is within the limit or
    * gone. */
  function NowOf(head: Findings, moved: map<Key, Key>, key: Key): Option<(Key, nat)> {
    if key in head then Some((key, head[key]))
    else if key in moved && moved[key] in head then Some((moved[key], head[moved[key]]))
    else None
  }

  ghost function MovedTo(head: Findings, base: Findings): map<Key, Key> {
    MovesAreUnique(MovesTo(head, base), Only(base, head), Only(head, base));
    Arrivals(MovesTo(head, base))
  }

  /** The judged base units that are gone or better now. */
  ghost function ImprovedKeys(head: Findings, base: Findings, touched: Option<set<string>>): set<Key> {
    set k | k in base && Judged(touched, k.path) && IsBetter(base[k], NowOf(head, MovedTo(head, base), k))
  }

  /** A base unit, its value there, and what became of it. */
  type Improvement = (Key, Option<nat>, Option<(Key, nat)>)

  predicate IsBetter(before: nat, now: Option<(Key, nat)>) {
    now.None? || before > now.value.1
  }

  function WithNow(head: Findings, base: Findings, moved: map<Key, Key>, keys: seq<Key>): seq<Improvement> {
    seq(|keys|, i requires 0 <= i < |keys| => (keys[i], BaseValue(base, keys[i]), NowOf(head, moved, keys[i])))
  }

  lemma WithNowMore(head: Findings, base: Findings, moved: map<Key, Key>, keys: seq<Key>, key: Key)
    ensures WithNow(head, base, moved, keys + [key])
         == WithNow(head, base, moved, keys) + [(key, BaseValue(base, key), NowOf(head, moved, key))]
  {
    hide BaseValue, NowOf;
  }

  lemma KeysAreHeads(head: Findings, base: Findings, touched: Option<set<string>>)
    ensures NewKeys(head, base, touched) <= head.Keys && UntouchedKeys(head, base, touched) <= head.Keys
    ensures WorseKeys(head, base, touched) <= head.Keys * base.Keys && ImprovedKeys(head, base, touched) <= base.Keys
  {
    hide Granted, MovedTo, NowOf;
  }

  class Outcome {
    const touched: Option<set<string>>
    var added: seq<Key>
    var worsened: seq<(Key, Option<nat>)>
    var untouched: seq<(Key, Option<nat>)>
    var improved: seq<Improvement>

    constructor (touched: Option<set<string>>)
      ensures this.touched == touched && added == [] && worsened == [] && untouched == [] && improved == []
    {
      this.touched, added, worsened, untouched, improved := touched, [], [], [], [];
    }

    method ListOne(head: Findings, base: Findings, moves: map<Key, Key>, key: Key)
      requires key in head && moves == MovesTo(head, base)
      modifies `added, `worsened, `untouched
      ensures added == old(added) + if key in NewKeys(head, base, touched) then [key] else []
      ensures worsened == old(worsened) + WithBase(base, if key in WorseKeys(head, base, touched) then [key] else [])
      ensures untouched == old(untouched) + WithBase(base,
              if key in UntouchedKeys(head, base, touched) then [key] else [])
    {
      assert WithBase(base, []) == [] && WithBase(base, [key]) == [(key, BaseValue(base, key))];
      if key in moves || (key in base && head[key] <= base[key]) {
        return;
      }
      if !Judged(touched, key.path) {
        untouched := untouched + [(key, BaseValue(base, key))];
      } else if key !in base {
        added := added + [key];
      } else {
        worsened := worsened + [(key, BaseValue(base, key))];
      }
    }

    /** List each head unit that the base does not grant its value, in key order; stops at an unknown metric to
      * compare. */
    method ListAll(head: Findings, base: Findings, moves: map<Key, Key>, metrics: set<string>) returns (ok: bool)
      requires moves == MovesTo(head, base)
      modifies `added, `worsened, `untouched
      ensures ok <==> forall k | k in head && k in base :: k.metric in metrics
      ensures ok ==> added == old(added) + ListingOf(NewKeys(head, base, touched))
      ensures ok ==> worsened == old(worsened) + WithBase(base, ListingOf(WorseKeys(head, base, touched)))
      ensures ok ==> untouched == old(untouched) + WithBase(base, ListingOf(UntouchedKeys(head, base, touched)))
    {
      hide NewKeys, WorseKeys, UntouchedKeys, MovesTo, WithBase, ImprovedKeys, IsListing, Pick;
      ghost var come, grown, other := NewKeys(head, base, touched), WorseKeys(head, base, touched),
        UntouchedKeys(head, base, touched);
      KeysAreHeads(head, base, touched);
      var keys := ListKeys(head.Keys);
      ListingMembers(keys, head.Keys);
      NothingPicked(base, keys, come, grown, other);
      var i := 0;
      while i < |keys|
        invariant 0 <= i <= |keys|
        invariant forall k | k in keys[..i] && k in base :: k.metric in metrics
        invariant added == old(added) + Pick(keys[..i], come)
        invariant worsened == old(worsened) + WithBase(base, Pick(keys[..i], grown))
        invariant untouched == old(untouched) + WithBase(base, Pick(keys[..i], other))
      {
        var key := keys[i];
        assert key in keys;
        if key in base && key.metric !in metrics {
          return false;
        }
        ListOne(head, base, moves, key);
        PickedMore(base, keys, i, come, grown, other);
        i := i + 1;
      }
      assert keys[..i] == keys;
      PickedListing(keys, head.Keys, come);
      PickedListing(keys, head.Keys, grown);
      PickedListing(keys, head.Keys, other);
      ok := true;
    }

    /** List each judged base unit that is gone or better, in key order, with what became of it. */
    method ListImproved(head: Findings, base: Findings, moved: map<Key, Key>)
      requires moved == MovedTo(head, base)
      modifies `improved
      ensures improved == old(improved) + WithNow(head, base, MovedTo(head, base),
              ListingOf(ImprovedKeys(head, base, touched)))
    {
      hide *;
      var keys := ListKeys(base.Keys);
      ListingMembers(keys, base.Keys);
      KeysAreHeads(head, base, touched);
      ghost var better := ImprovedKeys(head, base, touched);
      NothingImproved(head, base, moved, keys, better);
      var i := 0;
      while i < |keys|
        invariant 0 <= i <= |keys| && improved == old(improved) + WithNow(head, base, moved, Pick(keys[..i], better))
      {
        var key := keys[i];
        assert key in keys;
        var now := NowOf(head, moved, key);
        if Judged(touched, key.path) && IsBetter(base[key], now) {
          improved := improved + [(key, BaseValue(base, key), now)];
        }
        ImprovedMeans(head, base, touched, key);
        ImprovedMore(head, base, moved, keys, i, better);
        i := i + 1;
      }
      assert keys[..i] == keys;
      PickedListing(keys, base.Keys, better);
    }

    /** List what is held against the change, and what it made better; fails when it would have to compare an unknown
      * metric. */
    method Compare(head: Findings, base: Findings, metrics: set<string>) returns (ok: bool)
      modifies this
      ensures ok <==> Comparable(head, base, metrics)
      ensures ok ==> added == old(added) + ListingOf(NewKeys(head, base, touched))
      ensures ok ==> worsened == old(worsened) + WithBase(base, ListingOf(WorseKeys(head, base, touched)))
      ensures ok ==> untouched == old(untouched) + WithBase(base, ListingOf(UntouchedKeys(head, base, touched)))
      ensures ok ==> improved == old(improved) + WithNow(head, base, MovedTo(head, base),
              ListingOf(ImprovedKeys(head, base, touched)))
    {
      hide NewKeys, WorseKeys, UntouchedKeys, ImprovedKeys, WithBase, WithNow, PairsKnown, IsMoves, MovedTo;
      var moves := MatchMoves(Only(base, head), Only(head, base), metrics);
      if moves.None? {
        return false;
      }
      MovesAreUnique(moves.value, Only(base, head), Only(head, base));
      ok := ListAll(head, base, moves.value, metrics);
      if ok {
        MovedIs(head, base);
        ListImproved(head, base, Arrivals(moves.value));
      }
    }
  }

  lemma MovedIs(head: Findings, base: Findings)
    ensures var moves := MovesTo(head, base);
            (forall a, b | a in moves && b in moves && moves[a] == moves[b] :: a == b) &&
              MovedTo(head, base) == Arrivals(moves)
  {
    MovesAreUnique(MovesTo(head, base), Only(base, head), Only(head, base));
  }

  lemma ListingMembers(keys: seq<Key>, all: set<Key>)
    requires IsListing(keys, all)
    ensures forall k :: k in keys <==> k in all
  {
  }

  lemma NothingPicked(base: Findings, keys: seq<Key>, come: set<Key>, grown: set<Key>, other: set<Key>)
    ensures Pick(keys[..0], come) == [] && WithBase(base, Pick(keys[..0], grown)) == [] &&
            WithBase(base, Pick(keys[..0], other)) == []
  {
  }

  lemma PickedMore(base: Findings, keys: seq<Key>, i: nat, come: set<Key>, grown: set<Key>, other: set<Key>)
    requires i < |keys|
    ensures Pick(keys[..i + 1], come) == Pick(keys[..i], come) + (if keys[i] in come then [keys[i]] else [])
    ensures WithBase(base, Pick(keys[..i + 1], grown))
         == WithBase(base, Pick(keys[..i], grown)) + WithBase(base, if keys[i] in grown then [keys[i]] else [])
    ensures WithBase(base, Pick(keys[..i + 1], other))
         == WithBase(base, Pick(keys[..i], other)) + WithBase(base, if keys[i] in other then [keys[i]] else [])
  {
    PickMore(keys, i, come);
    PickMore(keys, i, grown);
    PickMore(keys, i, other);
    hide Pick, BaseValue;
    assert forall a, b :: WithBase(base, a + b) == WithBase(base, a) + WithBase(base, b);
  }

  lemma NothingImproved(head: Findings, base: Findings, moved: map<Key, Key>, keys: seq<Key>, better: set<Key>)
    ensures WithNow(head, base, moved, Pick(keys[..0], better)) == []
  {
  }

  lemma ImprovedMeans(head: Findings, base: Findings, touched: Option<set<string>>, key: Key)
    requires key in base
    ensures key in ImprovedKeys(head, base, touched) <==>
            Judged(touched, key.path) && IsBetter(base[key], NowOf(head, MovedTo(head, base), key))
  {
    hide MovedTo, NowOf, Judged, IsBetter;
  }

  lemma ImprovedMore(head: Findings, base: Findings, moved: map<Key, Key>, keys: seq<Key>, i: nat, better: set<Key>)
    requires i < |keys|
    ensures WithNow(head, base, moved, Pick(keys[..i + 1], better))
         == WithNow(head, base, moved, Pick(keys[..i], better))
            + (if keys[i] in better then [(keys[i], BaseValue(base, keys[i]), NowOf(head, moved, keys[i]))] else [])
  {
    PickMore(keys, i, better);
    WithNowMore(head, base, moved, Pick(keys[..i], better), keys[i]);
    hide WithNow, Pick;
  }
}
