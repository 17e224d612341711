/** Exact lookup over an immutable view: the inverted index answers as a scan of the visible records would.
  *
  * A value is its canonical encoding, so two values are equal when their encodings are.
  */
module QueryIndex {
  import opened Prelude
  import opened Sorting
  import Ordering

  type Id = string
  type Value = string

  /** A path a lookup may name: one every record has, or a field of a category. */
  datatype Field = SchemaRef | Objective | Status | Named(category: string, name: string)

  datatype Experience = Experience(id: Id, schemaRef: Value, objective: Value, status: Value,
    values: map<(string, string), Value>)

  const IDENTITY := "identity"

  /** The paths a record is found under: its identity, declared or not, and the declared fields of other categories. */
  function LookupFields(declared: set<(string, string)>, e: Experience): map<Field, Value> {
    map[SchemaRef := e.schemaRef, Objective := e.objective, Status := e.status]
    + map p | p in e.values && (p.0 == IDENTITY || p in declared) :: Named(p.0, p.1) := e.values[p]
  }

  /** Whether a record's own lookup fields match every clause. */
  predicate Matches(fields: map<Field, Value>, where: map<Field, Value>) {
    forall f | f in where :: f in fields && fields[f] == where[f]
  }

  // ---- the index ----

  type Index = map<Field, map<Value, seq<Id>>>

  function Listed(index: Index, f: Field, v: Value): seq<Id> {
    if f in index && v in index[f] then index[f][v] else []
  }

  /** What a view keeps of a record for lookups. */
  datatype Entry = Entry(id: Id, fields: map<Field, Value>)

  ghost predicate Has(entries: seq<Entry>, id: Id, f: Field, v: Value) {
    exists e :: e in entries && e.id == id && f in e.fields && e.fields[f] == v
  }

  ghost predicate Known(entries: seq<Entry>, f: Field) {
    exists e :: e in entries && f in e.fields
  }

  /** The index lists an id under a field and value exactly when a record with that id has it. */
  ghost predicate Indexes(index: Index, entries: seq<Entry>) {
    && (forall f :: f in index <==> Known(entries, f))
    && (forall f, v, id :: id in Listed(index, f, v) <==> Has(entries, id, f, v))
  }

  function AddTo(index: Index, f: Field, v: Value, id: Id): Index {
    var values := if f in index then index[f] else map[];
    index[f := values[v := (if v in values then values[v] else []) + [id]]]
  }

  lemma AddToLists(index: Index, f: Field, v: Value, id: Id)
    ensures forall g, w ::
            Listed(AddTo(index, f, v, id), g, w) == Listed(index, g, w) + (if g == f && w == v then [id] else [])
    ensures AddTo(index, f, v, id).Keys == index.Keys + {f}
  {
  }

  /** Add one record under each of its fields. */
  method AddEntry(index: Index, e: Entry) returns (index': Index)
    ensures index'.Keys == index.Keys + e.fields.Keys
    ensures forall g, w ::
            Listed(index', g, w) == Listed(index, g, w) + (if g in e.fields && e.fields[g] == w then [e.id] else [])
  {
    hide AddTo, Listed;
    index' := index;
    assert forall g, w :: Listed(index, g, w) + [] == Listed(index, g, w);
    var rest := e.fields.Keys;
    while rest != {}
      invariant rest <= e.fields.Keys && index'.Keys == index.Keys + (e.fields.Keys - rest)
      invariant forall g, w :: Listed(index', g, w) ==
                  Listed(index, g, w) + (if g in e.fields && g !in rest && e.fields[g] == w then [e.id] else [])
      decreases rest
    {
      var f :| f in rest;
      AddToLists(index', f, e.fields[f], e.id);
      ghost var before := index';
      index' := AddTo(index', f, e.fields[f], e.id);
      rest := rest - {f};
      assert forall g, w :: Listed(before, g, w) + [] == Listed(before, g, w);
      assert forall g, w :: Listed(index, g, w) + [] + [e.id] == Listed(index, g, w) + [e.id];
    }
  }

  /** No list of the index names an id twice. */
  ghost predicate ListsDiffer(index: Index) {
    forall f, v :: Distinct(Listed(index, f, v))
  }

  ghost predicate ListsAscend(index: Index) {
    forall f, v :: InOrder(Ordering.Le, Listed(index, f, v))
  }

  method Stage(declared: set<(string, string)>, experiences: seq<Experience>) returns (index: Index)
    ensures Indexes(index, EntriesOf(declared, experiences))
    ensures DistinctIds(EntriesOf(declared, experiences)) ==> ListsDiffer(index)
  {
    index := map[];
    var staged: seq<Entry> := [];
    var i := 0;
    while i < |experiences|
      invariant 0 <= i <= |experiences| && staged == EntriesOf(declared, experiences[..i]) && Indexes(index, staged)
      invariant DistinctIds(staged) ==> ListsDiffer(index)
    {
      hide LookupFields, Listed;
      var e := EntryOf(declared, experiences[i]);
      EntriesGrow(declared, experiences, i);
      index := IndexOne(index, staged, e);
      staged := staged + [e];
      i := i + 1;
    }
    assert experiences[..i] == experiences;
  }

  function SortLists(index: Index): Index {
    map f | f in index :: map v | v in index[f] :: Sort(Ordering.Le, index[f][v])
  }

  lemma LeIsOrder()
    ensures IsOrder(Ordering.Le)
  {
    forall a, b ensures Ordering.Le(a, b) || Ordering.Le(b, a) { Ordering.LeTotal(a, b); }
    forall a, b, c | Ordering.Le(a, b) && Ordering.Le(b, c) ensures Ordering.Le(a, c) {
      Ordering.LeTransitive(a, b, c);
    }
  }

  lemma SortListsSorts(index: Index, entries: seq<Entry>)
    requires Indexes(index, entries)
    ensures Indexes(SortLists(index), entries) && ListsAscend(SortLists(index))
    ensures ListsDiffer(index) ==> ListsDiffer(SortLists(index))
  {
    hide Has, Known, IsOrder, InOrder;
    LeIsOrder();
    var sorted := SortLists(index);
    forall f, v ensures Listed(sorted, f, v) == Sort(Ordering.Le, Listed(index, f, v)) {
      NothingIsSorted(Ordering.Le);
    }
    forall f, v ensures InOrder(Ordering.Le, Listed(sorted, f, v)) &&
      forall id :: id in Listed(sorted, f, v) <==> id in Listed(index, f, v) {
      SortSorts(Ordering.Le, Listed(index, f, v));
      SortedMembers(Ordering.Le, Listed(index, f, v));
    }
    if ListsDiffer(index) {
      forall f, v ensures Distinct(Listed(sorted, f, v)) { SortKeepsDistinct(Ordering.Le, Listed(index, f, v)); }
    }
  }

  /** Every id under each field and value of its record, in id order and, as ids differ, once. */
  method BuildLookup(declared: set<(string, string)>, experiences: seq<Experience>) returns (index: Index)
    ensures Indexes(index, EntriesOf(declared, experiences)) && ListsAscend(index)
    ensures DistinctIds(EntriesOf(declared, experiences)) ==> ListsDiffer(index)
  {
    hide Indexes, ListsDiffer, ListsAscend, DistinctIds, EntriesOf, SortLists;
    var staged := Stage(declared, experiences);
    SortListsSorts(staged, EntriesOf(declared, experiences));
    index := SortLists(staged);
  }

  function EntryOf(declared: set<(string, string)>, e: Experience): Entry {
    Entry(e.id, LookupFields(declared, e))
  }

  function EntriesOf(declared: set<(string, string)>, experiences: seq<Experience>): seq<Entry> {
    seq(|experiences|, i requires 0 <= i < |experiences| => EntryOf(declared, experiences[i]))
  }

  lemma EntriesGrow(declared: set<(string, string)>, experiences: seq<Experience>, i: nat)
    requires i < |experiences|
    ensures EntriesOf(declared, experiences[..i + 1]) ==
            EntriesOf(declared, experiences[..i]) + [EntryOf(declared, experiences[i])]
  {
    hide EntryOf;
  }

  method IndexOne(index: Index, ghost entries: seq<Entry>, e: Entry) returns (index': Index)
    requires Indexes(index, entries) && (DistinctIds(entries) ==> ListsDiffer(index))
    ensures Indexes(index', entries + [e]) && (DistinctIds(entries + [e]) ==> ListsDiffer(index'))
  {
    hide Listed;
    index' := AddEntry(index, e);
    MoreEntries(entries, e);
    NewIdIsNotListed(index, entries, e);
    hide Known, Has, DistinctIds;
    assert forall g, w, x :: x in Listed(index', g, w) <==>
      x in Listed(index, g, w) || (x == e.id && g in e.fields && e.fields[g] == w);
  }

  lemma NewIdIsNotListed(index: Index, entries: seq<Entry>, e: Entry)
    requires Indexes(index, entries)
    ensures DistinctIds(entries + [e]) ==> DistinctIds(entries) && forall f, v :: e.id !in Listed(index, f, v)
  {
    hide Listed;
    if DistinctIds(entries + [e]) {
      var more := entries + [e];
      assert forall i | 0 <= i < |entries| :: more[i] == entries[i] && more[i].id != more[|entries|].id;
      forall f, v ensures !Has(entries, e.id, f, v) {}
    }
  }

  lemma MoreEntries(entries: seq<Entry>, e: Entry)
    ensures forall f :: Known(entries + [e], f) <==> Known(entries, f) || f in e.fields
    ensures forall id, f, v :: Has(entries + [e], id, f, v) <==>
            Has(entries, id, f, v) || (id == e.id && f in e.fields && e.fields[f] == v)
  {
    var more := entries + [e];
    assert e == more[|entries|];
    assert forall x :: x in more <==> x in entries || x == e;
    forall id, f, v | id == e.id && f in e.fields && e.fields[f] == v ensures Has(more, id, f, v) { assert e in more; }
    forall f | f in e.fields ensures Known(more, f) { assert e in more; }
    forall id, f, v | Has(entries, id, f, v) ensures Has(more, id, f, v) {
      var x :| x in entries && x.id == id && f in x.fields && x.fields[f] == v;
      assert x in more;
    }
    forall f | Known(entries, f) ensures Known(more, f) {
      var x :| x in entries && f in x.fields;
      assert x in more;
    }
  }

  // ---- the query ----

  ghost predicate DistinctIds(entries: seq<Entry>) {
    forall i, j | 0 <= i < j < |entries| :: entries[i].id != entries[j].id
  }

  /** The scan: the visible records whose own fields match every clause. */
  function Scan(entries: seq<Entry>, visible: set<Id>, where: map<Field, Value>): set<Id> {
    set e | e in entries && e.id in visible && Matches(e.fields, where) :: e.id
  }

  /** What is left of the visible ids after some of the clauses. */
  ghost predicate Narrowed(ids: set<Id>, entries: seq<Entry>,
                           visible: set<Id>, where: map<Field, Value>, done: set<Field>) {
    forall id :: id in ids <==> id in visible && forall f | f in done && f in where :: Has(entries, id, f, where[f])
  }

  lemma NarrowedIsScan(ids: set<Id>, entries: seq<Entry>, visible: set<Id>, where: map<Field, Value>)
    requires Narrowed(ids, entries, visible, where, where.Keys) && DistinctIds(entries)
    requires forall id | id in visible :: exists e :: e in entries && e.id == id
    ensures ids == Scan(entries, visible, where)
  {
    forall id | id in visible ensures id in ids <==> id in Scan(entries, visible, where) {
      var e :| e in entries && e.id == id;
      forall f, v | Has(entries, id, f, v) ensures f in e.fields && e.fields[f] == v {
        var x :| x in entries && x.id == id && f in x.fields && x.fields[f] == v;
        OneEntry(entries, e, x);
      }
      forall x | x in entries && x.id == id ensures x == e { OneEntry(entries, e, x); }
    }
  }

  lemma OneEntry(entries: seq<Entry>, a: Entry, b: Entry)
    requires DistinctIds(entries) && a in entries && b in entries && a.id == b.id
    ensures a == b
  {
    var i :| 0 <= i < |entries| && entries[i] == a;
    var j :| 0 <= j < |entries| && entries[j] == b;
    assert i == j;
  }

  /** The index refines the scan: for every record set, restriction, where-clause and limit, a lookup returns the first
    * ids, in id order, of the visible records whose own fields match every clause; a negative limit is an error. */
  method Lookup(index: Index, ghost entries: seq<Entry>, visible: set<Id>, where: map<Field, Value>, limit: int)
    returns (hits: Option<seq<Id>>)
    requires Indexes(index, entries) && DistinctIds(entries)
    requires forall id | id in visible :: exists e :: e in entries && e.id == id
    ensures hits == if limit < 0 then None else Some(FirstOf(Ordering.Sorted(Scan(entries, visible, where)), limit))
  {
    if limit < 0 {
      return None;
    }
    hide Has, Known, Scan;
    var ids := visible;
    var rest := where.Keys;
    ghost var done: set<Field> := {};
    while rest != {}
      invariant rest <= where.Keys && done == where.Keys - rest && Narrowed(ids, entries, visible, where, done)
      decreases rest
    {
      var f :| f in rest;
      if f !in index {
        NoneHas(index, entries, f);
        ids := {};
        assert Narrowed(ids, entries, visible, where, where.Keys) by { assert f in where.Keys; }
        rest := {};
        done := where.Keys;
        break;
      }
      var listed := Listed(index, f, where[f]);
      ids := set id | id in ids && id in listed;
      rest, done := rest - {f}, done + {f};
    }
    assert done == where.Keys;
    NarrowedIsScan(ids, entries, visible, where);
    hits := Some(FirstOf(Ordering.Sorted(ids), limit));
  }

  lemma NoneHas(index: Index, entries: seq<Entry>, f: Field)
    requires Indexes(index, entries) && f !in index
    ensures forall id, v :: !Has(entries, id, f, v)
  {
    assert !Known(entries, f);
  }

  lemma EntriesHaveIds(declared: set<(string, string)>, experiences: seq<Experience>)
    requires forall i, j | 0 <= i < j < |experiences| :: experiences[i].id != experiences[j].id
    ensures DistinctIds(EntriesOf(declared, experiences))
    ensures forall x | x in experiences :: exists e :: e in EntriesOf(declared, experiences) && e.id == x.id
  {
    hide LookupFields;
    var entries := EntriesOf(declared, experiences);
    forall x | x in experiences ensures exists e :: e in entries && e.id == x.id {
      var i :| 0 <= i < |experiences| && experiences[i] == x;
      assert entries[i] in entries && entries[i].id == x.id;
    }
  }

  /** A view built from records answers a lookup as a scan of them would, whatever part of them it shows. */
  method ExactQuery(declared: set<(string, string)>, experiences: seq<Experience>,
                    allowed: set<Id>, where: map<Field, Value>, limit: int)
    returns (hits: Option<seq<Id>>)
    requires forall i, j | 0 <= i < j < |experiences| :: experiences[i].id != experiences[j].id
    ensures var visible := set e | e in experiences && e.id in allowed :: e.id;
            hits == if limit < 0 then None
                    else Some(FirstOf(Ordering.Sorted(Scan(EntriesOf(declared, experiences), visible, where)), limit))
  {
    hide EntriesOf, DistinctIds, Indexes, Scan, ListsAscend, ListsDiffer;
    var index := BuildLookup(declared, experiences);
    var visible := set e | e in experiences && e.id in allowed :: e.id;
    EntriesHaveIds(declared, experiences);
    hits := Lookup(index, EntriesOf(declared, experiences), visible, where, limit);
  }

  /** Whether a lookup may find a value at a field of a record: the three fields every record has, its identity, and of
    * the other categories what is declared. */
  ghost predicate FoundAt(declared: set<(string, string)>, e: Experience, f: Field, v: Value) {
    match f
    case SchemaRef => e.schemaRef == v
    case Objective => e.objective == v
    case Status => e.status == v
    case Named(category, name) =>
      && (category, name) in e.values && e.values[(category, name)] == v
      && (category == "identity" || (category, name) in declared)
  }

  lemma LookupMeaning(declared: set<(string, string)>, e: Experience, f: Field, v: Value)
    ensures f in LookupFields(declared, e) && LookupFields(declared, e)[f] == v <==> FoundAt(declared, e, f, v)
  {
    var named := map p | p in e.values && (p.0 == IDENTITY || p in declared) :: Named(p.0, p.1) := e.values[p];
    match f
    case Named(category, name) =>
      assert f in named <==> (category, name) in e.values && (category == IDENTITY || (category, name) in declared);
    case _ =>
      assert f !in named;
  }

  /** What a scan finds: the visible records of which every clause holds. */
  lemma ScanMeaning(declared: set<(string, string)>, experiences: seq<Experience>, visible: set<Id>,
                    where: map<Field, Value>, id: Id)
    ensures id in Scan(EntriesOf(declared, experiences), visible, where) <==>
            && id in visible
            && exists e :: e in experiences && e.id == id && forall f | f in where :: FoundAt(declared, e, f, where[f])
  {
    hide LookupFields, FoundAt;
    var entries := EntriesOf(declared, experiences);
    forall e, f | f in where
      ensures FoundAt(declared, e, f, where[f]) <==>
                f in LookupFields(declared, e) && LookupFields(declared, e)[f] == where[f] {
      LookupMeaning(declared, e, f, where[f]);
    }
    forall e | e in experiences ensures EntryOf(declared, e) in entries {
      var i :| 0 <= i < |experiences| && experiences[i] == e;
      assert entries[i] == EntryOf(declared, e);
    }
    forall x | x in entries ensures exists e :: e in experiences && x == EntryOf(declared, e) {
      var i :| 0 <= i < |entries| && entries[i] == x;
      assert experiences[i] in experiences;
    }
  }
}
