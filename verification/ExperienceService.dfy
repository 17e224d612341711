/** The service over its tables: rows keyed by id and by position, the caches it keeps, and the requests that change
  * them, each proved to do to the tables what the operation of the same name does to a KB.
  */
module ExperienceService {
  import opened Prelude
  import opened Log
  import opened KbState
  import opened KbTheorems

  /** One row of the `experiences` table. */
  datatype Stored = Stored(sequence: nat, record: Record)

  /** What reads of one schema search, built at one version of its records and state. */
  datatype ReadView = ReadView(version: nat, records: set<Record>)

  /** A view that is what a rebuild would give, or whose version has been left behind for good. */
  ghost predicate Stands(kb: Kb, schema: Schema, view: ReadView) {
    && view.version <= StateOf(kb, schema).version
    && (view.version == StateOf(kb, schema).version ==> view.records == ViewRecords(kb, schema))
  }

  /** A view built at one moment stands through whatever runs until it is published. */
  lemma StandsThroughARun(kb: Kb, ops: seq<Op>, schema: Schema, view: ReadView)
    requires Valid(kb) && Stands(kb, schema, view)
    ensures Stands(ApplyAll(kb, ops), schema, view)
  {
    ViewStandsWhileVersionStands(kb, ops, schema);
  }

  lemma ViewsStand(kb: Kb, op: Op, views: map<Schema, ReadView>)
    requires Valid(kb) && forall s | s in views :: Stands(kb, s, views[s])
    ensures Valid(Apply(kb, op)) && forall s | s in views :: Stands(Apply(kb, op), s, views[s])
  {
    ApplyKeepsValid(kb, op);
    forall s | s in views ensures Stands(Apply(kb, op), s, views[s]) { VersionGuardsView(kb, op, s); }
  }

  /** Reading one row past the limit, or to the end, is enough to make a page. */
  lemma PrefixMakesPage(log: seq<Record>, schema: Option<Schema>, after: nat, n: nat, limit: nat, rows: seq<Row>)
    requires after <= n && (n <= |log| || n == after)
    requires rows == if after <= |log| then Rows(log, schema, after, n) else []
    requires n >= |log| || |rows| == limit + 1
    ensures var shown := if |rows| <= limit then rows else rows[..limit];
            RecordsAfter(log, schema, after, limit)
            == Page(shown, if shown == [] then after else shown[|shown| - 1].position, |rows| > limit)
  {
    if after <= |log| {
      var rest := Rows(log, schema, n, |log|);
      RowsSplit(log, schema, after, n, |log|);
      hide Rows;
      if |rows| > limit {
        TakeOfConcat(rows, rest, limit);
      } else {
        assert rows + rest == rows;
      }
    }
  }

  lemma TakeOfConcat<T>(a: seq<T>, b: seq<T>, k: nat)
    requires k <= |a|
    ensures (a + b)[..k] == a[..k]
  {
  }

  lemma RowsStart(log: seq<Record>, schema: Option<Schema>, after: nat)
    requires after <= |log|
    ensures Rows(log, schema, after, after) == []
  {
  }

  lemma RowsStep(log: seq<Record>, schema: Option<Schema>, after: nat, n: nat)
    requires after < n <= |log|
    ensures Matches(schema, log[n - 1]) ==>
            Rows(log, schema, after, n) == Rows(log, schema, after, n - 1) + [Row(n, log[n - 1])]
    ensures !Matches(schema, log[n - 1]) ==> Rows(log, schema, after, n) == Rows(log, schema, after, n - 1)
  {
  }

  lemma SavedStays(kb: Kb, schema: Schema, newTag: LabelId)
    requires SaveIfModified(kb, schema, newTag).Some?
    ensures schema in SaveIfModified(kb, schema, newTag).value.schemas
    ensures SaveIfModified(kb, schema, newTag).value.log == kb.log
  {
  }

  class Service {
    var lastSequence: nat
    var experiences: map<Id, Stored>
    var bySequence: map<nat, Id>
    var files: set<FileId>
    var schemas: map<Schema, SchemaState>
    var labels: map<LabelId, Label>
    var views: map<Schema, ReadView>
    ghost var log: seq<Record>

    /** The KB these tables hold. */
    ghost function Db(): Kb
      reads this
    {
      Kb(log, files, schemas, labels)
    }

    /** Positions are exactly 1..lastSequence, each held by one record, which is found under its own id. */
    ghost predicate Indexed()
      reads this
    {
      && |log| == lastSequence
      && (forall n :: n in bySequence <==> 1 <= n <= lastSequence)
      && (forall n | n in bySequence :: bySequence[n] in experiences && experiences[bySequence[n]].sequence == n)
      && (forall n | n in bySequence :: experiences[bySequence[n]].record == log[n - 1])
      && (forall id | id in experiences ::
        experiences[id].sequence in bySequence && bySequence[experiences[id].sequence] == id
                                           && experiences[id].record.id == id)
    }

    /** The tables are consistent and no cached view is ever wrong. */
    ghost predicate Ok()
      reads this
    {
      Indexed() && Valid(Db()) && forall s | s in views :: Stands(Db(), s, views[s])
    }

    constructor ()
      ensures Ok() && Db() == EMPTY_KB && views == map[]
    {
      lastSequence, experiences, bySequence := 0, map[], map[];
      files, schemas, labels, views, log := {}, map[], map[], map[], [];
    }

    /** A record is found by its id, and its schema is registered. */
    lemma FindIsLookup(id: Id)
      requires Ok()
      ensures Find(log, id) == if id in experiences then Some(experiences[id].record) else None
      ensures id in experiences ==> experiences[id].record.schema in schemas
    {
      IdsAreKeys();
      if id in experiences {
        var n := experiences[id].sequence;
        assert n in bySequence && log[n - 1] == experiences[id].record && log[n - 1] in log;
        SameIdSameRecord(log, log[n - 1], Find(log, id).value);
      }
    }

    lemma FoundId(id: Id)
      requires Ok() && id in experiences
      ensures experiences[id].record.id == id
    {
    }

    lemma OkIsIndexed()
      requires Ok()
      ensures Indexed() && |log| == lastSequence
    {
    }

    lemma IdsAreKeys()
      requires Indexed()
      ensures Ids(log) == experiences.Keys
    {
      forall id | id in experiences ensures id in Ids(log) {
        var n := experiences[id].sequence;
        assert n in bySequence && log[n - 1] in log;
      }
      forall id | id in Ids(log) ensures id in experiences {
        var i :| 0 <= i < |log| && log[i].id == id;
        assert i + 1 in bySequence;
      }
    }

    method RegisterSchema(schema: Schema)
      requires Ok()
      modifies `schemas
      ensures Ok() && Db() == Register(old(Db()), schema)
    {
      hide Valid, Stands;
      ghost var before := Db();
      if schema !in schemas {
        schemas := schemas[schema := FRESH_STATE];
      }
      ViewsStand(before, OpRegister(schema), views);
    }

    method PutFile(file: FileId)
      requires Ok()
      modifies `files
      ensures Ok() && Db() == PutFiles(old(Db()), {file})
    {
      hide Valid, Stands;
      ghost var before := Db();
      files := files + {file};
      ViewsStand(before, OpPutFiles({file}), views);
    }

    /** Hold each of `wanted` that is not held yet. */
    method PutAll(wanted: set<FileId>)
      requires Ok()
      modifies `files
      ensures Ok() && Db() == PutFiles(old(Db()), wanted)
    {
      hide Ok;
      var missing := wanted - files;
      while missing != {}
        invariant Ok() && Db() == old(Db()).(files := files)
        invariant old(files) <= files && files + missing == old(files) + wanted
        decreases missing
      {
        var file :| file in missing;
        PutFile(file);
        missing := missing - {file};
      }
    }

    /** Whether a push may send `r`: reads here see it and no exclusion still withholds it. */
    method IsPushable(r: Record) returns (pushable: bool)
      ensures pushable == Pushable(Db(), r)
    {
      var state := if r.schema in schemas then schemas[r.schema] else FRESH_STATE;
      pushable := r.id !in state.outside && r.id !in state.exclusions && !Withheld(state.history, r.id);
    }

    /** Store one record at the next position, unless its schema, its id, its content or its files forbid it. */
    method WriteRecord(r: Record) returns (status: Status)
      requires Ok()
      modifies `lastSequence, `experiences, `bySequence, `schemas, `log
      ensures Ok() && Written(Db(), status) == Write(old(Db()), r)
      ensures status == Created ==> r.id in experiences && experiences[r.id] == Stored(old(lastSequence) + 1, r)
    {
      hide Valid, Stands;
      ghost var before := Db();
      FindIsLookup(r.id);
      if r.schema !in schemas || !r.complete || r.id == "" {
        return Invalid;
      }
      if r.id in experiences {
        return if experiences[r.id].record == r then Unchanged else Conflict;
      }
      if !(r.files <= files) {
        return MissingFiles;
      }
      Insert(r);
      schemas := schemas[r.schema := schemas[r.schema].(version := schemas[r.schema].version + 1)];
      status := Created;
      ViewsStand(before, OpWrite(r), views);
    }

    /** Give a new record the next position. */
    method Insert(r: Record)
      requires Indexed() && r.id !in experiences
      modifies `lastSequence, `experiences, `bySequence, `log
      ensures Indexed() && log == old(log) + [r]
      ensures experiences == old(experiences)[r.id := Stored(old(lastSequence) + 1, r)]
    {
      lastSequence := lastSequence + 1;
      experiences := experiences[r.id := Stored(lastSequence, r)];
      bySequence := bySequence[lastSequence := r.id];
      log := log + [r];
    }

    /** The record at a position, found through the index of positions. */
    function At(n: nat): (r: Record)
      requires Indexed() && 1 <= n <= lastSequence
      reads this
      ensures r == log[n - 1]
    {
      experiences[bySequence[n]].record
    }

    /** One page of records in write order after a position, of one schema or of all of them. */
    method ReadAfter(after: nat, limit: nat, schema: Option<Schema>) returns (page: Page)
      requires Ok() && limit >= 1
      ensures page == RecordsAfter(log, schema, after, limit)
    {
      hide Ok, Indexed, RecordsAfter, Rows, Matches;
      OkIsIndexed();
      var rows: seq<Row> := [];
      var n := after;
      if after < lastSequence {
        RowsStart(log, schema, after);
        while n < lastSequence && |rows| <= limit
          invariant after <= n <= lastSequence && rows == Rows(log, schema, after, n) && |rows| <= limit + 1
        {
          n := n + 1;
          var record := At(n);
          RowsStep(log, schema, after, n);
          if Matches(schema, record) {
            rows := rows + [Row(n, record)];
          }
        }
      } else if after == lastSequence {
        RowsStart(log, schema, after);
      }
      PrefixMakesPage(log, schema, after, n, limit, rows);
      var shown := if |rows| <= limit then rows else rows[..limit];
      page := Page(shown, if shown == [] then after else shown[|shown| - 1].position, |rows| > limit);
    }

    method Exclude(id: Id, reason: string) returns (known: bool)
      requires Ok()
      modifies `schemas
      ensures Ok() && Db() == ExcludeId(old(Db()), id, reason)
      ensures known <==> id in experiences
    {
      hide Valid, Stands;
      ghost var before := Db();
      FindIsLookup(id);
      known := id in experiences;
      if known {
        var schema := experiences[id].record.schema;
        var state := schemas[schema];
        schemas := schemas[schema := state.(exclusions := state.exclusions[id := reason],
                                            history := state.history + [Entry(id, Excluding)],
                                            version := state.version + 1)];
      }
      ViewsStand(before, OpExclude(id, reason), views);
    }

    /** Let reads see a record again; `lifted` tells whether anything hid or withheld it. */
    method Include(id: Id) returns (lifted: bool)
      requires Ok()
      modifies `schemas
      ensures Ok() && Db() == IncludeId(old(Db()), id)
      ensures id in experiences ==>
                var schema := experiences[id].record.schema;
                lifted == (id !in old(Visible(Db(), schema)) || Withheld(old(schemas[schema].history), id))
    {
      hide Valid, Stands;
      ghost var before := Db();
      FindIsLookup(id);
      lifted := false;
      if id in experiences {
        var schema := experiences[id].record.schema;
        var state := schemas[schema];
        FoundIsStored(log, id);
        var released := id in state.exclusions || Withheld(state.history, id);
        schemas := schemas[schema := state.(exclusions := state.exclusions - {id},
                                            outside := state.outside - {id},
                                            history := state.history + (if released then [Entry(id, Including)]
                                              else []),
                                            version := state.version + 1)];
        lifted := released || id in state.outside;
      }
      ViewsStand(before, OpInclude(id), views);
    }

    lemma StoredIsTable(schema: Schema)
      requires Ok()
      ensures StoredOf(log, schema) == set id | id in experiences && experiences[id].record.schema == schema
    {
      forall id ensures (id in experiences && experiences[id].record.schema == schema) <==>
        id in StoredOf(log, schema) {
        if id in StoredOf(log, schema) {
          var i :| 0 <= i < |log| && log[i].id == id && log[i].schema == schema;
          assert i + 1 in bySequence;
        }
        if id in experiences {
          var n := experiences[id].sequence;
          assert n in bySequence && log[n - 1] in log;
        }
      }
    }

    /** The members of a schema, read from the table. */
    function TableMembers(schema: Schema): set<Id>
      reads this
    {
      (set id | id in experiences && experiences[id].record.schema == schema) - (if schema in schemas
        then schemas[schema].outside else {})
    }

    lemma TableMembersAreMembers(schema: Schema)
      requires Ok()
      ensures TableMembers(schema) == Members(Db(), schema)
    {
      StoredIsTable(schema);
    }

    /** Save the state of a registered schema under a new label. */
    method LabelState(schema: Schema, newTag: LabelId) returns (done: bool)
      requires Ok()
      modifies `schemas, `labels
      ensures Ok() && done == LabelAs(old(Db()), schema, newTag).Some?
      ensures Db() == OrSame(old(Db()), LabelAs(old(Db()), schema, newTag))
    {
      hide Valid, Stands, Members;
      ghost var before := Db();
      TableMembersAreMembers(schema);
      done := schema in schemas && newTag !in labels;
      if done {
        labels := labels[newTag := Label(schema, TableMembers(schema), schemas[schema].exclusions)];
        schemas := schemas[schema := schemas[schema].(current := Some(newTag))];
      }
      ViewsStand(before, OpLabel(schema, newTag), views);
    }

    method SaveState(schema: Schema, newTag: LabelId) returns (done: bool)
      requires Ok()
      modifies `schemas, `labels
      ensures Ok() && done == SaveIfModified(old(Db()), schema, newTag).Some?
      ensures Db() == OrSame(old(Db()), SaveIfModified(old(Db()), schema, newTag))
    {
      hide Valid, Stands;
      TableMembersAreMembers(schema);
      if schema !in schemas {
        return false;
      }
      var state := schemas[schema];
      var members := TableMembers(schema);
      var modified := if state.current.None? || state.current.value !in labels
                      then members != {} || state.exclusions != map[]
                      else LabelDigest(labels[state.current.value]) != Digest(members, state.exclusions.Keys);
      assert state.exclusions == map[] <==> state.exclusions.Keys == {};
      done := true;
      if modified {
        done := LabelState(schema, newTag);
      }
    }

    method DeleteTag(tag: LabelId) returns (known: bool)
      requires Ok()
      modifies `schemas, `labels
      ensures Ok() && Db() == DeleteLabel(old(Db()), tag) && (known <==> tag in old(labels))
    {
      hide Valid, Stands;
      ghost var before := Db();
      known := tag in labels;
      if known {
        labels := labels - {tag};
        schemas := map s | s in schemas :: if schemas[s].current == Some(tag) then schemas[s].(current := None)
          else schemas[s];
      }
      ViewsStand(before, OpDeleteLabel(tag), views);
    }

    /** Replace the state of a label's schema by the label's. */
    method RestoreState(tag: LabelId, saved: Label)
      requires Ok() && saved.schema in schemas
      modifies `schemas
      ensures Indexed()
      ensures Db() == Moved(old(Db()), saved.schema, old(schemas[saved.schema]).(
                        outside := StoredOf(log, saved.schema) - saved.members,
                        exclusions := saved.exclusions, current := Some(tag)))
    {
      hide Valid, Stands;
      StoredIsTable(saved.schema);
      var state := schemas[saved.schema];
      var stored := set id | id in experiences && experiences[id].record.schema == saved.schema;
      schemas := schemas[saved.schema := state.(outside := stored - saved.members,
                                                exclusions := saved.exclusions,
                                                current := Some(tag),
                                                version := state.version + 1)];
    }

    /** Make a label's state current, first labelling a state no label holds. */
    method RestoreLabel(tag: LabelId, newTag: LabelId) returns (done: bool)
      requires Ok()
      modifies `schemas, `labels
      ensures Ok() && done == Restore(old(Db()), tag, newTag).Some?
      ensures Db() == OrSame(old(Db()), Restore(old(Db()), tag, newTag))
    {
      hide Valid, Stands, SaveIfModified;
      ghost var before := Db();
      if tag !in labels {
        return false;
      }
      var saved := labels[tag];
      done := SaveState(saved.schema, newTag);
      if done {
        SavedStays(before, saved.schema, newTag);
        RestoreState(tag, saved);
      }
      ViewsStand(before, OpRestore(tag, newTag), views);
    }

    method BringBack(schema: Schema, ids: set<Id>)
      requires Ok()
      modifies `schemas
      ensures Ok() && Db() == BringIn(old(Db()), schema, ids)
    {
      hide Valid, Stands;
      ghost var before := Db();
      if schema in schemas {
        var state := schemas[schema];
        schemas := schemas[schema := state.(outside := state.outside - ids, version := state.version + 1)];
      }
      ViewsStand(before, OpBringIn(schema, ids), views);
    }

    /** What a read of `schema` searches: the cached view when its version is current, else a new one, kept for the
      * next read. Either way it holds exactly the records the schema's state shows now. */
    method View(schema: Schema) returns (view: ReadView)
      requires Ok()
      modifies `views
      ensures Ok() && view.records == ViewRecords(Db(), schema)
      ensures view.version == StateOf(Db(), schema).version
    {
      var version := if schema in schemas then schemas[schema].version else 0;
      if schema in views && views[schema].version == version {
        return views[schema];
      }
      view := Build(schema);
      Publish(schema, view);
    }

    /** Read the rows a view is made of, at one version. */
    method Build(schema: Schema) returns (view: ReadView)
      requires Ok()
      ensures Stands(Db(), schema, view) && view.version == StateOf(Db(), schema).version
    {
      TableMembersAreMembers(schema);
      var visible := TableMembers(schema) - (if schema in schemas then schemas[schema].exclusions.Keys else {});
      var records := set id | id in visible && id in experiences :: experiences[id].record;
      assert records == ViewRecords(Db(), schema) by {
        TableRecords(schema, visible);
      }
      view := ReadView(if schema in schemas then schemas[schema].version else 0, records);
    }

    lemma TableRecords(schema: Schema, visible: set<Id>)
      requires Ok() && visible == Visible(Db(), schema)
      ensures (set id | id in visible && id in experiences :: experiences[id].record) == ViewRecords(Db(), schema)
    {
      StoredIsTable(schema);
      var records := set id | id in visible && id in experiences :: experiences[id].record;
      forall r | r in records ensures r in ViewRecords(Db(), schema) {
        var n := experiences[r.id].sequence;
        assert n in bySequence && log[n - 1] == r;
      }
      forall r | r in ViewRecords(Db(), schema) ensures r in records {
        var i :| 0 <= i < |log| && log[i] == r;
        assert i + 1 in bySequence;
        assert r.id in visible && r.id in experiences && experiences[r.id].record == r;
      }
    }

    /** Keep a view built at this or an earlier moment, over whatever was cached. */
    method Publish(schema: Schema, view: ReadView)
      requires Ok() && Stands(Db(), schema, view)
      modifies `views
      ensures Ok() && views == old(views)[schema := view]
    {
      hide Valid, Stands;
      views := views[schema := view];
    }
  }
}
