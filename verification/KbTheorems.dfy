/** What holds of one KB over every run of its operations: replayed writes, undo, withholding, and the version
  * that guards cached read views.
  */
module KbTheorems {
  import opened Prelude
  import opened Log
  import opened KbState

  // ---- writes ----

  /** A stored id never changes content: over any run, what it names now it named when it was first stored. */
  lemma StoredContentIsImmutable(kb: Kb, ops: seq<Op>, id: Id)
    requires Valid(kb) && id in Ids(kb.log)
    ensures Find(ApplyAll(kb, ops).log, id) == Find(kb.log, id)
  {
    RunsKeepValid(kb, ops);
    var later := ApplyAll(kb, ops);
    StoredGrows(kb.log, later.log, "");
    var first := Find(kb.log, id).value;
    assert first in later.log;
    SameIdSameRecord(later.log, first, Find(later.log, id).value);
  }

  /** Sending an accepted write again, at any later time, reports it unchanged and changes nothing. */
  lemma ReplayChangesNothing(kb: Kb, r: Record, ops: seq<Op>)
    requires Valid(kb) && Write(kb, r).status in {Created, Unchanged}
    ensures var later := ApplyAll(Write(kb, r).kb, ops);
            Write(later, r) == Written(later, Unchanged)
  {
    var stored := Write(kb, r).kb;
    ValidAfterWrite(kb, r);
    assert r in stored.log;
    SameIdSameRecord(stored.log, r, Find(stored.log, r.id).value);
    StoredContentIsImmutable(stored, ops, r.id);
    RunsKeepValid(stored, ops);
    assert r.schema in stored.schemas;
  }

  // ---- undo ----

  /** The label that holds the state of `schema` once a restore or a pull has saved it. */
  function Holder(kb: Kb, schema: Schema, newTag: LabelId): LabelId
    requires Modified(kb, schema) || StateOf(kb, schema).current.Some?
  {
    if Modified(kb, schema) then newTag else StateOf(kb, schema).current.value
  }

  predicate EmptyAndUnlabelled(kb: Kb, schema: Schema) {
    StateOf(kb, schema).current.None? && StateDigest(kb, schema) == Digest({}, {})
  }

  /** Saving before a change leaves a label that holds exactly the state about to be replaced. */
  lemma ReplacedStateIsHeld(kb: Kb, schema: Schema, newTag: LabelId)
    requires Valid(kb) && SaveIfModified(kb, schema, newTag).Some? && !EmptyAndUnlabelled(kb, schema)
    ensures Modified(kb, schema) || StateOf(kb, schema).current.Some?
    ensures var kept := SaveIfModified(kb, schema, newTag).value;
            var holder := Holder(kb, schema, newTag);
            && holder in kept.labels
            && kept.labels[holder].schema == schema
            && LabelDigest(kept.labels[holder]) == StateDigest(kb, schema)
            && (Modified(kb, schema) ==> kept.labels[holder].exclusions == StateOf(kb, schema).exclusions)
  {
    assert StateOk(kb.log, kb.labels, schema, kb.schemas[schema]);
  }

  /** A restore succeeds unless the label is gone, or the state must be saved under an id already taken. */
  lemma RestoreSucceeds(kb: Kb, tag: LabelId, newTag: LabelId)
    requires Valid(kb)
    ensures Restore(kb, tag, newTag).Some?
       <==> tag in kb.labels && (Modified(kb, kb.labels[tag].schema) ==> newTag !in kb.labels)
  {
  }

  /** Restoring a label makes members and exclusions exactly the label's, reports the state unmodified, and leaves
    * every other schema, every record and every label as it was. */
  lemma RestoreReturnsTheLabel(kb: Kb, tag: LabelId, newTag: LabelId)
    requires Valid(kb) && Restore(kb, tag, newTag).Some?
    ensures var after := Restore(kb, tag, newTag).value;
            var saved := kb.labels[tag];
            && StateDigest(after, saved.schema) == LabelDigest(saved)
            && StateOf(after, saved.schema).exclusions == saved.exclusions
            && !Modified(after, saved.schema)
            && after.log == kb.log
            && (forall t | t in kb.labels :: t in after.labels && after.labels[t] == kb.labels[t])
            && (forall s | s != saved.schema :: StateOf(after, s) == StateOf(kb, s))
  {
    var saved := kb.labels[tag];
    assert LabelOk(kb.log, saved);
    var after := Restore(kb, tag, newTag).value;
    assert after.labels[tag] == saved;
    assert Members(after, saved.schema) == saved.members;
  }

  /** A label not deleted keeps its contents through any run. */
  lemma {:induction false} LabelsPersist(kb: Kb, ops: seq<Op>, tag: LabelId)
    requires tag in kb.labels && OpDeleteLabel(tag) !in ops
    ensures tag in ApplyAll(kb, ops).labels && ApplyAll(kb, ops).labels[tag] == kb.labels[tag]
    decreases |ops|
  {
    if ops != [] {
      assert ops[0] in ops;
      LabelsPersist(Apply(kb, ops[0]), ops[1..], tag);
    }
  }

  /** Undo of a restore: whatever runs in between, the state it replaced can be brought back exactly. */
  lemma RestoreCanBeUndone(kb: Kb, tag: LabelId, newTag: LabelId, ops: seq<Op>, laterTag: LabelId)
    requires Valid(kb) && Restore(kb, tag, newTag).Some?
    requires !EmptyAndUnlabelled(kb, kb.labels[tag].schema)
    requires var schema := kb.labels[tag].schema;
             Modified(kb, schema) || StateOf(kb, schema).current.Some?
    requires OpDeleteLabel(Holder(kb, kb.labels[tag].schema, newTag)) !in ops
    requires var later := ApplyAll(Restore(kb, tag, newTag).value, ops);
             Restore(later, Holder(kb, kb.labels[tag].schema, newTag), laterTag).Some?
    ensures var schema := kb.labels[tag].schema;
            var later := ApplyAll(Restore(kb, tag, newTag).value, ops);
            StateDigest(Restore(later, Holder(kb, schema, newTag), laterTag).value, schema) == StateDigest(kb, schema)
  {
    var schema := kb.labels[tag].schema;
    var holder := Holder(kb, schema, newTag);
    ReplacedStateIsHeld(kb, schema, newTag);
    var after := Restore(kb, tag, newTag).value;
    ValidAfterRestore(kb, tag, newTag);
    RunsKeepValid(after, ops);
    LabelsPersist(after, ops, holder);
    RestoreReturnsTheLabel(ApplyAll(after, ops), holder, laterTag);
  }

  /** Undo of a pull: the state its first batch labelled comes back exactly, whatever the pull and others did since. */
  lemma PullCanBeUndone(kb: Kb, schema: Schema, newTag: LabelId, ops: seq<Op>, laterTag: LabelId)
    requires Valid(kb) && SaveIfModified(kb, schema, newTag).Some? && !EmptyAndUnlabelled(kb, schema)
    requires Modified(kb, schema) || StateOf(kb, schema).current.Some?
    requires OpDeleteLabel(Holder(kb, schema, newTag)) !in ops
    requires var later := ApplyAll(SaveIfModified(kb, schema, newTag).value, ops);
             Restore(later, Holder(kb, schema, newTag), laterTag).Some?
    ensures var later := ApplyAll(SaveIfModified(kb, schema, newTag).value, ops);
            StateDigest(Restore(later, Holder(kb, schema, newTag), laterTag).value, schema) == StateDigest(kb, schema)
  {
    var holder := Holder(kb, schema, newTag);
    ReplacedStateIsHeld(kb, schema, newTag);
    var kept := SaveIfModified(kb, schema, newTag).value;
    ApplyKeepsValid(kb, OpBeginPull(schema, newTag));
    RunsKeepValid(kept, ops);
    LabelsPersist(kept, ops, holder);
    RestoreReturnsTheLabel(ApplyAll(kept, ops), holder, laterTag);
  }

  /** Undo, whatever runs in between, brings back the reasons of the exclusions too exactly when the state was saved
    * anew, or its current label already held these reasons: the comparison that decides on saving looks at ids only. */
  lemma UndoKeepsReasonsIff(kb: Kb, tag: LabelId, newTag: LabelId, ops: seq<Op>, laterTag: LabelId)
    requires Valid(kb) && Restore(kb, tag, newTag).Some?
    requires !EmptyAndUnlabelled(kb, kb.labels[tag].schema)
    requires var schema := kb.labels[tag].schema;
             Modified(kb, schema) || StateOf(kb, schema).current.Some?
    requires OpDeleteLabel(Holder(kb, kb.labels[tag].schema, newTag)) !in ops
    requires var later := ApplyAll(Restore(kb, tag, newTag).value, ops);
             Restore(later, Holder(kb, kb.labels[tag].schema, newTag), laterTag).Some?
    ensures var schema := kb.labels[tag].schema;
            var later := ApplyAll(Restore(kb, tag, newTag).value, ops);
            var undone := Restore(later, Holder(kb, schema, newTag), laterTag).value;
            var state := StateOf(kb, schema);
            StateOf(undone, schema).exclusions == state.exclusions
            <==> Modified(kb, schema)
                 || (state.current.value in kb.labels
                     && kb.labels[state.current.value].exclusions == state.exclusions)
  {
    var schema := kb.labels[tag].schema;
    var holder := Holder(kb, schema, newTag);
    var after := Restore(kb, tag, newTag).value;
    ReplacedStateIsHeld(kb, schema, newTag);
    ValidAfterRestore(kb, tag, newTag);
    RestoreReturnsTheLabel(kb, tag, newTag);
    RunsKeepValid(after, ops);
    LabelsPersist(after, ops, holder);
    RestoreReturnsTheLabel(ApplyAll(after, ops), holder, laterTag);
    assert StateOk(kb.log, kb.labels, schema, kb.schemas[schema]);
    hide ApplyAll, Valid;
  }

  const X: Record := Record("x", "s", "", {}, true)

  /** How a KB comes to it: a record is excluded, the state labelled, and the record excluded again for another reason,
    * which the comparison does not notice. */
  const LOSING_A_REASON: seq<Op> :=
    [OpRegister("s"), OpWrite(X), OpExclude("x", "old"), OpLabel("s", "t"), OpExclude("x", "new")]

  function OnlyX(state: SchemaState, labels: map<LabelId, Label>): Kb {
    Kb([X], {}, map["s" := state], labels)
  }

  lemma WritesX()
    ensures Apply(Apply(EMPTY_KB, OpRegister("s")), OpWrite(X)) == OnlyX(SchemaState({}, map[], [], None, 1), map[])
  {
    assert map[]["s" := FRESH_STATE] == map["s" := FRESH_STATE];
    assert Find([], "x") == None && [] + [X] == [X];
  }

  lemma ExcludesX(state: SchemaState, labels: map<LabelId, Label>, reason: string)
    ensures ExcludeId(OnlyX(state, labels), "x", reason)
         == OnlyX(state.(exclusions := state.exclusions["x" := reason],
           history := state.history + [Entry("x", Excluding)],
                         version := state.version + 1), labels)
  {
    assert Find([X], "x") == Some(X);
  }

  lemma HoldsX(state: SchemaState, labels: map<LabelId, Label>)
    requires state.outside == {}
    ensures Members(OnlyX(state, labels), "s") == {"x"}
  {
    assert X in [X];
  }

  lemma LosingAReasonLeads()
    ensures var history := [Entry("x", Excluding), Entry("x", Excluding)];
            ApplyAll(EMPTY_KB, LOSING_A_REASON)
            == OnlyX(SchemaState({}, map["x" := "new"], history, Some("t"), 3),
              map["t" := Label("s", {"x"}, map["x" := "old"])])
  {
    hide ExcludeId, Members, Write;
    var labels := map["t" := Label("s", {"x"}, map["x" := "old"])];
    var first := SchemaState({}, map[], [], None, 1);
    var second := SchemaState({}, map["x" := "old"], [Entry("x", Excluding)], None, 2);
    FiveOperations(EMPTY_KB, LOSING_A_REASON);
    WritesX();
    ExcludesX(first, map[], "old");
    assert map[]["x" := "old"] == map["x" := "old"] && [] + [Entry("x", Excluding)] == [Entry("x", Excluding)];
    HoldsX(second, map[]);
    assert Apply(OnlyX(second, map[]), OpLabel("s", "t")) == OnlyX(second.(current := Some("t")), labels);
    ExcludesX(second.(current := Some("t")), labels, "new");
    assert map["x" := "old"]["x" := "new"] == map["x" := "new"];
    assert [Entry("x", Excluding)] + [Entry("x", Excluding)] == [Entry("x", Excluding), Entry("x", Excluding)];
  }

  lemma FiveOperations(kb: Kb, ops: seq<Op>)
    requires |ops| == 5
    ensures ApplyAll(kb, ops) == Apply(Apply(Apply(Apply(Apply(kb, ops[0]), ops[1]), ops[2]), ops[3]), ops[4])
  {
    hide Apply;
    var kb1 := Apply(kb, ops[0]);
    var kb2 := Apply(kb1, ops[1]);
    var kb3 := Apply(kb2, ops[2]);
    ApplyFirst(kb, ops);
    ApplyFirst(kb1, ops[1..]);
    ApplyFirst(kb2, ops[1..][1..]);
    assert ops[1..][1..][1..] == [ops[3], ops[4]];
    ApplyFirst(kb3, [ops[3], ops[4]]);
    assert [ops[3], ops[4]][1..] == [ops[4]] && [ops[4]][1..] == [];
    ApplyFirst(Apply(kb3, ops[3]), [ops[4]]);
  }

  lemma ApplyFirst(kb: Kb, ops: seq<Op>)
    requires ops != []
    ensures ApplyAll(kb, ops) == ApplyAll(Apply(kb, ops[0]), ops[1..])
  {
    hide Apply;
  }

  /** There a restore and its undo lose the reason given last. */
  lemma UndoCanLoseAReason()
    ensures var kb := ApplyAll(EMPTY_KB, LOSING_A_REASON);
            && Valid(kb) && StateOf(kb, "s").current == Some("t") && !Modified(kb, "s")
            && Restore(kb, "t", "n").Some? && Restore(Restore(kb, "t", "n").value, "t", "m").Some?
            && StateOf(kb, "s").exclusions == map["x" := "new"]
            && StateOf(Restore(Restore(kb, "t", "n").value, "t", "m").value, "s").exclusions == map["x" := "old"]
  {
    hide ApplyAll, Valid, Restore;
    var kb := ApplyAll(EMPTY_KB, LOSING_A_REASON);
    EmptyIsValid();
    RunsKeepValid(EMPTY_KB, LOSING_A_REASON);
    LosingAReasonLeads();
    HoldsX(StateOf(kb, "s"), kb.labels);
    RestoreSucceeds(kb, "t", "n");
    RestoreReturnsTheLabel(kb, "t", "n");
    var once := Restore(kb, "t", "n").value;
    ValidAfterRestore(kb, "t", "n");
    RestoreSucceeds(once, "t", "m");
    RestoreReturnsTheLabel(once, "t", "m");
  }

  lemma EmptyIsValid()
    ensures Valid(EMPTY_KB)
  {
  }

  // ---- withholding ----

  lemma WithheldAppend(history: seq<Entry>, e: Entry, id: Id)
    ensures Withheld(history + [e], id) <==> if e.id == id then e.action == Excluding else Withheld(history, id)
  {
    var longer := history + [e];
    if e.id == id {
      assert longer[|history|] == e;
    }
    if e.id != id && Withheld(history, id) {
      var k :| 0 <= k < |history| && history[k] == Entry(id, Excluding) &&
        (forall j :: k < j < |history| ==> history[j].id != id);
      assert longer[k] == Entry(id, Excluding);
    }
    if e.id != id && Withheld(longer, id) {
      var k :| 0 <= k < |longer| && longer[k] == Entry(id, Excluding) &&
        (forall j :: k < j < |longer| ==> longer[j].id != id);
      assert history[k] == longer[k];
      assert forall j | k < j < |history| :: history[j] == longer[j];
    }
  }

  /** Excluding an Experience withholds it, and only including it ends that, whatever else runs. */
  lemma WithheldUntilIncluded(kb: Kb, op: Op, r: Record)
    requires Valid(kb) && r in kb.log
    requires Withheld(StateOf(kb, r.schema).history, r.id) || (op.OpExclude? && op.id == r.id)
    requires op != OpInclude(r.id)
    ensures Withheld(StateOf(Apply(kb, op), r.schema).history, r.id)
    ensures !Pushable(Apply(kb, op), r)
  {
    var history := StateOf(kb, r.schema).history;
    match op
    case OpExclude(id, reason) =>
      WithheldAppend(history, Entry(id, Excluding), r.id);
      if id == r.id { SameIdSameRecord(kb.log, r, Find(kb.log, id).value); }
    case OpInclude(id) =>
      WithheldAppend(history, Entry(id, Including), r.id);
      assert history + [] == history;
    case _ =>
  }

  lemma {:induction false} WithheldThroughARun(kb: Kb, ops: seq<Op>, r: Record)
    requires Valid(kb) && r in kb.log && Withheld(StateOf(kb, r.schema).history, r.id) && OpInclude(r.id) !in ops
    ensures Withheld(StateOf(ApplyAll(kb, ops), r.schema).history, r.id)
    ensures !Pushable(ApplyAll(kb, ops), r)
    decreases |ops|
  {
    if ops != [] {
      assert ops[0] in ops;
      WithheldUntilIncluded(kb, ops[0], r);
      ApplyKeepsValid(kb, ops[0]);
      WithheldThroughARun(Apply(kb, ops[0]), ops[1..], r);
    }
  }

  /** Including a stored Experience makes reads see it and lets a push send it, whatever hid it before. */
  lemma IncludeReleases(kb: Kb, r: Record)
    requires Valid(kb) && r in kb.log
    ensures r.id in Visible(IncludeId(kb, r.id), r.schema)
    ensures Pushable(IncludeId(kb, r.id), r)
  {
    assert r.id in Ids(kb.log);
    SameIdSameRecord(kb.log, r, Find(kb.log, r.id).value);
    var state := StateOf(kb, r.schema);
    WithheldAppend(state.history, Entry(r.id, Including), r.id);
    assert state.history + [] == state.history;
    assert r in IncludeId(kb, r.id).log;
  }

  // ---- cached read views ----

  /** The records a read view of `schema` searches. */
  function ViewRecords(kb: Kb, schema: Schema): set<Record> {
    set r | r in kb.log && r.schema == schema && r.id in Visible(kb, schema)
  }

  lemma SameStateSameView(kb: Kb, after: Kb, schema: Schema)
    requires after.log == kb.log
    requires StateOf(after, schema).outside == StateOf(kb, schema).outside &&
             Excluded(after, schema) == Excluded(kb, schema)
    ensures ViewRecords(after, schema) == ViewRecords(kb, schema)
  {
  }

  lemma OtherWriteSameView(kb: Kb, r: Record, schema: Schema)
    requires r.schema != schema
    ensures ViewRecords(Write(kb, r).kb, schema) == ViewRecords(kb, schema)
  {
    var log := kb.log + [r];
    assert forall x | x in log :: x in kb.log || x == r;
    assert StoredOf(log, schema) == StoredOf(kb.log, schema);
  }

  /** An operation that leaves a schema's version alone leaves what reads of it see alone; versions never go back. */
  lemma VersionGuardsView(kb: Kb, op: Op, schema: Schema)
    requires Valid(kb)
    ensures StateOf(kb, schema).version <= StateOf(Apply(kb, op), schema).version
    ensures StateOf(Apply(kb, op), schema).version == StateOf(kb, schema).version
            ==> ViewRecords(Apply(kb, op), schema) == ViewRecords(kb, schema)
  {
    hide Valid, ViewRecords, Members, Modified;
    if op.OpWrite? {
      if op.record.schema != schema { OtherWriteSameView(kb, op.record, schema); }
    } else if StateOf(Apply(kb, op), schema).version == StateOf(kb, schema).version {
      assert StateOf(Apply(kb, op), schema).outside == StateOf(kb, schema).outside;
      assert Excluded(Apply(kb, op), schema) == Excluded(kb, schema);
      SameStateSameView(kb, Apply(kb, op), schema);
    }
  }

  /** So a view built at one moment of a run and compared at any later one is what a rebuild would give, whenever the
    * versions agree: a build may be published late, over a newer view, and still never be wrong. */
  lemma {:induction false} ViewStandsWhileVersionStands(kb: Kb, ops: seq<Op>, schema: Schema)
    requires Valid(kb)
    ensures StateOf(kb, schema).version <= StateOf(ApplyAll(kb, ops), schema).version
    ensures StateOf(ApplyAll(kb, ops), schema).version == StateOf(kb, schema).version
            ==> ViewRecords(ApplyAll(kb, ops), schema) == ViewRecords(kb, schema)
    decreases |ops|
  {
    if ops != [] {
      VersionGuardsView(kb, ops[0], schema);
      ApplyKeepsValid(kb, ops[0]);
      ViewStandsWhileVersionStands(Apply(kb, ops[0]), ops[1..], schema);
    }
  }

  /** Writing, excluding, including, restoring and bringing in move the version strictly up when they are accepted. */
  lemma VisibilityChangesMoveTheVersion(kb: Kb, op: Op, schema: Schema)
    requires Valid(kb) && ViewRecords(Apply(kb, op), schema) != ViewRecords(kb, schema)
    ensures StateOf(kb, schema).version < StateOf(Apply(kb, op), schema).version
    ensures op.OpWrite? || op.OpExclude? || op.OpInclude? || op.OpRestore? || op.OpBringIn?
  {
    VersionGuardsView(kb, op, schema);
  }
}
