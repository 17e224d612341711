/** One Experience KB as the rows its database holds, and every operation that changes them.
  *
  * An operation is one transaction. A request the service refuses rolls back, so it is modelled as leaving the KB
  * as it was. Clock values are left out; the unique id a new label takes is a parameter.
  */
module KbState {
  import opened Prelude
  import opened Log

  type LabelId = string

  datatype Action = Excluding | Including

  /** One row of the exclusion history. */
  datatype Entry = Entry(id: Id, action: Action)

  /** What the database holds of one registered schema besides its records; `exclusions` maps an id to its reason. */
  datatype SchemaState = SchemaState(
    outside: set<Id>,
    exclusions: map<Id, string>,
    history: seq<Entry>,
    current: Option<LabelId>,
    version: nat)

  datatype Label = Label(schema: Schema, members: set<Id>, exclusions: map<Id, string>)

  datatype Kb = Kb(log: seq<Record>, files: set<FileId>, schemas: map<Schema, SchemaState>, labels: map<LabelId, Label>)

  /** A digest is taken to be injective, so it is the pair of sets it hashes. */
  datatype Digest = Digest(ids: set<Id>, excluded: set<Id>)

  datatype Status = Created | Unchanged | Conflict | MissingFiles | Invalid

  datatype Written = Written(kb: Kb, status: Status)

  const FRESH_STATE: SchemaState := SchemaState({}, map[], [], None, 0)

  const EMPTY_KB: Kb := Kb([], {}, map[], map[])

  // ---- what reads see ----

  function StateOf(kb: Kb, schema: Schema): SchemaState {
    if schema in kb.schemas then kb.schemas[schema] else FRESH_STATE
  }

  function Members(kb: Kb, schema: Schema): set<Id> {
    StoredOf(kb.log, schema) - StateOf(kb, schema).outside
  }

  function Excluded(kb: Kb, schema: Schema): set<Id> {
    StateOf(kb, schema).exclusions.Keys
  }

  function Visible(kb: Kb, schema: Schema): set<Id> {
    Members(kb, schema) - Excluded(kb, schema)
  }

  predicate IsVisible(kb: Kb, r: Record) {
    r.id !in StateOf(kb, r.schema).outside && r.id !in Excluded(kb, r.schema)
  }

  /** The latest history entry of `id` excludes it; a restore writes no entry, so it releases nothing. */
  predicate Withheld(history: seq<Entry>, id: Id) {
    exists k :: 0 <= k < |history| && history[k] == Entry(id, Excluding) &&
      (forall j :: k < j < |history| ==> history[j].id != id)
  }

  predicate Pushable(kb: Kb, r: Record) {
    IsVisible(kb, r) && !Withheld(StateOf(kb, r.schema).history, r.id)
  }

  /** What an export reports as the schema's `state`: it moves with restores and exclusions, not with writes. */
  function HiddenDigest(kb: Kb, schema: Schema): Digest {
    Digest(StateOf(kb, schema).outside, Excluded(kb, schema))
  }

  /** The state a label saves and a restore brings back. */
  function StateDigest(kb: Kb, schema: Schema): Digest {
    Digest(Members(kb, schema), Excluded(kb, schema))
  }

  function LabelDigest(tag: Label): Digest {
    Digest(tag.members, tag.exclusions.Keys)
  }

  /** Whether the state changed since its current label, or is not empty when it has none. */
  predicate Modified(kb: Kb, schema: Schema) {
    var current := StateOf(kb, schema).current;
    if current.None? || current.value !in kb.labels
    then Members(kb, schema) != {} || Excluded(kb, schema) != {}
    else LabelDigest(kb.labels[current.value]) != StateDigest(kb, schema)
  }

  // ---- operations ----

  function Register(kb: Kb, schema: Schema): Kb {
    if schema in kb.schemas then kb else kb.(schemas := kb.schemas[schema := FRESH_STATE])
  }

  function PutFiles(kb: Kb, files: set<FileId>): Kb {
    kb.(files := kb.files + files)
  }

  /** Replace the row of `schema` and move its version on, which invalidates every read view built before. */
  function Moved(kb: Kb, schema: Schema, state: SchemaState): Kb {
    kb.(schemas := kb.schemas[schema := state.(version := StateOf(kb, schema).version + 1)])
  }

  function Write(kb: Kb, r: Record): Written {
    if r.schema !in kb.schemas || !r.complete || r.id == "" then Written(kb, Invalid)
    else
      match Find(kb.log, r.id)
      case Some(stored) => Written(kb, if stored == r then Unchanged else Conflict)
      case None =>
        if !(r.files <= kb.files) then Written(kb, MissingFiles)
        else Written(Moved(kb.(log := kb.log + [r]), r.schema, kb.schemas[r.schema]), Created)
  }

  function ExcludeId(kb: Kb, id: Id, reason: string): Kb {
    match Find(kb.log, id)
    case None => kb
    case Some(r) =>
      var state := StateOf(kb, r.schema);
      Moved(kb, r.schema, state.(exclusions := state.exclusions[id := reason],
                                 history := state.history + [Entry(id, Excluding)]))
  }

  function IncludeId(kb: Kb, id: Id): Kb {
    match Find(kb.log, id)
    case None => kb
    case Some(r) =>
      var state := StateOf(kb, r.schema);
      var released := id in state.exclusions || Withheld(state.history, id);
      Moved(kb, r.schema, state.(exclusions := state.exclusions - {id},
                                 outside := state.outside - {id},
                                 history := state.history + if released then [Entry(id, Including)] else []))
  }

  /** Save the state of a registered schema under a new label, which becomes its current one; `None` is a refusal. */
  function LabelAs(kb: Kb, schema: Schema, newTag: LabelId): Option<Kb> {
    if schema !in kb.schemas || newTag in kb.labels then None
    else
      var state := kb.schemas[schema];
      Some(kb.(labels := kb.labels[newTag := Label(schema, Members(kb, schema), state.exclusions)],
               schemas := kb.schemas[schema := state.(current := Some(newTag))]))
  }

  function SaveIfModified(kb: Kb, schema: Schema, newTag: LabelId): Option<Kb> {
    if schema !in kb.schemas then None
    else if Modified(kb, schema) then LabelAs(kb, schema, newTag)
    else Some(kb)
  }

  function DeleteLabel(kb: Kb, tag: LabelId): Kb {
    if tag !in kb.labels then kb
    else
      kb.(labels := kb.labels - {tag},
          schemas := map s | s in kb.schemas ::
            if kb.schemas[s].current == Some(tag) then kb.schemas[s].(current := None) else kb.schemas[s])
  }

  /** Label a state no label holds, then make `label`'s state the current one. */
  function Restore(kb: Kb, tag: LabelId, newTag: LabelId): Option<Kb> {
    if tag !in kb.labels then None
    else
      var saved := kb.labels[tag];
      match SaveIfModified(kb, saved.schema, newTag)
      case None => None
      case Some(kept) =>
        var state := kept.schemas[saved.schema];
        Some(Moved(kept, saved.schema, state.(outside := StoredOf(kb.log, saved.schema) - saved.members,
                                              exclusions := saved.exclusions,
                                              current := Some(tag))))
  }

  function BringIn(kb: Kb, schema: Schema, ids: set<Id>): Kb {
    if schema !in kb.schemas then kb
    else
      var state := kb.schemas[schema];
      Moved(kb, schema, state.(outside := state.outside - ids))
  }

  // ---- every operation as one step ----

  datatype Op =
    | OpRegister(schema: Schema)
    | OpPutFiles(files: set<FileId>)
    | OpWrite(record: Record)
    | OpExclude(id: Id, reason: string)
    | OpInclude(id: Id)
    | OpLabel(schema: Schema, newTag: LabelId)
    | OpDeleteLabel(tag: LabelId)
    | OpRestore(tag: LabelId, newTag: LabelId)
    | OpBeginPull(schema: Schema, newTag: LabelId)
    | OpBringIn(schema: Schema, ids: set<Id>)

  function OrSame(kb: Kb, result: Option<Kb>): Kb {
    if result.Some? then result.value else kb
  }

  function Apply(kb: Kb, op: Op): Kb {
    match op
    case OpRegister(schema) => Register(kb, schema)
    case OpPutFiles(files) => PutFiles(kb, files)
    case OpWrite(r) => Write(kb, r).kb
    case OpExclude(id, reason) => ExcludeId(kb, id, reason)
    case OpInclude(id) => IncludeId(kb, id)
    case OpLabel(schema, newTag) => OrSame(kb, LabelAs(kb, schema, newTag))
    case OpDeleteLabel(tag) => DeleteLabel(kb, tag)
    case OpRestore(tag, newTag) => OrSame(kb, Restore(kb, tag, newTag))
    case OpBeginPull(schema, newTag) => OrSame(kb, SaveIfModified(kb, schema, newTag))
    case OpBringIn(schema, ids) => BringIn(kb, schema, ids)
  }

  function ApplyAll(kb: Kb, ops: seq<Op>): Kb
    decreases |ops|
  {
    if ops == [] then kb else ApplyAll(Apply(kb, ops[0]), ops[1..])
  }

  // ---- what every operation keeps ----

  ghost predicate StateOk(log: seq<Record>, labels: map<LabelId, Label>, schema: Schema, state: SchemaState) {
    && state.outside <= StoredOf(log, schema)
    && state.exclusions.Keys <= StoredOf(log, schema)
    && (state.current.Some? ==> state.current.value in labels && labels[state.current.value].schema == schema)
  }

  ghost predicate LabelOk(log: seq<Record>, tag: Label) {
    tag.members <= StoredOf(log, tag.schema) && tag.exclusions.Keys <= StoredOf(log, tag.schema)
  }

  ghost predicate LogOk(kb: Kb) {
    && DistinctIds(kb.log)
    && (forall r | r in kb.log :: r.id != "" && r.schema in kb.schemas && r.files <= kb.files)
  }

  ghost predicate Valid(kb: Kb) {
    && LogOk(kb)
    && (forall s | s in kb.schemas :: StateOk(kb.log, kb.labels, s, kb.schemas[s]))
    && (forall l | l in kb.labels :: LabelOk(kb.log, kb.labels[l]) && kb.labels[l].schema in kb.schemas)
  }

  /** Records are never removed or rewritten, files and schemas never dropped, versions never go back. */
  ghost predicate Extends(before: Kb, after: Kb) {
    && before.log <= after.log
    && before.files <= after.files
    && before.schemas.Keys <= after.schemas.Keys
    && (forall s | s in before.schemas :: before.schemas[s].version <= after.schemas[s].version)
  }

  lemma ExtendsTransitive(a: Kb, b: Kb, c: Kb)
    requires Extends(a, b) && Extends(b, c)
    ensures Extends(a, c)
  {
    assert forall s | s in a.schemas :: s in b.schemas && b.schemas[s].version <= c.schemas[s].version;
  }

  lemma StoredGrows(log: seq<Record>, longer: seq<Record>, schema: Schema)
    requires log <= longer
    ensures StoredOf(log, schema) <= StoredOf(longer, schema)
    ensures Ids(log) <= Ids(longer)
  {
    assert forall r | r in log :: r in longer;
  }

  lemma ValidAfterWrite(kb: Kb, r: Record)
    requires Valid(kb)
    ensures Valid(Write(kb, r).kb) && Extends(kb, Write(kb, r).kb)
  {
    var after := Write(kb, r).kb;
    if Write(kb, r).status == Created {
      assert forall x | x in kb.log :: x.id in Ids(kb.log);
      forall s ensures StoredOf(kb.log, s) <= StoredOf(after.log, s) { StoredGrows(kb.log, after.log, s); }
      forall s | s in after.schemas ensures StateOk(after.log, after.labels, s, after.schemas[s]) {
        assert StateOk(kb.log, kb.labels, s, kb.schemas[s]);
      }
      forall l | l in after.labels ensures LabelOk(after.log, after.labels[l]) {
        assert LabelOk(kb.log, kb.labels[l]);
      }
    }
  }

  /** The id of a stored record is stored under that record's schema. */
  lemma FoundIsStored(log: seq<Record>, id: Id)
    ensures Find(log, id).Some? ==> id in StoredOf(log, Find(log, id).value.schema)
  {
  }

  lemma ValidAfterMoved(kb: Kb, schema: Schema, state: SchemaState)
    requires Valid(kb) && schema in kb.schemas && StateOk(kb.log, kb.labels, schema, state)
    ensures Valid(Moved(kb, schema, state)) && Extends(kb, Moved(kb, schema, state))
  {
  }

  lemma ValidAfterLabel(kb: Kb, schema: Schema, newTag: LabelId)
    requires Valid(kb) && LabelAs(kb, schema, newTag).Some?
    ensures Valid(LabelAs(kb, schema, newTag).value) && Extends(kb, LabelAs(kb, schema, newTag).value)
  {
    var after := LabelAs(kb, schema, newTag).value;
    assert StateOk(kb.log, kb.labels, schema, kb.schemas[schema]);
    forall s | s in after.schemas ensures StateOk(after.log, after.labels, s, after.schemas[s]) {
      assert StateOk(kb.log, kb.labels, s, kb.schemas[s]);
    }
  }

  lemma ValidAfterDelete(kb: Kb, tag: LabelId)
    requires Valid(kb)
    ensures Valid(DeleteLabel(kb, tag)) && Extends(kb, DeleteLabel(kb, tag))
  {
    var after := DeleteLabel(kb, tag);
    if tag in kb.labels {
      forall s | s in after.schemas ensures StateOk(after.log, after.labels, s, after.schemas[s]) {
        assert StateOk(kb.log, kb.labels, s, kb.schemas[s]);
      }
    }
  }

  lemma ValidAfterRestore(kb: Kb, tag: LabelId, newTag: LabelId)
    requires Valid(kb) && Restore(kb, tag, newTag).Some?
    ensures Valid(Restore(kb, tag, newTag).value) && Extends(kb, Restore(kb, tag, newTag).value)
  {
    var saved := kb.labels[tag];
    var kept := SaveIfModified(kb, saved.schema, newTag).value;
    if Modified(kb, saved.schema) { ValidAfterLabel(kb, saved.schema, newTag); }
    assert LabelOk(kb.log, saved) && kept.labels[tag] == saved;
    var state := kept.schemas[saved.schema];
    var restored := state.(outside := StoredOf(kb.log, saved.schema) - saved.members,
                           exclusions := saved.exclusions, current := Some(tag));
    ValidAfterMoved(kept, saved.schema, restored);
    ExtendsTransitive(kb, kept, Restore(kb, tag, newTag).value);
  }

  lemma ValidAfterExclusion(kb: Kb, id: Id, reason: string)
    requires Valid(kb)
    ensures Valid(ExcludeId(kb, id, reason)) && Extends(kb, ExcludeId(kb, id, reason))
    ensures Valid(IncludeId(kb, id)) && Extends(kb, IncludeId(kb, id))
  {
    match Find(kb.log, id)
    case None =>
    case Some(r) =>
      FoundIsStored(kb.log, id);
      assert StateOk(kb.log, kb.labels, r.schema, kb.schemas[r.schema]);
      var state := StateOf(kb, r.schema);
      ValidAfterMoved(kb, r.schema, state.(exclusions := state.exclusions[id := reason],
                                           history := state.history + [Entry(id, Excluding)]));
      var released := id in state.exclusions || Withheld(state.history, id);
      ValidAfterMoved(kb, r.schema, state.(exclusions := state.exclusions - {id}, outside := state.outside - {id},
                                           history := state.history + if released then [Entry(id, Including)] else []));
  }

  /** Every operation keeps the database consistent and only ever adds to the log. */
  lemma ApplyKeepsValid(kb: Kb, op: Op)
    requires Valid(kb)
    ensures Valid(Apply(kb, op)) && Extends(kb, Apply(kb, op))
  {
    match op
    case OpRegister(schema) =>
    case OpPutFiles(files) =>
    case OpWrite(r) => ValidAfterWrite(kb, r);
    case OpExclude(id, reason) => ValidAfterExclusion(kb, id, reason);
    case OpInclude(id) => ValidAfterExclusion(kb, id, "");
    case OpLabel(schema, newTag) =>
      if LabelAs(kb, schema, newTag).Some? { ValidAfterLabel(kb, schema, newTag); }
    case OpDeleteLabel(tag) => ValidAfterDelete(kb, tag);
    case OpRestore(tag, newTag) =>
      if Restore(kb, tag, newTag).Some? { ValidAfterRestore(kb, tag, newTag); }
    case OpBeginPull(schema, newTag) =>
      if LabelAs(kb, schema, newTag).Some? { ValidAfterLabel(kb, schema, newTag); }
    case OpBringIn(schema, ids) =>
      if schema in kb.schemas {
        var state := kb.schemas[schema];
        assert StateOk(kb.log, kb.labels, schema, state);
        ValidAfterMoved(kb, schema, state.(outside := state.outside - ids));
      }
  }

  /** Over any run: the log only grows, ids stay unique, and every file a stored record names is held. */
  lemma {:induction false} RunsKeepValid(kb: Kb, ops: seq<Op>)
    requires Valid(kb)
    ensures Valid(ApplyAll(kb, ops)) && Extends(kb, ApplyAll(kb, ops))
    decreases |ops|
  {
    if ops != [] {
      ApplyKeepsValid(kb, ops[0]);
      RunsKeepValid(Apply(kb, ops[0]), ops[1..]);
      ExtendsTransitive(kb, Apply(kb, ops[0]), ApplyAll(kb, ops));
    }
  }
}
