/** What each operation on one KB changes of what can be seen of it, and that it changes nothing else: the records and
  * files held, what reads see, why the rest is hidden, what a push may send, and which label is current.
  */
module KbEffects {
  import opened Prelude
  import opened Log
  import opened KbState
  import opened KbTheorems

  /** The reasons exclusions were given. */
  function Reasons(kb: Kb, schema: Schema): map<Id, string> {
    StateOf(kb, schema).exclusions
  }

  predicate IsWithheld(kb: Kb, schema: Schema, id: Id) {
    Withheld(StateOf(kb, schema).history, id)
  }

  function CurrentLabel(kb: Kb, schema: Schema): Option<LabelId> {
    StateOf(kb, schema).current
  }

  /** Nothing about a schema that can be seen differs. */
  ghost predicate SameSchema(a: Kb, b: Kb, s: Schema) {
    && (s in a.schemas <==> s in b.schemas)
    && Members(a, s) == Members(b, s) && Reasons(a, s) == Reasons(b, s) && CurrentLabel(a, s) == CurrentLabel(b, s)
    && (forall id :: IsWithheld(a, s, id) <==> IsWithheld(b, s, id))
  }

  ghost predicate SameElsewhere(a: Kb, b: Kb, schema: Schema) {
    forall s | s != schema :: SameSchema(a, b, s)
  }

  ghost predicate SameStore(a: Kb, b: Kb) {
    a.log == b.log && a.files == b.files
  }

  /** A push may send what reads see and nothing withholds. */
  lemma PushableMeaning(kb: Kb, r: Record)
    requires Valid(kb) && r in kb.log
    ensures Pushable(kb, r) <==> r.id in Visible(kb, r.schema) && !IsWithheld(kb, r.schema, r.id)
  {
    hide Withheld;
    assert r.id in StoredOf(kb.log, r.schema);
  }

  // ---- registering and files ----

  /** A new schema starts empty, with nothing excluded, withheld or labelled; a registered one keeps all it has. */
  lemma RegisterEffect(kb: Kb, schema: Schema)
    requires Valid(kb)
    ensures var after := Register(kb, schema);
            && SameStore(kb, after) && after.labels == kb.labels && SameElsewhere(kb, after, schema)
            && schema in after.schemas && Visible(after, schema) == Visible(kb, schema)
            && (schema in kb.schemas ==> after == kb)
            && (schema !in kb.schemas ==>
                  Members(after, schema) == {} && Reasons(after, schema) == map[]
                  && CurrentLabel(after, schema).None? && forall id :: !IsWithheld(after, schema, id))
  {
    if schema !in kb.schemas { assert forall r | r in kb.log :: r.schema != schema; }
  }

  lemma FilesEffect(kb: Kb, files: set<FileId>)
    ensures var after := PutFiles(kb, files);
            after.log == kb.log && after.labels == kb.labels && after.files == kb.files + files
            && forall s :: SameSchema(kb, after, s)
  {
  }

  // ---- writes ----

  /** A KB finds a record unwelcome when it is not complete, has no id, or its id names another record there. */
  ghost predicate Unwelcome(kb: Kb, r: Record) {
    !r.complete || r.id == "" || exists x :: x in kb.log && x.id == r.id && x != r
  }

  /** How a write ends, from what the KB holds. */
  lemma WriteEnds(kb: Kb, r: Record)
    requires Valid(kb) && r.schema in kb.schemas
    ensures var status := Write(kb, r).status;
            && (status == Unchanged <==> r.complete && r.id != "" && r in kb.log)
            && (status == Conflict <==> r.complete && r.id != "" && r.id in Ids(kb.log) && r !in kb.log)
            && (status == Created <==> r.complete && r.id != "" && r.id !in Ids(kb.log) && r.files <= kb.files)
            && (status == MissingFiles <==> r.complete && r.id != "" && r.id !in Ids(kb.log) && !(r.files <= kb.files))
            && (status in {Conflict, Invalid} ==> Unwelcome(kb, r))
  {
    if r in kb.log {
      assert r.id in Ids(kb.log);
      SameIdSameRecord(kb.log, r, Find(kb.log, r.id).value);
    }
  }

  /** A created record is the log's last; reads see it, and a push may send it unless its id was withheld. Any other
    * write changes nothing. */
  lemma WriteEffect(kb: Kb, r: Record)
    requires Valid(kb)
    ensures var written := Write(kb, r);
            && (written.status != Created ==> written.kb == kb)
            && (written.status == Created ==>
                  && written.kb.log == kb.log + [r] && written.kb.files == kb.files && written.kb.labels == kb.labels
                  && SameElsewhere(kb, written.kb, r.schema)
                  && Members(written.kb, r.schema) == Members(kb, r.schema) + {r.id}
                  && Visible(written.kb, r.schema) == Visible(kb, r.schema) + {r.id}
                  && Reasons(written.kb, r.schema) == Reasons(kb, r.schema)
                  && CurrentLabel(written.kb, r.schema) == CurrentLabel(kb, r.schema)
                  && (forall id :: IsWithheld(written.kb, r.schema, id) <==> IsWithheld(kb, r.schema, id))
                  && (Pushable(written.kb, r) <==> !IsWithheld(kb, r.schema, r.id)))
  {
    var written := Write(kb, r);
    if written.status == Created {
      assert StateOk(kb.log, kb.labels, r.schema, kb.schemas[r.schema]);
      NewIsStored(kb.log, r);
      hide Withheld, Valid;
      forall s | s != r.schema ensures SameSchema(kb, written.kb, s) {}
    }
  }

  lemma NewIsStored(log: seq<Record>, r: Record)
    requires r.id !in Ids(log)
    ensures forall s :: StoredOf(log + [r], s) == StoredOf(log, s) + (if s == r.schema then {r.id} else {})
    ensures forall s :: r.id !in StoredOf(log, s)
  {
    var longer := log + [r];
    assert forall x :: x in longer <==> x in log || x == r;
    assert r in longer;
    forall s ensures StoredOf(longer, s) == StoredOf(log, s) + (if s == r.schema then {r.id} else {}) {}
  }

  // ---- exclusions ----

  /** An exclude hides the record and no other, gives it the reason, and withholds it and no other. */
  lemma ExcludeEffect(kb: Kb, r: Record, reason: string)
    requires Valid(kb) && r in kb.log
    ensures var after, s := ExcludeId(kb, r.id, reason), r.schema;
            && SameStore(kb, after) && after.labels == kb.labels && SameElsewhere(kb, after, s)
            && Members(after, s) == Members(kb, s)
            && (forall t :: Visible(after, t) == Visible(kb, t) - (if t == s then {r.id} else {}))
            && Reasons(after, s) == Reasons(kb, s)[r.id := reason] && CurrentLabel(after, s) == CurrentLabel(kb, s)
            && (forall id :: IsWithheld(after, s, id) <==> id == r.id || IsWithheld(kb, s, id))
  {
    assert r.id in Ids(kb.log);
    SameIdSameRecord(kb.log, r, Find(kb.log, r.id).value);
    forall id ensures IsWithheld(ExcludeId(kb, r.id, reason), r.schema, id) <==>
      id == r.id || IsWithheld(kb, r.schema, id) {
      WithheldAppend(StateOf(kb, r.schema).history, Entry(r.id, Excluding), id);
    }
    hide Withheld;
  }

  /** An include shows the record and no other, drops its reason and no other, and releases it and no other. */
  lemma IncludeEffect(kb: Kb, r: Record)
    requires Valid(kb) && r in kb.log
    ensures var after, s := IncludeId(kb, r.id), r.schema;
            && SameStore(kb, after) && after.labels == kb.labels && SameElsewhere(kb, after, s)
            && Members(after, s) == Members(kb, s) + {r.id}
            && (forall t :: Visible(after, t) == Visible(kb, t) + (if t == s then {r.id} else {}))
            && Reasons(after, s) == Reasons(kb, s) - {r.id} && CurrentLabel(after, s) == CurrentLabel(kb, s)
            && (forall id :: IsWithheld(after, s, id) <==> id != r.id && IsWithheld(kb, s, id))
  {
    assert r.id in Ids(kb.log);
    SameIdSameRecord(kb.log, r, Find(kb.log, r.id).value);
    var state, after := StateOf(kb, r.schema), IncludeId(kb, r.id);
    forall id ensures IsWithheld(after, r.schema, id) <==> id != r.id && IsWithheld(kb, r.schema, id) {
      WithheldAppend(state.history, Entry(r.id, Including), id);
      assert state.history + [] == state.history;
    }
    hide Withheld;
    assert r.id in StoredOf(kb.log, r.schema);
  }

  /** Neither does anything for a record that is not stored. */
  lemma UnknownIsLeftAlone(kb: Kb, id: Id, reason: string)
    requires id !in Ids(kb.log)
    ensures ExcludeId(kb, id, reason) == kb == IncludeId(kb, id)
  {
  }

  // ---- labels and restores ----

  /** A label holds the members and the exclusions with their reasons as they are, and becomes the schema's current one;
    * reads and pushes are as before. It is refused for an unknown schema or an id already taken. */
  lemma LabelEffect(kb: Kb, schema: Schema, newTag: LabelId)
    requires Valid(kb)
    ensures LabelAs(kb, schema, newTag).Some? <==> schema in kb.schemas && newTag !in kb.labels
    ensures LabelAs(kb, schema, newTag).Some? ==>
              var after := LabelAs(kb, schema, newTag).value;
              && SameStore(kb, after) && SameElsewhere(kb, after, schema)
              && newTag in after.labels && after.labels - {newTag} == kb.labels
              && after.labels[newTag] == Label(schema, Members(kb, schema), Reasons(kb, schema))
              && Members(after, schema) == Members(kb, schema) && Reasons(after, schema) == Reasons(kb, schema)
              && Visible(after, schema) == Visible(kb, schema)
              && CurrentLabel(after, schema) == Some(newTag) && !Modified(after, schema)
              && (forall id :: IsWithheld(after, schema, id) <==> IsWithheld(kb, schema, id))
  {
    hide Withheld;
  }

  /** Saving makes such a label exactly when the state differs from its current label, or is not empty without one. */
  lemma SaveEffect(kb: Kb, schema: Schema, newTag: LabelId)
    requires Valid(kb) && schema in kb.schemas
    ensures SaveIfModified(kb, schema, newTag) == if Modified(kb, schema) then LabelAs(kb, schema, newTag) else Some(kb)
    ensures Modified(kb, schema) <==>
              if CurrentLabel(kb, schema).None? then Members(kb, schema) != {} || Reasons(kb, schema) != map[]
              else var tag := kb.labels[CurrentLabel(kb, schema).value];
                   tag.members != Members(kb, schema) || tag.exclusions.Keys != Reasons(kb, schema).Keys
  {
    assert StateOk(kb.log, kb.labels, schema, kb.schemas[schema]);
    assert Excluded(kb, schema) == {} <==> Reasons(kb, schema) == map[];
  }

  /** Deleting a label takes that one away, and makes no label current where it was; nothing else. */
  lemma DeleteEffect(kb: Kb, tag: LabelId)
    ensures var after := DeleteLabel(kb, tag);
            && SameStore(kb, after) && after.labels == kb.labels - {tag} && after.schemas.Keys == kb.schemas.Keys
            && forall s ::
                 && Members(after, s) == Members(kb, s) && Reasons(after, s) == Reasons(kb, s)
                 && Visible(after, s) == Visible(kb, s)
                 && (forall id :: IsWithheld(after, s, id) <==> IsWithheld(kb, s, id))
                 && (tag in kb.labels ==>
                       CurrentLabel(after, s) == if CurrentLabel(kb, s) == Some(tag) then None else CurrentLabel(kb, s))
  {
    hide Withheld;
  }

  /** A restore releases nothing and withholds nothing, and makes the label current. */
  lemma RestoreEffect(kb: Kb, tag: LabelId, newTag: LabelId)
    requires Valid(kb) && Restore(kb, tag, newTag).Some?
    ensures var after, saved := Restore(kb, tag, newTag).value, kb.labels[tag];
            && SameStore(kb, after) && SameElsewhere(kb, after, saved.schema)
            && Members(after, saved.schema) == saved.members && Reasons(after, saved.schema) == saved.exclusions
            && Visible(after, saved.schema) == saved.members - saved.exclusions.Keys
            && CurrentLabel(after, saved.schema) == Some(tag)
            && (forall id :: IsWithheld(after, saved.schema, id) <==> IsWithheld(kb, saved.schema, id))
            && after.labels == SaveIfModified(kb, saved.schema, newTag).value.labels
  {
    RestoreReturnsTheLabel(kb, tag, newTag);
    assert LabelOk(kb.log, kb.labels[tag]);
    hide Withheld, Valid, Modified;
  }

  /** Bringing in puts back those of the records given that are stored under the schema; exclusions stand. */
  lemma BringInEffect(kb: Kb, schema: Schema, ids: set<Id>)
    requires Valid(kb) && schema in kb.schemas
    ensures var after := BringIn(kb, schema, ids);
            && SameStore(kb, after) && after.labels == kb.labels && SameElsewhere(kb, after, schema)
            && Members(after, schema) == Members(kb, schema) + (ids * StoredOf(kb.log, schema))
            && Visible(after, schema) == Visible(kb, schema) +
              (ids * StoredOf(kb.log, schema) - Reasons(kb, schema).Keys)
            && Reasons(after, schema) == Reasons(kb, schema) && CurrentLabel(after, schema) == CurrentLabel(kb, schema)
            && (forall id :: IsWithheld(after, schema, id) <==> IsWithheld(kb, schema, id))
  {
    hide Withheld;
  }
}
