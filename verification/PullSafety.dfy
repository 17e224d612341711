/** What every run keeps on the pull side while the global KB only ever adds to its log: cursors name the record they
  * stopped at, what is noted as on the global KB is there, and every record the cursor passed that the remembered
  * state shows has been received or rejected.
  */
module PullSafety {
  import opened Prelude
  import opened Log
  import opened KbState
  import opened Sync

  // ---- the global KB only grows ----

  ghost predicate RemoteOk(remote: Remote) {
    Valid(remote.kb) && remote.pulled <= Ids(remote.kb.log)
  }

  /** `b` is a later state of `a`: its log extends, and it marks as pulled only records it wrote since. */
  ghost predicate Grows(a: Remote, b: Remote) {
    && RemoteOk(b) && Extends(a.kb, b.kb)
    && a.pulled <= b.pulled && (forall id | id in b.pulled && id in Ids(a.kb.log) :: id in a.pulled)
  }

  lemma DeliverGrows(remote: Remote, r: Record)
    requires RemoteOk(remote)
    ensures Grows(remote, remote.(kb := Deliver(remote.kb, r).kb))
  {
    var a := Register(remote.kb, r.schema);
    var b := PutFiles(a, r.files);
    ApplyKeepsValid(remote.kb, OpRegister(r.schema));
    ApplyKeepsValid(a, OpPutFiles(r.files));
    ValidAfterWrite(b, r);
    ExtendsTransitive(remote.kb, a, b);
    ExtendsTransitive(remote.kb, b, Write(b, r).kb);
    StoredGrows(remote.kb.log, Write(b, r).kb.log, "");
  }

  lemma RemoteStepGrows(remote: Remote, op: Op)
    requires RemoteOk(remote)
    ensures Grows(remote, remote.(kb := Apply(remote.kb, op)))
  {
    ApplyKeepsValid(remote.kb, op);
    StoredGrows(remote.kb.log, Apply(remote.kb, op).log, "");
  }

  lemma RemotePullGrows(remote: Remote, r: Record)
    requires RemoteOk(remote)
    ensures Grows(remote, PulledByRemote(remote, r))
  {
    var a := PutFiles(remote.kb, r.files);
    ApplyKeepsValid(remote.kb, OpPutFiles(r.files));
    ValidAfterWrite(a, r);
    ExtendsTransitive(remote.kb, a, Write(a, r).kb);
    StoredGrows(remote.kb.log, Write(a, r).kb.log, "");
    assert Write(a, r).status == Created ==> r in Write(a, r).kb.log;
  }

  // ---- the invariant ----

  function Rank(p: Phase): nat {
    match p
    case Resetting => 0
    case Registering => 1
    case Labelling => 2
    case BringingBack => 3
    case Receiving => 4
    case Noting => 5
    case BringingIn => 6
    case Advancing => 7
    case Remembering => 8
    case Marking => 9
  }

  /** The same record is stored on both sides. */
  ghost predicate Shared(w: World, schema: Schema, id: Id) {
    exists r :: r in w.local.log && r in w.remote.kb.log && r.id == id && r.schema == schema
  }

  ghost predicate NotedOk(w: World) {
    forall schema, id | schema in w.ledger.onGlobal && id in w.ledger.onGlobal[schema] :: Shared(w, schema, id)
  }

  ghost predicate CursorIn(remote: Remote, c: Cursor) {
    c.position <= |remote.kb.log| && c.anchor == WrittenAt(remote.kb.log, c.position)
  }

  ghost predicate CursorOk(w: World, c: Cursor) {
    CursorIn(w.remote, c)
  }

  /** A pull of `schema` is under way: some batch of it has brought back what was outside, and it is not finished. */
  ghost predicate Open(w: World, schema: Schema) {
    || schema in w.ledger.inProgress
    || (w.batch.Pulling? && w.batch.pull.schema == schema && Rank(w.batch.pull.phase) > Rank(BringingBack))
  }

  /** While a pull is under way and no local restore came since it began, what it received are members here. */
  ghost predicate Strict(w: World, schema: Schema) {
    Open(w, schema) && schema !in w.disturbed
  }

  ghost predicate Handled(w: World, schema: Schema, id: Id, strict: bool) {
    id in w.rejected || (id in OnGlobal(w.ledger, schema) && (strict ==> id in Members(w.local, schema)))
  }

  ghost predicate CompleteUpTo(w: World, schema: Schema, position: nat, state: Digest, strict: bool) {
    && position <= |w.remote.kb.log|
    && forall i | 0 <= i < position && w.remote.kb.log[i].schema == schema &&
      Shown(w.remote.pulled, state, w.remote.kb.log[i]) ::
         Handled(w, schema, w.remote.kb.log[i].id, strict)
  }

  /** Whether the batch has saved its cursor but not yet the state its page was shown under. */
  ghost predicate BetweenCursorAndState(w: World, schema: Schema) {
    w.batch.Pulling? && w.batch.pull.schema == schema && w.batch.pull.phase == Remembering
  }

  /** The state the pull cursor of `schema` was reached under. */
  ghost function RememberedNow(w: World, schema: Schema): Option<Digest> {
    if BetweenCursorAndState(w, schema) then Some(w.batch.pull.page.state)
    else if schema in w.ledger.remembered then Some(w.ledger.remembered[schema])
    else None
  }

  ghost predicate SchemaOk(w: World, schema: Schema) {
    var cursor := PullCursor(w.ledger, schema);
    && CursorOk(w, cursor)
    && (cursor.position > 0 && RememberedNow(w, schema).Some? ==>
          CompleteUpTo(w, schema, cursor.position, RememberedNow(w, schema).value, Strict(w, schema)))
  }

  ghost predicate LedgersOk(w: World) {
    && RemoteOk(w.remote)
    && NotedOk(w)
    && forall schema :: SchemaOk(w, schema)
  }

  /** The page in hand is an export of an earlier state of the global KB, read after a cursor that stands in it. */
  ghost predicate PageOk(remote: Remote, p: Pull) {
    && RemoteOk(p.source) && Grows(p.source, remote)
    && CursorIn(p.source, p.start)
    && p.page == ExportOf(p.source, p.schema, p.start.position)
  }

  ghost predicate ProgressOk(w: World, p: Pull) {
    && p.done <= |p.page.items|
    && CursorOk(w, p.reached)
    && (if p.done == 0 then p.reached == p.start else p.reached.position == p.page.items[p.done - 1].position)
    && (forall id | id in p.fetched :: Shared(w, p.schema, id))
    && (forall k | 0 <= k < p.done :: p.page.items[k].record.id in p.fetched || p.page.items[k].record.id in w.rejected)
    && (Rank(p.phase) > Rank(Receiving) ==> p.failed || p.done == |p.page.items|)
  }

  ghost predicate PhaseOk(w: World, p: Pull) {
    && (Rank(p.phase) < Rank(Remembering) && p.start.position > 0 ==>
          && PullCursor(w.ledger, p.schema) == p.start
          && p.schema in w.ledger.remembered && w.ledger.remembered[p.schema] == p.page.state)
    && (Rank(p.phase) > Rank(Registering) ==> p.schema in w.local.schemas)
    && (Rank(p.phase) > Rank(Advancing) ==> PullCursor(w.ledger, p.schema) == Target(p))
    && (p.phase == Marking ==> p.schema in w.ledger.remembered && w.ledger.remembered[p.schema] == p.page.state)
    && (Rank(p.phase) > Rank(Noting) ==> p.fetched <= OnGlobal(w.ledger, p.schema))
    && (Rank(p.phase) > Rank(BringingIn) && Strict(w, p.schema) ==> p.fetched <= Members(w.local, p.schema))
  }

  ghost predicate FetchOk(w: World) {
    match w.batch
    case Refetching(schema, lost) => !lost
    case Pulling(p) => !p.lost && PageOk(w.remote, p) && ProgressOk(w, p) && PhaseOk(w, p)
    case _ => true
  }

  ghost predicate PullInv(w: World) {
    LedgersOk(w) && FetchOk(w)
  }

  // ---- what does not disturb it ----

  lemma {:induction false} ShownRowsMeaning(rows: seq<Row>, pulled: set<Id>, state: Digest)
    ensures forall x :: x in ShownRows(rows, pulled, state) <==> x in rows && Shown(pulled, state, x.record)
  {
    if rows != [] {
      ShownRowsMeaning(rows[1..], pulled, state);
      assert forall x :: x in rows <==> x == rows[0] || x in rows[1..];
    }
  }

  lemma {:induction false} ShownRowsAscend(rows: seq<Row>, pulled: set<Id>, state: Digest)
    requires Ascending(rows)
    ensures Ascending(ShownRows(rows, pulled, state))
  {
    if rows != [] {
      ShownRowsAscend(rows[1..], pulled, state);
      ShownRowsMeaning(rows[1..], pulled, state);
      var rest := ShownRows(rows[1..], pulled, state);
      assert forall i | 0 <= i < |rest| :: rest[i] in rest;
    }
  }

  lemma SharedGrows(w: World, w': World, schema: Schema, id: Id)
    requires Shared(w, schema, id) && w.local.log <= w'.local.log && w.remote.kb.log <= w'.remote.kb.log
    ensures Shared(w', schema, id)
  {
    var r :| r in w.local.log && r in w.remote.kb.log && r.id == id && r.schema == schema;
    assert r in w'.local.log && r in w'.remote.kb.log;
  }

  /** From `w` to `w'` nothing was undone: both logs extend, the ledger's notes and the rejections only grow. */
  ghost predicate Onward(w: World, w': World) {
    && w.local.log <= w'.local.log && w.local.schemas.Keys <= w'.local.schemas.Keys
    && (w'.remote == w.remote || Grows(w.remote, w'.remote))
    && w.rejected <= w'.rejected
    && forall s :: OnGlobal(w.ledger, s) <= OnGlobal(w'.ledger, s)
  }

  /** Where strictness is asked of `w'` it held in `w`, and members stayed members. */
  ghost predicate MembersKept(w: World, w': World, schema: Schema) {
    Strict(w', schema) ==> Strict(w, schema) && Members(w.local, schema) <= Members(w'.local, schema)
  }

  lemma CompleteStays(w: World, w': World, schema: Schema, position: nat, state: Digest)
    requires Onward(w, w') && MembersKept(w, w', schema)
    requires CompleteUpTo(w, schema, position, state, Strict(w, schema))
    ensures CompleteUpTo(w', schema, position, state, Strict(w', schema))
  {
    var log, log' := w.remote.kb.log, w'.remote.kb.log;
    forall i | 0 <= i < position && log'[i].schema == schema && Shown(w'.remote.pulled, state, log'[i])
      ensures Handled(w', schema, log'[i].id, Strict(w', schema))
    {
      assert log'[i] == log[i];
      assert Handled(w, schema, log[i].id, Strict(w, schema));
    }
  }

  lemma SchemaStays(w: World, w': World, schema: Schema)
    requires SchemaOk(w, schema) && Onward(w, w') && MembersKept(w, w', schema)
    requires PullCursor(w'.ledger, schema) == PullCursor(w.ledger, schema)
    requires RememberedNow(w', schema) == RememberedNow(w, schema)
    ensures SchemaOk(w', schema)
  {
    var cursor := PullCursor(w.ledger, schema);
    if cursor.position > 0 && RememberedNow(w, schema).Some? {
      CompleteStays(w, w', schema, cursor.position, RememberedNow(w, schema).value);
    }
  }

  lemma GrowsTransitive(a: Remote, b: Remote, c: Remote)
    requires Grows(a, b) && Grows(b, c)
    ensures Grows(a, c)
  {
    ExtendsTransitive(a.kb, b.kb, c.kb);
    StoredGrows(a.kb.log, b.kb.log, "");
  }

  lemma PageStays(w: World, w': World, p: Pull)
    requires PageOk(w.remote, p) && (w'.remote == w.remote || Grows(w.remote, w'.remote))
    ensures PageOk(w'.remote, p)
  {
    hide Valid, RemoteOk, ExportOf;
    if w'.remote != w.remote { GrowsTransitive(p.source, w.remote, w'.remote); }
  }

  /** What an export holds: every record its source shows between its cursors, in ascending order, and no other; its
    * anchors name the records at its cursors. */
  lemma ExportMeaning(source: Remote, schema: Schema, after: nat)
    requires after <= |source.kb.log|
    ensures var page := ExportOf(source, schema, after);
            && after <= page.next <= |source.kb.log| && Ascending(page.items)
            && (forall row | row in page.items ::
                  && after < row.position <= page.next && Shown(source.pulled, page.state, row.record)
                  && row.record == source.kb.log[row.position - 1] && row.record.schema == schema)
            && (forall i | after <= i < page.next && source.kb.log[i].schema == schema
                           && Shown(source.pulled, page.state, source.kb.log[i]) ::
                             Row(i + 1, source.kb.log[i]) in page.items)
            && CursorIn(source, Cursor(after, page.afterId)) && CursorIn(source, Cursor(page.next, page.nextId))
  {
    hide RecordsAfter;
    var log := source.kb.log;
    var page := ExportOf(source, schema, after);
    PageIsRange(log, Some(schema), after, SYNC_BATCH);
    var rows := Rows(log, Some(schema), after, page.next);
    RowsMeaning(log, Some(schema), after, page.next);
    ShownRowsMeaning(rows, source.pulled, page.state);
    ShownRowsAscend(rows, source.pulled, page.state);
  }

  lemma CursorsStay(a: Remote, b: Remote, c: Cursor)
    requires CursorIn(a, c) && Grows(a, b)
    ensures CursorIn(b, c)
  {
  }

  /** The same said of the global KB as it is now. */
  lemma PageMeaning(w: World, p: Pull)
    requires PageOk(w.remote, p)
    ensures p.start.position <= p.page.next && CursorOk(w, p.start) && CursorOk(w, Cursor(p.page.next, p.page.nextId))
    ensures Ascending(p.page.items)
    ensures forall row | row in p.page.items ::
              && p.start.position < row.position <= p.page.next
              && row.record == w.remote.kb.log[row.position - 1] && row.record.schema == p.schema
    ensures forall i | p.start.position <= i < p.page.next && w.remote.kb.log[i].schema == p.schema
                       && Shown(w.remote.pulled, p.page.state, w.remote.kb.log[i]) ::
                         Row(i + 1, w.remote.kb.log[i]) in p.page.items
  {
    hide Valid, RemoteOk;
    var log, log' := p.source.kb.log, w.remote.kb.log;
    ExportMeaning(p.source, p.schema, p.start.position);
    CursorsStay(p.source, w.remote, p.start);
    CursorsStay(p.source, w.remote, Cursor(p.page.next, p.page.nextId));
    assert forall i | 0 <= i < |log| :: log[i] == log'[i];
  }

  lemma ProgressStays(w: World, w': World, p: Pull)
    requires ProgressOk(w, p) && w.local.log <= w'.local.log && w.remote.kb.log <= w'.remote.kb.log &&
             w.rejected <= w'.rejected
    ensures ProgressOk(w', p)
  {
    forall id | id in p.fetched ensures Shared(w', p.schema, id) { SharedGrows(w, w', p.schema, id); }
  }

  /** A step outside the batch keeps the pull side whole. */
  lemma BystanderKeepsPullInv(w: World, w': World)
    requires PullInv(w) && Onward(w, w') && NotedOk(w')
    requires w'.batch == w.batch
    requires w'.ledger.pull == w.ledger.pull && w'.ledger.remembered == w.ledger.remembered
    requires forall s :: MembersKept(w, w', s)
    ensures PullInv(w')
  {
    hide Valid, ExportOf;
    forall s ensures SchemaOk(w', s) { SchemaStays(w, w', s); }
    if w.batch.Pulling? {
      PageStays(w, w', w.batch.pull);
      ProgressStays(w, w', w.batch.pull);
      assert MembersKept(w, w', w.batch.pull.schema);
    }
  }

  /** So does leaving the batch, or a change of batch outside a pull's own transactions. */
  lemma RebatchKeepsPullInv(w: World, w': World)
    requires PullInv(w) && Onward(w, w') && NotedOk(w')
    requires !w'.batch.Pulling? && (w'.batch.Refetching? ==> !w'.batch.lost)
    requires !(w.batch.Pulling? && w.batch.pull.phase == Remembering)
    requires w'.ledger.pull == w.ledger.pull && w'.ledger.remembered == w.ledger.remembered
    requires forall s :: MembersKept(w, w', s)
    ensures PullInv(w')
  {
    forall s ensures SchemaOk(w', s) { SchemaStays(w, w', s); }
  }

  lemma NotedStays(w: World, w': World)
    requires NotedOk(w) && w'.ledger.onGlobal == w.ledger.onGlobal
    requires w.local.log <= w'.local.log && w.remote.kb.log <= w'.remote.kb.log
    ensures NotedOk(w')
  {
    forall s, id | s in w'.ledger.onGlobal && id in w'.ledger.onGlobal[s] ensures Shared(w', s, id) {
      SharedGrows(w, w', s, id);
    }
  }

  /** Only a restore takes members away. */
  lemma MembersGrow(kb: Kb, op: Op, schema: Schema)
    requires Valid(kb) && schema !in Restores(kb, op)
    ensures Members(kb, schema) <= Members(Apply(kb, op), schema)
  {
    ApplyKeepsValid(kb, op);
    StoredGrows(kb.log, Apply(kb, op).log, schema);
  }
}
