/** Every transaction of a batch keeps the pull side whole, while the global KB only adds to its log. */
module PullSteps {
  import opened Prelude
  import opened Log
  import opened KbState
  import opened Sync
  import opened PushSafety
  import opened PullSafety

  ghost predicate Inv(w: World) {
    PushInv(w) && PullInv(w)
  }

  lemma LedgersStay(w: World, w': World)
    requires LedgersOk(w) && Onward(w, w') && NotedOk(w')
    requires w'.ledger.pull == w.ledger.pull
    requires forall s :: RememberedNow(w', s) == RememberedNow(w, s) && MembersKept(w, w', s)
    ensures LedgersOk(w')
  {
    forall s ensures SchemaOk(w', s) { SchemaStays(w, w', s); }
  }

  /** The ids noted as on the global KB are stored here, under the schema they are noted under. */
  lemma NotedIsStored(w: World, schema: Schema)
    requires NotedOk(w)
    ensures OnGlobal(w.ledger, schema) <= StoredOf(w.local.log, schema)
  {
    forall id | id in OnGlobal(w.ledger, schema) ensures id in StoredOf(w.local.log, schema) {
      assert Shared(w, schema, id);
    }
  }

  // ---- local operations ----

  lemma LocalOpKeepsPullInv(w: World, op: Op)
    requires Valid(w.local) && PullInv(w)
    ensures PullInv(Next(w, LocalOp(op)))
  {
    var w' := Next(w, LocalOp(op));
    ApplyKeepsValid(w.local, op);
    NotedStays(w, w');
    forall s ensures MembersKept(w, w', s) {
      if Strict(w', s) { MembersGrow(w.local, op, s); }
    }
    BystanderKeepsPullInv(w, w');
  }

  // ---- push ----

  /** What a send leaves for the pull side to rely on. */
  ghost predicate SentOnward(w: World, w': World) {
    && Onward(w, w') && NotedOk(w')
    && w'.ledger.pull == w.ledger.pull && w'.ledger.remembered == w.ledger.remembered
    && w'.ledger.inProgress == w.ledger.inProgress && w'.disturbed == w.disturbed && w'.local == w.local
  }

  lemma AcceptedIsStored(kb: Kb, r: Record)
    ensures Deliver(kb, r).status in {Created, Unchanged} ==>
            r in Deliver(kb, r).kb.log && r.id in Ids(Deliver(kb, r).kb.log)
  {
  }

  /** A send the global KB accepts is stored on both sides; one it refuses or loses disturbs nothing. */
  lemma SendKeepsLedgers(w: World, r: Record, reply: Reply)
    requires LedgersOk(w) && r in w.local.log
    ensures SentOnward(w, Send(w, r, reply).world)
  {
    hide Valid, RemoteOk, Write;
    var w' := Send(w, r, reply).world;
    var delivered := Deliver(w.remote.kb, r);
    DeliverGrows(w.remote, r);
    assert w'.remote == w.remote || w'.remote == w.remote.(kb := delivered.kb);
    if reply.outcome == Answered && delivered.status in {Created, Unchanged} {
      AcceptedIsStored(w.remote.kb, r);
      NotedAfterSend(w, w', r);
    } else {
      NotedStays(w, w');
    }
  }

  lemma NotedAfterSend(w: World, w': World, r: Record)
    requires NotedOk(w) && r in w.local.log && r in w'.remote.kb.log
    requires w'.local == w.local && w.remote.kb.log <= w'.remote.kb.log
    requires w'.ledger.onGlobal == NoteOnGlobal(w.ledger, r.schema, {r.id}).onGlobal
    ensures NotedOk(w')
  {
    forall s, id | s in w'.ledger.onGlobal && id in w'.ledger.onGlobal[s] ensures Shared(w', s, id) {
      if id in OnGlobal(w.ledger, s) { SharedGrows(w, w', s, id); }
    }
  }

  /** Ending or continuing a push after a send. */
  lemma PushTickKeepsPullInv(w: World, sent: World, w': World)
    requires PullInv(w) && !w.batch.Pulling? && SentOnward(w, sent)
    requires !w'.batch.Pulling? && !w'.batch.Refetching?
    requires w'.local == sent.local && w'.remote == sent.remote && w'.rejected == sent.rejected
    requires w'.disturbed == sent.disturbed && w'.ledger.onGlobal == sent.ledger.onGlobal
    requires w'.ledger.pull == sent.ledger.pull && w'.ledger.remembered == sent.ledger.remembered
    requires w'.ledger.inProgress == sent.ledger.inProgress
    ensures PullInv(w')
  {
    assert NotedOk(w') by { NotedStays(sent, w'); }
    RebatchKeepsPullInv(w, w');
  }

  lemma RetryKeepsPullInv(w: World, waiting: seq<Id>, reply: Reply)
    requires PullInv(w) && w.batch == Retrying(waiting) && waiting != []
    ensures PullInv(RetryOne(w, waiting, reply))
  {
    hide Valid, RemoteOk, Extends, Grows;
    var w' := RetryOne(w, waiting, reply);
    if Find(w.local.log, waiting[0]).Some? && Pushable(w.local, Find(w.local.log, waiting[0]).value) {
      var r := Find(w.local.log, waiting[0]).value;
      SendKeepsLedgers(w, r, reply);
      PushTickKeepsPullInv(w, Send(w, r, reply).world, w');
    } else {
      RebatchKeepsPullInv(w, w');
    }
  }

  lemma WalkKeepsPullInv(w: World, rows: seq<Row>, position: nat, more: bool, reply: Reply)
    requires PullInv(w) && w.batch == Walking(rows, position, more) && rows != [] && rows[0].record in w.local.log
    ensures PullInv(WalkOne(w, rows, position, more, reply))
  {
    hide Valid, RemoteOk, Extends, Grows;
    var w' := WalkOne(w, rows, position, more, reply);
    var r := rows[0].record;
    if r.id !in w.ledger.pulled && Pushable(w.local, r) {
      SendKeepsLedgers(w, r, reply);
      PushTickKeepsPullInv(w, Send(w, r, reply).world, w');
    } else {
      NotedStays(w, w');
      RebatchKeepsPullInv(w, w');
    }
  }

  lemma WalkedIsStored(w: World, rows: seq<Row>, position: nat)
    requires WalkOk(w, rows, position) && rows != []
    ensures rows[0].record in w.local.log
  {
    WalkTail(w.local.log, position, |rows|);
  }

  // ---- pull: the page ----

  lemma OpeningKeepsPullInv(w: World, schema: Schema, start: Cursor)
    requires PullInv(w) && !w.batch.Pulling? && CursorOk(w, start)
    requires start.position > 0 ==>
               && start == PullCursor(w.ledger, schema) && schema in w.ledger.remembered
               && w.ledger.remembered[schema] == HiddenDigest(w.remote.kb, schema)
    ensures PullInv(w.(batch := OpenPull(w.remote, schema, start, false)))
  {
    var w' := w.(batch := OpenPull(w.remote, schema, start, false));
    NotedStays(w, w');
    LedgersStay(w, w');
  }

  /** While the global KB only adds to its log, the cursor is never found lost. */
  lemma FetchKeepsPullInv(w: World, schema: Schema, reply: Reply)
    requires PullInv(w) && w.batch == Fetching(schema)
    ensures PullInv(FetchOne(w, schema, reply))
  {
    hide Valid, RemoteOk, Extends, Grows;
    var w' := FetchOne(w, schema, reply);
    var cursor := PullCursor(w.ledger, schema);
    assert SchemaOk(w, schema);
    NotedStays(w, w');
    if w'.batch.Pulling? {
      OpeningKeepsPullInv(w, schema, cursor);
    } else {
      RebatchKeepsPullInv(w, w');
    }
  }

  lemma RefetchKeepsPullInv(w: World, schema: Schema, lost: bool, reply: Reply)
    requires PullInv(w) && w.batch == Refetching(schema, lost)
    ensures PullInv(RefetchOne(w, schema, lost, reply))
  {
    var w' := RefetchOne(w, schema, lost, reply);
    NotedStays(w, w');
    if w'.batch.Pulling? {
      OpeningKeepsPullInv(w, schema, ORIGIN);
    } else {
      RebatchKeepsPullInv(w, w');
    }
  }

  // ---- pull: before the items ----

  /** A change of phase that leaves the cursor and its state alone, with this KB's own database only growing. */
  lemma PhaseChange(w: World, w': World, p: Pull, p': Pull)
    requires PullInv(w) && Onward(w, w') && NotedOk(w') && w'.remote == w.remote
    requires w.batch == Pulling(p) && w'.batch == Pulling(p') && p' == p.(phase := p'.phase, failed := p'.failed)
    requires p.phase != Remembering && p'.phase != Remembering
    requires w'.ledger.pull == w.ledger.pull && w'.ledger.remembered == w.ledger.remembered
    requires forall s :: MembersKept(w, w', s)
    requires Rank(p'.phase) > Rank(Receiving) ==> p'.failed || p.done == |p.page.items|
    requires PhaseOk(w', p')
    ensures PullInv(w')
  {
    hide Valid, RemoteOk, Extends, Grows, ExportOf;
    LedgersStay(w, w');
    FetchStays(w, w', p, p');
  }

  lemma GrowthOf(kb: Kb, op: Op)
    requires Valid(kb)
    ensures kb.log <= Apply(kb, op).log && kb.schemas.Keys <= Apply(kb, op).schemas.Keys
    ensures forall s | s !in Restores(kb, op) :: Members(kb, s) <= Members(Apply(kb, op), s)
  {
    ApplyKeepsValid(kb, op);
    forall s | s !in Restores(kb, op) ensures Members(kb, s) <= Members(Apply(kb, op), s) { MembersGrow(kb, op, s); }
  }

  lemma ResettingKeepsPullInv(w: World, p: Pull, reply: Reply)
    requires PullInv(w) && w.batch == Pulling(p) && p.phase == Resetting
    ensures PullInv(PullOne(w, p, reply))
  {
    hide Valid, RemoteOk, Extends, Grows, ExportOf, PageOk, ProgressOk;
    var w' := PullOne(w, p, reply);
    NotedStays(w, w');
    PhaseChange(w, w', p, p.(phase := Registering));
  }

  lemma RegisteringKeepsPullInv(w: World, p: Pull, reply: Reply)
    requires Valid(w.local) && PullInv(w) && w.batch == Pulling(p) && p.phase == Registering
    ensures PullInv(PullOne(w, p, reply))
  {
    hide Valid, RemoteOk, Extends, Grows, ExportOf, PageOk, ProgressOk;
    var w' := PullOne(w, p, reply);
    GrowthOf(w.local, OpRegister(p.schema));
    NotedStays(w, w');
    PhaseChange(w, w', p, w'.batch.pull);
  }

  lemma LabellingKeepsPullInv(w: World, p: Pull, reply: Reply)
    requires Valid(w.local) && PullInv(w) && w.batch == Pulling(p) && p.phase == Labelling
    ensures PullInv(PullOne(w, p, reply))
  {
    hide Valid, RemoteOk, Extends, Grows, ExportOf, PageOk, ProgressOk, Members, SaveIfModified;
    var w' := PullOne(w, p, reply);
    GrowthOf(w.local, OpBeginPull(p.schema, reply.newTag));
    assert w'.local == Apply(w.local, OpBeginPull(p.schema, reply.newTag));
    NotedStays(w, w');
    if w'.batch == Idle {
      RebatchKeepsPullInv(w, w');
    } else {
      PhaseChange(w, w', p, p.(phase := BringingBack));
    }
  }

  /** Putting back what is noted as on the global KB makes what the cursor passed members here. */
  lemma BroughtBackIsStrict(w: World, w': World, schema: Schema, position: nat, state: Digest)
    requires CompleteUpTo(w, schema, position, state, Strict(w, schema)) && NotedOk(w)
    requires w'.remote == w.remote && w'.rejected == w.rejected && w'.ledger == w.ledger
    requires schema in w.local.schemas && w'.local == BringIn(w.local, schema, OnGlobal(w.ledger, schema))
    ensures CompleteUpTo(w', schema, position, state, true)
  {
    NotedIsStored(w, schema);
    var log := w.remote.kb.log;
    forall i | 0 <= i < position && log[i].schema == schema && Shown(w.remote.pulled, state, log[i])
      ensures Handled(w', schema, log[i].id, true)
    {
      assert Handled(w, schema, log[i].id, Strict(w, schema));
    }
  }

  /** The first batch of a pull puts back what a restore had set outside: from then on what the cursor passed is
    * here. */
  lemma BringingBackKeepsPullInv(w: World, p: Pull, reply: Reply)
    requires Valid(w.local) && PullInv(w) && w.batch == Pulling(p) && p.phase == BringingBack
    ensures PullInv(PullOne(w, p, reply))
  {
    hide Valid, RemoteOk, Extends, Grows, ExportOf, PageOk, Members;
    var w' := PullOne(w, p, reply);
    GrowthOf(w.local, OpBringIn(p.schema, OnGlobal(w.ledger, p.schema)));
    NotedStays(w, w');
    assert LedgersOk(w') by {
      hide SchemaOk;
      forall s ensures SchemaOk(w', s) { BringingBackKeepsSchema(w, p, reply, s); }
    }
    FetchStays(w, w', p, p.(phase := Receiving));
  }

  /** What a batch in its items knows stays so when it handles no item. */
  lemma FetchStays(w: World, w': World, p: Pull, p': Pull)
    requires PageOk(w.remote, p) && ProgressOk(w, p) && PhaseOk(w', p') && !p.lost
    requires w'.batch == Pulling(p') && p' == p.(phase := p'.phase, failed := p'.failed)
    requires w'.remote == w.remote && w.local.log <= w'.local.log && w.rejected <= w'.rejected
    requires Rank(p'.phase) > Rank(Receiving) ==> p'.failed || p.done == |p.page.items|
    ensures FetchOk(w')
  {
    hide Valid, RemoteOk, Grows, ExportOf, PhaseOk;
    ProgressStays(w, w', p);
  }

  lemma BringingBackKeepsSchema(w: World, p: Pull, reply: Reply, s: Schema)
    requires Valid(w.local) && PullInv(w) && w.batch == Pulling(p) && p.phase == BringingBack
    ensures SchemaOk(PullOne(w, p, reply), s)
  {
    hide Valid, RemoteOk, Extends, Grows, ExportOf, PageOk, ProgressOk, Members, CompleteUpTo;
    var w' := PullOne(w, p, reply);
    GrowthOf(w.local, OpBringIn(p.schema, OnGlobal(w.ledger, p.schema)));
    assert SchemaOk(w, s);
    var cursor := PullCursor(w.ledger, s);
    assert RememberedNow(w', s) == RememberedNow(w, s);
    if s != p.schema {
      SchemaStays(w, w', s);
    } else if cursor.position > 0 && RememberedNow(w, s).Some? {
      assert Strict(w', s);
      BroughtBackIsStrict(w, w', s, cursor.position, RememberedNow(w, s).value);
    }
  }

  // ---- pull: the items ----

  lemma ItemIsRemote(w: World, p: Pull, k: nat)
    requires PageOk(w.remote, p) && k < |p.page.items|
    ensures var row := p.page.items[k];
            && p.start.position < row.position <= p.page.next
            && row.position <= |w.remote.kb.log| && row.record == w.remote.kb.log[row.position - 1]
            && row.record.schema == p.schema
            && CursorOk(w, Cursor(row.position, row.record.id))
  {
    hide PageOk;
    PageMeaning(w, p);
    assert p.page.items[k] in p.page.items;
  }

  /** Handling one item: what was handled before stays handled, and the item joins it. */
  lemma ItemHandled(w: World, w': World, p: Pull, p': Pull)
    requires PullInv(w) && Onward(w, w') && NotedOk(w') && w'.remote == w.remote
    requires w.batch == Pulling(p) && w'.batch == Pulling(p') && p.phase == Receiving && p.done < |p.page.items|
    requires var row := p.page.items[p.done];
             && p' == p.(done := p.done + 1, reached := Cursor(row.position, row.record.id), fetched := p'.fetched)
             && (p'.fetched == p.fetched || (p'.fetched == p.fetched + {row.record.id} &&
               Shared(w', p.schema, row.record.id)))
             && (row.record.id in p'.fetched || row.record.id in w'.rejected)
    requires p.fetched <= p'.fetched
    requires w'.ledger.pull == w.ledger.pull && w'.ledger.remembered == w.ledger.remembered
    requires forall s :: MembersKept(w, w', s)
    ensures PullInv(w')
  {
    hide Valid, RemoteOk, Extends, Grows, ExportOf;
    assert LedgersOk(w') by {
      hide SchemaOk, PhaseOk, ProgressOk, PageOk;
      LedgersStay(w, w');
    }
    ItemIsRemote(w, p, p.done);
    ItemProgress(w, w', p, p');
    assert PhaseOk(w', p');
  }

  lemma ItemProgress(w: World, w': World, p: Pull, p': Pull)
    requires ProgressOk(w, p) && p.done < |p.page.items| && p.phase == Receiving
    requires w.local.log <= w'.local.log && w'.remote == w.remote && w.rejected <= w'.rejected
    requires var row := p.page.items[p.done];
             && p' == p.(done := p.done + 1, reached := Cursor(row.position, row.record.id), fetched := p'.fetched)
             && (p'.fetched == p.fetched || (p'.fetched == p.fetched + {row.record.id} &&
               Shared(w', p.schema, row.record.id)))
             && (row.record.id in p'.fetched || row.record.id in w'.rejected)
             && CursorOk(w, Cursor(row.position, row.record.id))
    ensures ProgressOk(w', p')
  {
    hide Shared;
    ProgressStays(w, w', p);
  }

  /** What writing a received record does to this KB's own database. */
  lemma GrowthOfReceived(kb: Kb, r: Record)
    requires Valid(kb)
    ensures var after := Write(PutFiles(kb, r.files), r).kb;
            && kb.log <= after.log && kb.schemas.Keys <= after.schemas.Keys
            && forall s :: Members(kb, s) <= Members(after, s)
    ensures Write(PutFiles(kb, r.files), r).status in {Created, Unchanged} ==>
            r in Write(PutFiles(kb, r.files), r).kb.log
  {
    var filed := PutFiles(kb, r.files);
    GrowthOf(kb, OpPutFiles(r.files));
    ApplyKeepsValid(kb, OpPutFiles(r.files));
    GrowthOf(filed, OpWrite(r));
    forall s ensures Members(kb, s) <= Members(Write(filed, r).kb, s) {
      assert s !in Restores(kb, OpPutFiles(r.files)) && s !in Restores(filed, OpWrite(r));
    }
  }

  lemma ReceiveKeepsPullInv(w: World, p: Pull, reply: Reply)
    requires Valid(w.local) && PullInv(w) && w.batch == Pulling(p) && p.phase == Receiving && p.done < |p.page.items|
    ensures PullInv(ReceiveOne(w, p, reply))
  {
    hide Valid, RemoteOk, Extends, Grows, ExportOf;
    var w' := ReceiveOne(w, p, reply);
    var r := p.page.items[p.done].record;
    ItemIsRemote(w, p, p.done);
    if reply.outcome.Dropped? {
      NotedStays(w, w');
      PhaseChange(w, w', p, p.(phase := Noting, failed := true));
    } else if reply.outcome == Denied {
      NotedStays(w, w');
      ItemHandled(w, w', p, w'.batch.pull);
    } else {
      WriteKeepsPullInv(w, p, reply);
    }
  }

  lemma WriteKeepsPullInv(w: World, p: Pull, reply: Reply)
    requires Valid(w.local) && PullInv(w) && w.batch == Pulling(p) && p.phase == Receiving && p.done < |p.page.items|
    requires reply.outcome == Answered && p.page.items[p.done].record.schema == p.schema
    requires p.page.items[p.done].record in w.remote.kb.log
    ensures PullInv(ReceiveOne(w, p, reply))
  {
    hide Valid, RemoteOk, Extends, Grows, ExportOf, PageOk, ProgressOk, PhaseOk;
    var w' := ReceiveOne(w, p, reply);
    var r := p.page.items[p.done].record;
    GrowthOfReceived(w.local, r);
    NotedStays(w, w');
    if r in w'.local.log { assert Shared(w', p.schema, r.id); }
    ItemHandled(w, w', p, w'.batch.pull);
  }

  lemma NotingKeepsPullInv(w: World, p: Pull, reply: Reply)
    requires PullInv(w) && w.batch == Pulling(p) && p.phase == Noting
    ensures PullInv(PullOne(w, p, reply))
  {
    hide Valid, RemoteOk, Extends, Grows, ExportOf, PageOk;
    var w' := PullOne(w, p, reply);
    forall s, id | s in w'.ledger.onGlobal && id in w'.ledger.onGlobal[s] ensures Shared(w', s, id) {
      if id in OnGlobal(w.ledger, s) { SharedGrows(w, w', s, id); } else { SharedGrows(w, w', p.schema, id); }
    }
    PhaseChange(w, w', p, p.(phase := BringingIn));
  }

  lemma BringingInKeepsPullInv(w: World, p: Pull, reply: Reply)
    requires Valid(w.local) && PullInv(w) && w.batch == Pulling(p) && p.phase == BringingIn
    ensures PullInv(PullOne(w, p, reply))
  {
    hide Valid, RemoteOk, Extends, Grows, ExportOf, PageOk;
    var w' := PullOne(w, p, reply);
    GrowthOf(w.local, OpBringIn(p.schema, p.fetched));
    NotedStays(w, w');
    NotedIsStored(w, p.schema);
    assert p.fetched <= Members(w'.local, p.schema);
    PhaseChange(w, w', p, p.(phase := Advancing));
  }

  // ---- pull: the cursor ----

  /** Every record shown at or before the cursor about to be saved was handled: before the page's start by earlier
    * batches under the same state, after it as an item of this page. */
  lemma TargetIsComplete(w: World, p: Pull)
    requires PullInv(w) && w.batch == Pulling(p) && p.phase == Advancing
    ensures CursorOk(w, Target(p))
    ensures CompleteUpTo(w, p.schema, Target(p).position, p.page.state, Strict(w, p.schema))
  {
    hide Valid, RemoteOk, Extends, Grows, ExportOf;
    var log := w.remote.kb.log;
    var target := Target(p).position;
    PageMeaning(w, p);
    if p.done > 0 { ItemIsRemote(w, p, p.done - 1); }
    forall i | 0 <= i < target && log[i].schema == p.schema && Shown(w.remote.pulled, p.page.state, log[i])
      ensures Handled(w, p.schema, log[i].id, Strict(w, p.schema))
    {
      if i < p.start.position {
        assert SchemaOk(w, p.schema);
      } else {
        ShownRowIsHandled(w, p, i);
      }
    }
  }

  lemma ShownRowIsHandled(w: World, p: Pull, i: nat)
    requires PageOk(w.remote, p) && ProgressOk(w, p) && PhaseOk(w, p) && p.phase == Advancing
    requires p.start.position <= i < Target(p).position <= p.page.next <= |w.remote.kb.log|
    requires w.remote.kb.log[i].schema == p.schema && Shown(w.remote.pulled, p.page.state, w.remote.kb.log[i])
    ensures Handled(w, p.schema, w.remote.kb.log[i].id, Strict(w, p.schema))
  {
    hide Valid, RemoteOk, Extends, Grows, ExportOf;
    PageMeaning(w, p);
    assert Row(i + 1, w.remote.kb.log[i]) in p.page.items;
    var k :| 0 <= k < |p.page.items| && p.page.items[k] == Row(i + 1, w.remote.kb.log[i]);
    assert k < p.done;
    assert p.page.items[k].record.id in p.fetched || p.page.items[k].record.id in w.rejected;
  }

  lemma AdvancingKeepsPullInv(w: World, p: Pull, reply: Reply)
    requires PullInv(w) && w.batch == Pulling(p) && p.phase == Advancing
    ensures PullInv(PullOne(w, p, reply))
  {
    hide Valid, RemoteOk, Extends, Grows, ExportOf, PageOk, Members, CompleteUpTo;
    var w' := PullOne(w, p, reply);
    NotedStays(w, w');
    assert LedgersOk(w') by {
      hide SchemaOk;
      forall s ensures SchemaOk(w', s) { AdvancingKeepsSchema(w, p, reply, s); }
    }
    FetchStays(w, w', p, p.(phase := Remembering));
  }

  lemma AdvancingKeepsSchema(w: World, p: Pull, reply: Reply, s: Schema)
    requires PullInv(w) && w.batch == Pulling(p) && p.phase == Advancing
    ensures SchemaOk(PullOne(w, p, reply), s)
  {
    hide Valid, RemoteOk, Extends, Grows, ExportOf, PageOk, ProgressOk, Members, CompleteUpTo;
    var w' := PullOne(w, p, reply);
    assert SchemaOk(w, s) && MembersKept(w, w', s);
    if s == p.schema {
      TargetIsComplete(w, p);
      CompleteStays(w, w', s, Target(p).position, p.page.state);
      assert RememberedNow(w', s) == Some(p.page.state);
    } else {
      SchemaStays(w, w', s);
    }
  }

  lemma RememberingKeepsPullInv(w: World, p: Pull, reply: Reply)
    requires PullInv(w) && w.batch == Pulling(p) && p.phase == Remembering
    ensures PullInv(PullOne(w, p, reply))
  {
    hide Valid, RemoteOk, Extends, Grows, ExportOf, PageOk, Members, CompleteUpTo;
    var w' := PullOne(w, p, reply);
    NotedStays(w, w');
    assert LedgersOk(w') by {
      forall s ensures RememberedNow(w', s) == RememberedNow(w, s) && MembersKept(w, w', s) {}
      hide SchemaOk;
      LedgersStay(w, w');
    }
    FetchStays(w, w', p, p.(phase := Marking));
  }

  lemma MarkingKeepsPullInv(w: World, p: Pull, reply: Reply)
    requires PullInv(w) && w.batch == Pulling(p) && p.phase == Marking
    ensures PullInv(PullOne(w, p, reply))
  {
    hide Valid, RemoteOk, Extends, Grows, ExportOf;
    var w' := PullOne(w, p, reply);
    NotedStays(w, w');
    forall s ensures MembersKept(w, w', s) {
    }
    RebatchKeepsPullInv(w, w');
  }

  lemma TickKeepsPullInv(w: World, reply: Reply)
    requires Inv(w)
    ensures PullInv(Tick(w, reply))
  {
    hide Valid, RemoteOk, Extends, Grows, ExportOf, PageOk;
    match w.batch
    case Idle =>
    case Retrying(waiting) =>
      if waiting == [] { RebatchKeepsPullInv(w, Tick(w, reply)); } else { RetryKeepsPullInv(w, waiting, reply); }
    case Walking(rows, position, more) =>
      if rows == [] {
        RebatchKeepsPullInv(w, Tick(w, reply));
      } else {
        WalkedIsStored(w, rows, position);
        WalkKeepsPullInv(w, rows, position, more, reply);
      }
    case Fetching(schema) => FetchKeepsPullInv(w, schema, reply);
    case Refetching(schema, lost) => RefetchKeepsPullInv(w, schema, lost, reply);
    case Pulling(p) =>
      match p.phase
      case Resetting => ResettingKeepsPullInv(w, p, reply);
      case Registering => RegisteringKeepsPullInv(w, p, reply);
      case Labelling => LabellingKeepsPullInv(w, p, reply);
      case BringingBack => BringingBackKeepsPullInv(w, p, reply);
      case Receiving =>
        if p.done < |p.page.items| {
          ReceiveKeepsPullInv(w, p, reply);
        } else {
          NotedStays(w, Tick(w, reply));
          PhaseChange(w, Tick(w, reply), p, p.(phase := Noting));
        }
      case Noting => NotingKeepsPullInv(w, p, reply);
      case BringingIn => BringingInKeepsPullInv(w, p, reply);
      case Advancing => AdvancingKeepsPullInv(w, p, reply);
      case Remembering => RememberingKeepsPullInv(w, p, reply);
      case Marking => MarkingKeepsPullInv(w, p, reply);
  }

  // ---- every step ----

  /** The process stops between saving a pull's cursor and the state its page was shown under, having remembered
    * another state before: harmless when every record the cursor passed that the old state shows and the page's
    * state hides has been handled all the same. */
  ghost predicate StopIsHarmless(w: World) {
    w.batch.Pulling? && w.batch.pull.phase == Remembering && w.batch.pull.schema in w.ledger.remembered ==>
      var p := w.batch.pull;
      var stopped := w.(batch := Idle);
      var log, pulled := w.remote.kb.log, w.remote.pulled;
      forall i | 0 <= i < PullCursor(w.ledger, p.schema).position <= |log| && log[i].schema == p.schema
                 && Shown(pulled, w.ledger.remembered[p.schema], log[i]) && !Shown(pulled, p.page.state, log[i]) ::
        Handled(stopped, p.schema, log[i].id, Strict(stopped, p.schema))
  }

  /** A stop keeps the pull side whole exactly then. */
  lemma StopKeepsPullInvIff(w: World)
    requires PullInv(w)
    ensures PullInv(w.(batch := Idle)) <==> StopIsHarmless(w)
  {
    hide Valid, RemoteOk, Extends, Grows, ExportOf, PageOk, ProgressOk;
    var w' := w.(batch := Idle);
    NotedStays(w, w');
    if w.batch.Pulling? && w.batch.pull.phase == Remembering {
      var schema := w.batch.pull.schema;
      forall s | s != schema ensures SchemaOk(w', s) { SchemaStays(w, w', s); }
      StopKeepsSchemaIff(w);
    } else {
      RebatchKeepsPullInv(w, w');
    }
  }

  /** So a stop is harmless wherever the code could tell: in any other phase, with no state remembered, or when the page
    * was shown under the very state remembered. */
  lemma StopUnderTheSameState(w: World)
    requires PullInv(w)
    requires w.batch.Pulling? && w.batch.pull.phase == Remembering && w.batch.pull.schema in w.ledger.remembered ==>
               w.batch.pull.page.state == w.ledger.remembered[w.batch.pull.schema]
    ensures StopIsHarmless(w) && PullInv(w.(batch := Idle))
  {
    hide PullInv, Shown, Handled;
    StopKeepsPullInvIff(w);
  }

  lemma StopKeepsSchemaIff(w: World)
    requires PullInv(w) && w.batch.Pulling? && w.batch.pull.phase == Remembering
    ensures SchemaOk(w.(batch := Idle), w.batch.pull.schema) <==> StopIsHarmless(w)
  {
    hide Valid, RemoteOk, Extends, Grows, ExportOf, PageOk, ProgressOk, Shown;
    var p := w.batch.pull;
    var w' := w.(batch := Idle);
    var cursor := PullCursor(w.ledger, p.schema);
    var log, pulled := w.remote.kb.log, w.remote.pulled;
    assert SchemaOk(w, p.schema) && RememberedNow(w, p.schema) == Some(p.page.state);
    assert Strict(w', p.schema) ==> Strict(w, p.schema);
    if p.schema in w.ledger.remembered {
      var state := w.ledger.remembered[p.schema];
      assert RememberedNow(w', p.schema) == Some(state);
      if StopIsHarmless(w) {
        forall i | 0 <= i < cursor.position && log[i].schema == p.schema && Shown(pulled, state, log[i])
          ensures Handled(w', p.schema, log[i].id, Strict(w', p.schema))
        {
          if Shown(pulled, p.page.state, log[i]) { assert Handled(w, p.schema, log[i].id, Strict(w, p.schema)); }
        }
      }
      if SchemaOk(w', p.schema) && cursor.position > 0 {
        assert CompleteUpTo(w', p.schema, cursor.position, state, Strict(w', p.schema));
      }
    }
  }

  /** The steps of a run against a global KB that only adds to its log. */
  ghost predicate AppendOnly(w: World, step: Step) {
    !step.Replace? && (step.Crash? ==> StopIsHarmless(w))
  }

  lemma StepKeepsInv(w: World, step: Step)
    requires Inv(w) && AppendOnly(w, step)
    ensures Inv(Next(w, step))
  {
    hide Valid, ExportOf, PageOk, ProgressOk, PhaseOk;
    StepKeepsPushInv(w, step);
    var w' := Next(w, step);
    match step
    case LocalOp(op) => LocalOpKeepsPullInv(w, op);
    case RemoteOp(op) =>
      RemoteStepGrows(w.remote, op);
      NotedStays(w, w');
      BystanderKeepsPullInv(w, w');
    case RemotePulls(r) =>
      RemotePullGrows(w.remote, r);
      NotedStays(w, w');
      BystanderKeepsPullInv(w, w');
    case StartPush(reply) => NotedStays(w, w'); if w.batch == Idle { RebatchKeepsPullInv(w, w'); }
    case StartPull(schema, reply) => NotedStays(w, w'); if w.batch == Idle { RebatchKeepsPullInv(w, w'); }
    case TickStep(reply) => TickKeepsPullInv(w, reply);
    case RebindStep =>
    case Crash => StopKeepsPullInvIff(w);
  }

  ghost predicate AppendOnlyRun(w: World, steps: seq<Step>)
    decreases |steps|
  {
    steps == [] || (AppendOnly(w, steps[0]) && AppendOnlyRun(Next(w, steps[0]), steps[1..]))
  }

  lemma {:induction false} RunKeepsInv(w: World, steps: seq<Step>)
    requires Inv(w) && AppendOnlyRun(w, steps)
    ensures Inv(Exec(w, steps))
    decreases |steps|
  {
    if steps != [] {
      StepKeepsInv(w, steps[0]);
      RunKeepsInv(Next(w, steps[0]), steps[1..]);
    }
  }
}
