/** What runs against a global KB promise of a pull: completeness, sound cursors, and where a stop can break it. */
module PullTheorems {
  import opened Prelude
  import opened Log
  import opened KbState
  import opened Sync
  import opened PushSafety
  import opened PullSafety
  import opened PullSteps

  lemma InitialIsInv(w: World)
    requires Initial(w) && RemoteOk(w.remote)
    ensures Inv(w)
  {
  }

  /** The same record is stored on both sides, as one of `schema`. */
  lemma SharedRecord(w: World, schema: Schema, r: Record)
    requires Valid(w.remote.kb) && Shared(w, schema, r.id) && r in w.remote.kb.log
    ensures r in w.local.log
  {
    var x :| x in w.local.log && x in w.remote.kb.log && x.id == r.id && x.schema == schema;
    SameIdSameRecord(w.remote.kb.log, x, r);
  }

  /** Pull completeness: in every run against an append-only global KB, each of its records of a schema at or before
    * the pull cursor, which the remembered state does not hide and the global KB did not itself pull, is stored here
    * and noted as on it, or was rejected. */
  lemma PullCompleteness(w: World, steps: seq<Step>, schema: Schema, i: nat)
    requires Initial(w) && RemoteOk(w.remote) && AppendOnlyRun(w, steps)
    requires var end := Exec(w, steps);
             && i < PullCursor(end.ledger, schema).position && i < |end.remote.kb.log|
             && end.remote.kb.log[i].schema == schema && RememberedNow(end, schema).Some?
             && Shown(end.remote.pulled, RememberedNow(end, schema).value, end.remote.kb.log[i])
    ensures var end := Exec(w, steps);
            var r := end.remote.kb.log[i];
            r.id in end.rejected || (r.id in OnGlobal(end.ledger, schema) && r in end.local.log)
  {
    InitialIsInv(w);
    RunKeepsInv(w, steps);
    var end := Exec(w, steps);
    var r := end.remote.kb.log[i];
    assert SchemaOk(end, schema);
    assert Handled(end, schema, r.id, Strict(end, schema));
    if r.id !in end.rejected {
      assert Shared(end, schema, r.id);
      SharedRecord(end, schema, r);
    }
  }

  /** What a finished pull owes: everything `source` exports of `schema` is stored here and a member of its state, so
    * that reads see it unless an exclusion here stands, or was rejected. */
  ghost predicate Brought(w: World, source: Remote, schema: Schema) {
    forall r | r in source.kb.log && r.schema == schema && Shown(source.pulled, HiddenDigest(source.kb, schema), r) ::
      r.id in w.rejected || (r in w.local.log && r.id in Members(w.local, schema))
  }

  /** A page that ends its schema's log leaves no record of it past its cursor. */
  lemma LastPageEndsTheLog(source: Remote, schema: Schema, after: nat)
    requires after <= |source.kb.log| && !ExportOf(source, schema, after).more
    ensures forall i | 0 <= i < |source.kb.log| && source.kb.log[i].schema == schema ::
            i < ExportOf(source, schema, after).next || i < after
  {
    hide Rows, RecordsAfter, ShownRows, HiddenDigest;
    var log := source.kb.log;
    PageIsRange(log, Some(schema), after, SYNC_BATCH);
    NoRowsNoMatch(log, Some(schema), ExportOf(source, schema, after).next);
  }

  lemma NoRowsNoMatch(log: seq<Record>, schema: Option<Schema>, from: nat)
    requires from <= |log| && Rows(log, schema, from, |log|) == []
    ensures forall i | from <= i < |log| :: !Matches(schema, log[i])
  {
    RowsMeaning(log, schema, from, |log|);
    hide Rows, Matches;
  }

  /** When a pull ends with nothing left and no local restore came since it began, everything the global KB exported
    * is here, whatever both sides did between its batches. */
  lemma FinishedPullIsComplete(w: World, p: Pull)
    requires Inv(w) && w.batch == Pulling(p) && p.phase == Marking && !p.failed && !p.page.more
    requires p.schema !in w.disturbed
    ensures Brought(w, p.source, p.schema)
  {
    var source, schema := p.source, p.schema;
    assert PageOk(w.remote, p) && p.page == ExportOf(source, schema, p.start.position);
    LastPageEndsTheLog(source, schema, p.start.position);
    FinishedCursor(w, p);
    forall r | r in source.kb.log && r.schema == schema && Shown(source.pulled, HiddenDigest(source.kb, schema), r)
      ensures r.id in w.rejected || (r in w.local.log && r.id in Members(w.local, schema))
    {
      ExportedIsBrought(w, p, r);
    }
  }

  lemma FinishedCursor(w: World, p: Pull)
    requires PullInv(w) && w.batch == Pulling(p) && p.phase == Marking && !p.failed && p.schema !in w.disturbed
    ensures p.start.position <= p.page.next <= |w.remote.kb.log|
    ensures CompleteUpTo(w, p.schema, p.page.next, p.page.state, true)
  {
    hide Valid, RemoteOk, Grows, ExportOf, ProgressOk, CompleteUpTo;
    PageMeaning(w, p);
    assert SchemaOk(w, p.schema) && Strict(w, p.schema);
    assert PullCursor(w.ledger, p.schema).position == p.page.next;
    assert RememberedNow(w, p.schema) == Some(p.page.state);
    if p.page.next == 0 { EmptyIsComplete(w, p.schema, p.page.state); }
  }

  lemma EmptyIsComplete(w: World, schema: Schema, state: Digest)
    ensures CompleteUpTo(w, schema, 0, state, true)
  {
  }

  lemma ExportedIsBrought(w: World, p: Pull, r: Record)
    requires Inv(w) && w.batch == Pulling(p) && p.start.position <= p.page.next <= |w.remote.kb.log|
    requires CompleteUpTo(w, p.schema, p.page.next, p.page.state, true)
    requires forall i | 0 <= i < |p.source.kb.log| && p.source.kb.log[i].schema == p.schema ::
             i < p.page.next || i < p.start.position
    requires r in p.source.kb.log && r.schema == p.schema && Shown(p.source.pulled, p.page.state, r)
    ensures r.id in w.rejected || (r in w.local.log && r.id in Members(w.local, p.schema))
  {
    assert Valid(w.remote.kb);
    hide Valid, PushInv, ProgressOk, PhaseOk, ExportOf, Members;
    var i :| 0 <= i < |p.source.kb.log| && p.source.kb.log[i] == r;
    assert w.remote.kb.log[i] == r && r in w.remote.kb.log;
    assert r.id in Ids(p.source.kb.log);
    assert Shown(w.remote.pulled, p.page.state, r);
    assert Handled(w, p.schema, r.id, true);
    if r.id !in w.rejected {
      assert Shared(w, p.schema, r.id);
      SharedRecord(w, p.schema, r);
    }
  }

  // ---- cursors ----

  /** Cursor soundness: against an append-only global KB the saved cursor always names the record at its position,
    * also after a failure in the middle of a page, so it is never found lost. */
  lemma CursorsAreSound(w: World, steps: seq<Step>, schema: Schema)
    requires Initial(w) && RemoteOk(w.remote) && AppendOnlyRun(w, steps)
    ensures var end := Exec(w, steps);
            && CursorIn(end.remote, PullCursor(end.ledger, schema))
            && (end.batch.Refetching? ==> !end.batch.lost) && (end.batch.Pulling? ==> !end.batch.pull.lost)
  {
    InitialIsInv(w);
    RunKeepsInv(w, steps);
    assert SchemaOk(Exec(w, steps), schema);
  }

  /** So there the push cursor never moves back but by a rebind. */
  lemma PushCursorOnlyMovesOn(w: World, step: Step)
    requires Inv(w) && AppendOnly(w, step) && !step.RebindStep?
    ensures w.ledger.push <= Next(w, step).ledger.push
  {
    hide Valid, LedgersOk, PageOk, ProgressOk, PhaseOk, Covered, LedgerOk, AckedOk, Deliver;
    if step.TickStep? {
      match w.batch
      case Retrying(waiting) =>
        if waiting != [] && Find(w.local.log, waiting[0]).Some? {
          SendCovers(w, Find(w.local.log, waiting[0]).value, step.reply);
        }
      case Walking(rows, position, more) => if rows != [] { SendCovers(w, rows[0].record, step.reply); }
      case Pulling(p) => PullLeavesPushCursor(w, p, step.reply);
      case _ =>
    }
  }

  lemma PullLeavesPushCursor(w: World, p: Pull, reply: Reply)
    requires w.batch == Pulling(p) && !p.lost
    ensures PullOne(w, p, reply).ledger.push == w.ledger.push
  {
    hide Write;
  }

  /** When another record, or none, stands where a pull stopped, the pull pages its schema from the start, and from
    * then on nothing counts as pushed: the push cursor is 0 and what was accepted or refused before is forgotten. */
  lemma LostCursorStartsOver(w: World, schema: Schema, a: Reply, b: Reply, c: Reply)
    requires w.batch == Fetching(schema) && schema in w.remote.kb.schemas && a.outcome == b.outcome == Answered
    requires PullCursor(w.ledger, schema).position != 0
    requires PullCursor(w.ledger, schema).anchor != WrittenAt(w.remote.kb.log, PullCursor(w.ledger, schema).position)
    ensures var started := Tick(Tick(w, a), b);
            && started.batch.Pulling? && started.batch.pull.start == ORIGIN
            && started.batch.pull.page == ExportOf(w.remote, schema, 0)
    ensures var reset := Tick(Tick(Tick(w, a), b), c);
            reset.ledger == w.ledger.(push := 0) && reset.acked == {} && reset.refused == {}
  {
    hide RecordsAfter, HiddenDigest;
  }

  /** An exclusion or a restore on the global KB makes the next batch page the schema from the start, and nothing
    * else than that or a lost cursor does. */
  lemma MovedStateStartsOverIff(w: World, schema: Schema, a: Reply)
    requires w.batch == Fetching(schema) && schema in w.remote.kb.schemas && a.outcome == Answered
    requires PullCursor(w.ledger, schema).position != 0 && schema in w.ledger.remembered
    requires PullCursor(w.ledger, schema).anchor == WrittenAt(w.remote.kb.log, PullCursor(w.ledger, schema).position)
    ensures Tick(w, a).batch == Refetching(schema, false) <==>
            w.ledger.remembered[schema] != HiddenDigest(w.remote.kb, schema)
    ensures w.ledger.remembered[schema] == HiddenDigest(w.remote.kb, schema) ==>
              Tick(w, a).batch == OpenPull(w.remote, schema, PullCursor(w.ledger, schema), false)
  {
    hide RecordsAfter;
  }
}
