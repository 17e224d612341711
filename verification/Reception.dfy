/** What a pull receives: each exported record it is answered for is stored here, and marked when it is new so that no
  * push ever sends it back, unless it is unwelcome here; before that the state it changes is saved.
  */
module Reception {
  import opened Prelude
  import opened Log
  import opened KbState
  import opened KbTheorems
  import opened KbEffects
  import opened Sync
  import opened PushSafety
  import opened PullSafety
  import opened PullSteps
  import opened PullTheorems
  import opened SyncLoop
  import opened Binding
  import opened Delivery

  // ---- what is exported ----

  /** An export shows a record exactly when reads of the KB see it and the KB did not pull it itself. */
  lemma ExportShowsWhatReadsSee(source: Remote, r: Record)
    requires Valid(source.kb) && r in source.kb.log
    ensures Shown(source.pulled, HiddenDigest(source.kb, r.schema), r) <==>
              r.id in Visible(source.kb, r.schema) && r.id !in source.pulled
  {
    assert r.id in StoredOf(source.kb.log, r.schema);
  }

  /** A record the global KB pulls from elsewhere and stores, and no other, is one that it never exports. */
  lemma RemotePullIsNotExported(source: Remote, r: Record, digest: Digest)
    ensures var after := PulledByRemote(source, r);
            && after.identity == source.identity && source.kb.log <= after.kb.log <= source.kb.log + [r]
            && after.pulled == (if after.kb.log == source.kb.log then source.pulled else source.pulled + {r.id})
            && (after.kb.log != source.kb.log ==> !Shown(after.pulled, digest, r))
  {
    var put := PutFiles(source.kb, r.files);
    if Write(put, r).status == Created { assert |Write(put, r).kb.log| == |source.kb.log| + 1; }
  }

  /** Only restores made here disturb what pulls keep to. */
  lemma DisturbedByRestore(w: World, step: Step)
    ensures Next(w, step).disturbed <=
            w.disturbed + (if step.LocalOp? && step.op.OpRestore? && step.op.tag in w.local.labels
                           then {w.local.labels[step.op.tag].schema} else {})
  {
    hide Deliver, Write, Apply, SaveIfModified, BringIn, Register, ExportOf, Pushable, Find, Accepts, RecordsAfter;
  }

  lemma {:induction false} OnlyRestoresDisturb(w: World, steps: seq<Step>)
    requires forall i | 0 <= i < |steps| :: !(steps[i].LocalOp? && steps[i].op.OpRestore?)
    ensures Exec(w, steps).disturbed <= w.disturbed
    decreases |steps|
  {
    hide Next;
    if steps != [] {
      DisturbedByRestore(w, steps[0]);
      OnlyRestoresDisturb(Next(w, steps[0]), steps[1..]);
    }
  }

  // ---- one record ----

  lemma WrittenHere(kb: Kb, r: Record)
    requires Valid(kb) && r.schema in kb.schemas
    ensures var written := Write(PutFiles(kb, r.files), r);
            && Valid(written.kb) && kb.log <= written.kb.log
            && (Unwelcome(kb, r) ==> written.status in {Conflict, Invalid} && written.kb.log == kb.log)
            && (!Unwelcome(kb, r) ==>
                  Holds(written.kb, r) && written.status == if r in kb.log then Unchanged else Created)
            && (!Unwelcome(kb, r) ==> written.kb.log == if r in kb.log then kb.log else kb.log + [r])
            && (!Unwelcome(kb, r) && r !in kb.log ==> r.id !in Ids(kb.log))
  {
    var filed := PutFiles(kb, r.files);
    ApplyKeepsValid(kb, OpPutFiles(r.files));
    ValidAfterWrite(filed, r);
    WriteEnds(filed, r);
    WriteEffect(filed, r);
    if r in kb.log { assert r.id in Ids(kb.log); SameStays(kb, r); }
    hide Valid, Write;
    assert filed.log == kb.log && filed.schemas == kb.schemas;
    if r.id in Ids(kb.log) && r !in kb.log {
      var x :| x in kb.log && x.id == r.id;
      assert x != r;
    }
  }

  /** How the next exported record is handled: one that is welcome is held here and fetched, and marked as pulled
    * exactly when it is new here; one that is not, or that was denied, is rejected; one whose files are dropped ends
    * the batch's items and is handled later. */
  lemma ReceiveEffect(w: World, p: Pull, reply: Reply)
    requires Valid(w.local) && p.schema in w.local.schemas && p.done < |p.page.items|
    requires p.page.items[p.done].record.schema == p.schema
    ensures var r, after := p.page.items[p.done].record, ReceiveOne(w, p, reply);
            && after.remote == w.remote && after.sent == w.sent && after.batch.Pulling?
            && match reply.outcome
               case Dropped(_) => after == w.(batch := Pulling(p.(phase := Noting, failed := true)))
               case Denied =>
                 && after == w.(rejected := w.rejected + {r.id}, batch := after.batch)
                 && after.batch.pull.fetched == p.fetched && after.batch.pull.done == p.done + 1
               case Answered =>
                 && after.batch.pull.done == p.done + 1
                 && if Unwelcome(w.local, r) then
                      && after.rejected == w.rejected + {r.id} && after.local.log == w.local.log
                      && after.ledger == w.ledger && after.batch.pull.fetched == p.fetched
                    else
                      && after.rejected == w.rejected && Holds(after.local, r)
                      && after.batch.pull.fetched == p.fetched + {r.id}
                      && after.ledger == w.ledger.(pulled := w.ledger.pulled +
                        (if r in w.local.log then {} else {r.id}))
  {
    WrittenHere(w.local, p.page.items[p.done].record);
    hide Valid, Write, Unwelcome;
  }

  // ---- no echo, from the pull on ----

  /** What a batch stores here it marks as pulled, and it marks nothing else. */
  lemma TickMarksWhatItStores(w: World, reply: Reply)
    requires Valid(w.local)
    ensures Tick(w, reply).ledger.pulled == w.ledger.pulled + (Ids(Tick(w, reply).local.log) - Ids(w.local.log))
  {
    hide Valid, Send, Pushable, RecordsAfter, ExportOf;
    match w.batch
    case Retrying(waiting) =>
      if waiting != [] && Find(w.local.log, waiting[0]).Some? {
        SendCovers(w, Find(w.local.log, waiting[0]).value, reply);
      }
    case Walking(rows, position, more) => if rows != [] { SendCovers(w, rows[0].record, reply); }
    case Pulling(p) =>
      if p.phase == Receiving && p.done < |p.page.items| {
        ReceiveMarks(w, p, reply);
      } else {
        QuietPhaseMarks(w, p, reply);
      }
    case _ =>
  }

  lemma QuietPhaseMarks(w: World, p: Pull, reply: Reply)
    requires p.phase == Receiving ==> p.done >= |p.page.items|
    ensures PullOne(w, p, reply).local.log == w.local.log && PullOne(w, p, reply).ledger.pulled == w.ledger.pulled
  {
  }

  lemma ReceiveMarks(w: World, p: Pull, reply: Reply)
    requires Valid(w.local) && p.done < |p.page.items|
    ensures var after := ReceiveOne(w, p, reply);
            after.ledger.pulled == w.ledger.pulled + (Ids(after.local.log) - Ids(w.local.log))
  {
    var r := p.page.items[p.done].record;
    ReceivedGrows(w.local, r);
    NewId(w.local.log, r);
    hide Valid;
  }

  lemma NewId(log: seq<Record>, r: Record)
    ensures Ids(log + [r]) == Ids(log) + {r.id}
  {
    assert forall x :: x in log + [r] <==> x in log || x == r;
    assert r in log + [r];
  }

  /** No echo: a record that a pull brings here is sent by no push of any run from then on. */
  lemma PulledIsNeverSent(w: World, reply: Reply, steps: seq<Step>, r: Record)
    requires PushInv(w) && r !in w.local.log && r in Tick(w, reply).local.log
    ensures var mid := Next(w, TickStep(reply));
            mid.sent <= Exec(mid, steps).sent && r.id !in Exec(mid, steps).sent[|mid.sent|..]
  {
    hide Exec, Tick, Valid, ApplyAll, LocalOps, Covered, BatchOk, LedgerOk, AckedOk;
    var mid := Next(w, TickStep(reply));
    StepKeepsPushInv(w, TickStep(reply));
    TickMarksWhatItStores(w, reply);
    TickLocalOps(w, reply);
    RunsKeepValid(w.local, LocalOps(w, reply));
    assert DistinctIds(mid.local.log) by { IdsDiffer(mid.local); }
    NewIsNewId(w.local.log, mid.local.log, r);
    NoEcho(mid, steps, r.id);
  }

  lemma IdsDiffer(kb: Kb)
    requires Valid(kb)
    ensures DistinctIds(kb.log)
  {
  }

  lemma NewIsNewId(log: seq<Record>, longer: seq<Record>, r: Record)
    requires log <= longer && DistinctIds(longer) && r in longer && r !in log
    ensures r.id in Ids(longer) - Ids(log)
  {
    if r.id in Ids(log) {
      var x :| x in log && x.id == r.id;
      SameIdSameRecord(longer, x, r);
      assert false;
    }
  }

  // ---- rejections over a whole pull ----

  /** From `w` to `w'` only what is unwelcome here was rejected, unless a request was denied. */
  ghost predicate RejectedFairly(w: World, w': World, denied: bool) {
    && w'.remote == w.remote && w.local.log <= w'.local.log
    && forall r | r in w.remote.kb.log && r.id in w'.rejected && r.id !in w.rejected ::
         denied || Unwelcome(w'.local, r)
  }

  lemma RejectionsChain(a: World, b: World, c: World, x: bool, y: bool)
    requires RejectedFairly(a, b, x) && RejectedFairly(b, c, y)
    ensures RejectedFairly(a, c, x || y)
  {
    forall r | r in a.remote.kb.log && r.id in c.rejected && r.id !in a.rejected
      ensures x || y || Unwelcome(c.local, r) {
      if r.id in b.rejected && !x { UnwelcomeStays(b.local, c.local, r); }
    }
  }

  lemma PullTickIsFair(w: World, schema: Schema, reply: Reply)
    requires Inv(w) && PullOf(w, schema)
    ensures RejectedFairly(w, Tick(w, reply), reply.outcome == Denied)
  {
    TickLocalOps(w, reply);
    RunsKeepValid(w.local, LocalOps(w, reply));
    PullTickQuiet(w, schema, reply);
    if w.batch.Pulling? && w.batch.pull.phase == Receiving && w.batch.pull.done < |w.batch.pull.page.items| {
      ReceiveIsFair(w, w.batch.pull, reply);
    } else {
      hide Valid, PushInv, PullInv, ExportOf;
      assert Tick(w, reply).rejected == w.rejected by { OnlyReceivingRejects(w, reply); }
    }
  }

  lemma OnlyReceivingRejects(w: World, reply: Reply)
    requires w.batch.Fetching? || w.batch.Refetching? || w.batch.Pulling?
    requires w.batch.Pulling? && w.batch.pull.phase == Receiving ==> w.batch.pull.done >= |w.batch.pull.page.items|
    ensures Tick(w, reply).rejected == w.rejected
  {
    hide SaveIfModified, BringIn, Register, ExportOf;
  }

  /** What is known of a batch among its items. */
  lemma PullIsWell(w: World, p: Pull)
    requires Inv(w) && w.batch == Pulling(p)
    ensures PageOk(w.remote, p) && Valid(w.local) && Valid(w.remote.kb)
    ensures Rank(p.phase) > Rank(Registering) ==> p.schema in w.local.schemas
  {
    hide Valid, PageOk, ProgressOk, NotedOk, SchemaOk;
  }

  lemma ReceiveRejects(w: World, p: Pull, reply: Reply)
    requires Valid(w.local) && p.schema in w.local.schemas && p.done < |p.page.items|
    requires p.page.items[p.done].record.schema == p.schema
    ensures var r, after := p.page.items[p.done].record, ReceiveOne(w, p, reply);
            && after.remote == w.remote
            && (after.rejected == w.rejected
                || (after.rejected == w.rejected + {r.id} && (reply.outcome == Denied || Unwelcome(after.local, r))))
  {
    var r, after := p.page.items[p.done].record, ReceiveOne(w, p, reply);
    ReceiveEffect(w, p, reply);
    hide Valid, ReceiveOne, Unwelcome, Holds;
    if reply.outcome == Answered && Unwelcome(w.local, r) { UnwelcomeStays(w.local, after.local, r); }
  }

  lemma ReceiveIsFair(w: World, p: Pull, reply: Reply)
    requires Inv(w) && w.batch == Pulling(p) && p.phase == Receiving && p.done < |p.page.items|
    ensures var after := ReceiveOne(w, p, reply);
            && after.remote == w.remote
            && forall r | r in w.remote.kb.log && r.id in after.rejected && r.id !in w.rejected ::
                 reply.outcome == Denied || Unwelcome(after.local, r)
  {
    hide Inv, Valid, ReceiveOne, Unwelcome, PageOk;
    PullIsWell(w, p);
    ItemIsRemote(w, p, p.done);
    ReceiveRejects(w, p, reply);
    SameStays(w.remote.kb, p.page.items[p.done].record);
  }

  /** Over a whole batch, whatever the network does, a record is rejected only when a request was denied or it is
    * unwelcome here. */
  lemma {:induction false} PullBatchIsFair(w: World, schema: Schema, network: Network, t: nat)
    requires Inv(w) && PullOf(w, schema)
    ensures var run := RunBatch(w, network, t);
            t < run.time && RejectedFairly(w, run.world, DeniedIn(network, t, run.time))
    decreases Work(w.batch)
  {
    hide Tick, Inv, Unwelcome;
    var w' := Tick(w, network(t));
    TickWorks(w, network(t));
    PullTickQuiet(w, schema, network(t));
    PullTickIsFair(w, schema, network(t));
    if w'.batch != Idle {
      PullBatchIsFair(w', schema, network, t + 1);
      var run := RunBatch(w', network, t + 1);
      RejectionsChain(w, w', run.world, network(t).outcome == Denied, DeniedIn(network, t + 1, run.time));
      DeniedLater(network, t, run.time);
    } else {
      DeniedLater(network, t, t + 1);
    }
  }

  /** So over a whole pull. */
  lemma {:induction false} PullIsFair(w: World, schema: Schema, network: Network, t: nat)
    requires Inv(w) && w.batch == Idle
    ensures var run := PullAll(w, schema, network, t);
            t < run.time && RejectedFairly(w, run.world, DeniedIn(network, t, run.time))
    decreases StartsOver(w, schema), |w.remote.kb.log| - PullCursor(w.ledger, schema).position
  {
    hide Inv, RunBatch, Unwelcome, StopIsHarmless;
    var begun := BeginPull(w, schema, network(t));
    StepKeepsInv(w, StartPull(schema, network(t)));
    if begun.batch != Idle {
      PullBatchRuns(begun, schema, network, t + 1);
      PullBatchIsFair(begun, schema, network, t + 1);
      var run := RunBatch(begun, network, t + 1);
      DeniedSplits(network, t, t + 1, run.time);
      RejectionsChain(w, begun, run.world, false, DeniedIn(network, t, run.time));
      if run.report == Completed(true) {
        PullIsFair(run.world, schema, network, run.time);
        var end := PullAll(run.world, schema, network, run.time);
        DeniedSplits(network, t, run.time, end.time);
        RejectionsChain(w, run.world, end.world, DeniedIn(network, t, run.time), DeniedIn(network, run.time, end.time));
      }
    }
  }

  // ---- over a network that answers ----

  /** A label made from now on finds a free id, or none is made in this pull any more. */
  ghost predicate LabelsFree(w: World, schema: Schema, network: Network, t: nat) {
    || (w.batch.Pulling? && Rank(w.batch.pull.phase) > Rank(Labelling))
    || (schema in w.ledger.inProgress && !(w.batch.Pulling? && w.batch.pull.phase == Labelling))
    || forall u | u >= t :: network(u).newTag !in w.local.labels
  }

  ghost predicate NotFailed(w: World) {
    w.batch.Pulling? ==> !w.batch.pull.failed && w.batch.pull.done <= |w.batch.pull.page.items|
  }

  lemma AnsweredPullTickGoesOn(w: World, schema: Schema, network: Network, t: nat)
    requires Inv(w) && PullOf(w, schema) && NotFailed(w) && LabelsFree(w, schema, network, t)
    requires network(t).outcome == Answered && schema in w.remote.kb.schemas
    ensures var w' := Tick(w, network(t));
            && (w'.batch != Idle ==> NotFailed(w') && LabelsFree(w', schema, network, t + 1))
            && (w'.batch == Idle ==> w.batch.Pulling? && w.batch.pull.phase == Marking)
  {
    if w.batch.Pulling? {
      PullIsWell(w, w.batch.pull);
      hide Inv, Valid, PageOk, ExportOf;
      AnsweredPullOneGoesOn(w, w.batch.pull, network, t);
    } else {
      hide Inv, ExportOf;
    }
  }

  lemma AnsweredPullOneGoesOn(w: World, p: Pull, network: Network, t: nat)
    requires w.batch == Pulling(p) && NotFailed(w) && LabelsFree(w, p.schema, network, t)
    requires network(t).outcome == Answered && (Rank(p.phase) > Rank(Registering) ==> p.schema in w.local.schemas)
    ensures var w' := PullOne(w, p, network(t));
            && (w'.batch != Idle ==> w'.batch.Pulling? && NotFailed(w') && LabelsFree(w', p.schema, network, t + 1))
            && (w'.batch == Idle ==> p.phase == Marking)
  {
    hide Write, Members, BringIn;
  }

  lemma {:induction false} AnsweredPullBatchCompletes(w: World, schema: Schema, network: Network, t: nat)
    requires Inv(w) && PullOf(w, schema) && NotFailed(w) && LabelsFree(w, schema, network, t)
    requires Answering(network, t) && schema in w.remote.kb.schemas
    ensures var run := RunBatch(w, network, t);
            && run.report.Completed? && t <= run.time && run.world.ledger.identity == w.ledger.identity
    decreases Work(w.batch)
  {
    hide Tick, Inv, LabelsFree;
    var w' := Tick(w, network(t));
    TickWorks(w, network(t));
    PullTickQuiet(w, schema, network(t));
    AnsweredPullTickGoesOn(w, schema, network, t);
    TickKeepsBinding(w, network(t));
    if w'.batch != Idle { AnsweredPullBatchCompletes(w', schema, network, t + 1); }
  }

  lemma {:induction false} AnsweredPullCompletes(w: World, schema: Schema, network: Network, t: nat)
    requires Inv(w) && w.batch == Idle && !Foreign(w) && Answering(network, t) && schema in w.remote.kb.schemas
    requires LabelsFree(w, schema, network, t)
    ensures PullAll(w, schema, network, t).report == Completed(false)
    decreases StartsOver(w, schema), |w.remote.kb.log| - PullCursor(w.ledger, schema).position
  {
    hide Inv, RunBatch, StopIsHarmless, BeginPull;
    var begun := BeginPull(w, schema, network(t));
    BeginsIff(w, schema, network(t));
    assert begun == Next(w, StartPull(schema, network(t)));
    StepKeepsInv(w, StartPull(schema, network(t)));
    PullBatchRuns(begun, schema, network, t + 1);
    AnsweredPullBatchCompletes(begun, schema, network, t + 1);
    var run := RunBatch(begun, network, t + 1);
    if run.report == Completed(true) {
      InProgressAfterMore(begun, schema, network, t + 1);
      AnsweredPullCompletes(run.world, schema, network, run.time);
    }
  }

  lemma InProgressAfterMore(w: World, schema: Schema, network: Network, t: nat)
    requires Inv(w) && w.batch == Fetching(schema) && RunBatch(w, network, t).report == Completed(true)
    ensures schema in RunBatch(w, network, t).world.ledger.inProgress
  {
    hide Inv, Tick;
    var w1 := Tick(w, network(t));
    TickWorks(w, network(t));
    PullTickQuiet(w, schema, network(t));
    FetchOpens(w, schema, network(t));
    if w1.batch.Pulling? {
      PullingRuns(w1, schema, network, t + 1);
    } else if w1.batch != Idle {
      var w2 := Tick(w1, network(t + 1));
      TickWorks(w1, network(t + 1));
      PullTickQuiet(w1, schema, network(t + 1));
      RefetchOpens(w1, schema, network(t + 1));
      if w2.batch.Pulling? { PullingRuns(w2, schema, network, t + 2); }
    }
  }

  /** Reception: over a network that answers, a pull of a schema the global KB has completes; and unless a local restore
    * disturbed it, every record there that reads see and that was not pulled there is then stored here and in the
    * state, so that reads here see it unless it is excluded here, or it is unwelcome here or an earlier pull rejected
    * it. */
  lemma PullBrings(w: World, schema: Schema, network: Network, t: nat)
    requires Inv(w) && w.batch == Idle && !Foreign(w) && Answering(network, t) && schema in w.remote.kb.schemas
    requires LabelsFree(w, schema, network, t)
    ensures var run := PullAll(w, schema, network, t);
            && run.report == Completed(false) && Inv(run.world) && run.world.remote == w.remote
            && (Undisturbed(w, schema) ==>
                  forall r | r in w.remote.kb.log && r.schema == schema
                             && r.id in Visible(w.remote.kb, schema) && r.id !in w.remote.pulled ::
                    || (r in run.world.local.log && r.id in Visible(run.world.local, schema) +
                      Excluded(run.world.local, schema))
                    || Unwelcome(run.world.local, r) || r.id in w.rejected)
  {
    assert Valid(w.remote.kb) by { hide PushInv, Valid; }
    hide Inv, Valid, PullAll, Unwelcome;
    AnsweredPullCompletes(w, schema, network, t);
    PullConverges(w, schema, network, t);
    PullIsFair(w, schema, network, t);
    var run := PullAll(w, schema, network, t);
    assert !DeniedIn(network, t, run.time);
    if Undisturbed(w, schema) {
      forall r | r in w.remote.kb.log && r.schema == schema
                 && r.id in Visible(w.remote.kb, schema) && r.id !in w.remote.pulled
        ensures || (r in run.world.local.log
                    && r.id in Visible(run.world.local, schema) + Excluded(run.world.local, schema))
                || Unwelcome(run.world.local, r) || r.id in w.rejected
      {
        ExportShowsWhatReadsSee(w.remote, r);
        assert Brought(run.world, w.remote, schema);
      }
    }
  }

  // ---- what a pull saves first ----

  /** The first batch of a pull saves the state it will change: two steps after it has its page, either it gave up
    * because the label's id is taken, or some label holds exactly the state there was, if there was any. A later batch
    * of the same pull saves nothing. */
  lemma PullSavesTheState(w: World, p: Pull, a: Reply, b: Reply)
    requires Valid(w.local) && w.batch == Pulling(p) && p.phase == Registering
    ensures p.schema in w.ledger.inProgress ==>
              Tick(w, a) == w.(local := Register(w.local, p.schema), batch := Pulling(p.(phase := Receiving)))
    ensures p.schema !in w.ledger.inProgress ==>
              var kb, saved := Register(w.local, p.schema), Tick(Tick(w, a), b);
              && (saved.batch == Idle <==> Modified(kb, p.schema) && b.newTag in kb.labels)
              && (saved.batch != Idle ==>
                    && saved.batch == Pulling(p.(phase := BringingBack)) && saved.ledger == w.ledger
                    && (!EmptyAndUnlabelled(kb, p.schema) ==>
                          && (Modified(kb, p.schema) || CurrentLabel(kb, p.schema).Some?)
                          && (var holder := Holder(kb, p.schema, b.newTag);
                              && holder in saved.local.labels && saved.local.labels[holder].schema == p.schema
                              && saved.local.labels[holder].members == Members(w.local, p.schema)
                              && saved.local.labels[holder].exclusions.Keys == Excluded(w.local, p.schema))))
  {
    var kb := Register(w.local, p.schema);
    RegisterEffect(w.local, p.schema);
    ApplyKeepsValid(w.local, OpRegister(p.schema));
    hide Valid, Members;
    if p.schema !in w.ledger.inProgress && SaveIfModified(kb, p.schema, b.newTag).Some? &&
      !EmptyAndUnlabelled(kb, p.schema) {
      ReplacedStateIsHeld(kb, p.schema, b.newTag);
    }
  }

  lemma StepKeepsLabel(w: World, step: Step, tag: LabelId)
    requires tag in w.local.labels && step != LocalOp(OpDeleteLabel(tag))
    ensures tag in Next(w, step).local.labels && Next(w, step).local.labels[tag] == w.local.labels[tag]
  {
    hide Apply, Tick, ApplyAll;
    match step
    case LocalOp(op) =>
      OneOp(w.local, op);
      LabelsPersist(w.local, [op], tag);
    case TickStep(reply) =>
      TickLocalOps(w, reply);
      LabelsPersist(w.local, LocalOps(w, reply), tag);
    case _ =>
  }

  lemma OneOp(kb: Kb, op: Op)
    ensures ApplyAll(kb, [op]) == Apply(kb, op)
  {
    ApplyTwo(kb, op, op);
  }

  lemma {:induction false} RunKeepsLabel(w: World, steps: seq<Step>, tag: LabelId)
    requires tag in w.local.labels && LocalOp(OpDeleteLabel(tag)) !in steps
    ensures tag in Exec(w, steps).local.labels && Exec(w, steps).local.labels[tag] == w.local.labels[tag]
    decreases |steps|
  {
    hide Next;
    if steps != [] {
      assert steps[0] in steps;
      StepKeepsLabel(w, steps[0], tag);
      RunKeepsLabel(Next(w, steps[0]), steps[1..], tag);
    }
  }

  /** Undo of a pull: whatever the pull and anyone else do after it saved the state, restoring the label that holds it
    * brings back exactly the members and exclusions there were, as long as that label is not deleted. */
  lemma PullIsUndone(w: World, p: Pull, a: Reply, b: Reply, steps: seq<Step>, laterTag: LabelId)
    requires PushInv(w) && w.batch == Pulling(p) && p.phase == Registering && p.schema !in w.ledger.inProgress
    requires Tick(Tick(w, a), b).batch != Idle && !EmptyAndUnlabelled(Register(w.local, p.schema), p.schema)
    requires var kb := Register(w.local, p.schema); Modified(kb, p.schema) || CurrentLabel(kb, p.schema).Some?
    requires var holder := Holder(Register(w.local, p.schema), p.schema, b.newTag);
             && LocalOp(OpDeleteLabel(holder)) !in steps
             && Restore(Exec(Tick(Tick(w, a), b), steps).local, holder, laterTag).Some?
    ensures var holder := Holder(Register(w.local, p.schema), p.schema, b.newTag);
            var undone := Restore(Exec(Tick(Tick(w, a), b), steps).local, holder, laterTag).value;
            Members(undone, p.schema) == Members(w.local, p.schema) &&
              Excluded(undone, p.schema) == Excluded(w.local, p.schema)
  {
    hide PushInv, Tick, Exec, Restore, Members, Excluded, Modified, EmptyAndUnlabelled;
    var holder := Holder(Register(w.local, p.schema), p.schema, b.newTag);
    PushIsValid(w);
    PullSavesTheState(w, p, a, b);
    TickKeepsPushInv(w, a);
    TickKeepsPushInv(Tick(w, a), b);
    var saved := Tick(Tick(w, a), b);
    RunKeepsLabel(saved, steps, holder);
    RunKeepsPushInv(saved, steps);
    PushIsValid(Exec(saved, steps));
    RestoreReturnsTheLabel(Exec(saved, steps).local, holder, laterTag);
  }

  lemma PushIsValid(w: World)
    requires PushInv(w)
    ensures Valid(w.local)
  {
  }

  // ---- where a pull resumes ----

  /** A batch that failed in the middle of its page resumes after the last record it handled, and one that did not after
    * its page; and a pull is in progress exactly when its last batch failed or left more. */
  lemma PullResumes(w: World, p: Pull, reply: Reply)
    requires PullInv(w) && w.batch == Pulling(p)
    ensures p.phase == Advancing ==>
              var cursor := PullCursor(Tick(w, reply).ledger, p.schema);
              if !p.failed then cursor == Cursor(p.page.next, p.page.nextId)
              else if p.done == 0 then cursor == p.start
              else cursor == Cursor(p.page.items[p.done - 1].position, p.page.items[p.done - 1].record.id)
    ensures p.phase == Marking ==>
              && Tick(w, reply).batch == Idle
              && (forall s :: s in Tick(w, reply).ledger.inProgress <==>
                    if s == p.schema then p.failed || p.page.more else s in w.ledger.inProgress)
  {
    assert ProgressOk(w, p) && PageOk(w.remote, p) by { hide Valid; }
    hide Valid, RemoteOk, Grows, ExportOf, PhaseOk, LedgersOk;
    if p.done > 0 { ItemIsRemote(w, p, p.done - 1); }
  }
}
