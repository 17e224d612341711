/** What a push delivers and what it does not: an answered send stores its record on the global KB and notes it, unless
  * the global KB finds it unwelcome; so a push over a network that answers completes and delivers everything it may.
  */
module Delivery {
  import opened Prelude
  import opened Log
  import opened KbState
  import opened KbEffects
  import opened Sync
  import opened PushSafety
  import opened PullSafety
  import opened PullSteps
  import opened SyncLoop
  import opened Binding

  // ---- one send ----

  /** A record and its files are held by a KB, under its schema. */
  ghost predicate Holds(kb: Kb, r: Record) {
    r in kb.log && r.files <= kb.files && r.schema in kb.schemas
  }

  /** What the global KB makes of a record: it ends up holding one that is not unwelcome, and nothing else of its log
    * changes. */
  lemma DeliverEffect(kb: Kb, r: Record)
    requires Valid(kb)
    ensures var delivered := Deliver(kb, r);
            && Valid(delivered.kb)
            && (delivered.status in {Created, Unchanged} <==> !Unwelcome(kb, r))
            && (Unwelcome(kb, r) ==> delivered.kb.log == kb.log)
            && (!Unwelcome(kb, r) ==> Holds(delivered.kb, r))
            && (!Unwelcome(kb, r) ==> delivered.kb.log == if r in kb.log then kb.log else kb.log + [r])
  {
    var registered := Register(kb, r.schema);
    var filed := PutFiles(registered, r.files);
    ApplyKeepsValid(kb, OpRegister(r.schema));
    ApplyKeepsValid(registered, OpPutFiles(r.files));
    ValidAfterWrite(filed, r);
    WriteEnds(filed, r);
    WriteEffect(filed, r);
    assert filed.log == kb.log;
    if r in kb.log { assert r.id in Ids(kb.log); SameStays(kb, r); }
    hide Valid, Write;
    if r.id in Ids(kb.log) && r !in kb.log {
      var x :| x in kb.log && x.id == r.id;
      assert x != r;
    }
  }

  lemma SameStays(kb: Kb, r: Record)
    requires Valid(kb) && r in kb.log
    ensures forall x | x in kb.log && x.id == r.id :: x == r
  {
    forall x | x in kb.log && x.id == r.id ensures x == r { SameIdSameRecord(kb.log, x, r); }
  }

  /** An answered send leaves a welcome record on the global KB, noted here and counted as accepted; one that is not
    * welcome is counted as refused, and the global KB's log stays. A denied one is refused and changes nothing there. A
    * dropped one is neither, may have arrived, and stops the push. */
  lemma SendEffect(w: World, r: Record, reply: Reply)
    requires Valid(w.remote.kb)
    ensures var sent := Send(w, r, reply);
            && sent.world.local == w.local && sent.world.sent == w.sent + [r.id]
            && (sent.stop <==> reply.outcome.Dropped?)
            && match reply.outcome
               case Answered =>
                 if Unwelcome(w.remote.kb, r) then
                   && sent.world.refused == w.refused + {r.id} && sent.world.acked == w.acked
                   && sent.world.ledger == w.ledger && sent.world.remote.kb.log == w.remote.kb.log
                 else
                   && sent.world.refused == w.refused && sent.world.acked == w.acked + {r.id}
                   && Holds(sent.world.remote.kb, r)
                   && (forall s :: OnGlobal(sent.world.ledger, s) ==
                                   OnGlobal(w.ledger, s) + (if s == r.schema then {r.id} else {}))
               case Denied =>
                 sent.world == w.(sent := w.sent + [r.id], refused := w.refused + {r.id})
               case Dropped(stored) =>
                 && sent.world == w.(sent := w.sent + [r.id], remote := sent.world.remote)
                 && (if stored && !Unwelcome(w.remote.kb, r) then Holds(sent.world.remote.kb, r)
                     else sent.world.remote.kb.log == w.remote.kb.log)
  {
    DeliverEffect(w.remote.kb, r);
    hide Deliver, Valid, Unwelcome;
  }

  // ---- refusals over a whole push ----

  ghost predicate DeniedIn(network: Network, t: nat, end: nat) {
    exists u :: t <= u < end && network(u).outcome == Denied
  }

  /** From `w` to `w'` only what the global KB finds unwelcome was refused, unless a request was denied. */
  ghost predicate RefusedFairly(w: World, w': World, denied: bool) {
    && w'.local == w.local && w.remote.kb.log <= w'.remote.kb.log
    && forall r | r in w.local.log && r.id in w'.refused && r.id !in w.refused ::
         denied || Unwelcome(w'.remote.kb, r)
  }

  lemma UnwelcomeStays(a: Kb, b: Kb, r: Record)
    requires Unwelcome(a, r) && a.log <= b.log
    ensures Unwelcome(b, r)
  {
    if r.complete && r.id != "" {
      var x :| x in a.log && x.id == r.id && x != r;
      assert x in b.log;
    }
  }

  lemma FairlyBoth(a: World, b: World, c: World, x: bool, y: bool)
    requires RefusedFairly(a, b, x) && RefusedFairly(b, c, y)
    ensures RefusedFairly(a, c, x || y)
  {
    forall r | r in a.local.log && r.id in c.refused && r.id !in a.refused ensures x || y || Unwelcome(c.remote.kb, r) {
      if r.id in b.refused && !x { UnwelcomeStays(b.remote.kb, c.remote.kb, r); }
    }
  }

  lemma SendIsFair(w: World, r: Record, reply: Reply)
    requires Valid(w.remote.kb) && Valid(w.local) && r in w.local.log
    ensures RefusedFairly(w, Send(w, r, reply).world, reply.outcome == Denied)
    ensures Valid(Send(w, r, reply).world.remote.kb)
  {
    SendEffect(w, r, reply);
    DeliverEffect(w.remote.kb, r);
    SameStays(w.local, r);
    hide Valid, Deliver, Unwelcome;
  }

  lemma TickIsFair(w: World, reply: Reply)
    requires Pushing(w) && Valid(w.remote.kb)
    ensures RefusedFairly(w, Tick(w, reply), reply.outcome == Denied) && Valid(Tick(w, reply).remote.kb)
  {
    hide Valid, Send, Pushable, RecordsAfter;
    match w.batch
    case Retrying(waiting) =>
      if waiting != [] {
        assert waiting[0] in waiting;
        SendIsFair(w, Find(w.local.log, waiting[0]).value, reply);
      }
    case Walking(rows, position, more) =>
      if rows != [] {
        WalkTail(w.local.log, position, |rows|);
        SendIsFair(w, rows[0].record, reply);
      }
  }

  lemma {:induction false} BatchIsFair(w: World, network: Network, t: nat)
    requires Pushing(w) && Valid(w.remote.kb)
    ensures var run := RunBatch(w, network, t);
            t < run.time && RefusedFairly(w, run.world, DeniedIn(network, t, run.time)) && Valid(run.world.remote.kb)
    decreases Work(w.batch)
  {
    hide Tick, Valid, PushInv, Settled, Unwelcome;
    var w' := Tick(w, network(t));
    TickWorks(w, network(t));
    PushTickSettles(w, network(t));
    TickIsFair(w, network(t));
    if w'.batch != Idle {
      BatchIsFair(w', network, t + 1);
      var run := RunBatch(w', network, t + 1);
      FairlyBoth(w, w', run.world, network(t).outcome == Denied, DeniedIn(network, t + 1, run.time));
      DeniedLater(network, t, run.time);
    } else {
      DeniedLater(network, t, t + 1);
    }
  }

  lemma DeniedLater(network: Network, t: nat, end: nat)
    requires t < end
    ensures DeniedIn(network, t, end) <==> network(t).outcome == Denied || DeniedIn(network, t + 1, end)
  {
  }

  lemma DeniedSplits(network: Network, a: nat, b: nat, c: nat)
    requires a <= b <= c
    ensures DeniedIn(network, a, c) <==> DeniedIn(network, a, b) || DeniedIn(network, b, c)
  {
  }

  /** Over a whole push, whatever the network does, a record is refused only when a request was denied or the global KB
    * finds it unwelcome. */
  lemma {:induction false} PushIsFair(w: World, network: Network, t: nat)
    requires PushInv(w) && w.batch == Idle && Valid(w.remote.kb)
    ensures var run := PushAll(w, network, t);
            t < run.time && RefusedFairly(w, run.world, DeniedIn(network, t, run.time)) && Valid(run.world.remote.kb)
    decreases |w.local.log| - w.ledger.push
  {
    hide PushInv, Valid, RunBatch, Unwelcome;
    var begun := BeginPush(w, network(t));
    if begun.batch != Idle {
      BegunIsPushing(w, network(t));
      PushBatchRuns(begun, network, t + 1);
      BatchIsFair(begun, network, t + 1);
      var run := RunBatch(begun, network, t + 1);
      DeniedSplits(network, t, t + 1, run.time);
      FairlyBoth(w, begun, run.world, false, DeniedIn(network, t, run.time));
      if run.report == Completed(true) {
        PushGoesOn(run.world, w.local.log);
        PushIsFair(run.world, network, run.time);
        var end := PushAll(run.world, network, run.time);
        DeniedSplits(network, t, run.time, end.time);
        FairlyBoth(w, run.world, end.world, DeniedIn(network, t, run.time), DeniedIn(network, run.time, end.time));
      }
    }
  }

  // ---- over a network that answers ----

  ghost predicate Answering(network: Network, t: nat) {
    forall u | u >= t :: network(u).outcome == Answered
  }

  lemma AnsweredTickGoesOn(w: World, reply: Reply)
    requires Pushing(w) && reply.outcome == Answered
    ensures Tick(w, reply).batch != Idle || (w.batch.Walking? && w.batch.rows == [])
    ensures Tick(w, reply).remote.identity == w.remote.identity
  {
    hide Valid, Send, Pushable, RecordsAfter;
    match w.batch
    case Retrying(waiting) =>
      if waiting != [] {
        assert waiting[0] in waiting;
        var r := Find(w.local.log, waiting[0]).value;
        SendCovers(w, r, reply);
        SendKeepsRemote(w, r, reply);
      }
    case Walking(rows, position, more) =>
      if rows != [] {
        SendCovers(w, rows[0].record, reply);
        SendKeepsRemote(w, rows[0].record, reply);
      }
  }

  lemma SendKeepsRemote(w: World, r: Record, reply: Reply)
    ensures Send(w, r, reply).world.remote.identity == w.remote.identity
  {
    hide Deliver;
  }

  lemma {:induction false} AnsweredBatchCompletes(w: World, network: Network, t: nat)
    requires Pushing(w) && Answering(network, t)
    ensures var run := RunBatch(w, network, t);
            && run.report.Completed? && t <= run.time
            && run.world.remote.identity == w.remote.identity && run.world.ledger.identity == w.ledger.identity
    decreases Work(w.batch)
  {
    hide Tick, PushInv, Settled;
    var w' := Tick(w, network(t));
    TickWorks(w, network(t));
    PushTickSettles(w, network(t));
    AnsweredTickGoesOn(w, network(t));
    TickKeepsBinding(w, network(t));
    if w'.batch != Idle { AnsweredBatchCompletes(w', network, t + 1); }
  }

  lemma {:induction false} AnsweredPushCompletes(w: World, network: Network, t: nat)
    requires PushInv(w) && w.batch == Idle && !Foreign(w) && Answering(network, t)
    ensures PushAll(w, network, t).report == Completed(false)
    decreases |w.local.log| - w.ledger.push
  {
    hide PushInv, RunBatch, BeginPush;
    var begun := BeginPush(w, network(t));
    BegunIsNext(w, network(t));
    BeginsIff(w, "", network(t));
    BegunIsPushing(w, network(t));
    PushBatchRuns(begun, network, t + 1);
    AnsweredBatchCompletes(begun, network, t + 1);
    var run := RunBatch(begun, network, t + 1);
    if run.report == Completed(true) {
      PushGoesOn(run.world, w.local.log);
      AnsweredPushCompletes(run.world, network, run.time);
    }
  }

  /** Delivery: over a network that answers, a push completes, and every record here that may be pushed and was not
    * pulled is then held by the global KB, unless that finds it unwelcome or an earlier push was refused it. */
  lemma PushDelivers(w: World, network: Network, t: nat)
    requires Inv(w) && w.batch == Idle && !Foreign(w) && Answering(network, t)
    ensures var run := PushAll(w, network, t);
            && run.report == Completed(false) && Inv(run.world) && run.world.local == w.local
            && forall r | r in w.local.log && Pushable(w.local, r) && r.id !in run.world.ledger.pulled ::
                 r in run.world.remote.kb.log || Unwelcome(run.world.remote.kb, r) || r.id in w.refused
  {
    assert Valid(w.remote.kb) by { hide PushInv, Valid; }
    hide PushInv, PullInv, Valid, PushAll, Pushable, Unwelcome;
    AnsweredPushCompletes(w, network, t);
    PushConverges(w, network, t);
    PushIsFair(w, network, t);
    assert !DeniedIn(network, t, PushAll(w, network, t).time);
  }

  // ---- a push that is stopped ----

  /** A push stopped at a record has saved how far it came: all before that record is done with, and the next push
    * starts with it. */
  lemma StoppedPushKeepsProgress(w: World, rows: seq<Row>, position: nat, more: bool, reply: Reply)
    requires PushInv(w) && w.batch == Walking(rows, position, more) && rows != []
    requires rows[0].record.id !in w.ledger.pulled && Pushable(w.local, rows[0].record) && reply.outcome.Dropped?
    ensures var stopped := Tick(w, reply);
            && stopped.batch == Idle && stopped.ledger == w.ledger.(push := position) && stopped.local == w.local
            && Covered(stopped, position) && stopped.refused == w.refused && stopped.acked == w.acked
            && position < |w.local.log| && w.local.log[position] == rows[0].record
            && RecordsAfter(stopped.local.log, None, position, SYNC_BATCH).rows != []
            && RecordsAfter(stopped.local.log, None, position, SYNC_BATCH).rows[0] == rows[0]
  {
    WalkTail(w.local.log, position, |rows|);
    AllRows(w.local.log, position, |w.local.log|);
    hide Valid, Pushable, Deliver, Rows;
  }
}
