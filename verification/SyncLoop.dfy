/** Whole batches and the client's loop over them, with both KBs otherwise quiet: each batch ends, the loop ends, and
  * what a completed loop leaves behind.
  *
  * The network is a function from the number of steps taken so far to how the request made then ends.
  */
module SyncLoop {
  import opened Prelude
  import opened Log
  import opened KbState
  import opened Sync
  import opened PushSafety
  import opened PullSafety
  import opened PullSteps
  import opened PullTheorems

  type Network = nat -> Reply

  /** What one batch reports: whether it ran to its end, and if so whether more is left for another. */
  datatype Report = Completed(more: bool) | Incomplete

  datatype Run = Run(world: World, report: Report, time: nat)

  /** The report of a batch that the next tick ends. */
  function LastReport(w: World): Report {
    match w.batch
    case Walking(rows, position, more) => if rows == [] then Completed(more) else Incomplete
    case Pulling(p) => if p.phase == Marking && !p.failed then Completed(p.page.more) else Incomplete
    case _ => Incomplete
  }

  // ---- a batch ends ----

  /** How many ticks a batch may still take. */
  function Work(b: Batch): nat {
    match b
    case Idle => 0
    case Walking(rows, _, _) => 1 + |rows|
    case Retrying(waiting) => 2 + SYNC_BATCH + |waiting|
    case Pulling(p) => 10 - Rank(p.phase) + (if p.done <= |p.page.items| then |p.page.items| - p.done else 0)
    case Refetching(_, _) => 12 + SYNC_BATCH
    case Fetching(_) => 13 + SYNC_BATCH
  }

  lemma {:induction false} ShownRowsAreFewer(rows: seq<Row>, pulled: set<Id>, state: Digest)
    ensures |ShownRows(rows, pulled, state)| <= |rows|
  {
    if rows != [] { ShownRowsAreFewer(rows[1..], pulled, state); }
  }

  lemma ExportIsBounded(remote: Remote, schema: Schema, after: nat)
    ensures |ExportOf(remote, schema, after).items| <= SYNC_BATCH
  {
    var page := RecordsAfter(remote.kb.log, Some(schema), after, SYNC_BATCH);
    ShownRowsAreFewer(page.rows, remote.pulled, HiddenDigest(remote.kb, schema));
  }

  /** Every tick of a batch brings it closer to its end, whatever the network does. */
  lemma TickWorks(w: World, reply: Reply)
    requires w.batch != Idle
    ensures Work(Tick(w, reply).batch) < Work(w.batch)
  {
    hide Send, Write, SaveIfModified, Pushable, BringIn, PullOne;
    match w.batch
    case Fetching(schema) => ExportIsBounded(w.remote, schema, PullCursor(w.ledger, schema).position);
    case Refetching(schema, _) => ExportIsBounded(w.remote, schema, 0);
    case Pulling(p) => PullTickWorks(w, p, reply);
    case _ =>
  }

  lemma PullTickWorks(w: World, p: Pull, reply: Reply)
    requires w.batch == Pulling(p)
    ensures Work(PullOne(w, p, reply).batch) < Work(w.batch)
  {
    hide Write, SaveIfModified, BringIn;
  }

  function RunBatch(w: World, network: Network, t: nat): Run
    requires w.batch != Idle
    decreases Work(w.batch)
  {
    TickWorks(w, network(t));
    var w' := Tick(w, network(t));
    if w'.batch == Idle then Run(w', LastReport(w), t + 1) else RunBatch(w', network, t + 1)
  }

  // ---- a push batch ----

  ghost predicate Unpushable(kb: Kb, id: Id) {
    Find(kb.log, id).Some? && !Pushable(kb, Find(kb.log, id).value)
  }

  /** Of what is held back, all that a push in progress is done with may still not be pushed. */
  ghost predicate Settled(w: World) {
    forall id | id in w.ledger.heldBack :: Unpushable(w.local, id) || (w.batch.Retrying? && id in w.batch.waiting)
  }

  ghost predicate Pushing(w: World) {
    PushInv(w) && Settled(w) && (w.batch.Retrying? || w.batch.Walking?)
  }

  /** Where the push cursor will stand if the batch completes. */
  ghost function Goal(w: World): nat
    requires w.batch.Walking?
  {
    w.batch.position + |w.batch.rows|
  }

  lemma PushTickSettles(w: World, reply: Reply)
    requires Pushing(w)
    ensures var w' := Tick(w, reply);
            && PushInv(w') && w'.local == w.local
            && (w'.batch == Idle || w'.batch.Retrying? || w'.batch.Walking?)
            && (w'.batch != Idle || w.batch.Walking? ==> Settled(w'))
            && (w'.batch.Retrying? ==> w.batch.Retrying?)
  {
    TickKeepsPushInv(w, reply);
    match w.batch
    case Retrying(waiting) => if waiting != [] { RetrySettles(w, reply); }
    case Walking(rows, position, more) => if rows != [] { WalkSettles(w, reply); }
  }

  lemma RetrySettles(w: World, reply: Reply)
    requires Pushing(w) && w.batch.Retrying? && w.batch.waiting != []
    ensures var w' := Tick(w, reply);
            && w'.local == w.local && (w'.batch == Idle || w'.batch.Retrying?)
            && (w'.batch.Retrying? ==> Settled(w'))
  {
    var waiting := w.batch.waiting;
    assert WaitingOk(w, waiting) && waiting[0] in waiting;
    hide Valid, Send, Pushable, PushInv;
    var r := Find(w.local.log, waiting[0]).value;
    SendCovers(w, r, reply);
    assert forall id | id in waiting :: id == waiting[0] || id in waiting[1..];
  }

  lemma WalkSettles(w: World, reply: Reply)
    requires Pushing(w) && w.batch.Walking? && w.batch.rows != []
    ensures var w' := Tick(w, reply);
            Settled(w') && w'.local == w.local && (w'.batch == Idle || w'.batch.Walking?)
  {
    var rows, position := w.batch.rows, w.batch.position;
    var r := rows[0].record;
    WalkTail(w.local.log, position, |rows|);
    assert r in w.local.log && r.id in Ids(w.local.log);
    SameIdSameRecord(w.local.log, r, Find(w.local.log, r.id).value);
    hide Valid, Send, Pushable, PushInv;
    SendCovers(w, r, reply);
  }

  /** A walk that is not cut short reaches the last of its records and reports what its page reported. */
  lemma {:induction false} WalkRuns(w: World, network: Network, t: nat)
    requires Pushing(w) && w.batch.Walking?
    ensures var run := RunBatch(w, network, t);
            && run.world.batch == Idle && PushInv(run.world) && Settled(run.world) && run.world.local == w.local
            && (run.report.Completed? ==> run.report.more == w.batch.more && run.world.ledger.push == Goal(w))
    decreases Work(w.batch)
  {
    var w' := Tick(w, network(t));
    TickWorks(w, network(t));
    PushTickSettles(w, network(t));
    if w'.batch != Idle {
      WalkGoal(w, network(t));
      WalkRuns(w', network, t + 1);
    }
  }

  lemma WalkGoal(w: World, reply: Reply)
    requires Pushing(w) && w.batch.Walking? && Tick(w, reply).batch != Idle
    ensures var w' := Tick(w, reply); w'.batch.Walking? && w'.batch.more == w.batch.more && Goal(w') == Goal(w)
  {
    var rows, position := w.batch.rows, w.batch.position;
    assert rows != [] && rows[0].position == position + 1 by { WalkTail(w.local.log, position, |rows|); }
    hide Valid, Send, Pushable, PushInv, Rows, Pushing;
    SendCovers(w, rows[0].record, reply);
  }

  /** A completed push batch moved the cursor to the end of its page: on, if it reports more, and to the end of the log
    * if it reports none; what it leaves held back may not be pushed. */
  lemma {:induction false} PushBatchRuns(w: World, network: Network, t: nat)
    requires Pushing(w) && w.batch.Retrying?
    ensures var run := RunBatch(w, network, t);
            && run.world.batch == Idle && PushInv(run.world) && run.world.local == w.local
            && (run.report.Completed? ==> Settled(run.world))
            && (run.report == Completed(true) ==> w.ledger.push < run.world.ledger.push)
            && (run.report == Completed(false) ==> run.world.ledger.push == |w.local.log|)
    decreases Work(w.batch)
  {
    var w' := Tick(w, network(t));
    TickWorks(w, network(t));
    PushTickSettles(w, network(t));
    if w'.batch.Walking? {
      WalkStarts(w, network(t));
      WalkRuns(w', network, t + 1);
    } else if w'.batch.Retrying? {
      RetryLeavesCursor(w, network(t));
      PushBatchRuns(w', network, t + 1);
    }
  }

  lemma RetryLeavesCursor(w: World, reply: Reply)
    requires w.batch.Retrying? && Tick(w, reply).batch.Retrying?
    ensures Tick(w, reply).ledger.push == w.ledger.push
  {
    hide Send, Pushable;
    var waiting := w.batch.waiting;
    if waiting != [] && Find(w.local.log, waiting[0]).Some? {
      SendCovers(w, Find(w.local.log, waiting[0]).value, reply);
    }
  }

  lemma WalkStarts(w: World, reply: Reply)
    requires Pushing(w) && w.batch.Retrying? && Tick(w, reply).batch.Walking?
    ensures var w' := Tick(w, reply);
            && (w'.batch.more ==> w.ledger.push < Goal(w'))
            && (!w'.batch.more ==> Goal(w') == |w.local.log|)
  {
    var log, push := w.local.log, w.ledger.push;
    assert w.batch.waiting == [] by { hide Send, Pushable; }
    hide Valid;
    PageIsRange(log, None, push, SYNC_BATCH);
    var page := RecordsAfter(log, None, push, SYNC_BATCH);
    AllRows(log, push, page.next);
    AllRows(log, page.next, |log|);
  }

  // ---- the client's push loop ----

  /** Batches until one is not completed or has nothing left. */
  ghost function PushAll(w: World, network: Network, t: nat): Run
    requires PushInv(w) && w.batch == Idle
    decreases |w.local.log| - w.ledger.push
  {
    var begun := BeginPush(w, network(t));
    if begun.batch == Idle then Run(begun, Incomplete, t + 1)
    else
      BegunIsPushing(w, network(t));
      PushBatchRuns(begun, network, t + 1);
      var run := RunBatch(begun, network, t + 1);
      if run.report == Completed(true) then PushAll(run.world, network, run.time) else run
  }

  lemma BegunIsPushing(w: World, reply: Reply)
    requires PushInv(w) && w.batch == Idle && BeginPush(w, reply).batch != Idle
    ensures Pushing(BeginPush(w, reply)) && BeginPush(w, reply).batch.Retrying?
  {
    StartKeepsPushInv(w, reply);
    hide Valid;
  }

  /** Whichever KB answers, the loop ends, and when it ends completed every record here that may be pushed and was not
    * pulled has been accepted or refused; the rest was pulled or is held back and may not be pushed. */
  lemma {:induction false} PushSettles(w: World, network: Network, t: nat)
    requires PushInv(w) && w.batch == Idle
    ensures var run := PushAll(w, network, t);
            && run.world.batch == Idle && PushInv(run.world) && run.world.local == w.local
            && (run.report == Completed(false) ==>
                  forall r | r in w.local.log && Pushable(w.local, r) && r.id !in run.world.ledger.pulled ::
                    r.id in run.world.acked || r.id in run.world.refused)
    decreases |w.local.log| - w.ledger.push
  {
    var begun := BeginPush(w, network(t));
    if begun.batch == Idle {
      StartKeepsPushInv(w, network(t));
    } else {
      BegunIsPushing(w, network(t));
      PushBatchRuns(begun, network, t + 1);
      var run := RunBatch(begun, network, t + 1);
      if run.report == Completed(true) {
        PushSettles(run.world, network, run.time);
      } else if run.report == Completed(false) {
        CoveredToTheEnd(run.world);
      }
    }
  }

  lemma CoveredToTheEnd(w: World)
    requires PushInv(w) && Settled(w) && w.batch == Idle && w.ledger.push == |w.local.log|
    ensures forall r | r in w.local.log && Pushable(w.local, r) && r.id !in w.ledger.pulled ::
            r.id in w.acked || r.id in w.refused
  {
    forall r | r in w.local.log && Pushable(w.local, r) && r.id !in w.ledger.pulled
      ensures r.id in w.acked || r.id in w.refused {
      var i :| 0 <= i < |w.local.log| && w.local.log[i] == r;
      assert CoveredId(w, w.local.log[i].id);
      if r.id in w.ledger.heldBack {
        SameIdSameRecord(w.local.log, r, Find(w.local.log, r.id).value);
      }
    }
  }

  // ---- what a push offers ----

  /** Between `w` and `w'` the ids in `more` were sent, among them each that the global KB accepted or refused since. */
  ghost predicate Offers(w: World, w': World, more: seq<Id>) {
    && w'.sent == w.sent + more
    && forall id | id in w'.acked + w'.refused :: id in w.acked + w.refused || id in more
  }

  lemma OffersBoth(a: World, b: World, c: World, x: seq<Id>, y: seq<Id>)
    requires Offers(a, b, x) && Offers(b, c, y)
    ensures Offers(a, c, x + y)
  {
    assert a.sent + (x + y) == a.sent + x + y;
  }

  lemma SendOffers(w: World, r: Record, reply: Reply)
    ensures Offers(w, Send(w, r, reply).world, [r.id])
  {
    hide Deliver;
  }

  lemma TickOffers(w: World, reply: Reply) returns (more: seq<Id>)
    ensures Offers(w, Tick(w, reply), more)
  {
    hide Send, Pushable, RecordsAfter, PullOne, ExportOf;
    assert w.sent + [] == w.sent;
    more := [];
    match w.batch
    case Retrying(waiting) =>
      if waiting != [] && Find(w.local.log, waiting[0]).Some? {
        var r := Find(w.local.log, waiting[0]).value;
        SendOffers(w, r, reply);
        if Pushable(w.local, r) { more := [r.id]; }
      }
    case Walking(rows, position, _) =>
      if rows != [] {
        var r := rows[0].record;
        SendOffers(w, r, reply);
        if r.id !in w.ledger.pulled && Pushable(w.local, r) { more := [r.id]; }
      }
    case Pulling(p) => PullOffersNothing(w, p, reply);
    case _ =>
  }

  lemma PullOffersNothing(w: World, p: Pull, reply: Reply)
    ensures var w' := PullOne(w, p, reply); w'.sent == w.sent && w'.acked <= w.acked && w'.refused <= w.refused
  {
    hide Write, SaveIfModified, BringIn, Register, PutFiles;
  }

  lemma StepOffers(w: World, step: Step) returns (more: seq<Id>)
    ensures Offers(w, Next(w, step), more)
  {
    hide Tick;
    if step.TickStep? {
      more := TickOffers(w, step.reply);
    } else {
      more := [];
      assert w.sent + [] == w.sent;
    }
  }

  /** Over any run, what the global KB accepted or refused since was sent since. */
  lemma {:induction false} RunOffers(w: World, steps: seq<Step>) returns (more: seq<Id>)
    ensures Offers(w, Exec(w, steps), more)
    decreases |steps|
  {
    hide Next, Offers;
    if steps == [] {
      more := [];
      assert Offers(w, w, []) by { OffersNothing(w); }
    } else {
      var mid := Next(w, steps[0]);
      more := StepOffers(w, steps[0]);
      var rest := RunOffers(mid, steps[1..]);
      OffersBoth(w, mid, Exec(w, steps), more, rest);
      more := more + rest;
    }
  }

  lemma OffersNothing(w: World)
    ensures Offers(w, w, [])
  {
    assert w.sent + [] == w.sent;
  }

  lemma {:induction false} BatchOffers(w: World, network: Network, t: nat) returns (more: seq<Id>)
    requires Pushing(w)
    ensures Offers(w, RunBatch(w, network, t).world, more)
    decreases Work(w.batch)
  {
    var w' := Tick(w, network(t));
    TickWorks(w, network(t));
    PushTickSettles(w, network(t));
    more := TickOffers(w, network(t));
    if w'.batch != Idle {
      hide Pushing, PushInv, Settled, Tick;
      var rest := BatchOffers(w', network, t + 1);
      OffersBoth(w, w', RunBatch(w', network, t + 1).world, more, rest);
      more := more + rest;
    }
  }

  lemma {:induction false} PushOffers(w: World, network: Network, t: nat) returns (more: seq<Id>)
    requires PushInv(w) && w.batch == Idle
    ensures Offers(w, PushAll(w, network, t).world, more)
    decreases |w.local.log| - w.ledger.push
  {
    hide PushInv, RunBatch;
    var begun := BeginPush(w, network(t));
    assert Offers(w, begun, []) by { assert w.sent + [] == w.sent; }
    if begun.batch == Idle {
      more := [];
    } else {
      BegunIsPushing(w, network(t));
      PushBatchRuns(begun, network, t + 1);
      var run := RunBatch(begun, network, t + 1);
      more := BatchOffers(begun, network, t + 1);
      OffersBoth(w, begun, run.world, [], more);
      assert [] + more == more;
      if run.report == Completed(true) {
        PushGoesOn(run.world, w.local.log);
        var rest := PushOffers(run.world, network, run.time);
        OffersBoth(w, run.world, PushAll(run.world, network, run.time).world, more, rest);
        more := more + rest;
      }
    }
  }

  lemma PushGoesOn(w: World, log: seq<Record>)
    requires PushInv(w) && w.local.log == log
    ensures w.ledger.push <= |log|
  {
  }

  /** After the push cursor was reset, whatever runs next, a push that completes leaves every record here that may be
    * pushed and was not pulled among those offered to the global KB since. */
  lemma ResetOffersAll(w: World, steps: seq<Step>, network: Network, t: nat) returns (more: seq<Id>)
    requires PushInv(w) && w.acked == {} && w.refused == {} && Exec(w, steps).batch == Idle
    ensures PushInv(Exec(w, steps))
    ensures var end := Exec(w, steps);
            var run := PushAll(end, network, t);
            && run.world.sent == w.sent + more
            && (run.report == Completed(false) ==>
                  forall r | r in end.local.log && Pushable(end.local, r) && r.id !in run.world.ledger.pulled ::
                    r.id in more)
  {
    hide PushInv, Pushable, PushAll, Exec;
    RunKeepsPushInv(w, steps);
    var end := Exec(w, steps);
    var before := RunOffers(w, steps);
    PushSettles(end, network, t);
    var last := PushOffers(end, network, t);
    OffersBoth(w, end, PushAll(end, network, t).world, before, last);
    more := before + last;
  }

  /** So after a lost pull cursor: however often the pushes that follow are cut off, the one that completes has offered
    * the global KB every such record again. */
  lemma LostCursorOffersAll(w: World, schema: Schema, a: Reply, b: Reply, c: Reply, steps: seq<Step>, network: Network,
                            t: nat)
      returns (more: seq<Id>)
    requires PushInv(w) && w.batch == Fetching(schema) && schema in w.remote.kb.schemas &&
             a.outcome == b.outcome == Answered
    requires PullCursor(w.ledger, schema).position != 0
    requires PullCursor(w.ledger, schema).anchor != WrittenAt(w.remote.kb.log, PullCursor(w.ledger, schema).position)
    requires Exec(Tick(Tick(Tick(w, a), b), c), steps).batch == Idle
    ensures var end := Exec(Tick(Tick(Tick(w, a), b), c), steps);
            && PushInv(end)
            && (var run := PushAll(end, network, t);
                && run.world.sent == Tick(Tick(Tick(w, a), b), c).sent + more
                && (run.report == Completed(false) ==>
                      forall r | r in end.local.log && Pushable(end.local, r) && r.id !in run.world.ledger.pulled ::
                        r.id in more))
  {
    hide PushInv, Pushable, PushAll, Exec, Tick;
    LostCursorStartsOver(w, schema, a, b, c);
    TickKeepsPushInv(w, a);
    TickKeepsPushInv(Tick(w, a), b);
    TickKeepsPushInv(Tick(Tick(w, a), b), c);
    more := ResetOffersAll(Tick(Tick(Tick(w, a), b), c), steps, network, t);
  }

  /** What was accepted since the push cursor last stood at 0 is stored on a global KB that only adds to its log. */
  lemma AcceptedIsThere(w: World, r: Record)
    requires Inv(w) && r in w.local.log && r.id in w.acked
    ensures r in w.remote.kb.log
  {
    assert r.id in OnGlobal(w.ledger, r.schema) && Shared(w, r.schema, r.id);
    var x :| x in w.local.log && x in w.remote.kb.log && x.id == r.id && x.schema == r.schema;
    SameIdSameRecord(w.local.log, x, r);
  }

  /** A push batch keeps the pull side whole too. */
  lemma {:induction false} PushBatchKeepsInv(w: World, network: Network, t: nat)
    requires Inv(w) && Pushing(w)
    ensures Inv(RunBatch(w, network, t).world)
    decreases Work(w.batch)
  {
    hide PushInv, PullInv, Settled, Tick;
    var w' := Tick(w, network(t));
    TickWorks(w, network(t));
    PushTickSettles(w, network(t));
    StepKeepsInv(w, TickStep(network(t)));
    TickedIsNext(w, network(t));
    if w'.batch != Idle { PushBatchKeepsInv(w', network, t + 1); }
  }

  lemma TickedIsNext(w: World, reply: Reply)
    ensures Next(w, TickStep(reply)) == Tick(w, reply)
  {
    hide Tick;
  }

  /** Push convergence: the loop ends, keeps all that runs keep, and when it ends completed every record here that may
    * be pushed and was not pulled is stored on the global KB, or was refused by it. */
  lemma {:induction false} PushConverges(w: World, network: Network, t: nat)
    requires Inv(w) && w.batch == Idle
    ensures var run := PushAll(w, network, t);
            && run.world.batch == Idle && Inv(run.world) && run.world.local == w.local
            && (run.report == Completed(false) ==>
                  forall r | r in w.local.log && Pushable(w.local, r) && r.id !in run.world.ledger.pulled ::
                    r in run.world.remote.kb.log || r.id in run.world.refused)
  {
    hide PushInv, PullInv, Pushable, PushAll;
    PushSettles(w, network, t);
    PushKeepsInv(w, network, t);
    var run := PushAll(w, network, t);
    forall r | r in w.local.log && r.id in run.world.acked ensures r in run.world.remote.kb.log {
      AcceptedIsThere(run.world, r);
    }
  }

  lemma {:induction false} PushKeepsInv(w: World, network: Network, t: nat)
    requires Inv(w) && w.batch == Idle
    ensures Inv(PushAll(w, network, t).world)
    decreases |w.local.log| - w.ledger.push
  {
    hide PushInv, PullInv, RunBatch, BeginPush;
    var begun := BeginPush(w, network(t));
    StepKeepsInv(w, StartPush(network(t)));
    BegunIsNext(w, network(t));
    if begun.batch != Idle {
      BegunIsPushing(w, network(t));
      PushBatchRuns(begun, network, t + 1);
      PushBatchKeepsInv(begun, network, t + 1);
      var run := RunBatch(begun, network, t + 1);
      if run.report == Completed(true) {
        PushGoesOn(run.world, w.local.log);
        PushKeepsInv(run.world, network, run.time);
      }
    }
  }

  lemma BegunIsNext(w: World, reply: Reply)
    ensures Next(w, StartPush(reply)) == BeginPush(w, reply)
    ensures BeginPush(w, reply).local == w.local && BeginPush(w, reply).ledger.push == w.ledger.push
  {
  }

  // ---- a pull batch ----

  ghost predicate PullOf(w: World, schema: Schema) {
    match w.batch
    case Fetching(s) => s == schema
    case Refetching(s, _) => s == schema
    case Pulling(p) => p.schema == schema && p.source == w.remote
    case _ => false
  }

  /** No local restore came since the pull began, or the batch at hand begins it. */
  ghost predicate Undisturbed(w: World, schema: Schema) {
    schema in w.disturbed ==>
      schema !in w.ledger.inProgress && (w.batch.Pulling? ==> Rank(w.batch.pull.phase) <= Rank(BringingBack))
  }

  lemma PullTickQuiet(w: World, schema: Schema, reply: Reply)
    requires Inv(w) && PullOf(w, schema)
    ensures var w' := Tick(w, reply);
            && Inv(w') && w'.remote == w.remote && (w'.batch == Idle || PullOf(w', schema))
            && (w'.batch != Idle && Undisturbed(w, schema) ==> Undisturbed(w', schema))
            && (w.batch.Pulling? && w'.batch != Idle ==>
                  w'.batch.Pulling? && w'.batch.pull.page == w.batch.pull.page &&
                    w'.batch.pull.start == w.batch.pull.start)
  {
    hide Inv, StopIsHarmless, ExportOf, PullOne, RetryOne, WalkOne;
    StepKeepsInv(w, TickStep(reply));
    if w.batch.Pulling? { PullOneQuiet(w, w.batch.pull, reply); }
  }

  /** What the transactions of a pull leave as they were. */
  ghost predicate SamePull(w: World, p: Pull, w': World) {
    && w'.remote == w.remote
    && (w'.batch == Idle ||
        (w'.batch.Pulling? && w'.batch.pull.schema == p.schema && w'.batch.pull.source == p.source
         && w'.batch.pull.page == p.page && w'.batch.pull.start == p.start))
    && (w'.batch != Idle && Undisturbed(w, p.schema) ==> Undisturbed(w', p.schema))
  }

  lemma PullOneQuiet(w: World, p: Pull, reply: Reply)
    requires w.batch == Pulling(p)
    ensures SamePull(w, p, PullOne(w, p, reply))
  {
    hide SaveIfModified, BringIn, Register, ReceiveOne;
    if p.phase == Receiving && p.done < |p.page.items| { ReceiveOneQuiet(w, p, reply); }
  }

  lemma ReceiveOneQuiet(w: World, p: Pull, reply: Reply)
    requires w.batch == Pulling(p) && p.phase == Receiving && p.done < |p.page.items|
    ensures SamePull(w, p, ReceiveOne(w, p, reply))
  {
    hide Write, PutFiles;
  }

  /** A completed batch leaves the cursor at the end of its page and the state it was shown under; and if its page was
    * the last, everything the global KB exports is here. */
  lemma {:induction false} PullingRuns(w: World, schema: Schema, network: Network, t: nat)
    requires Inv(w) && PullOf(w, schema) && w.batch.Pulling?
    ensures var run := RunBatch(w, network, t);
            && run.world.batch == Idle && Inv(run.world) && run.world.remote == w.remote
            && (run.report.Completed? ==>
                  && run.report.more == w.batch.pull.page.more
                  && PullCursor(run.world.ledger, schema).position == w.batch.pull.page.next
                  && schema in run.world.ledger.remembered
                  && run.world.ledger.remembered[schema] == w.batch.pull.page.state
                  && (run.report.more ==> schema in run.world.ledger.inProgress)
                  && (Undisturbed(w, schema) ==> schema !in run.world.disturbed)
                  && (!run.report.more && Undisturbed(w, schema) ==> Brought(run.world, w.remote, schema)))
    decreases Work(w.batch)
  {
    var w' := Tick(w, network(t));
    TickWorks(w, network(t));
    PullTickQuiet(w, schema, network(t));
    if w'.batch != Idle {
      PullingRuns(w', schema, network, t + 1);
    } else if LastReport(w).Completed? {
      MarkingEnds(w, network(t));
    }
  }

  lemma MarkingEnds(w: World, reply: Reply)
    requires Inv(w) && w.batch.Pulling? && w.batch.pull.phase == Marking && !w.batch.pull.failed
    requires w.batch.pull.source == w.remote
    ensures var p, w' := w.batch.pull, Tick(w, reply);
            && PullCursor(w'.ledger, p.schema).position == p.page.next
            && p.schema in w'.ledger.remembered && w'.ledger.remembered[p.schema] == p.page.state
            && (p.page.more ==> p.schema in w'.ledger.inProgress)
            && (Undisturbed(w, p.schema) ==> p.schema !in w'.disturbed)
            && (!p.page.more && Undisturbed(w, p.schema) ==> Brought(w', w.remote, p.schema))
  {
    var p := w.batch.pull;
    assert PhaseOk(w, p) by { hide Valid, PushInv, LedgersOk, PageOk, ProgressOk; }
    hide Inv, Members, HiddenDigest, FetchOk, LedgersOk, RetryOne, WalkOne, ReceiveOne;
    if !p.page.more && Undisturbed(w, p.schema) { FinishedPullIsComplete(w, p); }
  }

  /** Whether the next batch pages the schema from its start. */
  ghost predicate StartsOver(w: World, schema: Schema) {
    PullCursor(w.ledger, schema).position != 0
    && (schema !in w.ledger.remembered || w.ledger.remembered[schema] != HiddenDigest(w.remote.kb, schema))
  }

  ghost predicate Advanced(w: World, run: Run, schema: Schema) {
    && !StartsOver(run.world, schema)
    && (StartsOver(w, schema) || PullCursor(w.ledger, schema).position < PullCursor(run.world.ledger, schema).position)
    && PullCursor(run.world.ledger, schema).position <= |run.world.remote.kb.log|
  }

  lemma PullBatchRuns(w: World, schema: Schema, network: Network, t: nat)
    requires Inv(w) && w.batch == Fetching(schema)
    ensures var run := RunBatch(w, network, t);
            && run.world.batch == Idle && Inv(run.world) && run.world.remote == w.remote
            && (run.report == Completed(true) ==> Advanced(w, run, schema))
            && (run.report == Completed(true) && Undisturbed(w, schema) ==> Undisturbed(run.world, schema))
            && (run.report == Completed(false) && Undisturbed(w, schema) ==> Brought(run.world, w.remote, schema))
  {
    var w1 := Tick(w, network(t));
    PullTickQuiet(w, schema, network(t));
    FetchOpens(w, schema, network(t));
    if w1.batch.Pulling? {
      PullingRuns(w1, schema, network, t + 1);
      PageMoves(w1);
    } else if w1.batch != Idle {
      var w2 := Tick(w1, network(t + 1));
      PullTickQuiet(w1, schema, network(t + 1));
      RefetchOpens(w1, schema, network(t + 1));
      if w2.batch.Pulling? {
        PullingRuns(w2, schema, network, t + 2);
        PageMoves(w2);
      }
    }
  }

  lemma FetchOpens(w: World, schema: Schema, reply: Reply)
    requires Inv(w) && w.batch == Fetching(schema)
    ensures var w' := Tick(w, reply);
            && w'.ledger == w.ledger && w'.disturbed == w.disturbed && w'.remote == w.remote
            && (w'.batch == Idle || w'.batch.Refetching? || w'.batch.Pulling?)
            && (w'.batch.Pulling? ==> w'.batch.pull.start == PullCursor(w.ledger, schema))
            && (w'.batch.Refetching? ==> StartsOver(w, schema))
  {
    assert SchemaOk(w, schema);
    hide Inv, RecordsAfter, HiddenDigest, RememberedNow, CompleteUpTo;
  }

  lemma RefetchOpens(w: World, schema: Schema, reply: Reply)
    requires w.batch.Refetching? && w.batch.schema == schema
    ensures var w' := Tick(w, reply);
            && w'.ledger == w.ledger && w'.disturbed == w.disturbed
            && (w'.batch == Idle || w'.batch.Pulling?)
  {
    hide ExportOf;
  }

  /** The page just read shows the state of the global KB as it is and, if more follows it, ends past its start. */
  lemma PageMoves(w: World)
    requires Inv(w) && w.batch.Pulling? && w.batch.pull.source == w.remote
    ensures var p := w.batch.pull;
            && p.page.state == HiddenDigest(w.remote.kb, p.schema) && p.page.next <= |w.remote.kb.log|
            && (p.page.more ==> p.start.position < p.page.next)
  {
    var p := w.batch.pull;
    assert PageOk(w.remote, p);
    hide Inv, Grows, RemoteOk;
    PageIsRange(w.remote.kb.log, Some(p.schema), p.start.position, SYNC_BATCH);
  }

  // ---- the client's pull loop ----

  ghost function PullAll(w: World, schema: Schema, network: Network, t: nat): Run
    requires Inv(w) && w.batch == Idle
    decreases StartsOver(w, schema), |w.remote.kb.log| - PullCursor(w.ledger, schema).position
  {
    var begun := BeginPull(w, schema, network(t));
    if begun.batch == Idle then Run(begun, Incomplete, t + 1)
    else
      StepKeepsInv(w, StartPull(schema, network(t)));
      PullBatchRuns(begun, schema, network, t + 1);
      var run := RunBatch(begun, network, t + 1);
      if run.report == Completed(true) then PullAll(run.world, schema, network, run.time) else run
  }

  /** Pull convergence: the loop ends, paging the schema from its start at most once, and when it ends completed, and no
    * local restore came since the pull began, every record the global KB exports is stored here and a member of the
    * state, or was rejected. */
  lemma {:induction false} PullConverges(w: World, schema: Schema, network: Network, t: nat)
    requires Inv(w) && w.batch == Idle
    ensures var run := PullAll(w, schema, network, t);
            && run.world.batch == Idle && Inv(run.world) && run.world.remote == w.remote
            && (run.report == Completed(false) && Undisturbed(w, schema) ==> Brought(run.world, w.remote, schema))
    decreases StartsOver(w, schema), |w.remote.kb.log| - PullCursor(w.ledger, schema).position
  {
    var begun := BeginPull(w, schema, network(t));
    StepKeepsInv(w, StartPull(schema, network(t)));
    if begun.batch != Idle {
      PullBatchRuns(begun, schema, network, t + 1);
      var run := RunBatch(begun, network, t + 1);
      if run.report == Completed(true) { PullConverges(run.world, schema, network, run.time); }
    }
  }
}
