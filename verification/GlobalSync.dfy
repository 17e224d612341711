/** Push, pull and rebind as the service runs them, over the tables of its ledger: each batch is proved to take exactly
  * the steps the protocol takes, and the client's loop over batches to end where the protocol says it does.
  */
module GlobalSync {
  import opened Prelude
  import opened Log
  import opened KbState
  import opened Sync
  import opened PushSafety
  import opened PullSafety
  import opened PullSteps
  import opened PullTheorems
  import opened SyncLoop
  import opened ExperienceService
  import Ordering

  /** What one KB knows of the global KB at its URL. */
  class SyncLedger {
    var identity: string
    var push: nat
    var pull: map<Schema, Cursor>
    var pulled: set<Id>
    var heldBack: set<Id>
    var onGlobal: map<Schema, set<Id>>
    var remembered: map<Schema, Digest>
    var inProgress: set<Schema>

    ghost function View(): Ledger
      reads this
    {
      Ledger(identity, push, pull, pulled, heldBack, onGlobal, remembered, inProgress)
    }

    constructor ()
      ensures KnowsNothing(View()) && pulled == {}
    {
      identity, push, pull, pulled := "", 0, map[], {};
      heldBack, onGlobal, remembered, inProgress := {}, map[], map[], {};
    }

    method NotePresent(schema: Schema, ids: set<Id>)
      modifies `onGlobal
      ensures View() == NoteOnGlobal(old(View()), schema, ids)
    {
      var known := if schema in onGlobal then onGlobal[schema] else {};
      onGlobal := onGlobal[schema := known + ids];
    }

    method Drop()
      modifies this
      ensures View() == Forget(old(View()))
    {
      identity, push, pull, heldBack := "", 0, map[], {};
      onGlobal, remembered, inProgress := map[], map[], {};
    }
  }

  class Client {
    const service: Service
    const ledger: SyncLedger
    var remote: Remote
    var clock: nat
    ghost var sent: seq<Id>
    ghost var acked: set<Id>
    ghost var refused: set<Id>
    ghost var rejected: set<Id>
    ghost var disturbed: set<Schema>

    /** Before the first sync, with any KB here and any KB answering: where every run starts. */
    constructor (service: Service, ledger: SyncLedger, remote: Remote)
      requires service.Ok() && KnowsNothing(ledger.View()) && ledger.pulled <= Ids(service.log)
      ensures this.service == service && this.ledger == ledger && this.remote == remote && Initial(Here())
      ensures RemoteOk(remote) ==> Inv(Here())
    {
      this.service, this.ledger, this.remote, clock := service, ledger, remote, 0;
      sent, acked, refused, rejected, disturbed := [], {}, {}, {}, {};
      new;
      hide Valid, RemoteOk, Inv;
      if RemoteOk(remote) { InitialIsInv(Here()); }
    }

    /** Both KBs and the ledger between two batches. */
    ghost function Here(): World
      reads this, service, ledger
    {
      World(service.Db(), remote, ledger.View(), Idle, sent, acked, refused, rejected, disturbed)
    }

    /** The same with a batch in progress. */
    ghost function At(b: Batch): World
      reads this, service, ledger
    {
      Here().(batch := b)
    }

    /** Send one record to the global KB; `stop` when the push should stop. */
    method SendRecord(r: Record, network: Network) returns (stop: bool)
      requires service.Ok()
      modifies this, ledger`onGlobal
      ensures Sending(Here(), stop) == Send(old(Here()), r, network(old(clock)))
      ensures clock == old(clock) + 1
    {
      hide Service.Ok, Deliver;
      var reply := network(clock);
      clock := clock + 1;
      sent := sent + [r.id];
      stop := false;
      match reply.outcome
      case Dropped(stored) =>
        if stored { remote := remote.(kb := Deliver(remote.kb, r).kb); }
        stop := true;
      case Denied => refused := refused + {r.id};
      case Answered =>
        var delivered := Deliver(remote.kb, r);
        remote := remote.(kb := delivered.kb);
        if delivered.status in {Created, Unchanged} {
          ledger.NotePresent(r.schema, {r.id});
          acked := acked + {r.id};
        } else {
          refused := refused + {r.id};
        }
    }

    /** Offer one record held back; `onward` unless the push should stop. */
    method RetryNext(waiting: seq<Id>, network: Network) returns (onward: bool)
      requires service.Ok() && waiting != []
      modifies this, ledger`onGlobal, ledger`heldBack
      ensures clock == old(clock) + 1
      ensures At(if onward then Retrying(waiting[1..]) else Idle) ==
              Tick(old(At(Retrying(waiting))), network(old(clock)))
    {
      hide Service.Ok, Service.Indexed, Send, Pushable;
      var id := waiting[0];
      service.FindIsLookup(id);
      if id !in service.experiences {
        clock := clock + 1;
        return false;
      }
      var r := service.experiences[id].record;
      service.FoundId(id);
      var pushable := service.IsPushable(r);
      if !pushable {
        clock := clock + 1;
        return true;
      }
      SendFromBatch(Here(), Retrying(waiting), r, network(clock));
      var stop := SendRecord(r, network);
      if !stop { ledger.heldBack := ledger.heldBack - {id}; }
      onward := !stop;
    }

    /** Handle one record after the push cursor: skip, hold back or send it. */
    method WalkNext(rows: seq<Row>, position: nat, more: bool, network: Network) returns (onward: bool)
      requires service.Ok() && rows != []
      modifies this, ledger`onGlobal, ledger`heldBack, ledger`push
      ensures clock == old(clock) + 1
      ensures At(if onward then Walking(rows[1..], rows[0].position, more) else Idle)
           == Tick(old(At(Walking(rows, position, more))), network(old(clock)))
    {
      hide Service.Ok, Send, Pushable;
      var r := rows[0].record;
      if r.id in ledger.pulled {
        clock := clock + 1;
        return true;
      }
      var pushable := service.IsPushable(r);
      if !pushable {
        ledger.heldBack := ledger.heldBack + {r.id};
        clock := clock + 1;
        return true;
      }
      SendFromBatch(Here(), Walking(rows, position, more), r, network(clock));
      var stop := SendRecord(r, network);
      if stop { ledger.push := position; }
      onward := !stop;
    }

    /** Offer all that earlier pushes held back, in id order. */
    method RetryHeldBack(network: Network) returns (onward: bool)
      requires service.Ok()
      modifies this, ledger
      ensures service.Ok()
      ensures RunBatch(old(At(Retrying(Ordering.Sorted(ledger.heldBack)))), network, old(clock))
           == if onward then RunBatch(At(Retrying([])), network, clock) else Run(Here(), Incomplete, clock)
    {
      hide Service.Ok, Tick, RunBatch;
      var waiting := Ordering.Sorted(ledger.heldBack);
      ghost var run := RunBatch(At(Retrying(waiting)), network, clock);
      while waiting != []
        invariant service.Ok() && RunBatch(At(Retrying(waiting)), network, clock) == run
        decreases |waiting|
      {
        RunUnfolds(At(Retrying(waiting)), network, clock);
        onward := RetryNext(waiting, network);
        if !onward {
          return;
        }
        waiting := waiting[1..];
      }
      onward := true;
    }

    /** Handle the next records after the push cursor and save how far it got. */
    method WalkPage(network: Network) returns (report: Report)
      requires service.Ok()
      modifies this, ledger
      ensures service.Ok()
      ensures Run(Here(), report, clock) == RunBatch(old(At(Retrying([]))), network, old(clock))
    {
      hide Service.Ok, Tick, RunBatch, RecordsAfter;
      RunUnfolds(At(Retrying([])), network, clock);
      StartTick(At(Retrying([])), network(clock));
      var position := ledger.push;
      var page := service.ReadAfter(position, SYNC_BATCH, None);
      clock := clock + 1;
      var rows := page.rows;
      ghost var run := RunBatch(At(Walking(rows, position, page.more)), network, clock);
      while rows != []
        invariant service.Ok() && RunBatch(At(Walking(rows, position, page.more)), network, clock) == run
        decreases |rows|
      {
        RunUnfolds(At(Walking(rows, position, page.more)), network, clock);
        var onward := WalkNext(rows, position, page.more, network);
        if !onward {
          return Incomplete;
        }
        position := rows[0].position;
        rows := rows[1..];
      }
      RunUnfolds(At(Walking([], position, page.more)), network, clock);
      EndTick(At(Walking([], position, page.more)), network(clock));
      ledger.push := position;
      clock := clock + 1;
      report := Completed(page.more);
    }

    /** Bind to the KB that answers, unless it does not name itself or is not the one synced with before. */
    method Connect(network: Network) returns (accepted: bool)
      modifies `clock, ledger`identity
      ensures clock == old(clock) + 1
      ensures accepted == Accepts(old(Here()), network(old(clock)))
      ensures ledger.View() == if accepted then old(ledger.View()).(identity := remote.identity) else old(ledger.View())
    {
      var reply := network(clock);
      clock := clock + 1;
      accepted := reply.outcome == Answered && remote.identity != ""
                  && (ledger.identity == "" || ledger.identity == remote.identity);
      if accepted { ledger.identity := remote.identity; }
    }

    /** One push batch: what is held back first, then the next records after the cursor. */
    method PushBatch(network: Network) returns (report: Report)
      requires service.Ok()
      modifies this, ledger
      ensures service.Ok()
      ensures Run(Here(), report, clock) == PushOnce(old(Here()), network, old(clock))
    {
      hide Service.Ok, RunBatch, Accepts;
      var accepted := Connect(network);
      if !accepted {
        return Incomplete;
      }
      var onward := RetryHeldBack(network);
      if !onward {
        return Incomplete;
      }
      report := WalkPage(network);
    }

    /** Ask for batches until one is not completed or has nothing left. */
    method PushEverything(network: Network) returns (report: Report)
      requires service.Ok() && PushInv(Here())
      modifies this, ledger
      ensures service.Ok() && PushInv(Here())
      ensures Run(Here(), report, clock) == PushAll(old(Here()), network, old(clock))
      ensures report == Completed(false) ==>
                forall r | r in service.log && Pushable(service.Db(), r) && r.id !in ledger.pulled ::
                  r.id in acked || r.id in refused
      ensures old(Inv(Here())) ==> Inv(Here())
      ensures old(Inv(Here())) && report == Completed(false) ==>
                forall r | r in service.log && Pushable(service.Db(), r) && r.id !in ledger.pulled ::
                  r in remote.kb.log || r.id in refused
    {
      hide Service.Ok, PushInv, RunBatch, Pushable, BeginPush, PullInv;
      ghost var start, startClock := Here(), clock;
      PushSettles(start, network, clock);
      if Inv(start) { PushConverges(start, network, clock); }
      var again := true;
      report := Incomplete;
      while again
        invariant service.Ok() && PushInv(Here()) && service.Db() == start.local
        invariant again ==> PushAll(Here(), network, clock) == PushAll(start, network, startClock)
        invariant !again ==> Run(Here(), report, clock) == PushAll(start, network, startClock)
        decreases again, |service.log| - ledger.push
      {
        PushAllUnfolds(Here(), network, clock);
        report := PushBatch(network);
        again := report == Completed(true);
      }
    }

    // ---- pull ----

    /** Read the page a pull batch starts with; none if a request fails or the global KB has no such schema. */
    method FetchPage(schema: Schema, network: Network) returns (start: Option<Pull>)
      modifies `clock
      ensures start.Some? ==> start.value.phase == Resetting && start.value.done == 0 && !start.value.failed
      ensures RunBatch(old(At(Fetching(schema))), network, old(clock))
           == if start.Some? then RunBatch(At(Pulling(start.value)), network, clock) else Run(Here(), Incomplete, clock)
    {
      hide RunBatch, ExportOf;
      RunUnfolds(At(Fetching(schema)), network, clock);
      var reply := network(clock);
      clock := clock + 1;
      if reply.outcome != Answered || schema !in remote.kb.schemas {
        return None;
      }
      var cursor := if schema in ledger.pull then ledger.pull[schema] else ORIGIN;
      var page := ExportOf(remote, schema, cursor.position);
      var lost := cursor.position != 0 && page.afterId != cursor.anchor;
      var moved := cursor.position != 0 && (schema !in ledger.remembered || page.state != ledger.remembered[schema]);
      if lost || moved {
        RunUnfolds(At(Refetching(schema, lost)), network, clock);
        reply := network(clock);
        clock := clock + 1;
        if reply.outcome != Answered || schema !in remote.kb.schemas {
          return None;
        }
        page, cursor := ExportOf(remote, schema, 0), ORIGIN;
      }
      start := Some(Pull(schema, remote, page, cursor, lost, Resetting, 0, cursor, {}, false));
    }

    /** Reset a lost push cursor and register the schema; `begins` unless this batch continues a pull in progress. */
    method Prepare(p: Pull, network: Network) returns (begins: bool)
      requires service.Ok() && p.phase == Resetting
      modifies this, ledger`push, service`schemas
      ensures service.Ok()
      ensures RunBatch(old(At(Pulling(p))), network, old(clock))
           == RunBatch(At(Pulling(p.(phase := if begins then Labelling else Receiving))), network, clock)
    {
      hide Service.Ok, RunBatch, PullOne, Register;
      ResetTick(At(Pulling(p)), p, network, clock);
      if p.lost { ledger.push, acked, refused := 0, {}, {}; }
      clock := clock + 1;
      RegisterTick(At(Pulling(p.(phase := Registering))), p.(phase := Registering), network, clock);
      service.RegisterSchema(p.schema);
      clock := clock + 1;
      begins := p.schema !in ledger.inProgress;
    }

    /** Label the state the pull is about to change, and put back what is known to be on the global KB. */
    method Begin(p: Pull, network: Network) returns (onward: bool)
      requires service.Ok() && p.phase == Labelling
      modifies `clock, `disturbed, service`schemas, service`labels
      ensures service.Ok()
      ensures RunBatch(old(At(Pulling(p))), network, old(clock))
           == if onward then RunBatch(At(Pulling(p.(phase := Receiving))), network, clock)
             else Run(Here(), Incomplete, clock)
    {
      hide Service.Ok, RunBatch, PullOne, SaveIfModified, BringIn;
      LabelTick(At(Pulling(p)), p, network, clock);
      var newTag := network(clock).newTag;
      clock := clock + 1;
      onward := service.SaveState(p.schema, newTag);
      if !onward {
        return;
      }
      BringBackTick(At(Pulling(p.(phase := BringingBack))), p.(phase := BringingBack), network, clock);
      var known := if p.schema in ledger.onGlobal then ledger.onGlobal[p.schema] else {};
      service.BringBack(p.schema, known);
      disturbed := disturbed - {p.schema};
      clock := clock + 1;
    }

    /** Write one exported record here; `p'` is the pull after it. */
    method Receive(p: Pull, network: Network) returns (p': Pull)
      requires service.Ok() && p.phase == Receiving && p.done < |p.page.items|
      modifies this, ledger`pulled, service`files, service`lastSequence, service`experiences, service`bySequence,
               service`schemas, service`log
      ensures service.Ok() && clock == old(clock) + 1
      ensures At(Pulling(p')) == ReceiveOne(old(At(Pulling(p))), p, network(old(clock)))
    {
      hide Service.Ok, Write, PutFiles;
      var reply := network(clock);
      clock := clock + 1;
      var row := p.page.items[p.done];
      var onward := p.(done := p.done + 1, reached := Cursor(row.position, row.record.id));
      if row.record.schema != p.schema || reply.outcome == Denied {
        rejected := rejected + {row.record.id};
        return onward;
      }
      if reply.outcome.Dropped? {
        return p.(phase := Noting, failed := true);
      }
      service.PutAll(row.record.files);
      var status := service.WriteRecord(row.record);
      if status == Created { ledger.pulled := ledger.pulled + {row.record.id}; }
      if status in {Created, Unchanged} {
        p' := onward.(fetched := p.fetched + {row.record.id});
      } else {
        rejected := rejected + {row.record.id};
        p' := onward;
      }
    }

    /** Write the exported records here, up to the first whose files cannot be fetched yet. */
    method ReceiveAll(p: Pull, network: Network) returns (p': Pull)
      requires service.Ok() && p.phase == Receiving && p.done == 0 && !p.failed
      modifies this, ledger`pulled, service`files, service`lastSequence, service`experiences, service`bySequence,
               service`schemas, service`log
      ensures service.Ok() && p'.phase == Noting
      ensures RunBatch(old(At(Pulling(p))), network, old(clock)) == RunBatch(At(Pulling(p')), network, clock)
    {
      hide Service.Ok, RunBatch, PullOne, ReceiveOne;
      p' := p;
      ghost var run := RunBatch(At(Pulling(p)), network, clock);
      while p'.phase == Receiving && p'.done < |p'.page.items|
        invariant service.Ok() && (p'.phase == Receiving || p'.phase == Noting)
        invariant p'.phase == Receiving ==> p'.done <= |p'.page.items|
        invariant RunBatch(At(Pulling(p')), network, clock) == run
        decreases p'.phase == Receiving, |p'.page.items| - p'.done
      {
        ReceiveTick(At(Pulling(p')), p', network, clock);
        p' := Receive(p', network);
      }
      if p'.phase == Receiving {
        ReceivedTick(At(Pulling(p')), p', network, clock);
        p' := p'.(phase := Noting);
        clock := clock + 1;
      }
    }

    /** Note what was fetched and bring it in. */
    method Keep(p: Pull, network: Network)
      requires service.Ok() && p.phase == Noting
      modifies `clock, ledger`onGlobal, service`schemas
      ensures service.Ok()
      ensures RunBatch(old(At(Pulling(p))), network, old(clock))
           == RunBatch(At(Pulling(p.(phase := Advancing))), network, clock)
    {
      hide Service.Ok, RunBatch, PullOne, NoteOnGlobal, BringIn;
      NoteTick(At(Pulling(p)), p, network, clock);
      ledger.NotePresent(p.schema, p.fetched);
      clock := clock + 1;
      BringInTick(At(Pulling(p.(phase := BringingIn))), p.(phase := BringingIn), network, clock);
      service.BringBack(p.schema, p.fetched);
      clock := clock + 1;
    }

    /** Save where the next batch resumes, the state the page was shown under, and whether the pull goes on. */
    method Save(p: Pull, network: Network) returns (report: Report)
      requires p.phase == Advancing
      modifies `clock, ledger`pull, ledger`remembered, ledger`inProgress
      ensures RunBatch(old(At(Pulling(p))), network, old(clock)) == Run(Here(), report, clock)
    {
      hide RunBatch;
      SaveTicks(At(Pulling(p)), p, network, clock);
      var target := if p.failed then p.reached else Cursor(p.page.next, p.page.nextId);
      ledger.pull := ledger.pull[p.schema := target];
      ledger.remembered := ledger.remembered[p.schema := p.page.state];
      var more := p.failed || p.page.more;
      ledger.inProgress := if more then ledger.inProgress + {p.schema} else ledger.inProgress - {p.schema};
      clock := clock + 3;
      report := if p.failed then Incomplete else Completed(more);
    }

    /** One pull batch. */
    method PullBatch(schema: Schema, network: Network) returns (report: Report)
      requires service.Ok()
      modifies this, ledger, service
      ensures service.Ok()
      ensures Run(Here(), report, clock) == PullOnce(old(Here()), schema, network, old(clock))
    {
      hide Service.Ok, RunBatch, Accepts;
      var accepted := Connect(network);
      if !accepted {
        return Incomplete;
      }
      var start := FetchPage(schema, network);
      if start.None? {
        return Incomplete;
      }
      var begins := Prepare(start.value, network);
      if begins {
        var onward := Begin(start.value.(phase := Labelling), network);
        if !onward {
          return Incomplete;
        }
      }
      var p := ReceiveAll(start.value.(phase := Receiving), network);
      Keep(p, network);
      report := Save(p.(phase := Advancing), network);
    }

    /** Ask for batches until one is not completed or has nothing left. */
    method PullEverything(schema: Schema, network: Network) returns (report: Report)
      requires service.Ok() && Inv(Here())
      modifies this, ledger, service
      ensures service.Ok() && Inv(Here())
      ensures Run(Here(), report, clock) == PullAll(old(Here()), schema, network, old(clock))
      ensures report == Completed(false) && old(Undisturbed(Here(), schema)) ==> Brought(Here(), old(remote), schema)
    {
      hide Service.Ok, Inv, RunBatch, BeginPull, Brought, Undisturbed, StartsOver;
      ghost var start, startClock := Here(), clock;
      PullConverges(start, schema, network, clock);
      var again := true;
      report := Incomplete;
      while again
        invariant service.Ok() && Inv(Here()) && remote == start.remote
        invariant again ==> PullAll(Here(), schema, network, clock) == PullAll(start, schema, network, startClock)
        invariant !again ==> Run(Here(), report, clock) == PullAll(start, schema, network, startClock)
        decreases again, StartsOver(Here(), schema), |remote.kb.log| - PullCursor(ledger.View(), schema).position
      {
        PullAllUnfolds(Here(), schema, network, clock);
        report := PullBatch(schema, network);
        again := report == Completed(true);
      }
    }

    /** Forget the global KB synced with, so that the next push and pull start over with whichever answers. */
    method ForgetGlobal()
      modifies this, ledger
      ensures Here() == Rebind(old(Here()))
    {
      ledger.Drop();
      acked, refused, rejected, disturbed := {}, {}, {}, {};
    }
  }

  /** One batch from the identity check on. */
  ghost function PushOnce(w: World, network: Network, t: nat): Run
    requires w.batch == Idle
  {
    var begun := BeginPush(w, network(t));
    if begun.batch == Idle then Run(begun, Incomplete, t + 1) else RunBatch(begun, network, t + 1)
  }

  /** A send does not depend on the batch it is part of. */
  lemma SendFromBatch(w: World, b: Batch, r: Record, reply: Reply)
    ensures Send(w.(batch := b), r, reply) == Sending(Send(w, r, reply).world.(batch := b), Send(w, r, reply).stop)
  {
  }

  lemma RunUnfolds(w: World, network: Network, t: nat)
    requires w.batch != Idle
    ensures var w' := Tick(w, network(t));
            RunBatch(w, network, t)
            == if w'.batch == Idle then Run(w', LastReport(w), t + 1) else RunBatch(w', network, t + 1)
  {
    hide Tick;
  }

  lemma StartTick(w: World, reply: Reply)
    requires w.batch == Retrying([])
    ensures var page := RecordsAfter(w.local.log, None, w.ledger.push, SYNC_BATCH);
            Tick(w, reply) == w.(batch := Walking(page.rows, w.ledger.push, page.more))
  {
    hide RecordsAfter;
  }

  lemma EndTick(w: World, reply: Reply)
    requires w.batch.Walking? && w.batch.rows == []
    ensures Tick(w, reply) == w.(ledger := w.ledger.(push := w.batch.position), batch := Idle)
  {
  }

  lemma PushAllUnfolds(w: World, network: Network, t: nat)
    requires PushInv(w) && w.batch == Idle
    ensures var run := PushOnce(w, network, t);
            && run.world.batch == Idle && PushInv(run.world) && run.world.local == w.local
            && (run.report == Completed(true) ==> w.ledger.push < run.world.ledger.push <= |w.local.log|)
            && PushAll(w, network, t) == if run.report == Completed(true) then PushAll(run.world, network, run.time)
              else run
  {
    hide RunBatch;
    var begun := BeginPush(w, network(t));
    StartKeepsPushInv(w, network(t));
    if begun.batch != Idle {
      BegunIsPushing(w, network(t));
      PushBatchRuns(begun, network, t + 1);
    }
  }

  // ---- the ticks of a pull ----

  ghost function PullOnce(w: World, schema: Schema, network: Network, t: nat): Run
    requires w.batch == Idle
  {
    var begun := BeginPull(w, schema, network(t));
    if begun.batch == Idle then Run(begun, Incomplete, t + 1) else RunBatch(begun, network, t + 1)
  }

  /** What is left to run after one more tick, which ends the batch if it leaves it idle. */
  ghost function Rest(w: World, w': World, network: Network, t: nat): Run {
    if w'.batch == Idle then Run(w', LastReport(w), t) else RunBatch(w', network, t)
  }

  lemma PullUnfolds(w: World, p: Pull, network: Network, t: nat)
    requires w.batch == Pulling(p)
    ensures RunBatch(w, network, t) == Rest(w, PullOne(w, p, network(t)), network, t + 1)
  {
    hide PullOne;
    assert Tick(w, network(t)) == PullOne(w, p, network(t));
  }

  lemma ResetTick(w: World, p: Pull, network: Network, t: nat)
    requires w.batch == Pulling(p) && p.phase == Resetting
    ensures var reset := if p.lost then w.(ledger := w.ledger.(push := 0), acked := {}, refused := {}) else w;
            RunBatch(w, network, t) == RunBatch(reset.(batch := Pulling(p.(phase := Registering))), network, t + 1)
  {
    hide RunBatch;
    PullUnfolds(w, p, network, t);
  }

  lemma RegisterTick(w: World, p: Pull, network: Network, t: nat)
    requires w.batch == Pulling(p) && p.phase == Registering
    ensures var next := if p.schema in w.ledger.inProgress then Receiving else Labelling;
            var registered := w.(local := Register(w.local, p.schema), batch := Pulling(p.(phase := next)));
            RunBatch(w, network, t) == RunBatch(registered, network, t + 1)
  {
    hide RunBatch;
    PullUnfolds(w, p, network, t);
  }

  lemma LabelTick(w: World, p: Pull, network: Network, t: nat)
    requires w.batch == Pulling(p) && p.phase == Labelling
    ensures RunBatch(w, network, t)
         == match SaveIfModified(w.local, p.schema, network(t).newTag)
            case None => Run(w.(batch := Idle), Incomplete, t + 1)
            case Some(kept) => RunBatch(w.(local := kept, batch := Pulling(p.(phase := BringingBack))), network, t + 1)
  {
    hide RunBatch, SaveIfModified;
    PullUnfolds(w, p, network, t);
  }

  lemma BringBackTick(w: World, p: Pull, network: Network, t: nat)
    requires w.batch == Pulling(p) && p.phase == BringingBack
    ensures var brought := w.(local := BringIn(w.local, p.schema, OnGlobal(w.ledger, p.schema)),
                              disturbed := w.disturbed - {p.schema}, batch := Pulling(p.(phase := Receiving)));
            RunBatch(w, network, t) == RunBatch(brought, network, t + 1)
  {
    hide RunBatch, BringIn;
    PullUnfolds(w, p, network, t);
  }

  lemma ReceiveTick(w: World, p: Pull, network: Network, t: nat)
    requires w.batch == Pulling(p) && p.phase == Receiving && p.done < |p.page.items|
    ensures var w' := ReceiveOne(w, p, network(t));
            && w'.batch.Pulling? && w'.batch.pull.page == p.page
            && (w'.batch.pull.phase == Noting || (w'.batch.pull.phase == Receiving && w'.batch.pull.done == p.done + 1))
            && RunBatch(w, network, t) == RunBatch(w', network, t + 1)
  {
    hide RunBatch, Write, PutFiles;
    PullUnfolds(w, p, network, t);
  }

  lemma ReceivedTick(w: World, p: Pull, network: Network, t: nat)
    requires w.batch == Pulling(p) && p.phase == Receiving && p.done == |p.page.items|
    ensures RunBatch(w, network, t) == RunBatch(w.(batch := Pulling(p.(phase := Noting))), network, t + 1)
  {
    hide RunBatch;
    PullUnfolds(w, p, network, t);
  }

  lemma NoteTick(w: World, p: Pull, network: Network, t: nat)
    requires w.batch == Pulling(p) && p.phase == Noting
    ensures var noted := w.(ledger := NoteOnGlobal(w.ledger, p.schema, p.fetched),
            batch := Pulling(p.(phase := BringingIn)));
            RunBatch(w, network, t) == RunBatch(noted, network, t + 1)
  {
    hide RunBatch;
    PullUnfolds(w, p, network, t);
  }

  lemma BringInTick(w: World, p: Pull, network: Network, t: nat)
    requires w.batch == Pulling(p) && p.phase == BringingIn
    ensures var brought := w.(local := BringIn(w.local, p.schema, p.fetched), batch := Pulling(p.(phase := Advancing)));
            RunBatch(w, network, t) == RunBatch(brought, network, t + 1)
  {
    hide RunBatch, BringIn;
    PullUnfolds(w, p, network, t);
  }

  lemma SaveTicks(w: World, p: Pull, network: Network, t: nat)
    requires w.batch == Pulling(p) && p.phase == Advancing
    ensures var more := p.failed || p.page.more;
            var saved := w.ledger.(
                pull := w.ledger.pull[p.schema := Target(p)],
                remembered := w.ledger.remembered[p.schema := p.page.state],
                inProgress := if more then w.ledger.inProgress + {p.schema} else w.ledger.inProgress - {p.schema});
            RunBatch(w, network, t) == Run(w.(ledger := saved, batch := Idle),
              if p.failed then Incomplete else Completed(more), t + 3)
  {
    hide RunBatch;
    var p1, p2 := p.(phase := Remembering), p.(phase := Marking);
    var w1 := w.(ledger := w.ledger.(pull := w.ledger.pull[p.schema := Target(p)]), batch := Pulling(p1));
    var w2 := w1.(ledger := w1.ledger.(remembered := w.ledger.remembered[p.schema := p.page.state]),
      batch := Pulling(p2));
    PullUnfolds(w, p, network, t);
    PullUnfolds(w1, p1, network, t + 1);
    PullUnfolds(w2, p2, network, t + 2);
  }

  lemma PullAllUnfolds(w: World, schema: Schema, network: Network, t: nat)
    requires Inv(w) && w.batch == Idle
    ensures var run := PullOnce(w, schema, network, t);
            && run.world.batch == Idle && Inv(run.world) && run.world.remote == w.remote
            && (run.report == Completed(true) ==> Advanced(w, run, schema))
            && PullAll(w, schema, network, t)
            == if run.report == Completed(true) then PullAll(run.world, schema, network, run.time) else run
  {
    hide RunBatch, Inv, Undisturbed, Brought, Advanced;
    var begun := BeginPull(w, schema, network(t));
    StepKeepsInv(w, StartPull(schema, network(t)));
    if begun.batch != Idle {
      PullBatchRuns(begun, schema, network, t + 1);
      AdvancedFrom(w, begun, RunBatch(begun, network, t + 1), schema);
    }
  }

  /** Binding to the global KB moves no cursor. */
  lemma AdvancedFrom(w: World, begun: World, run: Run, schema: Schema)
    requires begun == w.(ledger := w.ledger.(identity := begun.ledger.identity), batch := begun.batch)
    ensures Advanced(begun, run, schema) == Advanced(w, run, schema)
  {
    hide HiddenDigest;
  }
}
