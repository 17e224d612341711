/** What every run keeps on the push side, whatever both KBs do, whenever the process stops, and whichever KB answers
  * at the global URL: nothing at or before the push cursor is forgotten, nothing pulled is sent back, and nothing
  * withheld is sent.
  */
module PushSafety {
  import opened Prelude
  import opened Log
  import opened KbState
  import opened KbTheorems
  import opened Sync
  import Ordering

  ghost predicate CoveredId(w: World, id: Id) {
    id in w.ledger.pulled || id in w.ledger.heldBack || id in w.acked || id in w.refused
  }

  /** Every record at or before `position` was pulled here, is held back, or was accepted or refused since the push
    * cursor last stood at 0. */
  ghost predicate Covered(w: World, position: nat) {
    position <= |w.local.log| && forall i | 0 <= i < position :: CoveredId(w, w.local.log[i].id)
  }

  ghost predicate LedgerOk(w: World) {
    && w.ledger.heldBack <= Ids(w.local.log)
    && w.ledger.pulled <= Ids(w.local.log)
    && w.ledger.heldBack !! w.ledger.pulled
  }

  /** What the global KB accepted is stored here and noted as on it. */
  ghost predicate AckedOk(w: World) {
    && w.acked <= Ids(w.local.log)
    && forall r | r in w.local.log && r.id in w.acked :: r.id in OnGlobal(w.ledger, r.schema)
  }

  ghost predicate WaitingOk(w: World, waiting: seq<Id>) {
    forall id | id in waiting :: id in Ids(w.local.log) && id !in w.ledger.pulled
  }

  /** A walk holds the consecutive records after its position, all of which came after what is covered. */
  ghost predicate WalkOk(w: World, rows: seq<Row>, position: nat) {
    && Covered(w, position) && w.ledger.push <= position
    && position + |rows| <= |w.local.log|
    && rows == Rows(w.local.log, None, position, position + |rows|)
  }

  ghost predicate BatchOk(w: World) {
    match w.batch
    case Retrying(waiting) => WaitingOk(w, waiting)
    case Walking(rows, position, more) => WalkOk(w, rows, position)
    case _ => true
  }

  ghost predicate PushInv(w: World) {
    Valid(w.local) && LedgerOk(w) && AckedOk(w) && Covered(w, w.ledger.push) && BatchOk(w)
  }

  /** A world before the first sync, or right after a rebind: any database, nothing known of the global KB. */
  ghost predicate Initial(w: World) {
    && Valid(w.local) && w.ledger.pulled <= Ids(w.local.log) && KnowsNothing(w.ledger)
    && w.batch == Idle && w.acked == {} && w.refused == {} && w.rejected == {} && w.disturbed == {}
  }

  // ---- helpers ----

  lemma {:induction false} AllRows(log: seq<Record>, after: nat, upto: nat)
    requires after <= upto <= |log|
    ensures |Rows(log, None, after, upto)| == upto - after
    ensures forall i | 0 <= i < upto - after :: Rows(log, None, after, upto)[i] == Row(after + i + 1, log[after + i])
  {
    if after < upto { AllRows(log, after, upto - 1); }
  }

  /** The tail of a walk is the walk from one position later. */
  lemma WalkTail(log: seq<Record>, position: nat, count: nat)
    requires 1 <= count && position + count <= |log|
    ensures var rows := Rows(log, None, position, position + count);
            && rows != [] && rows[0] == Row(position + 1, log[position])
            && rows[1..] == Rows(log, None, position + 1, position + count)
  {
    AllRows(log, position, position + count);
    AllRows(log, position + 1, position + count);
  }

  /** Notes only grow, so what was accepted stays noted. */
  lemma AckedStays(w: World, w': World)
    requires AckedOk(w) && w'.acked == w.acked && w.local.log <= w'.local.log && DistinctIds(w'.local.log)
    requires forall s :: OnGlobal(w.ledger, s) <= OnGlobal(w'.ledger, s)
    ensures AckedOk(w')
  {
    StoredGrows(w.local.log, w'.local.log, "");
    forall r | r in w'.local.log && r.id in w'.acked ensures r.id in OnGlobal(w'.ledger, r.schema) {
      var x :| x in w.local.log && x.id == r.id;
      SameIdSameRecord(w'.local.log, r, x);
    }
  }

  /** What a longer local log and a changed global KB leave standing. */
  lemma PushInvFramed(w: World, w': World)
    requires PushInv(w) && Valid(w'.local) && w.local.log <= w'.local.log
    requires w'.ledger.pulled == w.ledger.pulled && w'.ledger.heldBack == w.ledger.heldBack
    requires w'.ledger.push == w.ledger.push && w'.batch == w.batch
    requires AckedOk(w') && w.acked <= w'.acked && w.refused <= w'.refused
    ensures PushInv(w')
  {
    hide Valid;
    StoredGrows(w.local.log, w'.local.log, "");
    assert forall i | 0 <= i < |w.local.log| :: w'.local.log[i] == w.local.log[i];
    if w.batch.Walking? {
      RowsStable(w.local.log, w'.local.log, None, w.batch.position, w.batch.position + |w.batch.rows|);
    }
  }

  /** The same, ending the batch or handing it to the pull side. */
  lemma PushInvRebatched(w: World, w': World)
    requires PushInv(w) && Valid(w'.local) && w.local.log <= w'.local.log
    requires w'.ledger.pulled == w.ledger.pulled && w'.ledger.heldBack == w.ledger.heldBack
    requires w'.ledger.push == w.ledger.push && !w'.batch.Retrying? && !w'.batch.Walking?
    requires w'.acked == w.acked && w'.refused == w.refused
    requires forall s :: OnGlobal(w.ledger, s) <= OnGlobal(w'.ledger, s)
    ensures PushInv(w')
  {
    AckedStays(w, w');
    PushInvFramed(w.(batch := Idle), w'.(batch := Idle));
  }

  // ---- sending ----

  /** A send that is not stopped leaves its record accepted or refused, and touches nothing else of the push side. */
  lemma SendCovers(w: World, r: Record, reply: Reply)
    ensures AckedOk(w) && r in w.local.log && DistinctIds(w.local.log) ==> AckedOk(Send(w, r, reply).world)
    ensures var s := Send(w, r, reply);
            && s.world.local == w.local && s.world.batch == w.batch
            && s.world.ledger.pulled == w.ledger.pulled && s.world.ledger.heldBack == w.ledger.heldBack
            && s.world.ledger.push == w.ledger.push
            && w.acked <= s.world.acked && w.refused <= s.world.refused
            && s.world.sent == w.sent + [r.id]
            && (!s.stop ==> r.id in s.world.acked || r.id in s.world.refused)
            && (s.stop <==> reply.outcome.Dropped?)
  {
    var w' := Send(w, r, reply).world;
    if AckedOk(w) && r in w.local.log && DistinctIds(w.local.log) {
      forall x | x in w'.local.log && x.id in w'.acked ensures x.id in OnGlobal(w'.ledger, x.schema) {
        if x.id == r.id { SameIdSameRecord(w.local.log, x, r); }
      }
    }
  }

  lemma RetryKeepsPushInv(w: World, waiting: seq<Id>, reply: Reply)
    requires PushInv(w) && w.batch == Retrying(waiting) && waiting != []
    ensures PushInv(RetryOne(w, waiting, reply))
  {
    assert waiting[0] in waiting;
    var r := Find(w.local.log, waiting[0]).value;
    var rest := w.(batch := Retrying(waiting[1..]));
    assert forall id | id in waiting[1..] :: id in waiting;
    if Pushable(w.local, r) {
      SendCovers(w, r, reply);
      var sent := Send(w, r, reply).world;
      var w' := RetryOne(w, waiting, reply);
      PushInvFramed(w, sent);
      forall i | 0 <= i < w.ledger.push ensures CoveredId(w', w'.local.log[i].id) {
        assert CoveredId(sent, sent.local.log[i].id);
      }
    }
  }

  lemma WalkKeepsPushInv(w: World, rows: seq<Row>, position: nat, more: bool, reply: Reply)
    requires PushInv(w) && w.batch == Walking(rows, position, more) && rows != []
    ensures PushInv(WalkOne(w, rows, position, more, reply))
  {
    assert DistinctIds(w.local.log);
    hide Valid, Send, Pushable, DistinctIds;
    var log := w.local.log;
    WalkTail(log, position, |rows|);
    var r := rows[0].record;
    assert r == log[position] && r in log;
    if r.id in w.ledger.pulled || Pushable(w.local, r) {
      SendCovers(w, r, reply);
      var sending := Send(w, r, reply);
      PushInvFramed(w, sending.world);
      if r.id in w.ledger.pulled {
        WalkOnward(w, rows, position, more);
      } else if !sending.stop {
        WalkOnward(sending.world, rows, position, more);
      }
    } else {
      HoldBackKeepsPushInv(w, r.id);
      WalkOnward(w.(ledger := w.ledger.(heldBack := w.ledger.heldBack + {r.id})), rows, position, more);
    }
  }

  lemma HoldBackKeepsPushInv(w: World, id: Id)
    requires PushInv(w) && !w.batch.Retrying? && id in Ids(w.local.log) && id !in w.ledger.pulled
    ensures PushInv(w.(ledger := w.ledger.(heldBack := w.ledger.heldBack + {id})))
  {
    hide Valid;
    var w' := w.(ledger := w.ledger.(heldBack := w.ledger.heldBack + {id}));
    assert forall x :: CoveredId(w, x) ==> CoveredId(w', x);
  }

  /** A walk moves past a record once that record is covered. */
  lemma WalkOnward(w: World, rows: seq<Row>, position: nat, more: bool)
    requires PushInv(w) && w.batch == Walking(rows, position, more) && rows != [] && CoveredId(w, rows[0].record.id)
    ensures PushInv(w.(batch := Walking(rows[1..], rows[0].position, more)))
  {
    hide Valid;
    WalkTail(w.local.log, position, |rows|);
    var w' := w.(batch := Walking(rows[1..], rows[0].position, more));
    assert forall i | 0 <= i < position + 1 :: CoveredId(w', w'.local.log[i].id);
  }

  lemma StartWalkKeepsPushInv(w: World)
    requires PushInv(w)
    ensures PushInv(StartWalk(w))
  {
    hide Valid, RecordsAfter;
    var log, push := w.local.log, w.ledger.push;
    PageIsRange(log, None, push, SYNC_BATCH);
    var page := RecordsAfter(log, None, push, SYNC_BATCH);
    AllRows(log, push, page.next);
  }

  // ---- receiving ----

  /** A record a pull creates was not stored before, so it is neither held back nor at or before the push cursor. */
  lemma ReceiveKeepsPushInv(w: World, p: Pull, reply: Reply)
    requires PushInv(w) && w.batch == Pulling(p) && p.done < |p.page.items|
    ensures PushInv(ReceiveOne(w, p, reply))
  {
    hide Valid;
    var r := p.page.items[p.done].record;
    var w' := ReceiveOne(w, p, reply);
    ReceivedGrows(w.local, r);
    if w'.ledger.pulled == w.ledger.pulled {
      PushInvRebatched(w, w');
    } else {
      CreatedKeepsPushInv(w, r, w');
    }
  }

  lemma ReceivedGrows(kb: Kb, r: Record)
    requires Valid(kb)
    ensures var written := Write(PutFiles(kb, r.files), r);
            && Valid(written.kb) && kb.log <= written.kb.log
            && (written.status == Created ==> r.id !in Ids(kb.log) && written.kb.log == kb.log + [r])
  {
    ApplyKeepsValid(kb, OpPutFiles(r.files));
    ValidAfterWrite(PutFiles(kb, r.files), r);
  }

  lemma CreatedKeepsPushInv(w: World, r: Record, w': World)
    requires PushInv(w) && r.id !in Ids(w.local.log) && w'.local.log == w.local.log + [r] && Valid(w'.local)
    requires w'.ledger == w.ledger.(pulled := w.ledger.pulled + {r.id}) && w'.batch.Pulling?
    requires w'.acked == w.acked && w'.refused == w.refused
    ensures PushInv(w')
  {
    assert DistinctIds(w'.local.log);
    hide Valid;
    AckedStays(w, w');
    StoredGrows(w.local.log, w'.local.log, "");
    assert r in w'.local.log;
    forall i | 0 <= i < w'.ledger.push ensures CoveredId(w', w'.local.log[i].id) {
      assert CoveredId(w, w.local.log[i].id);
    }
  }

  lemma PullKeepsPushInv(w: World, p: Pull, reply: Reply)
    requires PushInv(w) && w.batch == Pulling(p)
    ensures PushInv(PullOne(w, p, reply))
  {
    hide Valid;
    var w' := PullOne(w, p, reply);
    match p.phase
    case Resetting =>
      if !p.lost { PushInvRebatched(w, w'); }
    case Registering => ApplyKeepsValid(w.local, OpRegister(p.schema)); PushInvRebatched(w, w');
    case Labelling => ApplyKeepsValid(w.local, OpBeginPull(p.schema, reply.newTag)); PushInvRebatched(w, w');
    case BringingBack =>
      ApplyKeepsValid(w.local, OpBringIn(p.schema, OnGlobal(w.ledger, p.schema)));
      PushInvRebatched(w, w');
    case Receiving =>
      if p.done < |p.page.items| { ReceiveKeepsPushInv(w, p, reply); } else { PushInvRebatched(w, w'); }
    case BringingIn => ApplyKeepsValid(w.local, OpBringIn(p.schema, p.fetched)); PushInvRebatched(w, w');
    case _ => PushInvRebatched(w, w');
  }

  lemma TickKeepsPushInv(w: World, reply: Reply)
    requires PushInv(w)
    ensures PushInv(Tick(w, reply))
  {
    match w.batch
    case Idle =>
    case Retrying(waiting) =>
      if waiting == [] { StartWalkKeepsPushInv(w); } else { RetryKeepsPushInv(w, waiting, reply); }
    case Walking(rows, position, more) =>
      if rows != [] { WalkKeepsPushInv(w, rows, position, more, reply); }
    case Fetching(schema) => PushInvRebatched(w, Tick(w, reply));
    case Refetching(schema, lost) => PushInvRebatched(w, Tick(w, reply));
    case Pulling(p) => PullKeepsPushInv(w, p, reply);
  }

  lemma LocalOpKeepsPushInv(w: World, op: Op)
    requires PushInv(w)
    ensures PushInv(Next(w, LocalOp(op)))
  {
    var w' := Next(w, LocalOp(op));
    ApplyKeepsValid(w.local, op);
    hide Valid, Apply;
    AckedStays(w, w');
    PushInvFramed(w, w');
  }

  lemma RemoteKeepsPushInv(w: World, remote: Remote)
    requires PushInv(w)
    ensures PushInv(w.(remote := remote))
  {
    hide Valid;
    PushInvFramed(w, w.(remote := remote));
  }

  lemma StartKeepsPushInv(w: World, reply: Reply)
    requires PushInv(w)
    ensures PushInv(BeginPush(w, reply))
  {
    hide Valid;
    assert forall id | id in Ordering.Sorted(w.ledger.heldBack) :: id in w.ledger.heldBack;
  }

  /** Every step keeps the push side whole: each transaction of a batch, every operation on either KB, a rebind, a
    * stop of the process at any point, and another KB answering at the URL. */
  lemma StepKeepsPushInv(w: World, step: Step)
    requires PushInv(w)
    ensures PushInv(Next(w, step))
  {
    hide Valid, Apply, Tick;
    match step
    case LocalOp(op) => LocalOpKeepsPushInv(w, op);
    case RemoteOp(op) => RemoteKeepsPushInv(w, w.remote.(kb := Apply(w.remote.kb, op)));
    case RemotePulls(r) => RemoteKeepsPushInv(w, PulledByRemote(w.remote, r));
    case Replace(remote) => RemoteKeepsPushInv(w, remote);
    case StartPush(reply) => StartKeepsPushInv(w, reply);
    case StartPull(schema, reply) => if w.batch == Idle { PushInvRebatched(w, Next(w, step)); }
    case TickStep(reply) => TickKeepsPushInv(w, reply);
    case RebindStep =>
    case Crash => PushInvRebatched(w, Next(w, step));
  }

  lemma {:induction false} RunKeepsPushInv(w: World, steps: seq<Step>)
    requires PushInv(w)
    ensures PushInv(Exec(w, steps))
    decreases |steps|
  {
    if steps != [] {
      StepKeepsPushInv(w, steps[0]);
      RunKeepsPushInv(Next(w, steps[0]), steps[1..]);
    }
  }

  // ---- main results ----

  /** Push coverage: in every reachable state, every record stored here at or before the push cursor was pulled here, is
    * held back, or was, since the cursor last stood at 0, refused by the global KB or accepted and noted as on it. */
  lemma PushCoverage(w: World, steps: seq<Step>)
    requires Initial(w)
    ensures var w' := Exec(w, steps);
            && w'.ledger.push <= |w'.local.log|
            && forall r | r in w'.local.log[..w'.ledger.push] ::
                 || r.id in w'.ledger.pulled || r.id in w'.ledger.heldBack || r.id in w'.refused
                 || (r.id in w'.acked && r.id in OnGlobal(w'.ledger, r.schema))
  {
    assert PushInv(w);
    RunKeepsPushInv(w, steps);
    hide Exec, Valid;
    var w' := Exec(w, steps);
    forall r | r in w'.local.log[..w'.ledger.push]
      ensures || r.id in w'.ledger.pulled || r.id in w'.ledger.heldBack || r.id in w'.refused
              || (r.id in w'.acked && r.id in OnGlobal(w'.ledger, r.schema))
    {
      var i :| 0 <= i < w'.ledger.push && w'.local.log[i] == r;
      assert CoveredId(w', w'.local.log[i].id);
    }
  }

  /** What a step may send: nothing, or one record stored here that reads see, nothing withholds, and no pull
    * brought. */
  lemma StepSendsOnlyOwnPushable(w: World, step: Step)
    requires PushInv(w)
    ensures Next(w, step).sent != w.sent ==>
      exists r :: && r in w.local.log && Next(w, step).sent == w.sent + [r.id]
                  && Pushable(w.local, r) && r.id !in w.ledger.pulled
  {
    hide Valid, Send, Pushable;
    if step.TickStep? {
      match w.batch
      case Retrying(waiting) =>
        if waiting != [] {
          assert waiting[0] in waiting;
          var r := Find(w.local.log, waiting[0]).value;
          SendCovers(w, r, step.reply);
        }
      case Walking(rows, position, more) =>
        if rows != [] {
          WalkTail(w.local.log, position, |rows|);
          var r := rows[0].record;
          assert r in w.local.log;
          SendCovers(w, r, step.reply);
        }
      case _ =>
    }
  }

  /** The operations one tick performs on this KB's own database: none but in a pull. */
  function LocalOps(w: World, reply: Reply): seq<Op> {
    if !w.batch.Pulling? then []
    else
      var p := w.batch.pull;
      match p.phase
      case Registering => [OpRegister(p.schema)]
      case Labelling => [OpBeginPull(p.schema, reply.newTag)]
      case BringingBack => [OpBringIn(p.schema, OnGlobal(w.ledger, p.schema))]
      case Receiving =>
        if p.done < |p.page.items| && p.page.items[p.done].record.schema == p.schema && reply.outcome == Answered
        then [OpPutFiles(p.page.items[p.done].record.files), OpWrite(p.page.items[p.done].record)]
        else []
      case BringingIn => [OpBringIn(p.schema, p.fetched)]
      case _ => []
  }

  lemma ApplyTwo(kb: Kb, a: Op, b: Op)
    ensures ApplyAll(kb, [a]) == Apply(kb, a)
    ensures ApplyAll(kb, [a, b]) == Apply(Apply(kb, a), b)
  {
    assert [a][1..] == [] && [a, b][1..] == [b] && [b][1..] == [];
    assert ApplyAll(kb, [a, b]) == ApplyAll(Apply(kb, a), [b]);
  }

  lemma PullLocalOps(w: World, p: Pull, reply: Reply)
    requires w.batch == Pulling(p)
    ensures PullOne(w, p, reply).local == ApplyAll(w.local, LocalOps(w, reply))
    ensures w.ledger.pulled <= PullOne(w, p, reply).ledger.pulled && PullOne(w, p, reply).sent == w.sent
  {
    match p.phase
    case Registering => ApplyTwo(w.local, OpRegister(p.schema), OpPutFiles({}));
    case Labelling => ApplyTwo(w.local, OpBeginPull(p.schema, reply.newTag), OpPutFiles({}));
    case BringingBack => ApplyTwo(w.local, OpBringIn(p.schema, OnGlobal(w.ledger, p.schema)), OpPutFiles({}));
    case Receiving =>
      if p.done < |p.page.items| {
        var r := p.page.items[p.done].record;
        ApplyTwo(w.local, OpPutFiles(r.files), OpWrite(r));
      }
    case BringingIn => ApplyTwo(w.local, OpBringIn(p.schema, p.fetched), OpPutFiles({}));
    case _ =>
  }

  lemma TickLocalOps(w: World, reply: Reply)
    ensures Tick(w, reply).local == ApplyAll(w.local, LocalOps(w, reply))
    ensures w.ledger.pulled <= Tick(w, reply).ledger.pulled && w.sent <= Tick(w, reply).sent
  {
    match w.batch
    case Pulling(p) => PullLocalOps(w, p, reply);
    case Retrying(waiting) =>
      if waiting != [] && Find(w.local.log, waiting[0]).Some? {
        SendCovers(w, Find(w.local.log, waiting[0]).value, reply);
      }
    case Walking(rows, position, more) =>
      if rows != [] { SendCovers(w, rows[0].record, reply); }
    case _ =>
  }

  lemma StepKeepsPulled(w: World, step: Step)
    ensures w.ledger.pulled <= Next(w, step).ledger.pulled
    ensures w.sent <= Next(w, step).sent
  {
    if step.TickStep? { TickLocalOps(w, step.reply); }
  }

  lemma TailsChain(a: seq<Id>, b: seq<Id>, c: seq<Id>, id: Id)
    requires a <= b <= c && id !in b[|a|..] && id !in c[|b|..]
    ensures a <= c && id !in c[|a|..]
  {
    assert c[|a|..] == b[|a|..] + c[|b|..];
  }

  /** No echo: once a pull has brought a record here, no later push sends it, through rebinds, cursor resets, retries
    * of what was held back, and stops. */
  lemma {:induction false} NoEcho(w: World, steps: seq<Step>, id: Id)
    requires PushInv(w) && id in w.ledger.pulled
    ensures w.sent <= Exec(w, steps).sent
    ensures id !in Exec(w, steps).sent[|w.sent|..]
    decreases |steps|
  {
    hide Valid, PushInv, Next;
    if steps != [] {
      var mid := Next(w, steps[0]);
      StepKeepsPulled(w, steps[0]);
      StepSendsOnlyOwnPushable(w, steps[0]);
      StepKeepsPushInv(w, steps[0]);
      NoEcho(mid, steps[1..], id);
      TailsChain(w.sent, mid.sent, Exec(w, steps).sent, id);
    }
  }

  /** What a step does to the history of exclusions here: nothing, or what one operation on this KB does. */
  lemma WithheldThroughAStep(w: World, step: Step, r: Record)
    requires PushInv(w) && r in w.local.log && Withheld(StateOf(w.local, r.schema).history, r.id)
    requires step != LocalOp(OpInclude(r.id))
    ensures r in Next(w, step).local.log && Withheld(StateOf(Next(w, step).local, r.schema).history, r.id)
  {
    match step
    case LocalOp(op) => WithheldUntilIncluded(w.local, op, r); ApplyKeepsValid(w.local, op);
    case TickStep(reply) =>
      TickLocalOps(w, reply);
      WithheldThroughARun(w.local, LocalOps(w, reply), r);
      RunsKeepValid(w.local, LocalOps(w, reply));
    case _ =>
  }

  /** Withholding: between an exclude of a record and the next include of it, no push sends it, whatever labels,
    * restores, pulls, writes, rebinds and stops happen, and even if a restore makes it visible again. */
  lemma {:induction false} NothingWithheldIsSent(w: World, steps: seq<Step>, r: Record)
    requires PushInv(w) && r in w.local.log && Withheld(StateOf(w.local, r.schema).history, r.id)
    requires LocalOp(OpInclude(r.id)) !in steps
    ensures w.sent <= Exec(w, steps).sent
    ensures r.id !in Exec(w, steps).sent[|w.sent|..]
    decreases |steps|
  {
    hide Next;
    if steps != [] {
      assert steps[0] in steps;
      var mid := Next(w, steps[0]);
      StepKeepsPulled(w, steps[0]);
      StepSendsOnlyOwnPushable(w, steps[0]);
      if mid.sent != w.sent {
        var x :| x in w.local.log && mid.sent == w.sent + [x.id] && Pushable(w.local, x) && x.id !in w.ledger.pulled;
        if x.id == r.id { SameIdSameRecord(w.local.log, x, r); }
      }
      StepKeepsPushInv(w, steps[0]);
      WithheldThroughAStep(w, steps[0], r);
      NothingWithheldIsSent(mid, steps[1..], r);
      TailsChain(w.sent, mid.sent, Exec(w, steps).sent, r.id);
    }
  }

  /** The same from the exclude itself. */
  lemma ExcludedIsNotSent(w: World, steps: seq<Step>, r: Record, reason: string)
    requires PushInv(w) && r in w.local.log && LocalOp(OpInclude(r.id)) !in steps
    ensures var excluded := Next(w, LocalOp(OpExclude(r.id, reason)));
            excluded.sent == w.sent <= Exec(excluded, steps).sent && r.id !in Exec(excluded, steps).sent[|w.sent|..]
  {
    var op := OpExclude(r.id, reason);
    WithheldUntilIncluded(w.local, op, r);
    StepKeepsPushInv(w, LocalOp(op));
    ApplyKeepsValid(w.local, op);
    NothingWithheldIsSent(Next(w, LocalOp(op)), steps, r);
  }
}
