/** Push and pull between this KB and a global KB, as the transactions and requests they are made of.
  *
  * A batch is a little machine: `Tick` performs its next transaction or request. Between two ticks anyone may change
  * either KB, the process may stop, and the KB that answers at the global URL may be replaced. Only one batch runs at
  * a time. Four things are one step: an export (its rows and its `state`), writing a pulled record and marking it
  * pulled, deciding that a record may be pushed and sending it, and sending a record with the files it names.
  */
module Sync {
  import opened Prelude
  import opened Log
  import opened KbState
  import Ordering

  const SYNC_BATCH: nat := 100

  /** A KB as seen over the network: its database, the Experiences it pulled itself, and its identity. */
  datatype Remote = Remote(kb: Kb, pulled: set<Id>, identity: string)

  /** Where a pull resumes, and the Experience it found there. */
  datatype Cursor = Cursor(position: nat, anchor: Id)

  const ORIGIN: Cursor := Cursor(0, "")

  /** What this KB knows of the global KB at its URL; `pulled` is kept for all of them. */
  datatype Ledger = Ledger(
    identity: string,
    push: nat,
    pull: map<Schema, Cursor>,
    pulled: set<Id>,
    heldBack: set<Id>,
    onGlobal: map<Schema, set<Id>>,
    remembered: map<Schema, Digest>,
    inProgress: set<Schema>)

  function PullCursor(l: Ledger, schema: Schema): Cursor {
    if schema in l.pull then l.pull[schema] else ORIGIN
  }

  function OnGlobal(l: Ledger, schema: Schema): set<Id> {
    if schema in l.onGlobal then l.onGlobal[schema] else {}
  }

  function NoteOnGlobal(l: Ledger, schema: Schema, ids: set<Id>): Ledger {
    l.(onGlobal := l.onGlobal[schema := OnGlobal(l, schema) + ids])
  }

  /** Nothing is known of any global KB. */
  predicate KnowsNothing(l: Ledger) {
    && l.identity == "" && l.push == 0 && l.pull == map[] && l.heldBack == {}
    && l.onGlobal == map[] && l.remembered == map[] && l.inProgress == {}
  }

  /** Drop all that is known of the global KB; what was pulled stays pulled. */
  function Forget(l: Ledger): Ledger {
    Ledger("", 0, map[], l.pulled, {}, map[], map[], {})
  }

  // ---- the network ----

  /** How a request ends; a dropped write may have been stored before its answer was lost. */
  datatype Outcome = Answered | Denied | Dropped(stored: bool)

  /** One request's outcome, and the unique id a label made in the same step takes. */
  datatype Reply = Reply(outcome: Outcome, newTag: LabelId)

  /** One page of an export: the rows shown, where to resume, and the state they were shown under. */
  datatype Export = Export(items: seq<Row>, next: nat, more: bool, afterId: Id, nextId: Id, state: Digest)

  /** Whether an export under `state` shows `r`: the KB did not pull it itself and its reads see it. */
  predicate Shown(pulled: set<Id>, state: Digest, r: Record) {
    r.id !in pulled && r.id !in state.ids && r.id !in state.excluded
  }

  function ShownRows(rows: seq<Row>, pulled: set<Id>, state: Digest): seq<Row> {
    if rows == [] then []
    else (if Shown(pulled, state, rows[0].record) then [rows[0]] else []) + ShownRows(rows[1..], pulled, state)
  }

  function ExportOf(remote: Remote, schema: Schema, after: nat): Export {
    var page := RecordsAfter(remote.kb.log, Some(schema), after, SYNC_BATCH);
    var state := HiddenDigest(remote.kb, schema);
    Export(ShownRows(page.rows, remote.pulled, state), page.next, page.more,
           WrittenAt(remote.kb.log, after), WrittenAt(remote.kb.log, page.next), state)
  }

  /** What the global KB does with a record sent to it: take its files, register its schema, write it. */
  function Deliver(kb: Kb, r: Record): Written {
    Write(PutFiles(Register(kb, r.schema), r.files), r)
  }

  // ---- a batch in progress ----

  datatype Phase =
    | Resetting | Registering | Labelling | BringingBack | Receiving
    | Noting | BringingIn | Advancing | Remembering | Marking

  datatype Pull = Pull(
    schema: Schema,
    source: Remote,       // the global KB the page was read from, which no code reads again
    page: Export,
    start: Cursor,        // the cursor the page was read after
    lost: bool,           // the global KB no longer holds what this KB pulled at its cursor
    phase: Phase,
    done: nat,            // items handled
    reached: Cursor,      // the last item handled
    fetched: set<Id>,
    failed: bool)

  datatype Batch =
    | Idle
    | Retrying(waiting: seq<Id>)
    | Walking(rows: seq<Row>, position: nat, more: bool)
    | Fetching(schema: Schema)
    | Refetching(schema: Schema, lost: bool)
    | Pulling(pull: Pull)

  /** Both KBs, the ledger, the batch, and history no code reads: every id ever sent, what the global KB accepted or
    * refused since the push cursor last stood at 0, what pulls rejected since the last rebind, and the schemas a
    * local restore changed since their last pull began. */
  datatype World = World(
    local: Kb,
    remote: Remote,
    ledger: Ledger,
    batch: Batch,
    sent: seq<Id>,
    acked: set<Id>,
    refused: set<Id>,
    rejected: set<Id>,
    disturbed: set<Schema>)

  // ---- push ----

  datatype Sending = Sending(world: World, stop: bool)

  function Send(w: World, r: Record, reply: Reply): Sending {
    var asked := w.(sent := w.sent + [r.id]);
    var taken := asked.(remote := w.remote.(kb := Deliver(w.remote.kb, r).kb));
    match reply.outcome
    case Dropped(stored) => Sending(if stored then taken else asked, true)
    case Denied => Sending(asked.(refused := w.refused + {r.id}), false)
    case Answered =>
      if Deliver(w.remote.kb, r).status in {Created, Unchanged}
      then Sending(taken.(ledger := NoteOnGlobal(w.ledger, r.schema, {r.id}), acked := w.acked + {r.id}), false)
      else Sending(taken.(refused := w.refused + {r.id}), false)
  }

  function Release(w: World, id: Id): World {
    w.(ledger := w.ledger.(heldBack := w.ledger.heldBack - {id}))
  }

  /** Offer the next Experience held back; one that still may not be pushed keeps waiting. */
  function RetryOne(w: World, waiting: seq<Id>, reply: Reply): World
    requires waiting != []
  {
    match Find(w.local.log, waiting[0])
    case None => w.(batch := Idle)
    case Some(r) =>
      if !Pushable(w.local, r) then w.(batch := Retrying(waiting[1..]))
      else
        var sending := Send(w, r, reply);
        if sending.stop then sending.world.(batch := Idle)
        else Release(sending.world, r.id).(batch := Retrying(waiting[1..]))
  }

  function SetPush(w: World, position: nat): World {
    w.(ledger := w.ledger.(push := position), batch := Idle)
  }

  /** Handle the next record after the push cursor: skip a pulled one, hold back one that may not be pushed. */
  function WalkOne(w: World, rows: seq<Row>, position: nat, more: bool, reply: Reply): World
    requires rows != []
  {
    var r := rows[0].record;
    var onward := Walking(rows[1..], rows[0].position, more);
    if r.id in w.ledger.pulled then w.(batch := onward)
    else if !Pushable(w.local, r)
    then w.(ledger := w.ledger.(heldBack := w.ledger.heldBack + {r.id}), batch := onward)
    else
      var sending := Send(w, r, reply);
      if sending.stop then SetPush(sending.world, position) else sending.world.(batch := onward)
  }

  function StartWalk(w: World): World {
    var page := RecordsAfter(w.local.log, None, w.ledger.push, SYNC_BATCH);
    w.(batch := Walking(page.rows, w.ledger.push, page.more))
  }

  // ---- pull ----

  function OpenPull(remote: Remote, schema: Schema, start: Cursor, lost: bool): Batch {
    Pulling(Pull(schema, remote, ExportOf(remote, schema, start.position), start, lost, Resetting, 0, start, {}, false))
  }

  /** The first page of a batch: when the cursor is lost or the global KB's state moved, page from the start again. */
  function FetchOne(w: World, schema: Schema, reply: Reply): World {
    if reply.outcome != Answered || schema !in w.remote.kb.schemas then w.(batch := Idle)
    else
      var cursor := PullCursor(w.ledger, schema);
      var page := ExportOf(w.remote, schema, cursor.position);
      var lost := cursor.position != 0 && page.afterId != cursor.anchor;
      var moved := cursor.position != 0 && (schema !in w.ledger.remembered ||
        page.state != w.ledger.remembered[schema]);
      if lost || moved then w.(batch := Refetching(schema, lost))
      else w.(batch := OpenPull(w.remote, schema, cursor, false))
  }

  function RefetchOne(w: World, schema: Schema, lost: bool, reply: Reply): World {
    if reply.outcome != Answered || schema !in w.remote.kb.schemas then w.(batch := Idle)
    else w.(batch := OpenPull(w.remote, schema, ORIGIN, lost))
  }

  /** Write one exported record here with its files, unless it is refused or its files cannot be fetched yet. */
  function ReceiveOne(w: World, p: Pull, reply: Reply): World
    requires p.done < |p.page.items|
  {
    var r := p.page.items[p.done].record;
    var onward := p.(done := p.done + 1, reached := Cursor(p.page.items[p.done].position, r.id));
    if r.schema != p.schema || reply.outcome == Denied
    then w.(rejected := w.rejected + {r.id}, batch := Pulling(onward))
    else if reply.outcome.Dropped? then w.(batch := Pulling(p.(phase := Noting, failed := true)))
    else
      var written := Write(PutFiles(w.local, r.files), r);
      var stored := w.(local := written.kb);
      match written.status
      case Created =>
        stored.(ledger := w.ledger.(pulled := w.ledger.pulled + {r.id}),
                batch := Pulling(onward.(fetched := p.fetched + {r.id})))
      case Unchanged => stored.(batch := Pulling(onward.(fetched := p.fetched + {r.id})))
      case _ => stored.(rejected := w.rejected + {r.id}, batch := Pulling(onward))
  }

  /** Where the next batch resumes: past the page, or past the last item handled before a failure. */
  function Target(p: Pull): Cursor {
    if p.failed then p.reached else Cursor(p.page.next, p.page.nextId)
  }

  function PullOne(w: World, p: Pull, reply: Reply): World {
    match p.phase
    case Resetting =>
      // What the global KB lost may include what was pushed to it, so the next push sends everything again.
      var reset := if p.lost then w.(ledger := w.ledger.(push := 0), acked := {}, refused := {}) else w;
      reset.(batch := Pulling(p.(phase := Registering)))
    case Registering =>
      var next := if p.schema in w.ledger.inProgress then Receiving else Labelling;
      w.(local := Register(w.local, p.schema), batch := Pulling(p.(phase := next)))
    case Labelling =>
      (match SaveIfModified(w.local, p.schema, reply.newTag)
       case None => w.(batch := Idle)
       case Some(kept) => w.(local := kept, batch := Pulling(p.(phase := BringingBack))))
    case BringingBack =>
      w.(local := BringIn(w.local, p.schema, OnGlobal(w.ledger, p.schema)),
         disturbed := w.disturbed - {p.schema},
         batch := Pulling(p.(phase := Receiving)))
    case Receiving =>
      if p.done == |p.page.items| then w.(batch := Pulling(p.(phase := Noting)))
      else if p.done > |p.page.items| then w.(batch := Idle)
      else ReceiveOne(w, p, reply)
    case Noting =>
      w.(ledger := NoteOnGlobal(w.ledger, p.schema, p.fetched), batch := Pulling(p.(phase := BringingIn)))
    case BringingIn =>
      w.(local := BringIn(w.local, p.schema, p.fetched), batch := Pulling(p.(phase := Advancing)))
    case Advancing =>
      w.(ledger := w.ledger.(pull := w.ledger.pull[p.schema := Target(p)]), batch := Pulling(p.(phase := Remembering)))
    case Remembering =>
      w.(ledger := w.ledger.(remembered := w.ledger.remembered[p.schema := p.page.state]),
         batch := Pulling(p.(phase := Marking)))
    case Marking =>
      var marked := if p.failed || p.page.more then w.ledger.inProgress + {p.schema}
        else w.ledger.inProgress - {p.schema};
      w.(ledger := w.ledger.(inProgress := marked), batch := Idle)
  }

  // ---- steps ----

  /** The next transaction or request of the batch in progress. */
  function Tick(w: World, reply: Reply): World {
    match w.batch
    case Idle => w
    case Retrying(waiting) => if waiting == [] then StartWalk(w) else RetryOne(w, waiting, reply)
    case Walking(rows, position, more) =>
      if rows == [] then SetPush(w, position) else WalkOne(w, rows, position, more, reply)
    case Fetching(schema) => FetchOne(w, schema, reply)
    case Refetching(schema, lost) => RefetchOne(w, schema, lost, reply)
    case Pulling(p) => PullOne(w, p, reply)
  }

  /** Whether the KB that answers may be synced with: it names itself, and is the one synced with before. */
  predicate Accepts(w: World, reply: Reply) {
    && reply.outcome == Answered && w.remote.identity != ""
    && (w.ledger.identity == "" || w.ledger.identity == w.remote.identity)
  }

  function BeginPush(w: World, reply: Reply): World {
    if w.batch != Idle || !Accepts(w, reply) then w
    else w.(ledger := w.ledger.(identity := w.remote.identity),
            batch := Retrying(Ordering.Sorted(w.ledger.heldBack)))
  }

  function BeginPull(w: World, schema: Schema, reply: Reply): World {
    if w.batch != Idle || !Accepts(w, reply) then w
    else w.(ledger := w.ledger.(identity := w.remote.identity), batch := Fetching(schema))
  }

  function Rebind(w: World): World {
    if w.batch != Idle then w
    else w.(ledger := Forget(w.ledger), acked := {}, refused := {}, rejected := {}, disturbed := {})
  }

  /** The schema whose state a local operation restores, if it does. */
  function Restores(kb: Kb, op: Op): set<Schema> {
    if op.OpRestore? && op.tag in kb.labels then {kb.labels[op.tag].schema} else {}
  }

  /** A record the global KB pulls from elsewhere: written and marked, so that it never exports it. */
  function PulledByRemote(remote: Remote, r: Record): Remote {
    var written := Write(PutFiles(remote.kb, r.files), r);
    remote.(kb := written.kb, pulled := remote.pulled + if written.status == Created then {r.id} else {})
  }

  datatype Step =
    | LocalOp(op: Op)
    | RemoteOp(op: Op)
    | RemotePulls(record: Record)
    | StartPush(reply: Reply)
    | StartPull(schema: Schema, reply: Reply)
    | TickStep(reply: Reply)
    | RebindStep
    | Crash
    | Replace(remote: Remote)

  function Next(w: World, step: Step): World {
    match step
    case LocalOp(op) => w.(local := Apply(w.local, op), disturbed := w.disturbed + Restores(w.local, op))
    case RemoteOp(op) => w.(remote := w.remote.(kb := Apply(w.remote.kb, op)))
    case RemotePulls(r) => w.(remote := PulledByRemote(w.remote, r))
    case StartPush(reply) => BeginPush(w, reply)
    case StartPull(schema, reply) => BeginPull(w, schema, reply)
    case TickStep(reply) => Tick(w, reply)
    case RebindStep => Rebind(w)
    case Crash => w.(batch := Idle)
    case Replace(remote) => w.(remote := remote)
  }

  function Exec(w: World, steps: seq<Step>): World
    decreases |steps|
  {
    if steps == [] then w else Exec(Next(w, steps[0]), steps[1..])
  }
}
