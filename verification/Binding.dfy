/** Which global KB is synced with: the one bound by the first sync, until a rebind, and no other. */
module Binding {
  import opened Prelude
  import opened Log
  import opened KbState
  import opened Sync
  import opened PushSafety

  /** Whether the KB that answers is not the one to sync with. */
  ghost predicate Foreign(w: World) {
    w.remote.identity == "" || (w.ledger.identity != "" && w.remote.identity != w.ledger.identity)
  }

  /** A push or pull begins exactly when none is under way and the KB that answers is not foreign; it binds to that KB
    * and changes nothing else. */
  lemma BeginsIff(w: World, schema: Schema, reply: Reply)
    requires w.batch == Idle
    ensures var pushing, pulling := Next(w, StartPush(reply)), Next(w, StartPull(schema, reply));
            if reply.outcome == Answered && !Foreign(w) then
              && pushing == w.(ledger := w.ledger.(identity := w.remote.identity), batch := pushing.batch)
              && pulling == w.(ledger := w.ledger.(identity := w.remote.identity), batch := Fetching(schema))
              && pushing.batch.Retrying? && (forall id :: id in pushing.batch.waiting <==> id in w.ledger.heldBack)
            else pushing == w == pulling
  {
  }

  /** A bound identity changes by a rebind only. */
  lemma StepKeepsBinding(w: World, step: Step)
    requires w.ledger.identity != "" && !step.RebindStep?
    ensures Next(w, step).ledger.identity == w.ledger.identity
  {
    hide Valid, Apply, Deliver, Write, ExportOf, SaveIfModified, BringIn, Pushable, RecordsAfter, Register;
    if step.TickStep? { TickKeepsBinding(w, step.reply); }
  }

  lemma SendKeepsBinding(w: World, r: Record, reply: Reply)
    ensures Send(w, r, reply).world.ledger.identity == w.ledger.identity
  {
    hide Deliver;
  }

  lemma PullKeepsBinding(w: World, p: Pull, reply: Reply)
    ensures PullOne(w, p, reply).ledger.identity == w.ledger.identity
  {
    hide Write, SaveIfModified, BringIn, Register;
  }

  lemma TickKeepsBinding(w: World, reply: Reply)
    ensures Tick(w, reply).ledger.identity == w.ledger.identity
  {
    hide Send, PullOne, ExportOf, Pushable, RecordsAfter;
    match w.batch
    case Retrying(waiting) =>
      if waiting != [] && Find(w.local.log, waiting[0]).Some? {
        SendKeepsBinding(w, Find(w.local.log, waiting[0]).value, reply);
      }
    case Walking(rows, position, more) => if rows != [] { SendKeepsBinding(w, rows[0].record, reply); }
    case Pulling(p) => PullKeepsBinding(w, p, reply);
    case _ =>
  }

  lemma {:induction false} BoundUntilRebind(w: World, steps: seq<Step>)
    requires w.ledger.identity != "" && RebindStep !in steps
    ensures Exec(w, steps).ledger.identity == w.ledger.identity
    decreases |steps|
  {
    hide Next;
    if steps != [] {
      assert steps[0] in steps;
      StepKeepsBinding(w, steps[0]);
      BoundUntilRebind(Next(w, steps[0]), steps[1..]);
    }
  }

  /** While a foreign KB answers, no run without a rebind sends anything, brings anything, or changes what is known. */
  lemma {:induction false} NothingIsSyncedWithAForeignKb(w: World, steps: seq<Step>)
    requires w.batch == Idle && Foreign(w) && RebindStep !in steps
    requires forall remote :: Replace(remote) !in steps
    ensures var end := Exec(w, steps);
            end.sent == w.sent && end.ledger == w.ledger && end.batch == Idle && Foreign(end)
    decreases |steps|
  {
    hide Apply, Write;
    if steps != [] {
      assert steps[0] in steps;
      var mid := Next(w, steps[0]);
      if steps[0].StartPush? || steps[0].StartPull? {
        BeginsIff(w, if steps[0].StartPull? then steps[0].schema else "", steps[0].reply);
      }
      assert mid.sent == w.sent && mid.ledger == w.ledger && mid.batch == Idle && Foreign(mid);
      NothingIsSyncedWithAForeignKb(mid, steps[1..]);
    }
  }

  /** A rebind forgets all about the global KB, but not what was pulled; from then on any KB that names itself will do,
    * and a push offers every record again. */
  lemma RebindStartsOver(w: World)
    requires w.batch == Idle
    ensures var after := Next(w, RebindStep);
            && KnowsNothing(after.ledger) && after.ledger.pulled == w.ledger.pulled
            && after.local == w.local && after.remote == w.remote && after.sent == w.sent && after.batch == Idle
            && after.acked == {} && after.refused == {} && after.rejected == {} && after.disturbed == {}
            && (Foreign(after) <==> w.remote.identity == "")
  {
  }
}
