/** A run in which the process stops between saving a pull's cursor and saving the state its page was shown under, and a
  * record is lost for good: the later pull that should bring it ends complete without it.
  */
module StoppedPull {
  import opened Prelude
  import opened Log
  import opened KbState
  import opened Sync
  import opened PushSafety
  import opened PullSafety
  import opened PullSteps
  import opened PullTheorems
  import opened SyncLoop
  import opened GlobalSync

  const S: Schema := "s"
  const A: Record := Record("a", S, "", {}, true)
  const B: Record := Record("b", S, "", {}, true)

  const SHOWS: Digest := Digest({}, {})
  const HIDES: Digest := Digest({}, {"b"})

  function StateAt(version: nat): SchemaState {
    SchemaState({}, map[], [], None, version)
  }

  /** The global KB at first, and after it wrote B and excluded it. */
  const FIRST: Remote := Remote(Kb([A], {}, map[S := StateAt(1)], map[]), {}, "global")
  const HIDING: Remote :=
    Remote(Kb([A, B], {}, map[S := SchemaState({}, map["b" := ""], [Entry("b", Excluding)], None, 3)], map[]), {},
      "global")

  /** Both KBs hold A, and have never synced. */
  const START: World :=
    World(Kb([A], {}, map[S := StateAt(1)], map[]), FIRST, Ledger("", 0, map[], {}, {}, map[], map[], {}), Idle, [],
      {}, {}, {}, {})

  // ---- several ticks at once ----

  function Ticks(w: World, reply: Reply, n: nat): World
    decreases n
  {
    if n == 0 then w else Ticks(Tick(w, reply), reply, n - 1)
  }

  function TickSteps(reply: Reply, n: nat): seq<Step> {
    if n == 0 then [] else [TickStep(reply)] + TickSteps(reply, n - 1)
  }

  lemma {:induction false} TicksAreSteps(w: World, reply: Reply, n: nat)
    ensures Exec(w, TickSteps(reply, n)) == Ticks(w, reply, n)
    decreases n
  {
    hide Tick;
    if n > 0 {
      assert TickSteps(reply, n)[1..] == TickSteps(reply, n - 1);
      TicksAreSteps(Tick(w, reply), reply, n - 1);
    }
  }

  lemma {:induction false} ExecConcat(w: World, a: seq<Step>, b: seq<Step>)
    ensures Exec(w, a + b) == Exec(Exec(w, a), b)
    decreases |a|
  {
    hide Next;
    if a == [] {
      assert a + b == b;
    } else {
      assert (a + b)[1..] == a[1..] + b;
      ExecConcat(Next(w, a[0]), a[1..], b);
    }
  }

  // ---- a pull that finds A, which is here already ----

  /** This KB: A is all it stores. */
  ghost predicate OnlyA(kb: Kb) {
    kb.log == [A] && S in kb.schemas
  }

  ghost predicate FindsA(p: Pull) {
    && p.schema == S && p.page.items == [Row(1, A)] && p.done == 0 && !p.failed && !p.lost && p.fetched == {}
  }

  lemma FindA()
    ensures Find([A], "a") == Some(A)
  {
  }

  /** What the pull leaves when it has saved its cursor, and not yet the state its page was shown under. */
  ghost predicate Paused(w: World, p: Pull, tag: LabelId, w': World) {
    && w'.batch == Pulling(p.(phase := Remembering, done := 1, reached := Cursor(1, "a"), fetched := {"a"}))
    && w'.ledger == NoteOnGlobal(w.ledger, S, {"a"}).(pull := w.ledger.pull[S := Cursor(p.page.next, p.page.nextId)])
    && w'.remote == w.remote && w'.rejected == w.rejected && OnlyA(w'.local)
    && w'.local.labels.Keys <= w.local.labels.Keys + {tag}
  }

  /** From its opening to its first record. */
  lemma Opens(w: World, p: Pull, reply: Reply)
    requires w.batch == Pulling(p) && p.phase == Resetting && FindsA(p) && OnlyA(w.local) && S !in w.ledger.inProgress
    requires reply.outcome == Answered && reply.newTag !in w.local.labels
    ensures var w' := Ticks(w, reply, 4);
            && w'.batch == Pulling(p.(phase := Receiving)) && w'.ledger == w.ledger && w'.remote == w.remote
            && w'.rejected == w.rejected && OnlyA(w'.local)
            && w'.local.labels.Keys <= w.local.labels.Keys + {reply.newTag}
  {
    hide Ticks, Members, Modified;
    var w1 := w.(batch := Pulling(p.(phase := Registering)));
    var w2 := w1.(batch := Pulling(p.(phase := Labelling)));
    assert Tick(w, reply) == w1 && Tick(w1, reply) == w2;
    var kept := SaveIfModified(w.local, S, reply.newTag);
    assert kept.Some? && OnlyA(kept.value) && kept.value.labels.Keys <= w.local.labels.Keys + {reply.newTag};
    var w3 := w2.(local := kept.value, batch := Pulling(p.(phase := BringingBack)));
    assert Tick(w2, reply) == w3;
    FourTicks(w, reply);
  }

  lemma FourTicks(w: World, reply: Reply)
    ensures Ticks(w, reply, 4) == Tick(Tick(Tick(Tick(w, reply), reply), reply), reply)
  {
    hide Tick;
    var w1 := Tick(w, reply);
    var w2 := Tick(w1, reply);
    var w3 := Tick(w2, reply);
    TickFirst(w, reply, 4);
    TickFirst(w1, reply, 3);
    TickFirst(w2, reply, 2);
    TickFirst(w3, reply, 1);
  }

  /** From its first record to its saved cursor. */
  lemma Receives(w: World, p: Pull, reply: Reply)
    requires w.batch == Pulling(p) && p.phase == Receiving && FindsA(p) && OnlyA(w.local) && reply.outcome == Answered
    ensures Paused(w, p, reply.newTag, Ticks(w, reply, 5))
  {
    hide Ticks, Modified;
    FindA();
    var done := p.(done := 1, reached := Cursor(1, "a"), fetched := {"a"});
    var w1 := w.(batch := Pulling(done));
    assert PutFiles(w.local, {}) == w.local && {} + {"a"} == {"a"};
    assert ReceiveOne(w, p, reply) == w1;
    assert Tick(w, reply) == w1;
    Saves(w1, done, reply);
    TickFirst(w, reply, 5);
  }

  lemma TickFirst(w: World, reply: Reply, n: nat)
    requires n > 0
    ensures Ticks(w, reply, n) == Ticks(Tick(w, reply), reply, n - 1)
  {
  }

  lemma Saves(w: World, p: Pull, reply: Reply)
    requires w.batch == Pulling(p) && p.phase == Receiving && p.schema == S && p.done == |p.page.items| && !p.failed &&
             OnlyA(w.local)
    ensures var w' := Ticks(w, reply, 4);
            && w'.batch == Pulling(p.(phase := Remembering)) && w'.remote == w.remote && w'.rejected == w.rejected
            && w'.ledger == NoteOnGlobal(w.ledger, S, p.fetched).(pull := w.ledger.pull[S := Cursor(p.page.next,
              p.page.nextId)])
            && OnlyA(w'.local) && w'.local.labels == w.local.labels
  {
    hide Ticks;
    FourTicks(w, reply);
  }

  lemma PauseAfter(w: World, p: Pull, reply: Reply)
    requires w.batch == Pulling(p) && p.phase == Resetting && FindsA(p) && OnlyA(w.local) && S !in w.ledger.inProgress
    requires reply.outcome == Answered && reply.newTag !in w.local.labels
    ensures Paused(w, p, reply.newTag, Ticks(w, reply, 9))
  {
    hide Tick, OnlyA, NoteOnGlobal;
    Opens(w, p, reply);
    var w' := Ticks(w, reply, 4);
    Receives(w', p.(phase := Receiving), reply);
    TicksConcat(w, reply, 4, 5);
  }

  lemma {:induction false} TicksConcat(w: World, reply: Reply, a: nat, b: nat)
    ensures Ticks(Ticks(w, reply, a), reply, b) == Ticks(w, reply, a + b)
    decreases a
  {
    hide Tick;
    if a > 0 { TicksConcat(Tick(w, reply), reply, a - 1, b); }
  }

  // ---- what the global KB exports ----

  lemma FirstExports()
    ensures RemoteOk(FIRST) && ExportOf(FIRST, S, 0) == Export([Row(1, A)], 1, false, "", "a", SHOWS)
  {
    var log := [A];
    assert A in log && StoredOf(log, S) == {"a"};
    assert Rows(log, Some(S), 0, 0) == [];
    var rows := Rows(log, Some(S), 0, 1);
    assert rows == [Row(1, A)] && rows[1..] == [];
    assert ShownRows(rows[1..], {}, SHOWS) == [];
    assert ShownRows(rows, {}, SHOWS) == [Row(1, A)];
    assert HiddenDigest(FIRST.kb, S) == SHOWS;
  }

  lemma HidingExports()
    ensures ExportOf(HIDING, S, 0) == Export([Row(1, A)], 2, false, "", "b", HIDES)
  {
    var log := [A, B];
    assert Rows(log, Some(S), 0, 0) == [];
    assert Rows(log, Some(S), 0, 1) == [Row(1, A)];
    var rows := Rows(log, Some(S), 0, 2);
    assert rows == [Row(1, A), Row(2, B)];
    assert rows[1..] == [Row(2, B)];
    assert ShownRows(rows[1..][1..], {}, HIDES) == [];
    assert ShownRows(rows[1..], {}, HIDES) == [];
    assert ShownRows(rows, {}, HIDES) == [Row(1, A)];
    assert HiddenDigest(HIDING.kb, S) == HIDES;
  }

  // ---- the run ----

  const T: Reply := Reply(Answered, "t")
  const U: Reply := Reply(Answered, "u")

  /** What the ledger knows after the first pull. */
  const KNOWN: Ledger := Ledger("global", 0, map[S := Cursor(1, "a")], {}, {}, map[S := {"a"}], map[S := SHOWS], {})

  ghost predicate AfterFirst(w: World) {
    && w.batch == Idle && w.ledger == KNOWN && w.remote == FIRST && w.rejected == {} && OnlyA(w.local)
    && w.local.labels.Keys <= {"t"}
  }

  /** The first pull runs to its end. */
  lemma FirstPull()
    ensures AfterFirst(Ticks(Next(START, StartPull(S, T)), T, 12))
  {
    hide Ticks, ExportOf;
    FirstExports();
    var w := Next(START, StartPull(S, T));
    var begun := w.(batch := OpenPull(FIRST, S, ORIGIN, false));
    assert Tick(w, T) == begun;
    PauseAfter(begun, begun.batch.pull, T);
    TickFirst(w, T, 12);
    TicksConcat(begun, T, 9, 2);
    assert {} + {"a"} == {"a"};
    assert NoteOnGlobal(w.ledger, S, {"a"}).onGlobal == map[S := {"a"}];
    assert w.ledger.pull[S := Cursor(1, "a")] == map[S := Cursor(1, "a")];
    EndsFirst(Ticks(begun, T, 9));
  }

  lemma EndsFirst(w: World)
    requires w.batch.Pulling? && w.batch.pull.phase == Remembering && w.batch.pull.schema == S && !w.batch.pull.failed
    requires w.batch.pull.page.state == SHOWS && !w.batch.pull.page.more && w.remote == FIRST && w.rejected == {}
    requires w.ledger == KNOWN.(remembered := map[]) && OnlyA(w.local) && w.local.labels.Keys <= {"t"}
    ensures AfterFirst(Ticks(w, T, 2))
  {
    hide Ticks, OnlyA;
    TickFirst(w, T, 2);
    TickFirst(Tick(w, T), T, 1);
    NoTicks(Tick(Tick(w, T), T), T);
    assert {} - {S} == {};
  }

  lemma NoTicks(w: World, reply: Reply)
    ensures Ticks(w, reply, 0) == w
  {
  }

  /** The global KB writes B and excludes it. */
  lemma Hidden(w: World)
    requires AfterFirst(w)
    ensures Next(Next(w, RemoteOp(OpWrite(B))), RemoteOp(OpExclude("b", ""))) == w.(remote := HIDING)
  {
    hide Tick, OnlyA;
    var kb1 := Kb([A, B], {}, map[S := StateAt(2)], map[]);
    assert Find([A], "b") == None;
    assert [A] + [B] == [A, B];
    assert Write(FIRST.kb, B).kb == kb1;
    assert Find([A, B], "b") == Some(B);
    var excluded := SchemaState({}, map["b" := ""], [Entry("b", Excluding)], None, 3);
    assert map[]["b" := ""] == map["b" := ""] && [] + [Entry("b", Excluding)] == [Entry("b", Excluding)];
    assert map[S := StateAt(2)][S := excluded] == map[S := excluded];
    assert ExcludeId(kb1, "b", "") == HIDING.kb;
  }

  /** The second pull finds the state moved and starts over; it stands where its cursor is saved and its state is
    * not. */
  ghost predicate Stopping(w: World) {
    && w.batch.Pulling? && w.batch.pull.phase == Remembering && w.batch.pull.schema == S
    && w.batch.pull.page.state == HIDES
    && w.ledger == KNOWN.(pull := map[S := Cursor(2, "b")]) && w.remote == HIDING && w.rejected == {} && OnlyA(w.local)
    && w.local.labels.Keys <= {"t", "u"}
  }

  lemma SecondPull(w: World)
    requires AfterFirst(w)
    ensures Stopping(Ticks(Next(w.(remote := HIDING), StartPull(S, U)), U, 11))
  {
    hide Ticks, ExportOf, OnlyA;
    HidingExports();
    HidingAnchor();
    var w1 := w.(remote := HIDING, batch := Fetching(S));
    var w2 := w1.(batch := Refetching(S, false));
    var w3 := w1.(batch := OpenPull(HIDING, S, ORIGIN, false));
    assert Next(w.(remote := HIDING), StartPull(S, U)) == w1;
    assert Tick(w1, U) == w2 && Tick(w2, U) == w3;
    TickFirst(w1, U, 11);
    TickFirst(w2, U, 10);
    PauseAfter(w3, w3.batch.pull, U);
    assert {"a"} + {"a"} == {"a"};
    assert NoteOnGlobal(KNOWN, S, {"a"}).onGlobal == map[S := {"a"}];
    assert KNOWN.pull[S := Cursor(2, "b")] == map[S := Cursor(2, "b")];
  }

  lemma HidingAnchor()
    ensures ExportOf(HIDING, S, 1).afterId == "a" && ExportOf(HIDING, S, 1).state == HIDES
  {
    hide RecordsAfter, ShownRows;
    assert HiddenDigest(HIDING.kb, S) == HIDES;
  }

  /** A stop there is not harmless: the cursor passed B, which the remembered state shows. */
  lemma StoppingIsHarmful(w: World)
    requires Stopping(w)
    ensures !StopIsHarmless(w)
  {
    hide Tick, ExportOf;
    assert w.remote.kb.log[1] == B;
    assert !Handled(w.(batch := Idle), S, "b", Strict(w.(batch := Idle), S));
  }

  /** The global KB, B included again. */
  const SHOWING: Kb :=
    Kb([A, B], {}, map[S := SchemaState({}, map[], [Entry("b", Excluding), Entry("b", Including)], None, 4)], map[])

  lemma ShownAgain()
    ensures IncludeId(HIDING.kb, "b") == SHOWING
    ensures var page := ExportOf(HIDING.(kb := SHOWING), S, 2);
            page.items == [] && !page.more && page.afterId == "b" && page.state == SHOWS
  {
    assert Find([A, B], "b") == Some(B);
    assert map["b" := ""] - {"b"} == map[] && {} - {"b"} == {};
    assert [Entry("b", Excluding)] + [Entry("b", Including)] == [Entry("b", Excluding), Entry("b", Including)];
    var included := SchemaState({}, map[], [Entry("b", Excluding), Entry("b", Including)], None, 4);
    assert HIDING.kb.schemas[S := included] == map[S := included];
    assert Rows([A, B], Some(S), 2, 2) == [];
    assert HiddenDigest(SHOWING, S) == SHOWS;
  }

  const V: Reply := Reply(Answered, "v")
  const ANSWERING: Network := _ => V

  /** The batch a pull runs to its end from `w` completes, with nothing left, and has not brought what is exported to
    * it. */
  ghost predicate Misses(w: World) {
    w.batch == Fetching(S)
    && (var run := RunBatch(w, ANSWERING, 0);
        run.report == Completed(false) && run.world.batch == Idle && !Brought(run.world, run.world.remote, S))
  }

  /** The third pull finds the state it remembers, resumes past B, and gets an empty last page. */
  lemma ThirdPull(w: World)
    requires Stopping(w)
    ensures Misses(Next(Next(Next(w, Crash), RemoteOp(OpInclude("b"))), StartPull(S, V)))
  {
    hide ExportOf, RunBatch, OnlyA;
    ShownAgain();
    var w1 := w.(batch := Fetching(S), remote := HIDING.(kb := SHOWING));
    assert Next(Next(Next(w, Crash), RemoteOp(OpInclude("b"))), StartPull(S, V)) == w1 by { hide Tick; }
    var w2 := w1.(batch := OpenPull(w1.remote, S, Cursor(2, "b"), false));
    assert Tick(w1, V) == w2;
    RunUnfolds(w1, ANSWERING, 0);
    hide Tick, Brought;
    EmptyPage(w2, w2.batch.pull);
  }

  /** What the transactions of a pull with an empty last page lead to. */
  lemma EmptyPage(w: World, p: Pull)
    requires w.batch == Pulling(p) && p.schema == S && p.phase == Resetting && !p.lost && !p.failed && p.fetched == {}
    requires p.page.items == [] && p.done == 0 && !p.page.more && S !in w.ledger.inProgress
    requires OnlyA(w.local) && "v" !in w.local.labels && w.remote == HIDING.(kb := SHOWING) && w.rejected == {}
    ensures var run := RunBatch(w, ANSWERING, 1);
            run.report == Completed(false) && run.world.batch == Idle && !Brought(run.world, run.world.remote, S)
  {
    hide RunBatch, Brought, Modified, Members, Target;
    var p1, p2 := p.(phase := Registering), p.(phase := Labelling);
    var w1 := w.(batch := Pulling(p1));
    ResetTick(w, p, ANSWERING, 1);
    RegisterTick(w1, p1, ANSWERING, 2);
    var w2 := w.(batch := Pulling(p2));
    LabelTick(w2, p2, ANSWERING, 3);
    var kept := SaveIfModified(w.local, S, "v").value;
    var p3 := p.(phase := BringingBack);
    var w3 := w.(local := kept, batch := Pulling(p3));
    BringBackTick(w3, p3, ANSWERING, 4);
    var back := BringIn(kept, S, OnGlobal(w.ledger, S));
    var p4 := p.(phase := Receiving);
    var w4 := w.(local := back, disturbed := w.disturbed - {S}, batch := Pulling(p4));
    ReceivedTick(w4, p4, ANSWERING, 5);
    EmptyEnd(w4.(batch := Pulling(p.(phase := Noting))), p.(phase := Noting));
  }

  lemma EmptyEnd(w: World, p: Pull)
    requires w.batch == Pulling(p) && p.schema == S && p.phase == Noting && !p.failed && !p.page.more
    requires OnlyA(w.local) && w.remote == HIDING.(kb := SHOWING) && w.rejected == {}
    ensures var run := RunBatch(w, ANSWERING, 6);
            run.report == Completed(false) && run.world.batch == Idle && !Brought(run.world, run.world.remote, S)
  {
    hide RunBatch, Target, NoteOnGlobal;
    var noted := NoteOnGlobal(w.ledger, S, p.fetched);
    var p1, p2 := p.(phase := BringingIn), p.(phase := Advancing);
    NoteTick(w, p, ANSWERING, 6);
    var w1 := w.(ledger := noted, batch := Pulling(p1));
    BringInTick(w1, p1, ANSWERING, 7);
    var w2 := w1.(local := BringIn(w.local, S, p.fetched), batch := Pulling(p2));
    SaveTicks(w2, p2, ANSWERING, 8);
    var run := RunBatch(w, ANSWERING, 6);
    assert run.world.local.log == [A] && run.world.remote.kb.log[1] == B && run.world.rejected == {};
    assert HiddenDigest(SHOWING, S) == SHOWS;
    NotBrought(run.world);
  }

  lemma NotBrought(w: World)
    requires w.local.log == [A] && w.remote == HIDING.(kb := SHOWING) && w.rejected == {}
    ensures !Brought(w, w.remote, S)
  {
    assert w.remote.kb.log[1] == B && B in w.remote.kb.log;
    assert HiddenDigest(SHOWING, S) == SHOWS;
    assert B !in w.local.log;
  }

  /** The steps up to the stop, and those after it. */
  function Before(): seq<Step> {
    [StartPull(S, T)] + TickSteps(T, 12) + [RemoteOp(OpWrite(B)), RemoteOp(OpExclude("b", "")), StartPull(S, U)] +
      TickSteps(U, 11)
  }

  function After(): seq<Step> {
    [Crash, RemoteOp(OpInclude("b")), StartPull(S, V)]
  }

  lemma RunsBefore()
    ensures Stopping(Exec(START, Before()))
  {
    hide Tick, Next, TickSteps, Stopping, AfterFirst, Ticks;
    var begun := Next(START, StartPull(S, T));
    var first := Ticks(begun, T, 12);
    FirstPull();
    Hidden(first);
    SecondPull(first);
    OneStep(START, StartPull(S, T));
    ExecConcat(START, [StartPull(S, T)], TickSteps(T, 12));
    TicksAreSteps(begun, T, 12);
    var start := [StartPull(S, T)] + TickSteps(T, 12);
    var between := [RemoteOp(OpWrite(B)), RemoteOp(OpExclude("b", "")), StartPull(S, U)];
    ThreeSteps(first, between);
    ExecConcat(START, start, between);
    var again := Next(first.(remote := HIDING), StartPull(S, U));
    TicksAreSteps(again, U, 11);
    ExecConcat(START, start + between, TickSteps(U, 11));
  }

  lemma OneStep(w: World, step: Step)
    ensures Exec(w, [step]) == Next(w, step)
  {
    hide Next;
    assert [step][1..] == [];
  }

  lemma ThreeSteps(w: World, steps: seq<Step>)
    requires |steps| == 3
    ensures Exec(w, steps) == Next(Next(Next(w, steps[0]), steps[1]), steps[2])
  {
    hide Next;
    assert steps[1..][1..][1..] == [];
    assert steps[1..][0] == steps[1] && steps[1..][1..][0] == steps[2];
    var w1 := Next(w, steps[0]);
    var w2 := Next(w1, steps[1]);
    assert Exec(w2, steps[1..][1..]) == Exec(Next(w2, steps[2]), []);
  }

  /** A run from before the first sync, against a global KB that only adds to its log, in which a stop loses a record:
    * the pull it ends in completes with nothing left, and has not brought a record that is exported to it. But for that
    * stop the run is one that `PullSteps.RunKeepsInv` speaks of. */
  lemma StopCanLoseARecord()
    ensures Initial(START) && RemoteOk(START.remote)
    ensures forall step | step in Before() + After() :: !step.Replace?
    ensures !StopIsHarmless(Exec(START, Before()))
    ensures Misses(Exec(START, Before() + After()))
  {
    hide Tick, Next, Misses, Stopping, StopIsHarmless;
    StartIsInitial();
    NoReplacement();
    RunsBefore();
    var w := Exec(START, Before());
    StoppingIsHarmful(w);
    ThirdPull(w);
    ExecConcat(START, Before(), After());
    ThreeSteps(w, After());
  }

  lemma StartIsInitial()
    ensures Initial(START) && RemoteOk(START.remote)
  {
    FirstExports();
    assert A in [A] && StoredOf([A], S) == {"a"};
  }

  lemma {:induction false} OnlyTicks(reply: Reply, n: nat)
    ensures forall step | step in TickSteps(reply, n) :: step == TickStep(reply)
    decreases n
  {
    if n > 0 { OnlyTicks(reply, n - 1); }
  }

  lemma NoReplacement()
    ensures forall step | step in Before() + After() :: !step.Replace?
  {
    hide TickSteps;
    OnlyTicks(T, 12);
    OnlyTicks(U, 11);
  }
}
