/** The client's spool: records that could not be sent are kept on disk with copies of the files they name, and sent by
  * a later flush. One client uses a spool at a time; each write of a spool file replaces it whole.
  */
module Spool {
  import opened Prelude
  import Ordering

  type Id = string
  type Sha = string
  type Name = string

  datatype FileRef = FileRef(sha: Sha, bytes: nat)

  datatype Record = Record(id: Id, refs: seq<FileRef>)

  /** What a spool file holds: a record, or text no record can be read from. */
  datatype Entry = Readable(record: Record) | Unreadable(text: string)

  /** How the service answers a write: with the files it lacks, with a permanent error, or not now. */
  datatype Reply = Answered(missing: set<Sha>) | Refused | Unavailable

  datatype Verdict = Delivered | Rejected | Retry

  datatype Attempt = Attempt(id: Id, verdict: Verdict)

  type Network = nat -> Reply

  /** The spool directory and the client's flag, and history no code reads: every attempt to send a record, and the
    * ids whose publish returned. */
  datatype Spool = Spool(
    spooling: bool,
    records: map<Name, Entry>,
    files: map<Sha, nat>,
    rejected: map<Name, Entry>,
    attempts: seq<Attempt>,
    published: set<Id>)

  function Shas(x: Record): set<Sha> {
    set ref | ref in x.refs :: ref.sha
  }

  /** A write sends the files the service lacks; it fails for good when this client lacks one of them too. */
  function Judge(x: Record, held: set<Sha>, reply: Reply): Verdict {
    match reply
    case Unavailable => Retry
    case Refused => Rejected
    case Answered(missing) => if Shas(x) * missing <= held then Delivered else Rejected
  }

  function Send(s: Spool, x: Record, held: set<Sha>, reply: Reply): Spool {
    s.(attempts := s.attempts + [Attempt(x.id, Judge(x, held, reply))])
  }

  // ---- publish ----

  datatype Copied = Copied(files: map<Sha, nat>, whole: bool)

  /** Copy the files the spool does not hold yet, up to the first this client has no copy of. */
  function CopyIn(files: map<Sha, nat>, refs: seq<FileRef>, sources: map<Sha, nat>): Copied
    decreases |refs|
  {
    if refs == [] then Copied(files, true)
    else if refs[0].sha in files && files[refs[0].sha] == refs[0].bytes then CopyIn(files, refs[1..], sources)
    else if refs[0].sha !in sources then Copied(files, false)
    else CopyIn(files[refs[0].sha := sources[refs[0].sha]], refs[1..], sources)
  }

  datatype Result = Sent | Spooled | Raised

  datatype Published = Published(spool: Spool, result: Result)

  function Keep(s: Spool, name: Name, x: Record, sources: map<Sha, nat>): Published {
    var copied := CopyIn(s.files, x.refs, sources);
    var kept := s.(files := copied.files);
    if copied.whole
    then Published(kept.(records := s.records[name := Readable(x)], published := s.published + {x.id}), Spooled)
    else Published(kept, Raised)
  }

  function Publish(s: Spool, name: Name, x: Record, sources: map<Sha, nat>, network: Network): Published {
    if s.spooling then Keep(s, name, x, sources)
    else
      var asked := Send(s, x, sources.Keys, network(|s.attempts|));
      match Judge(x, sources.Keys, network(|s.attempts|))
      case Delivered => Published(asked.(published := s.published + {x.id}), Sent)
      case Rejected => Published(asked, Raised)
      case Retry => Keep(asked.(spooling := true), name, x, sources)
  }

  // ---- flush ----

  function Reject(s: Spool, name: Name): Spool
    requires name in s.records
  {
    s.(records := s.records - {name}, rejected := s.rejected[name := s.records[name]])
  }

  /** A flush in progress: whether it found the service unavailable, and the records it left in the spool. */
  datatype Flushing = Flushing(spool: Spool, unavailable: bool, left: seq<Record>)

  function FlushOne(f: Flushing, name: Name, network: Network): Flushing
    requires name in f.spool.records
  {
    var s := f.spool;
    match s.records[name]
    case Unreadable(_) => f.(spool := Reject(s, name))
    case Readable(x) =>
      if f.unavailable then f.(left := f.left + [x])
      else
        var asked := Send(s, x, s.files.Keys, network(|s.attempts|));
        match Judge(x, s.files.Keys, network(|s.attempts|))
        case Delivered => f.(spool := asked.(spooling := false, records := s.records - {name}))
        case Rejected => f.(spool := Reject(asked, name))
        case Retry => Flushing(asked.(spooling := true), true, f.left + [x])
  }

  ghost predicate Holds(s: Spool, names: seq<Name>) {
    forall n | n in names :: n in s.records
  }

  ghost function FlushNames(f: Flushing, names: seq<Name>, network: Network): Flushing
    requires Distinct(names) && Holds(f.spool, names)
    decreases |names|
  {
    if names == [] then f else FlushNames(FlushOne(f, names[0], network), names[1..], network)
  }

  /** The files that the records still in the spool name. */
  function Needed(records: map<Name, Entry>): set<Sha> {
    set n, sha | n in records && records[n].Readable? && sha in Shas(records[n].record) :: sha
  }

  function Named(left: seq<Record>): set<Sha> {
    set x, sha | x in left && sha in Shas(x) :: sha
  }

  /** Drop the files that none of the given records names. */
  function Prune(s: Spool, left: seq<Record>): Spool {
    s.(files := map sha | sha in s.files && sha in Named(left) :: s.files[sha])
  }

  function Unflushed(s: Spool): Flushing {
    Flushing(s, false, [])
  }

  ghost function Flush(s: Spool, network: Network): Spool {
    SortedNames(s);
    var flushed := FlushNames(Unflushed(s), Ordering.Sorted(s.records.Keys), network);
    Prune(flushed.spool, flushed.left)
  }

  lemma SortedNames(s: Spool)
    ensures var names := Ordering.Sorted(s.records.Keys);
            Distinct(names) && Holds(s, names) && forall n | n in s.records :: n in names
  {
    Ordering.SortedIsAscending(s.records.Keys);
  }

  // ---- what every run keeps ----

  /** Spool file names come from record ids, one name for each id. */
  ghost predicate Injective(nameOf: Id -> Name) {
    forall a, b | nameOf(a) == nameOf(b) :: a == b
  }

  ghost predicate NamedAfter(nameOf: Id -> Name, records: map<Name, Entry>) {
    forall n | n in records && records[n].Readable? :: n == nameOf(records[n].record.id)
  }

  ghost predicate Kept(records: map<Name, Entry>, name: Name, id: Id) {
    name in records && records[name].Readable? && records[name].record.id == id
  }

  /** Where a published id is: delivered, still spooled, or out of the spool and set aside as rejected. */
  ghost predicate Accounted(nameOf: Id -> Name, s: Spool, id: Id) {
    Attempt(id, Delivered) in s.attempts || Kept(s.records, nameOf(id), id)
    || (nameOf(id) !in s.records && Kept(s.rejected, nameOf(id), id))
  }

  ghost predicate FilesHeld(s: Spool) {
    Needed(s.records) <= s.files.Keys
  }

  ghost predicate Ok(nameOf: Id -> Name, s: Spool) {
    && NamedAfter(nameOf, s.records) && NamedAfter(nameOf, s.rejected)
    && FilesHeld(s)
    && forall id | id in s.published :: Accounted(nameOf, s, id)
  }

  lemma {:induction false} CopyKeeps(files: map<Sha, nat>, refs: seq<FileRef>, sources: map<Sha, nat>)
    ensures var copied := CopyIn(files, refs, sources);
            && files.Keys <= copied.files.Keys
            && (copied.whole ==> forall ref | ref in refs :: ref.sha in copied.files)
            && (copied.whole <== forall ref | ref in refs :: ref.sha in sources)
    decreases |refs|
  {
    if refs != [] {
      var first := refs[0];
      if first.sha in files && files[first.sha] == first.bytes {
        CopyKeeps(files, refs[1..], sources);
      } else if first.sha in sources {
        CopyKeeps(files[first.sha := sources[first.sha]], refs[1..], sources);
      }
      assert forall ref | ref in refs :: ref == first || ref in refs[1..];
    }
  }

  lemma KeepKeepsOk(nameOf: Id -> Name, s: Spool, x: Record, sources: map<Sha, nat>)
    requires Injective(nameOf) && Ok(nameOf, s)
    ensures Ok(nameOf, Keep(s, nameOf(x.id), x, sources).spool)
  {
    CopyKeeps(s.files, x.refs, sources);
    var s' := Keep(s, nameOf(x.id), x, sources).spool;
    forall id | id in s'.published ensures Accounted(nameOf, s', id) {
      if id != x.id { assert Accounted(nameOf, s, id); }
    }
  }

  lemma PublishKeepsOk(nameOf: Id -> Name, s: Spool, x: Record, sources: map<Sha, nat>, network: Network)
    requires Injective(nameOf) && Ok(nameOf, s)
    ensures Ok(nameOf, Publish(s, nameOf(x.id), x, sources, network).spool)
  {
    if s.spooling {
      KeepKeepsOk(nameOf, s, x, sources);
    } else {
      var asked := Send(s, x, sources.Keys, network(|s.attempts|));
      SendKeepsOk(nameOf, s, x, sources.Keys, network(|s.attempts|));
      var s' := asked.(spooling := true);
      assert Ok(nameOf, s') by { assert forall id :: Accounted(nameOf, asked, id) ==> Accounted(nameOf, s', id); }
      KeepKeepsOk(nameOf, s', x, sources);
      var sent := asked.(published := s.published + {x.id});
      if Judge(x, sources.Keys, network(|s.attempts|)) == Delivered {
        forall id | id in sent.published ensures Accounted(nameOf, sent, id) {
          if id != x.id {
            assert Accounted(nameOf, asked, id);
          } else {
            assert asked.attempts[|s.attempts|] == Attempt(x.id, Delivered);
          }
        }
      }
    }
  }

  lemma SendKeepsOk(nameOf: Id -> Name, s: Spool, x: Record, held: set<Sha>, reply: Reply)
    requires Ok(nameOf, s)
    ensures Ok(nameOf, Send(s, x, held, reply))
  {
    var s' := Send(s, x, held, reply);
    forall id | id in s'.published ensures Accounted(nameOf, s', id) { assert Accounted(nameOf, s, id); }
  }

  lemma FlushOneKeepsOk(nameOf: Id -> Name, f: Flushing, name: Name, network: Network)
    requires Ok(nameOf, f.spool) && name in f.spool.records
    ensures Ok(nameOf, FlushOne(f, name, network).spool)
  {
    var s, s' := f.spool, FlushOne(f, name, network).spool;
    forall id | id in s'.published ensures Accounted(nameOf, s', id) {
      assert Accounted(nameOf, s, id);
      if Kept(s.records, nameOf(id), id) && nameOf(id) == name && name !in s'.records && name !in s'.rejected {
        assert s'.attempts[|s.attempts|] == Attempt(id, Delivered);
      }
    }
  }

  lemma FlushOneTouchesOne(f: Flushing, name: Name, network: Network)
    requires name in f.spool.records
    ensures var s' := FlushOne(f, name, network).spool;
            && s'.records - {name} == f.spool.records - {name} && s'.files == f.spool.files
            && (name in s'.records ==>
                && s'.records[name] == f.spool.records[name] && s'.records[name].Readable?
                && FlushOne(f, name, network).unavailable)
            && s'.published == f.spool.published
            && (f.unavailable ==> FlushOne(f, name, network).unavailable)
  {
  }

  lemma HoldsRest(f: Flushing, names: seq<Name>, network: Network)
    requires Distinct(names) && Holds(f.spool, names) && names != []
    ensures Distinct(names[1..]) && Holds(FlushOne(f, names[0], network).spool, names[1..])
  {
    var s' := FlushOne(f, names[0], network).spool;
    FlushOneTouchesOne(f, names[0], network);
    forall n | n in names[1..] ensures n in s'.records {
      assert n in f.spool.records - {names[0]};
    }
  }

  lemma {:induction false} FlushNamesKeepsOk(nameOf: Id -> Name, f: Flushing, names: seq<Name>, network: Network)
    requires Ok(nameOf, f.spool) && Distinct(names) && Holds(f.spool, names)
    ensures Ok(nameOf, FlushNames(f, names, network).spool)
    decreases |names|
  {
    if names != [] {
      FlushOneKeepsOk(nameOf, f, names[0], network);
      HoldsRest(f, names, network);
      FlushNamesKeepsOk(nameOf, FlushOne(f, names[0], network), names[1..], network);
    }
  }

  /** The records left are those the flush passed that are still in the spool. */
  ghost predicate LeftOk(f: Flushing, names: seq<Name>) {
    && (forall n | n in f.spool.records && n !in names ::
      f.spool.records[n].Readable? && f.spool.records[n].record in f.left)
    && (forall x | x in f.left :: exists n :: n in f.spool.records && n !in names && f.spool.records[n] == Readable(x))
  }

  lemma FlushOneLeaves(f: Flushing, names: seq<Name>, network: Network)
    requires Distinct(names) && Holds(f.spool, names) && names != [] && LeftOk(f, names)
    ensures LeftOk(FlushOne(f, names[0], network), names[1..])
  {
    var g, name := FlushOne(f, names[0], network), names[0];
    FlushOneTouchesOne(f, name, network);
    var rest := f.spool.records - {name};
    assert forall n :: n in names <==> n == name || n in names[1..];
    forall n | n in g.spool.records && n !in names[1..]
      ensures g.spool.records[n].Readable? && g.spool.records[n].record in g.left {
      if n != name { assert n in rest && n !in names; }
    }
    forall x | x in g.left ensures exists n ::
      n in g.spool.records && n !in names[1..] && g.spool.records[n] == Readable(x) {
      if x in f.left {
        var n :| n in f.spool.records && n !in names && f.spool.records[n] == Readable(x);
        assert n in rest && n in g.spool.records;
      } else {
        assert name in g.spool.records && g.spool.records[name] == Readable(x);
      }
    }
  }

  lemma {:induction false} FlushLeaves(f: Flushing, names: seq<Name>, network: Network)
    requires Distinct(names) && Holds(f.spool, names) && LeftOk(f, names)
    ensures LeftOk(FlushNames(f, names, network), [])
    decreases |names|
  {
    if names != [] {
      FlushOneLeaves(f, names, network);
      HoldsRest(f, names, network);
      FlushLeaves(FlushOne(f, names[0], network), names[1..], network);
    } else {
      assert names == [];
    }
  }

  lemma LeftIsNeeded(f: Flushing)
    requires LeftOk(f, [])
    ensures Named(f.left) == Needed(f.spool.records)
  {
    forall sha | sha in Named(f.left) ensures sha in Needed(f.spool.records) {
      var x :| x in f.left && sha in Shas(x);
      var n :| n in f.spool.records && f.spool.records[n] == Readable(x);
    }
  }

  lemma PruneKeepsOk(nameOf: Id -> Name, s: Spool, left: seq<Record>)
    requires Ok(nameOf, s) && Named(left) == Needed(s.records)
    ensures Ok(nameOf, Prune(s, left)) && Prune(s, left).files.Keys == Needed(s.records)
  {
    forall id | id in s.published ensures Accounted(nameOf, Prune(s, left), id) { assert Accounted(nameOf, s, id); }
  }

  /** A flush keeps exactly the files that the records it leaves in the spool name. */
  lemma FlushKeepsOk(nameOf: Id -> Name, s: Spool, network: Network)
    requires Ok(nameOf, s)
    ensures Ok(nameOf, Flush(s, network))
    ensures Flush(s, network).files.Keys == Needed(Flush(s, network).records)
  {
    SortedNames(s);
    var names := Ordering.Sorted(s.records.Keys);
    var flushed := FlushNames(Unflushed(s), names, network);
    FlushNamesKeepsOk(nameOf, Unflushed(s), names, network);
    FlushLeaves(Unflushed(s), names, network);
    LeftIsNeeded(flushed);
    PruneKeepsOk(nameOf, flushed.spool, flushed.left);
  }

  /** A step of the client. A process may stop while it copies files for a publish, or in a flush: after some records,
    * and perhaps after one more was sent and before its spool file was dealt with. */
  datatype Step =
    | DoPublish(record: Record, sources: map<Sha, nat>)
    | DoFlush
    | StopInPublish(record: Record, copied: nat, sources: map<Sha, nat>)
    | StopInFlush(passed: nat, sent: bool)

  ghost function Passed(s: Spool, passed: nat, network: Network): Spool {
    SortedNames(s);
    var names := Ordering.Sorted(s.records.Keys);
    if passed <= |names| then FlushNames(Unflushed(s), names[..passed], network).spool else s
  }

  /** A record of the spool sent while its spool file stays where it is. */
  function Resent(s: Spool, name: Name, network: Network): Spool {
    if name in s.records && s.records[name].Readable?
    then Send(s, s.records[name].record, s.files.Keys, network(|s.attempts|))
    else s
  }

  /** A new process starts with the flag clear. */
  function Restarted(s: Spool): Spool {
    s.(spooling := false)
  }

  ghost function Next(nameOf: Id -> Name, s: Spool, step: Step, network: Network): Spool {
    match step
    case DoPublish(x, sources) => Publish(s, nameOf(x.id), x, sources, network).spool
    case DoFlush => Flush(s, network)
    case StopInPublish(x, copied, sources) =>
      var refs := if copied <= |x.refs| then x.refs[..copied] else x.refs;
      Restarted(s.(files := CopyIn(s.files, refs, sources).files))
    case StopInFlush(passed, sent) =>
      var names, s' := Ordering.Sorted(s.records.Keys), Passed(s, passed, network);
      Restarted(if sent && passed < |names| then Resent(s', names[passed], network) else s')
  }

  ghost function Exec(nameOf: Id -> Name, s: Spool, steps: seq<Step>, network: Network): Spool
    decreases |steps|
  {
    if steps == [] then s else Exec(nameOf, Next(nameOf, s, steps[0], network), steps[1..], network)
  }

  lemma RestartKeepsOk(nameOf: Id -> Name, s: Spool)
    requires Ok(nameOf, s)
    ensures Ok(nameOf, Restarted(s))
  {
    forall id | id in s.published ensures Accounted(nameOf, Restarted(s), id) { assert Accounted(nameOf, s, id); }
  }

  lemma StopInPublishKeepsOk(nameOf: Id -> Name, s: Spool, refs: seq<FileRef>, sources: map<Sha, nat>)
    requires Ok(nameOf, s)
    ensures Ok(nameOf, s.(files := CopyIn(s.files, refs, sources).files))
  {
    CopyKeeps(s.files, refs, sources);
    var s' := s.(files := CopyIn(s.files, refs, sources).files);
    forall id | id in s.published ensures Accounted(nameOf, s', id) { assert Accounted(nameOf, s, id); }
  }

  lemma StopInFlushKeepsOk(nameOf: Id -> Name, s: Spool, passed: nat, network: Network)
    requires Ok(nameOf, s)
    ensures Ok(nameOf, Passed(s, passed, network))
  {
    SortedNames(s);
    var names := Ordering.Sorted(s.records.Keys);
    if passed <= |names| { FlushNamesKeepsOk(nameOf, Unflushed(s), names[..passed], network); }
  }

  lemma ResentKeepsOk(nameOf: Id -> Name, s: Spool, name: Name, network: Network)
    requires Ok(nameOf, s)
    ensures Ok(nameOf, Resent(s, name, network))
  {
    if name in s.records && s.records[name].Readable? {
      SendKeepsOk(nameOf, s, s.records[name].record, s.files.Keys, network(|s.attempts|));
    }
  }

  lemma StepKeepsOk(nameOf: Id -> Name, s: Spool, step: Step, network: Network)
    requires Injective(nameOf) && Ok(nameOf, s)
    ensures Ok(nameOf, Next(nameOf, s, step, network))
  {
    hide Ok, Publish, Flush, Passed, Resent, CopyIn, Restarted;
    match step
    case DoPublish(x, sources) => PublishKeepsOk(nameOf, s, x, sources, network);
    case DoFlush => FlushKeepsOk(nameOf, s, network);
    case StopInPublish(x, copied, sources) =>
      var refs := if copied <= |x.refs| then x.refs[..copied] else x.refs;
      StopInPublishKeepsOk(nameOf, s, refs, sources);
      RestartKeepsOk(nameOf, s.(files := CopyIn(s.files, refs, sources).files));
    case StopInFlush(passed, sent) =>
      var names, s' := Ordering.Sorted(s.records.Keys), Passed(s, passed, network);
      StopInFlushKeepsOk(nameOf, s, passed, network);
      RestartKeepsOk(nameOf, s');
      if passed < |names| {
        ResentKeepsOk(nameOf, s', names[passed], network);
        RestartKeepsOk(nameOf, Resent(s', names[passed], network));
      }
  }

  /** Conservation over every run: what was published is delivered, still spooled with all its files, or rejected. */
  lemma {:induction false} NothingPublishedIsLost(nameOf: Id -> Name, s: Spool, steps: seq<Step>, network: Network)
    requires Injective(nameOf) && Ok(nameOf, s)
    ensures var s' := Exec(nameOf, s, steps, network);
            && FilesHeld(s') && (forall id | id in s'.published :: Accounted(nameOf, s', id))
            && Ok(nameOf, s')
    decreases |steps|
  {
    if steps != [] {
      StepKeepsOk(nameOf, s, steps[0], network);
      NothingPublishedIsLost(nameOf, Next(nameOf, s, steps[0], network), steps[1..], network);
    }
  }

  /** The files kept suffice: a flush never rejects a record that an answering service has not refused. */
  lemma SpooledFilesSuffice(nameOf: Id -> Name, f: Flushing, name: Name, network: Network)
    requires Ok(nameOf, f.spool) && name in f.spool.records && f.spool.records[name].Readable? && !f.unavailable
    requires network(|f.spool.attempts|).Answered?
    ensures var s' := FlushOne(f, name, network).spool;
            name !in s'.records && s'.rejected == f.spool.rejected && !s'.spooling
            && Attempt(f.spool.records[name].record.id, Delivered) in s'.attempts
  {
    var x := f.spool.records[name].record;
    assert Shas(x) <= Needed(f.spool.records);
    var s' := FlushOne(f, name, network).spool;
    assert s'.attempts[|f.spool.attempts|] == Attempt(x.id, Delivered);
  }

  // ---- attempts ----

  /** Attempts none of which found the service unavailable, but for the last if `failed`. */
  ghost predicate Calm(attempts: seq<Attempt>, failed: bool) {
    && (forall i | 0 <= i < |attempts| - 1 :: attempts[i].verdict != Retry)
    && (failed <==> attempts != [] && attempts[|attempts| - 1].verdict == Retry)
  }

  ghost predicate SentOne(attempts: seq<Attempt>) {
    exists i :: 0 <= i < |attempts| && attempts[i].verdict == Delivered
  }

  /** What the attempts a flush made say: none follows one that found the service unavailable, the client spools
    * after it if one did, and sends again if none did and one was delivered. */
  ghost predicate Follows(f: Flushing, f': Flushing, made: seq<Attempt>) {
    && f'.spool.attempts == f.spool.attempts + made
    && (f.unavailable ==> made == [] && f'.unavailable && f'.spool.spooling == f.spool.spooling)
    && (!f.unavailable ==> Calm(made, f'.unavailable))
    && (!f.unavailable ==> f'.spool.spooling == (f'.unavailable || (f.spool.spooling && !SentOne(made))))
  }

  lemma FollowsOne(f: Flushing, name: Name, network: Network) returns (made: seq<Attempt>)
    requires name in f.spool.records
    ensures Follows(f, FlushOne(f, name, network), made)
  {
    var s := f.spool;
    if f.unavailable || s.records[name].Unreadable? {
      made := [];
    } else {
      var x := s.records[name].record;
      made := [Attempt(x.id, Judge(x, s.files.Keys, network(|s.attempts|)))];
      assert SentOne(made) <==> made[0].verdict == Delivered;
    }
  }

  lemma FollowsBoth(f: Flushing, g: Flushing, h: Flushing, a: seq<Attempt>, b: seq<Attempt>)
    requires Follows(f, g, a) && Follows(g, h, b)
    ensures Follows(f, h, a + b)
  {
    if !f.unavailable {
      if g.unavailable {
        assert a + b == a;
      } else {
        var c := a + b;
        assert SentOne(c) <==> SentOne(a) || SentOne(b) by {
          if i :| 0 <= i < |a| && a[i].verdict == Delivered { assert c[i].verdict == Delivered; }
          if i :| 0 <= i < |b| && b[i].verdict == Delivered { assert c[|a| + i].verdict == Delivered; }
        }
      }
    }
  }

  lemma {:induction false} FollowsAll(f: Flushing, names: seq<Name>, network: Network) returns (made: seq<Attempt>)
    requires Distinct(names) && Holds(f.spool, names)
    ensures Follows(f, FlushNames(f, names, network), made)
    decreases |names|
  {
    if names == [] {
      made := [];
    } else {
      var g := FlushOne(f, names[0], network);
      var first := FollowsOne(f, names[0], network);
      HoldsRest(f, names, network);
      var rest := FollowsAll(g, names[1..], network);
      FollowsBoth(f, g, FlushNames(g, names[1..], network), first, rest);
      made := first + rest;
    }
  }

  /** A flush asks an unavailable service once at most; it ends with the client sending again unless that happened or
    * nothing was delivered; and when it did not happen the spool is left empty. */
  lemma FlushStopsAsking(s: Spool, network: Network) returns (made: seq<Attempt>)
    ensures Flush(s, network).attempts == s.attempts + made
    ensures forall i | 0 <= i < |made| - 1 :: made[i].verdict != Retry
    ensures var failed := made != [] && made[|made| - 1].verdict == Retry;
            && Flush(s, network).spooling == (failed || (s.spooling && !SentOne(made)))
            && (!failed ==> Flush(s, network).records == map[])
  {
    SortedNames(s);
    var names := Ordering.Sorted(s.records.Keys);
    made := FollowsAll(Unflushed(s), names, network);
    FlushEmpties(Unflushed(s), names, network);
  }

  lemma {:induction false} FlushEmpties(f: Flushing, names: seq<Name>, network: Network)
    requires Distinct(names) && Holds(f.spool, names) && forall n | n in f.spool.records :: n in names
    ensures var f' := FlushNames(f, names, network);
            f'.unavailable || f'.spool.records == map[]
    decreases |names|
  {
    if names != [] {
      var g := FlushOne(f, names[0], network);
      FlushOneTouchesOne(f, names[0], network);
      HoldsRest(f, names, network);
      if names[0] !in g.spool.records {
        assert forall n | n in g.spool.records :: n in f.spool.records;
        FlushEmpties(g, names[1..], network);
      } else {
        UnavailableStays(g, names[1..], network);
      }
    }
  }

  lemma {:induction false} UnavailableStays(f: Flushing, names: seq<Name>, network: Network)
    requires f.unavailable && Distinct(names) && Holds(f.spool, names)
    ensures FlushNames(f, names, network).unavailable
    decreases |names|
  {
    if names != [] {
      FlushOneTouchesOne(f, names[0], network);
      HoldsRest(f, names, network);
      UnavailableStays(FlushOne(f, names[0], network), names[1..], network);
    }
  }

  /** While the flag is set a publish sends nothing, and it spools whatever this client has the files of. */
  lemma PublishWhileSpooling(s: Spool, name: Name, x: Record, sources: map<Sha, nat>, network: Network)
    requires s.spooling
    ensures var p := Publish(s, name, x, sources, network);
            && p.spool.attempts == s.attempts && p.spool.spooling
            && p.result != Sent
            && p.spool.records == (if p.result == Spooled then s.records[name := Readable(x)] else s.records)
            && (Shas(x) <= sources.Keys ==> p.result == Spooled)
  {
    CopyKeeps(s.files, x.refs, sources);
    assert forall ref | ref in x.refs :: ref.sha in Shas(x);
  }

  // ---- the client ----

  class Client {
    var spooling: bool
    var records: map<Name, Entry>
    var files: map<Sha, nat>
    var rejected: map<Name, Entry>
    var asked: nat
    ghost var attempts: seq<Attempt>
    ghost var published: set<Id>

    ghost function State(): Spool
      reads this
    {
      Spool(spooling, records, files, rejected, attempts, published)
    }

    ghost predicate Counted()
      reads this
    {
      asked == |attempts|
    }

    /** A new process finds the spool directory as the last one left it. */
    constructor (records: map<Name, Entry>, files: map<Sha, nat>, rejected: map<Name, Entry>)
      ensures State() == Spool(false, records, files, rejected, [], {}) && Counted()
    {
      spooling, this.records, this.files, this.rejected := false, records, files, rejected;
      asked, attempts, published := 0, [], {};
    }

    method Write(x: Record, held: set<Sha>, network: Network) returns (verdict: Verdict)
      requires Counted()
      modifies `asked, `attempts
      ensures Counted() && State() == Send(old(State()), x, held, network(old(asked)))
      ensures verdict == Judge(x, held, network(old(asked)))
    {
      verdict := Judge(x, held, network(asked));
      asked := asked + 1;
      attempts := attempts + [Attempt(x.id, verdict)];
    }

    method SpoolFiles(x: Record, sources: map<Sha, nat>) returns (whole: bool)
      modifies `files
      ensures Copied(files, whole) == CopyIn(old(files), x.refs, sources)
    {
      var i := 0;
      while i < |x.refs|
        invariant 0 <= i <= |x.refs|
        invariant CopyIn(files, x.refs[i..], sources) == CopyIn(old(files), x.refs, sources)
      {
        var ref := x.refs[i];
        assert x.refs[i..][1..] == x.refs[i + 1..];
        if ref.sha !in files || files[ref.sha] != ref.bytes {
          if ref.sha !in sources {
            return false;
          }
          files := files[ref.sha := sources[ref.sha]];
        }
        i := i + 1;
      }
      whole := true;
    }

    method PublishRecord(name: Name, x: Record, sources: map<Sha, nat>, network: Network) returns (result: Result)
      requires Counted()
      modifies this
      ensures Counted() && Published(State(), result) == Publish(old(State()), name, x, sources, network)
    {
      if !spooling {
        var verdict := Write(x, sources.Keys, network);
        if verdict == Delivered {
          published := published + {x.id};
          return Sent;
        }
        if verdict == Rejected {
          return Raised;
        }
        spooling := true;
      }
      var whole := SpoolFiles(x, sources);
      if !whole {
        return Raised;
      }
      records := records[name := Readable(x)];
      published := published + {x.id};
      result := Spooled;
    }

    method FlushEntry(name: Name, unavailable: bool, left: seq<Record>, network: Network)
      returns (unavailable': bool, left': seq<Record>)
      requires Counted() && name in records
      modifies this
      ensures Counted()
      ensures Flushing(State(), unavailable', left') ==
              FlushOne(Flushing(old(State()), unavailable, left), name, network)
    {
      unavailable', left' := unavailable, left;
      match records[name]
      case Unreadable(_) => SetAside(name);
      case Readable(x) =>
        if unavailable {
          left' := left + [x];
        } else {
          var verdict := Write(x, files.Keys, network);
          match verdict
          case Delivered => spooling, records := false, records - {name};
          case Rejected => SetAside(name);
          case Retry => spooling, unavailable', left' := true, true, left + [x];
        }
    }

    method SetAside(name: Name)
      requires name in records
      modifies `records, `rejected
      ensures State() == Reject(old(State()), name)
    {
      rejected := rejected[name := records[name]];
      records := records - {name};
    }

    /** Send the spooled records in the order of their names until the service is unavailable, then drop the files
      * that no record left in the spool names. */
    method FlushSpool(network: Network)
      requires Counted()
      modifies this
      ensures Counted() && State() == Flush(old(State()), network)
    {
      SortedNames(State());
      var names := Ordering.Sorted(records.Keys);
      var unavailable, left := false, [];
      ghost var flushed := FlushNames(Unflushed(State()), names, network);
      while names != []
        invariant Counted() && Distinct(names) && Holds(State(), names)
        invariant FlushNames(Flushing(State(), unavailable, left), names, network) == flushed
        decreases |names|
      {
        HoldsRest(Flushing(State(), unavailable, left), names, network);
        unavailable, left := FlushEntry(names[0], unavailable, left, network);
        names := names[1..];
      }
      files := map sha | sha in files && sha in Named(left) :: files[sha];
    }
  }
}
