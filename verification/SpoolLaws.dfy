/** What the spool does, told by the service's answers: which record leaves it, and why. */
module SpoolLaws {
  import opened Prelude
  import opened Spool
  import Ordering

  // ---- one write ----

  /** A write succeeds exactly when the service answers and this client has every file of the record it then asks for;
    * it may be tried again exactly when the service was not available. */
  lemma SendMeaning(s: Spool, x: Record, held: set<Sha>, reply: Reply)
    ensures var s' := Send(s, x, held, reply);
            && s' == s.(attempts := s'.attempts)
            && |s'.attempts| == |s.attempts| + 1 && s'.attempts[..|s.attempts|] == s.attempts
            && var made := s'.attempts[|s.attempts|];
               && made.id == x.id
               && (made.verdict == Retry <==> reply == Unavailable)
               && (made.verdict == Delivered <==>
                   reply.Answered? && forall ref | ref in x.refs && ref.sha in reply.missing :: ref.sha in held)
  {
    if reply.Answered? {
      assert forall ref | ref in x.refs :: ref.sha in Shas(x);
      assert forall sha | sha in Shas(x) :: exists ref :: ref in x.refs && ref.sha == sha;
    }
  }

  /** This client has each of the record's files, in the spool or among its sources. */
  ghost predicate HasCopies(s: Spool, x: Record, sources: map<Sha, nat>) {
    forall ref | ref in x.refs :: ref.sha in sources || (ref.sha in s.files && s.files[ref.sha] == ref.bytes)
  }

  /** A publish is sent when the client is not spooling and the service takes the record, spooled when there is nobody
    * to send it to and all its files can be copied, and raises otherwise; only a spooled one changes the spool's
    * records, and it changes no other's. */
  lemma PublishMeaning(s: Spool, name: Name, x: Record, sources: map<Sha, nat>, network: Network)
    ensures var p, reply := Publish(s, name, x, sources, network), network(|s.attempts|);
            && (p.result == Sent <==>
                !s.spooling && reply.Answered?
                && forall ref | ref in x.refs && ref.sha in reply.missing :: ref.sha in sources)
            && (p.result == Spooled <==> (s.spooling || reply == Unavailable) && HasCopies(s, x, sources))
            && p.spool.spooling == (s.spooling || reply == Unavailable)
            && (p.result != Spooled ==> p.spool.records == s.records)
            && (p.result == Spooled ==> name in p.spool.records && p.spool.records[name] == Readable(x))
            && (forall n | n in s.records && n != name :: n in p.spool.records && p.spool.records[n] == s.records[n])
            && p.spool.rejected == s.rejected
            && p.spool.published == (if p.result == Raised then s.published else s.published + {x.id})
            && s.attempts <= p.spool.attempts
  {
    SendMeaning(s, x, sources.Keys, network(|s.attempts|));
    CopyIsWhole(s.files, x.refs, sources);
  }

  /** Copying goes through exactly when every file is already there in full or has a source. */
  lemma {:induction false} CopyIsWhole(files: map<Sha, nat>, refs: seq<FileRef>, sources: map<Sha, nat>)
    ensures CopyIn(files, refs, sources).whole <==>
            forall ref | ref in refs :: ref.sha in sources || (ref.sha in files && files[ref.sha] == ref.bytes)
    decreases |refs|
  {
    if refs != [] {
      var first := refs[0];
      assert forall ref | ref in refs :: ref == first || ref in refs[1..];
      if first.sha in files && files[first.sha] == first.bytes {
        CopyIsWhole(files, refs[1..], sources);
      } else if first.sha in sources {
        CopyIsWhole(files[first.sha := sources[first.sha]], refs[1..], sources);
        assert forall ref | ref in refs[1..] && ref.sha == first.sha :: ref.sha in sources;
      }
    }
  }

  // ---- what a flush does to each record ----

  /** In a flush a reply alone decides the verdict: the spool holds every file a record of it names. */
  ghost predicate Decided(verdict: Verdict, reply: Reply) {
    match reply
    case Unavailable => verdict == Retry
    case Refused => verdict == Rejected
    case Answered(_) => verdict == Delivered
  }

  /** The record left the spool because it was delivered, or was set aside as it was because the service refused it or
    * nobody can read it. */
  ghost predicate Gone(s: Spool, s': Spool, n: Name, network: Network)
    requires n in s.records
  {
    match s.records[n]
    case Unreadable(_) => n in s'.rejected && s'.rejected[n] == s.records[n]
    case Readable(x) =>
      exists i :: |s.attempts| <= i < |s'.attempts| && s'.attempts[i].id == x.id
                  && (network(i).Answered?
                      || (network(i).Refused? && n in s'.rejected && s'.rejected[n] == s.records[n]))
  }

  ghost predicate Fair(s: Spool, s': Spool, network: Network) {
    && s.attempts <= s'.attempts
    && (forall i | |s.attempts| <= i < |s'.attempts| :: Decided(s'.attempts[i].verdict, network(i)))
    && (forall n | n in s'.records :: n in s.records && s'.records[n] == s.records[n])
    && (forall n | n in s.records && n !in s'.records :: Gone(s, s', n, network))
    && (forall n | n in s.rejected && n !in s.records :: n in s'.rejected && s'.rejected[n] == s.rejected[n])
    && (forall n | n in s'.rejected :: (n in s.rejected && s'.rejected[n] == s.rejected[n])
                                       || (n in s.records && s'.rejected[n] == s.records[n]
                                           && Refusal(s, s', s.records[n], network)))
  }

  /** Why a flush sets an entry aside. */
  ghost predicate Refusal(s: Spool, s': Spool, e: Entry, network: Network) {
    e.Unreadable?
    || exists i :: |s.attempts| <= i < |s'.attempts| && s'.attempts[i].id == e.record.id && network(i).Refused?
  }

  /** A step that sends at most the record of that name, and then leaves it, drops it or sets it aside. */
  lemma OneIsFair(s: Spool, s': Spool, name: Name, network: Network)
    requires name in s.records && s.attempts <= s'.attempts
    requires s'.records == s.records || s'.records == s.records - {name}
    requires s'.rejected == s.rejected || s'.rejected == s.rejected[name := s.records[name]]
    requires forall i | |s.attempts| <= i < |s'.attempts| :: Decided(s'.attempts[i].verdict, network(i))
    requires s'.records != s.records ==> Gone(s, s', name, network)
    requires s'.rejected != s.rejected ==> Refusal(s, s', s.records[name], network)
    ensures Fair(s, s', network)
  {
    hide Decided, Gone, Refusal;
  }

  lemma FlushOneIsFair(f: Flushing, name: Name, network: Network)
    requires FilesHeld(f.spool) && name in f.spool.records
    ensures Fair(f.spool, FlushOne(f, name, network).spool, network)
  {
    hide Fair;
    var s, s' := f.spool, FlushOne(f, name, network).spool;
    if s.records[name].Readable? && !f.unavailable {
      var x := s.records[name].record;
      assert Shas(x) <= Needed(s.records);
      assert s'.attempts[|s.attempts|].id == x.id;
    }
    OneIsFair(s, s', name, network);
  }

  lemma GoneLater(s: Spool, m: Spool, s': Spool, n: Name, network: Network)
    requires Fair(s, m, network) && Fair(m, s', network) && n in s.records && n !in s'.records
    ensures Gone(s, s', n, network)
  {
    if n in m.records {
      assert Gone(m, s', n, network);
    } else {
      assert Gone(s, m, n, network);
      if s.records[n].Readable? {
        var i :| |s.attempts| <= i < |m.attempts| && m.attempts[i].id == s.records[n].record.id
                 && (network(i).Answered?
                     || (network(i).Refused? && n in m.rejected && m.rejected[n] == s.records[n]));
        assert s'.attempts[i] == m.attempts[i];
      }
    }
  }

  lemma RefusalLater(s: Spool, m: Spool, s': Spool, e: Entry, network: Network)
    requires s.attempts <= m.attempts <= s'.attempts
    requires Refusal(s, m, e, network) || Refusal(m, s', e, network)
    ensures Refusal(s, s', e, network)
  {
    if e.Readable? && Refusal(s, m, e, network) {
      var i :| |s.attempts| <= i < |m.attempts| && m.attempts[i].id == e.record.id && network(i).Refused?;
      assert s'.attempts[i] == m.attempts[i];
    }
  }

  lemma FairBoth(s: Spool, m: Spool, s': Spool, network: Network)
    requires Fair(s, m, network) && Fair(m, s', network)
    ensures Fair(s, s', network)
  {
    hide Decided, Gone, Refusal;
    forall n | n in s'.rejected && !(n in s.rejected && s'.rejected[n] == s.rejected[n])
      ensures n in s.records && s'.rejected[n] == s.records[n] && Refusal(s, s', s.records[n], network) {
      RefusalLater(s, m, s', s.records[n], network);
    }
    forall n | n in s.records && n !in s'.records ensures Gone(s, s', n, network) {
      GoneLater(s, m, s', n, network);
    }
    forall i | |s.attempts| <= i < |s'.attempts| ensures Decided(s'.attempts[i].verdict, network(i)) {
      if i < |m.attempts| { assert s'.attempts[i] == m.attempts[i]; }
    }
  }

  lemma {:induction false} FlushNamesIsFair(nameOf: Id -> Name, f: Flushing, names: seq<Name>, network: Network)
    requires Ok(nameOf, f.spool) && Distinct(names) && Holds(f.spool, names)
    ensures Fair(f.spool, FlushNames(f, names, network).spool, network)
    decreases |names|
  {
    hide Fair, FlushOne;
    if names != [] {
      var g := FlushOne(f, names[0], network);
      FlushOneIsFair(f, names[0], network);
      FlushOneKeepsOk(nameOf, f, names[0], network);
      HoldsRest(f, names, network);
      FlushNamesIsFair(nameOf, g, names[1..], network);
      FairBoth(f.spool, g.spool, FlushNames(g, names[1..], network).spool, network);
    } else {
      NothingIsFair(f.spool, network);
    }
  }

  lemma NothingIsFair(s: Spool, network: Network)
    ensures Fair(s, s, network)
  {
  }

  lemma PruneIsFair(s: Spool, s': Spool, left: seq<Record>, network: Network)
    requires Fair(s, s', network)
    ensures Fair(s, Prune(s', left), network)
  {
    hide Decided;
    var pruned := Prune(s', left);
    forall n | n in s.records && n !in pruned.records ensures Gone(s, pruned, n, network) {
      assert Gone(s, s', n, network);
    }
  }

  /** A record leaves the spool in a flush only if the service took it, the service refused it, or nobody can read it,
    * and in the last two cases it is set aside unchanged; the files left have not changed. */
  lemma FlushIsFair(nameOf: Id -> Name, s: Spool, network: Network)
    requires Ok(nameOf, s)
    ensures Fair(s, Flush(s, network), network)
    ensures var files := Flush(s, network).files;
            forall sha | sha in files :: sha in s.files && files[sha] == s.files[sha]
  {
    hide Fair, FlushOne;
    SortedNames(s);
    var names := Ordering.Sorted(s.records.Keys);
    var flushed := FlushNames(Unflushed(s), names, network);
    FlushNamesIsFair(nameOf, Unflushed(s), names, network);
    PruneIsFair(s, flushed.spool, flushed.left, network);
    FlushKeepsFiles(Unflushed(s), names, network);
  }

  lemma {:induction false} FlushKeepsFiles(f: Flushing, names: seq<Name>, network: Network)
    requires Distinct(names) && Holds(f.spool, names)
    ensures FlushNames(f, names, network).spool.files == f.spool.files
    decreases |names|
  {
    if names != [] {
      FlushOneTouchesOne(f, names[0], network);
      HoldsRest(f, names, network);
      FlushKeepsFiles(FlushOne(f, names[0], network), names[1..], network);
    }
  }

  /** When the service answers throughout, a flush delivers every record that can be read, empties the spool, and sets
    * aside only what cannot be read. */
  lemma FlushDelivers(nameOf: Id -> Name, s: Spool, network: Network)
    requires Ok(nameOf, s) && forall i | |s.attempts| <= i :: network(i).Answered?
    ensures var s' := Flush(s, network);
            && s'.records == map[] && s'.files == map[] && s.attempts <= s'.attempts
            && (forall n | n in s.records && s.records[n].Readable? ::
                 Attempt(s.records[n].record.id, Delivered) in s'.attempts[|s.attempts|..])
            && (forall n | n in s'.rejected ::
                 || (n in s.records && s.records[n].Unreadable? && s'.rejected[n] == s.records[n])
                 || (n in s.rejected && s'.rejected[n] == s.rejected[n]))
  {
    hide Flush, Ok, FilesHeld;
    var s' := Flush(s, network);
    FlushIsFair(nameOf, s, network);
    var made := FlushStopsAsking(s, network);
    if made != [] { assert s'.attempts[|s'.attempts| - 1] == made[|made| - 1]; }
    FlushKeepsOk(nameOf, s, network);
    forall n | n in s.records && s.records[n].Readable?
      ensures Attempt(s.records[n].record.id, Delivered) in s'.attempts[|s.attempts|..] {
      assert Gone(s, s', n, network);
      var i :| |s.attempts| <= i < |s'.attempts| && s'.attempts[i].id == s.records[n].record.id;
      assert Decided(s'.attempts[i].verdict, network(i));
      assert s'.attempts[|s.attempts|..][i - |s.attempts|] == s'.attempts[i];
    }
    RejectsUnreadable(s, s', network);
  }

  lemma RejectsUnreadable(s: Spool, s': Spool, network: Network)
    requires Fair(s, s', network) && forall i | |s.attempts| <= i :: network(i).Answered?
    requires s'.records == map[]
    ensures forall n | n in s'.rejected ::
              || (n in s.records && s.records[n].Unreadable? && s'.rejected[n] == s.records[n])
              || (n in s.rejected && s'.rejected[n] == s.rejected[n])
  {
  }

  /** While the service is away a flush leaves every record that can be read, with all its files. */
  lemma FlushWaits(nameOf: Id -> Name, s: Spool, network: Network)
    requires Ok(nameOf, s) && network(|s.attempts|) == Unavailable
    ensures var s' := Flush(s, network);
            && (forall n | n in s.records && s.records[n].Readable? ::
                 && n in s'.records && s'.records[n] == s.records[n]
                 && forall sha | sha in Shas(s.records[n].record) ::
                   sha in s'.files && sha in s.files && s'.files[sha] == s.files[sha])
            && |s'.attempts| <= |s.attempts| + 1
  {
    hide Flush, Ok, FilesHeld;
    var s' := Flush(s, network);
    FlushIsFair(nameOf, s, network);
    FlushKeepsOk(nameOf, s, network);
    var made := FlushStopsAsking(s, network);
    if made != [] {
      assert s'.attempts[|s.attempts|] == made[0];
      assert Decided(made[0].verdict, network(|s.attempts|));
    }
    assert forall n | n in s.records && n !in s'.records :: Gone(s, s', n, network);
    forall n | n in s.records && s.records[n].Readable?
      ensures n in s'.records && s'.records[n] == s.records[n]
              && forall sha | sha in Shas(s.records[n].record) ::
                sha in s'.files && sha in s.files && s'.files[sha] == s.files[sha] {
      assert Shas(s.records[n].record) <= Needed(s'.records);
    }
  }

  // ---- over every run ----

  /** Why an entry was set aside: nobody can read it, or the service once refused that record. */
  ghost predicate Cause(s: Spool, e: Entry, network: Network) {
    e.Unreadable?
    || exists i :: 0 <= i < |s.attempts| && s.attempts[i].id == e.record.id && network(i).Refused?
  }

  /** Each verdict is what the service's answer allows, and nothing was set aside without a cause. */
  ghost predicate Justified(s: Spool, network: Network) {
    && (forall i | 0 <= i < |s.attempts| ::
         && (s.attempts[i].verdict == Retry <==> network(i) == Unavailable)
         && (s.attempts[i].verdict == Delivered ==> network(i).Answered?))
    && (forall n | n in s.rejected :: Cause(s, s.rejected[n], network))
  }

  lemma CauseStays(s: Spool, s': Spool, e: Entry, network: Network)
    requires s.attempts <= s'.attempts && Cause(s, e, network)
    ensures Cause(s', e, network)
  {
    if e.Readable? {
      var i :| 0 <= i < |s.attempts| && s.attempts[i].id == e.record.id && network(i).Refused?;
      assert s'.attempts[i] == s.attempts[i];
    }
  }

  /** A send, and nothing set aside. */
  lemma SendJustified(s: Spool, s': Spool, x: Record, held: set<Sha>, network: Network)
    requires Justified(s, network) && s'.rejected == s.rejected
    requires s'.attempts == s.attempts || s'.attempts == Send(s, x, held, network(|s.attempts|)).attempts
    ensures Justified(s', network)
  {
    hide Cause;
    SendMeaning(s, x, held, network(|s.attempts|));
    forall n | n in s'.rejected ensures Cause(s', s'.rejected[n], network) {
      CauseStays(s, s', s.rejected[n], network);
    }
    forall i | 0 <= i < |s'.attempts|
      ensures s'.attempts[i].verdict == Retry <==> network(i) == Unavailable
      ensures s'.attempts[i].verdict == Delivered ==> network(i).Answered? {
      if i < |s.attempts| { assert s'.attempts[i] == s.attempts[i]; }
    }
  }

  lemma FlushOneJustified(f: Flushing, name: Name, network: Network)
    requires FilesHeld(f.spool) && name in f.spool.records && Justified(f.spool, network)
    ensures Justified(FlushOne(f, name, network).spool, network)
  {
    var s, s' := f.spool, FlushOne(f, name, network).spool;
    if s.records[name].Readable? && !f.unavailable {
      var x := s.records[name].record;
      var asked := Send(s, x, s.files.Keys, network(|s.attempts|));
      SendJustified(s, asked, x, s.files.Keys, network);
      assert Shas(x) <= Needed(s.records);
      assert asked.attempts[|s.attempts|].id == x.id;
      forall n | n in s'.rejected ensures Cause(s', s'.rejected[n], network) {
        if n in asked.rejected && s'.rejected[n] == asked.rejected[n] {
          CauseStays(asked, s', asked.rejected[n], network);
        }
      }
    } else {
      forall n | n in s'.rejected ensures Cause(s', s'.rejected[n], network) {
        if n in s.rejected && s'.rejected[n] == s.rejected[n] { CauseStays(s, s', s.rejected[n], network); }
      }
    }
  }

  lemma {:induction false} FlushNamesJustified(nameOf: Id -> Name, f: Flushing, names: seq<Name>, network: Network)
    requires Ok(nameOf, f.spool) && Distinct(names) && Holds(f.spool, names) && Justified(f.spool, network)
    ensures Justified(FlushNames(f, names, network).spool, network)
    decreases |names|
  {
    hide Justified, FlushOne;
    if names != [] {
      FlushOneJustified(f, names[0], network);
      FlushOneKeepsOk(nameOf, f, names[0], network);
      HoldsRest(f, names, network);
      FlushNamesJustified(nameOf, FlushOne(f, names[0], network), names[1..], network);
    }
  }

  lemma SameJustified(s: Spool, s': Spool, network: Network)
    requires Justified(s, network) && s'.attempts == s.attempts && s'.rejected == s.rejected
    ensures Justified(s', network)
  {
    forall n | n in s'.rejected ensures Cause(s', s'.rejected[n], network) {
      CauseStays(s, s', s.rejected[n], network);
    }
  }

  lemma StepJustified(nameOf: Id -> Name, s: Spool, step: Step, network: Network)
    requires Ok(nameOf, s) && Justified(s, network)
    ensures Justified(Next(nameOf, s, step, network), network)
  {
    hide Justified, Ok, CopyIn, FlushOne;
    var s' := Next(nameOf, s, step, network);
    SortedNames(s);
    var names := Ordering.Sorted(s.records.Keys);
    match step
    case DoPublish(x, sources) => SendJustified(s, s', x, sources.Keys, network);
    case DoFlush =>
      FlushNamesJustified(nameOf, Unflushed(s), names, network);
      SameJustified(FlushNames(Unflushed(s), names, network).spool, s', network);
    case StopInPublish(x, copied, sources) => SameJustified(s, s', network);
    case StopInFlush(passed, sent) => PassedJustified(nameOf, s, passed, sent, network);
  }

  lemma PassedJustified(nameOf: Id -> Name, s: Spool, passed: nat, sent: bool, network: Network)
    requires Ok(nameOf, s) && Justified(s, network)
    ensures Justified(Next(nameOf, s, StopInFlush(passed, sent), network), network)
  {
    hide Justified, Ok, FlushOne;
    SortedNames(s);
    var names, s' := Ordering.Sorted(s.records.Keys), Passed(s, passed, network);
    if passed <= |names| { FlushNamesJustified(nameOf, Unflushed(s), names[..passed], network); }
    var after := Next(nameOf, s, StopInFlush(passed, sent), network);
    if sent && passed < |names| && names[passed] in s'.records && s'.records[names[passed]].Readable? {
      SendJustified(s', after, s'.records[names[passed]].record, s'.files.Keys, network);
    } else {
      SameJustified(s', after, network);
    }
  }

  /** Over every run of publishes, flushes and stopped processes: a record is counted as delivered only when the service
    * answered, as worth another try exactly when it was away, and it is set aside only after the service refused it or
    * because nobody can read it. */
  lemma {:induction false} RejectedForCause(nameOf: Id -> Name, s: Spool, steps: seq<Step>, network: Network)
    requires Injective(nameOf) && Ok(nameOf, s) && Justified(s, network)
    ensures Justified(Exec(nameOf, s, steps, network), network)
    decreases |steps|
  {
    hide Justified, Ok, Next;
    if steps != [] {
      StepJustified(nameOf, s, steps[0], network);
      StepKeepsOk(nameOf, s, steps[0], network);
      RejectedForCause(nameOf, Next(nameOf, s, steps[0], network), steps[1..], network);
    }
  }

  // ---- the copies are whole ----

  /** A file is named by the hash of its content, so the name settles its size. */
  ghost predicate Honest(sizeOf: Sha -> nat, step: Step) {
    step.DoPublish? || step.StopInPublish? ==>
      && (forall ref | ref in step.record.refs :: ref.bytes == sizeOf(ref.sha))
      && (forall sha | sha in step.sources :: step.sources[sha] == sizeOf(sha))
  }

  /** Each record in the spool has a whole copy of each of its files there. */
  ghost predicate FilesWhole(sizeOf: Sha -> nat, s: Spool) {
    forall n | n in s.records && s.records[n].Readable? :: RefsWhole(sizeOf, s.files, s.records[n].record.refs)
  }

  ghost predicate RefsWhole(sizeOf: Sha -> nat, files: map<Sha, nat>, refs: seq<FileRef>) {
    forall ref | ref in refs :: ref.bytes == sizeOf(ref.sha) && ref.sha in files && files[ref.sha] == ref.bytes
  }

  /** A whole copy stays as it is; one cut short by a stopped process is made again. */
  lemma {:induction false} CopyMakesWhole(sizeOf: Sha -> nat, files: map<Sha, nat>, refs: seq<FileRef>,
                                          sources: map<Sha, nat>)
    requires forall ref | ref in refs :: ref.bytes == sizeOf(ref.sha)
    requires forall sha | sha in sources :: sources[sha] == sizeOf(sha)
    ensures var copied := CopyIn(files, refs, sources);
            && (copied.whole ==> RefsWhole(sizeOf, copied.files, refs))
            && (forall sha | sha in files && files[sha] == sizeOf(sha) ::
                 sha in copied.files && copied.files[sha] == sizeOf(sha))
    decreases |refs|
  {
    if refs != [] {
      var first := refs[0];
      assert forall ref | ref in refs :: ref == first || ref in refs[1..];
      if first.sha in files && files[first.sha] == first.bytes {
        CopyMakesWhole(sizeOf, files, refs[1..], sources);
      } else if first.sha in sources {
        CopyMakesWhole(sizeOf, files[first.sha := sources[first.sha]], refs[1..], sources);
      }
    }
  }

  lemma WholeStays(sizeOf: Sha -> nat, s: Spool, s': Spool)
    requires FilesWhole(sizeOf, s)
    requires forall n | n in s'.records :: n in s.records && s'.records[n] == s.records[n]
    requires forall sha | sha in s.files && s.files[sha] == sizeOf(sha) && sha in Needed(s'.records) ::
      sha in s'.files && s'.files[sha] == sizeOf(sha)
    ensures FilesWhole(sizeOf, s')
  {
    forall n | n in s'.records && s'.records[n].Readable?
      ensures RefsWhole(sizeOf, s'.files, s'.records[n].record.refs) {
      assert RefsWhole(sizeOf, s.files, s.records[n].record.refs);
      forall ref | ref in s'.records[n].record.refs ensures ref.sha in Needed(s'.records) {
        assert ref.sha in Shas(s'.records[n].record);
      }
    }
  }

  lemma KeepMakesWhole(sizeOf: Sha -> nat, s: Spool, name: Name, x: Record, sources: map<Sha, nat>)
    requires FilesWhole(sizeOf, s) && Honest(sizeOf, DoPublish(x, sources))
    ensures FilesWhole(sizeOf, Keep(s, name, x, sources).spool)
  {
    var s' := Keep(s, name, x, sources).spool;
    CopyMakesWhole(sizeOf, s.files, x.refs, sources);
    forall n | n in s'.records && s'.records[n].Readable?
      ensures RefsWhole(sizeOf, s'.files, s'.records[n].record.refs) {
      if n in s.records && s'.records[n] == s.records[n] {
        assert RefsWhole(sizeOf, s.files, s.records[n].record.refs);
      }
    }
  }

  lemma PassedKeepsWhole(nameOf: Id -> Name, sizeOf: Sha -> nat, s: Spool, passed: nat, network: Network)
    requires Ok(nameOf, s) && FilesWhole(sizeOf, s)
    ensures FilesWhole(sizeOf, Passed(s, passed, network))
  {
    hide Ok, FilesWhole;
    SortedNames(s);
    var names := Ordering.Sorted(s.records.Keys);
    if passed <= |names| {
      FlushNamesIsFair(nameOf, Unflushed(s), names[..passed], network);
      FlushKeepsFiles(Unflushed(s), names[..passed], network);
      WholeStays(sizeOf, s, Passed(s, passed, network));
    }
  }

  lemma StepKeepsWhole(nameOf: Id -> Name, sizeOf: Sha -> nat, s: Spool, step: Step, network: Network)
    requires Ok(nameOf, s) && FilesWhole(sizeOf, s) && Honest(sizeOf, step)
    ensures FilesWhole(sizeOf, Next(nameOf, s, step, network))
  {
    hide Ok, FilesWhole, Flush, Fair, Passed;
    var s' := Next(nameOf, s, step, network);
    match step
    case DoPublish(x, sources) =>
      var asked := Send(s, x, sources.Keys, network(|s.attempts|)).(spooling := true);
      WholeStays(sizeOf, s, asked);
      WholeStays(sizeOf, s, asked.(published := s.published + {x.id}, spooling := s.spooling));
      WholeStays(sizeOf, s, asked.(spooling := s.spooling));
      KeepMakesWhole(sizeOf, s, nameOf(x.id), x, sources);
      KeepMakesWhole(sizeOf, asked, nameOf(x.id), x, sources);
    case DoFlush =>
      FlushIsFair(nameOf, s, network);
      FlushKeepsOk(nameOf, s, network);
      FairRecords(s, s', network);
      WholeStays(sizeOf, s, s');
    case StopInPublish(x, copied, sources) =>
      var refs := if copied <= |x.refs| then x.refs[..copied] else x.refs;
      CopyMakesWhole(sizeOf, s.files, refs, sources);
      WholeStays(sizeOf, s, s');
    case StopInFlush(passed, sent) =>
      PassedKeepsWhole(nameOf, sizeOf, s, passed, network);
      WholeStays(sizeOf, Passed(s, passed, network), s');
  }

  lemma FairRecords(s: Spool, s': Spool, network: Network)
    requires Fair(s, s', network)
    ensures forall n | n in s'.records :: n in s.records && s'.records[n] == s.records[n]
  {
  }

  /** Over every run, each record in the spool keeps whole copies of its files. */
  lemma {:induction false} SpooledFilesAreWhole(nameOf: Id -> Name, sizeOf: Sha -> nat, s: Spool, steps: seq<Step>,
                                                network: Network)
    requires Injective(nameOf) && Ok(nameOf, s) && FilesWhole(sizeOf, s)
    requires forall i | 0 <= i < |steps| :: Honest(sizeOf, steps[i])
    ensures FilesWhole(sizeOf, Exec(nameOf, s, steps, network))
    decreases |steps|
  {
    hide FilesWhole, Ok, Next, Honest;
    if steps != [] {
      StepKeepsWhole(nameOf, sizeOf, s, steps[0], network);
      StepKeepsOk(nameOf, s, steps[0], network);
      SpooledFilesAreWhole(nameOf, sizeOf, Next(nameOf, s, steps[0], network), steps[1..], network);
    }
  }
}
