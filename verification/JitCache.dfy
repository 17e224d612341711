/** The transaction on a runtime JIT cache: its `build` directory and compiled modules are moved aside before a
  * recompilation and put back after it.
  *
  * The cache directory and the backup directory are maps from names to nodes, and lie apart. Any step may fail; a move
  * or a copy of a single node that fails leaves the node it came from as it was.
  */
module JitCache {
  import opened Prelude
  import Ordering

  type Name = string

  datatype Node = File(bytes: string) | Directory(entries: map<Name, Node>) | Link

  const BUILD := "build"

  /** The modules asked for: all, or those with the given stems. */
  datatype Scope = All | Only(stems: seq<string>)

  predicate IsModule(name: Name) {
    |name| > 3 && name[|name| - 3..] == ".so"
  }

  predicate InScope(scope: Scope, name: Name) {
    IsModule(name) && (scope.All? || name[..|name| - 3] in scope.stems)
  }

  predicate IsStemChar(c: char, first: bool) {
    'a' <= c <= 'z' || 'A' <= c <= 'Z' || '0' <= c <= '9' || c == '_' || (!first && (c == '.' || c == '-'))
  }

  predicate IsStem(s: string) {
    s != "" && forall i | 0 <= i < |s| :: IsStemChar(s[i], i == 0)
  }

  predicate ValidScope(scope: Scope) {
    scope.Only? ==> forall s | s in scope.stems :: IsStem(s)
  }

  datatype Status = Done | Clean | Failed

  /** What an invalidation tells a later restore: the build directory it is of, and what it took away. A record written
    * by an older version may lack some of it. Backups are named by their resolved paths: one that is not under the
    * backup root is none of the backups there are. */
  datatype Record = Record(
    src: string,
    status: Status,
    buildExisted: Option<bool>,
    scope: Scope,
    names: Option<seq<Name>>,
    backup: Option<Name>,
    modulesBackup: Option<Name>,
    rollbackErrors: nat)

  datatype Fs = Fs(jit: map<Name, Node>, backups: map<Name, Node>)

  function Selected(jit: map<Name, Node>, scope: Scope): set<Name> {
    set n | n in jit && InScope(scope, n)
  }

  function Part(nodes: map<Name, Node>, names: set<Name>): map<Name, Node> {
    map n | n in nodes && n in names :: nodes[n]
  }

  predicate AllRegular(nodes: map<Name, Node>) {
    forall n | n in nodes :: IsModule(n) && nodes[n].File?
  }

  predicate Holds(nodes: map<Name, Node>, name: Name, node: Node) {
    name in nodes && nodes[name] == node
  }

  // ---- what the two operations promise ----

  /** All of `before`'s build and modules in scope are in the backups the record names, and gone from the cache. */
  ghost predicate TookAway(before: Fs, after: Fs, rec: Record) {
    var taken := Part(before.jit, Selected(before.jit, rec.scope));
    && after.jit == before.jit - taken.Keys - {BUILD}
    && ValidScope(rec.scope) && AllRegular(taken)
    && rec.status == (if BUILD in before.jit || taken != map[] then Done else Clean)
    && rec.buildExisted == Some(BUILD in before.jit)
    && rec.names == Some(Ordering.Sorted(taken.Keys))
    && (rec.backup.Some? <==> BUILD in before.jit)
    && (rec.backup.Some? ==> before.jit[BUILD].Directory? && Holds(after.backups, rec.backup.value, before.jit[BUILD]))
    && (rec.modulesBackup.Some? <==> taken != map[])
    && (rec.modulesBackup.Some? ==> Holds(after.backups, rec.modulesBackup.value, Directory(taken)))
    && (rec.backup.Some? && rec.modulesBackup.Some? ==> rec.backup != rec.modulesBackup)
  }

  function SavedModules(fs: Fs, rec: Record): map<Name, Node> {
    if rec.modulesBackup.Some? && rec.modulesBackup.value in fs.backups &&
      fs.backups[rec.modulesBackup.value].Directory?
    then fs.backups[rec.modulesBackup.value].entries else map[]
  }

  function SavedBuild(fs: Fs, rec: Record): map<Name, Node> {
    if rec.backup.Some? && rec.backup.value in fs.backups then map[BUILD := fs.backups[rec.backup.value]] else map[]
  }

  /** The cache holds, of its build and the modules in scope, exactly what the record's backups held. */
  ghost predicate GaveBack(before: Fs, after: Fs, rec: Record) {
    && after.jit == (before.jit - Selected(before.jit, rec.scope) - {BUILD}) + SavedModules(before, rec) +
      SavedBuild(before, rec)
    && after.backups == before.backups - (if rec.backup.Some? then {rec.backup.value} else {})
  }

  /** Nothing changed but the build and the modules in scope; all backups are as they were. */
  ghost predicate Within(scope: Scope, before: Fs, after: Fs) {
    && after.backups == before.backups
    && forall n | n != BUILD && !InScope(scope, n) :: SameAt(before.jit, after.jit, n)
  }

  lemma BuildIsNoModule(scope: Scope)
    ensures !InScope(scope, BUILD)
  {
    assert BUILD[|BUILD| - 3..] == "ild";
  }

  lemma TakenIsSaved(original: Fs, taken: Fs, rebuilt: Fs, rec: Record)
    requires TookAway(original, taken, rec) && rebuilt.backups == taken.backups
    ensures SavedModules(rebuilt, rec) == Part(original.jit, Selected(original.jit, rec.scope))
    ensures SavedBuild(rebuilt, rec) == Part(original.jit, {BUILD})
  {
    hide InScope, BUILD, Ordering.Sorted, AllRegular, ValidScope, Selected, Part;
    PartOfOne(original.jit, BUILD);
  }

  lemma PartOfOne(nodes: map<Name, Node>, name: Name)
    ensures Part(nodes, {name}) == if name in nodes then map[name := nodes[name]] else map[]
  {
  }

  lemma PutBack(original: map<Name, Node>, rebuilt: map<Name, Node>, scope: Scope)
    requires forall n | n != BUILD && !InScope(scope, n) :: SameAt(original, rebuilt, n)
    ensures (rebuilt - Selected(rebuilt, scope) - {BUILD}) + Part(original, Selected(original, scope)) +
            Part(original, {BUILD})
         == original
  {
    hide InScope, BUILD;
    var left, modules, build := rebuilt - Selected(rebuilt, scope) - {BUILD},
      Part(original, Selected(original, scope)), Part(original, {BUILD});
    var restored := left + modules + build;
    forall n ensures SameAt(restored, original, n) {
      assert SameAt(original, rebuilt, n) || n == BUILD || InScope(scope, n);
    }
    SameEverywhere(restored, original);
  }

  predicate SameAt(a: map<Name, Node>, b: map<Name, Node>, n: Name) {
    (n in a <==> n in b) && (n in a ==> a[n] == b[n])
  }

  lemma SameEverywhere(a: map<Name, Node>, b: map<Name, Node>)
    requires forall n :: SameAt(a, b, n)
    ensures a == b
  {
    assert forall n :: SameAt(a, b, n) ==> (n in a <==> n in b);
  }

  /** The round trip: after an invalidation, and any recompilations and failed restores that keep to the build and the
    * modules in scope, a restore gives back the very cache there was. */
  lemma RoundTrip(original: Fs, taken: Fs, rebuilt: Fs, restored: Fs, rec: Record)
    requires TookAway(original, taken, rec) && Within(rec.scope, taken, rebuilt) && GaveBack(rebuilt, restored, rec)
    ensures restored.jit == original.jit
  {
    TakenIsSaved(original, taken, rebuilt, rec);
    OutsideIsSame(original, taken, rebuilt, rec);
    PutBack(original.jit, rebuilt.jit, rec.scope);
    hide InScope, BUILD, TookAway, Within, SavedModules, SavedBuild, Selected, Part;
  }

  lemma OutsideIsSame(original: Fs, taken: Fs, rebuilt: Fs, rec: Record)
    requires TookAway(original, taken, rec) && Within(rec.scope, taken, rebuilt)
    ensures forall n | n != BUILD && !InScope(rec.scope, n) :: SameAt(original.jit, rebuilt.jit, n)
  {
    hide InScope, BUILD, Ordering.Sorted, AllRegular, ValidScope, Holds;
    forall n | n != BUILD && !InScope(rec.scope, n) ensures SameAt(original.jit, rebuilt.jit, n) {
      assert n in original.jit <==> n in taken.jit;
    }
  }

  // ---- what a restore checks before it changes anything ----

  ghost predicate NamesMatch(names: Option<seq<Name>>, modules: map<Name, Node>) {
    names.Some? ==> multiset(names.value) == multiset(modules.Keys)
  }

  ghost predicate RecordMatches(fs: Fs, rec: Record) {
    var existed := if rec.buildExisted.Some? then rec.buildExisted.value else rec.backup.Some? || rec.status != Clean;
    && ValidScope(rec.scope)
    && existed == rec.backup.Some?
    && (rec.backup.Some? ==> rec.backup.value in fs.backups && fs.backups[rec.backup.value].Directory?)
    && (rec.modulesBackup.Some? ==>
      rec.modulesBackup.value in fs.backups && fs.backups[rec.modulesBackup.value].Directory?)
    && AllRegular(SavedModules(fs, rec))
    && NamesMatch(rec.names, SavedModules(fs, rec))
    && (forall n | n in SavedModules(fs, rec) :: InScope(rec.scope, n))
  }

  /** Nothing in the way of a restore is a link at the build or a directory at a module. */
  ghost predicate Unblocked(scope: Scope, jit: map<Name, Node>) {
    && !(BUILD in jit && jit[BUILD].Link?)
    && forall n | n in Selected(jit, scope) :: !jit[n].Directory?
  }

  /** The record and its backups are whole, and nothing is in the way. */
  ghost predicate Restorable(fs: Fs, rec: Record) {
    RecordMatches(fs, rec) && Unblocked(rec.scope, fs.jit)
  }

  /** What an invalidation took away can be restored, whatever the recompilation made that is no directory. */
  lemma TakenIsRestorable(original: Fs, taken: Fs, rebuilt: Fs, rec: Record)
    requires TookAway(original, taken, rec) && Within(rec.scope, taken, rebuilt)
    requires !(BUILD in rebuilt.jit && rebuilt.jit[BUILD].Link?)
    requires forall n | n in Selected(rebuilt.jit, rec.scope) :: !rebuilt.jit[n].Directory?
    ensures Restorable(rebuilt, rec)
  {
    hide InScope, BUILD, Ordering.Sorted, AllRegular, ValidScope, SavedModules, SavedBuild, Part, Selected, NamesMatch;
    TakenIsSaved(original, taken, rebuilt, rec);
    NamesOfPart(original.jit, rec.scope);
  }

  lemma NamesOfPart(jit: map<Name, Node>, scope: Scope)
    ensures var modules := Part(jit, Selected(jit, scope));
            && NamesMatch(Some(Ordering.Sorted(modules.Keys)), modules)
            && forall n | n in modules :: InScope(scope, n)
  {
    hide InScope, Ordering.Sorted;
    SortedIsEach(Part(jit, Selected(jit, scope)).Keys);
  }

  lemma {:induction false} SortedIsEach(names: set<Name>)
    ensures multiset(Ordering.Sorted(names)) == multiset(names)
    decreases |names|
  {
    if names != {} {
      var m := Ordering.Least(names);
      SortedIsEach(names - {m});
      assert multiset(names) == multiset{m} + multiset(names - {m});
    }
  }

  // ---- the operations ----

  type Faults = nat -> bool

  datatype Result = Skipped | RestoreFailed | Restored

  function Names(names: seq<Name>): set<Name> {
    set n | n in names
  }

  lemma SortedIsDistinct(names: set<Name>)
    ensures Distinct(Ordering.Sorted(names)) && Names(Ordering.Sorted(names)) == names
  {
    Ordering.SortedIsAscending(names);
  }

  lemma NamesOfMore(names: seq<Name>, i: nat)
    requires i < |names|
    ensures Names(names[..i + 1]) == Names(names[..i]) + {names[i]} && names[i] in Names(names)
    ensures Distinct(names) ==> names[i] !in Names(names[..i])
  {
    assert names[..i + 1] == names[..i] + [names[i]];
  }

  /** `nodes` without `out`, which the directory `saved` holds. */
  ghost predicate SetAside(whole: map<Name, Node>, nodes: map<Name, Node>, saved: map<Name, Node>, out: set<Name>) {
    nodes == whole - out && saved == Part(whole, out)
  }

  lemma SetAsideMore(whole: map<Name, Node>, nodes: map<Name, Node>, saved: map<Name, Node>, out: set<Name>, n: Name)
    requires SetAside(whole, nodes, saved, out) && n in whole && n !in out
    ensures n in nodes && SetAside(whole, nodes - {n}, saved[n := nodes[n]], out + {n})
  {
  }

  lemma SetAsideLess(whole: map<Name, Node>, nodes: map<Name, Node>, saved: map<Name, Node>, out: set<Name>, n: Name)
    requires SetAside(whole, nodes, saved, out) && n in whole && n in out
    ensures n in saved && SetAside(whole, nodes[n := saved[n]], saved - {n}, out - {n})
  {
  }

  lemma SetAsideNone(whole: map<Name, Node>, names: seq<Name>)
    ensures SetAside(whole, whole, map[], Names(names[..0])) && Names(names[..0]) == {}
  {
  }

  class Cache {
    const home: string
    var jit: map<Name, Node>
    var backups: map<Name, Node>
    var clock: nat

    ghost function Here(): Fs
      reads this
    {
      Fs(jit, backups)
    }

    constructor (home: string, jit: map<Name, Node>)
      ensures this.home == home && Here() == Fs(jit, map[])
    {
      this.home, this.jit, backups, clock := home, jit, map[], 0;
    }

    /** Whether the next step of the file system succeeds. */
    method Attempt(faults: Faults) returns (ok: bool)
      modifies `clock
      ensures clock == old(clock) + 1 && ok == !faults(old(clock))
    {
      ok := !faults(clock);
      clock := clock + 1;
    }

    /** Move modules into a new directory of the backups, up to the first that cannot be moved. */
    method MoveModules(modules: seq<Name>, to: Name, faults: Faults) returns (moved: nat)
      requires Distinct(modules) && Names(modules) <= jit.Keys
      modifies this
      ensures moved <= |modules| && to in backups && backups[to].Directory?
      ensures SetAside(old(jit), jit, backups[to].entries, Names(modules[..moved])) &&
              backups - {to} == old(backups) - {to}
      ensures clock >= old(clock) && (Reliable(faults, old(clock)) ==> moved == |modules|)
    {
      hide SetAside, Names, Distinct, Reliable;
      var saved: map<Name, Node> := map[];
      backups := backups[to := Directory(saved)];
      moved := 0;
      SetAsideNone(jit, modules);
      while moved < |modules|
        invariant moved <= |modules| && backups == old(backups)[to := Directory(saved)] && clock >= old(clock)
        invariant SetAside(old(jit), jit, saved, Names(modules[..moved]))
      {
        ReliableLater(faults, old(clock), clock);
        var ok := Attempt(faults);
        if !ok {
          break;
        }
        var n := modules[moved];
        NamesOfMore(modules, moved);
        SetAsideMore(old(jit), jit, saved, Names(modules[..moved]), n);
        saved := saved[n := jit[n]];
        backups := backups[to := Directory(saved)];
        jit := jit - {n};
        moved := moved + 1;
      }
    }

    /** Move modules back out of a directory of the backups, the last moved first; `stuck` are those that stay. */
    method ReturnModules(modules: seq<Name>, from: Name, ghost whole: map<Name, Node>, faults: Faults)
      returns (errors: nat, ghost stuck: set<Name>)
      requires Distinct(modules) && Names(modules) <= whole.Keys && from in backups && backups[from].Directory?
      requires SetAside(whole, jit, backups[from].entries, Names(modules))
      modifies this
      ensures from in backups && backups[from].Directory? && backups - {from} == old(backups) - {from}
      ensures SetAside(whole, jit, backups[from].entries, stuck) && (errors == 0 ==> stuck == {}) &&
              stuck <= Names(modules)
    {
      hide SetAside, Names, Distinct;
      var saved := backups[from].entries;
      SetAsideNone(whole, modules);
      errors, stuck := 0, {};
      var i := |modules|;
      assert modules[..i] == modules && Names(modules[..i]) + {} == Names(modules);
      while i > 0
        invariant i <= |modules| && backups == old(backups)[from := Directory(saved)]
        invariant stuck <= Names(modules) && stuck !! Names(modules[..i]) && (errors == 0 ==> stuck == {})
        invariant SetAside(whole, jit, saved, Names(modules[..i]) + stuck)
      {
        i := i - 1;
        var n := modules[i];
        NamesOfMore(modules, i);
        var ok := Attempt(faults);
        if ok {
          SetAsideLess(whole, jit, saved, Names(modules[..i + 1]) + stuck, n);
          assert Names(modules[..i + 1]) + stuck - {n} == Names(modules[..i]) + stuck;
          jit := jit[n := saved[n]];
          saved := saved - {n};
          backups := backups[from := Directory(saved)];
        } else {
          assert Names(modules[..i + 1]) + stuck == Names(modules[..i]) + (stuck + {n});
          errors, stuck := errors + 1, stuck + {n};
        }
      }
      assert Names(modules[..0]) + stuck == stuck;
    }

    /** Move modules into a new directory of the backups, or back again when one cannot be moved. */
    method MoveModulesOrNone(modules: seq<Name>, to: Name, faults: Faults)
                             returns (ok: bool, errors: nat, ghost stuck: set<Name>)
      requires Distinct(modules) && Names(modules) <= jit.Keys && to !in backups
      modifies this
      ensures backups - {to} == old(backups) && (to in backups ==> backups[to].Directory?)
      ensures to in backups || !ok
      ensures ok ==> SetAside(old(jit), jit, backups[to].entries, Names(modules))
      ensures !ok ==> (errors == 0 ==> stuck == {}) && stuck <= Names(modules)
      ensures !ok ==> if to in backups then SetAside(old(jit), jit, backups[to].entries, stuck)
                      else jit == old(jit) && stuck == {}
      ensures Reliable(faults, old(clock)) ==> ok
    {
      hide SetAside, Names, Reliable;
      errors, stuck := 0, {};
      ReliableLater(faults, clock, clock);
      ok := Attempt(faults);
      if !ok {
        return;
      }
      ReliableLater(faults, old(clock), clock);
      var moved := MoveModules(modules, to, faults);
      ok := moved == |modules|;
      if ok {
        assert modules[..moved] == modules;
        return;
      }
      SomeNames(modules, moved);
      errors, stuck := ReturnModules(modules[..moved], to, old(jit), faults);
    }

    /** Move the build and the modules into the backups; when a step fails, move back what was moved. */
    method MoveCache(modules: seq<Name>, stamp: string, faults: Faults)
                     returns (ok: bool, errors: nat, ghost stuck: set<Name>)
      requires Distinct(modules) && Names(modules) <= jit.Keys - {BUILD}
      modifies this
      ensures ok ==> MovedTo(old(jit), jit, backups, stamp, modules)
      ensures !ok ==> Aside(old(jit), jit, backups, stamp, stuck) && (errors == 0 ==> stuck == {})
      ensures OthersStay(old(backups), backups, stamp)
      ensures Reliable(faults, old(clock)) && Unused(old(backups), stamp) ==> ok
    {
      hide SetAside, Names, Distinct, BuildBackup, ModulesBackup, Aside, MovedTo, BUILD, Reliable, OthersStay;
      errors, stuck := 0, {};
      ReliableLater(faults, clock, clock);
      OthersAfter(backups, backups, backups, stamp);
      StampsDiffer(stamp);
      NothingAside(jit, backups, stamp);
      ok := Attempt(faults);
      if !ok || BuildBackup(stamp) in backups || ModulesBackup(stamp) in backups {
        return false, 0, {};
      }
      var hadBuild := BUILD in jit;
      if hadBuild {
        ReliableLater(faults, old(clock), clock);
        ok := Attempt(faults);
        if !ok {
          return;
        }
        backups := backups[BuildBackup(stamp) := jit[BUILD]];
        jit := jit - {BUILD};
      }
      ghost var kept := backups;
      assert jit == old(jit) - {BUILD};
      ReliableLater(faults, old(clock), clock);
      if modules != [] {
        ok, errors, stuck := MoveModulesOrNone(modules, ModulesBackup(stamp), faults);
        KeptAside(kept, backups, BuildBackup(stamp), ModulesBackup(stamp));
      }
      OthersAfter(old(backups), kept, backups, stamp);
      if ok {
        AllMoved(old(jit), jit, backups, stamp, modules);
        return;
      }
      SomeMoved(old(jit), jit, backups, stamp, stuck);
      if hadBuild {
        ok := Attempt(faults);
        if ok {
          jit := jit[BUILD := backups[BuildBackup(stamp)]];
          backups := backups - {BuildBackup(stamp)};
        } else {
          errors, stuck := errors + 1, stuck + {BUILD};
        }
      }
      ok := false;
    }

    /** Move the build and the modules in scope aside. A failure that reports no rollback error leaves the cache as it
      * was; in every failure what is not in its place is in the backups. It fails for what it must refuse, and
      * otherwise only when a step does. */
    method Invalidate(scope: Scope, stamp: string, backupInBuild: bool, faults: Faults)
                      returns (rec: Record, ghost stuck: set<Name>)
      modifies this
      ensures rec.src == home && (rec.status != Failed ==> rec.scope == scope && TookAway(old(Here()), Here(), rec))
      ensures rec.status == Failed ==>
              Aside(old(jit), jit, backups, stamp, stuck) && (rec.rollbackErrors == 0 ==> jit == old(jit))
      ensures rec.status == Clean ==> Here() == old(Here())
      ensures OthersStay(old(backups), backups, stamp)
      ensures !Invalidatable(old(jit), scope, backupInBuild) ==> rec.status == Failed && Here() == old(Here())
      ensures Invalidatable(old(jit), scope, backupInBuild) && Unused(old(backups), stamp) &&
              Reliable(faults, old(clock)) ==>
                rec.status != Failed
    {
      hide Reliable, OthersStay, Unused, Aside, MovedTo, InScope, AllRegular, ValidScope, BuildBackup, ModulesBackup,
           Ordering.Sorted, BUILD;
      stuck := {};
      NothingAside(jit, backups, stamp);
      OthersStayThemselves(backups, stamp);
      rec := Record(home, Failed, None, scope, None, None, None, 0);
      ReliableLater(faults, clock, clock);
      var ok := Attempt(faults);
      if !ok || (BUILD in jit && jit[BUILD].Link?) || !ValidScope(scope) {
        return;
      }
      var serving := Selected(jit, scope);
      if !AllRegular(Part(jit, serving)) || (BUILD in jit && !jit[BUILD].Directory?) || backupInBuild {
        return;
      }
      var names := Ordering.Sorted(serving);
      SelectedInJit(jit, scope);
      rec := rec.(buildExisted := Some(BUILD in jit), names := Some(names));
      if BUILD !in jit && serving == {} {
        rec := rec.(status := Clean);
        NothingTaken(Here(), rec);
        return;
      }
      var hadBuild := BUILD in jit;
      var errors: nat;
      ReliableLater(faults, old(clock), clock);
      ok, errors, stuck := MoveCache(names, stamp, faults);
      if !ok {
        AsideOfNone(old(jit), jit, backups, stamp, stuck);
        rec := rec.(rollbackErrors := errors);
        return;
      }
      rec := rec.(status := Done, backup := if hadBuild then Some(BuildBackup(stamp)) else None,
                  modulesBackup := if names != [] then Some(ModulesBackup(stamp)) else None);
      TakenAll(old(Here()), Here(), rec, stamp);
    }

    /** Whether the record is of this cache, it and its backups are whole, and nothing is in the way. */
    method Check(rec: Record) returns (ok: bool)
      ensures ok == (rec.src == home && Restorable(Here(), rec))
    {
      hide InScope, ValidScope, AllRegular, BUILD;
      var existed := if rec.buildExisted.Some? then rec.buildExisted.value else rec.backup.Some? || rec.status != Clean;
      if rec.src != home || (BUILD in jit && jit[BUILD].Link?) || !ValidScope(rec.scope) ||
        existed != rec.backup.Some? {
        return false;
      }
      if rec.backup.Some? && (rec.backup.value !in backups || !backups[rec.backup.value].Directory?) {
        return false;
      }
      var modules: map<Name, Node> := map[];
      if rec.modulesBackup.Some? {
        if rec.modulesBackup.value !in backups || !backups[rec.modulesBackup.value].Directory? {
          return false;
        }
        modules := backups[rec.modulesBackup.value].entries;
      }
      ok := && AllRegular(modules)
            && (rec.names.Some? ==> multiset(rec.names.value) == multiset(modules.Keys))
            && (forall n | n in modules :: InScope(rec.scope, n))
            && (forall n | n in Selected(jit, rec.scope) :: !jit[n].Directory?);
    }

    /** Delete the modules in scope. */
    method Clear(scope: Scope, faults: Faults) returns (ok: bool)
      modifies this
      ensures backups == old(backups) && clock >= old(clock) && KeepsToScope(scope, old(jit), jit)
      ensures ok ==> jit == old(jit) - Selected(old(jit), scope)
      ensures NoTree(jit) <==> NoTree(old(jit))
      ensures Reliable(faults, old(clock)) ==> ok
    {
      hide InScope, BUILD, Names, KeepsToScope, Distinct, Selected, Reliable, SetAside, NoTree;
      var candidates := Ordering.Sorted(Selected(jit, scope));
      SelectedInJit(jit, scope);
      SomeNames(candidates, 0);
      SetAsideNone(jit, candidates);
      assert jit == jit - {};
      var i := 0;
      while i < |candidates|
        invariant i <= |candidates| && backups == old(backups) && clock >= old(clock)
        invariant jit == old(jit) - Names(candidates[..i])
      {
        ReliableLater(faults, old(clock), clock);
        ok := Attempt(faults);
        if !ok {
          SomeNames(candidates, i);
          LessKeepsToScope(scope, old(jit), Names(candidates[..i]));
          TreeStays(old(jit), scope, Names(candidates[..i]));
          return;
        }
        NamesOfMore(candidates, i);
        assert old(jit) - Names(candidates[..i]) - {candidates[i]} == old(jit) - Names(candidates[..i + 1]);
        jit := jit - {candidates[i]};
        i := i + 1;
      }
      assert candidates[..i] == candidates;
      LessKeepsToScope(scope, old(jit), Names(candidates));
      TreeStays(old(jit), scope, Names(candidates));
      ok := true;
    }

    /** Delete the build; a failure may leave part of it. */
    method RemoveBuild(scope: Scope, faults: Faults) returns (ok: bool)
      modifies this
      ensures backups == old(backups) && clock >= old(clock) && KeepsToScope(scope, old(jit), jit)
      ensures ok ==> jit == old(jit) - {BUILD}
      ensures Reliable(faults, old(clock)) && !NoTree(old(jit)) ==> ok
      ensures NoTree(old(jit)) ==> !ok && jit == old(jit)
    {
      BuildIsNoModule(scope);
      hide InScope, BUILD;
      if BUILD !in jit {
        return true;
      }
      ok := Attempt(faults);
      ok := ok && jit[BUILD].Directory?;
      if ok {
        jit := jit - {BUILD};
      } else if jit[BUILD].Directory? {
        var remains: map<Name, Node> := *;
        jit := jit[BUILD := Directory(remains)];
      }
    }

    /** Copy one module into the cache; a failure may leave part of it. */
    method CopyModule(scope: Scope, n: Name, node: Node, faults: Faults) returns (ok: bool)
      requires InScope(scope, n) && node.File?
      modifies `jit, `clock
      ensures clock == old(clock) + 1 && ok == !faults(old(clock)) && KeepsToScope(scope, old(jit), jit)
      ensures ok ==> jit == old(jit)[n := node]
    {
      hide InScope, BUILD, KeepsToScope;
      SameKeepsToScope(scope, jit);
      ok := Attempt(faults);
      if ok {
        ModuleKeepsToScope(scope, jit, n, node);
        jit := jit[n := node];
      } else {
        var partial: Option<string> := *;
        if partial.Some? {
          ModuleKeepsToScope(scope, jit, n, File(partial.value));
          jit := jit[n := File(partial.value)];
        }
      }
    }

    /** Copy the saved modules into the cache, up to the first that cannot be copied. */
    method CopyModules(scope: Scope, modules: map<Name, Node>, faults: Faults) returns (ok: bool)
      requires forall n | n in modules :: InScope(scope, n) && modules[n].File?
      modifies `jit, `clock
      ensures clock >= old(clock) && KeepsToScope(scope, old(jit), jit)
      ensures ok ==> jit == old(jit) + modules
      ensures Reliable(faults, old(clock)) ==> ok
    {
      hide InScope, BUILD, Names, KeepsToScope, Part, Distinct, SetAside, Reliable;
      var names := Ordering.Sorted(modules.Keys);
      SetAsideNone(jit, names);
      CopiedNone(jit, modules);
      SameKeepsToScope(scope, jit);
      var i := 0;
      while i < |names|
        invariant i <= |names| && clock >= old(clock) && KeepsToScope(scope, old(jit), jit)
        invariant jit == old(jit) + Part(modules, Names(names[..i]))
      {
        ghost var before := jit;
        var n := names[i];
        ReliableLater(faults, old(clock), clock);
        ok := CopyModule(scope, n, modules[n], faults);
        KeepsChains(scope, old(jit), before, jit);
        if !ok {
          return;
        }
        NamesOfMore(names, i);
        CopiedOne(old(jit), modules, Names(names[..i]), n);
        i := i + 1;
      }
      assert names[..i] == names;
      SortedIsDistinct(modules.Keys);
      CopiedAll(modules);
      ok := true;
    }

    /** Put back what the record's backups hold. Nothing is changed unless all of it can be restored; after a failure it
      * still can be, so that a later try with no fault restores it. A plain file in the place of the build is not
      * refused: the modules in scope are deleted, and this and every later try fails. */
    method Restore(rec: Record, faults: Faults) returns (result: Result)
      modifies this
      ensures result == Skipped <==> rec.status == Failed || rec.src == ""
      ensures result == Skipped || rec.src != home || !Restorable(old(Here()), rec) ==>
              Here() == old(Here()) && result != Restored
      ensures result == RestoreFailed ==> Within(rec.scope, old(Here()), Here())
      ensures result == RestoreFailed && Restorable(old(Here()), rec) ==>
              Restorable(Here(), rec) && (NoTree(jit) ==> NoTree(old(jit)))
      ensures result == Restored ==> GaveBack(old(Here()), Here(), rec)
      ensures NoTree(old(jit)) ==> result != Restored && NoTree(jit)
      ensures result != Skipped && rec.src == home && Restorable(old(Here()), rec) && Reliable(faults, old(clock)) ==>
                && (result == Restored <==> !NoTree(old(jit)))
                && (NoTree(old(jit)) ==> Here() == Fs(old(jit) - Selected(old(jit), rec.scope), old(backups)))
    {
      hide InScope, BUILD, Restorable, KeepsToScope, Within, Selected, GaveBack, NoTree, Reliable, Unblocked;
      if rec.status == Failed || rec.src == "" {
        return Skipped;
      }
      var ok := Check(rec);
      SameIsWithin(rec.scope, Here());
      if !ok {
        return RestoreFailed;
      }
      SavedInScope(Here(), rec);
      var modules := if rec.modulesBackup.Some? then backups[rec.modulesBackup.value].entries else map[];
      assert modules == SavedModules(Here(), rec);
      ok := Clear(rec.scope, faults);
      ghost var cleared := jit;
      ToScopeIsWithin(rec.scope, old(Here()), Here());
      StillRestorable(old(Here()), Here(), rec);
      if !ok {
        return RestoreFailed;
      }
      ReliableLater(faults, old(clock), clock);
      ok := RemoveBuild(rec.scope, faults);
      ghost var removed := jit;
      KeepsChains(rec.scope, old(jit), cleared, jit);
      ToScopeIsWithin(rec.scope, old(Here()), Here());
      StillRestorable(old(Here()), Here(), rec);
      if !ok {
        return RestoreFailed;
      }
      ReliableLater(faults, old(clock), clock);
      ok := CopyModules(rec.scope, modules, faults);
      KeepsChains(rec.scope, old(jit), removed, jit);
      ToScopeIsWithin(rec.scope, old(Here()), Here());
      StillRestorable(old(Here()), Here(), rec);
      if !ok {
        return RestoreFailed;
      }
      ReliableLater(faults, old(clock), clock);
      RestoredAll(old(Here()), jit, rec, modules);
      if rec.backup.Some? {
        ok := Attempt(faults);
        if !ok {
          return RestoreFailed;
        }
        jit := jit[BUILD := backups[rec.backup.value]];
        backups := backups - {rec.backup.value};
      }
      result := Restored;
    }
  }

  function BuildBackup(stamp: string): Name {
    "jit_build_" + stamp
  }

  function ModulesBackup(stamp: string): Name {
    "jit_modules_" + stamp
  }

  lemma StampsDiffer(stamp: string)
    ensures BuildBackup(stamp) != ModulesBackup(stamp)
  {
    assert BuildBackup(stamp)[4] == 'b' && ModulesBackup(stamp)[4] == 'm';
  }

  /** What is not where it was, `stuck`, is in the backups of the stamp. */
  ghost predicate Aside(before: map<Name, Node>,
                        after: map<Name, Node>, backups: map<Name, Node>, stamp: string, stuck: set<Name>) {
    && after == before - stuck
    && forall n | n in stuck && n in before ::
         if n == BUILD then Holds(backups, BuildBackup(stamp), before[n])
         else ModulesBackup(stamp) in backups && backups[ModulesBackup(stamp)].Directory?
              && Holds(backups[ModulesBackup(stamp)].entries, n, before[n])
  }

  lemma NothingAside(jit: map<Name, Node>, backups: map<Name, Node>, stamp: string)
    ensures Aside(jit, jit, backups, stamp, {})
  {
  }

  lemma NothingNamed()
    ensures Names([]) == {}
  {
  }

  ghost predicate MovedTo(before: map<Name, Node>,
                          after: map<Name, Node>, backups: map<Name, Node>, stamp: string, modules: seq<Name>) {
    && after == before - Names(modules) - {BUILD}
    && (BUILD in before ==> Holds(backups, BuildBackup(stamp), before[BUILD]))
    && (modules != [] ==> Holds(backups, ModulesBackup(stamp), Directory(Part(before, Names(modules)))))
  }

  lemma SomeNames(names: seq<Name>, n: nat)
    requires n <= |names|
    ensures Names(names[..n]) <= Names(names) && (Distinct(names) ==> Distinct(names[..n]))
  {
  }

  lemma KeptAside(before: map<Name, Node>, after: map<Name, Node>, name: Name, other: Name)
    requires after - {other} == before && name != other
    ensures name in before ==> Holds(after, name, before[name])
  {
    if name in before { assert name in after - {other}; }
  }

  lemma AllMoved(before: map<Name, Node>, after: map<Name, Node>,
                 backups: map<Name, Node>, stamp: string, modules: seq<Name>)
    requires BUILD in before ==> Holds(backups, BuildBackup(stamp), before[BUILD])
    requires modules == [] ==> after == before - {BUILD}
    requires modules != [] ==> ModulesBackup(stamp) in backups && backups[ModulesBackup(stamp)].Directory?
    requires modules != [] ==> SetAside(before - {BUILD}, after, backups[ModulesBackup(stamp)].entries, Names(modules))
    requires BUILD !in Names(modules)
    ensures MovedTo(before, after, backups, stamp, modules)
  {
    hide BUILD, BuildBackup, ModulesBackup;
    if modules == [] {
      NothingNamed();
    } else {
      assert Part(before - {BUILD}, Names(modules)) == Part(before, Names(modules));
    }
  }

  lemma SomeMoved(before: map<Name, Node>, after: map<Name, Node>,
                  backups: map<Name, Node>, stamp: string, stuck: set<Name>)
    requires BUILD !in stuck && BuildBackup(stamp) != ModulesBackup(stamp)
    requires BUILD in before ==> Holds(backups, BuildBackup(stamp), before[BUILD])
    requires if ModulesBackup(stamp) in backups
             then backups[ModulesBackup(stamp)].Directory? &&
               SetAside(before - {BUILD}, after, backups[ModulesBackup(stamp)].entries, stuck)
             else after == before - {BUILD} && stuck == {}
    ensures BUILD !in before ==> Aside(before, after, backups, stamp, stuck)
    ensures BUILD in before ==> Aside(before, after[BUILD := before[BUILD]], backups - {BuildBackup(stamp)}, stamp,
            stuck)
    ensures BUILD in before ==> Aside(before, after, backups, stamp, stuck + {BUILD})
  {
    hide BUILD, BuildBackup, ModulesBackup;
    assert before - {BUILD} - stuck == before - (stuck + {BUILD});
    if BUILD in before {
      assert (before - {BUILD} - stuck)[BUILD := before[BUILD]] == before - stuck;
    } else {
      assert before - {BUILD} - stuck == before - stuck;
    }
  }

  // ---- proofs of the operations ----

  ghost predicate Reliable(faults: Faults, from: nat) {
    forall i: nat | i >= from :: !faults(i)
  }

  /** No backup was made under the stamp before. */
  ghost predicate Unused(backups: map<Name, Node>, stamp: string) {
    BuildBackup(stamp) !in backups && ModulesBackup(stamp) !in backups
  }

  ghost predicate OthersStay(before: map<Name, Node>, after: map<Name, Node>, stamp: string) {
    forall n | n != BuildBackup(stamp) && n != ModulesBackup(stamp) :: SameAt(before, after, n)
  }

  lemma OthersStayThemselves(backups: map<Name, Node>, stamp: string)
    ensures OthersStay(backups, backups, stamp)
  {
  }

  lemma OthersAfter(before: map<Name, Node>, kept: map<Name, Node>, after: map<Name, Node>, stamp: string)
    requires kept - {BuildBackup(stamp)} == before - {BuildBackup(stamp)}
    requires after - {ModulesBackup(stamp)} == kept - {ModulesBackup(stamp)}
    ensures OthersStay(before, after, stamp)
    ensures OthersStay(before, after - {BuildBackup(stamp)}, stamp)
  {
    hide BuildBackup, ModulesBackup;
    forall n | n != BuildBackup(stamp) && n != ModulesBackup(stamp)
      ensures SameAt(before, after, n) && SameAt(before, after - {BuildBackup(stamp)}, n)
    {
      assert n in before - {BuildBackup(stamp)} <==> n in kept - {BuildBackup(stamp)};
      assert n in after - {ModulesBackup(stamp)} <==> n in kept - {ModulesBackup(stamp)};
    }
  }

  /** What an invalidation does not refuse: a valid scope, regular modules, a build that is a directory or not there,
    * and backups outside of it. */
  ghost predicate Invalidatable(jit: map<Name, Node>, scope: Scope, backupInBuild: bool) {
    && ValidScope(scope) && AllRegular(Part(jit, Selected(jit, scope)))
    && (BUILD in jit ==> jit[BUILD].Directory?) && !backupInBuild
  }

  /** A build that is there and is no directory, which a restore cannot delete. */
  ghost predicate NoTree(jit: map<Name, Node>) {
    BUILD in jit && !jit[BUILD].Directory?
  }

  /** A change of the build and the modules in scope only, which puts nothing in the way of a restore. */
  ghost predicate KeepsToScope(scope: Scope, before: map<Name, Node>, after: map<Name, Node>) {
    && (forall n | n != BUILD && !InScope(scope, n) :: SameAt(before, after, n))
    && (Unblocked(scope, before) ==> Unblocked(scope, after))
    && (!NoTree(before) ==> !NoTree(after))
  }

  lemma KeepsChains(scope: Scope, a: map<Name, Node>, b: map<Name, Node>, c: map<Name, Node>)
    requires KeepsToScope(scope, a, b) && KeepsToScope(scope, b, c)
    ensures KeepsToScope(scope, a, c)
  {
    hide InScope, BUILD;
  }

  lemma ToScopeIsWithin(scope: Scope, before: Fs, after: Fs)
    requires KeepsToScope(scope, before.jit, after.jit) && before.backups == after.backups
    ensures Within(scope, before, after)
  {
    hide InScope, BUILD;
  }

  /** So what could be restored still can be. */
  lemma StillRestorable(before: Fs, after: Fs, rec: Record)
    requires KeepsToScope(rec.scope, before.jit, after.jit) && before.backups == after.backups
    ensures Restorable(before, rec) ==> Restorable(after, rec)
    ensures NoTree(after.jit) ==> NoTree(before.jit)
  {
    hide InScope, BUILD, Unblocked, NoTree;
  }

  lemma SameIsWithin(scope: Scope, fs: Fs)
    ensures Within(scope, fs, fs)
  {
    hide InScope, BUILD;
  }

  lemma SavedInScope(fs: Fs, rec: Record)
    requires Restorable(fs, rec)
    ensures rec.backup.Some? ==> rec.backup.value in fs.backups
    ensures rec.modulesBackup.Some? ==>
            rec.modulesBackup.value in fs.backups && fs.backups[rec.modulesBackup.value].Directory?
    ensures forall n | n in SavedModules(fs, rec) :: InScope(rec.scope, n) && SavedModules(fs, rec)[n].File?
  {
    hide InScope, BUILD, ValidScope, IsModule;
  }

  lemma SelectedInJit(jit: map<Name, Node>, scope: Scope)
    ensures var names := Ordering.Sorted(Selected(jit, scope));
            && Distinct(names) && Names(names) == Selected(jit, scope) <= jit.Keys - {BUILD}
            && (names == [] <==> Selected(jit, scope) == {})
  {
    SortedIsDistinct(Selected(jit, scope));
    BuildIsNoModule(scope);
    hide InScope, BUILD;
  }

  lemma AsideOfNone(before: map<Name, Node>, after: map<Name, Node>,
                    backups: map<Name, Node>, stamp: string, stuck: set<Name>)
    requires Aside(before, after, backups, stamp, stuck)
    ensures stuck == {} ==> after == before
  {
    hide BUILD, BuildBackup, ModulesBackup;
  }

  lemma NothingTaken(fs: Fs, rec: Record)
    requires BUILD !in fs.jit && Selected(fs.jit, rec.scope) == {} && ValidScope(rec.scope)
    requires rec == Record(rec.src, Clean, Some(false), rec.scope, Some(Ordering.Sorted({})), None, None, 0)
    ensures TookAway(fs, fs, rec)
  {
    hide BUILD, ValidScope, InScope;
    assert Part(fs.jit, {}) == map[] && fs.jit - {} - {BUILD} == fs.jit;
  }

  lemma TakenAll(before: Fs, after: Fs, rec: Record, stamp: string)
    requires var serving := Selected(before.jit, rec.scope);
             var names := Ordering.Sorted(serving);
             && MovedTo(before.jit, after.jit, after.backups, stamp, names) && Names(names) == serving
             && (names == [] <==> serving == {}) && (BUILD in before.jit || serving != {})
             && ValidScope(rec.scope) && AllRegular(Part(before.jit, serving))
             && (BUILD in before.jit ==> before.jit[BUILD].Directory?)
             && rec.status == Done && rec.buildExisted == Some(BUILD in before.jit) && rec.names == Some(names)
             && rec.backup == (if BUILD in before.jit then Some(BuildBackup(stamp)) else None)
             && rec.modulesBackup == (if names != [] then Some(ModulesBackup(stamp)) else None)
    ensures TookAway(before, after, rec)
  {
    hide BUILD, ValidScope, InScope, AllRegular, BuildBackup, ModulesBackup, Ordering.Sorted, Selected;
    StampsDiffer(stamp);
    PartKeys(before.jit, rec.scope);
  }

  lemma PartKeys(jit: map<Name, Node>, scope: Scope)
    ensures Part(jit, Selected(jit, scope)).Keys == Selected(jit, scope)
    ensures Part(jit, Selected(jit, scope)) == map[] <==> Selected(jit, scope) == {}
  {
    hide InScope;
    assert Part(jit, Selected(jit, scope)).Keys == Selected(jit, scope);
  }

  lemma ReliableLater(faults: Faults, from: nat, later: nat)
    requires from <= later
    ensures Reliable(faults, from) ==> Reliable(faults, later) && !faults(later)
  {
  }

  lemma TreeStays(jit: map<Name, Node>, scope: Scope, names: set<Name>)
    requires names <= Selected(jit, scope)
    ensures NoTree(jit - names) <==> NoTree(jit)
  {
    BuildIsNoModule(scope);
    hide InScope, BUILD;
  }

  lemma NothingIsLeft(original: Fs, taken: Fs, rec: Record)
    requires TookAway(original, taken, rec)
    ensures Selected(taken.jit, rec.scope) == {}
  {
    hide InScope, BUILD, Ordering.Sorted, AllRegular, ValidScope, Holds;
    forall n | n in original.jit && InScope(rec.scope, n) ensures n !in taken.jit {
      assert n in Part(original.jit, Selected(original.jit, rec.scope));
    }
  }

  /** After every invalidation a plain file that takes the place of the build passes the checks of a restore, which then
    * fails whenever it is tried. */
  lemma PlainBuildPassesTheChecks(original: Fs, taken: Fs, rec: Record, bytes: string)
    requires TookAway(original, taken, rec)
    ensures var rebuilt := Fs(taken.jit[BUILD := File(bytes)], taken.backups);
            Restorable(rebuilt, rec) && NoTree(rebuilt.jit)
  {
    hide InScope, BUILD, Restorable, TookAway;
    var rebuilt := Fs(taken.jit[BUILD := File(bytes)], taken.backups);
    BuildIsNoModule(rec.scope);
    NothingIsLeft(original, taken, rec);
    assert Selected(rebuilt.jit, rec.scope) == {};
    TakenIsRestorable(original, taken, rebuilt, rec);
  }

  lemma LessKeepsToScope(scope: Scope, jit: map<Name, Node>, names: set<Name>)
    requires names <= Selected(jit, scope)
    ensures KeepsToScope(scope, jit, jit - names)
  {
    BuildIsNoModule(scope);
    hide InScope, BUILD;
  }

  lemma CopiedNone(jit: map<Name, Node>, modules: map<Name, Node>)
    ensures jit + Part(modules, {}) == jit
  {
  }

  lemma CopiedOne(jit: map<Name, Node>, modules: map<Name, Node>, done: set<Name>, n: Name)
    requires n in modules
    ensures (jit + Part(modules, done))[n := modules[n]] == jit + Part(modules, done + {n})
  {
    var a, b := (jit + Part(modules, done))[n := modules[n]], jit + Part(modules, done + {n});
    forall k ensures SameAt(a, b, k) {}
    SameEverywhere(a, b);
  }

  lemma ModuleKeepsToScope(scope: Scope, jit: map<Name, Node>, n: Name, node: Node)
    requires InScope(scope, n) && node.File?
    ensures KeepsToScope(scope, jit, jit[n := node])
  {
    BuildIsNoModule(scope);
    hide InScope, BUILD;
  }

  lemma CopiedAll(modules: map<Name, Node>)
    ensures Part(modules, modules.Keys) == modules
  {
  }

  lemma SameKeepsToScope(scope: Scope, jit: map<Name, Node>)
    ensures KeepsToScope(scope, jit, jit)
  {
    hide InScope, BUILD;
  }

  lemma RestoredAll(before: Fs, jit: map<Name, Node>, rec: Record, modules: map<Name, Node>)
    requires modules == SavedModules(before, rec) && (rec.backup.Some? ==> rec.backup.value in before.backups)
    requires jit == before.jit - Selected(before.jit, rec.scope) - {BUILD} + modules
    ensures rec.backup.Some? ==>
              GaveBack(before, Fs(jit[BUILD := before.backups[rec.backup.value]], before.backups - {rec.backup.value}),
                rec)
    ensures rec.backup.None? ==> GaveBack(before, Fs(jit, before.backups), rec)
  {
    hide InScope, BUILD, Selected, SavedModules;
    assert jit + map[] == jit && before.backups - {} == before.backups;
    if rec.backup.Some? {
      var build := before.backups[rec.backup.value];
      assert jit[BUILD := build] == jit + map[BUILD := build];
    }
  }
}
