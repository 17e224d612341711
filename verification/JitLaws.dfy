/** What an invalidation and a restore of the JIT cache mean to whoever asked for them. */
module JitLaws {
  import opened Prelude
  import opened JitCache
  import Ordering

  /** The modules in scope are the compiled ones whose stem was asked for, or all when none was named. */
  lemma InScopeMeaning(scope: Scope, name: Name)
    ensures InScope(scope, name) <==> exists stem :: IsAskedFor(scope, name, stem)
  {
    if InScope(scope, name) {
      assert IsAskedFor(scope, name, name[..|name| - 3]);
    }
    forall stem | IsAskedFor(scope, name, stem) ensures InScope(scope, name) {
      assert name[..|name| - 3] == stem && name[|name| - 3..] == ".so";
    }
  }

  ghost predicate IsAskedFor(scope: Scope, name: Name, stem: string) {
    stem != "" && name == stem + ".so" && (scope.All? || stem in scope.stems)
  }

  /** A stem is a word character and then word characters, dots and dashes, so it never leads out of the cache. */
  lemma StemMeaning(c: char, rest: string)
    ensures IsStem([c] + rest) <==> IsWord(c) && forall d | d in rest :: IsWord(d) || d == '.' || d == '-'
    ensures !IsStem("") && (IsStem([c] + rest) ==> '/' !in [c] + rest)
  {
    var s := [c] + rest;
    assert forall i | 0 <= i < |rest| :: s[i + 1] == rest[i];
    if IsStem(s) {
      forall d | d in rest ensures IsWord(d) || d == '.' || d == '-' {
        var i :| 0 <= i < |rest| && rest[i] == d;
        assert IsStemChar(s[i + 1], false);
      }
      assert IsStemChar(s[0], true);
    } else {
      var i :| 0 <= i < |s| && !IsStemChar(s[i], i == 0);
      assert i == 0 || s[i] in rest;
    }
  }

  ghost predicate IsWord(c: char) {
    'a' <= c <= 'z' || 'A' <= c <= 'Z' || '0' <= c <= '9' || c == '_'
  }

  /** An invalidation refuses a bad stem, a module that is no file, a build that is no directory and backups within the
    * build, and nothing else. */
  lemma RefusedIff(jit: map<Name, Node>, scope: Scope, backupInBuild: bool)
    ensures !Invalidatable(jit, scope, backupInBuild) <==>
            || (scope.Only? && exists stem :: stem in scope.stems && !IsStem(stem))
            || (exists n :: n in jit && InScope(scope, n) && !jit[n].File?)
            || (BUILD in jit && !jit[BUILD].Directory?)
            || backupInBuild
  {
    hide IsStem;
    var taken := Part(jit, Selected(jit, scope));
    assert forall n | n in jit && InScope(scope, n) :: n in taken && taken[n] == jit[n];
  }

  lemma PartHas(jit: map<Name, Node>, scope: Scope, n: Name)
    ensures var taken := Part(jit, Selected(jit, scope));
            && (n in taken <==> n in jit && InScope(scope, n))
            && (n in taken ==> taken[n] == jit[n])
  {
    hide InScope;
  }

  lemma IsListed(names: set<Name>, n: Name)
    requires n in names
    ensures n in Ordering.Sorted(names)
  {
    Ordering.SortedIsAscending(names);
  }

  lemma IsFile(nodes: map<Name, Node>, n: Name)
    requires AllRegular(nodes) && n in nodes
    ensures nodes[n].File?
  {
  }

  lemma HoldsThat(nodes: map<Name, Node>, n: Name, node: Node)
    requires n in nodes && nodes[n] == node
    ensures Holds(nodes, n, node)
  {
  }

  lemma IsSame(before: map<Name, Node>, after: map<Name, Node>, names: set<Name>, n: Name)
    requires after == before - names - {BUILD}
    ensures n == BUILD || n in names ==> n !in after
    ensures n != BUILD && n !in names ==> SameAt(before, after, n)
  {
    hide BUILD;
  }

  lemma WhatIsTaken(before: Fs, after: Fs, rec: Record)
    requires TookAway(before, after, rec)
    ensures var taken := Part(before.jit, Selected(before.jit, rec.scope));
            && after.jit == before.jit - taken.Keys - {BUILD} && AllRegular(taken)
            && rec.names == Some(Ordering.Sorted(taken.Keys))
            && (taken != map[] ==>
                && SavedModules(after, rec) == taken && rec.modulesBackup.Some?
                && Holds(after.backups, rec.modulesBackup.value, Directory(SavedModules(after, rec))))
  {
    hide InScope, BUILD, Ordering.Sorted, AllRegular, ValidScope, Selected, Part;
  }

  /** An invalidation takes the build and the modules asked for, and leaves every other entry. */
  lemma TakesOnlyWhatWasAskedFor(before: Fs, after: Fs, rec: Record, n: Name)
    requires TookAway(before, after, rec)
    ensures if n == BUILD || InScope(rec.scope, n) then n !in after.jit else SameAt(before.jit, after.jit, n)
    ensures n in before.jit && n != BUILD && InScope(rec.scope, n) ==>
            && before.jit[n].File? && rec.names.Some? && n in rec.names.value && rec.modulesBackup.Some?
            && Holds(after.backups, rec.modulesBackup.value, Directory(SavedModules(after, rec)))
            && Holds(SavedModules(after, rec), n, before.jit[n])
  {
    hide *;
    var taken := Part(before.jit, Selected(before.jit, rec.scope));
    WhatIsTaken(before, after, rec);
    PartHas(before.jit, rec.scope, n);
    IsSame(before.jit, after.jit, taken.Keys, n);
    if n in taken {
      IsListed(taken.Keys, n);
      IsFile(taken, n);
      HoldsThat(SavedModules(after, rec), n, before.jit[n]);
    }
  }

  /** What a restore puts back is what the record says there was: those modules, each a file, and a build if there was
    * one. */
  lemma RestoresWhatWasRecorded(before: Fs, after: Fs, rec: Record)
    requires Restorable(before, rec) && GaveBack(before, after, rec)
    ensures var serving := Selected(after.jit, rec.scope);
            && (rec.names.Some? ==> multiset(rec.names.value) == multiset(serving))
            && (forall n | n in serving :: after.jit[n].File?)
    ensures rec.buildExisted.Some? ==> (rec.buildExisted.value <==> BUILD in after.jit)
    ensures rec.buildExisted.None? && rec.status != Clean ==> BUILD in after.jit
    ensures BUILD in after.jit ==> after.jit[BUILD].Directory?
    ensures forall n | n != BUILD && !InScope(rec.scope, n) :: SameAt(before.jit, after.jit, n)
  {
    BuildIsNoModule(rec.scope);
    SavedInScope(before, rec);
    hide InScope, BUILD, ValidScope, Unblocked;
    assert Selected(after.jit, rec.scope) == SavedModules(before, rec).Keys;
  }

  /** A restore gets to work only where it can delete what is in the way: but for a plain file in the place of the
    * build. */
  lemma OnlyAPlainBuildIsInTheWay(fs: Fs, rec: Record)
    requires Restorable(fs, rec)
    ensures NoTree(fs.jit) ==> fs.jit[BUILD].File?
    ensures forall n | n in fs.jit && InScope(rec.scope, n) :: !fs.jit[n].Directory?
  {
    hide InScope, RecordMatches;
    assert forall n | n in fs.jit && InScope(rec.scope, n) :: n in Selected(fs.jit, rec.scope);
  }
}
