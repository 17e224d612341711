/** What the ratchet lists, told by the two trees alone. */
module RatchetLaws {
  import opened Prelude
  import opened Ratchet

  /** A file's name is what follows the last slash of its path. */
  lemma {:induction false} FileNameOf(directory: string, name: string)
    requires '/' !in name
    ensures FileName(directory + "/" + name) == name && FileName(name) == name
    decreases |name|
  {
    var path := directory + "/" + name;
    if name == "" {
      assert path == directory + "/" && path[|path| - 1] == '/';
    } else {
      var front := name[..|name| - 1];
      assert name == front + [name[|name| - 1]] && name[|name| - 1] in name;
      FileNameOf(directory, front);
      assert path[..|path| - 1] == directory + "/" + front && path[|path| - 1] == name[|name| - 1];
    }
  }

  /** A module is recognised after a move by its file name, anything else by its qualified name. */
  lemma IdentityMeaning(a: Key, b: Key, from: string, to: string, name: string)
    requires '/' !in name && a.path == from + "/" + name
    ensures a.unit == MODULE && b == Key(a.metric, to + "/" + name, MODULE) ==> IdentityOf(a) == IdentityOf(b)
    ensures a.unit == MODULE && b.unit == MODULE && IdentityOf(a) == IdentityOf(b) ==> FileName(b.path) == name
    ensures a.unit != MODULE && b.unit != MODULE ==>
              (IdentityOf(a) == IdentityOf(b) <==> a.metric == b.metric && a.unit == b.unit)
    ensures IdentityOf(a) == IdentityOf(b) ==> a.metric == b.metric
  {
    FileNameOf(from, name);
    FileNameOf(to, name);
  }

  /** Without a list of touched files everything is judged; with one, those files and the directories they are in. */
  lemma JudgedMeaning(touched: Option<set<string>>, path: string)
    ensures touched.None? ==> Judged(touched, path)
    ensures touched.Some? ==>
              (Judged(touched, path) <==> exists file :: file in touched.value && IsAtOrUnder(file, path))
  {
    forall file ensures IsAtOrUnder(file, path) <==> file == path || IsUnder(file, path) {
      if IsUnder(file, path) {
        var rest := file[|path| + 1..];
        assert file == path + "/" + rest;
      }
      if rest: string :| file == path + "/" + rest {
        assert file[..|path|] == path && file[|path|] == '/';
      }
    }
  }

  ghost predicate IsAtOrUnder(file: string, path: string) {
    file == path || exists rest: string :: file == path + "/" + rest
  }

  // ---- what is listed ----

  /** A unit that came where another of its identity went, the only two that did, and did not get worse. */
  ghost predicate MovedFrom(head: Findings, base: Findings, now: Key, was: Key) {
    && now in head && now !in base && was in base && was !in head
    && IdentityOf(now) == IdentityOf(was) && head[now] <= base[was]
    && (forall k | k in base && k !in head && IdentityOf(k) == IdentityOf(was) :: k == was)
    && (forall k | k in head && k !in base && IdentityOf(k) == IdentityOf(now) :: k == now)
  }

  lemma MovedIffMovedFrom(head: Findings, base: Findings, now: Key, was: Key)
    ensures MovedFrom(head, base, now, was) <==> Moved(Only(base, head), Only(head, base), now, was)
    ensures now in MovesTo(head, base) ==> MovedFrom(head, base, now, MovesTo(head, base)[now])
    ensures MovedFrom(head, base, now, was) ==> now in MovesTo(head, base) && MovesTo(head, base)[now] == was
  {
    hide IdentityOf;
    var removed, added := Only(base, head), Only(head, base);
    MovedIff(head, base, now, was);
    if now in MovesTo(head, base) { MovedIff(head, base, now, MovesTo(head, base)[now]); }
    assert forall k | Moved(removed, added, now, was) && Moved(removed, added, now, k) :: k == was;
  }

  lemma MovedIff(head: Findings, base: Findings, now: Key, was: Key)
    ensures MovedFrom(head, base, now, was) <==> Moved(Only(base, head), Only(head, base), now, was)
  {
    hide IdentityOf;
    var removed, added := Only(base, head), Only(head, base);
    assert forall k :: k in removed <==> k in base && k !in head;
    assert forall k :: k in added <==> k in head && k !in base;
  }

  /** A unit is listed as worse when the change touches its file and it grew, as new when the change touches its file
    * and it neither was there nor moved there, and as untouched when the change does not touch its file. */
  lemma ListedIff(head: Findings, base: Findings, touched: Option<set<string>>, key: Key)
    requires key in head
    ensures var worse, came := key in base && head[key] > base[key],
                                key !in base && forall was :: !MovedFrom(head, base, key, was);
            && (key in WorseKeys(head, base, touched) <==> worse && Judged(touched, key.path))
            && (key in NewKeys(head, base, touched) <==> came && Judged(touched, key.path))
            && (key in UntouchedKeys(head, base, touched) <==> (worse || came) && !Judged(touched, key.path))
  {
    hide MovedFrom, MovesTo, Judged;
    forall was | MovedFrom(head, base, key, was) ensures key in MovesTo(head, base) && key !in base {
      MovedIffMovedFrom(head, base, key, was);
      MovedIsNew(head, base, key, was);
    }
    if key in MovesTo(head, base) {
      MovedIffMovedFrom(head, base, key, MovesTo(head, base)[key]);
      MovedIsNew(head, base, key, MovesTo(head, base)[key]);
    }
  }

  lemma MovedIsNew(head: Findings, base: Findings, now: Key, was: Key)
    requires MovedFrom(head, base, now, was)
    ensures now in head && now !in base && was in base && was !in head && head[now] <= base[was]
  {
  }

  /** A change that makes no unit worse and adds none has nothing held against it, whatever it touches. */
  lemma NoWorseIsNotListed(head: Findings, base: Findings, touched: Option<set<string>>)
    requires forall k | k in head :: k in base && head[k] <= base[k]
    ensures NewKeys(head, base, touched) == WorseKeys(head, base, touched) == UntouchedKeys(head, base, touched) == {}
  {
    hide NewKeys, WorseKeys, UntouchedKeys;
    KeysAreHeads(head, base, touched);
    forall k | k in head ensures k !in NewKeys(head, base, touched) && k !in WorseKeys(head, base, touched)
                                 && k !in UntouchedKeys(head, base, touched) {
      ListedIff(head, base, touched, k);
    }
  }

  // ---- what got better ----

  /** A judged base unit is listed as improved when it has a lower value now, where it was or where it moved to, or is
    * in neither place. */
  lemma ImprovedIff(head: Findings, base: Findings, touched: Option<set<string>>, key: Key)
    ensures key in ImprovedKeys(head, base, touched) <==>
            && key in base && Judged(touched, key.path)
            && (key in head ==> head[key] < base[key])
            && forall now | MovedFrom(head, base, now, key) :: head[now] < base[key]
  {
    hide MovedFrom, MovesTo, Judged, MovedTo;
    MovedIs(head, base);
    var moved := MovedTo(head, base);
    forall now | MovedFrom(head, base, now, key) ensures key in moved && moved[key] == now && key !in head &&
      now in head {
      MovedIffMovedFrom(head, base, now, key);
      MovedIsNew(head, base, now, key);
    }
    if key in moved {
      MovedIffMovedFrom(head, base, moved[key], key);
      MovedIsNew(head, base, moved[key], key);
    }
  }

  /** When nothing is listed and nothing improved, the two trees have as many units and the same total value. */
  lemma NothingListedNothingChanged(head: Findings, base: Findings)
    requires NewKeys(head, base, None) == WorseKeys(head, base, None) == UntouchedKeys(head, base, None) == {}
    requires ImprovedKeys(head, base, None) == {}
    ensures |head| == |base| && TotalValue(head) == TotalValue(base)
  {
    hide NewKeys, WorseKeys, UntouchedKeys, ImprovedKeys, TotalValue, MovedFrom;
    PassingDoesNotGrowInAll(head, base, None);
    forall k | k in base ensures StaysAt(head, base, k, PlaceOf(head, base, k)) {
      ImprovedIff(head, base, None, k);
      NotImprovedStays(head, base, k);
    }
    var to := map k | k in base :: PlaceOf(head, base, k);
    forall a, b | a in base && b in base && to[a] == to[b] ensures a == b {
      PlacesDiffer(head, base, a, b);
    }
    InjectionIsBounded(base, to, head);
  }

  /** Where a base unit is now. */
  ghost function PlaceOf(head: Findings, base: Findings, key: Key): Key {
    if key !in head && exists now :: MovedFrom(head, base, now, key)
    then var now :| MovedFrom(head, base, now, key); now
    else key
  }

  ghost predicate StaysAt(head: Findings, base: Findings, key: Key, place: Key)
    requires key in base
  {
    place in head && base[key] <= head[place]
  }

  lemma NotImprovedStays(head: Findings, base: Findings, key: Key)
    requires key in base
    requires (key in head && head[key] >= base[key])
             || exists now :: MovedFrom(head, base, now, key) && head[now] >= base[key]
    ensures StaysAt(head, base, key, PlaceOf(head, base, key))
  {
    hide IdentityOf;
    if now :| MovedFrom(head, base, now, key) && head[now] >= base[key] {
      assert forall other | MovedFrom(head, base, other, key) :: other == now;
    }
  }

  lemma PlacesDiffer(head: Findings, base: Findings, a: Key, b: Key)
    requires a in base && b in base && PlaceOf(head, base, a) == PlaceOf(head, base, b)
    ensures a == b
  {
    hide IdentityOf;
  }
}
