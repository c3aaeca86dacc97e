/**
 * A move between two file systems, each of which a crash takes back as far as it likes, whatever
 * it keeps of the other.
 */
module DurableCopy {
  import opened Outcomes
  import opened Durable

  /** Whatever a crash keeps of the directory, the name has the whole content. */
  ghost predicate AlwaysHas(s: State, name: Name, content: Content) {
    forall k {:trigger CrashNames(s, k)} :: 0 <= k <= |s.pending| ==> Whole(s, CrashNames(s, k), name, content)
  }

  /** Whatever a crash keeps of each of two volumes, one of the two names has the whole content. */
  ghost predicate EitherKeeps(s: State, source: Name, t: State, destination: Name, content: Content) {
    forall j, k {:trigger CrashNames(s, j), CrashNames(t, k)} :: 0 <= j <= |s.pending| && 0 <= k <= |t.pending| ==>
      Whole(s, CrashNames(s, j), source, content) || Whole(t, CrashNames(t, k), destination, content)
  }

  /** The check over directories is, both ways, one over everything a crash can leave on both volumes. */
  lemma EitherKeepsMeans(s: State, source: Name, t: State, destination: Name, content: Content)
    requires WellFormed(s) && WellFormed(t)
    ensures EitherKeeps(s, source, t, destination, content) <==>
            forall here, there | CrashesTo(s, here) && CrashesTo(t, there) :: Has(here, source, content) || Has(there, destination, content)
  {
    if EitherKeeps(s, source, t, destination, content) {
      forall here, there | CrashesTo(s, here) && CrashesTo(t, there)
        ensures Has(here, source, content) || Has(there, destination, content)
      {
        var j :| 0 <= j <= |s.pending| && Survives(s, CrashNames(s, j), here);
        var k :| 0 <= k <= |t.pending| && Survives(t, CrashNames(t, k), there);
        assert Whole(s, CrashNames(s, j), source, content) || Whole(t, CrashNames(t, k), destination, content);
      }
    } else {
      var j, k :| 0 <= j <= |s.pending| && 0 <= k <= |t.pending|
        && !Whole(s, CrashNames(s, j), source, content) && !Whole(t, CrashNames(t, k), destination, content);
      var here := WorstCrash(s, j, source, source, content);
      var there := WorstCrash(t, k, destination, destination, content);
      assert CrashesTo(s, here) && CrashesTo(t, there);
    }
  }

  /** As neither volume waits for the other, a copy survives every crash only where one alone would. */
  lemma OneAloneKeeps(s: State, source: Name, t: State, destination: Name, content: Content)
    ensures EitherKeeps(s, source, t, destination, content) <==> AlwaysHas(s, source, content) || AlwaysHas(t, destination, content)
  {
    if EitherKeeps(s, source, t, destination, content) && !AlwaysHas(s, source, content) {
      var j :| 0 <= j <= |s.pending| && !Whole(s, CrashNames(s, j), source, content);
      forall k | 0 <= k <= |t.pending| ensures Whole(t, CrashNames(t, k), destination, content) {
        assert Whole(s, CrashNames(s, j), source, content) || Whole(t, CrashNames(t, k), destination, content);
      }
    }
  }

  /** A name that the directory did not show before may be gone again after a crash, until the directory is synced. */
  lemma MayBeGone(before: State, s: State, name: Name, content: Content)
    requires WellFormed(before) && name !in before.names && s.durable == before.durable && before.pending <= s.pending
    ensures !AlwaysHas(s, name, content)
  {
    var k := |before.pending|;
    assert s.pending[..k] == before.pending && CrashNames(s, k) == before.names;
  }

  /** A name removed stays removed where a crash keeps everything. */
  lemma RemovedIsGone(s: State, name: Name, content: Content)
    requires WellFormed(s) && name !in s.names
    ensures !AlwaysHas(s, name, content)
  {
    assert s.pending[..|s.pending|] == s.pending && CrashNames(s, |s.pending|) == s.names;
  }

  /** Once the directory of the destination is synced, the copy survives every crash. */
  lemma SyncedDirectoryKeeps(s: State, source: Name, t: State, destination: Name, content: Content)
    requires WellFormed(t) && Whole(t, t.names, destination, content)
    ensures EitherKeeps(s, source, t.(durable := t.names, pending := []), destination, content)
  {
    var synced := t.(durable := t.names, pending := []);
    assert CrashNames(synced, 0) == t.names;
    OneAloneKeeps(s, source, synced, destination, content);
  }

  /** Nothing that was on its way to the disk is undone. */
  ghost predicate Adds(before: State, s: State) {
    WellFormed(s) && s.durable == before.durable && before.pending <= s.pending
  }

  /** Write a file and sync it. */
  method WriteSynced(v: Volume, inode: Inode, content: Content) returns (ok: bool)
    requires WellFormed(v.now) && inode in v.now.files
    modifies v
    ensures v.now == old(v.now).(files := v.now.files) && v.now.files.Keys == old(v.now).files.Keys
    ensures WellFormed(v.now)
    ensures ok ==> v.now.files[inode] == File(content, true)
  {
    ghost var part;
    ok, part := v.Write(inode, content);
    if ok {
      ok := v.Fsync(inode);
    }
  }

  /** The copy: a file created exclusively, written and synced; a failed one is removed again. */
  method CopyAcross(to: Volume, destination: Name, content: Content) returns (copied: bool)
    requires WellFormed(to.now)
    modifies to
    ensures Adds(old(to.now), to.now)
    ensures destination in old(to.now).names ==> !copied && to.now == old(to.now)
    ensures copied ==> Whole(to.now, to.now.names, destination, content)
  {
    ghost var before := to.now;
    var inode := to.Create(destination);
    if inode.None? {
      return false;
    }
    WellFormedGrows(before, to.now, Bind(destination, inode.value));
    copied := WriteSynced(to, inode.value, content);
    if !copied {
      ghost var failed := to.now;
      var removed := to.Unlink(destination);
      if removed {
        WellFormedGrows(failed, to.now, Drop(destination));
      }
    }
  }

  /** `_remove_moved_source`, once the copy is whole; a source that stays is a spare copy. */
  method RemoveCopied(from: Volume, ghost to: Volume, source: Name, ghost destination: Name, ghost content: Content)
    returns (removed: bool)
    requires from != to && WellFormed(from.now) && Whole(to.now, to.now.names, destination, content)
    modifies from
    ensures WellFormed(from.now) && if removed then source !in from.now.names else from.now == old(from.now)
  {
    ghost var before := from.now;
    removed := from.Unlink(source);
    if removed {
      WellFormedGrows(before, from.now, Drop(source));
    }
  }

  /**
   * `move_private` between two file systems: a synced copy under a name nothing holds, and then
   * the removal of the source.  A file at the destination is never touched, and the source goes
   * only once the copy is whole.  A whole copy survives every crash exactly when it did before and
   * nothing was moved, or the removal of the source was refused: the copy itself may be gone, as
   * nobody syncs its directory.  So no move that removes its source survives every crash.
   */
  method MoveAcross(from: Volume, to: Volume, source: Name, destination: Name)
    returns (r: Moved, ghost content: Content, ghost refused: bool)
    requires from != to && WellFormed(from.now) && WellFormed(to.now) && source in from.now.names
    modifies from, to
    ensures WellFormed(from.now) && WellFormed(to.now)
    ensures ContentAt(old(from.now), source) == Some(content)
    ensures r == WasTaken <==> destination in old(to.now).names
    ensures r == WasTaken ==> to.now == old(to.now)
    ensures r == WasMoved && !refused ==> source !in from.now.names
    ensures r != WasMoved || refused ==> from.now == old(from.now)
    ensures r == WasMoved ==> Whole(to.now, to.now.names, destination, content)
    ensures destination !in old(to.now).names ==>
              (EitherKeeps(from.now, source, to.now, destination, content) <==>
                 (r != WasMoved || refused) && AlwaysHas(old(from.now), source, content))
  {
    ghost var there := to.now;
    var copy := from.now.files[from.now.names[source]].content;
    content, refused := copy, false;
    if destination in to.now.names {
      return WasTaken, content, refused;
    }
    r := WasRefused;
    var copied := CopyAcross(to, destination, copy);
    if copied {
      var removed := RemoveCopied(from, to, source, destination, content);
      r, refused := WasMoved, !removed;
    }
    if source !in from.now.names {
      RemovedIsGone(from.now, source, content);
    }
    MayBeGone(there, to.now, destination, content);
    OneAloneKeeps(from.now, source, to.now, destination, content);
  }
}
