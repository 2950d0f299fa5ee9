/**
 cmd/agent/state.go:100-147: the agent's state file, replaced through a temporary file that is written,
 synced, closed and renamed. The agent, or the machine under it, may stop between any two calls.
 */
module StateFiles {
  import opened Prelude

  /** What reading a file gives: a whole encoded value, or anything else. */
  datatype Content<T> = Whole(value: T) | Torn

  /** `synced`: the content has reached the disk. */
  datatype Inode<T> = Inode(content: Content<T>, synced: bool)

  /**
   The name of the state file and the temporary file; `entries` are the files that the name may turn out
   to stand for after a power loss, as renames reach the disk only when the directory is synced.
   */
  datatype Dir<T> = Dir(target: Option<Inode<T>>, entries: seq<Option<Inode<T>>>, temp: Option<Inode<T>>)

  /** What the next start reads if only the agent has stopped. */
  function Read<T>(d: Dir<T>): Option<Content<T>> {
    if d.target.None? then None else Some(d.target.value.content)
  }

  predicate Shows<T(==)>(entry: Option<Inode<T>>, x: Option<Content<T>>) {
    if entry.None? then x.None? else x.Some? && (entry.value.synced ==> x.value == entry.value.content)
  }

  /** What the next start may read after a power loss; unsynced content may have become anything. */
  ghost predicate MayRead<T>(d: Dir<T>, x: Option<Content<T>>) {
    exists i :: 0 <= i < |d.entries| && Shows(d.entries[i], x)
  }

  /** Everything the name may stand for is whole and on the disk. */
  predicate Settled<T(==)>(d: Dir<T>) {
    && d.entries != [] && d.target == d.entries[|d.entries| - 1]
    && forall i | 0 <= i < |d.entries| && d.entries[i].Some? :: d.entries[i].value.synced && d.entries[i].value.content.Whole?
  }

  /** Seen at any moment during a save, the file is what it was before or the new value, whole. */
  ghost predicate OldOrNew<T(!new)>(before: Dir<T>, d: Dir<T>, value: T) {
    && (Read(d) == Read(before) || Read(d) == Some(Whole(value)))
    && (forall x :: MayRead(d, x) ==> MayRead(before, x) || x == Some(Whole(value)))
  }

  /** Which of saveState's calls succeed. */
  datatype SaveIo = SaveIo(created: bool, moded: bool, written: bool, synced: bool, closed: bool, renamed: bool,
                           removed: bool, dirSynced: bool)

  predicate Works(io: SaveIo) { io.created && io.moded && io.written && io.synced && io.closed && io.renamed }

  /** The name still stands for the same files. */
  predicate SameName<T(==)>(before: Dir<T>, d: Dir<T>) {
    d.target == before.target && d.entries == before.entries
  }

  lemma SameEntries<T(!new)>(before: Dir<T>, d: Dir<T>, value: T)
    requires SameName(before, d)
    ensures OldOrNew(before, d, value)
  {
    assert forall x: Option<Content<T>> :: MayRead(d, x) ==> MayRead(before, x) by {
      forall x: Option<Content<T>> | MayRead(d, x)
        ensures MayRead(before, x)
      {
        var i :| 0 <= i < |d.entries| && Shows(d.entries[i], x);
        assert Shows(before.entries[i], x);
      }
    }
  }

  /** The rename adds one entry that is whole and on the disk. */
  lemma OneMoreEntry<T(!new)>(before: Dir<T>, d: Dir<T>, value: T)
    requires d.target == Some(Inode(Whole(value), true))
    requires d.entries == before.entries + [d.target] || d.entries == [d.target]
    ensures OldOrNew(before, d, value)
  {
    forall x: Option<Content<T>> | MayRead(d, x)
      ensures MayRead(before, x) || x == Some(Whole(value))
    {
      var i :| 0 <= i < |d.entries| && Shows(d.entries[i], x);
      if d.entries != [d.target] && i < |before.entries| {
        assert Shows(before.entries[i], x);
      }
    }
  }

  /** `seen` records every state the directory has been in. */
  class StateFile<T(!new)> {
    var dir: Dir<T>
    ghost var seen: seq<Dir<T>>

    constructor (target: Option<T>)
      ensures Settled(dir) && dir.target == (if target.Some? then Some(Inode(Whole(target.value), true)) else None)
      ensures Read(dir) == if target.Some? then Some(Whole(target.value)) else None
    {
      var inode: Option<Inode<T>> := if target.Some? then Some(Inode(Whole(target.value), true)) else None;
      dir := Dir(inode, [inode], None);
      seen := [];
    }

    method Now(d: Dir<T>)
      modifies this
      ensures dir == d && seen == old(seen) + [d]
    {
      dir := d;
      seen := seen + [d];
    }

    /** An error removes the temporary file, if that works. */
    method Cleanup(removed: bool)
      modifies this
      ensures dir == old(dir).(temp := if removed then None else old(dir).temp) && seen == old(seen) + [dir]
    {
      Now(dir.(temp := if removed then None else dir.temp));
    }

    /** Everything before the rename happens to the temporary file alone. */
    method Prepare(value: T, io: SaveIo) returns (ready: bool)
      modifies this
      ensures ready <==> io.created && io.moded && io.written && io.synced && io.closed
      ensures SameName(old(dir), dir)
      ensures ready ==> dir.temp == Some(Inode(Whole(value), true))
      ensures !ready && io.created && io.removed ==> dir.temp.None?
      ensures old(seen) <= seen && forall i | |old(seen)| <= i < |seen| :: SameName(old(dir), seen[i])
    {
      if !io.created {
        return false;
      }
      Now(dir.(temp := Some(Inode(Torn, false))));
      if !io.moded || !io.written {
        Cleanup(io.removed);
        return false;
      }
      Now(dir.(temp := Some(Inode(Whole(value), false))));
      if !io.synced {
        Cleanup(io.removed);
        return false;
      }
      Now(dir.(temp := Some(Inode(Whole(value), true))));
      if !io.closed {
        Cleanup(io.removed);
        return false;
      }
      return true;
    }

    /** saveState once the value has been validated: at whatever moment it stops, the file is old or new. */
    method Save(value: T, io: SaveIo) returns (ok: bool)
      requires Settled(dir)
      modifies this
      ensures Settled(dir) && ok == Works(io)
      ensures Read(dir) == if ok then Some(Whole(value)) else Read(old(dir))
      ensures ok && io.dirSynced ==> forall x :: MayRead(dir, x) <==> x == Some(Whole(value))
      ensures io.created && (ok || io.removed) ==> dir.temp.None?
      ensures old(seen) <= seen
      ensures forall i | |old(seen)| <= i < |seen| :: OldOrNew(old(dir), seen[i], value)
      ensures OldOrNew(old(dir), dir, value)
    {
      ghost var before := dir;
      ok := Prepare(value, io);
      forall d: Dir<T> | SameName(before, d)
        ensures OldOrNew(before, d, value)
      {
        SameEntries(before, d, value);
      }
      if !ok {
        return;
      }
      if !io.renamed {
        Cleanup(io.removed);
        return false;
      }
      Now(Dir(dir.temp, dir.entries + [dir.temp], None));
      OneMoreEntry(before, dir, value);
      if io.dirSynced {
        Now(dir.(entries := [dir.target]));
        OneMoreEntry(before, dir, value);
        assert Shows(dir.entries[0], Some(Whole(value)));
      }
    }
  }
}
