/** A file system whose operations may fail, and the atomic replacement of a file by way of a
    temporary one (integration/atomic_write.go).  */
module Disk {
  import opened Wrappers

  /** A configured path, or a name made by os.CreateTemp, whose random part no path has. */
  datatype Name = Path(path: string) | Temp(id: nat)

  datatype File = File(data: string, mode: nat)

  type Files = map<Name, File>

  const DEFAULT_MODE: nat := 420   // 0o644
  const TEMP_MODE: nat := 384      // 0o600, the mode os.CreateTemp gives

  /** Where ReconcileConfig puts the bytes to be tested. */
  function Scratch(target: string): string {
    target + ".integration.tmp"
  }

  lemma ScratchIsElsewhere(target: string)
    ensures Path(Scratch(target)) != Path(target)
  {
    assert |Scratch(target)| > |target|;
  }

  // ----- What the operations do to the files -----

  function Created(files: Files, temp: Name): Files {
    files[temp := File("", TEMP_MODE)]
  }

  function WithData(files: Files, name: Name, data: string): Files
    requires name in files
  {
    files[name := files[name].(data := data)]
  }

  function WithMode(files: Files, name: Name, mode: nat): Files
    requires name in files
  {
    files[name := files[name].(mode := mode)]
  }

  function Removed(files: Files, name: Name): Files {
    files - {name}
  }

  /** rename(2): the new name refers to the old file at once, in one step. */
  function Renamed(files: Files, from: Name, to: Name): Files
    requires from in files
  {
    (files - {from})[to := files[from]]
  }

  /** `after` differs from `before` at most at the given names. */
  ghost predicate SameBut(before: Files, after: Files, except: set<Name>) {
    forall n | n !in except :: (n in before <==> n in after) && (n in before ==> before[n] == after[n])
  }

  /** `name` holds what it held before, or exactly `file`. */
  predicate OldOrNew(before: Files, after: Files, name: Name, file: File) {
    || (name in after && after[name] == file)
    || ((name in before <==> name in after) && (name in before ==> before[name] == after[name]))
  }

  /** What a crash may find while `name` is being replaced by way of `temp`. */
  ghost predicate Intact(before: Files, after: Files, name: Name, file: File, temp: Name) {
    SameBut(before, after, {name, temp}) && OldOrNew(before, after, name, file)
  }

  lemma CreatedThenSameBut(before: Files, after: Files, temp: Name)
    requires temp !in before
    requires SameBut(Created(before, temp), after, {temp})
    ensures SameBut(before, after, {temp})
  {
  }

  lemma OnlyTempIsIntact(before: Files, after: Files, name: Name, file: File, temp: Name)
    requires SameBut(before, after, {temp}) && name != temp
    ensures Intact(before, after, name, file, temp)
  {
  }

  lemma RenamedIsIntact(before: Files, filled: Files, name: Name, file: File, temp: Name)
    requires SameBut(before, filled, {temp}) && name != temp && temp !in before
    requires temp in filled && filled[temp] == file
    ensures Renamed(filled, temp, name) == before[name := file]
    ensures Intact(before, Renamed(filled, temp, name), name, file, temp)
  {
  }

  lemma RemovedAbsent(files: Files, name: Name)
    ensures name !in files ==> Removed(files, name) == files
  {
  }

  lemma RemovedIsBefore(before: Files, filled: Files, temp: Name)
    requires SameBut(before, filled, {temp}) && temp !in before
    ensures Removed(filled, temp) == before
  {
  }

  /** There is always a name to be had. */
  lemma {:induction false} FreeTemp(files: Files) returns (id: nat)
    ensures Temp(id) !in files && forall n | n in files && n.Temp? :: n.id < id
    decreases |files|
  {
    if files.Keys == {} {
      id := 0;
    } else {
      var x :| x in files;
      var m := FreeTemp(files - {x});
      id := if x.Path? || x.id < m then m else x.id + 1;
      assert forall n | n in files :: n == x || n in files - {x};
    }
  }

  // ----- The file system -----

  class FileSystem {
    var files: Files
    const unreadable: set<Name>
    const unstatable: set<Name>
    const stuck: set<Name>        // what cannot be removed
    const reliable: bool          // creating, writing, closing and renaming files never fails

    /** All states the disk has been in, the present one last. */
    ghost var history: seq<Files>

    ghost predicate Valid()
      reads this
    {
      |history| >= 1 && history[|history| - 1] == files
    }

    /** The history was only added to, and what was added satisfies p. */
    twostate predicate Extended(p: Files -> bool)
      reads this
    {
      && old(history) <= history
      && forall h | |old(history)| <= h < |history| :: p(history[h])
    }

    constructor (files: Files, unreadable: set<Name>, unstatable: set<Name>, stuck: set<Name>, reliable: bool)
      ensures Valid() && this.files == files
      ensures this.unreadable == unreadable && this.unstatable == unstatable && this.stuck == stuck
      ensures this.reliable == reliable
    {
      this.files, this.unreadable, this.unstatable, this.stuck := files, unreadable, unstatable, stuck;
      this.reliable := reliable;
      history := [files];
    }

    predicate Readable(name: Name)
      reads this
    {
      name in files && name !in unreadable
    }

    method ReadFile(name: Name) returns (r: Option<string>)
      ensures r == if Readable(name) then Some(files[name].data) else None
    {
      r := if name in files && name !in unreadable then Some(files[name].data) else None;
    }

    /** The mode, if Stat succeeds. */
    method Stat(name: Name) returns (r: Option<nat>)
      ensures r == if name in files && name !in unstatable then Some(files[name].mode) else None
    {
      r := if name in files && name !in unstatable then Some(files[name].mode) else None;
    }

    method Step(after: Files)
      requires Valid()
      modifies this
      ensures Valid() && files == after && history == old(history) + [after]
    {
      files := after;
      history := history + [after];
    }

    method CreateTemp() returns (r: Option<Name>)
      requires Valid()
      modifies this
      ensures Valid()
      ensures match r
              case None => files == old(files) && history == old(history) && !reliable
              case Some(temp) => temp.Temp? && temp !in old(files) && files == Created(old(files), temp)
                                 && history == old(history) + [files]
    {
      var id: nat := *;
      if Temp(id) in files {
        if !reliable {
          return None;
        }
        ghost var free := FreeTemp(files);
        id :| Temp(id) !in files;
      }
      Step(Created(files, Temp(id)));
      r := Some(Temp(id));
    }

    /** A failed write may have written a part. */
    method Write(name: Name, data: string) returns (ok: bool)
      requires Valid() && name in files && files[name].data == ""
      modifies this
      ensures Valid() && name in files && history == old(history) + [files]
      ensures exists n | 0 <= n <= |data| :: files == WithData(old(files), name, data[..n]) && (ok ==> n == |data|)
      ensures reliable ==> ok
    {
      var n :| 0 <= n <= |data|;
      n := if reliable then |data| else n;
      ok := n == |data|;
      Step(WithData(files, name, data[..n]));
    }

    method Chmod(name: Name, mode: nat) returns (ok: bool)
      requires Valid() && name in files
      modifies this
      ensures Valid() && history == old(history) + [files]
      ensures files == if ok then WithMode(old(files), name, mode) else old(files)
      ensures reliable ==> ok
    {
      ok := *;
      ok := ok || reliable;
      Step(if ok then WithMode(files, name, mode) else files);
    }

    /** Sync and Close leave the files as they are. */
    method SyncOrClose() returns (ok: bool)
      requires Valid()
      modifies this
      ensures Valid() && history == old(history) + [files] && files == old(files)
      ensures reliable ==> ok
    {
      ok := *;
      ok := ok || reliable;
      Step(files);
    }

    method Rename(from: Name, to: Name) returns (ok: bool)
      requires Valid() && from in files
      modifies this
      ensures Valid() && history == old(history) + [files]
      ensures files == if ok then Renamed(old(files), from, to) else old(files)
      ensures reliable ==> ok
    {
      ok := *;
      ok := ok || reliable;
      Step(if ok then Renamed(files, from, to) else files);
    }

    method Remove(name: Name) returns (ok: bool)
      requires Valid()
      modifies this
      ensures Valid() && history == old(history) + [files]
      ensures ok == (name in old(files) && name !in stuck)
      ensures files == if name in stuck then old(files) else Removed(old(files), name)
    {
      ok := name in files && name !in stuck;
      RemovedAbsent(files, name);
      Step(if ok then Removed(files, name) else files);
    }

    /** The steps between creating the temporary file and closing it. */
    method Fill(temp: Name, data: string, perm: nat) returns (ok: bool)
      requires Valid() && temp in files && files[temp].data == ""
      modifies this
      ensures Valid() && temp in files && SameBut(old(files), files, {temp})
      ensures ok ==> files[temp] == File(data, perm)
      ensures reliable ==> ok
      ensures var was := old(files); Extended(f => SameBut(was, f, {temp}))
    {
      ok := Write(temp, data);
      if !ok {
        var _ := SyncOrClose();
        return;
      }
      ok := Chmod(temp, perm);
      if !ok {
        var _ := SyncOrClose();
        return;
      }
      var canSync: bool := *;   // the file handle need not offer Sync
      if canSync {
        ok := SyncOrClose();
        if !ok {
          var _ := SyncOrClose();
          return;
        }
      }
      ok := SyncOrClose();
    }

    /** writeFileAtomic.  In every state on the way, which is where a crash could leave the disk,
        the path holds its old file or the complete new one and no other name but the
        temporary one is touched.  On return the path is replaced or as it was, and no
        temporary file is left, unless after an error it could not be removed.  It fails only
        if a step does.  */
    method WriteFileAtomic(path: string, data: string, perm: nat) returns (ok: bool, ghost temp: Name)
      requires Valid()
      modifies this
      ensures Valid() && temp.Temp?
      ensures ok ==> temp !in old(files) && files == old(files)[Path(path) := File(data, perm)]
      ensures !ok ==> SameBut(old(files), files, {temp}) && (temp !in stuck ==> files == old(files))
      ensures reliable ==> ok
      ensures var was := old(files); Extended(f => Intact(was, f, Path(path), File(data, perm), temp))
    {
      ghost var was := files;
      temp := Temp(0);
      var created := CreateTemp();
      if created.None? {
        return false, temp;
      }
      var tmpName := created.value;
      temp := tmpName;
      ok := Fill(tmpName, data, perm);
      ghost var file, name := File(data, perm), Path(path);
      hide SameBut, OldOrNew, Renamed, Removed, Intact;
      assert SameBut(was, files, {temp}) by { CreatedThenSameBut(was, files, temp); }
      forall h | |old(history)| <= h < |history|
        ensures Intact(was, history[h], name, file, temp)
      {
        CreatedThenSameBut(was, history[h], temp);
        OnlyTempIsIntact(was, history[h], name, file, temp);
      }
      if ok {
        RenamedIsIntact(was, files, name, file, temp);
        ok := Rename(tmpName, Path(path));
      }
      OnlyTempIsIntact(was, was, name, file, temp);
      if ok {
        RemovedAbsent(files, temp);
      } else {
        OnlyTempIsIntact(was, files, name, file, temp);
        RemovedIsBefore(was, files, temp);
      }
      var _ := Remove(tmpName);
    }
  }
}
