/** Replacing a file durably: temporary file, owner and mode, then a rename. Any step may fail. */
module AtomicFile {
  import opened Options

  datatype Owner = Owner(uid: int, gid: int)

  datatype File<T> = File(data: T, mode: int, owner: Owner)

  /** Where a write fails, if it does; each of these may be any of the system calls of that stage. */
  datatype Fault = NoFault | AtCreation | AtFilling | AtRename | AtDirectorySync

  predicate Replaces(fault: Fault) { fault == NoFault || fault == AtDirectorySync }

  /** The files of one directory. */
  class Directory<T(0)> {
    var files: map<string, File<T>>

    constructor (files: map<string, File<T>>)
      ensures this.files == files
    {
      this.files := files;
    }

    function Lookup(path: string): Option<File<T>>
      reads this
    {
      if path in files then Some(files[path]) else None
    }

    /** A new empty file beside the path, under a name of its own. */
    method CreateTemp(path: string) returns (name: string)
      modifies this
      ensures name !in old(files) && name != path && name in files && files - {name} == old(files)
    {
      name := FreshName(path);
      var f: File<T> := *;
      files := files[name := f];
    }

    method FreshName(path: string) returns (name: string)
      ensures name !in files && name != path
    {
      name := "." + path + ".tmp-";
      ghost var longest := LongerThanAll(files.Keys);
      while name in files
        invariant |name| > |path|
        decreases longest - |name|
      {
        name := name + "0";
      }
    }

    /** Writing, changing mode or owner, syncing and closing; after a failure the temporary file is removed if possible. */
    method Fill(name: string, data: T, mode: int, owner: Owner, ok: bool)
      requires name in files
      modifies this
      ensures ok ==> files == old(files)[name := File(data, mode, owner)]
      ensures !ok ==> files - {name} == old(files) - {name}
    {
      var f: File<T> := *;
      files := files[name := if ok then File(data, mode, owner) else f];
      if !ok {
        Discard(name);
      }
    }

    method Discard(name: string)
      modifies this
      ensures files == old(files) || files == old(files) - {name}
    {
      var removed: bool := *;
      if removed {
        files := files - {name};
      }
    }

    method Rename(name: string, path: string)
      requires name in files && name != path
      modifies this
      ensures files == (old(files) - {name})[path := old(files)[name]]
    {
      files := (files - {name})[path := files[name]];
    }

    /**
     The file ends up old or new, whole: new exactly when the rename was reached, and so also when only
     the directory could not be synced afterwards, which is reported as a failure. Nothing else
     changes, but that a failure may leave a temporary file behind.
     */
    method AtomicWrite(path: string, data: T, mode: int, owner: Owner, fault: Fault)
      returns (ok: bool, ghost temporary: string)
      modifies this
      ensures ok <==> fault == NoFault
      ensures Lookup(path) == if Replaces(fault) then Some(File(data, mode, owner)) else old(Lookup(path))
      ensures Replaces(fault) ==> files == old(files)[path := File(data, mode, owner)]
      ensures temporary != path && temporary !in old(files) && files - {path, temporary} == old(files) - {path}
    {
      ok := fault == NoFault;
      if fault == AtCreation {
        temporary := FreshName(path);
        return;
      }
      var name := CreateTemp(path);
      temporary := name;
      Fill(name, data, mode, owner, fault != AtFilling);
      assert files - {temporary} == old(files);
      if fault == AtFilling {
        WithoutTemporary(old(files), files, path, temporary);
        return;
      }
      if fault == AtRename {
        Discard(name);
        assert files - {temporary} == old(files);
        WithoutTemporary(old(files), files, path, temporary);
        return;
      }
      Rename(name, path);
    }
  }

  lemma WithoutTemporary<F>(before: map<string, F>, after: map<string, F>, path: string, temporary: string)
    requires after - {temporary} == before && temporary != path
    ensures after - {path, temporary} == before - {path}
    ensures path in after <==> path in before
    ensures path in after ==> after[path] == before[path]
  {
    assert after - {path, temporary} == (after - {temporary}) - {path};
    assert path in after - {temporary} <==> path in before;
  }

  ghost function LongerThanAll(names: set<string>): (n: nat)
    ensures forall name | name in names :: |name| < n
  {
    if names == {} then 0
    else
      var name :| name in names;
      var rest := LongerThanAll(names - {name});
      if rest > |name| then rest else |name| + 1
  }
}
