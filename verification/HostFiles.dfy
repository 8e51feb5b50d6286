/**
 The host's files, and the commands that the wrapper store runs on them. Unless the host is
 reliable, every command may fail, with or without having taken effect. A path that leads through
 a symbolic link may lead anywhere: a command that changes something through one may change anything.
 */
module HostFiles {
  import opened Options

  type Path = seq<string>
  type Bytes = seq<bv8>

  datatype Kind = Directory | Regular | SymbolicLink | Special

  datatype Node = Node(kind: Kind, uid: int, gid: int, mode: bv12, content: Bytes)

  type Files = map<Path, Node>

  predicate IsLink(fs: Files, p: Path) { p in fs && fs[p].kind == SymbolicLink }

  /** No directory on the way to the path is a symbolic link. */
  predicate Direct(fs: Files, p: Path) { forall k | 0 < k < |p| :: !IsLink(fs, p[..k]) }

  /** Neither is the path itself: it is its own canonical form. */
  predicate Plain(fs: Files, p: Path) { Direct(fs, p) && !IsLink(fs, p) }

  function Lookup(fs: Files, p: Path): Option<Node> { if p in fs then Some(fs[p]) else None }

  class Host {
    /** Whether commands that can succeed do; they run as root, and what they create is not writable by others. */
    const reliable: bool
    var fs: Files
    /** The paths named by commands that change something. */
    ghost var named: set<Path>

    constructor (fs: Files, reliable: bool)
      ensures this.fs == fs && named == {} && this.reliable == reliable
    {
      this.fs, named, this.reliable := fs, {}, reliable;
    }

    /** `readlink -m`: a path's canonical form is the path itself exactly when it is plain. */
    method Canonical(p: Path) returns (same: bool)
      ensures same ==> Plain(fs, p)
      ensures reliable ==> (same <==> Plain(fs, p))
    {
      var ok := *;
      same := (ok || reliable) && PlainNow(p);
    }

    predicate PlainNow(p: Path)
      reads this
    {
      Plain(fs, p)
    }

    /** `stat`: what is at the path itself; it reports nothing when it fails. */
    method Stat(p: Path) returns (node: Option<Node>)
      ensures Direct(fs, p) && node.Some? ==> Lookup(fs, p) == node
      ensures Direct(fs, p) && reliable ==> Lookup(fs, p) == node
    {
      var ok := *;
      var elsewhere: Node := *;
      node := if !ok && !reliable then None else if Direct(fs, p) then Lookup(fs, p) else Some(elsewhere);
    }

    /** `mkdir`, in a directory that exists, where nothing is yet. */
    method Mkdir(p: Path) returns (ok: bool)
      modifies this
      ensures named == old(named) + {p}
      ensures Direct(old(fs), p) ==>
                fs == old(fs) || (p !in old(fs) && p in fs && fs[p].kind == Directory && fs == old(fs)[p := fs[p]])
      ensures Direct(old(fs), p) && ok ==> p !in old(fs) && p in fs
      ensures Direct(old(fs), p) && reliable && p !in old(fs) ==> ok && fs == old(fs)[p := Node(Directory, 0, 0, 0x1ED, [])]
    {
      named := named + {p};
      var done := *;
      var created: Node := *;
      if !Direct(fs, p) {
        ok, fs := *, *;
      } else if reliable && p !in fs {
        fs := fs[p := Node(Directory, 0, 0, 0x1ED, [])];
        ok := true;
      } else if done && p !in fs {
        fs := fs[p := created.(kind := Directory)];
        ok := *;
      } else {
        ok := false;
      }
    }

    /** `chown 0:0`, following a link at the path. */
    method Chown(p: Path) returns (ok: bool)
      modifies this
      ensures named == old(named) + {p}
      ensures Plain(old(fs), p) ==> fs == old(fs) || (p in old(fs) && fs == old(fs)[p := old(fs)[p].(uid := 0, gid := 0)])
      ensures Plain(old(fs), p) && reliable && p in old(fs) ==> ok && fs == old(fs)[p := old(fs)[p].(uid := 0, gid := 0)]
    {
      named := named + {p};
      ok := *;
      var done: bool := *;
      if !Plain(fs, p) {
        fs := *;
      } else if (done || reliable) && p in fs {
        fs := fs[p := fs[p].(uid := 0, gid := 0)];
        ok := ok || reliable;
      }
    }

    /** `chmod 0700`, following a link at the path. */
    method Chmod(p: Path) returns (ok: bool)
      modifies this
      ensures named == old(named) + {p}
      ensures Plain(old(fs), p) ==> fs == old(fs) || (p in old(fs) && fs == old(fs)[p := old(fs)[p].(mode := 0x1C0)])
      ensures Plain(old(fs), p) && reliable && p in old(fs) ==> ok && fs == old(fs)[p := old(fs)[p].(mode := 0x1C0)]
    {
      named := named + {p};
      ok := *;
      var done: bool := *;
      if !Plain(fs, p) {
        fs := *;
      } else if (done || reliable) && p in fs {
        fs := fs[p := fs[p].(mode := 0x1C0)];
        ok := ok || reliable;
      }
    }

    /** `tee` into an existing file; failing, it may leave anything in it. */
    method Tee(p: Path, input: Bytes) returns (ok: bool)
      modifies this
      ensures named == old(named) + {p}
      ensures Plain(old(fs), p) && p in old(fs) ==>
                p in fs && fs == old(fs)[p := old(fs)[p].(content := fs[p].content)] && (ok ==> fs[p].content == input)
      ensures Plain(old(fs), p) && reliable && p in old(fs) ==> ok
    {
      named := named + {p};
      ok := *;
      ok := ok || reliable;
      var part: Bytes := *;
      if !Plain(fs, p) || p !in fs {
        fs := *;
      } else {
        fs := fs[p := fs[p].(content := if ok then input else part)];
      }
    }

    /** `mktemp`: makes a new file from a template in a directory, and prints a path, which may be garbled. */
    method Mktemp(dir: Path, prefix: string) returns (printed: Option<Path>, ghost made: Path)
      modifies this
      ensures named == old(named) + {made}
      ensures |made| == |dir| + 1 && made[..|dir|] == dir && prefix < made[|dir|]
      ensures Direct(old(fs), made) ==> fs == old(fs) || (made !in old(fs) && made in fs && fs == old(fs)[made := fs[made]])
      ensures Direct(old(fs), made) && reliable ==>
                made !in old(fs) && fs == old(fs)[made := Node(Regular, 0, 0, 0x180, [])] && printed == Some(made)
    {
      var suffix := "X";
      while dir + [prefix + suffix] in fs
        modifies {}
        invariant |suffix| > 0
        decreases Longer(fs.Keys) - |suffix|
      {
        assert dir + [prefix + suffix] in fs.Keys;
        LongerThanLast(fs.Keys, dir, prefix + suffix);
        suffix := suffix + "X";
      }
      made := dir + [prefix + suffix];
      named := named + {made};
      var done: bool := *;
      var node: Node := *;
      printed := *;
      if !Direct(fs, dir + [prefix + suffix]) {
        fs := *;
      } else if reliable {
        fs := fs[dir + [prefix + suffix] := Node(Regular, 0, 0, 0x180, [])];
        printed := Some(dir + [prefix + suffix]);
      } else if done {
        fs := fs[dir + [prefix + suffix] := node];
      }
    }

    /** `rm -f` */
    method Rm(p: Path)
      modifies this
      ensures named == old(named) + {p}
      ensures Direct(old(fs), p) ==> fs == old(fs) || fs == old(fs) - {p}
    {
      named := named + {p};
      var done: bool := *;
      if !Direct(fs, p) {
        fs := *;
      } else if done {
        fs := fs - {p};
      }
    }

    /** `mv -T -f` within one directory: an atomic rename, which does not replace a directory by a file. */
    method Mv(from: Path, to: Path) returns (ok: bool)
      modifies this
      ensures named == old(named) + {from, to}
      ensures Direct(old(fs), from) && Direct(old(fs), to) ==>
                fs == old(fs) || (from in old(fs) && fs == (old(fs) - {from})[to := old(fs)[from]])
      ensures Direct(old(fs), from) && Direct(old(fs), to) && ok ==> from in old(fs) && fs == (old(fs) - {from})[to := old(fs)[from]]
      ensures reliable && Direct(old(fs), from) && Direct(old(fs), to) && from in old(fs) ==>
                ok || (to in old(fs) && old(fs)[to].kind == Directory)
    {
      named := named + {from, to};
      var done: bool := *;
      if !Direct(fs, from) || !Direct(fs, to) {
        ok, fs := *, *;
      } else if (done || reliable) && from in fs && !(to in fs && fs[to].kind == Directory) {
        fs := (fs - {from})[to := fs[from]];
        ok := *;
        ok := ok || reliable;
      } else {
        ok := false;
      }
    }

    /** `sync -f` */
    method Sync(p: Path) returns (ok: bool)
      ensures reliable ==> ok
    {
      ok := *;
      ok := ok || reliable;
    }
  }

  /** More than the length of the last name of any of the paths. */
  ghost function Longer(paths: set<Path>): (n: nat)
    ensures forall p | p in paths && p != [] :: |p[|p| - 1]| < n
  {
    if paths == {} then 0
    else
      var p :| p in paths;
      var rest := Longer(paths - {p});
      assert forall q | q in paths :: q == p || q in paths - {p};
      if p != [] && rest <= |p[|p| - 1]| then |p[|p| - 1]| + 1 else rest
  }

  lemma LongerThanLast(paths: set<Path>, dir: Path, name: string)
    requires dir + [name] in paths
    ensures |name| < Longer(paths)
  {
    assert (dir + [name])[|dir + [name]| - 1] == name;
  }
}
