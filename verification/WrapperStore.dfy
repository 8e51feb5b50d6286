/**
 Installing a wrapper on the host: the managed directories are secured, the text is written to a
 staging file beside the target, and the staging file is renamed over the target.
 */
module WrapperStores {
  import opened HostFiles
  import opened Options

  const ROOT: Path := ["var", "lib", "syncbridge"]
  const STAGING_PREFIX := ".run.sh.tmp-"

  /** The directories from the file system's root down to the wrapper's; none if it is outside the managed root. */
  function ManagedDirectories(dir: Path): Option<seq<Path>> {
    if ROOT <= dir then Some(seq(|dir|, k requires 0 <= k < |dir| => dir[..k + 1])) else None
  }

  predicate SafeDirectory(n: Node) { n.kind == Directory && n.uid == 0 && n.gid == 0 && n.mode & 0x12 == 0 }

  predicate SafeFile(n: Node) { n.kind == Regular && n.uid == 0 && n.gid == 0 && n.mode & 0x12 == 0 }

  predicate PrivateFile(n: Node) { n.kind == Regular && n.uid == 0 && n.gid == 0 && n.mode == 0x1C0 }

  function Wrapper(text: Bytes): Node { Node(Regular, 0, 0, 0x1C0, text) }

  /** The first directories down to the wrapper's own are safe. */
  predicate SafeUpTo(fs: Files, dir: Path, n: nat)
    requires n <= |dir|
  {
    forall k | 0 < k <= n :: dir[..k] in fs && SafeDirectory(fs[dir[..k]])
  }

  predicate Secured(fs: Files, dir: Path) { SafeUpTo(fs, dir, |dir|) }

  predicate IsStaging(dir: Path, p: Path) { |p| == |dir| + 1 && p[..|dir|] == dir && STAGING_PREFIX < p[|dir|] }

  /** What an installation may name in a command that changes something. */
  predicate Managed(dir: Path, target: Path, p: Path) {
    (ROOT <= p && p <= dir) || IsStaging(dir, p) || p == target
  }

  /**
   Nothing but the target, staging files and managed directories that were missing has changed, and
   the target is as it was or holds exactly the text.
   */
  ghost predicate Confined(before: Files, now: Files, dir: Path, target: Path, text: Bytes) {
    && (forall p | p in before && p != target && !IsStaging(dir, p) :: p in now && now[p] == before[p])
    && (forall p | p in now && p !in before :: Managed(dir, target, p))
    && (Lookup(now, target) == Lookup(before, target) || Lookup(now, target) == Some(Wrapper(text)))
  }

  lemma SecuredIsDirect(fs: Files, dir: Path, n: nat, p: Path)
    requires n <= |dir| && SafeUpTo(fs, dir, n) && |p| == n + 1 && p[..n] == dir[..n]
    ensures Direct(fs, p)
  {
    forall k | 0 < k < |p| ensures !IsLink(fs, p[..k]) {
      assert p[..k] == p[..n][..k] == dir[..n][..k] == dir[..k];
    }
  }

  lemma InsideRoot(dir: Path, n: nat)
    requires ROOT <= dir && 3 <= n <= |dir|
    ensures ROOT <= dir[..n] && dir[..n] <= dir
  {
  }

  lemma StillSafe(before: Files, now: Files, dir: Path, n: nat)
    requires n <= |dir| && SafeUpTo(before, dir, n)
    requires forall k | 0 < k <= n :: dir[..k] in now && now[dir[..k]] == before[dir[..k]]
    ensures SafeUpTo(now, dir, n)
  {
  }

  /** Nothing at the target, or a regular file that is safely root's. */
  predicate Replaceable(fs: Files, target: Path) { target in fs ==> SafeFile(fs[target]) }

  /** The host's own directories are there, and what there is of the managed ones is safe. */
  predicate Makeable(fs: Files, dir: Path) {
    && |dir| > 2 && dir[..1] in fs && dir[..2] in fs
    && (forall k | 0 < k <= |dir| && dir[..k] in fs :: SafeDirectory(fs[dir[..k]]))
  }

  predicate Installable(fs: Files, dir: Path, target: Path) {
    Makeable(fs, dir) && Plain(fs, target) && Replaceable(fs, target)
  }

  /** Below safe directories, a path is plain unless it is a link itself. */
  lemma SafeIsPlain(fs: Files, dir: Path, n: nat)
    requires n < |dir| && SafeUpTo(fs, dir, n)
    ensures Direct(fs, dir[..n + 1])
    ensures dir[..n + 1] in fs && SafeDirectory(fs[dir[..n + 1]]) ==> Plain(fs, dir[..n + 1])
  {
    SecuredIsDirect(fs, dir, n, dir[..n + 1]);
  }

  class WrapperStore {
    const host: Host

    constructor (host: Host)
      ensures this.host == host
    {
      this.host := host;
    }

    // ---------- Checks ----------

    method ValidateSafeDirectory(p: Path) returns (ok: bool)
      ensures ok ==> p in host.fs && SafeDirectory(host.fs[p])
      ensures host.reliable && Plain(host.fs, p) && p in host.fs && SafeDirectory(host.fs[p]) ==> ok
    {
      ok := host.Canonical(p);
      if !ok {
        return;
      }
      var node := host.Stat(p);
      ok := node.Some? && node.value.kind == Directory && node.value.uid == 0 && node.value.gid == 0 && node.value.mode & 0x12 == 0;
    }

    method ValidateRegularRootFile(p: Path, require0700: bool) returns (ok: bool)
      ensures ok ==> Plain(host.fs, p) && p in host.fs && if require0700 then PrivateFile(host.fs[p]) else SafeFile(host.fs[p])
      ensures host.reliable && Plain(host.fs, p) && p in host.fs ==>
                ok || !(if require0700 then PrivateFile(host.fs[p]) else SafeFile(host.fs[p]))
    {
      ok := host.Canonical(p);
      if !ok {
        return;
      }
      var node := host.Stat(p);
      ok := node.Some? && node.value.kind == Regular && node.value.uid == 0 && node.value.gid == 0
            && if require0700 then node.value.mode == 0x1C0 else node.value.mode & 0x12 == 0;
    }

    /** The target may be missing; a failing look at it counts as missing too. */
    method ValidateTarget(target: Path) returns (ok: bool)
      ensures ok ==> Plain(host.fs, target)
      ensures host.reliable && Plain(host.fs, target) && Replaceable(host.fs, target) ==> ok
    {
      ok := host.Canonical(target);
      if !ok {
        return;
      }
      var node := host.Stat(target);
      if node.Some? {
        ok := ValidateRegularRootFile(target, false);
      }
    }

    method Revalidate(dir: Path) returns (ok: bool)
      ensures ok ==> ROOT <= dir && Secured(host.fs, dir)
      ensures host.reliable && ROOT <= dir && Secured(host.fs, dir) ==> ok
    {
      var components := ManagedDirectories(dir);
      if components.None? {
        return false;
      }
      for k := 0 to |components.value|
        invariant SafeUpTo(host.fs, dir, k)
      {
        SafeIsPlain(host.fs, dir, k);
        ok := ValidateSafeDirectory(components.value[k]);
        if !ok {
          return;
        }
      }
      ok := true;
    }

    // ---------- The managed directories ----------

    /** Only missing directories inside the managed root are made, given to root and closed to others. */
    method SecureManagedHierarchy(dir: Path, ghost target: Path) returns (ok: bool)
      modifies host
      ensures ok ==> ROOT <= dir && Secured(host.fs, dir)
      ensures OnlyMissing(old(host.fs), host.fs, dir)
      ensures forall p | p in host.named :: p in old(host.named) || Managed(dir, target, p)
      ensures host.reliable && ROOT <= dir && Makeable(old(host.fs), dir) ==> ok
    {
      var components := ManagedDirectories(dir);
      if components.None? {
        return false;
      }
      for index := 0 to |components.value|
        invariant SafeUpTo(host.fs, dir, index)
        invariant OnlyMissing(old(host.fs), host.fs, dir)
        invariant forall p | p in host.named :: p in old(host.named) || Managed(dir, target, p)
        invariant Makeable(old(host.fs), dir) ==> Makeable(host.fs, dir)
      {
        var component := components.value[index];
        SafeIsPlain(host.fs, dir, index);
        var node := host.Stat(component);
        if node.Some? {
          ok := ValidateSafeDirectory(component);
        } else if index < 2 {
          ok := false;
        } else {
          InsideRoot(dir, index + 1);
          ok := MakeDirectory(dir, index);
        }
        if !ok {
          return;
        }
      }
      ok := true;
    }

    method ParentsSafe(dir: Path, index: nat) returns (ok: bool)
      requires index <= |dir|
      ensures ok ==> SafeUpTo(host.fs, dir, index)
      ensures host.reliable && SafeUpTo(host.fs, dir, index) ==> ok
    {
      for k := 0 to index
        invariant SafeUpTo(host.fs, dir, k)
      {
        SafeIsPlain(host.fs, dir, k);
        ok := ValidateSafeDirectory(dir[..k + 1]);
        if !ok {
          return;
        }
      }
      ok := true;
    }

    method MakeDirectory(dir: Path, index: nat) returns (ok: bool)
      requires ROOT <= dir && 2 <= index < |dir| && SafeUpTo(host.fs, dir, index)
      modifies host
      ensures ok ==> SafeUpTo(host.fs, dir, index + 1)
      ensures host.fs == old(host.fs) || (dir[..index + 1] !in old(host.fs) && host.fs - {dir[..index + 1]} == old(host.fs))
      ensures host.named <= old(host.named) + {dir[..index + 1]}
      ensures host.reliable && dir[..index + 1] !in old(host.fs) ==> ok
    {
      var component := dir[..index + 1];
      SecuredIsDirect(host.fs, dir, index, component);
      ok := ParentsSafe(dir, index);
      if !ok {
        return;
      }
      ok := host.Mkdir(component);
      if !ok {
        return;
      }
      ok := ValidateSafeDirectory(component);
      if !ok {
        return;
      }
      assert Plain(host.fs, component);
      ok := Close(component);
      forall k | 0 < k <= index ensures dir[..k] in host.fs && host.fs[dir[..k]] == old(host.fs)[dir[..k]] {
        assert dir[..k] in old(host.fs) - {component};
        assert dir[..k] in host.fs - {component};
      }
      StillSafe(old(host.fs), host.fs, dir, index);
    }

    /** Gives a new directory to root and closes it to others, looking at it after each. */
    method Close(component: Path) returns (ok: bool)
      requires Plain(host.fs, component) && component in host.fs && SafeDirectory(host.fs[component])
      modifies host
      ensures host.fs - {component} == old(host.fs) - {component}
      ensures host.named <= old(host.named) + {component}
      ensures ok ==> component in host.fs && SafeDirectory(host.fs[component])
      ensures host.reliable ==> ok
    {
      ok := host.Chown(component);
      if !ok {
        return;
      }
      ok := ValidateSafeDirectory(component);
      if !ok {
        return;
      }
      ok := host.Chmod(component);
      if ok {
        ok := ValidateSafeDirectory(component);
      }
    }

    // ---------- The staging file ----------

    /** The path that mktemp printed, if it is one for a staging file in the directory. */
    method ValidateWrapperTempPath(dir: Path, printed: Option<Path>) returns (staging: Option<Path>)
      ensures staging == if printed.Some? && IsStaging(dir, printed.value) then printed else None
    {
      staging := None;
      if printed.Some? {
        var p := printed.value;
        if |p| == |dir| + 1 && p[..|dir|] == dir && STAGING_PREFIX < p[|dir|] {
          staging := Some(p);
        }
      }
    }

    /** Writes the staging file and makes it root's alone; on success it holds exactly the text. */
    method Stage(dir: Path, staging: Path, text: Bytes) returns (ok: bool)
      requires Secured(host.fs, dir) && IsStaging(dir, staging)
      modifies host
      ensures host.fs - {staging} == old(host.fs) - {staging}
      ensures host.named <= old(host.named) + {staging}
      ensures ok ==> staging in host.fs && host.fs[staging] == Wrapper(text)
      ensures host.reliable && staging in old(host.fs) && SafeFile(old(host.fs)[staging]) ==> ok
    {
      ok := Fill(dir, staging, text);
      if ok {
        ok := Own(staging);
      }
      if ok {
        ok := host.Sync(staging);
      }
    }

    method Fill(dir: Path, staging: Path, text: Bytes) returns (ok: bool)
      requires Secured(host.fs, dir) && IsStaging(dir, staging)
      modifies host
      ensures host.fs - {staging} == old(host.fs) - {staging}
      ensures host.named <= old(host.named) + {staging}
      ensures ok ==> Plain(host.fs, staging) && staging in host.fs && SafeFile(host.fs[staging]) && host.fs[staging].content == text
      ensures host.reliable && staging in old(host.fs) && SafeFile(old(host.fs)[staging]) ==> ok
    {
      SecuredIsDirect(host.fs, dir, |dir|, staging);
      ok := ValidateRegularRootFile(staging, false);
      if !ok {
        return;
      }
      ok := host.Tee(staging, text);
      if ok {
        ok := ValidateRegularRootFile(staging, false);
      }
    }

    /** Owner and mode of a safe file, looked at after each. */
    method Own(staging: Path) returns (ok: bool)
      requires Plain(host.fs, staging) && staging in host.fs && SafeFile(host.fs[staging])
      modifies host
      ensures host.fs - {staging} == old(host.fs) - {staging}
      ensures host.named <= old(host.named) + {staging}
      ensures ok ==> staging in host.fs && host.fs[staging] == Wrapper(old(host.fs)[staging].content)
      ensures host.reliable ==> ok
    {
      ok := host.Chown(staging);
      if !ok {
        return;
      }
      ok := ValidateRegularRootFile(staging, false);
      if !ok {
        return;
      }
      ok := host.Chmod(staging);
      if ok {
        ok := ValidateRegularRootFile(staging, true);
      }
    }

    /** Checks everything once more and renames; then the target is checked where it stands. */
    method Replace(dir: Path, staging: Path, target: Path, ghost text: Bytes) returns (ok: bool, renamed: bool)
      requires Secured(host.fs, dir) && IsStaging(dir, staging) && |target| == |dir| + 1 && target[..|dir|] == dir
      requires staging in host.fs && host.fs[staging] == Wrapper(text)
      modifies host
      ensures host.fs == old(host.fs) || host.fs == (old(host.fs) - {staging})[target := Wrapper(text)]
      ensures host.named <= old(host.named) + {staging, target}
      ensures ok ==> renamed && Secured(host.fs, dir) && host.fs == (old(host.fs) - {staging})[target := Wrapper(text)]
      ensures host.reliable && ROOT <= dir && staging != target && Replaceable(old(host.fs), target) ==> ok
    {
      renamed := false;
      SecuredIsDirect(host.fs, dir, |dir|, target);
      SecuredIsDirect(host.fs, dir, |dir|, staging);
      ok := Revalidate(dir);
      if !ok {
        return;
      }
      ok := ValidateTarget(target);
      if !ok {
        return;
      }
      ok := ValidateRegularRootFile(staging, true);
      if !ok {
        return;
      }
      ok := host.Mv(staging, target);
      if !ok {
        return;
      }
      renamed := true;
      StillSecured(old(host.fs), host.fs, dir, {staging, target});
      SecuredIsDirect(host.fs, dir, |dir|, target);
      ok := ValidateRegularRootFile(target, true);
      if !ok {
        return;
      }
      ok := Revalidate(dir);
      if !ok {
        return;
      }
      ok := host.Sync(dir);
    }

    /** The staging file written and renamed, or removed again if it comes to neither. */
    method Deliver(dir: Path, staging: Path, target: Path, text: Bytes) returns (ok: bool)
      requires Secured(host.fs, dir) && IsStaging(dir, staging) && |target| == |dir| + 1 && target[..|dir|] == dir
      requires target != staging
      modifies host
      ensures host.fs - {staging, target} == old(host.fs) - {staging, target}
      ensures Lookup(host.fs, target) == old(Lookup(host.fs, target)) || Lookup(host.fs, target) == Some(Wrapper(text))
      ensures host.named <= old(host.named) + {staging, target}
      ensures ok ==> Secured(host.fs, dir) && Lookup(host.fs, target) == Some(Wrapper(text))
      ensures host.reliable && ROOT <= dir && staging in old(host.fs) && SafeFile(old(host.fs)[staging]) ==>
                ok || !Replaceable(old(host.fs), target)
    {
      ok := Stage(dir, staging, text);
      StillSecured(old(host.fs), host.fs, dir, {staging});
      SecuredIsDirect(host.fs, dir, |dir|, staging);
      ghost var staged := host.fs;
      if !ok {
        host.Rm(staging);
        ApartThen(old(host.fs), staged, host.fs, {staging}, {staging});
        LookupApart(old(host.fs), host.fs, {staging} + {staging}, target);
        WiderApart(old(host.fs), host.fs, {staging} + {staging}, {staging, target});
        return;
      }
      LookupApart(old(host.fs), staged, {staging}, target);
      var renamed;
      ok, renamed := Replace(dir, staging, target, text);
      StillSecured(staged, host.fs, dir, {staging, target});
      ghost var replaced := host.fs;
      if !renamed {
        SecuredIsDirect(host.fs, dir, |dir|, staging);
        host.Rm(staging);
      }
      LookupApart(old(host.fs), staged, {staging}, target);
      LookupApart(replaced, host.fs, {staging}, target);
      ApartThen(staged, replaced, host.fs, {staging, target}, {staging});
      ApartThen(old(host.fs), staged, host.fs, {staging}, {staging, target} + {staging});
      assert {staging} + ({staging, target} + {staging}) == {staging, target};
    }

    // ---------- Install ----------

    /**
     Installs the wrapper, if its path, tools and text were accepted beforehand. Whatever fails, the target is
     untouched or holds exactly the text, private to root; on success it does, in safe directories. On a
     host where nothing fails, it does succeed, unless a directory or the target is not as it should be.
     */
    method Install(target: Path, accepted: bool, rendered: Option<Bytes>) returns (ok: bool)
      requires accepted ==> |target| > |ROOT| && ROOT <= target[..|target| - 1] && target[|target| - 1] == "run.sh"
      modifies host
      ensures old(host.fs) == host.fs || (accepted && rendered.Some?
                && Confined(old(host.fs), host.fs, target[..|target| - 1], target, rendered.value))
      ensures accepted ==> forall p | p in host.named :: p in old(host.named) || Managed(target[..|target| - 1], target, p)
      ensures ok ==> accepted && rendered.Some? && Secured(host.fs, target[..|target| - 1])
                     && Lookup(host.fs, target) == Some(Wrapper(rendered.value))
      ensures host.reliable && accepted && rendered.Some? && Installable(old(host.fs), target[..|target| - 1], target) ==> ok
    {
      if !accepted || rendered.None? {
        return false;
      }
      var dir := target[..|target| - 1];
      var ready := host.Canonical(target);
      if !ready {
        return false;
      }
      ready := SecureManagedHierarchy(dir, target);
      ghost var secured := host.fs;
      TargetNotManaged(dir, target);
      if !ready {
        return false;
      }
      ok := InstallSecured(dir, target, rendered.value);
      ConfinedTogether(old(host.fs), secured, host.fs, dir, target, rendered.value);
    }

    method InstallSecured(dir: Path, target: Path, text: Bytes) returns (ok: bool)
      requires ROOT <= dir && Secured(host.fs, dir) && target == dir + ["run.sh"]
      modifies host
      ensures Confined(old(host.fs), host.fs, dir, target, text)
      ensures forall p | p in host.named :: p in old(host.named) || Managed(dir, target, p)
      ensures ok ==> Secured(host.fs, dir) && Lookup(host.fs, target) == Some(Wrapper(text))
      ensures host.reliable && Replaceable(old(host.fs), target) ==> ok
    {
      SecuredIsDirect(host.fs, dir, |dir|, target);
      ok := ValidateTarget(target);
      if !ok {
        return;
      }
      ok := Revalidate(dir);
      if !ok {
        return;
      }
      ghost var made;
      var printed;
      printed, made := host.Mktemp(dir, STAGING_PREFIX);
      SecuredIsDirect(old(host.fs), dir, |dir|, made);
      var staging := ValidateWrapperTempPath(dir, printed);
      if staging.None? {
        return false;
      }
      StillSecured(old(host.fs), host.fs, dir, {made});
      ghost var before := host.fs;
      ok := Deliver(dir, staging.value, target, text);
      assert Managed(dir, target, made) && Managed(dir, target, staging.value) && Managed(dir, target, target);
      ConfinedBy(old(host.fs), before, host.fs, dir, target, staging.value, made, text);
    }
  }

  /** Nothing that was there has changed, and what is new is a managed directory. */
  ghost predicate OnlyMissing(before: Files, now: Files, dir: Path) {
    && (forall p | p in before :: p in now && now[p] == before[p])
    && (forall p | p in now && p !in before :: ROOT <= p && p <= dir)
  }

  lemma TargetNotManaged(dir: Path, target: Path)
    requires |target| == |dir| + 1
    ensures !(target <= dir)
  {
  }

  lemma ApartThen(before: Files, mid: Files, now: Files, some: set<Path>, more: set<Path>)
    requires mid - some == before - some && now - more == mid - more
    ensures now - (some + more) == before - (some + more)
  {
    assert now - (some + more) == (now - more) - some;
    assert mid - (some + more) == (mid - more) - some;
    assert mid - (some + more) == (mid - some) - more;
    assert before - (some + more) == (before - some) - more;
  }

  lemma LookupApart(before: Files, now: Files, changed: set<Path>, p: Path)
    requires now - changed == before - changed && p !in changed
    ensures Lookup(now, p) == Lookup(before, p)
  {
    assert p in now - changed <==> p in now;
    assert p in before - changed <==> p in before;
  }

  lemma WiderApart(before: Files, now: Files, changed: set<Path>, more: set<Path>)
    requires now - changed == before - changed && changed <= more
    ensures now - more == before - more
  {
    assert now - more == (now - changed) - more && before - more == (before - changed) - more;
  }

  /** Files beside the directories do not matter to them. */
  lemma StillSecured(before: Files, now: Files, dir: Path, changed: set<Path>)
    requires Secured(before, dir) && now - changed == before - changed
    requires forall p | p in changed :: |p| > |dir|
    ensures Secured(now, dir)
  {
    forall k | 0 < k <= |dir| ensures dir[..k] in now && now[dir[..k]] == before[dir[..k]] {
      assert dir[..k] in before - changed;
    }
    StillSafe(before, now, dir, |dir|);
  }

  lemma ConfinedBy(first: Files, before: Files, now: Files, dir: Path, target: Path, staging: Path, made: Path,
                   text: Bytes)
    requires before == first || (made in before && made !in first && before == first[made := before[made]])
    requires IsStaging(dir, made) && IsStaging(dir, staging) && !IsStaging(dir, target)
    requires now - {staging, target} == before - {staging, target}
    requires Lookup(now, target) == Lookup(before, target) || Lookup(now, target) == Some(Wrapper(text))
    ensures Confined(first, now, dir, target, text)
  {
    forall p | p in first && p != target && !IsStaging(dir, p) ensures p in now && now[p] == first[p] {
      assert p in before - {staging, target};
    }
    forall p | p in now && p !in first ensures Managed(dir, target, p) {
      assert p == staging || p == target || p in before - {staging, target};
    }
  }

  lemma ConfinedTogether(first: Files, secured: Files, now: Files, dir: Path, target: Path, text: Bytes)
    requires OnlyMissing(first, secured, dir) && Confined(secured, now, dir, target, text) && !(target <= dir)
    ensures Confined(first, now, dir, target, text)
  {
  }
}
