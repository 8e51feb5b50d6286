/**
 Absolute host paths as texts: which ones are accepted, when one lies inside another, and where a
 job's wrapper is.
 */
module HostPaths {
  import opened Options
  import opened Texts

  // ---------- Accepted paths ----------

  predicate IsName(part: string) { part != "" && part != "." && part != ".." && '/' !in part }

  predicate AreNames(parts: seq<string>) { forall k | 0 <= k < |parts| :: IsName(parts[k]) }

  /** Absolute, and left as it is by lexical cleaning: no empty, `.` or `..` component and no trailing slash. */
  predicate Canonical(p: string) { p != "" && p[0] == '/' && (p == "/" || AreNames(Split(p[1..], '/'))) }

  predicate Printable(p: string) { forall k | 0 <= k < |p| :: p[k] >= ' ' && p[k] != 127 as char }

  /** What the compiler and the renderer ask of a path. */
  predicate ValidPath(p: string) { Canonical(p) && Printable(p) }

  function PathOf(parts: seq<string>): string { if parts == [] then "/" else "/" + Join(parts, '/') }

  function Parts(p: string): seq<string>
    requires Canonical(p)
  {
    if p == "/" then [] else Split(p[1..], '/')
  }

  lemma PartsOfPath(parts: seq<string>)
    requires AreNames(parts)
    ensures Canonical(PathOf(parts)) && Parts(PathOf(parts)) == parts
  {
    if parts != [] {
      SplitJoin(parts, '/');
      JoinNonEmpty(parts);
      assert PathOf(parts)[1..] == Join(parts, '/');
    }
  }

  lemma JoinNonEmpty(parts: seq<string>)
    requires parts != [] && parts[0] != ""
    ensures Join(parts, '/') != ""
  {
  }

  lemma PathOfParts(p: string)
    requires Canonical(p)
    ensures PathOf(Parts(p)) == p && AreNames(Parts(p))
  {
    if p != "/" {
      JoinSplit(p[1..], '/');
    }
  }

  // ---------- One path inside another ----------

  function PathWithin(parent: string, candidate: string): bool {
    if parent == "/" then candidate != "/" else parent + "/" <= candidate
  }

  lemma {:induction false} JoinMore(parts: seq<string>, more: seq<string>)
    requires parts != [] && more != []
    ensures Join(parts + more, '/') == Join(parts, '/') + "/" + Join(more, '/')
    decreases |parts|
  {
    if |parts| == 1 {
      assert (parts + more)[1..] == more;
    } else {
      assert (parts + more)[1..] == parts[1..] + more;
      JoinMore(parts[1..], more);
      assert parts[0] + ['/'] + (Join(parts[1..], '/') + "/" + Join(more, '/'))
          == (parts[0] + ['/'] + Join(parts[1..], '/')) + "/" + Join(more, '/');
    }
  }

  /** The text test for containment finds exactly the paths whose components go on from the parent's. */
  lemma WithinMeansBelow(parent: string, candidate: string)
    requires Canonical(parent) && Canonical(candidate)
    ensures PathWithin(parent, candidate) <==> Parts(parent) < Parts(candidate)
  {
    var a, b := Parts(parent), Parts(candidate);
    PathOfParts(parent);
    PathOfParts(candidate);
    if a < b && a != [] {
      BelowIsWithin(a, b[|a|..]);
      assert a + b[|a|..] == b;
    }
    if PathWithin(parent, candidate) && parent != "/" {
      WithinIsBelow(parent, candidate);
    }
  }

  lemma BelowIsWithin(parts: seq<string>, more: seq<string>)
    requires parts != [] && more != []
    ensures PathOf(parts) + "/" <= PathOf(parts + more)
  {
    JoinMore(parts, more);
    assert PathOf(parts + more) == PathOf(parts) + "/" + Join(more, '/');
  }

  lemma WithinIsBelow(parent: string, candidate: string)
    requires Canonical(parent) && Canonical(candidate) && parent != "/" && parent + "/" <= candidate
    ensures Parts(parent) < Parts(candidate)
  {
    var a, rest := Parts(parent), candidate[|parent| + 1..];
    PathOfParts(parent);
    var b := Split(rest, '/');
    JoinSplit(rest, '/');
    assert candidate == parent + "/" + rest;
    JoinMore(a, b);
    assert candidate[1..] == Join(a + b, '/');
    forall k | 0 <= k < |a + b| ensures '/' !in (a + b)[k] {
      assert k < |a| ==> IsName(a[k]);
    }
    SplitJoin(a + b, '/');
  }

  // ---------- The wrapper's path ----------

  predicate InstanceID(s: string) {
    && 1 <= |s| <= 64 && Alphanumeric(s[0])
    && (forall k | 0 <= k < |s| :: Alphanumeric(s[k]) || s[k] == '_' || s[k] == '-')
  }

  predicate Alphanumeric(c: char) { 'A' <= c <= 'Z' || 'a' <= c <= 'z' || IsDigit(c) }

  const MANAGED_PREFIX := "/var" + "/lib" + "/syncbridge" + "/instances" + "/"

  function WrapperPath(instance: string, job: nat): string {
    MANAGED_PREFIX + instance + "/jobs/" + Itoa(job) + "/run.sh"
  }

  predicate ManagedWrapperPath(path: string, job: int) {
    && ValidPath(path) && MANAGED_PREFIX <= path
    && var parts := Split(path[|MANAGED_PREFIX|..], '/');
       && |parts| == 4 && InstanceID(parts[0]) && parts[1] == "jobs" && parts[3] == "run.sh"
       && Atoi(parts[2]).Some? && Atoi(parts[2]).value > 0 && Atoi(parts[2]).value == job
  }

  function WrapperParts(instance: string, job: nat): seq<string> {
    [instance, "jobs", Itoa(job), "run.sh"]
  }

  lemma WrapperTail(instance: string, job: nat)
    ensures Join(WrapperParts(instance, job), '/') == instance + "/jobs/" + Itoa(job) + "/run.sh"
  {
    var n := Itoa(job);
    assert WrapperParts(instance, job)[1..] == ["jobs", n, "run.sh"];
    assert ["jobs", n, "run.sh"][1..] == [n, "run.sh"];
    assert [n, "run.sh"][1..] == ["run.sh"];
    assert Join([n, "run.sh"], '/') == n + "/" + "run.sh";
    assert Join(["jobs", n, "run.sh"], '/') == "jobs" + "/" + (n + "/" + "run.sh");
    assert instance + "/" + ("jobs" + "/" + (n + "/" + "run.sh")) == instance + "/jobs/" + n + "/run.sh";
  }

  const MANAGED_PARTS := ["var", "lib", "syncbridge", "instances"]

  lemma JoinFour(a: string, b: string, c: string, d: string)
    ensures Join([a, b, c, d], '/') == a + "/" + (b + "/" + (c + "/" + d))
  {
    assert [a, b, c, d][1..] == [b, c, d];
    assert [b, c, d][1..] == [c, d];
    assert [c, d][1..] == [d];
    assert Join([c, d], '/') == c + "/" + d;
    assert Join([b, c, d], '/') == b + "/" + Join([c, d], '/');
    assert Join([a, b, c, d], '/') == a + "/" + Join([b, c, d], '/');
  }

  lemma Regroup(a: string, b: string, c: string, d: string)
    ensures "/" + (a + "/" + (b + "/" + (c + "/" + d))) == ("/" + a) + ("/" + b) + ("/" + c) + ("/" + d)
  {
  }

  lemma ManagedPrefix()
    ensures "/" + Join(MANAGED_PARTS, '/') + "/" == MANAGED_PREFIX && AreNames(MANAGED_PARTS)
  {
    JoinFour("var", "lib", "syncbridge", "instances");
    Regroup("var", "lib", "syncbridge", "instances");
    assert "/" + "var" == "/var" && "/" + "lib" == "/lib";
    assert "/" + "syncbridge" == "/syncbridge";
    assert "/" + "instances" == "/instances";
  }

  lemma PrefixedPath(parts: seq<string>)
    requires parts != []
    ensures PathOf(MANAGED_PARTS + parts) == MANAGED_PREFIX + Join(parts, '/')
  {
    ManagedPrefix();
    JoinMore(MANAGED_PARTS, parts);
    Prefixed(Join(MANAGED_PARTS, '/'), Join(parts, '/'));
  }

  lemma Prefixed(a: string, b: string)
    ensures "/" + (a + "/" + b) == ("/" + a + "/") + b
  {
  }

  lemma DigitsAreName(s: string)
    requires s != [] && AllDigits(s)
    ensures IsName(s)
  {
    assert forall c | c in s :: IsDigit(c);
    assert IsDigit(s[0]);
  }

  lemma WrapperNames(instance: string, job: nat)
    requires InstanceID(instance)
    ensures AreNames(WrapperParts(instance, job)) && Unsplit(WrapperParts(instance, job), '/')
  {
    assert IsName(instance);
    DigitsAreName(Itoa(job));
    assert IsName("jobs") && IsName("run.sh");
  }

  lemma PrintableTogether(a: string, b: string)
    requires Printable(a) && Printable(b)
    ensures Printable(a + b)
  {
  }

  lemma WrapperPrintable(instance: string, job: nat)
    requires InstanceID(instance)
    ensures Printable(WrapperPath(instance, job))
  {
    assert Printable(MANAGED_PREFIX);
    assert Printable(instance);
    assert Printable("/jobs/");
    assert Printable(Itoa(job)) by {
      assert forall k | 0 <= k < |Itoa(job)| :: IsDigit(Itoa(job)[k]);
    }
    assert Printable("/run.sh");
    PrintableTogether(MANAGED_PREFIX, instance);
    PrintableTogether(MANAGED_PREFIX + instance, "/jobs/");
    PrintableTogether(MANAGED_PREFIX + instance + "/jobs/", Itoa(job));
    PrintableTogether(MANAGED_PREFIX + instance + "/jobs/" + Itoa(job), "/run.sh");
  }

  /** The compiler's path for a job's wrapper always passes the store's check. */
  lemma WrapperPathIsManaged(instance: string, job: nat)
    requires InstanceID(instance) && job > 0
    ensures ManagedWrapperPath(WrapperPath(instance, job), job)
  {
    var parts, path := WrapperParts(instance, job), WrapperPath(instance, job);
    var tail := instance + "/jobs/" + Itoa(job) + "/run.sh";
    WrapperTail(instance, job);
    assert path == MANAGED_PREFIX + tail;
    PrefixedPath(parts);
    WrapperNames(instance, job);
    ManagedPrefix();
    PartsOfPath(MANAGED_PARTS + parts);
    WrapperPrintable(instance, job);
    assert path[|MANAGED_PREFIX|..] == tail;
    SplitJoin(parts, '/');
    AtoiOfItoa(job);
  }

  /** A path that passes the store's check lies four names below the managed root, and ends in `run.sh`. */
  lemma ManagedPathParts(path: string, job: int)
    requires ManagedWrapperPath(path, job)
    ensures var parts := Parts(path);
            |parts| == 8 && parts[..4] == MANAGED_PARTS && parts[5] == "jobs" && parts[7] == "run.sh"
            && InstanceID(parts[4]) && Atoi(parts[6]) == Some(job)
  {
    var rest := path[|MANAGED_PREFIX|..];
    var parts := Split(rest, '/');
    JoinSplit(rest, '/');
    assert path == MANAGED_PREFIX + rest;
    PrefixedPath(parts);
    ManagedPrefix();
    assert path[1..] == Join(MANAGED_PARTS + parts, '/');
    SplitJoin(MANAGED_PARTS + parts, '/');
  }
}
