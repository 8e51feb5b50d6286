/**
 Compiling a job into an execution plan, and the wrapper renderer's own check of the plan. What a
 plan may contain is decided twice, by different code; here the two are compared.
 */
module PlanCompilers {
  import opened AnyOrder
  import opened HostPaths
  import opened Options
  import opened ShellWords
  import opened SyncArgs
  import opened SyncReadings
  import opened Texts

  // ---------- Jobs, requests, hosts ----------

  datatype Kind = Script | Command | Sync | OtherKind

  datatype Action = Action(kind: Kind, scriptPath: string, scriptArgs: seq<string>, command: string, sync: SyncAction)

  datatype Mode = ScriptOwner | Fixed | OtherMode

  datatype Identity = Identity(mode: Mode, user: string, uid: int, group: string, gid: int)

  datatype Policy = Policy(workingDirectory: string, environment: seq<string>, umask: nat, timeoutSeconds: int, stopGraceSeconds: int)

  datatype Job = Job(schemaVersion: int, id: int, revision: nat, needsReview: bool, action: Action, identity: Identity, policy: Policy)

  datatype Origin = Manual | Cron | Watch | System | OtherOrigin

  datatype Request = Request(runID: string, jobID: int, revision: nat, origin: Origin, dryRun: bool)

  datatype Tool = Shell | Test | Readlink | Stat | Head | Find | Getent | Setpriv | Env | Mkdir | Chown | Chmod
                | Mktemp | Tee | Sync_ | Mv | Rm | Rmdir | Date

  datatype HostTools = HostTools(profile: string, paths: map<Tool, string>)

  /** What the host's toolchain probe reported. */
  datatype Toolchain = Toolchain(available: bool, profile: string, details: map<Tool, string>)

  datatype Looks = Looks(regular: bool, directory: bool, executable: bool, hasShebang: bool, empty: bool)

  datatype PathInfo = PathInfo(canonicalPath: string, exists_: bool, looks: Looks, uid: nat, gid: nat)

  datatype Account = Account(name: string, id: int)

  // ---------- Plans ----------

  datatype Bounds = Bounds(timeout: int, stopGrace: int, umask: nat)

  datatype PlanAction = PlanAction(kind: Kind, command: string, syncEngine: string, syncMode: string, sync: SyncAction, argv: seq<string>)

  datatype Places = Places(working: string, wrapper: string, source: string, destination: string, nonEmptySource: string)

  datatype HostPart = HostPart(tools: HostTools, launcher: seq<string>, bounds: Bounds)

  datatype Plan = Plan(request: Request, job: int, revision: nat, action: PlanAction, identity: Identity,
                       environment: seq<string>, places: Places, host: HostPart)

  const EMPTY_SYNC := SyncAction("", "", "", "", Tuning("", "", false, 0, 0), Extras(false, false, ""))

  const EXECUTION_PATH := "/usr/local/sbin:" + "/usr/local/bin:" + "/usr/sbin:" + "/usr/bin:" + "/sbin:/bin"

  const LAUNCHER: seq<string> := ["HOME=/root", "LANG=C", "LC_ALL=C", "LOGNAME=root", "PATH=" + EXECUTION_PATH,
                                  "SHELL=/bin/sh", "TZ=UTC", "USER=root"]

  // ---------- Checks shared by both sides ----------

  predicate ValidArgv(argv: seq<string>) {
    argv != [] && argv[0] != "" && forall k | 0 <= k < |argv| :: NulFree(argv[k])
  }

  predicate Letter(c: char) { 'A' <= c <= 'Z' || 'a' <= c <= 'z' || c == '_' }

  predicate EnvironmentName(s: string) {
    s != [] && Letter(s[0]) && forall k | 0 <= k < |s| :: Letter(s[k]) || IsDigit(s[k])
  }

  /** Letters, digits, dots and dashes after a first letter, and possibly a dollar sign at the end. */
  predicate AccountName(s: string) {
    && s != [] && Letter(s[0])
    && (forall k | 0 <= k < |s| - 1 :: AccountChar(s[k]))
    && (AccountChar(s[|s| - 1]) || (s[|s| - 1] == '$' && |s| > 1))
  }

  predicate AccountChar(c: char) { Letter(c) || IsDigit(c) || c == '.' || c == '-' }

  predicate RunID(s: string) {
    && 1 <= |s| <= 128 && Alphanumeric(s[0])
    && (forall k | 0 <= k < |s| :: Alphanumeric(s[k]) || s[k] in "_.:-")
  }

  predicate KnownProfile(profile: string) { profile in ["gnu", "busybox", "uutils"] }

  predicate FixedIdentity(i: Identity) { AccountName(i.user) && AccountName(i.group) && i.uid >= 0 && i.gid >= 0 }

  predicate Apart(source: string, dest: string) {
    source != dest && !PathWithin(source, dest) && !PathWithin(dest, source)
  }

  // ---------- Environment entries ----------

  function NameOf(entry: string): string { entry[..Until(entry, '=')] }

  function ValueOf(entry: string): string
    requires Until(entry, '=') < |entry|
  {
    entry[Until(entry, '=') + 1..]
  }

  predicate ValidEntry(entry: string) {
    Until(entry, '=') < |entry| && EnvironmentName(NameOf(entry)) && NulFree(ValueOf(entry))
  }

  lemma EntryParts(name: string, value: string)
    requires EnvironmentName(name)
    ensures var entry := name + "=" + value;
            Until(entry, '=') < |entry| && NameOf(entry) == name && ValueOf(entry) == value
  {
    assert '=' !in name;
    UntilFirst(name, value, '=');
  }

  // ---------- The compiler's environment ----------

  /** Set by the launcher for the account that the run is given. */
  const ACCOUNT_NAMES := {"HOME", "USER", "LOGNAME", "SHELL"}

  const RUN_NAMES := {"SYNCBRIDGE_RUN_ID", "SYNCBRIDGE_JOB_ID", "SYNCBRIDGE_JOB_REVISION", "SYNCBRIDGE_RUN_ORIGIN", "SYNCBRIDGE_DRY_RUN"}

  predicate Reserved(name: string) { name in ACCOUNT_NAMES || name == "PATH" || name in RUN_NAMES }

  function OriginText(o: Origin): string {
    match o
    case Manual => "manual"
    case Cron => "cron"
    case Watch => "watch"
    case System => "system"
    case OtherOrigin => "other"
  }

  function Defaults(job: Job, request: Request): map<string, string> {
    map["PATH" := EXECUTION_PATH, "TZ" := "UTC", "LANG" := "C", "LC_ALL" := "C",
        "SYNCBRIDGE_RUN_ID" := request.runID,
        "SYNCBRIDGE_JOB_ID" := Itoa(if job.id > 0 then job.id else 0),
        "SYNCBRIDGE_JOB_REVISION" := Itoa(job.revision),
        "SYNCBRIDGE_RUN_ORIGIN" := OriginText(request.origin),
        "SYNCBRIDGE_DRY_RUN" := if request.dryRun then "true" else "false"]
  }

  /** The job's own entries by name, if each is valid, none is reserved and none comes twice. */
  function OwnEntries(entries: seq<string>): Option<map<string, string>> {
    if entries == [] then Some(map[])
    else
      var entry, rest := entries[|entries| - 1], OwnEntries(entries[..|entries| - 1]);
      if rest.None? || !ValidEntry(entry) || Reserved(NameOf(entry)) || NameOf(entry) in rest.value then None
      else Some(rest.value[NameOf(entry) := ValueOf(entry)])
  }

  /** A valid name with a NUL-free value, and not one of the account's. */
  predicate GoodVariable(name: string, value: string) {
    EnvironmentName(name) && NulFree(value) && name !in ACCOUNT_NAMES
  }

  ghost predicate GoodVariables(values: map<string, string>) {
    && (forall name | name in values :: GoodVariable(name, values[name]))
    && "PATH" in values && values["PATH"] == EXECUTION_PATH
  }

  lemma {:induction false} OwnEntriesGood(entries: seq<string>)
    requires OwnEntries(entries).Some?
    ensures forall name | name in OwnEntries(entries).value ::
              GoodVariable(name, OwnEntries(entries).value[name]) && !Reserved(name)
    decreases |entries|
  {
    if entries != [] {
      OwnEntriesGood(entries[..|entries| - 1]);
    }
  }

  lemma {:induction false} OwnEntriesStuck(entries: seq<string>, k: nat)
    requires k <= |entries| && OwnEntries(entries[..k]).None?
    ensures OwnEntries(entries).None?
    decreases |entries|
  {
    if k < |entries| {
      assert entries[..|entries| - 1][..k] == entries[..k];
      OwnEntriesStuck(entries[..|entries| - 1], k);
    } else {
      assert entries[..k] == entries;
    }
  }

  lemma LocaleNames()
    ensures EnvironmentName("PATH") && EnvironmentName("TZ") && EnvironmentName("LANG") && EnvironmentName("LC_ALL")
    ensures "PATH" !in ACCOUNT_NAMES && "TZ" !in ACCOUNT_NAMES && "LANG" !in ACCOUNT_NAMES && "LC_ALL" !in ACCOUNT_NAMES
  {
  }

  lemma RunNames()
    ensures forall name | name in RUN_NAMES :: EnvironmentName(name) && name !in ACCOUNT_NAMES
  {
    IdNames();
    RevisionName();
    RunOriginNames();
  }

  lemma IdNames()
    ensures EnvironmentName("SYNCBRIDGE_RUN_ID") && EnvironmentName("SYNCBRIDGE_JOB_ID")
  {
  }

  lemma RevisionName()
    ensures EnvironmentName("SYNCBRIDGE_JOB_REVISION")
  {
  }

  lemma RunOriginNames()
    ensures EnvironmentName("SYNCBRIDGE_RUN_ORIGIN") && EnvironmentName("SYNCBRIDGE_DRY_RUN")
  {
  }

  lemma PathNulFree()
    ensures NulFree(EXECUTION_PATH)
  {
    assert NulFree("/usr/local/sbin:") && NulFree("/usr/local/bin:");
    assert NulFree("/usr/sbin:") && NulFree("/usr/bin:") && NulFree("/sbin:/bin");
  }

  lemma DefaultValues(job: Job, request: Request)
    requires RunID(request.runID)
    ensures NulFree(EXECUTION_PATH) && NulFree("UTC") && NulFree("C") && NulFree(request.runID)
    ensures NulFree(Itoa(if job.id > 0 then job.id else 0)) && NulFree(Itoa(job.revision))
    ensures NulFree(OriginText(request.origin)) && NulFree("true") && NulFree("false")
  {
    PathNulFree();
    DigitsNulFree(Itoa(if job.id > 0 then job.id else 0));
    DigitsNulFree(Itoa(job.revision));
  }

  lemma DigitsNulFree(s: string)
    requires AllDigits(s)
    ensures NulFree(s)
  {
    assert forall c | c in s :: IsDigit(c);
  }

  lemma DefaultsGood(job: Job, request: Request)
    requires RunID(request.runID)
    ensures GoodVariables(Defaults(job, request))
  {
    LocaleNames();
    RunNames();
    DefaultValues(job, request);
  }

  /** The entries for some names, in the given order. */
  function EntriesOf(values: map<string, string>, names: seq<string>): seq<string>
    requires forall k | 0 <= k < |names| :: names[k] in values
  {
    seq(|names|, k requires 0 <= k < |names| => LineOf(values, names[k]))
  }

  lemma SortedIn(values: map<string, string>)
    ensures InOrder(values, Sorted(values.Keys))
  {
    SortedOnce(values.Keys);
    forall k | 0 <= k < |Sorted(values.Keys)| ensures Sorted(values.Keys)[k] in values {
      assert Sorted(values.Keys)[k] in Sorted(values.Keys);
    }
  }

  ghost function EnvironmentOf(job: Job, request: Request): Option<seq<string>> {
    var own := OwnEntries(job.policy.environment);
    if own.None? then None
    else
      var values := Defaults(job, request) + own.value;
      SortedIn(values);
      Some(EntriesOf(values, Sorted(values.Keys)))
  }

  /** What the environment says without a word from the job. */
  function DefaultLines(job: Job, request: Request): seq<string> {
    ["PATH=" + EXECUTION_PATH, "TZ=UTC", "LANG=C", "LC_ALL=C", "SYNCBRIDGE_RUN_ID=" + request.runID,
     "SYNCBRIDGE_JOB_ID=" + Itoa(if job.id > 0 then job.id else 0), "SYNCBRIDGE_JOB_REVISION=" + Itoa(job.revision),
     "SYNCBRIDGE_RUN_ORIGIN=" + OriginText(request.origin),
     if request.dryRun then "SYNCBRIDGE_DRY_RUN=true" else "SYNCBRIDGE_DRY_RUN=false"]
  }

  predicate Names(entries: seq<string>, name: string) { exists k | 0 <= k < |entries| :: NameOf(entries[k]) == name }

  /** Entries a job may have: valid, not reserved, and each name once. */
  predicate Grantable(entries: seq<string>) {
    && (forall k | 0 <= k < |entries| :: ValidEntry(entries[k]) && !Reserved(NameOf(entries[k])))
    && (forall i, k | 0 <= i < k < |entries| :: NameOf(entries[i]) != NameOf(entries[k]))
  }

  /** Just the job's entries and the default lines whose names they leave free, in the order of names. */
  predicate EnvironmentSays(environment: seq<string>, job: Job, request: Request) {
    && (forall k | 0 <= k < |environment| ::
          environment[k] in job.policy.environment
          || (environment[k] in DefaultLines(job, request) && !Names(job.policy.environment, NameOf(environment[k]))))
    && (forall k | 0 <= k < |job.policy.environment| :: job.policy.environment[k] in environment)
    && (forall k | 0 <= k < 9 && !Names(job.policy.environment, NameOf(DefaultLines(job, request)[k])) ::
          DefaultLines(job, request)[k] in environment)
    && (forall i, k | 0 <= i < k < |environment| ::
          NameOf(environment[i]) != NameOf(environment[k]) && Leq(NameOf(environment[i]), NameOf(environment[k])))
  }

  lemma NamesLast(entries: seq<string>, name: string)
    requires entries != []
    ensures Names(entries, name) <==> Names(entries[..|entries| - 1], name) || NameOf(entries[|entries| - 1]) == name
  {
    var n := |entries| - 1;
    if Names(entries[..n], name) {
      var k :| 0 <= k < n && NameOf(entries[..n][k]) == name;
      assert NameOf(entries[k]) == name;
    }
    if Names(entries, name) && NameOf(entries[n]) != name {
      var k :| 0 <= k < |entries| && NameOf(entries[k]) == name;
      assert NameOf(entries[..n][k]) == name;
    }
  }

  lemma GrantableLast(entries: seq<string>)
    requires entries != []
    ensures var init, last := entries[..|entries| - 1], entries[|entries| - 1];
            Grantable(entries) <==> Grantable(init) && ValidEntry(last) && !Reserved(NameOf(last)) && !Names(init, NameOf(last))
  {
    var n := |entries| - 1;
    var init := entries[..n];
    if Grantable(init) && ValidEntry(entries[n]) && !Reserved(NameOf(entries[n])) && !Names(init, NameOf(entries[n])) {
      forall k | 0 <= k < |entries| ensures ValidEntry(entries[k]) && !Reserved(NameOf(entries[k])) {
        assert k < n ==> init[k] == entries[k];
      }
      forall i, k | 0 <= i < k < |entries| ensures NameOf(entries[i]) != NameOf(entries[k]) {
        assert init[i] == entries[i];
        assert k < n ==> init[k] == entries[k];
      }
    }
  }

  /** The values that some entries give, by name. */
  ghost predicate Gives(entries: seq<string>, values: map<string, string>) {
    && (forall name :: name in values <==> Names(entries, name))
    && (forall k | 0 <= k < |entries| ::
          && ValidEntry(entries[k]) && NameOf(entries[k]) in values
          && values[NameOf(entries[k])] == ValueOf(entries[k]))
  }

  lemma {:induction false} OwnEntriesExactly(entries: seq<string>)
    ensures OwnEntries(entries).Some? <==> Grantable(entries)
    ensures Grantable(entries) ==> Gives(entries, OwnEntries(entries).value)
    decreases |entries|
  {
    if entries != [] {
      var init, last := entries[..|entries| - 1], entries[|entries| - 1];
      OwnEntriesExactly(init);
      GrantableLast(entries);
      forall name ensures Names(entries, name) <==> Names(init, name) || NameOf(last) == name {
        NamesLast(entries, name);
      }
      if Grantable(entries) {
        GivesMore(entries, OwnEntries(init).value);
      }
    }
  }

  lemma GivesMore(entries: seq<string>, values: map<string, string>)
    requires entries != [] && Grantable(entries) && Grantable(entries[..|entries| - 1])
    requires Gives(entries[..|entries| - 1], values)
    requires var init, last := entries[..|entries| - 1], entries[|entries| - 1];
             forall name :: Names(entries, name) <==> Names(init, name) || NameOf(last) == name
    ensures var last := entries[|entries| - 1]; Gives(entries, values[NameOf(last) := ValueOf(last)])
  {
    var n := |entries| - 1;
    var values' := values[NameOf(entries[n]) := ValueOf(entries[n])];
    forall k | 0 <= k < |entries|
      ensures NameOf(entries[k]) in values' && values'[NameOf(entries[k])] == ValueOf(entries[k])
    {
      if k < n {
        assert entries[..n][k] == entries[k];
      }
    }
  }

  lemma EntryIs(entry: string)
    requires ValidEntry(entry)
    ensures NameOf(entry) + "=" + ValueOf(entry) == entry
  {
    var n := Until(entry, '=');
    assert entry == entry[..n] + [entry[n]] + entry[n + 1..];
  }

  const DEFAULT_NAMES: seq<string> := ["PATH", "TZ", "LANG", "LC_ALL", "SYNCBRIDGE_RUN_ID", "SYNCBRIDGE_JOB_ID",
                                       "SYNCBRIDGE_JOB_REVISION", "SYNCBRIDGE_RUN_ORIGIN", "SYNCBRIDGE_DRY_RUN"]

  lemma DefaultKeys(job: Job, request: Request, name: string)
    ensures name in Defaults(job, request) <==> name in DEFAULT_NAMES
  {
  }

  lemma LocaleLines(job: Job, request: Request, k: nat)
    requires k < 4
    ensures DEFAULT_NAMES[k] in Defaults(job, request) && EnvironmentName(DEFAULT_NAMES[k])
    ensures DefaultLines(job, request)[k] == DEFAULT_NAMES[k] + "=" + Defaults(job, request)[DEFAULT_NAMES[k]]
  {
    LocaleNames();
    assert "TZ" + "=" + "UTC" == "TZ=UTC" && "LANG" + "=" + "C" == "LANG=C" && "LC_ALL" + "=" + "C" == "LC_ALL=C";
  }

  lemma RunLines(job: Job, request: Request, k: nat)
    requires 4 <= k < 9
    ensures DEFAULT_NAMES[k] in Defaults(job, request) && EnvironmentName(DEFAULT_NAMES[k])
    ensures DefaultLines(job, request)[k] == DEFAULT_NAMES[k] + "=" + Defaults(job, request)[DEFAULT_NAMES[k]]
  {
    IdNames();
    RevisionName();
    RunOriginNames();
    assert "SYNCBRIDGE_RUN_ID" + "=" == "SYNCBRIDGE_RUN_ID=" && "SYNCBRIDGE_JOB_ID" + "=" == "SYNCBRIDGE_JOB_ID=";
    assert "SYNCBRIDGE_JOB_REVISION" + "=" == "SYNCBRIDGE_JOB_REVISION=";
    assert "SYNCBRIDGE_RUN_ORIGIN" + "=" == "SYNCBRIDGE_RUN_ORIGIN=";
    assert "SYNCBRIDGE_DRY_RUN" + "=" + "true" == "SYNCBRIDGE_DRY_RUN=true";
    assert "SYNCBRIDGE_DRY_RUN" + "=" + "false" == "SYNCBRIDGE_DRY_RUN=false";
  }

  lemma DefaultLine(job: Job, request: Request, k: nat)
    requires k < 9
    ensures DEFAULT_NAMES[k] in Defaults(job, request) && NameOf(DefaultLines(job, request)[k]) == DEFAULT_NAMES[k]
    ensures DefaultLines(job, request)[k] == DEFAULT_NAMES[k] + "=" + Defaults(job, request)[DEFAULT_NAMES[k]]
  {
    if k < 4 {
      LocaleLines(job, request, k);
    } else {
      RunLines(job, request, k);
    }
    EntryParts(DEFAULT_NAMES[k], Defaults(job, request)[DEFAULT_NAMES[k]]);
  }

  /** The compiled environment says what it should, whenever the job's own entries are as they may be. */
  lemma EnvironmentIsSaid(job: Job, request: Request)
    ensures EnvironmentOf(job, request).Some? <==> Grantable(job.policy.environment)
    ensures Grantable(job.policy.environment) ==> EnvironmentSays(EnvironmentOf(job, request).value, job, request)
  {
    OwnEntriesExactly(job.policy.environment);
    if Grantable(job.policy.environment) {
      var own := OwnEntries(job.policy.environment).value;
      var values := Defaults(job, request) + own;
      SortedOnce(values.Keys);
      SortedIn(values);
      ValuesNamed(job, request, own, values);
      EntriesNamed(values, Sorted(values.Keys));
      SaysOwn(job, request, own, values);
      SaysNamed(job, request, own, values);
      SaysDefaults(job, request, own, values);
      SaysAll(job, request, values, Sorted(values.Keys));
    }
  }

  lemma ValuesNamed(job: Job, request: Request, own: map<string, string>, values: map<string, string>)
    requires Gives(job.policy.environment, own) && values == Defaults(job, request) + own
    ensures forall name | name in values :: EnvironmentName(name)
  {
    var entries := job.policy.environment;
    forall name | name in values ensures EnvironmentName(name) {
      if name in own {
        var k :| 0 <= k < |entries| && NameOf(entries[k]) == name;
        assert ValidEntry(entries[k]);
      } else {
        DefaultKeys(job, request, name);
        var k :| 0 <= k < |DEFAULT_NAMES| && DEFAULT_NAMES[k] == name;
        DefaultNamed(k);
      }
    }
  }

  /** The line for a name, given the values. */
  function LineOf(values: map<string, string>, name: string): string
    requires name in values
  {
    name + "=" + values[name]
  }

  ghost predicate OwnSaid(entries: seq<string>, values: map<string, string>) {
    forall k | 0 <= k < |entries| :: NameOf(entries[k]) in values && entries[k] == LineOf(values, NameOf(entries[k]))
  }

  ghost predicate NamedSaid(entries: seq<string>, values: map<string, string>) {
    forall name | name in values && Names(entries, name) :: LineOf(values, name) in entries
  }

  ghost predicate DefaultsSaid(entries: seq<string>, defaults: seq<string>, values: map<string, string>) {
    && (forall k | 0 <= k < |defaults| && !Names(entries, NameOf(defaults[k])) ::
          NameOf(defaults[k]) in values && defaults[k] == LineOf(values, NameOf(defaults[k])))
    && (forall name | name in values && !Names(entries, name) :: LineOf(values, name) in defaults)
  }

  ghost predicate InOrder(values: map<string, string>, names: seq<string>) {
    && (forall name :: name in names <==> name in values)
    && (forall k | 0 <= k < |names| :: names[k] in values)
    && (forall i, k | 0 <= i < k < |names| :: names[i] != names[k] && Leq(names[i], names[k]))
  }

  lemma SaysAll(job: Job, request: Request, values: map<string, string>, names: seq<string>)
    requires InOrder(values, names) && forall k | 0 <= k < |names| :: NameOf(EntriesOf(values, names)[k]) == names[k]
    requires OwnSaid(job.policy.environment, values) && NamedSaid(job.policy.environment, values)
    requires DefaultsSaid(job.policy.environment, DefaultLines(job, request), values)
    ensures EnvironmentSays(EntriesOf(values, names), job, request)
  {
    var environment := EntriesOf(values, names);
    forall k | 0 <= k < |names| ensures environment[k] == LineOf(values, names[k]) && names[k] in values {
    }
    forall name | name in values ensures LineOf(values, name) in environment {
      var k :| 0 <= k < |names| && names[k] == name;
      assert environment[k] == LineOf(values, name);
    }
  }

  lemma DefaultNamed(k: nat)
    requires k < 9
    ensures EnvironmentName(DEFAULT_NAMES[k])
  {
    LocaleNames();
    IdNames();
    RevisionName();
    RunOriginNames();
  }

  lemma EntriesNamed(values: map<string, string>, names: seq<string>)
    requires forall k | 0 <= k < |names| :: names[k] in values && EnvironmentName(names[k])
    ensures forall k | 0 <= k < |names| :: NameOf(EntriesOf(values, names)[k]) == names[k]
  {
    forall k | 0 <= k < |names| ensures NameOf(EntriesOf(values, names)[k]) == names[k] {
      EntryParts(names[k], values[names[k]]);
    }
  }

  /** The job's own entries are kept as they are. */
  lemma SaysOwn(job: Job, request: Request, own: map<string, string>, values: map<string, string>)
    requires Gives(job.policy.environment, own) && values == Defaults(job, request) + own
    ensures OwnSaid(job.policy.environment, values)
  {
    var entries := job.policy.environment;
    forall k | 0 <= k < |entries|
      ensures NameOf(entries[k]) in values && entries[k] == LineOf(values, NameOf(entries[k]))
    {
      assert NameOf(entries[k]) in own;
      EntryIs(entries[k]);
    }
  }

  lemma SaysNamed(job: Job, request: Request, own: map<string, string>, values: map<string, string>)
    requires Gives(job.policy.environment, own) && values == Defaults(job, request) + own
    ensures NamedSaid(job.policy.environment, values)
  {
    var entries := job.policy.environment;
    SaysOwn(job, request, own, values);
    forall name | name in values && Names(entries, name) ensures LineOf(values, name) in entries {
      var k :| 0 <= k < |entries| && NameOf(entries[k]) == name;
      assert entries[k] == LineOf(values, name);
    }
  }

  /** A name left free says the default. */
  lemma SaysDefaults(job: Job, request: Request, own: map<string, string>, values: map<string, string>)
    requires Gives(job.policy.environment, own) && values == Defaults(job, request) + own
    ensures DefaultsSaid(job.policy.environment, DefaultLines(job, request), values)
  {
    forall k | 0 <= k < 9 && !Names(job.policy.environment, NameOf(DefaultLines(job, request)[k]))
      ensures var line := DefaultLines(job, request)[k]; NameOf(line) in values && line == LineOf(values, NameOf(line))
    {
      DefaultLine(job, request, k);
    }
    forall name | name in values && !Names(job.policy.environment, name)
      ensures LineOf(values, name) in DefaultLines(job, request)
    {
      DefaultKeys(job, request, name);
      var k :| 0 <= k < |DEFAULT_NAMES| && DEFAULT_NAMES[k] == name;
      DefaultLine(job, request, k);
      assert DefaultLines(job, request)[k] == LineOf(values, name);
    }
  }

  /** Defaults overridden by the job's entries, sorted by name. */
  method CompileEnvironment(job: Job, request: Request) returns (environment: Option<seq<string>>)
    ensures environment == EnvironmentOf(job, request)
  {
    var own: map<string, string> := map[];
    for k := 0 to |job.policy.environment|
      invariant OwnEntries(job.policy.environment[..k]) == Some(own)
    {
      var entry := job.policy.environment[k];
      assert job.policy.environment[..k + 1][..k] == job.policy.environment[..k];
      if !ValidEntry(entry) || Reserved(NameOf(entry)) || NameOf(entry) in own {
        OwnEntriesStuck(job.policy.environment, k + 1);
        return None;
      }
      own := own[NameOf(entry) := ValueOf(entry)];
    }
    assert job.policy.environment[..|job.policy.environment|] == job.policy.environment;
    var values := Defaults(job, request) + own;
    var names := SortNames(values.Keys);
    SortedIn(values);
    environment := Some(EntriesOf(values, names));
  }

  method SortNames(names: set<string>) returns (sorted: seq<string>)
    ensures sorted == Sorted(names)
  {
    sorted := [];
    var left := names;
    while left != {}
      invariant sorted + Sorted(left) == Sorted(names)
      decreases |left|
    {
      var name := FirstName(left);
      SortedFirst(left, name);
      assert sorted + ([name] + Sorted(left - {name})) == sorted + [name] + Sorted(left - {name});
      sorted, left := sorted + [name], left - {name};
    }
  }

  method FirstName(names: set<string>) returns (first: string)
    requires names != {}
    ensures IsFirst(names, first)
  {
    var left;
    first, left := Take(names);
    LeqTotal(first, first);
    while left != {}
      invariant first in names && left <= names
      invariant forall name | name in names && name !in left :: Leq(first, name)
      decreases |left|
    {
      var name, rest := Take(left);
      LeqTotal(name, first);
      LeqTotal(name, name);
      if !Leq(first, name) {
        forall other | other in names && other !in left ensures Leq(name, other) {
          LeqTransitive(name, first, other);
        }
        first := name;
      }
      left := rest;
    }
  }

  // ---------- The renderer's check of an environment ----------

  predicate FreeVariable(entry: string) {
    ValidEntry(entry) && NameOf(entry) !in ACCOUNT_NAMES && (NameOf(entry) == "PATH" ==> ValueOf(entry) == EXECUTION_PATH)
  }

  ghost predicate AcceptedEnvironment(environment: seq<string>) {
    && (forall k | 0 <= k < |environment| :: FreeVariable(environment[k]))
    && (forall i, k | 0 <= i < k < |environment| :: NameOf(environment[i]) != NameOf(environment[k]))
    && (exists k :: 0 <= k < |environment| && NameOf(environment[k]) == "PATH")
  }

  method ValidateEnvironment(environment: seq<string>) returns (ok: bool)
    ensures ok <==> AcceptedEnvironment(environment)
  {
    var seen: set<string> := {};
    var hasPath := false;
    for k := 0 to |environment|
      invariant forall i | 0 <= i < k :: FreeVariable(environment[i])
      invariant forall name :: name in seen <==> exists i :: 0 <= i < k && NameOf(environment[i]) == name
      invariant forall i, j | 0 <= i < j < k :: NameOf(environment[i]) != NameOf(environment[j])
      invariant hasPath <==> "PATH" in seen
    {
      var entry := environment[k];
      if !ValidEntry(entry) {
        return false;
      }
      var name, value := NameOf(entry), ValueOf(entry);
      if name in ACCOUNT_NAMES || name in seen {
        return false;
      }
      seen := seen + {name};
      if name == "PATH" {
        hasPath := value == EXECUTION_PATH;
        if !hasPath {
          return false;
        }
      }
    }
    ok := hasPath;
  }

  /** Whatever environment the compiler produces, the renderer accepts. */
  lemma EnvironmentAccepted(job: Job, request: Request)
    requires RunID(request.runID) && EnvironmentOf(job, request).Some?
    ensures AcceptedEnvironment(EnvironmentOf(job, request).value)
  {
    var own := OwnEntries(job.policy.environment).value;
    var values := Defaults(job, request) + own;
    DefaultsGood(job, request);
    OwnEntriesGood(job.policy.environment);
    assert GoodVariables(values);
    SortedOnce(values.Keys);
    SortedIn(values);
    EntriesAccepted(values, Sorted(values.Keys));
  }

  lemma EntriesAccepted(values: map<string, string>, names: seq<string>)
    requires GoodVariables(values) && (forall k | 0 <= k < |names| :: names[k] in values) && "PATH" in names
    requires forall i, k | 0 <= i < k < |names| :: names[i] != names[k]
    ensures AcceptedEnvironment(EntriesOf(values, names))
  {
    var environment := EntriesOf(values, names);
    forall k | 0 <= k < |names| ensures FreeVariable(environment[k]) && NameOf(environment[k]) == names[k] {
      assert GoodVariable(names[k], values[names[k]]);
      EntryParts(names[k], values[names[k]]);
    }
    var path :| 0 <= path < |names| && names[path] == "PATH";
    assert NameOf(environment[path]) == "PATH";
  }

  // ---------- Tools and bounds ----------

  const ALL_TOOLS: seq<Tool> := [Shell, Test, Readlink, Stat, Head, Find, Getent, Setpriv, Env, Mkdir, Chown, Chmod,
                                 Mktemp, Tee, Sync_, Mv, Rm, Rmdir, Date]

  /** The tools that the renderer writes into a wrapper. */
  const RENDERED_TOOLS: seq<Tool> := [Shell, Readlink, Head, Stat, Find, Getent, Setpriv, Env, Date, Rm]

  function Detail(details: map<Tool, string>, t: Tool): string { if t in details then details[t] else "" }

  /** The tools that the wrapper store runs itself. */
  const STORE_TOOLS: seq<Tool> := [Test, Readlink, Stat, Mkdir, Chown, Chmod, Mktemp, Tee, Sync_, Mv, Rm]

  /** Known tools at lexically canonical paths; unlike elsewhere, control characters are not looked for. */
  ghost predicate KnownTools(chain: Toolchain) {
    && chain.available && KnownProfile(chain.profile)
    && (forall k | 0 <= k < |ALL_TOOLS| :: Canonical(Detail(chain.details, ALL_TOOLS[k])))
  }

  /** The tools of the report, if it has all of them. */
  method ReportedTools(chain: Toolchain) returns (tools: Option<HostTools>)
    ensures tools.Some? <==> KnownTools(chain)
    ensures tools.Some? ==> tools.value.profile == chain.profile
                            && forall k | 0 <= k < |ALL_TOOLS| ::
                              ALL_TOOLS[k] in tools.value.paths && tools.value.paths[ALL_TOOLS[k]] == Detail(chain.details, ALL_TOOLS[k])
  {
    if !chain.available {
      return None;
    }
    var paths := CollectTools(ALL_TOOLS, chain.details);
    if paths.None? || !KnownProfile(chain.profile) {
      return None;
    }
    tools := Some(HostTools(chain.profile, paths.value));
  }

  method CollectTools(names: seq<Tool>, details: map<Tool, string>) returns (paths: Option<map<Tool, string>>)
    ensures paths.Some? <==> forall k | 0 <= k < |names| :: Canonical(Detail(details, names[k]))
    ensures paths.Some? ==> forall k | 0 <= k < |names| :: names[k] in paths.value && paths.value[names[k]] == Detail(details, names[k])
  {
    var values: map<Tool, string> := map[];
    for k := 0 to |names|
      invariant forall i | 0 <= i < k :: names[i] in values && values[names[i]] == Detail(details, names[i])
      invariant forall i | 0 <= i < k :: Canonical(Detail(details, names[i]))
    {
      var value := Detail(details, names[k]);
      if !Canonical(value) {
        return None;
      }
      values := values[names[k] := value];
    }
    paths := Some(values);
  }

  ghost predicate HasTools(tools: HostTools) {
    KnownProfile(tools.profile) && forall k | 0 <= k < |ALL_TOOLS| :: ALL_TOOLS[k] in tools.paths && Canonical(tools.paths[ALL_TOOLS[k]])
  }

  /** Limits in seconds; zero asks for the default. */
  function BoundsOf(p: Policy): (b: Option<Bounds>)
    ensures b.Some? ==> 1 <= b.value.timeout <= 604800 && 1 <= b.value.stopGrace <= 300 && 1 <= b.value.umask <= 511
    ensures b.None? <==> p.timeoutSeconds < 0 || p.timeoutSeconds > 604800 || p.stopGraceSeconds < 0
                         || p.stopGraceSeconds > 300 || p.umask > 511
  {
    if p.timeoutSeconds < 0 || p.timeoutSeconds > 7 * 24 * 3600 || p.stopGraceSeconds < 0 || p.stopGraceSeconds > 5 * 60
       || p.umask > 511 then None
    else Some(Bounds(if p.timeoutSeconds == 0 then 3600 else p.timeoutSeconds,
                     if p.stopGraceSeconds == 0 then 10 else p.stopGraceSeconds,
                     if p.umask == 0 then 18 else p.umask))
  }

  // ---------- Looking at the host ----------

  /** The host's answers during one compilation, a lookup at a time; a script is looked at twice, and may change. */
  datatype Answers = Answers(working: Option<PathInfo>, owned: Option<PathInfo>, script: Option<PathInfo>,
                             source: Option<PathInfo>, destination: Option<PathInfo>, user: Option<Account>,
                             group: Option<Account>)

  /** A path is used only if it is accepted as text and the host resolves it to itself. */
  function InspectCanonicalPath(path: string, answer: Option<PathInfo>): (info: Option<PathInfo>)
    ensures info.Some? <==> ValidPath(path) && answer.Some? && answer.value.canonicalPath == path
  {
    if !ValidPath(path) || answer.None? || answer.value.canonicalPath != path then None else answer
  }

  // ---------- Identities ----------

  predicate IsScript(info: PathInfo) {
    info.exists_ && info.looks.regular && info.looks.executable && info.looks.hasShebang
  }

  predicate ScriptAt(path: string, answer: Option<PathInfo>) {
    InspectCanonicalPath(path, answer).Some? && IsScript(answer.value)
  }

  /** A script's owner must be a known account other than root; a fixed identity must be just what the host knows. */
  predicate IdentityGranted(job: Job, a: Answers) {
    match job.identity.mode
    case ScriptOwner =>
      && job.action.kind == Script && ScriptAt(job.action.scriptPath, a.owned)
      && a.owned.value.uid != 0 && a.owned.value.gid != 0
      && a.user.Some? && a.user.value.id == a.owned.value.uid && a.user.value.name != ""
      && a.group.Some? && a.group.value.id == a.owned.value.gid && a.group.value.name != ""
    case Fixed =>
      && FixedIdentity(job.identity)
      && a.user == Some(Account(job.identity.user, job.identity.uid))
      && a.group == Some(Account(job.identity.group, job.identity.gid))
    case OtherMode => false
  }

  /** What goes into the plan; a script's owner is left to be found when the wrapper runs. */
  function IdentityOf(job: Job): Identity {
    if job.identity.mode == ScriptOwner then Identity(ScriptOwner, "", 0, "", 0) else job.identity
  }

  method ValidateIdentity(job: Job, a: Answers) returns (identity: Option<Identity>)
    ensures identity == if IdentityGranted(job, a) then Some(IdentityOf(job)) else None
  {
    match job.identity.mode
    case ScriptOwner =>
      if job.action.kind != Script {
        return None;
      }
      var info := InspectCanonicalPath(job.action.scriptPath, a.owned);
      if info.None? || !IsScript(info.value) || info.value.uid == 0 || info.value.gid == 0 {
        return None;
      }
      if a.user.None? || a.user.value.id != info.value.uid || a.user.value.name == "" {
        return None;
      }
      if a.group.None? || a.group.value.id != info.value.gid || a.group.value.name == "" {
        return None;
      }
      identity := Some(Identity(ScriptOwner, "", 0, "", 0));
    case Fixed =>
      if !FixedIdentity(job.identity) {
        return None;
      }
      if a.user.None? || a.user.value.name != job.identity.user || a.user.value.id != job.identity.uid {
        return None;
      }
      if a.group.None? || a.group.value.name != job.identity.group || a.group.value.id != job.identity.gid {
        return None;
      }
      identity := Some(job.identity);
    case OtherMode =>
      identity := None;
  }

  // ---------- Actions ----------

  datatype Compiled = Compiled(argv: seq<string>, source: string, destination: string, nonEmptySource: string)

  predicate SyncGranted(s: SyncAction, dryRun: bool, a: Answers) {
    && InspectCanonicalPath(s.source, a.source).Some? && InspectCanonicalPath(s.dest, a.destination).Some?
    && Apart(s.source, s.dest) && a.source.value.exists_ && a.source.value.looks.directory
    && (a.destination.value.exists_ ==> a.destination.value.looks.directory)
    && SyncArgv(s, dryRun).Some? && (Destructive(s) ==> !a.source.value.looks.empty)
    && ValidArgv(SyncArgv(s, dryRun).value)
  }

  predicate ActionGranted(action: Action, mode: Mode, dryRun: bool, a: Answers) {
    match action.kind
    case Script => ScriptAt(action.scriptPath, a.script) && ValidArgv([action.scriptPath] + action.scriptArgs)
    case Command => mode == Fixed && TrimSpace(action.command) != "" && NulFree(action.command)
    case Sync => mode == Fixed && SyncGranted(action.sync, dryRun, a)
    case OtherKind => false
  }

  /** What a granted action becomes: only a sync that may delete guards its source. */
  function CompiledOf(action: Action, shell: string, dryRun: bool): Compiled
    requires action.kind == Sync ==> SyncArgv(action.sync, dryRun).Some?
  {
    match action.kind
    case Script => Compiled([action.scriptPath] + action.scriptArgs, action.scriptPath, "", "")
    case Command => Compiled([shell, "-c", action.command], "", "", "")
    case Sync => Compiled(SyncArgv(action.sync, dryRun).value, action.sync.source, action.sync.dest,
                          if Destructive(action.sync) then action.sync.source else "")
    case OtherKind => Compiled([], "", "", "")
  }

  /**
   What the arguments run is what the action says, and a source is guarded against being empty exactly
   when files are to be deleted or removed.
   */
  predicate ActionSays(action: Action, c: Compiled, shell: string, dryRun: bool) {
    match action.kind
    case Script =>
      && c.argv != [] && c.argv[0] == action.scriptPath && c.argv[1..] == action.scriptArgs
      && c.source == action.scriptPath && c.destination == "" && c.nonEmptySource == ""
    case Command =>
      && |c.argv| == 3 && c.argv[0] == shell && c.argv[1] == "-c" && c.argv[2] == action.command
      && c.source == "" && c.destination == "" && c.nonEmptySource == ""
    case Sync =>
      && Asks(c.argv) == Some(Intended(action.sync, dryRun))
      && c.source == action.sync.source && c.destination == action.sync.dest
      && var change := Asks(c.argv).value.change;
         c.nonEmptySource == if change.deletes || change.removes then Asks(c.argv).value.source else ""
    case OtherKind => false
  }

  lemma CompiledSays(action: Action, mode: Mode, shell: string, dryRun: bool, a: Answers)
    requires ActionGranted(action, mode, dryRun, a)
    ensures ActionSays(action, CompiledOf(action, shell, dryRun), shell, dryRun)
  {
    if action.kind == Sync {
      AsksAsIntended(action.sync, dryRun);
    }
  }

  method CompileAction(action: Action, mode: Mode, shell: string, dryRun: bool, a: Answers)
    returns (c: Option<Compiled>)
    ensures c.Some? <==> ActionGranted(action, mode, dryRun, a)
    ensures c.Some? ==> c.value == CompiledOf(action, shell, dryRun) && ActionSays(action, c.value, shell, dryRun)
  {
    if ActionGranted(action, mode, dryRun, a) {
      CompiledSays(action, mode, shell, dryRun, a);
    }
    match action.kind
    case Script =>
      var info := InspectCanonicalPath(action.scriptPath, a.script);
      var argv := [action.scriptPath] + action.scriptArgs;
      if info.None? || !IsScript(info.value) || !ValidArgv(argv) {
        return None;
      }
      c := Some(Compiled(argv, action.scriptPath, "", ""));
    case Command =>
      if mode != Fixed || TrimSpace(action.command) == "" || !NulFree(action.command) {
        return None;
      }
      c := Some(Compiled([shell, "-c", action.command], "", "", ""));
    case Sync =>
      if mode != Fixed {
        return None;
      }
      c := CompileSync(action.sync, dryRun, a);
    case OtherKind =>
      c := None;
  }

  method CompileSync(s: SyncAction, dryRun: bool, a: Answers) returns (c: Option<Compiled>)
    ensures c.Some? <==> SyncGranted(s, dryRun, a)
    ensures c.Some? ==> c.value == Compiled(SyncArgv(s, dryRun).value, s.source, s.dest, if Destructive(s) then s.source else "")
    ensures c.Some? ==> Asks(c.value.argv) == Some(Intended(s, dryRun))
  {
    if !ValidOptions(s) {
      return None;
    }
    var source, destination := InspectCanonicalPath(s.source, a.source), InspectCanonicalPath(s.dest, a.destination);
    if source.None? || destination.None? || !Apart(source.value.canonicalPath, destination.value.canonicalPath) {
      return None;
    }
    if !source.value.exists_ || !source.value.looks.directory || (destination.value.exists_ && !destination.value.looks.directory) {
      return None;
    }
    var argv := BuildArgv(s, dryRun);
    if (Destructive(s) && source.value.looks.empty) || !ValidArgv(argv) {
      return None;
    }
    c := Some(Compiled(argv, s.source, s.dest, if Destructive(s) then s.source else ""));
  }

  // ---------- The renderer's check of a plan ----------

  predicate ActionConsistent(a: PlanAction, p: Places, dryRun: bool, shell: string) {
    match a.kind
    case Script =>
      && !dryRun && p.source != "" && a.argv != [] && a.argv[0] == p.source && p.destination == ""
      && p.nonEmptySource == ""
      && a.command == "" && a.syncEngine == "" && a.syncMode == "" && a.sync == EMPTY_SYNC
    case Command =>
      && !dryRun && TrimSpace(a.command) != "" && p.source == "" && p.destination == "" && p.nonEmptySource == ""
      && a.syncEngine == "" && a.syncMode == "" && a.sync == EMPTY_SYNC && a.argv == [shell, "-c", a.command]
    case Sync =>
      && SyncArgv(a.sync, dryRun) == Some(a.argv) && a.command == "" && p.source != "" && p.destination != ""
      && a.syncEngine == a.sync.engine && a.syncMode == a.sync.mode && p.source == a.sync.source
      && p.destination == a.sync.dest
      && Apart(p.source, p.destination) && (Destructive(a.sync) <==> p.nonEmptySource == p.source)
    case OtherKind => false
  }

  predicate IdentityConsistent(i: Identity, kind: Kind) {
    match i.mode
    case ScriptOwner => kind == Script
    case Fixed => FixedIdentity(i)
    case OtherMode => false
  }

  predicate PlacesValid(p: Places) {
    && ValidPath(p.working) && ValidPath(p.wrapper) && (p.source != "" ==> ValidPath(p.source))
    && (p.destination != "" ==> ValidPath(p.destination)) && (p.nonEmptySource != "" ==> ValidPath(p.nonEmptySource))
  }

  /** What renderer and store ask of the paths of the tools they use. */
  ghost predicate PathsValid(names: seq<Tool>, paths: map<Tool, string>) {
    forall k | 0 <= k < |names| :: names[k] in paths && ValidPath(paths[names[k]])
  }

  ghost predicate ToolsRenderable(tools: HostTools) { PathsValid(RENDERED_TOOLS, tools.paths) }

  function ShellOf(tools: HostTools): string { Detail(tools.paths, Shell) }

  ghost predicate RendererAccepts(p: Plan) {
    && KnownProfile(p.host.tools.profile) && PlacesValid(p.places) && ValidArgv(p.action.argv)
    && p.host.bounds.umask <= 511 && p.host.launcher == LAUNCHER
    && ActionConsistent(p.action, p.places, p.request.dryRun, ShellOf(p.host.tools))
    && IdentityConsistent(p.identity, p.action.kind)
    && AcceptedEnvironment(p.environment)
    && ToolsRenderable(p.host.tools)
  }

  // ---------- Compiling ----------

  /** The fields of the other kinds of action are empty. */
  predicate OnlyOwnFields(a: Action) {
    match a.kind
    case Script => a.command == "" && a.sync == EMPTY_SYNC
    case Command => a.sync == EMPTY_SYNC
    case Sync => a.command == ""
    case OtherKind => false
  }

  ghost predicate PathsPrintable(names: seq<Tool>, paths: map<Tool, string>) {
    forall k | 0 <= k < |names| :: Printable(Detail(paths, names[k]))
  }

  ghost predicate ToolsPrintable(paths: map<Tool, string>) { PathsPrintable(RENDERED_TOOLS, paths) }

  lemma PrintableAsReported(names: seq<Tool>, paths: map<Tool, string>, details: map<Tool, string>)
    requires forall k | 0 <= k < |names| :: names[k] in ALL_TOOLS
    requires forall k | 0 <= k < |ALL_TOOLS| :: ALL_TOOLS[k] in paths && paths[ALL_TOOLS[k]] == Detail(details, ALL_TOOLS[k])
    ensures PathsPrintable(names, paths) <==> PathsPrintable(names, details)
  {
    forall k | 0 <= k < |names| ensures Detail(paths, names[k]) == Detail(details, names[k]) {
      assert names[k] in ALL_TOOLS;
    }
  }

  lemma UsedAreTools()
    ensures forall k | 0 <= k < |RENDERED_TOOLS| :: RENDERED_TOOLS[k] in ALL_TOOLS
    ensures forall k | 0 <= k < |STORE_TOOLS| :: STORE_TOOLS[k] in ALL_TOOLS
  {
  }

  lemma PathsAgree(tools: HostTools, names: seq<Tool>)
    requires HasTools(tools) && forall k | 0 <= k < |names| :: names[k] in ALL_TOOLS
    ensures PathsValid(names, tools.paths) <==> PathsPrintable(names, tools.paths)
  {
    forall k | 0 <= k < |names| ensures names[k] in tools.paths && Canonical(tools.paths[names[k]]) {
      assert names[k] in ALL_TOOLS;
    }
  }

  lemma ToolsAgree(tools: HostTools)
    requires HasTools(tools)
    ensures ToolsRenderable(tools) <==> ToolsPrintable(tools.paths)
    ensures ShellOf(tools) != ""
  {
    UsedAreTools();
    PathsAgree(tools, RENDERED_TOOLS);
    assert ALL_TOOLS[0] == Shell;
  }

  /** A compiled action is consistent exactly when its job has only its own kind's fields. */
  lemma ActionAgrees(action: Action, mode: Mode, shell: string, dryRun: bool, a: Answers, working: string,
                     wrapper: string)
    requires ActionGranted(action, mode, dryRun, a) && (dryRun ==> action.kind == Sync)
    ensures var c := CompiledOf(action, shell, dryRun);
            ActionConsistent(PlanAction(action.kind, action.command, action.sync.engine, action.sync.mode, action.sync, c.argv),
                             Places(working, wrapper, c.source, c.destination, c.nonEmptySource), dryRun, shell)
            <==> OnlyOwnFields(action)
  {
  }

  lemma ArgvValid(action: Action, mode: Mode, shell: string, dryRun: bool, a: Answers)
    requires ActionGranted(action, mode, dryRun, a) && shell != "" && Printable(shell)
    ensures ValidArgv(CompiledOf(action, shell, dryRun).argv)
  {
    if action.kind == Command {
      assert NulFree(shell) by {
        assert forall k | 0 <= k < |shell| :: shell[k] != '\0';
      }
      assert NulFree("-c");
    }
  }

  lemma PlacesAgree(action: Action, mode: Mode, shell: string, dryRun: bool, a: Answers, working: string,
                    wrapper: string)
    requires ActionGranted(action, mode, dryRun, a) && ValidPath(working) && ValidPath(wrapper)
    ensures var c := CompiledOf(action, shell, dryRun);
            PlacesValid(Places(working, wrapper, c.source, c.destination, c.nonEmptySource))
  {
  }

  function MakePlan(instance: string, tools: HostTools, job: Job, request: Request, identity: Identity, working: string,
                    c: Compiled, environment: seq<string>, bounds: Bounds): Plan
    requires job.id > 0
  {
    Plan(request, job.id, job.revision,
         PlanAction(job.action.kind, job.action.command, job.action.sync.engine, job.action.sync.mode, job.action.sync, c.argv),
         identity, environment, Places(working, WrapperPath(instance, job.id), c.source, c.destination, c.nonEmptySource),
         HostPart(tools, LAUNCHER, bounds))
  }

  ghost function PlanFor(instance: string, tools: HostTools, job: Job, request: Request): Plan
    requires job.id > 0 && (job.action.kind == Sync ==> SyncArgv(job.action.sync, request.dryRun).Some?)
    requires OwnEntries(job.policy.environment).Some? && BoundsOf(job.policy).Some?
  {
    MakePlan(instance, tools, job, request, IdentityOf(job), WorkingDirectory(job),
             CompiledOf(job.action, ShellOf(tools), request.dryRun), EnvironmentOf(job, request).value, BoundsOf(job.policy).value)
  }

  /** Everything but the action's own fields, the tools and the argument list being right already. */
  lemma Decided(p: Plan, own: bool, printable: bool)
    requires KnownProfile(p.host.tools.profile) && PlacesValid(p.places) && p.host.bounds.umask <= 511
    requires p.host.launcher == LAUNCHER
    requires IdentityConsistent(p.identity, p.action.kind) && AcceptedEnvironment(p.environment)
    requires ActionConsistent(p.action, p.places, p.request.dryRun, ShellOf(p.host.tools)) <==> own
    requires ToolsRenderable(p.host.tools) <==> printable
    requires printable ==> ValidArgv(p.action.argv)
    ensures RendererAccepts(p) <==> own && printable
  {
  }

  lemma ArgvValidIfPrintable(action: Action, mode: Mode, tools: HostTools, dryRun: bool, a: Answers)
    requires ActionGranted(action, mode, dryRun, a) && HasTools(tools)
    ensures ToolsPrintable(tools.paths) ==> ValidArgv(CompiledOf(action, ShellOf(tools), dryRun).argv)
  {
    ToolsAgree(tools);
    if ToolsPrintable(tools.paths) {
      assert Printable(Detail(tools.paths, RENDERED_TOOLS[0]));
      ArgvValid(action, mode, ShellOf(tools), dryRun, a);
    }
  }

  /** What holds of every plan compiled, whatever the fields of other kinds and the tools. */
  lemma PlanSound(instance: string, tools: HostTools, job: Job, request: Request, a: Answers)
    requires InstanceID(instance) && HasTools(tools) && RequestFits(job, request) && JobGranted(job, request, a)
    ensures var p := PlanFor(instance, tools, job, request);
            && KnownProfile(p.host.tools.profile) && PlacesValid(p.places) && p.host.bounds.umask <= 511
            && p.host.launcher == LAUNCHER
            && IdentityConsistent(p.identity, p.action.kind) && AcceptedEnvironment(p.environment)
            && ManagedWrapperPath(p.places.wrapper, p.job)
  {
    WrapperPathIsManaged(instance, job.id);
    EnvironmentAccepted(job, request);
    PlacesAgree(job.action, job.identity.mode, ShellOf(tools), request.dryRun, a, WorkingDirectory(job), WrapperPath(instance, job.id));
  }

  lemma PlanAgrees(instance: string, tools: HostTools, job: Job, request: Request, a: Answers)
    requires InstanceID(instance) && HasTools(tools) && RequestFits(job, request) && JobGranted(job, request, a)
    ensures var plan := PlanFor(instance, tools, job, request);
            && ManagedWrapperPath(plan.places.wrapper, plan.job)
            && (RendererAccepts(plan) <==> OnlyOwnFields(job.action) && ToolsPrintable(tools.paths))
  {
    var mode, shell := job.identity.mode, ShellOf(tools);
    PlanSound(instance, tools, job, request, a);
    ToolsAgree(tools);
    ActionAgrees(job.action, mode, shell, request.dryRun, a, WorkingDirectory(job), WrapperPath(instance, job.id));
    ArgvValidIfPrintable(job.action, mode, tools, request.dryRun, a);
    Decided(PlanFor(instance, tools, job, request), OnlyOwnFields(job.action), ToolsPrintable(tools.paths));
  }

  /** What the plan does is what the job and the request say. */
  predicate PlanSays(p: Plan, job: Job, request: Request) {
    && p.request == request && p.job == job.id && p.revision == job.revision
    && p.action.kind == job.action.kind
    && ActionSays(job.action, Compiled(p.action.argv, p.places.source, p.places.destination, p.places.nonEmptySource),
                  ShellOf(p.host.tools), request.dryRun)
    && p.identity.mode == job.identity.mode && (job.identity.mode == Fixed ==> p.identity == job.identity)
    && (job.policy.workingDirectory == "" ==> p.places.working == "/")
    && (job.policy.workingDirectory != "" ==> p.places.working == job.policy.workingDirectory)
    && (job.policy.timeoutSeconds != 0 ==> p.host.bounds.timeout == job.policy.timeoutSeconds)
    && (job.policy.stopGraceSeconds != 0 ==> p.host.bounds.stopGrace == job.policy.stopGraceSeconds)
    && (job.policy.umask != 0 ==> p.host.bounds.umask == job.policy.umask)
    && (job.policy.timeoutSeconds == 0 ==> p.host.bounds.timeout == 3600)
    && (job.policy.stopGraceSeconds == 0 ==> p.host.bounds.stopGrace == 10)
    && (job.policy.umask == 0 ==> p.host.bounds.umask == 18)
    && EnvironmentSays(p.environment, job, request)
  }

  lemma PlanIsSaid(instance: string, tools: HostTools, job: Job, request: Request, a: Answers)
    requires RequestFits(job, request) && JobGranted(job, request, a)
    ensures PlanSays(PlanFor(instance, tools, job, request), job, request)
  {
    CompiledSays(job.action, job.identity.mode, ShellOf(tools), request.dryRun, a);
    EnvironmentIsSaid(job, request);
  }

  predicate RequestFits(job: Job, request: Request) {
    && job.id > 0 && job.schemaVersion == 2 && !job.needsReview
    && (request.jobID != 0 ==> request.jobID == job.id) && (request.revision != 0 ==> request.revision == job.revision)
    && RunID(request.runID) && request.origin != OtherOrigin && (request.dryRun ==> job.action.kind == Sync)
  }

  function WorkingDirectory(job: Job): string {
    if job.policy.workingDirectory == "" then "/" else job.policy.workingDirectory
  }

  /** The checks that an installation makes before it runs anything: path, rendering, tools. */
  ghost predicate InstallAccepts(p: Plan) {
    && ManagedWrapperPath(p.places.wrapper, p.job) && RendererAccepts(p)
    && KnownProfile(p.host.tools.profile) && PathsValid(STORE_TOOLS, p.host.tools.paths)
  }

  /** All that a job must be for the host at hand. */
  predicate JobGranted(job: Job, request: Request, a: Answers) {
    && InspectCanonicalPath(WorkingDirectory(job), a.working).Some? && a.working.value.exists_
    && a.working.value.looks.directory
    && IdentityGranted(job, a) && ActionGranted(job.action, job.identity.mode, request.dryRun, a)
    && OwnEntries(job.policy.environment).Some? && BoundsOf(job.policy).Some?
  }

  /** What the plan says, and who accepts it. */
  lemma Judged(instance: string, chain: Toolchain, tools: HostTools, job: Job, request: Request, a: Answers)
    requires InstanceID(instance) && HasTools(tools) && RequestFits(job, request) && JobGranted(job, request, a)
    requires forall k | 0 <= k < |ALL_TOOLS| :: tools.paths[ALL_TOOLS[k]] == Detail(chain.details, ALL_TOOLS[k])
    ensures var plan := PlanFor(instance, tools, job, request);
            && PlanSays(plan, job, request) && ManagedWrapperPath(plan.places.wrapper, job.id)
            && (RendererAccepts(plan) <==> OnlyOwnFields(job.action) && ToolsPrintable(chain.details))
            && (InstallAccepts(plan) <==> OnlyOwnFields(job.action) && ToolsPrintable(chain.details)
                                          && PathsPrintable(STORE_TOOLS, chain.details))
  {
    PlanAgrees(instance, tools, job, request, a);
    PlanIsSaid(instance, tools, job, request, a);
    UsedAreTools();
    PrintableAsReported(RENDERED_TOOLS, tools.paths, chain.details);
    PrintableAsReported(STORE_TOOLS, tools.paths, chain.details);
    PathsAgree(tools, STORE_TOOLS);
  }

  /**
   A plan is returned exactly when instance, request, tools and job are as required, and says what the
   job says. Its wrapper path is one that the store accepts, and the renderer accepts the whole plan
   exactly when the job leaves the other kinds' fields empty and the tools it writes have printable
   paths; an installation goes ahead exactly when those that it runs itself have, too.
   */
  method Compile(instance: string, capable: bool, chain: Toolchain, job: Job, request: Request, a: Answers)
    returns (plan: Option<Plan>)
    ensures plan.Some? <==> InstanceID(instance) && capable && KnownTools(chain) && RequestFits(job, request)
                            && JobGranted(job, request, a)
    ensures plan.Some? ==> plan.value == PlanFor(instance, plan.value.host.tools, job, request) && HasTools(plan.value.host.tools)
    ensures plan.Some? ==> PlanSays(plan.value, job, request)
    ensures plan.Some? ==> ManagedWrapperPath(plan.value.places.wrapper, job.id)
    ensures plan.Some? ==> (RendererAccepts(plan.value) <==> OnlyOwnFields(job.action) && ToolsPrintable(chain.details))
    ensures plan.Some? ==> (InstallAccepts(plan.value) <==> OnlyOwnFields(job.action) && ToolsPrintable(chain.details)
                                                            && PathsPrintable(STORE_TOOLS, chain.details))
  {
    if !InstanceID(instance) || !RequestFits(job, request) || !capable {
      return None;
    }
    var tools := ReportedTools(chain);
    if tools.None? {
      return None;
    }
    var info := InspectCanonicalPath(WorkingDirectory(job), a.working);
    if info.None? || !info.value.exists_ || !info.value.looks.directory {
      return None;
    }
    var identity := ValidateIdentity(job, a);
    if identity.None? {
      return None;
    }
    var c := CompileAction(job.action, identity.value.mode, ShellOf(tools.value), request.dryRun, a);
    if c.None? {
      return None;
    }
    var environment := CompileEnvironment(job, request);
    var bounds := BoundsOf(job.policy);
    if environment.None? || bounds.None? {
      return None;
    }
    Judged(instance, chain, tools.value, job, request, a);
    plan := Some(MakePlan(instance, tools.value, job, request, identity.value, WorkingDirectory(job), c.value, environment.value, bounds.value));
  }

  /** The renderer's check, environment and tools one by one. */
  method ValidatePlan(p: Plan) returns (ok: bool)
    ensures ok <==> RendererAccepts(p)
  {
    if !KnownProfile(p.host.tools.profile) || !PlacesValid(p.places) || !ValidArgv(p.action.argv)
       || p.host.bounds.umask > 511 || p.host.launcher != LAUNCHER
       || !ActionConsistent(p.action, p.places, p.request.dryRun, ShellOf(p.host.tools))
       || !IdentityConsistent(p.identity, p.action.kind) {
      return false;
    }
    ok := ValidateEnvironment(p.environment);
    if !ok {
      return;
    }
    ok := ValidatePaths(RENDERED_TOOLS, p.host.tools.paths);
  }

  method ValidatePaths(names: seq<Tool>, paths: map<Tool, string>) returns (ok: bool)
    ensures ok <==> PathsValid(names, paths)
  {
    for k := 0 to |names|
      invariant forall i | 0 <= i < k :: names[i] in paths && ValidPath(paths[names[i]])
    {
      if names[k] !in paths || !ValidPath(paths[names[k]]) {
        return false;
      }
    }
    ok := true;
  }

  /** All the checks before an installation, in their order. */
  method ValidateForInstall(p: Plan) returns (ok: bool)
    ensures ok <==> InstallAccepts(p)
  {
    if !ManagedWrapperPath(p.places.wrapper, p.job) {
      return false;
    }
    ok := ValidatePlan(p);
    if ok {
      ok := KnownProfile(p.host.tools.profile);
    }
    if ok {
      ok := ValidatePaths(STORE_TOOLS, p.host.tools.paths);
    }
  }

  // ---------- Plans that compile and do not render ----------

  function ExampleJob(sync: SyncAction): Job {
    Job(2, 1, 1, false, Action(Command, "", [], "ls", sync), Identity(Fixed, "u", 1, "g", 1), Policy("", [], 0, 0, 0))
  }

  const EXAMPLE_REQUEST := Request("r", 1, 1, Manual, false)

  const EXAMPLE_ANSWERS := Answers(Some(PathInfo("/", true, Looks(false, true, false, false, false), 0, 0)), None, None, None, None,
                                   Some(Account("u", 1)), Some(Account("g", 1)))

  function ExampleChain(path: string): Toolchain { Toolchain(true, "gnu", map t | t in ALL_TOOLS :: path) }

  /** A command job is granted whatever its synchronization fields hold. */
  lemma ExampleGranted(sync: SyncAction)
    ensures RequestFits(ExampleJob(sync), EXAMPLE_REQUEST) && JobGranted(ExampleJob(sync), EXAMPLE_REQUEST, EXAMPLE_ANSWERS)
  {
    assert AccountName("u") && AccountName("g");
    assert TrimSpace("ls") == "ls" by {
      assert TrimLeft("ls") == "ls" && TrimRight("ls") == "ls";
    }
    assert NulFree("ls") && RunID("r");
    assert OwnEntries([]) == Some(map[]);
  }

  lemma ExampleKnown(path: string)
    requires Canonical(path)
    ensures KnownTools(ExampleChain(path)) && HasTools(HostTools("gnu", ExampleChain(path).details))
    ensures ToolsPrintable(ExampleChain(path).details) <==> Printable(path)
  {
    forall k | 0 <= k < |ALL_TOOLS| ensures Detail(ExampleChain(path).details, ALL_TOOLS[k]) == path {
      assert ALL_TOOLS[k] in ALL_TOOLS;
    }
    UsedAreTools();
    forall k | 0 <= k < |RENDERED_TOOLS| ensures Detail(ExampleChain(path).details, RENDERED_TOOLS[k]) == path {
      assert RENDERED_TOOLS[k] in ALL_TOOLS;
    }
    assert RENDERED_TOOLS[0] == Shell;
  }

  /** All that compiling asks for is given, and the renderer accepts the plan exactly for an empty sync and a printable path. */
  lemma ExampleCompiles(path: string, sync: SyncAction)
    requires Canonical(path)
    ensures InstanceID("i") && KnownTools(ExampleChain(path)) && RequestFits(ExampleJob(sync), EXAMPLE_REQUEST)
    ensures JobGranted(ExampleJob(sync), EXAMPLE_REQUEST, EXAMPLE_ANSWERS)
    ensures RendererAccepts(PlanFor("i", HostTools("gnu", ExampleChain(path).details), ExampleJob(sync), EXAMPLE_REQUEST))
            <==> sync == EMPTY_SYNC && Printable(path)
  {
    ExampleGranted(sync);
    ExampleKnown(path);
    PlanAgrees("i", HostTools("gnu", ExampleChain(path).details), ExampleJob(sync), EXAMPLE_REQUEST, EXAMPLE_ANSWERS);
  }

  /** A command job with a synchronization engine left in it compiles, and its plan does not render. */
  lemma StrayFieldsRefused()
    ensures var job := ExampleJob(EMPTY_SYNC.(engine := "rsync"));
            && InstanceID("i") && KnownTools(ExampleChain("/t")) && RequestFits(job, EXAMPLE_REQUEST)
            && JobGranted(job, EXAMPLE_REQUEST, EXAMPLE_ANSWERS) && !OnlyOwnFields(job.action)
            && !RendererAccepts(PlanFor("i", HostTools("gnu", ExampleChain("/t").details), job, EXAMPLE_REQUEST))
  {
    assert "/t"[1..] == "t" && Split("t", '/') == ["t"];
    ExampleCompiles("/t", EMPTY_SYNC.(engine := "rsync"));
  }

  /**
   The capability report checks less than the renderer does: with every tool at a path that is
   canonical and holds a tab, the same job without stray fields compiles, and its plan does not render.
   */
  lemma UnprintableToolsRefused()
    ensures var job := ExampleJob(EMPTY_SYNC);
            && InstanceID("i") && KnownTools(ExampleChain("/\t")) && RequestFits(job, EXAMPLE_REQUEST)
            && JobGranted(job, EXAMPLE_REQUEST, EXAMPLE_ANSWERS) && OnlyOwnFields(job.action)
            && !RendererAccepts(PlanFor("i", HostTools("gnu", ExampleChain("/\t").details), job, EXAMPLE_REQUEST))
  {
    assert "/\t"[1..] == "\t" && Split("\t", '/') == ["\t"];
    assert !Printable("/\t") by {
      assert "/\t"[1] == '\t';
    }
    ExampleCompiles("/\t", EMPTY_SYNC);
  }
}
