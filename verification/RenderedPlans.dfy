/** From a job to what the shell runs: the arguments of an accepted plan survive rendering and reading back. */
module RenderedPlans {
  import opened HostPaths
  import opened LaunchReadings
  import opened PlanCompilers
  import opened ShellWords
  import opened SyncArgs
  import opened SyncReadings
  import opened Texts
  import opened WrapperExec
  import HostFiles
  import Options
  import WrapperStores

  function Setpriv(p: Plan): string { Detail(p.host.tools.paths, Tool.Setpriv) }

  function EnvTool(p: Plan): string { Detail(p.host.tools.paths, Tool.Env) }

  lemma PrintableIsNulFree(s: string)
    requires Printable(s)
    ensures NulFree(s)
  {
    assert forall k | 0 <= k < |s| :: s[k] != '\0';
  }

  lemma EntryNulFree(entry: string)
    requires ValidEntry(entry)
    ensures NulFree(entry)
  {
    var n := Until(entry, '=');
    assert entry == NameOf(entry) + "=" + ValueOf(entry);
    assert forall c | c in NameOf(entry) :: Letter(c) || IsDigit(c);
  }

  lemma EnvironmentNulFree(environment: seq<string>)
    requires AcceptedEnvironment(environment)
    ensures AllNulFree(environment)
  {
    forall k | 0 <= k < |environment| ensures NulFree(environment[k]) {
      assert FreeVariable(environment[k]);
      EntryNulFree(environment[k]);
    }
  }

  lemma ToolsNulFree(tools: HostTools)
    requires ToolsRenderable(tools)
    ensures NulFree(Detail(tools.paths, Tool.Setpriv)) && NulFree(Detail(tools.paths, Tool.Env))
  {
    assert RENDERED_TOOLS[6] == Tool.Setpriv && RENDERED_TOOLS[7] == Tool.Env;
    PrintableIsNulFree(Detail(tools.paths, Tool.Setpriv));
    PrintableIsNulFree(Detail(tools.paths, Tool.Env));
  }

  lemma AcceptedIsNulFree(p: Plan)
    requires RendererAccepts(p)
    ensures p.action.argv != [] && AllNulFree(p.action.argv) && AllNulFree(p.environment)
    ensures NulFree(Setpriv(p)) && NulFree(EnvTool(p))
  {
    EnvironmentNulFree(p.environment);
    ToolsNulFree(p.host.tools);
  }

  /** A synchronization with backups is waited for; everything else replaces the wrapper. */
  function EndingOf(p: Plan, retention: string): Ending {
    if p.action.kind == Sync && p.action.sync.tuning.backup then Await(retention) else Become
  }

  /** How a wrapper for the plan ends. */
  function EndOfWrapper(p: Plan, retention: string): string
    requires p.action.argv != []
  {
    FinalText(EndingOf(p, retention), Prelude(Setpriv(p), EnvTool(p)), p.environment, p.action.argv)
  }

  /** The words that the end of the wrapper should be read as. */
  function IntendedWords(p: Plan, retention: string): seq<Word> {
    [Lits(Keyword(EndingOf(p, retention)))] + PieceWords(Prelude(Setpriv(p), EnvTool(p)))
    + Literals(p.environment) + Literals(p.action.argv)
  }

  /**
   For every plan that the renderer accepts, a shell reads the plan's environment and arguments back
   as they are, unless one of the arguments is the word that stands for the backup directory.
   */
  lemma AcceptedPlanReadsBack(p: Plan, retention: string)
    requires RendererAccepts(p)
    ensures ReadCommand(EndOfWrapper(p, retention)) == Words(IntendedWords(p, retention))
            <==> BACKUP_DIR_TOKEN !in p.action.argv
  {
    AcceptedIsNulFree(p);
    ArgvRoundTrip(EndingOf(p, retention), Setpriv(p), EnvTool(p), p.environment, p.action.argv);
  }

  /** For a synchronization: unless it makes backups, or excludes that very word. */
  lemma AcceptedSyncReadsBack(p: Plan, retention: string)
    requires RendererAccepts(p) && p.action.kind == Sync
    ensures ReadCommand(EndOfWrapper(p, retention)) == Words(IntendedWords(p, retention))
            <==> !p.action.sync.tuning.backup && BACKUP_DIR_TOKEN !in SplitCSV(p.action.sync.extras.exclude)
    ensures DRY_RUN in p.action.argv <==> p.request.dryRun
  {
    AcceptedPlanReadsBack(p, retention);
    BackupTokenIsThere(p.action.sync, p.request.dryRun);
    DryRunIsSaid(p.action.sync, p.request.dryRun);
  }

  // ---------- What is launched ----------

  /** What the end of the wrapper launches, read by the shell and then by the programs it names. */
  function LaunchOf(p: Plan, retention: string): Options.Option<Launch>
    requires p.action.argv != []
  {
    match ReadCommand(EndOfWrapper(p, retention))
    case Words(words) =>
      if words == [] || words[0] != Lits(Keyword(EndingOf(p, retention))) then Options.None
      else ReadLaunch(Setpriv(p), EnvTool(p), words[1..])
    case Unreadable => Options.None
  }

  lemma EntriesAssign(environment: seq<string>)
    requires AcceptedEnvironment(environment)
    ensures forall k | 0 <= k < |environment| :: '=' in environment[k]
  {
    forall k | 0 <= k < |environment| ensures '=' in environment[k] {
      assert FreeVariable(environment[k]);
      assert environment[k][Until(environment[k], '=')] == '=';
    }
  }

  /**
   An accepted plan is launched under the run's account, in a fresh environment of the account's variables
   and the plan's, with the plan's arguments, exactly if the first of these has no equals sign.
   */
  lemma AcceptedPlanLaunches(p: Plan, retention: string)
    requires RendererAccepts(p)
    ensures (LaunchOf(p, retention) == Options.Some(LaunchReadings.Intended(p.environment, p.action.argv)))
            <==> '=' !in p.action.argv[0]
  {
    var e, prelude := EndingOf(p, retention), Prelude(Setpriv(p), EnvTool(p));
    AcceptedIsNulFree(p);
    PreludeReadable(Setpriv(p), EnvTool(p));
    ExecReadsBack(e, prelude, p.environment, p.action.argv);
    EntriesAssign(p.environment);
    LaunchesExactly(Setpriv(p), EnvTool(p), p.environment, p.action.argv);
    AfterKeyword(Lits(Keyword(e)), PieceWords(prelude), Literals(p.environment), ArgWords(p.action.argv));
  }

  lemma AfterKeyword(keyword: Word, a: seq<Word>, b: seq<Word>, c: seq<Word>)
    ensures var words := [keyword] + a + b + c; words[0] == keyword && words[1..] == a + b + c
  {
  }

  lemma SyncAccepted(p: Plan)
    requires RendererAccepts(p) && p.action.kind == Sync
    ensures SyncArgv(p.action.sync, p.request.dryRun) == Options.Some(p.action.argv)
    ensures Canonical(p.action.sync.source) && Canonical(p.action.sync.dest) && p.action.argv != []
  {
  }

  lemma NoEqualsSign()
    ensures '=' !in "rsync" && '=' !in "rclone"
  {
  }

  /** A synchronization always is, and its arguments ask for what it says. */
  lemma AcceptedSyncLaunches(p: Plan, retention: string)
    requires RendererAccepts(p) && p.action.kind == Sync
    ensures p.action.argv != []
    ensures LaunchOf(p, retention) == Options.Some(LaunchReadings.Intended(p.environment, p.action.argv))
    ensures Asks(p.action.argv) == Options.Some(SyncReadings.Intended(p.action.sync, p.request.dryRun))
  {
    SyncAccepted(p);
    AcceptedPlanLaunches(p, retention);
    AsksAsIntended(p.action.sync, p.request.dryRun);
    ProgramOf(p.action.sync, p.request.dryRun);
    NoEqualsSign();
  }

  // ---------- A plan whose arguments are lost ----------

  const LOST_PATH := "/a=b"

  function LostJob(): Job {
    Job(2, 1, 1, false, Action(Script, LOST_PATH, [], "", EMPTY_SYNC), Identity(Fixed, "u", 1, "g", 1),
        Policy("", [], 0, 0, 0))
  }

  const LOST_ANSWERS := EXAMPLE_ANSWERS.(script := Options.Some(PathInfo(LOST_PATH, true, Looks(true, false, true, true, false), 0, 0)))

  ghost function LostPlan(): Plan
    requires OwnEntries([]).Some?
  {
    PlanFor("i", HostTools("gnu", ExampleChain("/t").details), LostJob(), EXAMPLE_REQUEST)
  }

  lemma LostPath()
    ensures ValidPath(LOST_PATH) && NulFree(LOST_PATH) && '=' in LOST_PATH
  {
    PartsOfPath(["a=b"]);
    assert PathOf(["a=b"]) == LOST_PATH;
    assert LOST_PATH[2] == '=';
  }

  lemma ToolPath()
    ensures Canonical("/t") && Printable("/t")
  {
    PartsOfPath(["t"]);
    assert PathOf(["t"]) == "/t";
  }

  lemma LostGranted()
    ensures RequestFits(LostJob(), EXAMPLE_REQUEST) && JobGranted(LostJob(), EXAMPLE_REQUEST, LOST_ANSWERS)
    ensures OwnEntries([]).Some?
  {
    LostPath();
    ExampleGranted(EMPTY_SYNC);
    assert AccountName("u") && AccountName("g");
    assert ScriptAt(LOST_PATH, LOST_ANSWERS.script);
    assert ValidArgv([LOST_PATH] + []);
  }

  /**
   A script whose path holds an equals sign: its plan compiles and is accepted, and env takes the path as
   a variable and runs nothing.
   */
  lemma EqualsSignIsLost(retention: string)
    ensures InstanceID("i") && KnownTools(ExampleChain("/t")) && RequestFits(LostJob(), EXAMPLE_REQUEST)
    ensures JobGranted(LostJob(), EXAMPLE_REQUEST, LOST_ANSWERS) && OwnEntries([]).Some?
    ensures RendererAccepts(LostPlan()) && LostPlan().action.argv == [LOST_PATH]
    ensures LaunchOf(LostPlan(), retention)
         != Options.Some(LaunchReadings.Intended(LostPlan().environment, LostPlan().action.argv))
  {
    LostPath();
    ToolPath();
    LostGranted();
    ExampleKnown("/t");
    PlanAgrees("i", HostTools("gnu", ExampleChain("/t").details), LostJob(), EXAMPLE_REQUEST, LOST_ANSWERS);
    assert RendererAccepts(LostPlan());
    assert LostPlan().action.argv == [LOST_PATH] + [];
    AcceptedPlanLaunches(LostPlan(), retention);
  }

  /** Every wrapper path that passes the store's check can be handed to its installation. */
  lemma ManagedPathIsInstallable(path: string, job: int)
    requires ManagedWrapperPath(path, job)
    ensures var target := Parts(path);
            && |target| > |WrapperStores.ROOT| && WrapperStores.ROOT <= target[..|target| - 1]
            && target[|target| - 1] == "run.sh"
  {
    ManagedPathParts(path, job);
    var target := Parts(path);
    assert target[..3] == target[..4][..3] == WrapperStores.ROOT;
    assert target[..|target| - 1][..3] == target[..3];
  }

  /** What installing a text as the wrapper at a path comes to. */
  twostate predicate Installed(store: WrapperStores.WrapperStore, path: string, text: HostFiles.Bytes, ok: bool)
    requires Canonical(path) && Parts(path) != []
    reads store.host
  {
    var target := Parts(path);
    var dir := target[..|target| - 1];
    && (store.host.fs == old(store.host.fs) || WrapperStores.Confined(old(store.host.fs), store.host.fs, dir, target, text))
    && (ok ==> WrapperStores.Secured(store.host.fs, dir)
               && HostFiles.Lookup(store.host.fs, target) == Options.Some(WrapperStores.Wrapper(text)))
    && (store.host.reliable && WrapperStores.Installable(old(store.host.fs), dir, target) ==> ok)
  }

  method InstallAt(store: WrapperStores.WrapperStore, path: string, job: int, text: HostFiles.Bytes) returns (ok: bool)
    requires ManagedWrapperPath(path, job)
    modifies store.host
    ensures Parts(path) != [] && Installed(store, path, text, ok)
  {
    ManagedPathIsInstallable(path, job);
    ok := store.Install(Parts(path), true, Options.Some(text));
  }

  /**
   A plan's installation: refused exactly by the checks made before, and then what installing its
   rendered text comes to. On a host where nothing fails, an accepted plan is installed.
   */
  method InstallPlan(store: WrapperStores.WrapperStore, p: Plan, text: HostFiles.Bytes) returns (ok: bool)
    modifies store.host
    ensures if InstallAccepts(p) then Parts(p.places.wrapper) != [] && Installed(store, p.places.wrapper, text, ok)
            else !ok && store.host.fs == old(store.host.fs) && store.host.named == old(store.host.named)
  {
    ok := ValidateForInstall(p);
    if ok {
      ok := InstallAt(store, p.places.wrapper, p.job, text);
    }
  }
}
