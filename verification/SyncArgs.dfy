/** The command line of a synchronization: which options are accepted, and the arguments they become. */
module SyncArgs {
  import opened HostPaths
  import opened Options
  import opened Texts
  import opened WrapperExec

  datatype Tuning = Tuning(compare: string, bwlimit: string, backup: bool, backupKeep: int, maxDel: int)

  datatype Extras = Extras(skipNew: bool, sysBackup: bool, exclude: string)

  datatype SyncAction = SyncAction(engine: string, source: string, dest: string, mode: string, tuning: Tuning, extras: Extras)

  // ---------- Options ----------

  /** The length of the digits that a text begins with. */
  function Digits(s: string): (n: nat)
    ensures n <= |s| && AllDigits(s[..n])
  {
    if s == [] || !IsDigit(s[0]) then 0 else
      assert s[..1 + Digits(s[1..])] == [s[0]] + s[1..][..Digits(s[1..])];
      1 + Digits(s[1..])
  }

  /** Case does not matter, and the Kelvin sign is another `k`. */
  predicate IsUnit(c: char) { c in "kmgtpeKMGTPE" || c as int == 0x212A }

  predicate IsByteSuffix(s: string) { s in ["", "b", "B", "ib", "iB", "Ib", "IB"] }

  predicate IsScale(s: string) { IsByteSuffix(s) || (s != [] && IsUnit(s[0]) && IsByteSuffix(s[1..])) }

  /** A number, possibly with decimals, then possibly a unit. */
  predicate BandwidthLimit(s: string) {
    var whole := Digits(s);
    && whole > 0
    && var rest := s[whole..];
       if rest != [] && rest[0] == '.' then
         var decimals := Digits(rest[1..]);
         decimals > 0 && IsScale(rest[1 + decimals..])
       else IsScale(rest)
  }

  function TrimSuffix(s: string, c: char): string { if s != [] && s[|s| - 1] == c then s[..|s| - 1] else s }

  function Limit(s: SyncAction): string { TrimSuffix(TrimSuffix(s.tuning.bwlimit, 'B'), 'b') }

  /** The trimmed, non-empty parts between commas. */
  function SplitCSV(s: string): seq<string> { Kept(Split(s, ',')) }

  function Kept(parts: seq<string>): (kept: seq<string>)
    ensures forall k | 0 <= k < |kept| :: kept[k] != ""
  {
    if parts == [] then []
    else Kept(parts[..|parts| - 1]) + if TrimSpace(parts[|parts| - 1]) == "" then [] else [TrimSpace(parts[|parts| - 1])]
  }

  predicate ControlFree(s: string) { forall k | 0 <= k < |s| :: s[k] >= ' ' || s[k] == '\t' }

  predicate ValidOptions(s: SyncAction) {
    && s.engine in ["rsync", "rclone"]
    && s.mode in ["add", "mirror", "move"]
    && s.tuning.compare in ["", "time", "checksum"]
    && (s.tuning.bwlimit == "" || BandwidthLimit(s.tuning.bwlimit))
    && s.tuning.backupKeep >= 0 && (s.tuning.backupKeep > 0 ==> s.tuning.backup)
    && s.tuning.maxDel >= 0 && (s.tuning.maxDel > 0 ==> s.mode == "mirror")
    && (s.extras.sysBackup ==> s.engine == "rsync")
    && ControlFree(s.extras.exclude)
    && (forall k | 0 <= k < |SplitCSV(s.extras.exclude)| :: SplitCSV(s.extras.exclude)[k][0] != '-')
  }

  // ---------- Arguments ----------

  function Flag(on: bool, args: seq<string>): seq<string> { if on then args else [] }

  function ExcludeArgs(patterns: seq<string>): seq<string> {
    if patterns == [] then [] else ExcludeArgs(patterns[..|patterns| - 1]) + ["--exclude", patterns[|patterns| - 1]]
  }

  function DirectoryArg(path: string): string { if path != "" && path[|path| - 1] == '/' then path else path + "/" }

  function Head(s: SyncAction): seq<string> {
    if s.engine == "rsync" then
      ["rsync", "-a", "--info=progress2,stats2", "--human-readable"]
      + Flag(s.extras.sysBackup, ["-HAX", "--numeric-ids", "--fake-super"])
      + Flag(s.mode == "mirror", ["--delete"]) + Flag(s.mode == "move", ["--remove-source-files"])
    else
      ["rclone", if s.mode == "add" then "copy" else if s.mode == "mirror" then "sync" else "move", s.source, s.dest,
       "--progress", "--stats=1s", "--stats-one-line"]
  }

  function BackupArgs(s: SyncAction): seq<string> {
    ["--backup-dir", BACKUP_DIR_TOKEN, "--exclude", if s.engine == "rsync" then ".sb-backup" else ".sb-backup/**"]
  }

  function Middle(s: SyncAction): seq<string> {
    Flag(s.tuning.compare == "checksum", ["--checksum"])
    + Flag(Limit(s) != "", ["--bwlimit", Limit(s)])
    + Flag(s.tuning.backup, Flag(s.engine == "rsync", ["--backup"]) + BackupArgs(s))
    + Flag(s.tuning.maxDel > 0, ["--max-delete", Itoa(if s.tuning.maxDel > 0 then s.tuning.maxDel else 0)])
    + Flag(s.extras.skipNew, ["--update"])
  }

  function Tail(s: SyncAction, dryRun: bool): seq<string> {
    if s.engine == "rsync" then
      Flag(dryRun, ["--dry-run", "--itemize-changes"]) + ["--", DirectoryArg(s.source), DirectoryArg(s.dest)]
    else Flag(dryRun, ["--dry-run"])
  }

  predicate Destructive(s: SyncAction) { s.mode == "mirror" || s.mode == "move" }

  function SyncArgv(s: SyncAction, dryRun: bool): Option<seq<string>> {
    if !ValidOptions(s) then None else Some(Head(s) + Middle(s) + ExcludeArgs(SplitCSV(s.extras.exclude)) + Tail(s, dryRun))
  }

  lemma ExcludeMore(patterns: seq<string>, k: nat)
    requires k < |patterns|
    ensures ExcludeArgs(patterns[..k + 1]) == ExcludeArgs(patterns[..k]) + ["--exclude", patterns[k]]
  {
    assert patterns[..k + 1][..k] == patterns[..k];
  }

  // ---------- What the arguments say ----------

  lemma {:induction false} InExcludeArgs(patterns: seq<string>, word: string)
    ensures word in ExcludeArgs(patterns) <==> word in patterns || (word == "--exclude" && patterns != [])
    decreases |patterns|
  {
    if patterns != [] {
      var k := |patterns| - 1;
      InExcludeArgs(patterns[..k], word);
      assert patterns == patterns[..k] + [patterns[k]];
    }
  }

  /** Words that only a flag, and no value given by a job, can be: here the dry run's. */
  const DRY_RUN := "--dry-run"

  lemma LimitStartsWithDigit(s: SyncAction)
    requires ValidOptions(s) && Limit(s) != ""
    ensures IsDigit(Limit(s)[0])
  {
    assert s.tuning.bwlimit != "";
    assert IsDigit(s.tuning.bwlimit[..Digits(s.tuning.bwlimit)][0]);
  }

  /** A word among several groups of arguments is in one of them. */
  lemma InFlag(on: bool, args: seq<string>, word: string)
    ensures word in Flag(on, args) <==> on && word in args
  {
  }

  lemma HeadWithout(s: SyncAction)
    requires s.source != "" && s.source[0] == '/' && s.dest != "" && s.dest[0] == '/'
    ensures DRY_RUN !in Head(s) && BACKUP_DIR_TOKEN !in Head(s)
  {
  }

  lemma BackupWords(s: SyncAction)
    ensures DRY_RUN !in BackupArgs(s) && BACKUP_DIR_TOKEN in BackupArgs(s)
  {
    assert BackupArgs(s)[1] == BACKUP_DIR_TOKEN;
  }

  lemma BackupGroup(s: SyncAction)
    ensures var group := Flag(s.engine == "rsync", ["--backup"]) + BackupArgs(s);
            DRY_RUN !in group && BACKUP_DIR_TOKEN in group
  {
    BackupWords(s);
    InFlag(s.engine == "rsync", ["--backup"], DRY_RUN);
  }

  lemma ValueFlags()
    ensures "--bwlimit" != DRY_RUN && "--bwlimit" != BACKUP_DIR_TOKEN
    ensures "--max-delete" != DRY_RUN && "--max-delete" != BACKUP_DIR_TOKEN
  {
  }

  lemma NumberWord(v: string)
    requires v != "" && IsDigit(v[0])
    ensures v != DRY_RUN && v != BACKUP_DIR_TOKEN
  {
    assert DRY_RUN[0] == '-' && BACKUP_DIR_TOKEN[0] == '_';
  }

  lemma ValueWords(s: SyncAction, word: string)
    requires ValidOptions(s) && word in [DRY_RUN, BACKUP_DIR_TOKEN]
    ensures word !in Flag(Limit(s) != "", ["--bwlimit", Limit(s)])
    ensures word !in ["--max-delete", Itoa(if s.tuning.maxDel > 0 then s.tuning.maxDel else 0)]
  {
    ValueFlags();
    if Limit(s) != "" {
      LimitStartsWithDigit(s);
      NumberWord(Limit(s));
    }
    var number := Itoa(if s.tuning.maxDel > 0 then s.tuning.maxDel else 0);
    assert IsDigit(number[0]);
    NumberWord(number);
  }

  lemma InFive(a: seq<string>, b: seq<string>, c: seq<string>, d: seq<string>, e: seq<string>, word: string)
    ensures word in a + b + c + d + e <==> word in a || word in b || word in c || word in d || word in e
  {
  }

  lemma MiddleWithout(s: SyncAction, word: string)
    requires ValidOptions(s) && word in [DRY_RUN, BACKUP_DIR_TOKEN]
    ensures word in Middle(s) <==> s.tuning.backup && word == BACKUP_DIR_TOKEN
  {
    var maxDel := ["--max-delete", Itoa(if s.tuning.maxDel > 0 then s.tuning.maxDel else 0)];
    var backup := Flag(s.engine == "rsync", ["--backup"]) + BackupArgs(s);
    BackupGroup(s);
    ValueWords(s, word);
    InFive(Flag(s.tuning.compare == "checksum", ["--checksum"]), Flag(Limit(s) != "", ["--bwlimit", Limit(s)]),
           Flag(s.tuning.backup, backup), Flag(s.tuning.maxDel > 0, maxDel), Flag(s.extras.skipNew, ["--update"]), word);
    OneWord("--checksum", word);
    OneWord("--update", word);
  }

  lemma OneWord(flag: string, word: string)
    requires word in [DRY_RUN, BACKUP_DIR_TOKEN] && flag in ["--checksum", "--update"]
    ensures word !in [flag]
  {
  }

  lemma PathWords(s: SyncAction, word: string)
    requires s.source != "" && s.source[0] == '/' && s.dest != "" && s.dest[0] == '/'
    requires word in [DRY_RUN, BACKUP_DIR_TOKEN]
    ensures word !in ["--", DirectoryArg(s.source), DirectoryArg(s.dest)]
  {
    assert DirectoryArg(s.source)[0] == '/' && DirectoryArg(s.dest)[0] == '/';
  }

  lemma DryWords(s: SyncAction, word: string)
    requires word in [DRY_RUN, BACKUP_DIR_TOKEN]
    ensures word in ["--dry-run", "--itemize-changes"] <==> word == DRY_RUN
    ensures word in ["--dry-run"] <==> word == DRY_RUN
  {
    assert ["--dry-run", "--itemize-changes"][0] == DRY_RUN && ["--dry-run"][0] == DRY_RUN;
  }

  lemma TailWithout(s: SyncAction, dryRun: bool, word: string)
    requires s.source != "" && s.source[0] == '/' && s.dest != "" && s.dest[0] == '/'
    requires word in [DRY_RUN, BACKUP_DIR_TOKEN]
    ensures word in Tail(s, dryRun) <==> dryRun && word == DRY_RUN
  {
    PathWords(s, word);
    DryWords(s, word);
  }

  /** A dry run says so, and a real run never does, whatever the job's own values are. */
  lemma DryRunIsSaid(s: SyncAction, dryRun: bool)
    requires SyncArgv(s, dryRun).Some? && Canonical(s.source) && Canonical(s.dest)
    ensures DRY_RUN in SyncArgv(s, dryRun).value <==> dryRun
  {
    var patterns := SplitCSV(s.extras.exclude);
    HeadWithout(s);
    MiddleWithout(s, DRY_RUN);
    InExcludeArgs(patterns, DRY_RUN);
    TailWithout(s, dryRun, DRY_RUN);
    assert DRY_RUN != "--exclude" && DRY_RUN !in patterns;
  }

  /** The word that the renderer replaces by the backup directory is there for backups, or as an exclude pattern. */
  lemma BackupTokenIsThere(s: SyncAction, dryRun: bool)
    requires SyncArgv(s, dryRun).Some? && Canonical(s.source) && Canonical(s.dest)
    ensures BACKUP_DIR_TOKEN in SyncArgv(s, dryRun).value <==> s.tuning.backup || BACKUP_DIR_TOKEN in SplitCSV(s.extras.exclude)
  {
    HeadWithout(s);
    MiddleWithout(s, BACKUP_DIR_TOKEN);
    InExcludeArgs(SplitCSV(s.extras.exclude), BACKUP_DIR_TOKEN);
    TailWithout(s, dryRun, BACKUP_DIR_TOKEN);
    assert BACKUP_DIR_TOKEN != "--exclude" && BACKUP_DIR_TOKEN != DRY_RUN;
  }
}
