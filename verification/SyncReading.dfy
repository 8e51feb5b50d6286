/**
 What a command line asks of rsync or rclone, read as these programs read it: options with and without
 values in any order, operands, and `--` before which the options end. And that the command lines built
 for synchronizations ask for just what the job says.
 */
module SyncReadings {
  import opened HostPaths
  import opened Options
  import opened SyncArgs
  import opened Texts
  import opened WrapperExec

  datatype Engine = Rsync | Rclone

  /** What happens to files: deleted at the destination, removed at the source, replaced only if older, or not at all. */
  datatype Change = Change(deletes: bool, removes: bool, checksum: bool, update: bool, dryRun: bool)

  datatype Limits = Limits(rate: string, deletions: Option<int>)

  /** What is preserved of files, and where replaced ones are kept. */
  datatype Care = Care(attributes: seq<string>, backup: bool, directory: string)

  datatype Line = Line(operands: seq<string>, change: Change, limits: Limits, care: Care, excludes: seq<string>)

  const NOTHING := Line([], Change(false, false, false, false, false), Limits("", None), Care([], false, ""), [])

  predicate TakesValue(w: string) { w in ["--bwlimit", "--backup-dir", "--exclude", "--max-delete"] }

  function Valued(w: string, value: string, line: Line): Option<Line> {
    if w == "--bwlimit" then Some(line.(limits := line.limits.(rate := value)))
    else if w == "--backup-dir" then Some(line.(care := line.care.(directory := value)))
    else if w == "--exclude" then Some(line.(excludes := line.excludes + [value]))
    else
      var n := Atoi(value);
      if n.None? then None else Some(line.(limits := line.limits.(deletions := n)))
  }

  predicate Displays(e: Engine, w: string) {
    if e.Rsync? then w in ["--info=progress2,stats2", "--human-readable", "--itemize-changes"]
    else w in ["--progress", "--stats=1s", "--stats-one-line"]
  }

  function Flagged(e: Engine, w: string, line: Line): Option<Line> {
    if w == "--checksum" then Some(line.(change := line.change.(checksum := true)))
    else if w == "--update" then Some(line.(change := line.change.(update := true)))
    else if w == "--dry-run" then Some(line.(change := line.change.(dryRun := true)))
    else if Displays(e, w) then Some(line)
    else if e.Rclone? then None
    else if w == "--delete" then Some(line.(change := line.change.(deletes := true)))
    else if w == "--remove-source-files" then Some(line.(change := line.change.(removes := true)))
    else if w == "--backup" then Some(line.(care := line.care.(backup := true)))
    else if w in ["-a", "-HAX", "--numeric-ids", "--fake-super"]
    then Some(line.(care := line.care.(attributes := line.care.attributes + [w])))
    else None
  }

  /** The words after the program's name; no reading if an option is unknown or lacks its value. */
  function Read(e: Engine, words: seq<string>, line: Line): Option<Line>
    decreases |words|
  {
    if words == [] then Some(line)
    else if words[0] == "--" then Some(line.(operands := line.operands + words[1..]))
    else if TakesValue(words[0]) then
      if |words| == 1 then None
      else
        var next := Valued(words[0], words[1], line);
        if next.None? then None else Read(e, words[2..], next.value)
    else if words[0] != "" && words[0][0] == '-' then
      var next := Flagged(e, words[0], line);
      if next.None? then None else Read(e, words[1..], next.value)
    else Read(e, words[1..], line.(operands := line.operands + [words[0]]))
  }

  datatype Asked = Asked(engine: Engine, source: string, dest: string, change: Change, limits: Limits, system: bool,
                         backup: Option<string>, excludes: seq<string>)

  const SYSTEM_ATTRIBUTES := ["-a", "-HAX", "--numeric-ids", "--fake-super"]

  /** For rsync the contents of a directory are named by its path with a slash behind. */
  function ContentsOf(operand: string): Option<string> {
    if operand == "/" then Some("/")
    else if |operand| > 1 && operand[0] == '/' && operand[|operand| - 1] == '/' then Some(operand[..|operand| - 1])
    else None
  }

  function AsksRsync(line: Line): Option<Asked> {
    if |line.operands| != 2 || ContentsOf(line.operands[0]).None? || ContentsOf(line.operands[1]).None? then None
    else if line.care.attributes != ["-a"] && line.care.attributes != SYSTEM_ATTRIBUTES then None
    else
      Some(Asked(Rsync, ContentsOf(line.operands[0]).value, ContentsOf(line.operands[1]).value, line.change, line.limits,
                 line.care.attributes != ["-a"], if line.care.backup then Some(line.care.directory) else None,
                 line.excludes))
  }

  predicate Local(operand: string) { operand != "" && operand[0] == '/' }

  /** rclone is told by its first word whether to delete at the destination, or to remove at the source. */
  function AsksRclone(line: Line): Option<Asked> {
    if |line.operands| != 3 || !Local(line.operands[1]) || !Local(line.operands[2]) then None
    else if line.operands[0] !in ["copy", "sync", "move"] then None
    else
      var change := line.change.(deletes := line.operands[0] == "sync", removes := line.operands[0] == "move");
      Some(Asked(Rclone, line.operands[1], line.operands[2], change, line.limits, false,
                 if line.care.directory != "" then Some(line.care.directory) else None, line.excludes))
  }

  /** What a command line asks for, if it can be read at all. */
  function Asks(argv: seq<string>): Option<Asked> {
    if argv == [] then None
    else if argv[0] == "rsync" then
      var line := Read(Rsync, argv[1..], NOTHING);
      if line.None? then None else AsksRsync(line.value)
    else if argv[0] == "rclone" then
      var line := Read(Rclone, argv[1..], NOTHING);
      if line.None? then None else AsksRclone(line.value)
    else None
  }

  // ---------- Reading word by word ----------

  lemma Shift(first: string, rest: seq<string>)
    ensures ([first] + rest)[0] == first && ([first] + rest)[1..] == rest
  {
  }

  lemma ReadFlag(e: Engine, w: string, rest: seq<string>, line: Line)
    requires w != "" && w != "--" && w[0] == '-' && !TakesValue(w) && Flagged(e, w, line).Some?
    ensures Read(e, [w] + rest, line) == Read(e, rest, Flagged(e, w, line).value)
  {
    Shift(w, rest);
  }

  lemma ReadValue(e: Engine, w: string, value: string, rest: seq<string>, line: Line)
    requires TakesValue(w) && Valued(w, value, line).Some?
    ensures Read(e, [w, value] + rest, line) == Read(e, rest, Valued(w, value, line).value)
  {
    var words := [w, value] + rest;
    assert words[0] == w && words[1] == value && words[2..] == rest;
    assert "--" != "--bwlimit" && "--" != "--exclude";
  }

  lemma ReadOperand(e: Engine, w: string, rest: seq<string>, line: Line)
    requires w == "" || w[0] != '-'
    ensures Read(e, [w] + rest, line) == Read(e, rest, line.(operands := line.operands + [w]))
  {
    Shift(w, rest);
    assert !TakesValue(w);
  }

  lemma ReadOperandsOnly(e: Engine, rest: seq<string>, line: Line)
    ensures Read(e, ["--"] + rest, line) == Some(line.(operands := line.operands + rest))
  {
    Shift("--", rest);
  }

  // ---------- Reading what is written ----------

  lemma Regroup(a: seq<string>, b: seq<string>, c: seq<string>)
    ensures (a + b) + c == a + (b + c)
  {
  }

  /** A flag that is written or not. */
  lemma ReadIf(e: Engine, on: bool, w: string, rest: seq<string>, line: Line)
    requires w != "" && w != "--" && w[0] == '-' && !TakesValue(w) && Flagged(e, w, line).Some?
    ensures Read(e, Flag(on, [w]) + rest, line) == Read(e, rest, if on then Flagged(e, w, line).value else line)
  {
    if on {
      ReadFlag(e, w, rest, line);
    } else {
      assert [] + rest == rest;
    }
  }

  lemma ReadValueIf(e: Engine, on: bool, w: string, value: string, rest: seq<string>, line: Line)
    requires TakesValue(w) && (on ==> Valued(w, value, line).Some?)
    ensures Read(e, Flag(on, [w, value]) + rest, line) == Read(e, rest, if on then Valued(w, value, line).value else line)
  {
    if on {
      ReadValue(e, w, value, rest, line);
    } else {
      assert [] + rest == rest;
    }
  }

  lemma ReadTwo(e: Engine, v: string, w: string, rest: seq<string>, line: Line)
    requires v != "" && v != "--" && v[0] == '-' && !TakesValue(v) && Flagged(e, v, line).Some?
    requires w != "" && w != "--" && w[0] == '-' && !TakesValue(w) && Flagged(e, w, Flagged(e, v, line).value).Some?
    ensures Read(e, [v, w] + rest, line) == Read(e, rest, Flagged(e, w, Flagged(e, v, line).value).value)
  {
    assert [v, w] + rest == [v] + ([w] + rest);
    ReadFlag(e, v, [w] + rest, line);
    ReadFlag(e, w, rest, Flagged(e, v, line).value);
  }

  lemma ReadThree(e: Engine, u: string, v: string, w: string, rest: seq<string>, line: Line)
    requires u != "" && u != "--" && u[0] == '-' && !TakesValue(u) && Flagged(e, u, line).Some?
    requires v != "" && v != "--" && v[0] == '-' && !TakesValue(v) && Flagged(e, v, Flagged(e, u, line).value).Some?
    requires var line' := Flagged(e, v, Flagged(e, u, line).value).value;
             w != "" && w != "--" && w[0] == '-' && !TakesValue(w) && Flagged(e, w, line').Some?
    ensures var line' := Flagged(e, v, Flagged(e, u, line).value).value;
            Read(e, [u, v, w] + rest, line) == Read(e, rest, Flagged(e, w, line').value)
  {
    assert [u, v, w] + rest == [u] + ([v, w] + rest);
    ReadFlag(e, u, [v, w] + rest, line);
    ReadTwo(e, v, w, rest, Flagged(e, u, line).value);
  }

  lemma ReadOneExclude(e: Engine, pattern: string, rest: seq<string>, line: Line)
    ensures Read(e, ["--exclude", pattern] + rest, line) == Read(e, rest, line.(excludes := line.excludes + [pattern]))
  {
    ReadValue(e, "--exclude", pattern, rest, line);
  }

  lemma {:induction false} ReadExcludes(e: Engine, patterns: seq<string>, rest: seq<string>, line: Line)
    ensures Read(e, ExcludeArgs(patterns) + rest, line) == Read(e, rest, line.(excludes := line.excludes + patterns))
    decreases |patterns|
  {
    if patterns == [] {
      assert ExcludeArgs(patterns) + rest == rest;
      assert line.(excludes := line.excludes + patterns) == line;
    } else {
      var init, last := patterns[..|patterns| - 1], patterns[|patterns| - 1];
      Regroup(ExcludeArgs(init), ["--exclude", last], rest);
      ReadExcludes(e, init, ["--exclude", last] + rest, line);
      ReadOneExclude(e, last, rest, line.(excludes := line.excludes + init));
      LastOf(line.excludes, patterns);
    }
  }

  lemma LastOf(before: seq<string>, patterns: seq<string>)
    requires patterns != []
    ensures (before + patterns[..|patterns| - 1]) + [patterns[|patterns| - 1]] == before + patterns
  {
  }

  lemma RsyncFlags(line: Line)
    ensures Flagged(Rsync, "-a", line) == Some(line.(care := line.care.(attributes := line.care.attributes + ["-a"])))
    ensures Flagged(Rsync, "--info=progress2,stats2", line) == Some(line)
    ensures Flagged(Rsync, "--human-readable", line) == Some(line)
  {
  }

  lemma SystemFlags(line: Line, w: string)
    requires w in ["-HAX", "--numeric-ids", "--fake-super"]
    ensures Flagged(Rsync, w, line) == Some(line.(care := line.care.(attributes := line.care.attributes + [w])))
    ensures !TakesValue(w) && w != "--"
  {
  }

  lemma ModeFlags(line: Line)
    ensures Flagged(Rsync, "--delete", line) == Some(line.(change := line.change.(deletes := true)))
    ensures Flagged(Rsync, "--remove-source-files", line) == Some(line.(change := line.change.(removes := true)))
    ensures !TakesValue("--delete") && !TakesValue("--remove-source-files")
  {
  }

  lemma CommonFlags(e: Engine, line: Line)
    ensures Flagged(e, "--checksum", line) == Some(line.(change := line.change.(checksum := true)))
    ensures Flagged(e, "--update", line) == Some(line.(change := line.change.(update := true)))
    ensures Flagged(e, "--dry-run", line) == Some(line.(change := line.change.(dryRun := true)))
    ensures !TakesValue("--checksum") && !TakesValue("--update") && !TakesValue("--dry-run")
  {
  }

  function KeptBy(e: Engine, s: SyncAction, line: Line): Line {
    if !s.tuning.backup then line
    else
      line.(care := Care(line.care.attributes, line.care.backup || e.Rsync?, BACKUP_DIR_TOKEN),
            excludes := line.excludes + [if e.Rsync? then ".sb-backup" else ".sb-backup/**"])
  }

  predicate Of(e: Engine, s: SyncAction) { s.engine == if e.Rsync? then "rsync" else "rclone" }

  lemma ReadBackup(e: Engine, s: SyncAction, rest: seq<string>, line: Line)
    requires Of(e, s)
    ensures Read(e, Flag(s.tuning.backup, Flag(s.engine == "rsync", ["--backup"]) + BackupArgs(s)) + rest, line)
         == Read(e, rest, KeptBy(e, s, line))
  {
    if s.tuning.backup {
      var own := if e.Rsync? then ".sb-backup" else ".sb-backup/**";
      var directory, exclude := ["--backup-dir", BACKUP_DIR_TOKEN], ["--exclude", own];
      assert BackupArgs(s) == directory + exclude;
      Regroup(Flag(s.engine == "rsync", ["--backup"]), BackupArgs(s), rest);
      Regroup(directory, exclude, rest);
      var line1 := line.(care := line.care.(backup := line.care.backup || e.Rsync?));
      ReadBackupFlag(e, s, directory + (exclude + rest), line);
      ReadValue(e, "--backup-dir", BACKUP_DIR_TOKEN, exclude + rest, line1);
      ReadValue(e, "--exclude", own, rest, line1.(care := line1.care.(directory := BACKUP_DIR_TOKEN)));
    } else {
      assert [] + rest == rest;
    }
  }

  lemma ReadBackupFlag(e: Engine, s: SyncAction, rest: seq<string>, line: Line)
    requires Of(e, s)
    ensures Read(e, Flag(s.engine == "rsync", ["--backup"]) + rest, line)
         == Read(e, rest, line.(care := line.care.(backup := line.care.backup || e.Rsync?)))
  {
    if e.Rsync? {
      assert !TakesValue("--backup") && Flagged(e, "--backup", line).Some?;
      ReadIf(e, true, "--backup", rest, line);
    } else {
      assert [] + rest == rest;
    }
  }

  function FirstLine(s: SyncAction, line: Line): Line {
    line.(change := line.change.(checksum := line.change.checksum || s.tuning.compare == "checksum"),
          limits := line.limits.(rate := if Limit(s) != "" then Limit(s) else line.limits.rate))
  }

  function DeletionsLine(s: SyncAction, line: Line): Line {
    line.(limits := line.limits.(deletions := if s.tuning.maxDel > 0 then Some(s.tuning.maxDel) else line.limits.deletions))
  }

  function UpdateLine(s: SyncAction, line: Line): Line {
    line.(change := line.change.(update := line.change.update || s.extras.skipNew))
  }

  lemma ReadFirst(e: Engine, s: SyncAction, rest: seq<string>, line: Line)
    ensures Read(e, Flag(s.tuning.compare == "checksum", ["--checksum"])
                    + (Flag(Limit(s) != "", ["--bwlimit", Limit(s)]) + rest), line)
         == Read(e, rest, FirstLine(s, line))
  {
    CommonFlags(e, line);
    ReadIf(e, s.tuning.compare == "checksum", "--checksum", Flag(Limit(s) != "", ["--bwlimit", Limit(s)]) + rest, line);
    var line1 := line.(change := line.change.(checksum := line.change.checksum || s.tuning.compare == "checksum"));
    ReadValueIf(e, Limit(s) != "", "--bwlimit", Limit(s), rest, line1);
  }

  lemma ReadUpdate(e: Engine, s: SyncAction, rest: seq<string>, line: Line)
    ensures Read(e, Flag(s.extras.skipNew, ["--update"]) + rest, line) == Read(e, rest, UpdateLine(s, line))
  {
    CommonFlags(e, line);
    ReadIf(e, s.extras.skipNew, "--update", rest, line);
  }

  /** What all the middle options ask for. */
  function MiddleLine(e: Engine, s: SyncAction, line: Line): Line {
    UpdateLine(s, DeletionsLine(s, KeptBy(e, s, FirstLine(s, line))))
  }

  function Number(s: SyncAction): string { Itoa(if s.tuning.maxDel > 0 then s.tuning.maxDel else 0) }

  lemma MiddleGroups(s: SyncAction, rest: seq<string>)
    ensures Middle(s) + rest ==
            Flag(s.tuning.compare == "checksum", ["--checksum"])
            + (Flag(Limit(s) != "", ["--bwlimit", Limit(s)])
               + (Flag(s.tuning.backup, Flag(s.engine == "rsync", ["--backup"]) + BackupArgs(s))
                  + (Flag(s.tuning.maxDel > 0, ["--max-delete", Number(s)])
                     + (Flag(s.extras.skipNew, ["--update"]) + rest))))
  {
    Nested(Flag(s.tuning.compare == "checksum", ["--checksum"]), Flag(Limit(s) != "", ["--bwlimit", Limit(s)]),
           Flag(s.tuning.backup, Flag(s.engine == "rsync", ["--backup"]) + BackupArgs(s)),
           Flag(s.tuning.maxDel > 0, ["--max-delete", Number(s)]), Flag(s.extras.skipNew, ["--update"]), rest);
  }

  lemma ReadMiddle(e: Engine, s: SyncAction, rest: seq<string>, line: Line)
    requires Of(e, s) && s.tuning.maxDel >= 0
    ensures Read(e, Middle(s) + rest, line) == Read(e, rest, MiddleLine(e, s, line))
  {
    var update := Flag(s.extras.skipNew, ["--update"]) + rest;
    var deletions := Flag(s.tuning.maxDel > 0, ["--max-delete", Number(s)]) + update;
    MiddleGroups(s, rest);
    ReadFirst(e, s, Flag(s.tuning.backup, Flag(s.engine == "rsync", ["--backup"]) + BackupArgs(s)) + deletions, line);
    ReadBackup(e, s, deletions, FirstLine(s, line));
    ReadDeletions(e, s, update, KeptBy(e, s, FirstLine(s, line)));
    ReadUpdate(e, s, rest, DeletionsLine(s, KeptBy(e, s, FirstLine(s, line))));
  }

  lemma ReadDeletions(e: Engine, s: SyncAction, rest: seq<string>, line: Line)
    requires s.tuning.maxDel >= 0
    ensures Read(e, Flag(s.tuning.maxDel > 0, ["--max-delete", Number(s)]) + rest, line)
         == Read(e, rest, DeletionsLine(s, line))
  {
    AtoiOfItoa(s.tuning.maxDel);
    assert "--max-delete" != "--bwlimit" && "--max-delete" != "--backup-dir" && "--max-delete" != "--exclude";
    ReadValueIf(e, s.tuning.maxDel > 0, "--max-delete", Number(s), rest, line);
  }

  lemma Nested(a: seq<string>, b: seq<string>, c: seq<string>, d: seq<string>, e: seq<string>, f: seq<string>)
    ensures a + b + c + d + e + f == a + (b + (c + (d + (e + f))))
  {
  }

  // ---------- The whole command line ----------

  function HeadLine(s: SyncAction): Line {
    NOTHING.(change := NOTHING.change.(deletes := s.mode == "mirror", removes := s.mode == "move"),
             care := NOTHING.care.(attributes := if s.extras.sysBackup then SYSTEM_ATTRIBUTES else ["-a"]))
  }

  function ModeLine(s: SyncAction, line: Line): Line {
    line.(change := line.change.(deletes := line.change.deletes || s.mode == "mirror",
                                 removes := line.change.removes || s.mode == "move"))
  }

  lemma ReadMode(s: SyncAction, rest: seq<string>, line: Line)
    ensures Read(Rsync, Flag(s.mode == "mirror", ["--delete"]) + (Flag(s.mode == "move", ["--remove-source-files"]) + rest), line)
         == Read(Rsync, rest, ModeLine(s, line))
  {
    ModeFlags(line);
    ReadIf(Rsync, s.mode == "mirror", "--delete", Flag(s.mode == "move", ["--remove-source-files"]) + rest, line);
    var line1 := line.(change := line.change.(deletes := line.change.deletes || s.mode == "mirror"));
    ModeFlags(line1);
    ReadIf(Rsync, s.mode == "move", "--remove-source-files", rest, line1);
  }

  lemma ReadArchive(rest: seq<string>)
    ensures Read(Rsync, ["-a", "--info=progress2,stats2", "--human-readable"] + rest, NOTHING)
         == Read(Rsync, rest, NOTHING.(care := NOTHING.care.(attributes := ["-a"])))
  {
    RsyncFlags(NOTHING);
    var line1 := NOTHING.(care := NOTHING.care.(attributes := ["-a"]));
    RsyncFlags(line1);
    assert [] + ["-a"] == ["-a"];
    ReadThree(Rsync, "-a", "--info=progress2,stats2", "--human-readable", rest, NOTHING);
  }

  lemma ReadSystem(s: SyncAction, rest: seq<string>)
    ensures Read(Rsync, Flag(s.extras.sysBackup, ["-HAX", "--numeric-ids", "--fake-super"]) + rest,
                 NOTHING.(care := NOTHING.care.(attributes := ["-a"])))
         == Read(Rsync, rest, NOTHING.(care := NOTHING.care.(attributes :=
                                         if s.extras.sysBackup then SYSTEM_ATTRIBUTES else ["-a"])))
  {
    var line := NOTHING.(care := NOTHING.care.(attributes := ["-a"]));
    if s.extras.sysBackup {
      var line1 := NOTHING.(care := NOTHING.care.(attributes := ["-a", "-HAX"]));
      var line2 := NOTHING.(care := NOTHING.care.(attributes := ["-a", "-HAX", "--numeric-ids"]));
      SystemFlags(line, "-HAX");
      SystemFlags(line1, "--numeric-ids");
      SystemFlags(line2, "--fake-super");
      assert ["-a"] + ["-HAX"] == ["-a", "-HAX"];
      assert ["-a", "-HAX"] + ["--numeric-ids"] == ["-a", "-HAX", "--numeric-ids"];
      assert ["-a", "-HAX", "--numeric-ids"] + ["--fake-super"] == SYSTEM_ATTRIBUTES;
      ReadThree(Rsync, "-HAX", "--numeric-ids", "--fake-super", rest, line);
    } else {
      assert [] + rest == rest;
    }
  }

  lemma HeadGroups(s: SyncAction, rest: seq<string>)
    requires s.engine == "rsync"
    ensures (Head(s) + rest)[0] == "rsync"
    ensures (Head(s) + rest)[1..] ==
            ["-a", "--info=progress2,stats2", "--human-readable"]
            + (Flag(s.extras.sysBackup, ["-HAX", "--numeric-ids", "--fake-super"])
               + (Flag(s.mode == "mirror", ["--delete"]) + (Flag(s.mode == "move", ["--remove-source-files"]) + rest)))
  {
  }

  lemma ReadHead(s: SyncAction, rest: seq<string>)
    requires s.engine == "rsync"
    ensures Read(Rsync, (Head(s) + rest)[1..], NOTHING) == Read(Rsync, rest, HeadLine(s))
  {
    var mode := Flag(s.mode == "mirror", ["--delete"]) + (Flag(s.mode == "move", ["--remove-source-files"]) + rest);
    HeadGroups(s, rest);
    ReadArchive(Flag(s.extras.sysBackup, ["-HAX", "--numeric-ids", "--fake-super"]) + mode);
    ReadSystem(s, mode);
    ReadMode(s, rest, NOTHING.(care := NOTHING.care.(attributes := if s.extras.sysBackup then SYSTEM_ATTRIBUTES else ["-a"])));
  }

  function DryLine(dryRun: bool, line: Line): Line {
    line.(change := line.change.(dryRun := line.change.dryRun || dryRun))
  }

  lemma ReadTailRsync(s: SyncAction, dryRun: bool, line: Line)
    requires s.engine == "rsync"
    ensures Read(Rsync, Tail(s, dryRun), line)
         == Some(DryLine(dryRun, line).(operands := line.operands + [DirectoryArg(s.source), DirectoryArg(s.dest)]))
  {
    var paths := [DirectoryArg(s.source), DirectoryArg(s.dest)];
    assert Tail(s, dryRun) == Flag(dryRun, ["--dry-run", "--itemize-changes"]) + (["--"] + paths);
    if dryRun {
      CommonFlags(Rsync, line);
      assert Flagged(Rsync, "--itemize-changes", DryLine(true, line)) == Some(DryLine(true, line));
      ReadTwo(Rsync, "--dry-run", "--itemize-changes", ["--"] + paths, line);
    } else {
      assert [] + (["--"] + paths) == ["--"] + paths;
    }
    ReadOperandsOnly(Rsync, paths, DryLine(dryRun, line));
  }

  function VerbOf(s: SyncAction): string { if s.mode == "add" then "copy" else if s.mode == "mirror" then "sync" else "move" }

  lemma RcloneFlags(line: Line)
    ensures Flagged(Rclone, "--progress", line) == Some(line)
    ensures Flagged(Rclone, "--stats=1s", line) == Some(line)
    ensures Flagged(Rclone, "--stats-one-line", line) == Some(line)
  {
  }

  lemma RcloneGroups(s: SyncAction, rest: seq<string>)
    requires s.engine != "rsync"
    ensures (Head(s) + rest)[0] == "rclone"
    ensures (Head(s) + rest)[1..] ==
            [VerbOf(s)] + ([s.source] + ([s.dest] + (["--progress", "--stats=1s", "--stats-one-line"] + rest)))
  {
  }

  lemma ReadRcloneHead(s: SyncAction, rest: seq<string>)
    requires s.engine != "rsync" && Local(s.source) && Local(s.dest)
    ensures Read(Rclone, (Head(s) + rest)[1..], NOTHING)
         == Read(Rclone, rest, NOTHING.(operands := [VerbOf(s), s.source, s.dest]))
  {
    var display := ["--progress", "--stats=1s", "--stats-one-line"] + rest;
    var line1, line2 := NOTHING.(operands := [VerbOf(s)]), NOTHING.(operands := [VerbOf(s), s.source]);
    var line3 := NOTHING.(operands := [VerbOf(s), s.source, s.dest]);
    RcloneGroups(s, rest);
    assert VerbOf(s)[0] != '-' && [] + [VerbOf(s)] == [VerbOf(s)];
    ReadOperand(Rclone, VerbOf(s), [s.source] + ([s.dest] + display), NOTHING);
    assert [VerbOf(s)] + [s.source] == [VerbOf(s), s.source];
    ReadOperand(Rclone, s.source, [s.dest] + display, line1);
    assert [VerbOf(s), s.source] + [s.dest] == [VerbOf(s), s.source, s.dest];
    ReadOperand(Rclone, s.dest, display, line2);
    RcloneFlags(line3);
    ReadThree(Rclone, "--progress", "--stats=1s", "--stats-one-line", rest, line3);
  }

  lemma ReadTailRclone(s: SyncAction, dryRun: bool, line: Line)
    requires s.engine != "rsync"
    ensures Read(Rclone, Tail(s, dryRun), line) == Some(DryLine(dryRun, line))
  {
    CommonFlags(Rclone, line);
    ReadIf(Rclone, dryRun, "--dry-run", [], line);
    assert Flag(dryRun, ["--dry-run"]) + [] == Tail(s, dryRun);
  }

  // ---------- What the job says ----------

  function OwnExcludes(s: SyncAction): seq<string> {
    if !s.tuning.backup then [] else [if s.engine == "rsync" then ".sb-backup" else ".sb-backup/**"]
  }

  function Intended(s: SyncAction, dryRun: bool): Asked {
    Asked(if s.engine == "rsync" then Rsync else Rclone, s.source, s.dest,
          Change(s.mode == "mirror", s.mode == "move", s.tuning.compare == "checksum", s.extras.skipNew, dryRun),
          Limits(Limit(s), if s.tuning.maxDel > 0 then Some(s.tuning.maxDel) else None),
          s.extras.sysBackup, if s.tuning.backup then Some(BACKUP_DIR_TOKEN) else None,
          OwnExcludes(s) + SplitCSV(s.extras.exclude))
  }

  lemma {:induction false} SplitEnds(s: string, sep: char)
    requires s != [] && s[|s| - 1] == sep
    ensures Split(s, sep)[|Split(s, sep)| - 1] == ""
    decreases |s|
  {
    var n := Until(s, sep);
    if n < |s| && s[n + 1..] != [] {
      SplitEnds(s[n + 1..], sep);
    }
  }

  /** A canonical path with the slash that makes rsync take its contents still names the same directory. */
  lemma ContentsOfDirectory(path: string)
    requires Canonical(path)
    ensures ContentsOf(DirectoryArg(path)) == Some(path)
  {
    if path != "/" {
      if path[|path| - 1] == '/' {
        assert path[1..][|path| - 2] == '/';
        SplitEnds(path[1..], '/');
      }
      assert (path + "/")[..|path|] == path;
    }
  }

  lemma MiddleMeans(e: Engine, s: SyncAction, line: Line)
    requires line.excludes == [] && line.limits == NOTHING.limits && !line.care.backup && line.care.directory == ""
    requires !line.change.checksum && !line.change.update
    ensures var l := MiddleLine(e, s, line);
            && l.operands == line.operands
            && l.change == line.change.(checksum := s.tuning.compare == "checksum", update := s.extras.skipNew)
            && l.limits == Limits(Limit(s), if s.tuning.maxDel > 0 then Some(s.tuning.maxDel) else None)
            && l.care.attributes == line.care.attributes
            && (l.care.backup <==> s.tuning.backup && e.Rsync?)
            && l.care.directory == (if s.tuning.backup then BACKUP_DIR_TOKEN else "")
            && l.excludes == if s.tuning.backup then [if e.Rsync? then ".sb-backup" else ".sb-backup/**"] else []
  {
  }

  lemma NestedFour(a: seq<string>, b: seq<string>, c: seq<string>, d: seq<string>)
    ensures a + b + c + d == a + (b + (c + d))
  {
  }

  lemma ArgvGroups(s: SyncAction, dryRun: bool)
    requires SyncArgv(s, dryRun).Some?
    ensures SyncArgv(s, dryRun).value
         == Head(s) + (Middle(s) + (ExcludeArgs(SplitCSV(s.extras.exclude)) + Tail(s, dryRun)))
  {
    NestedFour(Head(s), Middle(s), ExcludeArgs(SplitCSV(s.extras.exclude)), Tail(s, dryRun));
  }

  /** What the options after the head and before the tail come to. */
  function BodyLine(e: Engine, s: SyncAction, line: Line): Line {
    var line1 := MiddleLine(e, s, line);
    line1.(excludes := line1.excludes + SplitCSV(s.extras.exclude))
  }

  lemma ReadBody(e: Engine, s: SyncAction, rest: seq<string>, line: Line)
    requires Of(e, s) && s.tuning.maxDel >= 0
    ensures Read(e, Middle(s) + (ExcludeArgs(SplitCSV(s.extras.exclude)) + rest), line) == Read(e, rest, BodyLine(e, s, line))
  {
    ReadMiddle(e, s, ExcludeArgs(SplitCSV(s.extras.exclude)) + rest, line);
    ReadExcludes(e, SplitCSV(s.extras.exclude), rest, MiddleLine(e, s, line));
  }

  function RsyncLine(s: SyncAction, dryRun: bool): Line {
    DryLine(dryRun, BodyLine(Rsync, s, HeadLine(s))).(operands := [DirectoryArg(s.source), DirectoryArg(s.dest)])
  }

  lemma ReadRsync(s: SyncAction, dryRun: bool)
    requires SyncArgv(s, dryRun).Some? && s.engine == "rsync"
    ensures var argv := SyncArgv(s, dryRun).value;
            argv != [] && argv[0] == "rsync" && Read(Rsync, argv[1..], NOTHING) == Some(RsyncLine(s, dryRun))
  {
    var rest := Middle(s) + (ExcludeArgs(SplitCSV(s.extras.exclude)) + Tail(s, dryRun));
    ArgvGroups(s, dryRun);
    HeadGroups(s, rest);
    ReadHead(s, rest);
    ReadBody(Rsync, s, Tail(s, dryRun), HeadLine(s));
    ReadTailRsync(s, dryRun, BodyLine(Rsync, s, HeadLine(s)));
    MiddleMeans(Rsync, s, HeadLine(s));
    NoneBefore([DirectoryArg(s.source), DirectoryArg(s.dest)]);
  }

  lemma NoneBefore(words: seq<string>)
    ensures [] + words == words
  {
  }

  lemma RsyncAsksOf(line: Line, source: string, dest: string, system: bool)
    requires line.operands == [DirectoryArg(source), DirectoryArg(dest)] && Canonical(source) && Canonical(dest)
    requires line.care.attributes == if system then SYSTEM_ATTRIBUTES else ["-a"]
    ensures AsksRsync(line) == Some(Asked(Rsync, source, dest, line.change, line.limits, system,
                                          if line.care.backup then Some(line.care.directory) else None, line.excludes))
  {
    ContentsOfDirectory(source);
    ContentsOfDirectory(dest);
    assert |SYSTEM_ATTRIBUTES| != |["-a"]|;
  }

  /** The final line has everything that is intended, and the operands stay as they are. */
  lemma FinalLine(e: Engine, s: SyncAction, dryRun: bool, head: Line)
    requires Of(e, s)
    requires head.excludes == [] && head.limits == NOTHING.limits && !head.care.backup && head.care.directory == ""
    requires !head.change.checksum && !head.change.update && !head.change.dryRun
    ensures var l, intended := DryLine(dryRun, BodyLine(e, s, head)), Intended(s, dryRun);
            && l.operands == head.operands && l.care.attributes == head.care.attributes
            && l.limits == intended.limits && l.excludes == intended.excludes
            && l.change == intended.change.(deletes := head.change.deletes, removes := head.change.removes)
            && (l.care.backup <==> s.tuning.backup && e.Rsync?)
            && l.care.directory == if s.tuning.backup then BACKUP_DIR_TOKEN else ""
  {
    MiddleMeans(e, s, head);
    Engines(e, s);
  }

  lemma Engines(e: Engine, s: SyncAction)
    requires Of(e, s)
    ensures e.Rsync? <==> s.engine == "rsync"
  {
    assert "rclone" != "rsync";
  }

  lemma RsyncAsks(s: SyncAction, dryRun: bool)
    requires s.engine == "rsync" && Canonical(s.source) && Canonical(s.dest)
    ensures AsksRsync(RsyncLine(s, dryRun)) == Some(Intended(s, dryRun))
  {
    FinalLine(Rsync, s, dryRun, HeadLine(s));
    RsyncAsksOf(RsyncLine(s, dryRun), s.source, s.dest, s.extras.sysBackup);
  }

  function RcloneLine(s: SyncAction, dryRun: bool): Line {
    DryLine(dryRun, BodyLine(Rclone, s, NOTHING.(operands := [VerbOf(s), s.source, s.dest])))
  }

  lemma ReadRclone(s: SyncAction, dryRun: bool)
    requires SyncArgv(s, dryRun).Some? && s.engine == "rclone" && Local(s.source) && Local(s.dest)
    ensures var argv := SyncArgv(s, dryRun).value;
            argv != [] && argv[0] == "rclone" && Read(Rclone, argv[1..], NOTHING) == Some(RcloneLine(s, dryRun))
  {
    var rest := Middle(s) + (ExcludeArgs(SplitCSV(s.extras.exclude)) + Tail(s, dryRun));
    var operands := NOTHING.(operands := [VerbOf(s), s.source, s.dest]);
    ArgvGroups(s, dryRun);
    RcloneGroups(s, rest);
    ReadRcloneHead(s, rest);
    ReadBody(Rclone, s, Tail(s, dryRun), operands);
    ReadTailRclone(s, dryRun, BodyLine(Rclone, s, operands));
  }

  lemma Verbs(s: SyncAction)
    requires s.mode in ["add", "mirror", "move"]
    ensures VerbOf(s) in ["copy", "sync", "move"]
    ensures (VerbOf(s) == "sync" <==> s.mode == "mirror") && (VerbOf(s) == "move" <==> s.mode == "move")
  {
    assert "copy" != "sync" && "copy" != "move" && "sync" != "move";
  }

  lemma RcloneAsksOf(line: Line, s: SyncAction)
    requires line.operands == [VerbOf(s), s.source, s.dest] && Local(s.source) && Local(s.dest)
    requires s.mode in ["add", "mirror", "move"]
    ensures AsksRclone(line)
         == Some(Asked(Rclone, s.source, s.dest, line.change.(deletes := s.mode == "mirror", removes := s.mode == "move"),
                       line.limits, false, if line.care.directory != "" then Some(line.care.directory) else None, line.excludes))
  {
    Verbs(s);
  }

  lemma RcloneAsks(s: SyncAction, dryRun: bool)
    requires s.engine == "rclone" && s.mode in ["add", "mirror", "move"] && !s.extras.sysBackup
    requires Local(s.source) && Local(s.dest)
    ensures AsksRclone(RcloneLine(s, dryRun)) == Some(Intended(s, dryRun))
  {
    FinalLine(Rclone, s, dryRun, NOTHING.(operands := [VerbOf(s), s.source, s.dest]));
    RcloneAsksOf(RcloneLine(s, dryRun), s);
    Engines(Rclone, s);
    assert BACKUP_DIR_TOKEN != "";
  }

  /**
   What a synchronization asks of its program is what its job says: the engine, what is copied where, what
   is deleted or removed, how files are compared, the limits, backups, exclusions in order, and a dry run.
   */
  lemma AsksAsIntended(s: SyncAction, dryRun: bool)
    requires SyncArgv(s, dryRun).Some? && Canonical(s.source) && Canonical(s.dest)
    ensures Asks(SyncArgv(s, dryRun).value) == Some(Intended(s, dryRun))
  {
    if s.engine == "rsync" {
      ReadRsync(s, dryRun);
      RsyncAsks(s, dryRun);
    } else {
      ReadRclone(s, dryRun);
      RcloneAsks(s, dryRun);
      assert "rclone" != "rsync";
    }
  }

  /** The command line, built an argument group at a time; what it asks for is what the job says. */
  method BuildArgv(s: SyncAction, dryRun: bool) returns (argv: seq<string>)
    requires ValidOptions(s)
    ensures SyncArgv(s, dryRun) == Some(argv)
    ensures Canonical(s.source) && Canonical(s.dest) ==> Asks(argv) == Some(Intended(s, dryRun))
  {
    argv := Head(s) + Middle(s);
    var patterns := SplitCSV(s.extras.exclude);
    for k := 0 to |patterns|
      invariant argv == Head(s) + Middle(s) + ExcludeArgs(patterns[..k])
    {
      ExcludeMore(patterns, k);
      argv := argv + ["--exclude", patterns[k]];
    }
    assert patterns[..|patterns|] == patterns;
    argv := argv + Tail(s, dryRun);
    if Canonical(s.source) && Canonical(s.dest) {
      AsksAsIntended(s, dryRun);
    }
  }

  lemma ProgramOf(s: SyncAction, dryRun: bool)
    requires SyncArgv(s, dryRun).Some?
    ensures SyncArgv(s, dryRun).value != [] && SyncArgv(s, dryRun).value[0] in ["rsync", "rclone"]
  {
    var rest := Middle(s) + (ExcludeArgs(SplitCSV(s.extras.exclude)) + Tail(s, dryRun));
    ArgvGroups(s, dryRun);
    if s.engine == "rsync" {
      HeadGroups(s, rest);
    } else {
      RcloneGroups(s, rest);
    }
  }

  /** Patterns listed with commas come back as they were, if none is blank at an end, empty, or holds a comma. */
  lemma PatternsRoundTrip(patterns: seq<string>)
    requires patterns != [] && forall k | 0 <= k < |patterns| ::
               patterns[k] != "" && TrimSpace(patterns[k]) == patterns[k] && ',' !in patterns[k]
    ensures SplitCSV(Join(patterns, ',')) == patterns
  {
    SplitJoin(patterns, ',');
    KeepsAll(patterns);
  }

  lemma {:induction false} KeepsAll(patterns: seq<string>)
    requires forall k | 0 <= k < |patterns| :: patterns[k] != "" && TrimSpace(patterns[k]) == patterns[k]
    ensures Kept(patterns) == patterns
    decreases |patterns|
  {
    if patterns != [] {
      KeepsAll(patterns[..|patterns| - 1]);
    }
  }

  lemma TrimmedSuffix(s: string, c: char)
    ensures s == TrimSuffix(s, c) || s == TrimSuffix(s, c) + [c]
  {
  }

  /** The rate passed on is the one given without the bytes' letter behind it. */
  lemma RateIsGiven(s: SyncAction)
    ensures var rate, given := Limit(s), s.tuning.bwlimit;
            given == rate || given == rate + "b" || given == rate + "B" || given == rate + "bB"
  {
    TrimmedSuffix(s.tuning.bwlimit, 'B');
    TrimmedSuffix(TrimSuffix(s.tuning.bwlimit, 'B'), 'b');
    assert (Limit(s) + ['b']) + ['B'] == Limit(s) + "bB";
  }
}
