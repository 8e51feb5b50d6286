/**
 What the last command of a wrapper launches, read as the programs on it read their words: setpriv takes
 its options up to `--`, then the program to run; env takes its own, then the leading words with an equals
 sign as variables (the env utility of POSIX.1-2017), and runs what follows.
 */
module LaunchReadings {
  import opened Options
  import opened ShellWords
  import opened WrapperExec

  datatype Launch = Launch(uid: Word, gid: Word, groups: bool, reset: bool, clean: bool, variables: seq<Word>,
                           command: seq<Word>)

  const NOTHING_YET := Launch([], [], false, false, false, [], [])

  function ReadSetpriv(words: seq<Word>, l: Launch): Option<Launch>
    decreases |words|
  {
    if words == [] then None
    else if words[0] == Lits("--") then Some(l.(command := words[1..]))
    else if words[0] == Lits("--init-groups") then ReadSetpriv(words[1..], l.(groups := true))
    else if words[0] == Lits("--reset-env") then ReadSetpriv(words[1..], l.(reset := true))
    else if words[0] == Lits("--reuid") && |words| > 1 then ReadSetpriv(words[2..], l.(uid := words[1]))
    else if words[0] == Lits("--regid") && |words| > 1 then ReadSetpriv(words[2..], l.(gid := words[1]))
    else None
  }

  predicate Assigns(w: Word) { Lit('=') in w }

  function ReadVariables(words: seq<Word>, l: Launch): Launch
    decreases |words|
  {
    if words != [] && Assigns(words[0]) then ReadVariables(words[1..], l.(variables := l.variables + [words[0]]))
    else l.(command := words)
  }

  function ReadEnv(words: seq<Word>, l: Launch): Option<Launch>
    decreases |words|
  {
    if words == [] then None
    else if words[0] == Lits("--") then Some(ReadVariables(words[1..], l))
    else if words[0] == Lits("-i") then ReadEnv(words[1..], l.(clean := true))
    else None
  }

  function ReadLaunch(setpriv: string, env: string, words: seq<Word>): Option<Launch> {
    if words == [] || words[0] != Lits(setpriv) then None
    else
      var l := ReadSetpriv(words[1..], NOTHING_YET);
      if l.None? || l.value.command == [] || l.value.command[0] != Lits(env) then None
      else ReadEnv(l.value.command[1..], l.value.(command := []))
  }

  // ---------- The prelude's words ----------

  lemma LitsDiffer(s: string, t: string)
    requires s != t
    ensures Lits(s) != Lits(t)
  {
    assert |Lits(s)| == |s| && |Lits(t)| == |t|;
    if |s| == |t| {
      var k :| 0 <= k < |s| && s[k] != t[k];
      assert Lits(s)[k] != Lits(t)[k];
    }
  }

  /** The account's own variables. */
  function HomeVariables(): seq<Word> {
    [Lits("HOME=") + [Param("run_home")], Lits("USER=") + [Param("run_user")], Lits("LOGNAME=") + [Param("run_user")],
     Lits("SHELL=") + [Param("run_shell")]]
  }

  function SetprivWords(): seq<Word> {
    [Lits("--reuid"), [Param("run_uid")], Lits("--regid"), [Param("run_gid")], Lits("--init-groups"), Lits("--reset-env"),
     Lits("--")]
  }

  lemma PreludeWords(setpriv: string, env: string)
    ensures PieceWords(Prelude(setpriv, env))
         == [Lits(setpriv)] + SetprivWords() + [Lits(env), Lits("-i"), Lits("--")] + HomeVariables()
  {
    assert Lits("") + [Param("run_uid")] == [Param("run_uid")];
    assert Lits("") + [Param("run_gid")] == [Param("run_gid")];
    assert PieceWords(IdentityPieces(setpriv)) + PieceWords(ResetPieces()) == [Lits(setpriv)] + SetprivWords();
    assert PieceWords(EnvPieces(env)) == [Lits(env), Lits("-i"), Lits("--")];
    assert PieceWords(HomePieces()) == HomeVariables();
    assert PieceWords(Prelude(setpriv, env))
        == PieceWords(IdentityPieces(setpriv)) + PieceWords(ResetPieces()) + PieceWords(EnvPieces(env)) + PieceWords(HomePieces());
  }

  lemma ReadAccount(uid: Word, gid: Word, rest: seq<Word>, l: Launch)
    ensures ReadSetpriv([Lits("--reuid"), uid, Lits("--regid"), gid] + rest, l)
         == ReadSetpriv(rest, l.(uid := uid, gid := gid))
  {
    var words := [Lits("--reuid"), uid, Lits("--regid"), gid] + rest;
    LitsDiffer("--reuid", "--");
    LitsDiffer("--reuid", "--init-groups");
    LitsDiffer("--reuid", "--reset-env");
    LitsDiffer("--regid", "--");
    LitsDiffer("--regid", "--init-groups");
    LitsDiffer("--regid", "--reset-env");
    LitsDiffer("--regid", "--reuid");
    assert words[2..] == [Lits("--regid"), gid] + rest && words[2..][2..] == rest;
  }

  lemma ReadGroups(rest: seq<Word>, l: Launch)
    ensures ReadSetpriv([Lits("--init-groups")] + rest, l) == ReadSetpriv(rest, l.(groups := true))
  {
    LitsDiffer("--init-groups", "--");
    assert ([Lits("--init-groups")] + rest)[1..] == rest;
  }

  lemma ReadReset(rest: seq<Word>, l: Launch)
    ensures ReadSetpriv([Lits("--reset-env")] + rest, l) == ReadSetpriv(rest, l.(reset := true))
  {
    LitsDiffer("--reset-env", "--");
    LitsDiffer("--reset-env", "--init-groups");
    assert ([Lits("--reset-env")] + rest)[1..] == rest;
  }

  lemma ReadProgram(rest: seq<Word>, l: Launch)
    ensures ReadSetpriv([Lits("--")] + rest, l) == Some(l.(command := rest))
  {
    assert ([Lits("--")] + rest)[1..] == rest;
  }

  lemma SetprivRuns(rest: seq<Word>)
    ensures ReadSetpriv(SetprivWords() + rest, NOTHING_YET)
         == Some(Launch([Param("run_uid")], [Param("run_gid")], true, true, false, [], rest))
  {
    var others := [Lits("--init-groups")] + ([Lits("--reset-env")] + ([Lits("--")] + rest));
    assert SetprivWords() + rest == [Lits("--reuid"), [Param("run_uid")], Lits("--regid"), [Param("run_gid")]] + others;
    ReadAccount([Param("run_uid")], [Param("run_gid")], others, NOTHING_YET);
    var l := NOTHING_YET.(uid := [Param("run_uid")], gid := [Param("run_gid")]);
    ReadGroups([Lits("--reset-env")] + ([Lits("--")] + rest), l);
    ReadReset([Lits("--")] + rest, l.(groups := true));
    ReadProgram(rest, l.(groups := true, reset := true));
  }

  lemma {:induction false} VariablesFirst(variables: seq<Word>, rest: seq<Word>, l: Launch)
    requires forall k | 0 <= k < |variables| :: Assigns(variables[k])
    ensures ReadVariables(variables + rest, l) == ReadVariables(rest, l.(variables := l.variables + variables))
    decreases |variables|
  {
    if variables == [] {
      assert variables + rest == rest && l.variables + variables == l.variables;
    } else {
      assert (variables + rest)[0] == variables[0] && (variables + rest)[1..] == variables[1..] + rest;
      assert (l.variables + [variables[0]]) + variables[1..] == l.variables + variables;
      VariablesFirst(variables[1..], rest, l.(variables := l.variables + [variables[0]]));
    }
  }

  lemma {:induction false} VariablesGrow(words: seq<Word>, l: Launch)
    ensures |ReadVariables(words, l).variables| >= |l.variables|
    decreases |words|
  {
    if words != [] && Assigns(words[0]) {
      VariablesGrow(words[1..], l.(variables := l.variables + [words[0]]));
    }
  }

  lemma LitsAssign(s: string)
    ensures Assigns(Lits(s)) <==> '=' in s
  {
    if '=' in s {
      var k :| 0 <= k < |s| && s[k] == '=';
      assert Lits(s)[k] == Lit('=');
    }
  }

  lemma HomeAssigns()
    ensures forall k | 0 <= k < 4 :: Assigns(HomeVariables()[k])
  {
    assert Lits("HOME=")[4] == Lit('=') && Lits("USER=")[4] == Lit('=');
    assert Lits("LOGNAME=")[7] == Lit('=') && Lits("SHELL=")[5] == Lit('=');
    assert HomeVariables()[0][4] == Lit('=') && HomeVariables()[1][4] == Lit('=');
    assert HomeVariables()[2][7] == Lit('=') && HomeVariables()[3][5] == Lit('=');
  }

  lemma FirstArgAssigns(argv: seq<string>)
    requires argv != []
    ensures Assigns(ArgWords(argv)[0]) <==> '=' in argv[0]
  {
    if argv[0] == BACKUP_DIR_TOKEN {
      assert ArgWords(argv)[0] == [] + [Param("backup_dir")];
      assert '=' !in BACKUP_DIR_TOKEN;
    } else {
      LitsAssign(argv[0]);
    }
  }

  /**
   What is launched: the run's account with its own groups, a fresh environment of the account's variables
   and the plan's, and the plan's arguments.
   */
  function Intended(environment: seq<string>, argv: seq<string>): Launch {
    Launch([Param("run_uid")], [Param("run_gid")], true, true, true, HomeVariables() + Literals(environment), ArgWords(argv))
  }

  lemma AllAssign(environment: seq<string>)
    requires forall k | 0 <= k < |environment| :: '=' in environment[k]
    ensures var variables := HomeVariables() + Literals(environment);
            forall k | 0 <= k < |variables| :: Assigns(variables[k])
  {
    var variables := HomeVariables() + Literals(environment);
    HomeAssigns();
    forall k | 0 <= k < |variables| ensures Assigns(variables[k]) {
      if k >= 4 {
        LitsAssign(environment[k - 4]);
        assert variables[k] == Lits(environment[k - 4]);
      }
    }
  }

  /** A command is run exactly if its first word has no equals sign; otherwise that is taken as a variable. */
  lemma VariablesThenCommand(variables: seq<Word>, command: seq<Word>, l: Launch)
    requires l.variables == [] && command != [] && forall k | 0 <= k < |variables| :: Assigns(variables[k])
    ensures (ReadVariables(variables + command, l) == l.(variables := variables, command := command))
            <==> !Assigns(command[0])
  {
    VariablesFirst(variables, command, l);
    assert l.variables + variables == variables;
    CommandStarts(command, l.(variables := variables));
  }

  lemma CommandStarts(command: seq<Word>, l: Launch)
    requires command != []
    ensures if Assigns(command[0]) then |ReadVariables(command, l).variables| > |l.variables|
            else ReadVariables(command, l) == l.(command := command)
  {
    if Assigns(command[0]) {
      VariablesGrow(command[1..], l.(variables := l.variables + [command[0]]));
    }
  }

  /** The words of the last command, after its keyword, launch what is intended exactly if that is so. */
  lemma LaunchesExactly(setpriv: string, env: string, environment: seq<string>, argv: seq<string>)
    requires argv != [] && forall k | 0 <= k < |environment| :: '=' in environment[k]
    ensures (ReadLaunch(setpriv, env, PieceWords(Prelude(setpriv, env)) + Literals(environment) + ArgWords(argv))
             == Some(Intended(environment, argv)))
            <==> '=' !in argv[0]
  {
    var words := PieceWords(Prelude(setpriv, env)) + Literals(environment) + ArgWords(argv);
    var variables := HomeVariables() + Literals(environment);
    var after := [Lits(env), Lits("-i"), Lits("--")] + (variables + ArgWords(argv));
    PreludeWords(setpriv, env);
    assert words == [Lits(setpriv)] + (SetprivWords() + after);
    assert words[0] == Lits(setpriv) && words[1..] == SetprivWords() + after;
    SetprivRuns(after);
    var l := Launch([Param("run_uid")], [Param("run_gid")], true, true, false, [], []);
    EnvRuns(env, variables + ArgWords(argv), l);
    AllAssign(environment);
    VariablesThenCommand(variables, ArgWords(argv), l.(clean := true));
    FirstArgAssigns(argv);
  }

  lemma EnvRuns(env: string, rest: seq<Word>, l: Launch)
    ensures var words := [Lits(env), Lits("-i"), Lits("--")] + rest;
            words[0] == Lits(env) && ReadEnv(words[1..], l) == Some(ReadVariables(rest, l.(clean := true)))
  {
    var words := [Lits(env), Lits("-i"), Lits("--")] + rest;
    LitsDiffer("-i", "--");
    assert words[1..] == [Lits("-i"), Lits("--")] + rest;
    assert words[1..][1..] == [Lits("--")] + rest;
    assert words[1..][1..][1..] == rest;
  }
}
