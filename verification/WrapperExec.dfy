/**
 The command with which a wrapper ends: privileges dropped, environment replaced, and the
 plan's arguments passed on.
 */
module WrapperExec {
  import opened ShellWords

  const BACKUP_DIR_TOKEN := "__SYNCBRIDGE_BACKUP_DIR__"

  function ArgItem(arg: string): Item { if arg == BACKUP_DIR_TOKEN then Ref("", "backup_dir") else Arg(arg) }

  function IdentityPieces(setpriv: string): seq<Piece> {
    [Piece(Arg(setpriv), Blank), Piece(Arg("--reuid"), Blank), Piece(Ref("", "run_uid"), Blank),
     Piece(Arg("--regid"), Blank), Piece(Ref("", "run_gid"), Blank)]
  }

  function ResetPieces(): seq<Piece> {
    [Piece(Arg("--init-groups"), Blank), Piece(Arg("--reset-env"), Blank), Piece(Arg("--"), Continued)]
  }

  function EnvPieces(env: string): seq<Piece> {
    [Piece(Arg(env), Blank), Piece(Arg("-i"), Blank), Piece(Arg("--"), Continued)]
  }

  function HomePieces(): seq<Piece> {
    [Piece(Ref("HOME=", "run_home"), Continued), Piece(Ref("USER=", "run_user"), Continued),
     Piece(Ref("LOGNAME=", "run_user"), Continued), Piece(Ref("SHELL=", "run_shell"), Continued)]
  }

  /** Everything before the environment entries. */
  function Prelude(setpriv: string, env: string): seq<Piece> {
    IdentityPieces(setpriv) + ResetPieces() + EnvPieces(env) + HomePieces()
  }

  function EnvironmentPieces(environment: seq<string>): seq<Piece> {
    seq(|environment|, k requires 0 <= k < |environment| => Piece(Arg(environment[k]), Continued))
  }

  function ArgPieces(args: seq<string>): seq<Piece> {
    seq(|args|, k requires 0 <= k < |args| => Piece(ArgItem(args[k]), Continued))
  }

  function ExecPieces(prelude: seq<Piece>, environment: seq<string>, argv: seq<string>): seq<Piece>
    requires argv != []
  {
    prelude + EnvironmentPieces(environment) + ArgPieces(argv[..|argv| - 1])
  }

  /** The command that a wrapper ends with, after its leading word and up to its last argument. */
  function ExecText(prelude: seq<Piece>, environment: seq<string>, argv: seq<string>): string
    requires argv != []
  {
    CommandText(ExecPieces(prelude, environment, argv), ArgItem(argv[|argv| - 1]))
  }

  /** Text written so far, each item with what follows it. */
  function Written(pieces: seq<Piece>): string {
    if pieces == [] then []
    else Written(pieces[..|pieces| - 1]) + ItemText(pieces[|pieces| - 1].item) + SeparatorText(pieces[|pieces| - 1].after)
  }

  lemma WrittenMore(pieces: seq<Piece>, p: Piece)
    ensures Written(pieces + [p]) == Written(pieces) + ItemText(p.item) + SeparatorText(p.after)
  {
    assert (pieces + [p])[..|pieces|] == pieces;
  }

  lemma {:induction false} WrittenThenLast(done: seq<Piece>, pieces: seq<Piece>, last: Item)
    ensures Written(done) + CommandText(pieces, last) == Written(done + pieces) + ItemText(last)
    decreases |pieces|
  {
    if pieces == [] {
      assert done + pieces == done;
    } else {
      var done', rest := done + [pieces[0]], pieces[1..];
      WrittenShift(done, pieces, last);
      WrittenThenLast(done', rest, last);
      FirstMoves(done, pieces);
    }
  }

  lemma FirstMoves(done: seq<Piece>, pieces: seq<Piece>)
    requires pieces != []
    ensures (done + [pieces[0]]) + pieces[1..] == done + pieces
  {
  }

  lemma WrittenShift(done: seq<Piece>, pieces: seq<Piece>, last: Item)
    requires pieces != []
    ensures Written(done) + CommandText(pieces, last) == Written(done + [pieces[0]]) + CommandText(pieces[1..], last)
  {
    var p := pieces[0];
    WrittenMore(done, p);
    Regroup(Written(done), ItemText(p.item), SeparatorText(p.after), CommandText(pieces[1..], last));
  }

  lemma Regroup(a: string, b: string, c: string, d: string)
    ensures a + (b + c + d) == (a + b + c) + d
  {
  }

  method WritePiece(text: string, ghost done: seq<Piece>, p: Piece) returns (text': string)
    requires text == Written(done)
    ensures text' == Written(done + [p])
  {
    text' := text + ItemText(p.item) + SeparatorText(p.after);
    WrittenMore(done, p);
  }

  lemma PiecesGrow(pieces: seq<Piece>, k: nat)
    requires k < |pieces|
    ensures pieces[..k] + [pieces[k]] == pieces[..k + 1]
  {
  }

  method WritePieces(pieces: seq<Piece>) returns (text: string)
    ensures text == Written(pieces)
  {
    text := "";
    ghost var so: seq<Piece> := [];
    for k := 0 to |pieces|
      invariant so == pieces[..k]
      invariant text == Written(so)
    {
      text := WritePiece(text, so, pieces[k]);
      PiecesGrow(pieces, k);
      so := pieces[..k + 1];
    }
    assert pieces[..|pieces|] == pieces;
  }

  lemma EnvironmentGrows(done: seq<Piece>, environment: seq<string>, k: nat)
    requires k < |environment|
    ensures done + EnvironmentPieces(environment[..k]) + [Piece(Arg(environment[k]), Continued)]
         == done + EnvironmentPieces(environment[..k + 1])
  {
  }

  lemma ArgumentsGrow(done: seq<Piece>, argv: seq<string>, k: nat)
    requires k < |argv|
    ensures done + ArgPieces(argv[..k]) + [Piece(ArgItem(argv[k]), Continued)] == done + ArgPieces(argv[..k + 1])
  {
  }

  method WriteEnvironment(text: string, ghost done: seq<Piece>, environment: seq<string>) returns (text': string)
    requires text == Written(done)
    ensures text' == Written(done + EnvironmentPieces(environment))
  {
    text' := text;
    ghost var so := done;
    assert done + EnvironmentPieces(environment[..0]) == done;
    for k := 0 to |environment|
      invariant so == done + EnvironmentPieces(environment[..k])
      invariant text' == Written(so)
    {
      text' := WritePiece(text', so, Piece(Arg(environment[k]), Continued));
      EnvironmentGrows(done, environment, k);
      so := done + EnvironmentPieces(environment[..k + 1]);
    }
    assert environment[..|environment|] == environment;
  }

  method ArgWord(arg: string) returns (word: string)
    ensures word == ItemText(ArgItem(arg))
  {
    word := ShellQuote(arg);
    if arg == BACKUP_DIR_TOKEN {
      word := "\"$backup_dir\"";
      BackupWord();
    }
  }

  lemma BackupWord()
    ensures ItemText(Ref("", "backup_dir")) == "\"$backup_dir\""
  {
  }

  method WriteArguments(text: string, ghost done: seq<Piece>, argv: seq<string>) returns (text': string)
    requires argv != [] && text == Written(done)
    ensures text' == Written(done + ArgPieces(argv[..|argv| - 1])) + ItemText(ArgItem(argv[|argv| - 1]))
  {
    text' := text;
    ghost var so := done;
    assert done + ArgPieces(argv[..0]) == done;
    for index := 0 to |argv|
      invariant index < |argv| ==> so == done + ArgPieces(argv[..index]) && text' == Written(so)
      invariant index == |argv| ==> so == done + ArgPieces(argv[..index - 1])
                                    && text' == Written(so) + ItemText(ArgItem(argv[index - 1]))
    {
      var word := ArgWord(argv[index]);
      if index == |argv| - 1 {
        text' := text' + word;
      } else {
        text' := text' + word + SeparatorText(Continued);
        WrittenMore(so, Piece(ArgItem(argv[index]), Continued));
        ArgumentsGrow(done, argv, index);
        so := done + ArgPieces(argv[..index + 1]);
      }
    }
  }

  /**
   How a wrapper ends: it becomes the command, or it waits for it and acts on its result, first by
   some further text that takes care of old backups.
   */
  datatype Ending = Become | Await(retention: string)

  function Keyword(e: Ending): string { if e.Become? then "exec" else "if" }

  const KEEP_RESULT := ";" + " then\n    run_status=0\nelse\n    run_status=$?\nfi\n"
  const EXIT_WITH_RESULT := "exit \"$run_status\"\n"

  function Closing(e: Ending): string {
    match e
    case Become => "\n"
    case Await(retention) => KEEP_RESULT + retention + EXIT_WITH_RESULT
  }

  lemma ClosingEnds(e: Ending)
    ensures EndsCommand(Closing(e))
  {
    if e.Await? {
      assert Closing(e)[0] == KEEP_RESULT[0] == ';';
    }
  }

  /** The last part of a wrapper as a whole. */
  function FinalText(e: Ending, prelude: seq<Piece>, environment: seq<string>, argv: seq<string>): string
    requires argv != []
  {
    Keyword(e) + " " + ExecText(prelude, environment, argv) + Closing(e)
  }

  method RenderCommand(setpriv: string, env: string, environment: seq<string>, argv: seq<string>) returns (text: string)
    requires argv != []
    ensures text == ExecText(Prelude(setpriv, env), environment, argv)
  {
    var prelude := Prelude(setpriv, env);
    text := WritePieces(prelude);
    text := WriteEnvironment(text, prelude, environment);
    ghost var before := prelude + EnvironmentPieces(environment);
    text := WriteArguments(text, before, argv);
    ExecWritten(prelude, environment, argv);
  }

  method RenderExec(e: Ending, setpriv: string, env: string, environment: seq<string>, argv: seq<string>)
    returns (text: string)
    requires argv != []
    ensures text == FinalText(e, Prelude(setpriv, env), environment, argv)
  {
    text := Keyword(e) + " ";
    var command := RenderCommand(setpriv, env, environment, argv);
    text := text + command;
    text := WriteClosing(text, e);
  }

  method WriteClosing(text: string, e: Ending) returns (text': string)
    ensures text' == text + Closing(e)
  {
    if e.Become? {
      return text + "\n";
    }
    text' := text + KEEP_RESULT;
    text' := text' + e.retention;
    Regroup(text, KEEP_RESULT, e.retention, EXIT_WITH_RESULT);
    text' := text' + EXIT_WITH_RESULT;
  }

  lemma ExecWritten(prelude: seq<Piece>, environment: seq<string>, argv: seq<string>)
    requires argv != []
    ensures ExecText(prelude, environment, argv)
         == Written(prelude + EnvironmentPieces(environment) + ArgPieces(argv[..|argv| - 1])) + ItemText(ArgItem(argv[|argv| - 1]))
  {
    var pieces, last := ExecPieces(prelude, environment, argv), ArgItem(argv[|argv| - 1]);
    WrittenThenLast([], pieces, last);
    assert [] + pieces == pieces;
    assert Written([]) + CommandText(pieces, last) == CommandText(pieces, last);
  }

  // ---------- What a shell reads ----------

  predicate AllNulFree(words: seq<string>) { forall k | 0 <= k < |words| :: NulFree(words[k]) }

  function ArgWords(args: seq<string>): seq<Word> {
    seq(|args|, k requires 0 <= k < |args| => ItemWord(ArgItem(args[k])))
  }

  function Literals(args: seq<string>): seq<Word> {
    seq(|args|, k requires 0 <= k < |args| => Lits(args[k]))
  }

  lemma IdentityReadable(setpriv: string)
    requires NulFree(setpriv)
    ensures AllReadable(IdentityPieces(setpriv))
  {
    assert Readable(Arg("--reuid")) && Readable(Arg("--regid"));
    assert Readable(Ref("", "run_uid"));
    assert Readable(Ref("", "run_gid"));
  }

  lemma ResetReadable()
    ensures AllReadable(ResetPieces())
  {
    assert Readable(Arg("--init-groups"));
    assert Readable(Arg("--reset-env"));
    assert Readable(Arg("--"));
  }

  lemma EnvReadable(env: string)
    requires NulFree(env)
    ensures AllReadable(EnvPieces(env))
  {
    assert Readable(Arg("-i"));
    assert Readable(Arg("--"));
  }

  lemma HomePrefixes()
    ensures PlainInQuotes("HOME=") && PlainInQuotes("USER=") && PlainInQuotes("SHELL=")
  {
  }

  lemma LogNamePrefix()
    ensures PlainInQuotes("LOGNAME=")
  {
  }

  lemma HomeNames()
    ensures IsName("run_home") && IsName("run_user") && IsName("run_shell")
  {
  }

  lemma HomeReadable()
    ensures AllReadable(HomePieces())
  {
    HomePrefixes();
    LogNamePrefix();
    HomeNames();
  }

  lemma AllReadableTogether(a: seq<Piece>, b: seq<Piece>)
    requires AllReadable(a) && AllReadable(b)
    ensures AllReadable(a + b)
  {
  }

  lemma PreludeReadable(setpriv: string, env: string)
    requires NulFree(setpriv) && NulFree(env)
    ensures AllReadable(Prelude(setpriv, env))
  {
    IdentityReadable(setpriv);
    ResetReadable();
    EnvReadable(env);
    HomeReadable();
    AllReadableTogether(IdentityPieces(setpriv), ResetPieces());
    AllReadableTogether(IdentityPieces(setpriv) + ResetPieces(), EnvPieces(env));
    AllReadableTogether(IdentityPieces(setpriv) + ResetPieces() + EnvPieces(env), HomePieces());
  }

  /** Letters without quotes, then a blank, read as a word. */
  lemma {:induction false} ReadLetters(s: string, tail: string, word: Word, words: seq<Word>, inWord: bool)
    requires forall k | 0 <= k < |s| :: 'a' <= s[k] <= 'z'
    requires inWord || s != []
    ensures Read(s + " " + tail, Plain, inWord, word, words) == Read(tail, Plain, false, [], words + [word + Lits(s)])
    decreases |s|
  {
    var text := s + " " + tail;
    if s == [] {
      assert text[1..] == tail && word + Lits(s) == word;
    } else {
      assert text[1..] == s[1..] + " " + tail;
      assert word + Lits(s) == word + [Lit(s[0])] + Lits(s[1..]);
      ReadLetters(s[1..], tail, word + [Lit(s[0])], words, true);
    }
  }

  /** The keyword is read as a word of its own before the rest. */
  lemma KeywordReads(e: Ending, rest: string)
    ensures ReadCommand(Keyword(e) + " " + rest) == Read(rest, Plain, false, [], [Lits(Keyword(e))])
  {
    var word: Word := [];
    ReadLetters(Keyword(e), rest, word, [], false);
    assert word + Lits(Keyword(e)) == Lits(Keyword(e));
    assert [] + [Lits(Keyword(e))] == [Lits(Keyword(e))];
  }

  /**
   A shell reads the end of the wrapper, up to the end of that command, as: the keyword, the prelude,
   the environment entries as they are, then every argument as it is, the backup token alone standing
   for the directory chosen at run time.
   */
  lemma ExecReadsBack(e: Ending, prelude: seq<Piece>, environment: seq<string>, argv: seq<string>)
    requires argv != [] && AllReadable(prelude) && AllNulFree(environment)
    ensures ReadCommand(FinalText(e, prelude, environment, argv)) ==
            if AllNulFree(argv) then Words([Lits(Keyword(e))] + PieceWords(prelude) + Literals(environment) + ArgWords(argv))
            else Unreadable
  {
    var pieces, last := ExecPieces(prelude, environment, argv), ArgItem(argv[|argv| - 1]);
    ArgsReadable(argv);
    PiecesReadable(prelude, EnvironmentPieces(environment), ArgPieces(argv[..|argv| - 1]));
    FinalReads(e, pieces, last, Closing(e));
    ExecWords([Lits(Keyword(e))], prelude, environment, argv);
  }

  lemma FinalReads(e: Ending, pieces: seq<Piece>, last: Item, closing: string)
    requires RefsReadable(pieces) && (last.Arg? || Readable(last)) && closing == Closing(e)
    ensures ReadCommand(Keyword(e) + " " + CommandText(pieces, last) + closing) ==
            if AllReadable(pieces) && Readable(last) then Words([Lits(Keyword(e))] + PieceWords(pieces) + [ItemWord(last)])
            else Unreadable
  {
    KeywordReads(e, CommandText(pieces, last) + closing);
    KeywordFirst(Keyword(e), CommandText(pieces, last), closing);
    ClosingEnds(e);
    ReadRendered(pieces, last, closing, [Lits(Keyword(e))]);
  }

  lemma KeywordFirst(keyword: string, text: string, closing: string)
    ensures keyword + " " + text + closing == keyword + " " + (text + closing)
  {
  }

  lemma ExecWords(front: seq<Word>, prelude: seq<Piece>, environment: seq<string>, argv: seq<string>)
    requires argv != []
    ensures front + PieceWords(ExecPieces(prelude, environment, argv)) + [ItemWord(ArgItem(argv[|argv| - 1]))]
         == front + PieceWords(prelude) + Literals(environment) + ArgWords(argv)
  {
  }

  lemma ArgsReadable(argv: seq<string>)
    requires argv != []
    ensures RefsReadable(ArgPieces(argv[..|argv| - 1]))
    ensures (ArgItem(argv[|argv| - 1]).Arg? || Readable(ArgItem(argv[|argv| - 1])))
    ensures AllNulFree(argv) <==> AllReadable(ArgPieces(argv[..|argv| - 1])) && Readable(ArgItem(argv[|argv| - 1]))
  {
    var init := argv[..|argv| - 1];
    forall k | 0 <= k < |argv| ensures Readable(ArgItem(argv[k])) <==> NulFree(argv[k]) {
      if argv[k] == BACKUP_DIR_TOKEN {
        assert NulFree(BACKUP_DIR_TOKEN);
      }
    }
    if AllReadable(ArgPieces(init)) && Readable(ArgItem(argv[|argv| - 1])) {
      forall k | 0 <= k < |argv| ensures NulFree(argv[k]) {
        if k < |init| {
          assert Readable(ArgPieces(init)[k].item);
        }
      }
    }
  }

  lemma PiecesReadable(a: seq<Piece>, b: seq<Piece>, c: seq<Piece>)
    requires AllReadable(a) && AllReadable(b) && RefsReadable(c)
    ensures RefsReadable(a + b + c) && (AllReadable(a + b + c) <==> AllReadable(c))
  {
    var all := a + b + c;
    forall k | 0 <= k < |all| && (all[k].item.Ref? || AllReadable(c)) ensures Readable(all[k].item) {
      if k < |a| {
        assert all[k] == a[k];
      } else if k < |a| + |b| {
        assert all[k] == b[k - |a|];
      } else {
        assert all[k] == c[k - |a| - |b|];
      }
    }
    if AllReadable(all) {
      forall k | 0 <= k < |c| ensures Readable(c[k].item) {
        assert all[|a| + |b| + k] == c[k];
      }
    }
  }

  /** The arguments arrive as they were exactly when none holds a NUL and none is the backup token. */
  lemma ArgvRoundTrip(e: Ending, setpriv: string, env: string, environment: seq<string>, argv: seq<string>)
    requires argv != [] && NulFree(setpriv) && NulFree(env) && AllNulFree(environment)
    ensures var prelude := Prelude(setpriv, env);
            (ReadCommand(FinalText(e, prelude, environment, argv))
             == Words([Lits(Keyword(e))] + PieceWords(prelude) + Literals(environment) + Literals(argv)))
            <==> AllNulFree(argv) && BACKUP_DIR_TOKEN !in argv
  {
    var prelude := Prelude(setpriv, env);
    PreludeReadable(setpriv, env);
    ExecReadsBack(e, prelude, environment, argv);
    ArgWordsLiteral([Lits(Keyword(e))] + PieceWords(prelude) + Literals(environment), argv);
  }

  lemma ArgWordsLiteral(front: seq<Word>, argv: seq<string>)
    ensures front + ArgWords(argv) == front + Literals(argv) <==> BACKUP_DIR_TOKEN !in argv
  {
    if BACKUP_DIR_TOKEN in argv {
      var k :| 0 <= k < |argv| && argv[k] == BACKUP_DIR_TOKEN;
      assert (front + ArgWords(argv))[|front| + k] == [] + [Param("backup_dir")];
      assert (front + Literals(argv))[|front| + k] == Lits(BACKUP_DIR_TOKEN);
    } else {
      assert ArgWords(argv) == Literals(argv);
    }
  }
}
