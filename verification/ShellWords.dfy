/**
 Quoting words for a POSIX shell, and reading them back: by the shell's own word rules
 (sections 2.2.2, 2.2.3 and 2.3 of the POSIX.1-2017 Shell Command Language) and by the import
 scanner's tokenizer. Strings are sequences of characters.
 */
module ShellWords {

  // ---------- Quoting ----------

  const QUOTED_QUOTE := "'\"'\"'"

  function Escape(s: string): string {
    if s == [] then []
    else (if s[0] == '\'' then QUOTED_QUOTE else [s[0]]) + Escape(s[1..])
  }

  function ShellQuote(s: string): string { "'" + Escape(s) + "'" }

  // ---------- Reading words as a POSIX shell does ----------

  /** A word is made of literal characters and of parameters still to be expanded. */
  datatype Symbol = Lit(c: char) | Param(name: string)
  type Word = seq<Symbol>

  function Lits(s: string): Word { seq(|s|, i requires 0 <= i < |s| => Lit(s[i])) }

  datatype Mode = Plain | Single | Double

  /** The words of one simple command, or no reading in this fragment of the language. */
  datatype Reading = Words(words: seq<Word>) | Unreadable

  predicate NameStart(c: char) { 'a' <= c <= 'z' || 'A' <= c <= 'Z' || c == '_' }
  predicate NameChar(c: char) { NameStart(c) || '0' <= c <= '9' }

  function NameLength(s: string): (n: nat)
    ensures n <= |s|
  {
    if s == [] || !NameChar(s[0]) then 0 else 1 + NameLength(s[1..])
  }

  /** Unquoted, these are operators, expansions, patterns or comments: outside this fragment. */
  predicate Special(c: char) { c in "$`&|<>()#*?[]~=!{}" }

  /**
   The command up to its end, an unquoted newline or semicolon, or the end of the text.
   `word` is what has been read of the current word, if `inWord` says that there is one.
   */
  function Read(s: string, mode: Mode, inWord: bool, word: Word, words: seq<Word>): Reading
    decreases |s|
  {
    if s == [] then (if mode == Plain then Words(if inWord then words + [word] else words) else Unreadable)
    else if s[0] == '\0' then Unreadable
    else
      match mode
      case Single =>
        if s[0] == '\'' then Read(s[1..], Plain, true, word, words)
        else Read(s[1..], Single, true, word + [Lit(s[0])], words)
      case Double =>
        if s[0] == '"' then Read(s[1..], Plain, true, word, words)
        else if s[0] == '$' then
          var n := NameLength(s[1..]);
          if n == 0 || !NameStart(s[1]) then Unreadable
          else Read(s[1 + n..], Double, true, word + [Param(s[1..1 + n])], words)
        else if s[0] == '`' || s[0] == '\\' then Unreadable
        else Read(s[1..], Double, true, word + [Lit(s[0])], words)
      case Plain =>
        if s[0] == '\'' then Read(s[1..], Single, true, word, words)
        else if s[0] == '"' then Read(s[1..], Double, true, word, words)
        else if s[0] == '\\' then
          if |s| == 1 || s[1] == '\0' then Unreadable
          else if s[1] == '\n' then Read(s[2..], Plain, inWord, word, words)
          else Read(s[2..], Plain, true, word + [Lit(s[1])], words)
        else if s[0] == ' ' || s[0] == '\t' then
          Read(s[1..], Plain, false, [], if inWord then words + [word] else words)
        else if s[0] == '\n' || s[0] == ';' then Words(if inWord then words + [word] else words)
        else if Special(s[0]) then Unreadable
        else Read(s[1..], Plain, true, word + [Lit(s[0])], words)
  }

  function ReadCommand(s: string): Reading { Read(s, Plain, false, [], []) }

  predicate NulFree(s: string) { '\0' !in s }

  lemma ReadQuotedQuote(tail: string, word: Word, words: seq<Word>)
    ensures Read(QUOTED_QUOTE + tail, Single, true, word, words) == Read(tail, Single, true, word + [Lit('\'')], words)
  {
    var s := QUOTED_QUOTE + tail;
    assert s[1..] == "\"'\"'" + tail;
    assert s[1..][1..] == "'\"'" + tail;
    assert s[1..][1..][1..] == "\"'" + tail;
    assert s[1..][1..][1..][1..] == "'" + tail;
    assert s[1..][1..][1..][1..][1..] == tail;
    assert Read(s, Single, true, word, words) == Read(s[1..], Plain, true, word, words);
    assert Read(s[1..], Plain, true, word, words) == Read(s[1..][1..], Double, true, word, words);
    assert Read(s[1..][1..], Double, true, word, words)
        == Read(s[1..][1..][1..], Double, true, word + [Lit('\'')], words);
  }

  /** Inside single quotes, escaped text reads as itself. */
  lemma {:induction false} ReadEscaped(s: string, tail: string, word: Word, words: seq<Word>)
    ensures Read(Escape(s) + "'" + tail, Single, true, word, words) ==
            if NulFree(s) then Read(tail, Plain, true, word + Lits(s), words) else Unreadable
    decreases |s|
  {
    var text := Escape(s) + "'" + tail;
    if s == [] {
      assert text == "'" + tail && text[1..] == tail && word + Lits(s) == word;
    } else {
      var rest := Escape(s[1..]) + "'" + tail;
      assert NulFree(s) == (s[0] != '\0' && NulFree(s[1..]));
      assert word + Lits(s) == word + [Lit(s[0])] + Lits(s[1..]);
      if s[0] == '\'' {
        assert text == QUOTED_QUOTE + rest;
        ReadQuotedQuote(rest, word, words);
      } else {
        assert text == [s[0]] + rest && text[1..] == rest;
      }
      ReadEscaped(s[1..], tail, word + [Lit(s[0])], words);
    }
  }

  // ---------- Rendering a command ----------

  /** What the renderer puts in a command: a quoted argument, or text ending in a parameter, in double quotes. */
  datatype Item = Arg(text: string) | Ref(prefix: string, name: string)

  function ItemText(i: Item): string {
    match i
    case Arg(text) => ShellQuote(text)
    case Ref(prefix, name) => "\"" + prefix + "$" + name + "\""
  }

  function ItemWord(i: Item): Word {
    match i
    case Arg(text) => Lits(text)
    case Ref(prefix, name) => Lits(prefix) + [Param(name)]
  }

  predicate IsName(s: string) { s != [] && NameStart(s[0]) && forall k | 0 <= k < |s| :: NameChar(s[k]) }

  predicate PlainInQuotes(s: string) { forall k | 0 <= k < |s| :: s[k] !in "\0\"$`\\" }

  predicate Readable(i: Item) {
    match i
    case Arg(text) => NulFree(text)
    case Ref(prefix, name) => PlainInQuotes(prefix) && IsName(name)
  }

  lemma {:induction false} NameIsMaximal(name: string, tail: string)
    requires (forall k | 0 <= k < |name| :: NameChar(name[k])) && tail != [] && !NameChar(tail[0])
    ensures NameLength(name + tail) == |name|
    decreases |name|
  {
    if name == [] {
      assert name + tail == tail;
    } else {
      assert (name + tail)[1..] == name[1..] + tail;
      NameIsMaximal(name[1..], tail);
    }
  }

  lemma ReadParam(name: string, tail: string, word: Word, words: seq<Word>)
    requires IsName(name)
    ensures Read("$" + name + "\"" + tail, Double, true, word, words) == Read(tail, Plain, true, word + [Param(name)], words)
  {
    var s := "$" + name + "\"" + tail;
    var after := "\"" + tail;
    assert s[1..] == name + after;
    NameIsMaximal(name, after);
    assert s[1..1 + |name|] == name && s[1 + |name|..] == after && after[1..] == tail;
  }

  lemma {:induction false} ReadPrefix(prefix: string, tail: string, word: Word, words: seq<Word>)
    requires PlainInQuotes(prefix)
    ensures Read(prefix + tail, Double, true, word, words) == Read(tail, Double, true, word + Lits(prefix), words)
    decreases |prefix|
  {
    if prefix == [] {
      assert prefix + tail == tail && word + Lits(prefix) == word;
    } else {
      assert (prefix + tail)[1..] == prefix[1..] + tail;
      assert word + Lits(prefix) == (word + [Lit(prefix[0])]) + Lits(prefix[1..]);
      ReadPrefix(prefix[1..], tail, word + [Lit(prefix[0])], words);
    }
  }

  /** An item at the start of a word reads as its word. */
  lemma ReadItem(i: Item, tail: string, words: seq<Word>)
    requires i.Arg? || Readable(i)
    ensures Read(ItemText(i) + tail, Plain, false, [], words) ==
            if Readable(i) then Read(tail, Plain, true, ItemWord(i), words) else Unreadable
  {
    match i {
      case Arg(text) =>
        assert (ItemText(i) + tail)[1..] == Escape(text) + "'" + tail;
        ReadEscaped(text, tail, [], words);
        assert [] + Lits(text) == Lits(text);
      case Ref(prefix, name) =>
        var after := "$" + name + "\"" + tail;
        assert (ItemText(i) + tail)[1..] == prefix + after;
        ReadPrefix(prefix, after, [], words);
        assert [] + Lits(prefix) == Lits(prefix);
        ReadParam(name, tail, Lits(prefix), words);
    }
  }

  /** Between items: a blank, or a blank and a line continuation with indentation. */
  datatype Separator = Blank | Continued

  function SeparatorText(b: Separator): string {
    match b
    case Blank => " "
    case Continued => " \\\n    "
  }

  lemma ReadSeparator(b: Separator, tail: string, word: Word, words: seq<Word>)
    ensures Read(SeparatorText(b) + tail, Plain, true, word, words) == Read(tail, Plain, false, [], words + [word])
  {
    var s := SeparatorText(b) + tail;
    if b == Blank {
      assert s[1..] == tail;
    } else {
      assert s[1..] == "\\\n    " + tail;
      assert s[1..][2..] == "    " + tail;
      assert ("    " + tail)[1..] == "   " + tail;
      assert ("   " + tail)[1..] == "  " + tail;
      assert ("  " + tail)[1..] == " " + tail;
      assert (" " + tail)[1..] == tail;
      assert Read(s, Plain, true, word, words) == Read(s[1..], Plain, false, [], words + [word]);
      assert Read(s[1..], Plain, false, [], words + [word]) == Read("    " + tail, Plain, false, [], words + [word]);
      assert Read("    " + tail, Plain, false, [], words + [word]) == Read("  " + tail, Plain, false, [], words + [word]);
    }
  }

  datatype Piece = Piece(item: Item, after: Separator)

  /** Pieces written one after the other, then a last item. */
  function CommandText(pieces: seq<Piece>, last: Item): string {
    if pieces == [] then ItemText(last)
    else ItemText(pieces[0].item) + SeparatorText(pieces[0].after) + CommandText(pieces[1..], last)
  }

  function PieceWords(pieces: seq<Piece>): seq<Word> {
    seq(|pieces|, k requires 0 <= k < |pieces| => ItemWord(pieces[k].item))
  }

  lemma CommandTextSplits(pieces: seq<Piece>, last: Item, tail: string)
    requires pieces != []
    ensures CommandText(pieces, last) + tail
         == ItemText(pieces[0].item) + (SeparatorText(pieces[0].after) + (CommandText(pieces[1..], last) + tail))
  {
  }

  predicate EndsCommand(s: string) { s == [] || s[0] == '\n' || s[0] == ';' }

  predicate AllReadable(pieces: seq<Piece>) { forall k | 0 <= k < |pieces| :: Readable(pieces[k].item) }

  predicate RefsReadable(pieces: seq<Piece>) {
    forall k | 0 <= k < |pieces| && pieces[k].item.Ref? :: Readable(pieces[k].item)
  }

  lemma PieceWordsFirst(pieces: seq<Piece>, words: seq<Word>)
    requires pieces != []
    ensures words + PieceWords(pieces) == (words + [ItemWord(pieces[0].item)]) + PieceWords(pieces[1..])
  {
  }

  lemma AllReadableSplits(pieces: seq<Piece>)
    requires pieces != []
    ensures AllReadable(pieces) <==> Readable(pieces[0].item) && AllReadable(pieces[1..])
    ensures RefsReadable(pieces) ==> RefsReadable(pieces[1..]) && (pieces[0].item.Ref? ==> Readable(pieces[0].item))
  {
  }

  /** A rendered command reads back as its items, unless an argument holds a NUL. */
  lemma {:induction false} ReadRendered(pieces: seq<Piece>, last: Item, tail: string, words: seq<Word>)
    requires RefsReadable(pieces) && (last.Arg? || Readable(last)) && EndsCommand(tail)
    ensures Read(CommandText(pieces, last) + tail, Plain, false, [], words) ==
            if AllReadable(pieces) && Readable(last) then Words(words + PieceWords(pieces) + [ItemWord(last)]) else Unreadable
    decreases |pieces|
  {
    if pieces == [] {
      ReadItem(last, tail, words);
      assert words + PieceWords(pieces) == words;
    } else {
      var p, rest := pieces[0], CommandText(pieces[1..], last) + tail;
      CommandTextSplits(pieces, last, tail);
      ReadItem(p.item, SeparatorText(p.after) + rest, words);
      AllReadableSplits(pieces);
      if Readable(p.item) {
        ReadSeparator(p.after, rest, ItemWord(p.item), words);
        ReadRendered(pieces[1..], last, tail, words + [ItemWord(p.item)]);
        PieceWordsFirst(pieces, words);
      }
    }
  }

  // ---------- The import scanner's tokenizer ----------

  /** No quote is open when `quote` is zero; `current` is what has been collected of a token. */
  const NO_QUOTE := '\0'

  function TokensFrom(s: string, quote: char, current: string): seq<string>
    decreases |s|
  {
    if s == [] then (if |current| > 0 then [current] else [])
    else if quote != NO_QUOTE then
      if s[0] == quote then TokensFrom(s[1..], NO_QUOTE, current) else TokensFrom(s[1..], quote, current + [s[0]])
    else if s[0] == '\'' || s[0] == '"' then TokensFrom(s[1..], s[0], current)
    else if s[0] == ' ' || s[0] == '\t' then
      (if |current| > 0 then [current] else []) + TokensFrom(s[1..], NO_QUOTE, [])
    else TokensFrom(s[1..], NO_QUOTE, current + [s[0]])
  }

  method Tokenize(s: string) returns (out: seq<string>)
    ensures out == TokensFrom(s, NO_QUOTE, [])
  {
    out := [];
    var current: string := [];
    var quote := NO_QUOTE;
    for i := 0 to |s|
      invariant out + TokensFrom(s[i..], quote, current) == TokensFrom(s, NO_QUOTE, [])
    {
      var r := s[i];
      assert s[i..][0] == r && s[i..][1..] == s[i + 1..];
      ghost var before, left := out, TokensFrom(s[i + 1..], NO_QUOTE, []);
      if quote != NO_QUOTE {
        if r == quote {
          quote := NO_QUOTE;
        } else {
          current := current + [r];
        }
      } else if r == '\'' || r == '"' {
        quote := r;
      } else if r == ' ' || r == '\t' {
        if |current| > 0 {
          assert before + ([current] + left) == (before + [current]) + left;
          out := out + [current];
          current := [];
        } else {
          assert before + ([] + left) == before + left;
        }
      } else {
        current := current + [r];
      }
    }
    assert s[|s|..] == [];
    if |current| > 0 {
      out := out + [current];
    }
  }

  lemma TokensQuotedQuote(tail: string, current: string)
    ensures TokensFrom(QUOTED_QUOTE + tail, '\'', current) == TokensFrom(tail, '\'', current + "'")
  {
    var s := QUOTED_QUOTE + tail;
    assert s[1..] == "\"'\"'" + tail;
    assert s[1..][1..] == "'\"'" + tail;
    assert s[1..][1..][1..] == "\"'" + tail;
    assert s[1..][1..][1..][1..] == "'" + tail;
    assert s[1..][1..][1..][1..][1..] == tail;
    var t := s[1..][1..][1..];
    assert TokensFrom(s, '\'', current) == TokensFrom(s[1..], NO_QUOTE, current) == TokensFrom(s[1..][1..], '"', current);
    assert TokensFrom(s[1..][1..], '"', current) == TokensFrom(t, '"', current + ['\'']);
    assert TokensFrom(t, '"', current + ['\'']) == TokensFrom(t[1..], NO_QUOTE, current + ['\'']);
    assert TokensFrom(t[1..], NO_QUOTE, current + ['\'']) == TokensFrom(t[1..][1..], '\'', current + ['\'']);
  }

  lemma {:induction false} TokensEscaped(s: string, tail: string, current: string)
    ensures TokensFrom(Escape(s) + "'" + tail, '\'', current) == TokensFrom(tail, NO_QUOTE, current + s)
    decreases |s|
  {
    var text := Escape(s) + "'" + tail;
    if s == [] {
      assert text == "'" + tail && text[1..] == tail && current + s == current;
    } else {
      var rest := Escape(s[1..]) + "'" + tail;
      assert current + s == current + [s[0]] + s[1..];
      if s[0] == '\'' {
        assert text == QUOTED_QUOTE + rest;
        TokensQuotedQuote(rest, current);
      } else {
        assert text == [s[0]] + rest && text[1..] == rest;
      }
      TokensEscaped(s[1..], tail, current + [s[0]]);
    }
  }

  function JoinQuoted(words: seq<string>): string {
    if words == [] then []
    else if |words| == 1 then ShellQuote(words[0])
    else ShellQuote(words[0]) + " " + JoinQuoted(words[1..])
  }

  function NonEmpty(words: seq<string>): seq<string> {
    if words == [] then [] else (if words[0] == [] then [] else [words[0]]) + NonEmpty(words[1..])
  }

  /** A quoted word, then the rest: the tokenizer collects the word as it is. */
  lemma TokensQuoted(w: string, tail: string)
    ensures TokensFrom(ShellQuote(w) + tail, NO_QUOTE, []) == TokensFrom(tail, NO_QUOTE, w)
  {
    assert (ShellQuote(w) + tail)[1..] == Escape(w) + "'" + tail;
    TokensEscaped(w, tail, []);
    assert [] + w == w;
  }

  /** The tokenizer gives quoted words back, except that it drops the empty ones. */
  lemma {:induction false} TokenizeQuoted(words: seq<string>)
    ensures TokensFrom(JoinQuoted(words), NO_QUOTE, []) == NonEmpty(words)
    decreases |words|
  {
    if |words| == 1 {
      assert ShellQuote(words[0]) + "" == ShellQuote(words[0]);
      TokensQuoted(words[0], "");
    } else if |words| > 1 {
      var rest := JoinQuoted(words[1..]);
      assert ShellQuote(words[0]) + " " + rest == ShellQuote(words[0]) + (" " + rest);
      TokensQuoted(words[0], " " + rest);
      TokensBlank(rest, words[0]);
      TokenizeQuoted(words[1..]);
    }
  }

  lemma TokensBlank(rest: string, current: string)
    ensures TokensFrom(" " + rest, NO_QUOTE, current)
         == (if |current| > 0 then [current] else []) + TokensFrom(rest, NO_QUOTE, [])
  {
    assert (" " + rest)[1..] == rest;
  }

  lemma {:induction false} NonEmptyAll(words: seq<string>)
    ensures |NonEmpty(words)| <= |words|
    ensures NonEmpty(words) == words <==> forall k | 0 <= k < |words| :: words[k] != []
    decreases |words|
  {
    if words != [] {
      NonEmptyAll(words[1..]);
      if words[0] == [] {
        assert |NonEmpty(words)| < |words|;
      } else {
        assert NonEmpty(words) == words <==> NonEmpty(words[1..]) == words[1..];
        assert words == [words[0]] + words[1..];
      }
    }
  }

  /** Exactly the lists without empty words survive quoting and tokenizing. */
  lemma TokenizeRoundTrip(words: seq<string>)
    ensures TokensFrom(JoinQuoted(words), NO_QUOTE, []) == words <==> forall k | 0 <= k < |words| :: words[k] != []
  {
    TokenizeQuoted(words);
    NonEmptyAll(words);
  }
}
