/**
 Splitting output into lines: the one-shot split at LF, CR or CRLF, and the stateful splitter
 that a scanner drives over a stream arriving in pieces.
 */
module LogLines {
  type Bytes = seq<char>

  predicate IsBreak(c: char) { c == '\n' || c == '\r' }

  /** The first line break, or the length if there is none. */
  function BreakAt(s: Bytes): (i: nat)
    ensures i <= |s|
    ensures forall k | 0 <= k < i :: !IsBreak(s[k])
    ensures i < |s| ==> IsBreak(s[i])
  {
    if s == [] || IsBreak(s[0]) then 0 else 1 + BreakAt(s[1..])
  }

  /** How many characters a break takes: CRLF is one break. */
  function BreakLength(s: Bytes): (n: nat)
    requires s != [] && IsBreak(s[0])
    ensures 1 <= n <= |s|
  {
    if s[0] == '\r' && |s| > 1 && s[1] == '\n' then 2 else 1
  }

  /** The one-shot split of a whole text: the last line needs no break after it. */
  function Lines(s: Bytes): seq<Bytes>
    decreases |s|
  {
    if s == [] then []
    else
      var i := BreakAt(s);
      if i == |s| then [s] else [s[..i]] + Lines(Rest(s))
  }

  /** What follows the first line and its break. */
  function Rest(s: Bytes): Bytes
    requires BreakAt(s) < |s|
    ensures |Rest(s)| < |s|
  {
    s[BreakAt(s) + BreakLength(s[BreakAt(s)..])..]
  }

  /** Whether the first break is a CR that ends what has arrived, so that its LF may still come. */
  predicate CutCR(s: Bytes)
    requires BreakAt(s) < |s|
  {
    s[BreakAt(s)] == '\r' && BreakAt(s) + 1 == |s|
  }

  function Flatten(parts: seq<Bytes>): Bytes {
    if parts == [] then [] else parts[0] + Flatten(parts[1..])
  }

  /** What is left to split, given that the last line ended in a CR at the end of what had arrived. */
  function AfterCR(skipLF: bool, s: Bytes): Bytes {
    if skipLF && s != [] && s[0] == '\n' then s[1..] else s
  }

  // ---------- What the split means ----------

  predicate BreakFree(s: Bytes) { forall k | 0 <= k < |s| :: !IsBreak(s[k]) }

  /** Lines as they are delivered: each with a newline after it. */
  function Unlines(lines: seq<Bytes>): Bytes {
    if lines == [] then [] else lines[0] + ['\n'] + Unlines(lines[1..])
  }

  /** No line contains a break. */
  lemma {:induction false} LinesBreakFree(s: Bytes, k: nat)
    requires k < |Lines(s)|
    ensures BreakFree(Lines(s)[k])
    decreases |s|
  {
    if BreakAt(s) < |s| && k > 0 {
      LinesBreakFree(Rest(s), k - 1);
    }
  }

  /** Delivering lines and splitting what was delivered gives them back. */
  lemma {:induction false} LinesOfUnlines(lines: seq<Bytes>)
    requires forall k | 0 <= k < |lines| :: BreakFree(lines[k])
    ensures Lines(Unlines(lines)) == lines
    decreases |lines|
  {
    if lines != [] {
      var u, n := Unlines(lines), |lines[0]|;
      assert u[..n] == lines[0] && u[n] == '\n' && u[n..][0] == '\n';
      BreakIsFirst(u, n);
      assert Rest(u) == Unlines(lines[1..]);
      LinesOfUnlines(lines[1..]);
    }
  }

  predicate IsBreakText(b: Bytes) { b == "\n" || b == "\r" || b == "\r\n" }

  /** Lines written with any breaks behind them, and a last line without one. */
  function Broken(lines: seq<Bytes>, breaks: seq<Bytes>, last: Bytes): Bytes
    requires |lines| == |breaks|
  {
    if lines == [] then last else lines[0] + breaks[0] + Broken(lines[1..], breaks[1..], last)
  }

  /** No CR is followed by an LF that was meant as a break of its own. */
  predicate Unambiguous(lines: seq<Bytes>, breaks: seq<Bytes>)
    requires |lines| == |breaks|
  {
    forall k | 0 < k < |lines| :: breaks[k - 1] == "\r" && lines[k] == [] ==> breaks[k] != "\n"
  }

  lemma BrokenStarts(lines: seq<Bytes>, breaks: seq<Bytes>, last: Bytes)
    requires |lines| == |breaks| && (forall k | 0 <= k < |lines| :: BreakFree(lines[k]) && IsBreakText(breaks[k]))
    requires BreakFree(last) && (lines != [] && lines[0] == [] ==> breaks[0] != "\n")
    ensures var s := Broken(lines, breaks, last); s == [] || s[0] != '\n'
  {
    if lines != [] && lines[0] == [] {
      var s := Broken(lines, breaks, last);
      assert s[0] == breaks[0][0];
    }
  }

  /** What follows a line and its break, whichever break that is. */
  lemma RestAfterBreak(line: Bytes, b: Bytes, rest: Bytes)
    requires BreakFree(line) && IsBreakText(b) && (b == "\r" ==> rest == [] || rest[0] != '\n')
    ensures var s := line + b + rest; BreakAt(s) == |line| && |line| < |s| && Rest(s) == rest
  {
    var s := line + b + rest;
    assert s[|line|] == b[0] && forall k | 0 <= k < |line| :: s[k] == line[k];
    BreakIsFirst(s, |line|);
    var after := s[|line|..];
    assert after == b + rest;
    assert BreakLength(after) == |b| by {
      if b == "\r\n" {
        assert after[1] == '\n';
      } else if b == "\r" {
        assert |after| > 1 ==> after[1] == rest[0];
      }
    }
    assert s[|line| + |b|..] == rest;
  }

  /** Whatever breaks its lines were written with, CR, LF or CRLF, a text splits into just these lines. */
  lemma {:induction false} LinesOfBroken(lines: seq<Bytes>, breaks: seq<Bytes>, last: Bytes)
    requires |lines| == |breaks| && (forall k | 0 <= k < |lines| :: BreakFree(lines[k]) && IsBreakText(breaks[k]))
    requires BreakFree(last) && Unambiguous(lines, breaks)
    ensures Lines(Broken(lines, breaks, last)) == lines + (if last == [] then [] else [last])
    decreases |lines|
  {
    var s := Broken(lines, breaks, last);
    if lines == [] {
      if last != [] {
        NoBreakIn(last);
      }
    } else {
      var rest := Broken(lines[1..], breaks[1..], last);
      if breaks[0] == "\r" {
        BrokenStarts(lines[1..], breaks[1..], last);
      }
      RestAfterBreak(lines[0], breaks[0], rest);
      assert s[..|lines[0]|] == lines[0];
      assert Unambiguous(lines[1..], breaks[1..]);
      LinesOfBroken(lines[1..], breaks[1..], last);
      assert lines == [lines[0]] + lines[1..];
    }
  }

  lemma {:induction false} NoBreakIn(s: Bytes)
    requires BreakFree(s)
    ensures BreakAt(s) == |s|
  {
    if s != [] {
      NoBreakIn(s[1..]);
    }
  }

  datatype Token = NoToken | Token(line: Bytes)

  /** What one call does: skip the LF of a CRLF cut in two, cut off a line, or ask for more. */
  predicate Splits(skipLF: bool, data: Bytes, atEOF: bool, skipLF': bool, advance: nat, token: Token) {
    var i := BreakAt(data);
    && advance <= |data|
    && if skipLF && data != [] && data[0] == '\n' then advance == 1 && token == NoToken && !skipLF'
       else if i < |data| then
         && token == Token(data[..i]) && advance == i + BreakLength(data[i..])
         && skipLF' == (!atEOF && CutCR(data))
       else
         && skipLF' == (skipLF && data == [])
         && if atEOF && data != [] then token == Token(data) && advance == |data|
            else token == NoToken && advance == 0
  }

  class LineSplitter {
    var skipLF: bool

    constructor ()
      ensures !skipLF
    {
      skipLF := false;
    }

    /** One call of the split function on the buffered data. */
    method Split(data: Bytes, atEOF: bool) returns (advance: nat, token: Token)
      modifies this
      ensures Splits(old(skipLF), data, atEOF, skipLF, advance, token)
    {
      if skipLF && |data| > 0 {
        skipLF := false;
        if data[0] == '\n' {
          return 1, NoToken;
        }
      }
      var i := 0;
      while i < |data|
        invariant i <= |data|
        invariant forall k | 0 <= k < i :: !IsBreak(data[k])
        invariant skipLF == (old(skipLF) && data == [])
      {
        if data[i] != '\n' && data[i] != '\r' {
          i := i + 1;
          continue;
        }
        BreakIsFirst(data, i);
        advance := i + 1;
        if data[i] == '\r' {
          if advance < |data| && data[advance] == '\n' {
            advance := advance + 1;
          } else if advance == |data| && !atEOF {
            skipLF := true;
          }
        }
        return advance, Token(data[..i]);
      }
      if atEOF && |data| > 0 {
        return |data|, Token(data);
      }
      return 0, NoToken;
    }
  }

  lemma BreakIsFirst(s: Bytes, i: nat)
    requires i < |s| && IsBreak(s[i]) && forall k | 0 <= k < i :: !IsBreak(s[k])
    ensures BreakAt(s) == i
  {
  }

  lemma BreakAtPrefix(s: Bytes, t: Bytes)
    requires BreakAt(s) < |s|
    ensures BreakAt(s + t) == BreakAt(s)
  {
    BreakIsFirst(s + t, BreakAt(s));
  }

  lemma RestSplits(s: Bytes, t: Bytes)
    requires BreakAt(s) < |s|
    ensures BreakAt(s + t) == BreakAt(s) && Rest(s + t) == AfterCR(CutCR(s), Rest(s) + t)
  {
    var i, u := BreakAt(s), s + t;
    BreakAtPrefix(s, t);
    assert u[i..][0] == s[i..][0] == s[i];
    if i + 1 < |s| {
      assert u[i..][1] == s[i..][1] == s[i + 1];
      var n := BreakLength(s[i..]);
      assert BreakLength(u[i..]) == n;
      assert u[i + n..] == s[i + n..] + t;
    } else {
      RestAtEnd(s, t, i);
    }
  }

  lemma RestAtEnd(s: Bytes, t: Bytes, i: nat)
    requires BreakAt(s) == BreakAt(s + t) == i && i + 1 == |s|
    ensures Rest(s + t) == AfterCR(CutCR(s), Rest(s) + t)
  {
    assert Rest(s) + t == t;
    assert (s + t)[i..] == [s[i]] + t;
  }

  /** One line off a stream of which `s` has arrived and `t` is still to come. */
  lemma LineOff(s: Bytes, t: Bytes)
    requires BreakAt(s) < |s|
    ensures Lines(s + t) == [s[..BreakAt(s)]] + Lines(AfterCR(CutCR(s), Rest(s) + t))
  {
    RestSplits(s, t);
    assert (s + t)[..BreakAt(s)] == s[..BreakAt(s)];
  }

  function Emitted(token: Token): seq<Bytes> {
    match token
    case NoToken => []
    case Token(line) => [line]
  }

  /** A call of the splitter moves lines from what is left to split to what has been emitted. */
  lemma SplitMoves(skipLF: bool, data: Bytes, rest: Bytes, atEOF: bool, skipLF': bool, advance: nat, token: Token)
    requires Splits(skipLF, data, atEOF, skipLF', advance, token)
    requires atEOF ==> rest == [] && (skipLF ==> data == [])
    ensures Lines(AfterCR(skipLF, data + rest)) == Emitted(token) + Lines(AfterCR(skipLF', data[advance..] + rest))
  {
    if skipLF && data != [] && data[0] == '\n' {
      assert AfterCR(skipLF, data + rest) == data[advance..] + rest;
    } else if BreakAt(data) < |data| {
      LineCut(skipLF, data, rest, atEOF, skipLF', advance, token);
    } else {
      NoLineYet(skipLF, data, rest, atEOF, skipLF', advance, token);
    }
  }

  lemma LineCut(skipLF: bool, data: Bytes, rest: Bytes, atEOF: bool, skipLF': bool, advance: nat, token: Token)
    requires Splits(skipLF, data, atEOF, skipLF', advance, token)
    requires BreakAt(data) < |data| && !(skipLF && data[0] == '\n') && (atEOF ==> rest == [])
    ensures Lines(AfterCR(skipLF, data + rest)) == Emitted(token) + Lines(AfterCR(skipLF', data[advance..] + rest))
  {
    var i := BreakAt(data);
    assert AfterCR(skipLF, data + rest) == data + rest;
    LineOff(data, rest);
    assert data[advance..] == Rest(data);
    if atEOF {
      assert CutCR(data) ==> Rest(data) + rest == [];
    }
  }

  lemma NoLineYet(skipLF: bool, data: Bytes, rest: Bytes, atEOF: bool, skipLF': bool, advance: nat, token: Token)
    requires Splits(skipLF, data, atEOF, skipLF', advance, token)
    requires BreakAt(data) == |data| && (atEOF ==> rest == [])
    ensures Lines(AfterCR(skipLF, data + rest)) == Emitted(token) + Lines(AfterCR(skipLF', data[advance..] + rest))
  {
    if atEOF && data != [] {
      assert data + rest == data && data[advance..] + rest == [];
    } else {
      assert AfterCR(skipLF, data + rest) == AfterCR(skipLF', data[advance..] + rest);
    }
  }

  lemma FlattenNext(pieces: seq<Bytes>, read: nat, buffer: Bytes)
    requires read < |pieces|
    ensures buffer + Flatten(pieces[read..]) == (buffer + pieces[read]) + Flatten(pieces[read + 1..])
  {
    assert pieces[read..][0] == pieces[read] && pieces[read..][1..] == pieces[read + 1..];
  }

  /**
   The scanner's loop around the splitter, over a reader that returns the given pieces and then
   reports the end of the stream on its own: the lines are those of the whole text, however it
   was cut into pieces.
   */
  method Scan(pieces: seq<Bytes>) returns (lines: seq<Bytes>)
    requires forall k | 0 <= k < |pieces| :: pieces[k] != []
    ensures lines == Lines(Flatten(pieces))
  {
    var splitter := new LineSplitter();
    lines := [];
    var buffer: Bytes := [];
    var read, atEOF, done := 0, false, false;
    ghost var todo, left := Flatten(pieces), Lines(Flatten(pieces));
    assert pieces[0..] == pieces && buffer + Flatten(pieces) == Flatten(pieces);
    while !done
      invariant read <= |pieces| && (atEOF ==> read == |pieces|)
      invariant lines + left == Lines(Flatten(pieces))
      invariant todo == buffer + Flatten(pieces[read..]) && left == Lines(AfterCR(splitter.skipLF, todo))
      invariant atEOF && splitter.skipLF ==> buffer == []
      invariant done ==> left == []
      decreases !done, |pieces| - read, !atEOF, |buffer|
    {
      var token := NoToken;
      if buffer != [] || atEOF {
        token, buffer, todo, left := Advance(splitter, buffer, Flatten(pieces[read..]), atEOF, lines, left);
      }
      if token.Token? {
        lines := lines + [token.line];
      } else if atEOF {
        assert todo == [];
        done := true;
      } else if read < |pieces| {
        FlattenNext(pieces, read, buffer);
        buffer := buffer + pieces[read];
        read := read + 1;
      } else {
        atEOF := true;
      }
    }
  }

  lemma EmittedFirst(lines: seq<Bytes>, token: Token, left: seq<Bytes>)
    ensures lines + (Emitted(token) + left) == (lines + Emitted(token)) + left
    ensures token == NoToken ==> Emitted(token) + left == left
  {
  }

  method Advance(splitter: LineSplitter, data: Bytes, ghost rest: Bytes, atEOF: bool, ghost lines: seq<Bytes>,
                 ghost left: seq<Bytes>)
    returns (token: Token, buffer: Bytes, ghost todo: Bytes, ghost left': seq<Bytes>)
    requires atEOF ==> rest == [] && (splitter.skipLF ==> data == [])
    requires left == Lines(AfterCR(splitter.skipLF, data + rest))
    modifies splitter
    ensures todo == buffer + rest && left' == Lines(AfterCR(splitter.skipLF, todo))
    ensures match token
            case Token(line) => (lines + [line]) + left' == lines + left && |buffer| < |data|
            case NoToken => left' == left && (data != [] ==> !splitter.skipLF) && (atEOF ==> buffer == [])
    ensures atEOF ==> !splitter.skipLF || buffer == []
  {
    var advance;
    ghost var skipLF := splitter.skipLF;
    advance, token := splitter.Split(data, atEOF);
    SplitMoves(skipLF, data, rest, atEOF, splitter.skipLF, advance, token);
    buffer := data[advance..];
    todo := buffer + rest;
    left' := Lines(AfterCR(splitter.skipLF, todo));
    EmittedFirst(lines, token, left');
  }
}
