/**
 The bounded log buffer of a run: complete lines, oldest evicted first.
 */
module LogBuffers {
  import opened LogLines

  type Time = int

  datatype Entry = Entry(at: Time, line: Bytes)

  function Total(entries: seq<Entry>): nat {
    if entries == [] then 0 else |entries[0].line| + Total(entries[1..])
  }

  /** Evicting from the front until what is left fits. */
  function Fit(entries: seq<Entry>, maxBytes: nat): seq<Entry> {
    if Total(entries) <= maxBytes then entries else Fit(entries[1..], maxBytes)
  }

  /** Evicting from the front whatever is older than the cutoff, or does not fit. */
  function Trim(entries: seq<Entry>, cutoff: Time, maxBytes: nat): seq<Entry> {
    if entries != [] && (entries[0].at < cutoff || Total(entries) > maxBytes) then Trim(entries[1..], cutoff, maxBytes)
    else entries
  }

  function Cut(line: Bytes, maxLine: nat): Bytes {
    if |line| > maxLine then line[..maxLine] else line
  }

  /** The entry a line becomes: truncated and ended by a newline, or none if that alone is too long. */
  function AcceptLine(at: Time, line: Bytes, maxLine: nat, maxBytes: nat): seq<Entry> {
    if |Cut(line, maxLine)| + 1 > maxBytes then [] else [Entry(at, Cut(line, maxLine) + ['\n'])]
  }

  /** The entries that lines become. */
  function Accept(at: Time, lines: seq<Bytes>, maxLine: nat, maxBytes: nat): seq<Entry> {
    if lines == [] then []
    else AcceptLine(at, lines[0], maxLine, maxBytes) + Accept(at, lines[1..], maxLine, maxBytes)
  }

  function Contents(entries: seq<Entry>): Bytes {
    if entries == [] then [] else Contents(entries[..|entries| - 1]) + entries[|entries| - 1].line
  }

  lemma {:induction false} TotalAppend(a: seq<Entry>, b: seq<Entry>)
    ensures Total(a + b) == Total(a) + Total(b)
    decreases |a|
  {
    if a == [] {
      assert a + b == b;
    } else {
      assert (a + b)[1..] == a[1..] + b;
      TotalAppend(a[1..], b);
    }
  }

  /** Fitting is a suffix, and the longest one: with one more entry it would not fit. */
  lemma {:induction false} FitIsLongest(entries: seq<Entry>, maxBytes: nat, drop: nat)
    requires drop <= |entries|
    ensures var kept := Fit(entries, maxBytes);
            && |kept| <= |entries| && kept == entries[|entries| - |kept|..]
            && Total(kept) <= maxBytes
            && (drop < |entries| - |kept| ==> Total(entries[drop..]) > maxBytes)
    decreases |entries|
  {
    if Total(entries) > maxBytes {
      FitIsLongest(entries[1..], maxBytes, if drop > 0 then drop - 1 else 0);
      if drop > 0 {
        assert entries[1..][drop - 1..] == entries[drop..];
      } else {
        assert entries[0..] == entries;
      }
    }
  }

  /** A trim by age and size keeps a suffix that is young enough at its start and fits, and drops no entry too many. */
  lemma {:induction false} TrimExactly(entries: seq<Entry>, cutoff: Time, maxBytes: nat, drop: nat)
    requires drop <= |entries|
    ensures var kept := Trim(entries, cutoff, maxBytes);
            && |kept| <= |entries| && kept == entries[|entries| - |kept|..]
            && Total(kept) <= maxBytes && (kept != [] ==> kept[0].at >= cutoff)
            && (drop < |entries| - |kept| ==> entries[drop].at < cutoff || Total(entries[drop..]) > maxBytes)
    decreases |entries|
  {
    if entries != [] && (entries[0].at < cutoff || Total(entries) > maxBytes) {
      TrimExactly(entries[1..], cutoff, maxBytes, if drop > 0 then drop - 1 else 0);
      if drop > 0 {
        assert entries[1..][drop - 1..] == entries[drop..];
      } else {
        assert entries[0..] == entries;
      }
    }
  }

  /** Evicting early loses nothing that would have been kept later. */
  lemma {:induction false} FitTwice(a: seq<Entry>, b: seq<Entry>, maxBytes: nat)
    ensures Fit(Fit(a, maxBytes) + b, maxBytes) == Fit(a + b, maxBytes)
    decreases |a|
  {
    if Total(a) > maxBytes {
      TotalAppend(a, b);
      assert (a + b)[1..] == a[1..] + b;
      FitTwice(a[1..], b, maxBytes);
    }
  }

  lemma AcceptFirst(at: Time, line: Bytes, more: seq<Bytes>, added: seq<Entry>, maxLine: nat, maxBytes: nat)
    ensures added + Accept(at, [line] + more, maxLine, maxBytes)
         == (added + AcceptLine(at, line, maxLine, maxBytes)) + Accept(at, more, maxLine, maxBytes)
  {
    assert ([line] + more)[1..] == more;
  }

  lemma AppendFits(accepted: seq<Entry>, entries: seq<Entry>, e: Entry, maxBytes: nat)
    requires |entries| <= |accepted| && entries == accepted[|accepted| - |entries|..]
    ensures Total(entries + [e]) == Total(entries) + |e.line|
    ensures entries + [e] == (accepted + [e])[|accepted| - |entries|..]
    ensures entries == Fit(accepted, maxBytes) ==> Fit(entries + [e], maxBytes) == Fit(accepted + [e], maxBytes)
  {
    TotalAppend(entries, [e]);
    FitTwice(accepted, [e], maxBytes);
  }

  class LogBuffer {
    const maxBytes: nat
    const maxLineBytes: nat
    var entries: seq<Entry>
    var bytes: nat
    /** Everything accepted so far, and whether an age trim has dropped any of it. */
    ghost var accepted: seq<Entry>
    ghost var aged: bool

    ghost predicate Valid()
      reads this
    {
      && bytes == Total(entries) <= maxBytes
      && |entries| <= |accepted| && entries == accepted[|accepted| - |entries|..]
      && (!aged ==> entries == Fit(accepted, maxBytes))
    }

    constructor (maxBytesLimit: int, maxLineLimit: int)
      ensures Valid() && accepted == [] && !aged
      ensures maxBytes == (if maxBytesLimit <= 0 then 1048576 else maxBytesLimit)
      ensures maxLineBytes == (if maxLineLimit <= 0 then 65536 else maxLineLimit)
    {
      maxBytes := if maxBytesLimit <= 0 then 1048576 else maxBytesLimit;
      maxLineBytes := if maxLineLimit <= 0 then 65536 else maxLineLimit;
      entries, bytes, accepted, aged := [], 0, [], false;
    }

    method AppendAt(at: Time, data: Bytes)
      requires Valid()
      modifies this
      ensures Valid() && aged == old(aged)
      ensures accepted == old(accepted) + Accept(at, Lines(data), maxLineBytes, maxBytes)
    {
      var rest := data;
      ghost var all := old(accepted) + Accept(at, Lines(data), maxLineBytes, maxBytes);
      while |rest| > 0
        invariant Valid() && aged == old(aged)
        invariant accepted + Accept(at, Lines(rest), maxLineBytes, maxBytes) == all
        decreases |rest|
      {
        var line, next := NextLine(rest);
        AcceptFirst(at, line, Lines(next), accepted, maxLineBytes, maxBytes);
        rest := next;
        AppendLine(at, line);
      }
    }

    method AppendLine(at: Time, data: Bytes)
      requires Valid()
      modifies this
      ensures Valid() && aged == old(aged)
      ensures accepted == old(accepted) + AcceptLine(at, data, maxLineBytes, maxBytes)
    {
      var line := data;
      if |line| > maxLineBytes {
        line := line[..maxLineBytes];
      }
      line := line + ['\n'];
      if |line| > maxBytes {
        return;
      }
      AppendFits(accepted, entries, Entry(at, line), maxBytes);
      accepted := accepted + [Entry(at, line)];
      entries := entries + [Entry(at, line)];
      bytes := bytes + |line|;
      TrimLocked(None);
    }

    /** Evicts from the front, by age when there is a cutoff and by size in any case. */
    method TrimLocked(cutoff: Cutoff)
      requires bytes == Total(entries)
      requires |entries| <= |accepted| && entries == accepted[|accepted| - |entries|..]
      modifies `entries, `bytes
      ensures entries == match cutoff case None => Fit(old(entries), maxBytes) case Before(t) => Trim(old(entries), t, maxBytes)
      ensures bytes == Total(entries) <= maxBytes
      ensures |entries| <= |accepted| && entries == accepted[|accepted| - |entries|..]
    {
      while |entries| > 0 && ((cutoff.Before? && entries[0].at < cutoff.t) || bytes > maxBytes)
        invariant bytes == Total(entries)
        invariant |entries| <= |accepted| && entries == accepted[|accepted| - |entries|..]
        invariant match cutoff
                  case None => Fit(entries, maxBytes) == Fit(old(entries), maxBytes)
                  case Before(t) => Trim(entries, t, maxBytes) == Trim(old(entries), t, maxBytes)
      {
        bytes := bytes - |entries[0].line|;
        entries := entries[1..];
      }
    }

    method TrimBefore(cutoff: Time)
      requires Valid()
      modifies this
      ensures Valid() && accepted == old(accepted)
      ensures entries == Trim(old(entries), cutoff, maxBytes)
      ensures aged == (old(aged) || entries != old(entries))
    {
      TrimLocked(Before(cutoff));
      aged := aged || entries != old(entries);
    }

    method Bytes() returns (result: Bytes)
      ensures result == Contents(entries)
    {
      result := [];
      for i := 0 to |entries|
        invariant result == Contents(entries[..i])
      {
        assert entries[..i + 1][..i] == entries[..i];
        result := result + entries[i].line;
      }
      assert entries[..|entries|] == entries;
    }
  }

  datatype Cutoff = None | Before(t: Time)

  /**
   What is kept of a line is its beginning, as much as the limit allows, and a newline; only a line that
   does not fit the buffer even so is not kept at all.
   */
  lemma AcceptedIsBeginning(at: Time, line: Bytes, maxLine: nat, maxBytes: nat)
    ensures var kept := AcceptLine(at, line, maxLine, maxBytes);
            var size := if |line| <= maxLine then |line| else maxLine;
            && (kept == [] <==> size + 1 > maxBytes)
            && (kept != [] ==> |kept| == 1 && kept[0].at == at && |kept[0].line| == size + 1
                               && kept[0].line[size] == '\n' && kept[0].line[..size] <= line)
  {
    if |line| <= maxLine {
      assert (line + ['\n'])[..|line|] == line;
    } else {
      assert (line[..maxLine] + ['\n'])[..maxLine] == line[..maxLine];
    }
  }

  /** One step of the one-shot split. */
  method NextLine(data: Bytes) returns (line: Bytes, rest: Bytes)
    requires data != []
    ensures Lines(data) == [line] + Lines(rest)
    ensures |rest| < |data|
  {
    var end := 0;
    while end < |data| && data[end] != '\r' && data[end] != '\n'
      invariant end <= |data| && forall k | 0 <= k < end :: !IsBreak(data[k])
    {
      end := end + 1;
    }
    if end == |data| {
      return data, [];
    }
    BreakIsFirst(data, end);
    line := data[..end];
    rest := data[end + 1..];
    if data[end] == '\r' && |rest| > 0 && rest[0] == '\n' {
      rest := rest[1..];
    }
    assert rest == Rest(data);
  }

  /** What becomes of a line on its way into the buffer: lost at a full queue, or appended at some time. */
  datatype Fate = Dropped | Taken(at: Time)

  /** The entries one line becomes under its fate. */
  function Outcome(line: Bytes, fate: Fate, maxLine: nat, maxBytes: nat): seq<Entry> {
    match fate
    case Dropped => []
    case Taken(at) => AcceptLine(at, line, maxLine, maxBytes)
  }

  /** The entries that lines become when the k-th has the k-th fate. */
  function Delivered(lines: seq<Bytes>, fates: nat -> Fate, maxLine: nat, maxBytes: nat): seq<Entry> {
    if lines == [] then []
    else
      var last := |lines| - 1;
      Delivered(lines[..last], fates, maxLine, maxBytes) + Outcome(lines[last], fates(last), maxLine, maxBytes)
  }

  /** The lines that are not lost. */
  function Kept(lines: seq<Bytes>, fates: nat -> Fate): seq<Bytes> {
    if lines == [] then []
    else
      var last := |lines| - 1;
      Kept(lines[..last], fates) + if fates(last).Dropped? then [] else [lines[last]]
  }

  /**
   A run's output on its way into its buffer: scanned as it arrives in pieces, each line lost or
   appended on its own with a newline, and the losses counted. The buffer accepts what the lines of
   the whole output become under their fates.
   */
  method Stream(pieces: seq<Bytes>, buffer: LogBuffer, fates: nat -> Fate) returns (dropped: nat)
    requires buffer.Valid() && forall k | 0 <= k < |pieces| :: pieces[k] != []
    modifies buffer
    ensures buffer.Valid() && buffer.aged == old(buffer.aged)
    ensures var lines := Lines(Flatten(pieces));
            && buffer.accepted == old(buffer.accepted) + Delivered(lines, fates, buffer.maxLineBytes, buffer.maxBytes)
            && dropped == |lines| - |Kept(lines, fates)|
  {
    var lines := Scan(pieces);
    dropped := 0;
    for i := 0 to |lines|
      invariant buffer.Valid() && buffer.aged == old(buffer.aged)
      invariant buffer.accepted
             == old(buffer.accepted) + Delivered(lines[..i], fates, buffer.maxLineBytes, buffer.maxBytes)
      invariant dropped == i - |Kept(lines[..i], fates)|
    {
      LinesBreakFree(Flatten(pieces), i);
      FatesMore(lines, fates, i, old(buffer.accepted), buffer.maxLineBytes, buffer.maxBytes);
      var lost := Offer(lines[i], fates(i), buffer);
      if lost {
        dropped := dropped + 1;
      }
    }
    assert lines[..|lines|] == lines;
  }

  lemma FatesMore(lines: seq<Bytes>, fates: nat -> Fate, i: nat, before: seq<Entry>, maxLine: nat, maxBytes: nat)
    requires i < |lines|
    ensures before + Delivered(lines[..i + 1], fates, maxLine, maxBytes)
         == (before + Delivered(lines[..i], fates, maxLine, maxBytes)) + Outcome(lines[i], fates(i), maxLine, maxBytes)
    ensures |Kept(lines[..i + 1], fates)| == |Kept(lines[..i], fates)| + (if fates(i).Dropped? then 0 else 1)
  {
    assert lines[..i + 1][..i] == lines[..i];
  }

  /** One line offered to the queue: lost, or written to the buffer. */
  method Offer(line: Bytes, fate: Fate, buffer: LogBuffer) returns (lost: bool)
    requires buffer.Valid() && BreakFree(line)
    modifies buffer
    ensures buffer.Valid() && buffer.aged == old(buffer.aged) && lost == fate.Dropped?
    ensures buffer.accepted == old(buffer.accepted) + Outcome(line, fate, buffer.maxLineBytes, buffer.maxBytes)
  {
    lost := fate.Dropped?;
    if !lost {
      Deliver(line, buffer, fate.at);
    }
  }

  /** At one time, lines delivered one by one become what those not lost become when appended together. */
  lemma {:induction false} DeliveredAtOnce(lines: seq<Bytes>, fates: nat -> Fate, at: Time, maxLine: nat, maxBytes: nat)
    requires forall k | 0 <= k < |lines| && fates(k).Taken? :: fates(k).at == at
    ensures Delivered(lines, fates, maxLine, maxBytes) == Accept(at, Kept(lines, fates), maxLine, maxBytes)
    decreases |lines|
  {
    if lines != [] {
      var last := |lines| - 1;
      DeliveredAtOnce(lines[..last], fates, at, maxLine, maxBytes);
      AcceptFate(at, Kept(lines[..last], fates), lines[last], fates(last), maxLine, maxBytes);
    }
  }

  lemma AcceptFate(at: Time, kept: seq<Bytes>, line: Bytes, fate: Fate, maxLine: nat, maxBytes: nat)
    requires fate.Taken? ==> fate.at == at
    ensures Accept(at, kept, maxLine, maxBytes) + Outcome(line, fate, maxLine, maxBytes)
         == Accept(at, kept + (if fate.Dropped? then [] else [line]), maxLine, maxBytes)
  {
    if fate.Dropped? {
      assert kept + [] == kept;
    } else {
      AcceptLast(at, kept, line, maxLine, maxBytes);
    }
  }

  /** The lines not lost are all of them exactly when none is lost. */
  lemma {:induction false} KeptAll(lines: seq<Bytes>, fates: nat -> Fate)
    ensures |Kept(lines, fates)| <= |lines|
    ensures Kept(lines, fates) == lines <==> forall k | 0 <= k < |lines| :: fates(k).Taken?
    decreases |lines|
  {
    if lines != [] {
      var last := |lines| - 1;
      KeptAll(lines[..last], fates);
      if fates(last).Taken? {
        KeptLast(lines, Kept(lines[..last], fates));
      } else {
        assert !fates(last).Taken?;
      }
    }
  }

  lemma KeptLast(lines: seq<Bytes>, kept: seq<Bytes>)
    requires lines != []
    ensures kept + [lines[|lines| - 1]] == lines <==> kept == lines[..|lines| - 1]
  {
    if kept + [lines[|lines| - 1]] == lines {
      assert kept == (kept + [lines[|lines| - 1]])[..|kept|];
    }
  }

  lemma {:induction false} AcceptLast(at: Time, lines: seq<Bytes>, line: Bytes, maxLine: nat, maxBytes: nat)
    ensures Accept(at, lines + [line], maxLine, maxBytes)
         == Accept(at, lines, maxLine, maxBytes) + AcceptLine(at, line, maxLine, maxBytes)
    decreases |lines|
  {
    if lines == [] {
      assert [] + [line] == [line];
      AcceptOnly(at, line, maxLine, maxBytes);
    } else {
      assert (lines + [line])[1..] == lines[1..] + [line];
      AcceptLast(at, lines[1..], line, maxLine, maxBytes);
    }
  }

  /** One line written to the buffer, with a newline. */
  method Deliver(line: Bytes, buffer: LogBuffer, at: Time)
    requires buffer.Valid() && BreakFree(line)
    modifies buffer
    ensures buffer.Valid() && buffer.aged == old(buffer.aged)
    ensures buffer.accepted == old(buffer.accepted) + AcceptLine(at, line, buffer.maxLineBytes, buffer.maxBytes)
  {
    OneLine(line);
    AcceptOnly(at, line, buffer.maxLineBytes, buffer.maxBytes);
    buffer.AppendAt(at, line + ['\n']);
  }

  lemma OneLine(line: Bytes)
    requires BreakFree(line)
    ensures Lines(line + ['\n']) == [line]
  {
    LinesOfUnlines([line]);
    assert Unlines([line]) == line + ['\n'];
  }

  lemma AcceptOnly(at: Time, line: Bytes, maxLine: nat, maxBytes: nat)
    ensures Accept(at, [line], maxLine, maxBytes) == AcceptLine(at, line, maxLine, maxBytes)
  {
  }
}
