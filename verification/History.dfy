/**
 The run history: tickets taken when runs end, consumed strictly in order, and the bounded,
 newest-first file they feed.
 */
module History {
  import opened EventLog
  import opened Options
  import opened RunCore

  const HIST_KEEP := 20

  /** How a history write ends: it may also take effect and still report an error. */
  datatype WriteOutcome = Written | WrittenButFailed | NotWritten
  {
    predicate failed() { !Written? }
    predicate applied() { !NotWritten? }
  }

  datatype Writing = Writing(record: Record, outcome: WriteOutcome)

  /**
   `issued[k]` is the record of ticket k + 1; `next` is the ticket whose turn it is; `appended`
   is set between its write and its leaving; `written` is every write so far, in order.
   */
  datatype Ledger = Ledger(issued: seq<Record>, next: nat, appended: Option<WriteOutcome>, written: seq<Writing>,
                           file: map<JobId, seq<Record>>, prior: map<JobId, seq<Record>>)

  function Issue(l: Ledger, record: Record): Ledger { l.(issued := l.issued + [record]) }

  function Lookup(file: map<JobId, seq<Record>>, j: JobId): seq<Record> {
    if j in file then file[j] else []
  }

  function Truncate(records: seq<Record>): seq<Record> {
    if |records| > HIST_KEEP then records[..HIST_KEEP] else records
  }

  function AppendRecord(file: map<JobId, seq<Record>>, record: Record): map<JobId, seq<Record>> {
    file[record.job := Truncate([record] + Lookup(file, record.job))]
  }

  function Write(file: map<JobId, seq<Record>>, x: Writing): map<JobId, seq<Record>> {
    if x.outcome.applied() then AppendRecord(file, x.record) else file
  }

  function Append(l: Ledger, outcome: WriteOutcome): Ledger
    requires 0 < l.next <= |l.issued|
  {
    var x := Writing(l.issued[l.next - 1], outcome);
    l.(appended := Some(outcome), written := l.written + [x], file := Write(l.file, x))
  }

  function Leave(l: Ledger): Ledger { l.(next := l.next + 1, appended := None) }

  // ---------- Order and contents ----------

  /** Writes happen in ticket order, each exactly once; the tickets from `next` on are outstanding. */
  ghost predicate LedgerInv(l: Ledger) {
    && 0 < l.next <= |l.issued| + 1
    && (l.appended.Some? ==> l.next <= |l.issued|)
    && |l.written| == l.next - 1 + (if l.appended.Some? then 1 else 0)
    && (forall k | 0 <= k < |l.written| :: l.written[k].record == l.issued[k])
    && l.file == Replay(l.prior, l.written)
  }

  function Replay(prior: map<JobId, seq<Record>>, written: seq<Writing>): map<JobId, seq<Record>> {
    if written == [] then prior
    else Write(Replay(prior, written[..|written| - 1]), written[|written| - 1])
  }

  /** The records of a job that reached the file, newest first. */
  function Newest(written: seq<Writing>, j: JobId): seq<Record> {
    if written == [] then []
    else
      var rest, x := Newest(written[..|written| - 1], j), written[|written| - 1];
      if x.outcome.applied() && x.record.job == j then [x.record] + rest else rest
  }

  lemma TruncateCons(x: Record, records: seq<Record>)
    ensures Truncate([x] + Truncate(records)) == Truncate([x] + records)
  {
  }

  lemma PutFirst(x: Record, newest: seq<Record>, prior: seq<Record>)
    ensures Truncate([x] + Truncate(newest + prior)) == Truncate(([x] + newest) + prior)
    ensures newest == [] ==> Truncate([x] + prior) == Truncate(([x] + newest) + prior)
  {
    TruncateCons(x, newest + prior);
    assert [x] + (newest + prior) == ([x] + newest) + prior;
  }

  /** The file holds the latest 20 records that reached it, ahead of what it held before. */
  lemma {:induction false} ReplayIsNewest(prior: map<JobId, seq<Record>>, written: seq<Writing>, j: JobId)
    ensures Lookup(Replay(prior, written), j) ==
            if Newest(written, j) == [] then Lookup(prior, j) else Truncate(Newest(written, j) + Lookup(prior, j))
    decreases |written|
  {
    if written != [] {
      var rest, x := written[..|written| - 1], written[|written| - 1];
      ReplayIsNewest(prior, rest, j);
      if x.outcome.applied() && x.record.job == j {
        PutFirst(x.record, Newest(rest, j), Lookup(prior, j));
      }
    }
  }

  lemma AppendKeeps(l: Ledger, outcome: WriteOutcome)
    requires LedgerInv(l) && l.appended.None? && l.next <= |l.issued|
    ensures LedgerInv(Append(l, outcome))
  {
    var l' := Append(l, outcome);
    assert l'.written[..|l'.written| - 1] == l.written;
  }

  lemma IssueKeeps(l: Ledger, record: Record)
    requires LedgerInv(l)
    ensures LedgerInv(Issue(l, record))
  {
  }
}
