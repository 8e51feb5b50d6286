/**
 What the run protocol guarantees in every behaviour, whatever the order of its steps and
 whatever the compiler, installer, executor, clock and disk answer.
 */
module RunTheorems {
  import opened EventLog
  import opened History
  import opened Options
  import opened RunCore
  import opened RunInvariant
  import opened RunProtocol
  import opened RunSinks
  import opened RunStories
  import opened RunThreads

  // ---------- Mutual exclusion ----------

  /** The executor has been called for the run, and the run has not ended. */
  predicate InFlight(w: World, r: RunId) { w.startCalls[r] > 0 && IsLive(w.core.runs, r) }

  lemma InFlightIsActive(w: World, r: RunId)
    requires Inv(w) && InFlight(w, r)
    ensures Holds(w.core.active, w.core.runs[r].job, r)
  {
    assert Agrees(w.core, CallsOf(w), r, w.pc[r]);
  }

  lemma MutualExclusion(ws: seq<World>, limits: Limits, prior: map<JobId, seq<Record>>, k: nat, r: RunId, q: RunId)
    requires Behaviour(ws, limits, prior) && k < |ws|
    ensures ws[k].startCalls[r] <= 1
    ensures InFlight(ws[k], r) && InFlight(ws[k], q) && ws[k].core.runs[r].job == ws[k].core.runs[q].job ==> r == q
  {
    var w := ws[k];
    AlwaysInv(ws, limits, prior, k);
    assert r in w.pc ==> Agrees(w.core, CallsOf(w), r, w.pc[r]);
    if InFlight(w, r) && InFlight(w, q) {
      InFlightIsActive(w, r);
      InFlightIsActive(w, q);
    }
  }

  predicate HasEnded(w: World, r: RunId) { r in w.used && !IsLive(w.core.runs, r) }

  /** No critical section brings an ended run back. */
  lemma FinishRevivesNone(c: Core, q: RunId, status: Ended, now: Time, gone: set<RunId>, r: RunId)
    requires !IsLive(c.runs, r)
    ensures !IsLive(Finish(c, q, status, now, gone).core.runs, r)
  {
  }

  lemma TableRevivesNone(w: World, limits: Limits, t: TableStep, q: RunId, now: Time, gone: set<RunId>, r: RunId)
    requires TableEnabled(w, limits, t, q, now, gone) && HasEnded(w, r)
    ensures !IsLive(TableEffect(w, t, q, now, gone).core.runs, r)
  {
    match t {
      case Start(j, queueLatest) =>
        if j in w.core.pending {
          FinishRevivesNone(w.core, w.core.pending[j], SkippedOverlap, now, gone, r);
        }
      case Stop => FinishRevivesNone(w.core, q, Killed, now, gone, r);
      case Prune =>
      case _ => FinishRevivesNone(w.core, q, Ending(w, t, q), now, gone, r);
    }
  }

  lemma EndedStays(w: World, limits: Limits, a: Action, r: RunId)
    requires Enabled(w, limits, a) && HasEnded(w, r)
    ensures HasEnded(Apply(w, limits, a), r) && Apply(w, limits, a).startCalls[r] == w.startCalls[r]
  {
    match a {
      case Table(t, q, now, gone) => TableRevivesNone(w, limits, t, q, now, gone, r);
      case Thread(m, q) => ThreadRevivesNone(w, m, q, r);
      case Sinking(_, _) =>
      case Recording(_, _) =>
      case Reading(_) =>
    }
  }

  lemma ThreadRevivesNone(w: World, m: ThreadStep, q: RunId, r: RunId)
    requires ThreadEnabled(w, m, q) && HasEnded(w, r)
    ensures HasEnded(ApplyThread(w, m, q), r) && ApplyThread(w, m, q).startCalls[r] == w.startCalls[r]
  {
  }

  lemma StepRevivesNone(w: World, limits: Limits, w': World, r: RunId)
    requires Step(w, limits, w') && HasEnded(w, r)
    ensures HasEnded(w', r) && w'.startCalls[r] == w.startCalls[r]
  {
    var a :| Enabled(w, limits, a) && w' == Apply(w, limits, a);
    EndedStays(w, limits, a, r);
  }

  /** A run that has ended, by a stop for one, is over: it is not revived, nor handed to the executor later. */
  lemma {:induction false} EndedForGood(ws: seq<World>, limits: Limits, prior: map<JobId, seq<Record>>, k: nat, m: nat,
                                        r: RunId)
    requires Behaviour(ws, limits, prior) && k <= m < |ws| && HasEnded(ws[k], r)
    ensures HasEnded(ws[m], r) && ws[m].startCalls[r] == ws[k].startCalls[r]
    decreases m
  {
    if k < m {
      EndedForGood(ws, limits, prior, k, m - 1, r);
      assert Follows(ws, limits, m);
      StepRevivesNone(ws[m - 1], limits, ws[m], r);
    }
  }

  // ---------- Live runs and hand-over ----------

  /** A job's live runs are its active and its held-back one, and the latter is its newest accepted request. */
  lemma LiveRuns(ws: seq<World>, limits: Limits, prior: map<JobId, seq<Record>>, k: nat, j: JobId, r: RunId)
    requires Behaviour(ws, limits, prior) && k < |ws|
    ensures var w := ws[k];
            (IsLive(w.core.runs, r) && w.core.runs[r].job == j
             <==> Holds(w.core.active, j, r) || Holds(w.core.pending, j, r))
    ensures var c := ws[k].core;
            (Holds(c.pending, j, r)
             <==> IsLive(c.runs, r) && c.runs[r].job == j && !Holds(c.active, j, r) && Latest(ws[k].accepted, j) == Some(r))
  {
    AlwaysInv(ws, limits, prior, k);
  }

  /** When a job's active run ends, its held-back run takes the slot in the same step, untouched and spawned. */
  ghost predicate HandedOver(c: Core, e: Effect, j: JobId)
    requires j in c.pending
  {
    && Holds(e.core.active, j, c.pending[j]) && j !in e.core.pending
    && c.pending[j] in e.core.runs && e.core.runs[c.pending[j]] == Fresh(j)
    && e.spawn == Some(c.pending[j])
  }

  lemma FinishHandsOver(c: Core, r: RunId, status: Ended, now: Time, gone: set<RunId>, j: JobId)
    requires CoreInv(c) && j in c.pending
    requires IsLive(c.runs, r) ==> gone <= EndedRuns(Marked(c, r, status, now))
    ensures if r == c.active[j] then HandedOver(c, Finish(c, r, status, now, gone), j)
            else IsLive(Finish(c, r, status, now, gone).core.runs, c.active[j])
  {
  }

  lemma EffectHandsOver(w: World, limits: Limits, t: TableStep, r: RunId, now: Time, gone: set<RunId>, j: JobId)
    requires CoreInv(w.core) && w.core.runs.Keys <= w.used
    requires TableEnabled(w, limits, t, r, now, gone) && j in w.core.pending
    requires !IsLive(TableEffect(w, t, r, now, gone).core.runs, w.core.active[j])
    ensures HandedOver(w.core, TableEffect(w, t, r, now, gone), j)
  {
    match t {
      case Start(_, _) =>
      case Stop => FinishHandsOver(w.core, r, Killed, now, gone, j);
      case Prune =>
      case _ => FinishHandsOver(w.core, r, Ending(w, t, r), now, gone, j);
    }
  }

  /** Whatever ends the active run of a job, its held-back run takes over in the same step. */
  lemma HandOver(w: World, limits: Limits, t: TableStep, r: RunId, now: Time, gone: set<RunId>, j: JobId)
    requires Inv(w) && TableEnabled(w, limits, t, r, now, gone) && j in w.core.pending
    requires !IsLive(ApplyTable(w, t, r, now, gone).core.runs, w.core.active[j])
    ensures var w', next := ApplyTable(w, t, r, now, gone), w.core.pending[j];
            && Holds(w'.core.active, j, next) && j !in w'.core.pending
            && next in w'.core.runs && w'.core.runs[next] == Fresh(j)
            && next in w'.pc && w'.pc[next] == Spawned
  {
    TableChanges(w, t, r, now, gone);
    EffectHandsOver(w, limits, t, r, now, gone, j);
  }

  /** Only a table step can end a run. */
  lemma OnlyTableStepsEnd(w: World, limits: Limits, a: Action, r: RunId)
    requires Enabled(w, limits, a) && IsLive(w.core.runs, r) && !IsLive(Apply(w, limits, a).core.runs, r)
    ensures a.Table?
  {
    if a.Thread? {
      ThreadEndsNone(w, a.m, a.r, r);
    }
  }

  lemma ThreadEndsNone(w: World, m: ThreadStep, q: RunId, r: RunId)
    requires ThreadEnabled(w, m, q) && IsLive(w.core.runs, r)
    ensures IsLive(ApplyThread(w, m, q).core.runs, r)
  {
  }

  /** A stop noted while the executor was being called is never lost. */
  lemma StopsForwarded(ws: seq<World>, limits: Limits, prior: map<JobId, seq<Record>>, k: nat, r: RunId)
    requires Behaviour(ws, limits, prior) && k < |ws|
    requires r in ws[k].core.runs && ws[k].core.runs[r].status == Running && ws[k].core.runs[r].stopRequested
    ensures r in ws[k].forwarded || (r in ws[k].pc && ws[k].pc[r].Stopping?)
  {
    AlwaysInv(ws, limits, prior, k);
    assert Holds(ws[k].core.active, ws[k].core.runs[r].job, r);
    assert Agrees(ws[k].core, CallsOf(ws[k]), r, ws[k].pc[r]);
  }

  // ---------- Stories and log lines ----------

  /** No run's events are ever out of order, and its story says exactly how it stands. */
  lemma StoriesInOrder(ws: seq<World>, limits: Limits, prior: map<JobId, seq<Record>>, k: nat, r: RunId)
    requires Behaviour(ws, limits, prior) && k < |ws|
    ensures var s := StoryOf(ws[k].hub.log, r);
            && !s.Broken?
            && (s.Untold? <==> r !in ws[k].used)
            && (s.Over? <==> HasEnded(ws[k], r))
  {
    AlwaysInv(ws, limits, prior, k);
    assert StoryOk(ws[k].core, Shown(ws[k].sinks, r), ws[k].used, r, StoryOf(ws[k].hub.log, r));
  }

  /** By the time a run's goroutine is done, every line its sink took has been shown, in order, before the end. */
  lemma EveryLineShown(ws: seq<World>, limits: Limits, prior: map<JobId, seq<Record>>, k: nat, r: RunId)
    requires Behaviour(ws, limits, prior) && k < |ws|
    requires r in ws[k].pc && ws[k].pc[r].Done? && r in ws[k].sinks
    ensures ws[k].sinks[r].closes == 1
    ensures StoryOf(ws[k].hub.log, r).Over? && StoryOf(ws[k].hub.log, r).lines == ws[k].sinks[r].delivered
  {
    var w := ws[k];
    AlwaysInv(ws, limits, prior, k);
    assert SinkOk(w.sinks[r]) && SinkAt(w.sinks[r], w.pc[r]);
    assert Agrees(w.core, CallsOf(w), r, w.pc[r]);
    assert StoryOk(w.core, Shown(w.sinks, r), w.used, r, StoryOf(w.hub.log, r));
  }

  /** A sink is never closed twice, and nothing is sent once it is closed. */
  lemma SinkClosedOnce(ws: seq<World>, limits: Limits, prior: map<JobId, seq<Record>>, k: nat, r: RunId, s: SinkStep)
    requires Behaviour(ws, limits, prior) && k < |ws| && r in ws[k].sinks
    ensures ws[k].sinks[r].closes <= 1
    ensures SinkEnabled(ws[k], s, r) && (s.Emit? || s.EndStream?) ==> ws[k].sinks[r].closes == 0
  {
    AlwaysInv(ws, limits, prior, k);
    assert SinkOk(ws[k].sinks[r]);
  }

  // ---------- Tickets and history ----------

  /** Exactly the ended runs have a ticket, one each, carrying the status shown last. */
  lemma OneTicketEach(ws: seq<World>, limits: Limits, prior: map<JobId, seq<Record>>, k: nat, r: RunId)
    requires Behaviour(ws, limits, prior) && k < |ws|
    ensures var issued := ws[k].ledger.issued;
            && (HasTicket(issued, r) <==> HasEnded(ws[k], r))
            && (forall m, n | 0 <= m < n < |issued| :: issued[m].run != issued[n].run)
            && (forall m | 0 <= m < |issued| ::
                  StoryOf(ws[k].hub.log, issued[m].run).Over? && StoryOf(ws[k].hub.log, issued[m].run).status == issued[m].status)
  {
    var w := ws[k];
    AlwaysInv(ws, limits, prior, k);
    StoriesInOrder(ws, limits, prior, k, r);
    forall m | 0 <= m < |w.ledger.issued|
      ensures StoryOf(w.hub.log, w.ledger.issued[m].run).Over?
           && StoryOf(w.hub.log, w.ledger.issued[m].run).status == w.ledger.issued[m].status
    {
      assert TicketOk(w.ledger.issued[m], m + 1 >= w.ledger.next, StoryOf(w.hub.log, w.ledger.issued[m].run));
    }
  }

  function Outstanding(w: World): int {
    2 * (w.sequence + 1 - w.ledger.next) - (if w.ledger.appended.Some? then 1 else 0)
  }

  /** The ticket lock cannot deadlock: while a ticket is held, its turn holder can move, and that is progress. */
  lemma HistoryMoves(ws: seq<World>, limits: Limits, prior: map<JobId, seq<Record>>, k: nat, outcome: WriteOutcome)
    requires Behaviour(ws, limits, prior) && k < |ws|
    ensures ws[k].holders == {} <==> Outstanding(ws[k]) == 0
    ensures ws[k].holders != {} ==>
              var h := if ws[k].ledger.appended.None? then AppendHistory(outcome) else LeaveHistory;
              && HistoryEnabled(ws[k], h, ws[k].ledger.next)
              && 0 <= Outstanding(ApplyHistory(ws[k], h, ws[k].ledger.next)) < Outstanding(ws[k])
  {
    var w := ws[k];
    AlwaysInv(ws, limits, prior, k);
    if w.holders != {} {
      var n :| n in w.holders;
      assert w.ledger.next in w.holders;
    } else {
      assert w.ledger.next !in w.holders;
    }
  }

  /** The ended runs of a job, newest first. */
  function EndedOf(issued: seq<Record>, j: JobId): seq<Record> {
    if issued == [] then []
    else
      var rest, x := EndedOf(issued[..|issued| - 1], j), issued[|issued| - 1];
      if x.job == j then [x] + rest else rest
  }

  lemma {:induction false} AllWritten(issued: seq<Record>, written: seq<Writing>, j: JobId)
    requires |written| == |issued| && forall k | 0 <= k < |written| :: written[k].record == issued[k] && written[k].outcome.Written?
    ensures Newest(written, j) == EndedOf(issued, j)
    decreases |issued|
  {
    if issued != [] {
      AllWritten(issued[..|issued| - 1], written[..|written| - 1], j);
    }
  }

  function Latest20(records: seq<Record>): seq<Record> { if |records| <= 20 then records else records[..20] }

  /** Once drained without a failed write, a job's history is its latest 20 ended runs ahead of older records. */
  lemma DrainedHistory(ws: seq<World>, limits: Limits, prior: map<JobId, seq<Record>>, k: nat, j: JobId)
    requires Behaviour(ws, limits, prior) && k < |ws| && ws[k].holders == {}
    requires forall n | 0 <= n < |ws[k].ledger.written| :: ws[k].ledger.written[n].outcome.Written?
    ensures var l := ws[k].ledger;
            Lookup(l.file, j) ==
            if EndedOf(l.issued, j) == [] then Lookup(l.prior, j) else Latest20(EndedOf(l.issued, j) + Lookup(l.prior, j))
  {
    var l := ws[k].ledger;
    AlwaysInv(ws, limits, prior, k);
    HistoryMoves(ws, limits, prior, k, Written);
    AllWritten(l.issued, l.written, j);
    ReplayIsNewest(l.prior, l.written, j);
  }

  // ---------- Retained events ----------

  /** The events kept for replay are the most recent ones, numbered without gaps up to the current one. */
  lemma RetainedEvents(ws: seq<World>, limits: Limits, prior: map<JobId, seq<Record>>, k: nat, m: nat)
    requires Behaviour(ws, limits, prior) && k < |ws|
    ensures var h := ws[k].hub;
            && |h.events| == Min(h.eventID, limits.maxRuns * 8)
            && (m < |h.events| ==> h.events[m].id == h.eventID - |h.events| + m + 1)
  {
    AlwaysInv(ws, limits, prior, k);
  }

  /** What any subscriber has been sent is ordered, without duplicates, and complete unless its channel was full. */
  lemma SubscribersSeeOrder(ws: seq<World>, limits: Limits, prior: map<JobId, seq<Record>>, k: nat, i: nat)
    requires Behaviour(ws, limits, prior) && k < |ws| && i in ws[k].hub.subs
    ensures var h, s := ws[k].hub, ws[k].hub.subs[i];
            && (forall m, n | 0 <= m < n < |s.sent| :: s.sent[m].id < s.sent[n].id)
            && (s.open && !s.dropped ==> s.from <= |h.log| && s.sent == h.log[s.from..])
  {
    AlwaysInv(ws, limits, prior, k);
    assert SubscriberSound(ws[k].hub.subs[i], ws[k].hub.log);
  }

  // ---------- Progress ----------

  /** No execute goroutine is ever stuck: it can move itself, or its log consumer or the executor can. */
  lemma GoroutineMoves(w: World, limits: Limits, r: RunId, now: Time) returns (a: Action)
    requires Inv(w) && r in w.pc && !w.pc[r].Done?
    ensures (a.Thread? || a.Table? || a.Sinking?) && a.r == r && Enabled(w, limits, a)
  {
    var p := w.pc[r];
    assert NeedsSink(p) ==> r in w.sinks && SinkOk(w.sinks[r]) && SinkAt(w.sinks[r], p);
    match p {
      case Spawned => a := Thread(ReadRun, r);
      case Compiling => a := Thread(Compiled(true), r);
      case Installing(_) => a := Thread(Installed(false), r);
      case Failing => a := EndRun(w, limits, FailRun, r, now);
      case SinkReady => a := Thread(ClaimStart, r);
      case Starting => a := if w.sinks[r].exec.NotLaunched? then Sinking(Launch, r) else Thread(StartReturned, r);
      case Attaching => a := Thread(AttachHandle, r);
      case Stopping => a := Thread(ForwardStop, r);
      case Waiting => a := if w.sinks[r].exec.Over? then Thread(Waited, r) else Sinking(EndStream(None), r);
      case StartFailing | Draining(_) =>
        if w.sinks[r].consumerDone {
          a := EndRun(w, limits, FinishRun, r, now);
        } else {
          a := Sinking(if w.sinks[r].published < w.sinks[r].taken then PublishLine
                       else if w.sinks[r].taken < |w.sinks[r].delivered| then TakeLine
                       else ConsumerExit, r);
        }
    }
  }

  lemma EndRun(w: World, limits: Limits, t: TableStep, r: RunId, now: Time) returns (a: Action)
    requires Inv(w) && r in w.pc && (t.FailRun? || t.FinishRun?)
    requires t.FailRun? ==> w.pc[r].Failing?
    requires t.FinishRun? ==> (w.pc[r].StartFailing? || w.pc[r].Draining?) && r in w.sinks && w.sinks[r].consumerDone
    ensures a.Table? && a.r == r && Enabled(w, limits, a)
  {
    var gone := {};
    if IsLive(w.core.runs, r) {
      var runs := Marked(w.core, r, Ending(w, t, r), now);
      gone := TrimExists(runs, limits, now, Expired(runs, now - limits.maxAge));
    }
    a := Table(t, r, now, gone);
  }
}
