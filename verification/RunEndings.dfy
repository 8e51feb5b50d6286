/**
 How runs end: for every step of every behaviour, which run it ends and with which status, told by
 the published events and the history records, and what becomes of a stop that is only noted.
 */
module RunEndings {
  import opened EventLog
  import opened History
  import opened Options
  import opened RunCore
  import opened RunInvariant
  import opened RunProtocol
  import opened RunSinks
  import opened RunStories
  import opened RunTheorems
  import opened RunThreads

  /** Two states of a behaviour, one step apart. */
  ghost predicate StepOf(ws: seq<World>, limits: Limits, prior: map<JobId, seq<Record>>, k: nat, a: Action) {
    && Behaviour(ws, limits, prior) && k + 1 < |ws|
    && Enabled(ws[k], limits, a) && ws[k + 1] == Apply(ws[k], limits, a)
  }

  /** The record of a live run that ends with the status, if it is live. */
  function RecordOf(c: Core, r: RunId, status: Ended): Option<Record> {
    if IsLive(c.runs, r) then Some(Record(r, c.runs[r].job, status)) else None
  }

  /**
   The one run that a step must end, and how: a stop kills a queued run before its executor call, a
   request that is rejected or replaced skips, what fails before the executor runs is start_failed, and
   otherwise it is as the executor says, or failed if it says nothing.
   */
  function Due(w: World, a: Action): Option<Record> {
    match a
    case Table(Stop, r, _, _) =>
      if r in w.core.runs && w.core.runs[r].status == Queued && !w.core.runs[r].starting
      then Some(Record(r, w.core.runs[r].job, Killed)) else None
    case Table(Start(j, queueLatest), r, _, _) =>
      if j !in w.core.active then None
      else if !queueLatest then Some(Record(r, j, SkippedOverlap))
      else if j in w.core.pending then Some(Record(w.core.pending[j], j, SkippedOverlap))
      else None
    case Table(FailRun, r, _, _) => RecordOf(w.core, r, StartFailed)
    case Table(FinishRun, r, _, _) =>
      if r !in w.pc then None
      else
        (match w.pc[r]
         case Draining(Some(status)) => RecordOf(w.core, r, status)
         case Draining(None) => RecordOf(w.core, r, Failed)
         case _ => RecordOf(w.core, r, StartFailed))
    case _ => None
  }

  lemma TicketIsDue(w: World, limits: Limits, t: TableStep, r: RunId, now: Time, gone: set<RunId>)
    requires CoreInv(w.core) && TableEnabled(w, limits, t, r, now, gone)
    ensures TableEffect(w, t, r, now, gone).ticket == Due(w, Table(t, r, now, gone))
  {
    match t {
      case Start(j, queueLatest) =>
      case Stop =>
      case FailRun =>
      case FinishRun =>
      case Prune =>
    }
  }

  function Issued(issued: seq<Record>, due: Option<Record>): seq<Record> {
    if due.Some? then issued + [due.value] else issued
  }

  lemma ThreadIssuesNone(w: World, m: ThreadStep, r: RunId)
    requires ThreadEnabled(w, m, r)
    ensures ApplyThread(w, m, r).ledger == w.ledger
  {
  }

  lemma SinkIssuesNone(w: World, s: SinkStep, r: RunId)
    requires SinkEnabled(w, s, r)
    ensures ApplySink(w, s, r).ledger == w.ledger
  {
  }

  lemma DueIsIssued(w: World, limits: Limits, a: Action)
    requires Inv(w) && Enabled(w, limits, a)
    ensures Apply(w, limits, a).ledger.issued == Issued(w.ledger.issued, Due(w, a))
  {
    match a {
      case Table(t, r, now, gone) => TicketIsDue(w, limits, t, r, now, gone);
      case Thread(m, r) => ThreadIssuesNone(w, m, r);
      case Sinking(s, r) => SinkIssuesNone(w, s, r);
      case Recording(_, _) =>
      case Reading(_) =>
    }
  }

  lemma TicketTells(w: World, q: RunId)
    requires Inv(w)
    ensures StoryOf(w.hub.log, q).Over? <==> HasTicket(w.ledger.issued, q)
    ensures forall k | 0 <= k < |w.ledger.issued| && w.ledger.issued[k].run == q ::
              StoryOf(w.hub.log, q).Over? && StoryOf(w.hub.log, q).job == w.ledger.issued[k].job
              && StoryOf(w.hub.log, q).status == w.ledger.issued[k].status
  {
    forall k | 0 <= k < |w.ledger.issued| && w.ledger.issued[k].run == q
      ensures StoryOf(w.hub.log, q).Over? && StoryOf(w.hub.log, q).job == w.ledger.issued[k].job
           && StoryOf(w.hub.log, q).status == w.ledger.issued[k].status
    {
      assert TicketOk(w.ledger.issued[k], k + 1 >= w.ledger.next, StoryOf(w.hub.log, w.ledger.issued[k].run));
    }
  }

  /**
   Every step ends exactly the run it must, with the status it must: its story and its history record
   say so, and the stories that were over say what they said before.
   */
  lemma EndsExactly(ws: seq<World>, limits: Limits, prior: map<JobId, seq<Record>>, k: nat, a: Action, q: RunId)
    requires StepOf(ws, limits, prior, k, a)
    ensures var due, s, s' := Due(ws[k], a), StoryOf(ws[k].hub.log, q), StoryOf(ws[k + 1].hub.log, q);
            && ws[k + 1].ledger.issued == Issued(ws[k].ledger.issued, due)
            && (s'.Over? <==> s.Over? || (due.Some? && due.value.run == q))
            && (s.Over? ==> s'.job == s.job && s'.status == s.status && !(due.Some? && due.value.run == q))
            && (due.Some? && due.value.run == q ==> s'.job == due.value.job && s'.status == due.value.status)
  {
    var w, w' := ws[k], ws[k + 1];
    AlwaysInv(ws, limits, prior, k);
    AlwaysInv(ws, limits, prior, k + 1);
    DueIsIssued(w, limits, a);
    TicketTells(w, q);
    TicketTells(w', q);
    IssuedTickets(w.ledger.issued, Due(w, a), q);
    if HasTicket(w.ledger.issued, q) {
      var m :| 0 <= m < |w.ledger.issued| && w.ledger.issued[m].run == q;
      assert w'.ledger.issued[m] == w.ledger.issued[m];
      if Due(w, a).Some? {
        assert w'.ledger.issued[m].run != w'.ledger.issued[|w.ledger.issued|].run;
      }
    }
    if Due(w, a).Some? && Due(w, a).value.run == q {
      assert w'.ledger.issued[|w.ledger.issued|] == Due(w, a).value;
    }
  }

  /** The result that a finishing goroutine brings is the executor's own, given once its output had ended. */
  lemma ExecutorDecides(ws: seq<World>, limits: Limits, prior: map<JobId, seq<Record>>, k: nat, r: RunId)
    requires Behaviour(ws, limits, prior) && k < |ws| && r in ws[k].pc
    ensures ws[k].pc[r].Draining? ==> r in ws[k].sinks && ws[k].sinks[r].exec == Exec.Over(ws[k].pc[r].result)
    ensures ws[k].pc[r].StartFailing? ==> r in ws[k].sinks && ws[k].sinks[r].exec.NotLaunched?
  {
    AlwaysInv(ws, limits, prior, k);
    if r in ws[k].sinks {
      assert SinkAt(ws[k].sinks[r], ws[k].pc[r]);
    }
  }

  lemma IssuedTickets(issued: seq<Record>, due: Option<Record>, q: RunId)
    ensures HasTicket(Issued(issued, due), q) <==> HasTicket(issued, q) || (due.Some? && due.value.run == q)
  {
    if due.Some? {
      assert (issued + [due.value])[|issued|] == due.value;
      if HasTicket(issued, q) {
        var k :| 0 <= k < |issued| && issued[k].run == q;
        assert (issued + [due.value])[k].run == q;
      }
    }
  }

  // ---------- What a request becomes ----------

  /** A request for an idle job is active at once and has a goroutine; one for a busy job is held back, or over. */
  lemma RequestsStand(ws: seq<World>, limits: Limits, prior: map<JobId, seq<Record>>, k: nat, j: JobId, queueLatest: bool,
                      r: RunId, now: Time, gone: set<RunId>)
    requires StepOf(ws, limits, prior, k, Table(Start(j, queueLatest), r, now, gone))
    ensures var c, w' := ws[k].core, ws[k + 1];
            if j !in c.active then
              && StoryOf(w'.hub.log, r) == Story.Waiting(j, []) && Holds(w'.core.active, j, r)
              && r in w'.pc && w'.pc[r].Spawned? && w'.core.pending == c.pending
            else
              && w'.core.active == c.active && w'.pc == ws[k].pc
              && if queueLatest then StoryOf(w'.hub.log, r) == Story.Waiting(j, []) && Holds(w'.core.pending, j, r)
                 else StoryOf(w'.hub.log, r) == Story.Over(j, [], SkippedOverlap, false) && w'.core.pending == c.pending
  {
    var w, w' := ws[k], ws[k + 1];
    AlwaysInv(ws, limits, prior, k);
    AlwaysInv(ws, limits, prior, k + 1);
    assert r !in w.sinks;
    assert StoryOk(w'.core, Shown(w'.sinks, r), w'.used, r, StoryOf(w'.hub.log, r));
    if j in w.core.active && !queueLatest {
      RejectedStory(w.hub, r, j, now);
    }
  }

  lemma RejectedStory(h: Hub, r: RunId, j: JobId, now: Time)
    requires StoryOf(h.log, r) == Untold
    ensures StoryOf(PublishAll(h, [State(r, j, SkippedOverlap, false)]).log, r) == Story.Over(j, [], SkippedOverlap, false)
  {
    StoryPublishAll(h, [State(r, j, SkippedOverlap, false)], r);
  }

  // ---------- The executor's output ----------

  /** A line that the executor sends reaches the run's sink, unless 256 lines are waiting there: then it is lost. */
  lemma LinesAreTaken(ws: seq<World>, limits: Limits, prior: map<JobId, seq<Record>>, k: nat, r: RunId, line: Line)
    requires StepOf(ws, limits, prior, k, Sinking(Emit(line), r))
    ensures r in ws[k].sinks && r in ws[k + 1].sinks
    ensures var s, s' := ws[k].sinks[r], ws[k + 1].sinks[r];
            && s.taken <= |s.delivered| <= s.taken + 256
            && if |s.delivered| - s.taken < 256 then s'.delivered == s.delivered + [line] && s'.lost == s.lost
               else s'.delivered == s.delivered && s'.lost == s.lost + 1
  {
    AlwaysInv(ws, limits, prior, k);
    assert SinkOk(ws[k].sinks[r]);
  }

  // ---------- What comes before the executor call ----------

  /** The step that follows state i is this move of the run's goroutine. */
  predicate Took(ws: seq<World>, i: nat, m: ThreadStep, r: RunId) {
    i + 1 < |ws| && ThreadEnabled(ws[i], m, r) && ws[i + 1] == ApplyThread(ws[i], m, r)
  }

  ghost predicate CompiledBefore(ws: seq<World>, k: nat, r: RunId) {
    exists i | 0 <= i < k :: Took(ws, i, Compiled(true), r)
  }

  ghost predicate InstalledBefore(ws: seq<World>, k: nat, r: RunId) {
    exists i | 0 <= i < k :: Took(ws, i, Installed(true), r) && CompiledBefore(ws, i, r)
  }

  predicate AwaitsInstall(w: World, r: RunId) { r in w.pc && w.pc[r] == Installing(true) }

  predicate PastInstall(w: World, r: RunId) { w.startCalls[r] > 0 || (r in w.pc && NeedsSink(w.pc[r])) }

  lemma ThreadReaches(w: World, m: ThreadStep, q: RunId, r: RunId)
    requires ThreadEnabled(w, m, q)
    ensures AwaitsInstall(ApplyThread(w, m, q), r) && !AwaitsInstall(w, r) ==> q == r && m == Compiled(true)
    ensures PastInstall(ApplyThread(w, m, q), r) && !PastInstall(w, r) ==> q == r && m == Installed(true) && AwaitsInstall(w, r)
  {
  }

  lemma TablesReachNothing(w: World, t: TableStep, q: RunId, now: Time, gone: set<RunId>, r: RunId)
    ensures AwaitsInstall(ApplyTable(w, t, q, now, gone), r) ==> AwaitsInstall(w, r)
    ensures PastInstall(ApplyTable(w, t, q, now, gone), r) ==> PastInstall(w, r)
  {
    var w' := ApplyTable(w, t, q, now, gone);
    assert w'.startCalls == w.startCalls && w'.pc == Spawn(Leaving(w.pc, t, q), TableEffect(w, t, q, now, gone).spawn);
  }

  lemma SinksReachNothing(w: World, s: SinkStep, q: RunId)
    requires SinkEnabled(w, s, q)
    ensures ApplySink(w, s, q).pc == w.pc && ApplySink(w, s, q).startCalls == w.startCalls
  {
  }

  lemma OnlyThreadsReach(w: World, limits: Limits, a: Action, r: RunId)
    requires Enabled(w, limits, a) && !a.Thread?
    ensures AwaitsInstall(Apply(w, limits, a), r) ==> AwaitsInstall(w, r)
    ensures PastInstall(Apply(w, limits, a), r) ==> PastInstall(w, r)
  {
    match a {
      case Table(t, q, now, gone) => TablesReachNothing(w, t, q, now, gone, r);
      case Sinking(s, q) => SinksReachNothing(w, s, q);
      case Recording(_, _) =>
      case Reading(_) =>
    }
  }

  /** The executor is called only for a run whose job was compiled and then installed successfully. */
  lemma {:induction false} CalledAfterInstall(ws: seq<World>, limits: Limits, prior: map<JobId, seq<Record>>, k: nat,
                                              r: RunId)
    requires Behaviour(ws, limits, prior) && k < |ws|
    ensures AwaitsInstall(ws[k], r) ==> CompiledBefore(ws, k, r)
    ensures PastInstall(ws[k], r) ==> InstalledBefore(ws, k, r)
    ensures ws[k].startCalls[r] > 0 ==> InstalledBefore(ws, k, r)
  {
    if k > 0 {
      CalledAfterInstall(ws, limits, prior, k - 1, r);
      assert Follows(ws, limits, k);
      var a :| Enabled(ws[k - 1], limits, a) && ws[k] == Apply(ws[k - 1], limits, a);
      if a.Thread? {
        ThreadReaches(ws[k - 1], a.m, a.r, r);
        assert Took(ws, k - 1, a.m, a.r);
      } else {
        OnlyThreadsReach(ws[k - 1], limits, a, r);
      }
    }
  }

  // ---------- A stop during the executor call ----------

  /** A stop that finds the run queued and its executor call under way is only noted: nothing else changes. */
  lemma StopIsNoted(ws: seq<World>, limits: Limits, prior: map<JobId, seq<Record>>, k: nat, r: RunId, now: Time,
                    gone: set<RunId>)
    requires StepOf(ws, limits, prior, k, Table(Stop, r, now, gone))
    requires r in ws[k].core.runs && ws[k].core.runs[r].status == Queued && ws[k].core.runs[r].starting
    ensures var run := ws[k].core.runs[r].(stopRequested := true, canceled := true);
            ws[k + 1] == ws[k].(core := ws[k].core.(runs := ws[k].core.runs[r := run]))
  {
  }

  /** The run is live and a stop is noted on it. */
  predicate Noted(c: Core, r: RunId) { IsLive(c.runs, r) && c.runs[r].stopRequested }

  lemma FinishNotes(c: Core, q: RunId, status: Ended, now: Time, gone: set<RunId>, r: RunId)
    requires Noted(c, r) && IsLive(Finish(c, q, status, now, gone).core.runs, r)
    ensures Noted(Finish(c, q, status, now, gone).core, r)
  {
  }

  lemma TableNotes(w: World, limits: Limits, t: TableStep, q: RunId, now: Time, gone: set<RunId>, r: RunId)
    requires TableEnabled(w, limits, t, q, now, gone) && w.core.runs.Keys <= w.used && Noted(w.core, r)
    requires IsLive(TableEffect(w, t, q, now, gone).core.runs, r)
    ensures Noted(TableEffect(w, t, q, now, gone).core, r)
  {
    match t {
      case Start(j, queueLatest) =>
        if j in w.core.active && queueLatest && j in w.core.pending {
          FinishNotes(w.core, w.core.pending[j], SkippedOverlap, now, gone, r);
        }
      case Stop =>
        if IsQueued(w.core, q) && !w.core.runs[q].starting {
          FinishNotes(w.core, q, Killed, now, gone, r);
        }
      case Prune =>
      case _ => FinishNotes(w.core, q, Ending(w, t, q), now, gone, r);
    }
  }

  lemma ThreadNotes(w: World, m: ThreadStep, q: RunId, r: RunId)
    requires ThreadEnabled(w, m, q) && Noted(w.core, r)
    ensures Noted(ApplyThread(w, m, q).core, r)
  {
  }

  lemma NotesStay(w: World, limits: Limits, a: Action, r: RunId)
    requires Inv(w) && Enabled(w, limits, a) && Noted(w.core, r)
    ensures IsLive(Apply(w, limits, a).core.runs, r) ==> Noted(Apply(w, limits, a).core, r)
    ensures r in Apply(w, limits, a).used
  {
    match a {
      case Table(t, q, now, gone) =>
        if IsLive(Apply(w, limits, a).core.runs, r) {
          TableNotes(w, limits, t, q, now, gone, r);
        }
      case Thread(m, q) => ThreadNotes(w, m, q, r);
      case Sinking(_, _) =>
      case Recording(_, _) =>
      case Reading(_) =>
    }
  }

  lemma {:induction false} NotedUntilEnd(ws: seq<World>, limits: Limits, prior: map<JobId, seq<Record>>, k: nat, m: nat,
                                         r: RunId)
    requires Behaviour(ws, limits, prior) && k <= m < |ws| && Noted(ws[k].core, r)
    ensures HasEnded(ws[m], r) || Noted(ws[m].core, r)
    decreases m
  {
    if k < m {
      NotedUntilEnd(ws, limits, prior, k, m - 1, r);
      if HasEnded(ws[m - 1], r) {
        EndedForGood(ws, limits, prior, m - 1, m, r);
      } else {
        AlwaysInv(ws, limits, prior, m - 1);
        assert Follows(ws, limits, m);
        var a :| Enabled(ws[m - 1], limits, a) && ws[m] == Apply(ws[m - 1], limits, a);
        NotesStay(ws[m - 1], limits, a, r);
      }
    }
  }

  /**
   A stop once noted is never lost: at any later time the run has ended, or waits for its handle with the
   stop noted, or runs with the stop forwarded or about to be.
   */
  lemma StopNeverLost(ws: seq<World>, limits: Limits, prior: map<JobId, seq<Record>>, k: nat, m: nat, r: RunId)
    requires Behaviour(ws, limits, prior) && k <= m < |ws| && Noted(ws[k].core, r)
    ensures var w := ws[m];
            || HasEnded(w, r)
            || (IsQueued(w.core, r) && w.core.runs[r].stopRequested)
            || (r in w.core.runs && w.core.runs[r].status == Running && (r in w.forwarded || (r in w.pc && w.pc[r].Stopping?)))
  {
    NotedUntilEnd(ws, limits, prior, k, m, r);
    if Noted(ws[m].core, r) && !IsQueued(ws[m].core, r) {
      AlwaysInv(ws, limits, prior, m);
      LiveIsRunning(ws[m], r);
      StopsForwarded(ws, limits, prior, m, r);
    }
  }

  lemma LiveIsRunning(w: World, r: RunId)
    requires Inv(w) && IsLive(w.core.runs, r) && !IsQueued(w.core, r)
    ensures w.core.runs[r].status == Running
  {
  }

  // ---------- Failed history writes ----------

  /** The step in which the holder of the run's ticket, whose write failed, finds the run still in the table. */
  predicate ShowsFailure(w: World, a: Action, q: RunId) {
    && a.Recording? && a.h.LeaveHistory? && 0 < w.ledger.next <= |w.ledger.issued|
    && w.ledger.appended.Some? && w.ledger.appended.value.failed()
    && w.ledger.issued[w.ledger.next - 1].run == q && q in w.core.runs
  }

  lemma TableShowsNone(w: World, limits: Limits, t: TableStep, r: RunId, now: Time, gone: set<RunId>, q: RunId)
    requires Inv(w) && TableEnabled(w, limits, t, r, now, gone) && StoryOf(w.hub.log, q).Over?
    ensures StoryOf(ApplyTable(w, t, r, now, gone).hub.log, q) == StoryOf(w.hub.log, q)
  {
    if t.FinishRun? {
      assert Agrees(w.core, CallsOf(w), r, w.pc[r]);
    }
    var e := TableEffect(w, t, r, now, gone);
    TableEnds(w, limits, t, r, now, gone, q);
    StoryPublishAll(w.hub, e.events, q);
  }

  lemma ThreadShowsNone(w: World, m: ThreadStep, r: RunId, q: RunId)
    requires Inv(w) && ThreadEnabled(w, m, r) && StoryOf(w.hub.log, q).Over?
    ensures StoryOf(ApplyThread(w, m, r).hub.log, q) == StoryOf(w.hub.log, q)
  {
    if m.AttachHandle? {
      assert StoryOk(w.core, Shown(w.sinks, q), w.used, q, StoryOf(w.hub.log, q));
      StoryPublishAll(w.hub, Attach(w.core, r).events, q);
    }
  }

  lemma SinkShowsNone(w: World, s: SinkStep, r: RunId, q: RunId)
    requires Inv(w) && SinkEnabled(w, s, r) && StoryOf(w.hub.log, q).Over?
    ensures StoryOf(ApplySink(w, s, r).hub.log, q) == StoryOf(w.hub.log, q)
  {
    if s.PublishLine? {
      var k := w.sinks[r];
      assert StoryOk(w.core, Shown(w.sinks, q), w.used, q, StoryOf(w.hub.log, q));
      PublishWhileLive(w, r);
      StoryPublish(w.hub, Log(r, w.core.runs[r].status, k.delivered[k.published]), q);
    }
  }

  lemma HistoryShows(w: World, h: HistoryStep, ticket: nat, q: RunId)
    requires Inv(w) && HistoryEnabled(w, h, ticket) && StoryOf(w.hub.log, q).Over?
    ensures var s, s' := StoryOf(w.hub.log, q), StoryOf(ApplyHistory(w, h, ticket).hub.log, q);
            s' == if ShowsFailure(w, Recording(h, ticket), q) then s.(errorShown := true) else s
  {
    if h.LeaveHistory? {
      var x := w.ledger.issued[w.ledger.next - 1];
      assert TicketOk(x, true, StoryOf(w.hub.log, x.run));
      assert StoryOk(w.core, Shown(w.sinks, q), w.used, q, StoryOf(w.hub.log, q));
      StoryPublishAll(w.hub, HistoryEvents(w.core, w.ledger), q);
    }
  }

  /** An ended run's story changes in one way only: it shows a history error when its own write failed. */
  lemma ErrorShownExactly(ws: seq<World>, limits: Limits, prior: map<JobId, seq<Record>>, k: nat, a: Action, q: RunId)
    requires StepOf(ws, limits, prior, k, a) && StoryOf(ws[k].hub.log, q).Over?
    ensures var s := StoryOf(ws[k].hub.log, q);
            StoryOf(ws[k + 1].hub.log, q) == if ShowsFailure(ws[k], a, q) then s.(errorShown := true) else s
  {
    var w := ws[k];
    AlwaysInv(ws, limits, prior, k);
    match a {
      case Table(t, r, now, gone) => TableShowsNone(w, limits, t, r, now, gone, q);
      case Thread(m, r) => ThreadShowsNone(w, m, r, q);
      case Sinking(s, r) => SinkShowsNone(w, s, r, q);
      case Recording(h, ticket) => HistoryShows(w, h, ticket, q);
      case Reading(_) =>
    }
  }
}
