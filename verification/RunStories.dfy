/**
 The story the event log tells about each run: a grammar of state and log events, and its
 agreement with the run table, the log sinks and the history tickets.
 */
module RunStories {
  import opened EventLog
  import opened History
  import opened Options
  import opened RunCore
  import opened RunProtocol
  import opened RunSinks

  /** How far the story of one run has got; `Broken` if its events are out of order. */
  datatype Story =
    | Untold
    | Waiting(job: JobId, lines: seq<Line>)
    | Underway(job: JobId, lines: seq<Line>)
    | Over(job: JobId, lines: seq<Line>, status: Status, errorShown: bool)
    | Broken

  /**
   A story is a lone skipped_overlap, or queued, perhaps running, then one terminal status; log
   lines come before the end; after it at most one repeat of the same status shows a history error.
   */
  function Tell(s: Story, b: Body): Story {
    match (s, b)
    case (Untold, State(_, j, Queued, false)) => Story.Waiting(j, [])
    case (Untold, State(_, j, SkippedOverlap, false)) => Story.Over(j, [], SkippedOverlap, false)
    case (Waiting(j, ls), Log(_, Queued, l)) => Story.Waiting(j, ls + [l])
    case (Waiting(j, ls), State(_, k, status, false)) =>
      if j != k then Broken
      else if status == Running then Underway(j, ls)
      else if status in {Killed, StartFailed, SkippedOverlap} then Story.Over(j, ls, status, false)
      else Broken
    case (Underway(j, ls), Log(_, Running, l)) => Underway(j, ls + [l])
    case (Underway(j, ls), State(_, k, status, false)) =>
      if j == k && Terminal(status) then Story.Over(j, ls, status, false) else Broken
    case (Over(j, ls, status, false), State(_, k, status', true)) =>
      if j == k && status == status' then Story.Over(j, ls, status, true) else Broken
    case _ => Broken
  }

  function TellIf(s: Story, b: Body, r: RunId): Story { if b.run == r then Tell(s, b) else s }

  function StoryOf(log: seq<Event>, r: RunId): Story {
    if log == [] then Untold else TellIf(StoryOf(log[..|log| - 1], r), log[|log| - 1].body, r)
  }

  function TellAll(s: Story, bodies: seq<Body>, r: RunId): Story
    decreases |bodies|
  {
    if bodies == [] then s else TellAll(TellIf(s, bodies[0], r), bodies[1..], r)
  }

  lemma StoryPublish(h: Hub, b: Body, r: RunId)
    ensures StoryOf(Publish(h, b).log, r) == TellIf(StoryOf(h.log, r), b, r)
  {
    var log := Publish(h, b).log;
    assert log[..|log| - 1] == h.log;
  }

  lemma {:induction false} StoryPublishAll(h: Hub, bodies: seq<Body>, r: RunId)
    ensures StoryOf(PublishAll(h, bodies).log, r) == TellAll(StoryOf(h.log, r), bodies, r)
    decreases |bodies|
  {
    if bodies != [] {
      StoryPublish(h, bodies[0], r);
      StoryPublishAll(Publish(h, bodies[0]), bodies[1..], r);
    }
  }

  // ---------- Stories and the run table ----------

  function Shown(sinks: map<RunId, Sink>, r: RunId): seq<Line> {
    if r in sinks && sinks[r].published <= |sinks[r].delivered|
    then sinks[r].delivered[..sinks[r].published] else []
  }

  predicate StoryOk(c: Core, lines: seq<Line>, used: set<RunId>, r: RunId, s: Story) {
    if r !in used then s == Untold
    else if IsLive(c.runs, r) then
      s == if c.runs[r].status == Queued then Story.Waiting(c.runs[r].job, lines) else Underway(c.runs[r].job, lines)
    else
      && s.Over? && s.lines == lines
      && (r in c.runs ==> s.job == c.runs[r].job && s.status == c.runs[r].status)
  }

  ghost predicate Stories(c: Core, sinks: map<RunId, Sink>, used: set<RunId>, log: seq<Event>) {
    forall r :: StoryOk(c, Shown(sinks, r), used, r, StoryOf(log, r))
  }

  lemma FinishOthers(c: Core, lines: seq<Line>, used: set<RunId>, r: RunId, status: Ended, now: Time, gone: set<RunId>,
                     q: RunId, s: Story)
    requires CoreInv(c) && c.runs.Keys <= used && StoryOk(c, lines, used, q, s) && q != r
    requires IsLive(c.runs, r) ==> gone <= EndedRuns(Marked(c, r, status, now))
    ensures var e := Finish(c, r, status, now, gone);
            StoryOk(e.core, lines, used, q, s) && TellAll(s, e.events, q) == s
  {
  }

  lemma FinishOwn(c: Core, lines: seq<Line>, used: set<RunId>, r: RunId, status: Ended, now: Time, gone: set<RunId>,
                  s: Story)
    requires CoreInv(c) && c.runs.Keys <= used && StoryOk(c, lines, used, r, s) && IsLive(c.runs, r)
    requires c.runs[r].status == Queued ==> status in {Killed, StartFailed, SkippedOverlap}
    ensures var e := Finish(c, r, status, now, gone);
            StoryOk(e.core, lines, used, r, TellAll(s, e.events, r))
  {
  }

  /** Ending a live run publishes its one terminal event, and nothing about other runs. */
  lemma FinishStory(c: Core, lines: seq<Line>, used: set<RunId>, r: RunId, status: Ended, now: Time, gone: set<RunId>,
                    q: RunId, s: Story)
    requires CoreInv(c) && c.runs.Keys <= used && StoryOk(c, lines, used, q, s)
    requires IsLive(c.runs, r) ==> gone <= EndedRuns(Marked(c, r, status, now))
    requires IsLive(c.runs, r) && c.runs[r].status == Queued ==> status in {Killed, StartFailed, SkippedOverlap}
    ensures var e := Finish(c, r, status, now, gone);
            StoryOk(e.core, lines, used, q, TellAll(s, e.events, q))
  {
    if q != r {
      FinishOthers(c, lines, used, r, status, now, gone, q, s);
    } else if IsLive(c.runs, r) {
      FinishOwn(c, lines, used, r, status, now, gone, s);
    }
  }

  lemma ReserveStory(c: Core, lines: seq<Line>, used: set<RunId>, r: RunId, j: JobId, queueLatest: bool, now: Time,
                     gone: set<RunId>, q: RunId, s: Story)
    requires CoreInv(c) && c.runs.Keys <= used && r !in used && StoryOk(c, lines, used, q, s)
    requires j in c.pending ==> gone <= EndedRuns(Marked(c, c.pending[j], SkippedOverlap, now))
    requires q == r ==> lines == []
    ensures var e := Reserve(c, r, j, queueLatest, now, gone);
            StoryOk(e.core, lines, used + {r}, q, TellAll(s, e.events, q))
  {
    if j in c.active && queueLatest && j in c.pending {
      FinishStory(c, lines, used, c.pending[j], SkippedOverlap, now, gone, q, s);
      var e := Finish(c, c.pending[j], SkippedOverlap, now, gone);
      TellAllAppend(s, e.events, StateOf(r, Fresh(j)), q);
    }
  }

  lemma {:induction false} TellAllAppend(s: Story, bodies: seq<Body>, b: Body, r: RunId)
    ensures TellAll(s, bodies + [b], r) == TellIf(TellAll(s, bodies, r), b, r)
    decreases |bodies|
  {
    if bodies == [] {
      assert bodies + [b] == [b];
    } else {
      assert (bodies + [b])[1..] == bodies[1..] + [b];
      TellAllAppend(TellIf(s, bodies[0], r), bodies[1..], b, r);
    }
  }

  function Used(w: World, t: TableStep, r: RunId): set<RunId> { if t.Start? then w.used + {r} else w.used }

  lemma StopStory(c: Core, lines: seq<Line>, used: set<RunId>, r: RunId, now: Time, gone: set<RunId>, q: RunId, s: Story)
    requires CoreInv(c) && c.runs.Keys <= used && StoryOk(c, lines, used, q, s)
    requires IsLive(c.runs, r) ==> gone <= EndedRuns(Marked(c, r, Killed, now))
    ensures var e := StopQueued(c, r, now, gone); StoryOk(e.core, lines, used, q, TellAll(s, e.events, q))
  {
    if IsQueued(c, r) && !c.runs[r].starting {
      FinishStory(c, lines, used, r, Killed, now, gone, q, s);
    }
  }

  lemma TableStory(w: World, limits: Limits, t: TableStep, r: RunId, now: Time, gone: set<RunId>, q: RunId)
    requires CoreInv(w.core) && w.core.runs.Keys <= w.used && TableEnabled(w, limits, t, r, now, gone)
    requires Stories(w.core, w.sinks, w.used, w.hub.log)
    requires r !in w.used ==> r !in w.sinks
    requires t.FinishRun? && IsLive(w.core.runs, r) && w.core.runs[r].status == Queued ==> w.pc[r].StartFailing?
    ensures var e := TableEffect(w, t, r, now, gone);
            StoryOk(e.core, Shown(w.sinks, q), Used(w, t, r), q, TellAll(StoryOf(w.hub.log, q), e.events, q))
  {
    var lines, s := Shown(w.sinks, q), StoryOf(w.hub.log, q);
    assert StoryOk(w.core, lines, w.used, q, s);
    match t {
      case Start(j, queueLatest) => ReserveStory(w.core, lines, w.used, r, j, queueLatest, now, gone, q, s);
      case Stop => StopStory(w.core, lines, w.used, r, now, gone, q, s);
      case Prune =>
      case _ => FinishStory(w.core, lines, w.used, r, Ending(w, t, r), now, gone, q, s);
    }
  }

  lemma TableStories(w: World, limits: Limits, t: TableStep, r: RunId, now: Time, gone: set<RunId>)
    requires CoreInv(w.core) && w.core.runs.Keys <= w.used && TableEnabled(w, limits, t, r, now, gone)
    requires Stories(w.core, w.sinks, w.used, w.hub.log)
    requires r !in w.used ==> r !in w.sinks
    requires t.FinishRun? && IsLive(w.core.runs, r) && w.core.runs[r].status == Queued ==> w.pc[r].StartFailing?
    ensures var w' := ApplyTable(w, t, r, now, gone); Stories(w'.core, w'.sinks, w'.used, w'.hub.log)
  {
    var w', e := ApplyTable(w, t, r, now, gone), TableEffect(w, t, r, now, gone);
    forall q ensures StoryOk(w'.core, Shown(w'.sinks, q), w'.used, q, StoryOf(w'.hub.log, q)) {
      TableStory(w, limits, t, r, now, gone, q);
      StoryPublishAll(w.hub, e.events, q);
    }
  }

  lemma AttachStory(c: Core, lines: seq<Line>, used: set<RunId>, r: RunId, q: RunId, s: Story)
    requires c.runs.Keys <= used && StoryOk(c, lines, used, q, s)
    ensures var e := Attach(c, r); StoryOk(e.core, lines, used, q, TellAll(s, e.events, q))
  {
  }

  lemma AttachStories(w: World, r: RunId)
    requires ThreadEnabled(w, AttachHandle, r) && Stories(w.core, w.sinks, w.used, w.hub.log)
    requires w.core.runs.Keys <= w.used
    ensures var w' := ApplyThread(w, AttachHandle, r); Stories(w'.core, w'.sinks, w'.used, w'.hub.log)
  {
    var w', e := ApplyThread(w, AttachHandle, r), Attach(w.core, r);
    forall q ensures StoryOk(w'.core, Shown(w'.sinks, q), w'.used, q, StoryOf(w'.hub.log, q)) {
      AttachStory(w.core, Shown(w.sinks, q), w.used, r, q, StoryOf(w.hub.log, q));
      StoryPublishAll(w.hub, e.events, q);
    }
  }

  lemma ThreadStories(w: World, m: ThreadStep, r: RunId)
    requires ThreadEnabled(w, m, r) && Stories(w.core, w.sinks, w.used, w.hub.log) && w.core.runs.Keys <= w.used
    requires m.Installed? ==> r !in w.sinks
    ensures var w' := ApplyThread(w, m, r); Stories(w'.core, w'.sinks, w'.used, w'.hub.log)
  {
    if m.AttachHandle? {
      AttachStories(w, r);
    } else {
      var w' := ApplyThread(w, m, r);
      forall q ensures StoryOk(w'.core, Shown(w'.sinks, q), w'.used, q, StoryOf(w'.hub.log, q)) {
        assert StoryOk(w.core, Shown(w.sinks, q), w.used, q, StoryOf(w.hub.log, q));
      }
    }
  }

  /** A line shown of a live run is told at the end of its lines so far. */
  lemma LineStory(c: Core, lines: seq<Line>, used: set<RunId>, r: RunId, line: Line, s: Story)
    requires StoryOk(c, lines, used, r, s) && IsLive(c.runs, r) && r in used && c.runs[r].status in {Queued, Running}
    ensures StoryOk(c, lines + [line], used, r, Tell(s, Log(r, c.runs[r].status, line)))
  {
  }

  lemma LineStories(w: World, r: RunId)
    requires SinkEnabled(w, PublishLine, r) && SinkOk(w.sinks[r]) && Stories(w.core, w.sinks, w.used, w.hub.log)
    requires IsLive(w.core.runs, r) && r in w.used
    ensures var w' := ApplySink(w, PublishLine, r); Stories(w'.core, w'.sinks, w'.used, w'.hub.log)
  {
    var w', k := ApplySink(w, PublishLine, r), w.sinks[r];
    var line := k.delivered[k.published];
    assert k.delivered[..k.published + 1] == k.delivered[..k.published] + [line];
    forall q ensures StoryOk(w'.core, Shown(w'.sinks, q), w'.used, q, StoryOf(w'.hub.log, q)) {
      assert StoryOk(w.core, Shown(w.sinks, q), w.used, q, StoryOf(w.hub.log, q));
      StoryPublish(w.hub, Log(r, w.core.runs[r].status, line), q);
      if q == r {
        LineStory(w.core, Shown(w.sinks, r), w.used, r, line, StoryOf(w.hub.log, r));
      }
    }
  }

  lemma SinkStories(w: World, s: SinkStep, r: RunId)
    requires SinkEnabled(w, s, r) && SinkOk(w.sinks[r]) && Stories(w.core, w.sinks, w.used, w.hub.log)
    requires s.PublishLine? ==> IsLive(w.core.runs, r) && r in w.used
    ensures var w' := ApplySink(w, s, r); Stories(w'.core, w'.sinks, w'.used, w'.hub.log)
  {
    if s.PublishLine? {
      LineStories(w, r);
    } else {
      var w' := ApplySink(w, s, r);
      forall q ensures StoryOk(w'.core, Shown(w'.sinks, q), w'.used, q, StoryOf(w'.hub.log, q)) {
        assert StoryOk(w.core, Shown(w.sinks, q), w.used, q, StoryOf(w.hub.log, q));
        assert Shown(w'.sinks, q) == Shown(w.sinks, q);
      }
    }
  }

  // ---------- Stories and the history tickets ----------

  /** Every ended run, and only an ended run, has exactly one ticket, carrying its final status. */
  ghost predicate Tickets(issued: seq<Record>, next: nat, log: seq<Event>) {
    && (forall k | 0 <= k < |issued| :: TicketOk(issued[k], k + 1 >= next, StoryOf(log, issued[k].run)))
    && (forall k, m | 0 <= k < m < |issued| :: issued[k].run != issued[m].run)
    && (forall r :: StoryOf(log, r).Over? ==> HasTicket(issued, r))
  }

  ghost predicate HasTicket(issued: seq<Record>, r: RunId) {
    exists k | 0 <= k < |issued| :: issued[k].run == r
  }

  /** A ticket still outstanding has shown no history error. */
  predicate TicketOk(x: Record, outstanding: bool, s: Story) {
    s.Over? && s.job == x.job && s.status == x.status && (outstanding ==> !s.errorShown)
  }

  /** A step ends the run it takes a ticket for, and no other. */
  ghost predicate Ends(e: Effect, q: RunId, s: Story) {
    var s' := TellAll(s, e.events, q);
    if e.ticket.Some? && e.ticket.value.run == q then !s.Over? && TicketOk(e.ticket.value, true, s')
    else if s.Over? then s' == s
    else !s'.Over?
  }

  lemma FinishEnds(c: Core, lines: seq<Line>, used: set<RunId>, r: RunId, status: Ended, now: Time, gone: set<RunId>,
                   q: RunId, s: Story)
    requires c.runs.Keys <= used && StoryOk(c, lines, used, q, s)
    requires IsLive(c.runs, r) && c.runs[r].status == Queued ==> status in {Killed, StartFailed, SkippedOverlap}
    ensures Ends(Finish(c, r, status, now, gone), q, s)
  {
  }

  lemma ReserveEnds(c: Core, lines: seq<Line>, used: set<RunId>, r: RunId, j: JobId, queueLatest: bool, now: Time,
                    gone: set<RunId>, q: RunId, s: Story)
    requires CoreInv(c) && c.runs.Keys <= used && r !in used && StoryOk(c, lines, used, q, s)
    ensures Ends(Reserve(c, r, j, queueLatest, now, gone), q, s)
  {
    if j in c.active && queueLatest && j in c.pending {
      FinishEnds(c, lines, used, c.pending[j], SkippedOverlap, now, gone, q, s);
      TellAllAppend(s, Finish(c, c.pending[j], SkippedOverlap, now, gone).events, StateOf(r, Fresh(j)), q);
    }
  }

  lemma TableEnds(w: World, limits: Limits, t: TableStep, r: RunId, now: Time, gone: set<RunId>, q: RunId)
    requires CoreInv(w.core) && w.core.runs.Keys <= w.used && TableEnabled(w, limits, t, r, now, gone)
    requires Stories(w.core, w.sinks, w.used, w.hub.log)
    requires t.FinishRun? && IsLive(w.core.runs, r) && w.core.runs[r].status == Queued ==> w.pc[r].StartFailing?
    ensures Ends(TableEffect(w, t, r, now, gone), q, StoryOf(w.hub.log, q))
  {
    var lines, s := Shown(w.sinks, q), StoryOf(w.hub.log, q);
    assert StoryOk(w.core, lines, w.used, q, s);
    match t {
      case Start(j, queueLatest) => ReserveEnds(w.core, lines, w.used, r, j, queueLatest, now, gone, q, s);
      case Stop =>
        if IsQueued(w.core, r) && !w.core.runs[r].starting {
          FinishEnds(w.core, lines, w.used, r, Killed, now, gone, q, s);
        }
      case Prune =>
      case _ => FinishEnds(w.core, lines, w.used, r, Ending(w, t, r), now, gone, q, s);
    }
  }

  lemma TicketsAbsorb(issued: seq<Record>, next: nat, log: seq<Event>, e: Effect, log': seq<Event>)
    requires Tickets(issued, next, log) && next <= |issued| + 1
    requires forall q :: Ends(e, q, StoryOf(log, q)) && StoryOf(log', q) == TellAll(StoryOf(log, q), e.events, q)
    ensures Tickets(if e.ticket.Some? then issued + [e.ticket.value] else issued, next, log')
  {
    var issued' := if e.ticket.Some? then issued + [e.ticket.value] else issued;
    forall k | 0 <= k < |issued'|
      ensures TicketOk(issued'[k], k + 1 >= next, StoryOf(log', issued'[k].run))
      ensures k < |issued| ==> issued'[k] == issued[k] && StoryOf(log, issued[k].run).Over?
    {
      assert Ends(e, issued'[k].run, StoryOf(log, issued'[k].run));
      if k < |issued| {
        assert TicketOk(issued[k], k + 1 >= next, StoryOf(log, issued[k].run));
      }
    }
    forall r | StoryOf(log', r).Over? ensures HasTicket(issued', r) {
      assert Ends(e, r, StoryOf(log, r));
      if StoryOf(log, r).Over? {
        var k :| 0 <= k < |issued| && issued[k].run == r;
        assert issued'[k].run == r;
      } else {
        assert issued'[|issued|].run == r;
      }
    }
    if e.ticket.Some? {
      assert Ends(e, e.ticket.value.run, StoryOf(log, e.ticket.value.run));
    }
  }

  lemma ThreadTickets(w: World, m: ThreadStep, r: RunId)
    requires ThreadEnabled(w, m, r) && Stories(w.core, w.sinks, w.used, w.hub.log) && w.core.runs.Keys <= w.used
    requires Tickets(w.ledger.issued, w.ledger.next, w.hub.log) && w.ledger.next <= |w.ledger.issued| + 1
    ensures var w' := ApplyThread(w, m, r);
            w'.ledger == w.ledger && Tickets(w.ledger.issued, w.ledger.next, w'.hub.log)
  {
    if m.AttachHandle? {
      var e, log' := Attach(w.core, r), ApplyThread(w, m, r).hub.log;
      forall q ensures Ends(e, q, StoryOf(w.hub.log, q)) && StoryOf(log', q) == TellAll(StoryOf(w.hub.log, q), e.events, q) {
        assert StoryOk(w.core, Shown(w.sinks, q), w.used, q, StoryOf(w.hub.log, q));
        StoryPublishAll(w.hub, e.events, q);
      }
      TicketsAbsorb(w.ledger.issued, w.ledger.next, w.hub.log, e, log');
    }
  }

  lemma SinkTickets(w: World, s: SinkStep, r: RunId)
    requires SinkEnabled(w, s, r) && Stories(w.core, w.sinks, w.used, w.hub.log) && w.core.runs.Keys <= w.used
    requires Tickets(w.ledger.issued, w.ledger.next, w.hub.log) && w.ledger.next <= |w.ledger.issued| + 1
    ensures var w' := ApplySink(w, s, r);
            w'.ledger == w.ledger && Tickets(w.ledger.issued, w.ledger.next, w'.hub.log)
  {
    if s.PublishLine? && IsLive(w.core.runs, r) {
      var k := w.sinks[r];
      var b := Log(r, w.core.runs[r].status, k.delivered[k.published]);
      var e, log' := Effect(w.core, [b], None, None), Publish(w.hub, b).log;
      forall q ensures Ends(e, q, StoryOf(w.hub.log, q)) && StoryOf(log', q) == TellAll(StoryOf(w.hub.log, q), e.events, q) {
        assert StoryOk(w.core, Shown(w.sinks, q), w.used, q, StoryOf(w.hub.log, q));
        StoryPublish(w.hub, b, q);
      }
      TicketsAbsorb(w.ledger.issued, w.ledger.next, w.hub.log, e, log');
    }
  }

  /** Leaving the history: the ticket's run has shown no error before, so it may show this one. */
  lemma LeaveStories(w: World, ticket: nat)
    requires HistoryEnabled(w, LeaveHistory, ticket) && Stories(w.core, w.sinks, w.used, w.hub.log)
    requires Tickets(w.ledger.issued, w.ledger.next, w.hub.log) && w.core.runs.Keys <= w.used
    ensures var w' := ApplyHistory(w, LeaveHistory, ticket);
            && Stories(w'.core, w'.sinks, w'.used, w'.hub.log)
            && Tickets(w'.ledger.issued, w'.ledger.next, w'.hub.log)
  {
    var w', l, bodies := ApplyHistory(w, LeaveHistory, ticket), w.ledger, HistoryEvents(w.core, w.ledger);
    var x := l.issued[l.next - 1];
    assert TicketOk(x, true, StoryOf(w.hub.log, x.run));
    forall q
      ensures StoryOk(w'.core, Shown(w'.sinks, q), w'.used, q, StoryOf(w'.hub.log, q))
      ensures var s, s' := StoryOf(w.hub.log, q), StoryOf(w'.hub.log, q);
              s' == s || (q == x.run && s'.Over? && s' == s.(errorShown := true))
    {
      assert StoryOk(w.core, Shown(w.sinks, q), w.used, q, StoryOf(w.hub.log, q));
      StoryPublishAll(w.hub, bodies, q);
    }
    forall k | 0 <= k < |l.issued|
      ensures TicketOk(l.issued[k], k + 1 >= l.next + 1, StoryOf(w'.hub.log, l.issued[k].run))
    {
      assert TicketOk(l.issued[k], k + 1 >= l.next, StoryOf(w.hub.log, l.issued[k].run));
    }
  }
}
