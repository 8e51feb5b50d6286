/**
 The inductive invariant of the run protocol, and that every step of it keeps it.
 */
module RunInvariant {
  import opened EventLog
  import opened History
  import opened Options
  import opened RunCore
  import opened RunProtocol
  import opened RunSinks
  import opened RunStories
  import opened RunThreads

  /** The goroutines that hold history tickets hold exactly the outstanding ones. */
  ghost predicate HoldersInv(sequence: nat, holders: set<nat>, l: Ledger) {
    && sequence == |l.issued|
    && (forall n :: n in holders <==> l.next <= n <= sequence)
  }

  /** The latest accepted request of a job: rejected requests are never accepted. */
  function Latest(accepted: seq<(JobId, RunId)>, j: JobId): Option<RunId> {
    if accepted == [] then None
    else if accepted[|accepted| - 1].0 == j then Some(accepted[|accepted| - 1].1)
    else Latest(accepted[..|accepted| - 1], j)
  }

  ghost predicate NewestInv(c: Core, accepted: seq<(JobId, RunId)>) {
    forall j | j in c.pending :: Latest(accepted, j) == Some(c.pending[j])
  }

  ghost predicate Inv(w: World) {
    && Threads(w)
    && Sinks(w.pc, w.sinks)
    && Stories(w.core, w.sinks, w.used, w.hub.log)
    && Tickets(w.ledger.issued, w.ledger.next, w.hub.log)
    && LedgerInv(w.ledger)
    && HoldersInv(w.sequence, w.holders, w.ledger)
    && HubInv(w.hub)
    && NewestInv(w.core, w.accepted)
  }

  lemma InitialInv(maxEvents: nat, prior: map<JobId, seq<Record>>)
    ensures Inv(Initial(maxEvents, prior))
  {
  }

  // ---------- Table steps ----------

  lemma FinishNewest(c: Core, r: RunId, status: Ended, now: Time, gone: set<RunId>, accepted: seq<(JobId, RunId)>)
    requires NewestInv(c, accepted)
    ensures NewestInv(Finish(c, r, status, now, gone).core, accepted)
  {
  }

  lemma TableNewest(w: World, t: TableStep, r: RunId, now: Time, gone: set<RunId>)
    requires CoreInv(w.core) && NewestInv(w.core, w.accepted)
    ensures var w' := ApplyTable(w, t, r, now, gone); NewestInv(w'.core, w'.accepted)
  {
    match t {
      case Start(j, queueLatest) =>
        var accepted := w.accepted + [(j, r)];
        assert accepted[..|accepted| - 1] == w.accepted;
        if j in w.core.pending {
          FinishNewest(w.core, w.core.pending[j], SkippedOverlap, now, gone, w.accepted);
        }
      case Stop => FinishNewest(w.core, r, Killed, now, gone, w.accepted);
      case Prune =>
      case _ => FinishNewest(w.core, r, Ending(w, t, r), now, gone, w.accepted);
    }
  }

  lemma AbsorbLedger(w: World, e: Effect)
    requires LedgerInv(w.ledger) && HoldersInv(w.sequence, w.holders, w.ledger)
    ensures var w' := Absorb(w, e); LedgerInv(w'.ledger) && HoldersInv(w'.sequence, w'.holders, w'.ledger)
  {
  }

  lemma TableTickets(w: World, limits: Limits, t: TableStep, r: RunId, now: Time, gone: set<RunId>)
    requires Inv(w) && TableEnabled(w, limits, t, r, now, gone)
    requires t.FinishRun? && IsLive(w.core.runs, r) && w.core.runs[r].status == Queued ==> w.pc[r].StartFailing?
    ensures var w' := ApplyTable(w, t, r, now, gone); Tickets(w'.ledger.issued, w'.ledger.next, w'.hub.log)
  {
    var e, log' := TableEffect(w, t, r, now, gone), ApplyTable(w, t, r, now, gone).hub.log;
    forall q ensures Ends(e, q, StoryOf(w.hub.log, q)) && StoryOf(log', q) == TellAll(StoryOf(w.hub.log, q), e.events, q) {
      TableEnds(w, limits, t, r, now, gone, q);
      StoryPublishAll(w.hub, e.events, q);
    }
    TicketsAbsorb(w.ledger.issued, w.ledger.next, w.hub.log, e, log');
  }

  lemma TableKeeps(w: World, limits: Limits, t: TableStep, r: RunId, now: Time, gone: set<RunId>)
    requires Inv(w) && TableEnabled(w, limits, t, r, now, gone)
    ensures Inv(ApplyTable(w, t, r, now, gone))
    ensures ApplyTable(w, t, r, now, gone).hub.maxEvents == w.hub.maxEvents
  {
    if t.FinishRun? {
      assert Agrees(w.core, CallsOf(w), r, w.pc[r]);
    }
    var e := TableEffect(w, t, r, now, gone);
    SpawnsAnew(w, limits, t, r, now, gone);
    TableThreads(w, limits, t, r, now, gone);
    TableSinks(w.pc, w.sinks, t, r, e.spawn);
    TableStories(w, limits, t, r, now, gone);
    TableTickets(w, limits, t, r, now, gone);
    AbsorbLedger(w.(pc := Leaving(w.pc, t, r)), e);
    PublishAllKeeps(w.hub, e.events);
    TableNewest(w, t, r, now, gone);
  }

  // ---------- The other steps ----------

  lemma ThreadKeeps(w: World, m: ThreadStep, r: RunId)
    requires Inv(w) && ThreadEnabled(w, m, r)
    ensures Inv(ApplyThread(w, m, r))
    ensures ApplyThread(w, m, r).hub.maxEvents == w.hub.maxEvents
  {
    ThreadThreads(w, m, r);
    ThreadSinks(w, m, r);
    ThreadStories(w, m, r);
    ThreadTickets(w, m, r);
    PublishAllKeeps(w.hub, Attach(w.core, r).events);
  }

  /** Output appears only while its run is live: the run ends after its consumer is done. */
  lemma PublishWhileLive(w: World, r: RunId)
    requires Inv(w) && SinkEnabled(w, PublishLine, r)
    ensures IsLive(w.core.runs, r)
  {
    assert SinkOk(w.sinks[r]) && SinkAt(w.sinks[r], w.pc[r]);
    assert Agrees(w.core, CallsOf(w), r, w.pc[r]);
  }

  lemma SinkKeeps(w: World, s: SinkStep, r: RunId)
    requires Inv(w) && SinkEnabled(w, s, r)
    ensures Inv(ApplySink(w, s, r))
    ensures ApplySink(w, s, r).hub.maxEvents == w.hub.maxEvents
  {
    SinkSinks(w, s, r);
    if s.PublishLine? {
      PublishWhileLive(w, r);
      var k := w.sinks[r];
      PublishKeeps(w.hub, Log(r, w.core.runs[r].status, k.delivered[k.published]));
    }
    SinkStories(w, s, r);
    SinkTickets(w, s, r);
  }

  lemma HistoryKeeps(w: World, h: HistoryStep, ticket: nat)
    requires Inv(w) && HistoryEnabled(w, h, ticket)
    ensures Inv(ApplyHistory(w, h, ticket))
    ensures ApplyHistory(w, h, ticket).hub.maxEvents == w.hub.maxEvents
  {
    if h.AppendHistory? {
      AppendKeeps(w.ledger, h.outcome);
    } else {
      LeaveStories(w, ticket);
      PublishAllKeeps(w.hub, HistoryEvents(w.core, w.ledger));
    }
  }

  lemma ReaderKeeps(w: World, d: ReaderStep)
    requires Inv(w) && ReaderEnabled(w, d)
    ensures Inv(ApplyReader(w, d))
    ensures ApplyReader(w, d).hub.maxEvents == w.hub.maxEvents
  {
    match d {
      case NewSubscriber(cursor) => SubscribeKeeps(w.hub, cursor);
      case ReadEvent(i) => ReceiveKeeps(w.hub, i);
      case CloseSubscriber(i) =>
    }
  }

  lemma StepKeeps(w: World, limits: Limits, a: Action)
    requires Inv(w) && Enabled(w, limits, a)
    ensures Inv(Apply(w, limits, a))
    ensures Apply(w, limits, a).hub.maxEvents == w.hub.maxEvents
  {
    match a {
      case Table(t, r, now, gone) => TableKeeps(w, limits, t, r, now, gone);
      case Thread(m, r) => ThreadKeeps(w, m, r);
      case Sinking(s, r) => SinkKeeps(w, s, r);
      case Recording(h, ticket) => HistoryKeeps(w, h, ticket);
      case Reading(d) => ReaderKeeps(w, d);
    }
  }

  /** Every state of every behaviour satisfies the invariant. */
  lemma {:induction false} AlwaysInv(ws: seq<World>, limits: Limits, prior: map<JobId, seq<Record>>, k: nat)
    requires Behaviour(ws, limits, prior) && k < |ws|
    ensures Inv(ws[k]) && ws[k].hub.maxEvents == limits.maxRuns * 8
  {
    if k == 0 {
      InitialInv(limits.maxRuns * 8, prior);
    } else {
      AlwaysInv(ws, limits, prior, k - 1);
      assert Follows(ws, limits, k);
      var a :| Enabled(ws[k - 1], limits, a) && ws[k] == Apply(ws[k - 1], limits, a);
      StepKeeps(ws[k - 1], limits, a);
    }
  }
}
