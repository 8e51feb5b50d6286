/**
 The run service object: its critical sections, written against the fields they update, each
 proved to do exactly what the run protocol's step of the same name does.
 */
module RunServices {
  import opened EventLog
  import opened History
  import opened Options
  import opened RunCore
  import opened RunProtocol

  /** What the job repository knows about a job when a start is requested. */
  datatype JobInfo = JobInfo(id: JobId, revision: nat, queueLatest: bool)

  datatype StartOutcome = JobNotFound | RevisionConflict | Overlap | Reserved

  datatype StopOutcome = RunNotFound | RunNotActive | Accepted | Forward

  class RunService {
    const limits: Limits
    var runs: map<RunId, Run>
    var active: map<JobId, RunId>
    var pending: map<JobId, RunId>
    var eventID: nat
    var events: seq<Event>
    var subscribers: map<nat, Subscriber>
    var nextSubID: nat
    var historySequence: nat
    var historyNext: nat
    var historyFile: map<JobId, seq<Record>>
    ghost var log: seq<Event>

    ghost function Runs(): Core
      reads this
    {
      Core(runs, active, pending)
    }

    ghost function Events(): Hub
      reads this
    {
      Hub(limits.maxRuns * 8, eventID, events, subscribers, nextSubID, log)
    }

    ghost predicate Valid()
      reads this
    {
      CoreInv(Runs())
    }

    constructor (maxRuns: int, maxAge: int, file: map<JobId, seq<Record>>)
      ensures Runs() == Core(map[], map[], map[]) && historySequence == 0 && historyNext == 1
      ensures Events() == Hub(limits.maxRuns * 8, 0, [], map[], 0, []) && historyFile == file
      ensures limits.maxRuns == (if maxRuns <= 0 then 100 else maxRuns)
      ensures limits.maxAge == (if maxAge <= 0 then 24 * 3600 else maxAge)
    {
      limits := Limits(if maxRuns <= 0 then 100 else maxRuns, if maxAge <= 0 then 24 * 3600 else maxAge);
      runs, active, pending := map[], map[], map[];
      eventID, events, subscribers, nextSubID, log := 0, [], map[], 0, [];
      historySequence, historyNext, historyFile := 0, 1, file;
    }

    // ---------- Publishing ----------

    method PublishLocked(body: Body)
      modifies `eventID, `events, `subscribers, `log
      ensures Events() == Publish(old(Events()), body)
    {
      var maxEvents := limits.maxRuns * 8;
      var event := Event(eventID + 1, body);
      var kept := events + [event];
      if |kept| > maxEvents {
        kept := kept[|kept| - maxEvents..];
      }
      assert kept == Retain(events + [event], maxEvents);
      eventID, events, log := eventID + 1, kept, log + [event];
      Broadcast(event);
    }

    method Broadcast(event: Event)
      modifies `subscribers
      ensures subscribers == OfferAll(old(subscribers), event)
    {
      var todo := subscribers.Keys;
      while todo != {}
        invariant todo <= subscribers.Keys == old(subscribers).Keys
        invariant forall i | i in subscribers ::
                    subscribers[i] == if i in todo then old(subscribers)[i] else Offer(old(subscribers)[i], event)
        decreases |todo|
      {
        var i :| i in todo;
        var s := subscribers[i];
        if s.open {
          if |s.sent| - s.taken < s.capacity {
            subscribers := subscribers[i := s.(sent := s.sent + [event])];
          } else {
            subscribers := subscribers[i := s.(dropped := true)];
          }
        }
        todo := todo - {i};
      }
      assert subscribers == OfferAll(old(subscribers), event);
    }

    method PublishLog(r: RunId, line: Line)
      modifies `eventID, `events, `subscribers, `log
      ensures Events() == if IsLive(runs, r) then Publish(old(Events()), Log(r, runs[r].status, line)) else old(Events())
    {
      if r in runs && !Terminal(runs[r].status) {
        PublishLocked(Log(r, runs[r].status, line));
      }
    }

    method Subscribe(cursor: nat) returns (id: nat)
      requires HubInv(Events())
      modifies `subscribers, `nextSubID
      ensures Events() == EventLog.Subscribe(old(Events()), cursor) && id == nextSubID
    {
      var replay := [];
      for i := 0 to |events|
        invariant replay + After(events[i..], cursor) == After(events, cursor)
      {
        assert events[i..][0] == events[i] && events[i..][1..] == events[i + 1..];
        if events[i].id > cursor {
          assert replay + After(events[i..], cursor) == (replay + [events[i]]) + After(events[i + 1..], cursor);
          replay := replay + [events[i]];
        }
      }
      assert replay == After(events, cursor);
      nextSubID := nextSubID + 1;
      id := nextSubID;
      var from := Max(Min(cursor, eventID), eventID - |events|);
      subscribers := subscribers[id := Subscriber(|replay| + 64, replay, 0, true, from, false)];
    }

    method CloseSubscriber(id: nat)
      modifies `subscribers
      ensures Events() == if id in old(subscribers) then Unsubscribe(old(Events()), id) else old(Events())
    {
      if id in subscribers {
        subscribers := subscribers[id := subscribers[id].(open := false)];
      }
    }

    // ---------- Trimming and ending ----------

    method TrimLocked(now: Time) returns (ghost gone: set<RunId>)
      modifies `runs
      ensures LegalTrim(old(runs), limits, now, gone) && runs == old(runs) - gone
    {
      ghost var all := runs;
      DropExpired(now - limits.maxAge);
      gone := Expired(all, now - limits.maxAge);
      TrimStart(all, limits, now);
      var terminal := set r | r in runs && Terminal(runs[r].status);
      while |terminal| > limits.maxRuns
        invariant terminal == EndedRuns(all) - gone
        invariant runs == all - gone
        invariant Trimming(all, limits, now, gone)
        decreases |terminal|
      {
        var oldest := Oldest(terminal);
        TrimStep(all, limits, now, gone, runs, terminal, oldest);
        runs := runs - {oldest};
        gone := gone + {oldest};
        terminal := terminal - {oldest};
      }
      TrimEnd(all, limits, now, gone);
    }

    method DropExpired(cutoff: Time)
      modifies `runs
      ensures runs == old(runs) - Expired(old(runs), cutoff)
    {
      var todo := runs.Keys;
      while todo != {}
        invariant todo <= runs.Keys
        invariant runs == old(runs) - (Expired(old(runs), cutoff) - todo)
        decreases |todo|
      {
        var r :| r in todo;
        if Terminal(runs[r].status) && runs[r].finishedAt < cutoff {
          runs := runs - {r};
        }
        todo := todo - {r};
      }
    }

    method Oldest(terminal: set<RunId>) returns (oldest: RunId)
      requires terminal != {} && terminal <= runs.Keys
      ensures oldest in terminal && forall y | y in terminal :: runs[oldest].finishedAt <= runs[y].finishedAt
    {
      oldest :| oldest in terminal;
      var todo := terminal - {oldest};
      while todo != {}
        invariant oldest in terminal && todo <= terminal
        invariant forall y | y in terminal - todo :: runs[oldest].finishedAt <= runs[y].finishedAt
        decreases |todo|
      {
        var y :| y in todo;
        if runs[y].finishedAt < runs[oldest].finishedAt {
          oldest := y;
        }
        todo := todo - {y};
      }
    }

    method Prune(now: Time) returns (ghost gone: set<RunId>)
      modifies `runs
      ensures LegalTrim(old(runs), limits, now, gone)
      ensures Runs() == old(Runs()).(runs := old(runs) - gone)
    {
      gone := TrimLocked(now);
    }

    method Release(j: JobId, r: RunId)
      modifies `active, `pending
      ensures active == if j in old(active) && old(active)[j] == r then old(active) - {j} else old(active)
      ensures pending == if j in old(pending) && old(pending)[j] == r then old(pending) - {j} else old(pending)
    {
      if j in active && active[j] == r {
        active := active - {j};
      }
      if j in pending && pending[j] == r {
        pending := pending - {j};
      }
    }

    /** The held-back run is still in the table: a trim drops only ended runs. */
    method Promote(j: JobId) returns (spawn: Option<RunId>)
      requires j in pending ==> pending[j] in runs
      modifies `active, `pending
      ensures spawn == (if j in old(pending) then Some(old(pending)[j]) else None)
      ensures active == if j in old(pending) then old(active)[j := old(pending)[j]] else old(active)
      ensures pending == if j in old(pending) then old(pending) - {j} else old(pending)
    {
      spawn := None;
      if j in pending {
        var next := pending[j];
        pending := pending - {j};
        active := active[j := next];
        spawn := Some(next);
      }
    }

    method TrimAndPromote(j: JobId, now: Time) returns (spawn: Option<RunId>, ghost gone: set<RunId>)
      requires j in pending ==> IsLive(runs, pending[j])
      modifies `runs, `active, `pending
      ensures LegalTrim(old(runs), limits, now, gone) && runs == old(runs) - gone
      ensures spawn == (if j in old(pending) then Some(old(pending)[j]) else None)
      ensures active == if j in old(pending) then old(active)[j := old(pending)[j]] else old(active)
      ensures pending == if j in old(pending) then old(pending) - {j} else old(pending)
    {
      gone := TrimLocked(now);
      spawn := Promote(j);
    }

    method FinishLocked(r: RunId, result: Option<Ended>, now: Time)
      returns (finished: bool, spawn: Option<RunId>, ghost gone: set<RunId>)
      requires Valid()
      modifies `runs, `active, `pending, `eventID, `events, `subscribers, `log
      ensures IsLive(old(runs), r) ==> LegalTrim(Marked(old(Runs()), r, EndStatus(result), now), limits, now, gone)
      ensures var e := Finish(old(Runs()), r, EndStatus(result), now, gone);
              && Runs() == e.core && Events() == PublishAll(old(Events()), e.events)
              && spawn == e.spawn && finished == e.ticket.Some?
      ensures Valid()
    {
      gone, spawn := {}, None;
      finished := r in runs && !Terminal(runs[r].status);
      if finished {
        spawn, gone := EndLocked(r, result, now);
      }
    }

    /** The rest of finishLocked, for a run that has not ended. */
    method EndLocked(r: RunId, result: Option<Ended>, now: Time) returns (spawn: Option<RunId>, ghost gone: set<RunId>)
      requires Valid() && IsLive(runs, r)
      modifies `runs, `active, `pending, `eventID, `events, `subscribers, `log
      ensures LegalTrim(Marked(old(Runs()), r, EndStatus(result), now), limits, now, gone)
      ensures var e := Finish(old(Runs()), r, EndStatus(result), now, gone);
              Runs() == e.core && Events() == PublishAll(old(Events()), e.events) && spawn == e.spawn
      ensures Valid()
    {
      ghost var c := Runs();
      var run := runs[r].(canceled := true, finishedAt := now);
      run := run.(status := match result case Some(s) => s case None => Failed);
      runs := runs[r := run];
      Release(run.job, r);
      PublishLocked(State(r, run.job, run.status, false));
      ghost var released := Runs();
      spawn, gone := TrimAndPromote(run.job, now);
      EndsAs(c, r, EndStatus(result), now, gone, released, Runs());
      FinishKeeps(c, r, EndStatus(result), now, gone);
    }

    /** Releasing the slots, trimming and promoting amount to ending the run. */
    static lemma EndsAs(c: Core, r: RunId, status: Ended, now: Time, gone: set<RunId>, released: Core, after: Core)
      requires IsLive(c.runs, r)
      requires var j := c.runs[r].job;
               && released.runs == Marked(c, r, status, now)
               && released.active == (if j in c.active && c.active[j] == r then c.active - {j} else c.active)
               && released.pending == (if j in c.pending && c.pending[j] == r then c.pending - {j} else c.pending)
               && after == (if j in released.pending
                            then Core(released.runs - gone, released.active[j := released.pending[j]], released.pending - {j})
                            else Core(released.runs - gone, released.active, released.pending))
      ensures Finish(c, r, status, now, gone).core == after
      ensures var j := c.runs[r].job;
              Finish(c, r, status, now, gone).spawn == if j in released.pending then Some(released.pending[j]) else None
    {
    }

    method NextHistoryLocked() returns (sequence: nat)
      modifies `historySequence
      ensures historySequence == old(historySequence) + 1 == sequence
    {
      historySequence := historySequence + 1;
      sequence := historySequence;
    }

    /** The end of an execute goroutine; a stop may have ended the run already. */
    method FinishRun(r: RunId, result: Option<Ended>, now: Time)
      returns (sequence: Option<nat>, spawn: Option<RunId>, ghost gone: set<RunId>)
      requires Valid()
      modifies `runs, `active, `pending, `eventID, `events, `subscribers, `log, `historySequence
      ensures IsLive(old(runs), r) ==> LegalTrim(Marked(old(Runs()), r, EndStatus(result), now), limits, now, gone)
      ensures Does(Finish(old(Runs()), r, EndStatus(result), now, gone), old(Events()), old(historySequence), spawn, sequence)
      ensures IsLive(old(runs), r) ==>
                HasEndedAs(r, match result case Some(s) => s case None => Failed, now, gone, sequence)
      ensures !IsLive(old(runs), r) ==> NothingEnded(sequence) && runs == old(runs)
      ensures Valid()
    {
      ghost var c, h := Runs(), Events();
      var finished;
      finished, spawn, gone := FinishLocked(r, result, now);
      sequence := None;
      if finished {
        FinishMeans(c, h, r, EndStatus(result), now, gone);
        var n := NextHistoryLocked();
        sequence := Some(n);
      }
    }

    /** The run has ended with the status: in the table, to the subscribers, and with a ticket for the history. */
    twostate predicate HasEndedAs(r: RunId, status: Status, now: Time, gone: set<RunId>, ticket: Option<nat>)
      requires r in old(runs)
      reads this
    {
      var run := old(runs)[r];
      && runs == old(runs)[r := run.(status := status, canceled := true, finishedAt := now)] - gone
      && log == old(log) + [Event(old(eventID) + 1, State(r, run.job, status, false))]
      && historySequence == old(historySequence) + 1 && ticket == Some(historySequence)
    }

    twostate predicate NothingEnded(ticket: Option<nat>)
      reads this
    {
      log == old(log) && historySequence == old(historySequence) && ticket == None
    }

    static lemma FinishMeans(c: Core, h: Hub, r: RunId, status: Ended, now: Time, gone: set<RunId>)
      requires IsLive(c.runs, r)
      ensures var e, run := Finish(c, r, status, now, gone), c.runs[r];
              && e.core.runs == c.runs[r := run.(status := status, canceled := true, finishedAt := now)] - gone
              && e.ticket.Some?
              && PublishAll(h, e.events).log == h.log + [Event(h.eventID + 1, State(r, run.job, status, false))]
    {
      var b := State(r, c.runs[r].job, status, false);
      assert PublishAll(h, [b]) == Publish(h, b);
    }

    /** The state is the one an effect asks for, with a ticket taken exactly when it ends a run. */
    ghost predicate Does(e: Effect, events: Hub, sequence: nat, spawn: Option<RunId>, ticket: Option<nat>)
      reads this
    {
      && Runs() == e.core
      && Events() == PublishAll(events, e.events)
      && spawn == e.spawn
      && historySequence == sequence + (if e.ticket.Some? then 1 else 0)
      && ticket == (if e.ticket.Some? then Some(sequence + 1) else None)
    }

    // ---------- Start ----------

    /** A rejected request is still an observable, ended run. */
    method Reject(r: RunId, j: JobId, now: Time) returns (ticket: nat)
      modifies `runs, `eventID, `events, `subscribers, `log, `historySequence
      ensures var run := Fresh(j).(status := SkippedOverlap, canceled := true, finishedAt := now);
              && Runs() == old(Runs()).(runs := old(runs)[r := run])
              && Events() == Publish(old(Events()), StateOf(r, run))
      ensures historySequence == old(historySequence) + 1 == ticket
    {
      var run := Run(j, Queued, false, false, false, false, 0);
      run := run.(canceled := true, status := SkippedOverlap, finishedAt := now);
      runs := runs[r := run];
      PublishLocked(State(r, j, SkippedOverlap, false));
      ticket := NextHistoryLocked();
    }

    /** The newest request of a busy job replaces the one held back before it. */
    method HoldBack(r: RunId, j: JobId, now: Time)
      returns (ticket: Option<nat>, spawn: Option<RunId>, ghost gone: set<RunId>)
      requires Valid() && r !in runs && j in active
      modifies `runs, `active, `pending, `eventID, `events, `subscribers, `log, `historySequence
      ensures j in old(pending) ==>
                LegalTrim(Marked(old(Runs()), old(pending)[j], SkippedOverlap, now), limits, now, gone)
      ensures Does(Reserve(old(Runs()), r, j, true, now, gone), old(Events()), old(historySequence), spawn, ticket)
      ensures HeldBack(r, j, ticket) && spawn == None
    {
      ghost var c, h := Runs(), Events();
      ticket, spawn, gone := Requeue(r, j, now);
      ReserveMeans(c, h, r, j, now, gone);
    }

    method Requeue(r: RunId, j: JobId, now: Time)
      returns (ticket: Option<nat>, spawn: Option<RunId>, ghost gone: set<RunId>)
      requires Valid() && r !in runs && j in active
      modifies `runs, `active, `pending, `eventID, `events, `subscribers, `log, `historySequence
      ensures j in old(pending) ==>
                LegalTrim(Marked(old(Runs()), old(pending)[j], SkippedOverlap, now), limits, now, gone)
      ensures Does(Reserve(old(Runs()), r, j, true, now, gone), old(Events()), old(historySequence), spawn, ticket)
    {
      ticket, spawn, gone := None, None, {};
      ghost var c, h := Runs(), Events();
      if j in pending {
        ticket, spawn, gone := FinishRun(pending[j], Some(SkippedOverlap), now);
        PublishAllThen(h, Finish(c, c.pending[j], SkippedOverlap, now, gone).events, StateOf(r, Fresh(j)));
      } else {
        PublishAllThen(h, [], StateOf(r, Fresh(j)));
      }
      Queue(r, j);
    }

    twostate predicate NoTicket(ticket: Option<nat>)
      reads this
    {
      historySequence == old(historySequence) && ticket == None
    }

    /** The request took the slot of the one held back before, which then ended as skipped. */
    twostate predicate HeldBack(r: RunId, j: JobId, ticket: Option<nat>)
      reads this
    {
      && active == old(active) && pending == old(pending)[j := r]
      && if j in old(pending) then
           && log == old(log) + [Event(old(eventID) + 1, State(old(pending)[j], j, SkippedOverlap, false))]
                     + [Event(old(eventID) + 2, State(r, j, Queued, false))]
           && historySequence == old(historySequence) + 1 && ticket == Some(historySequence)
         else
           && log == old(log) + [Event(old(eventID) + 1, State(r, j, Queued, false))]
           && historySequence == old(historySequence) && ticket == None
    }

    static lemma ReserveMeans(c: Core, h: Hub, r: RunId, j: JobId, now: Time, gone: set<RunId>)
      requires CoreInv(c) && j in c.active
      ensures var e := Reserve(c, r, j, true, now, gone);
              && e.core.active == c.active && e.core.pending == c.pending[j := r] && e.spawn == None
              && (e.ticket.Some? <==> j in c.pending)
              && PublishAll(h, e.events).log ==
                 if j in c.pending
                 then h.log + [Event(h.eventID + 1, State(c.pending[j], j, SkippedOverlap, false))]
                      + [Event(h.eventID + 2, State(r, j, Queued, false))]
                 else h.log + [Event(h.eventID + 1, State(r, j, Queued, false))]
    {
      if j in c.pending {
        FinishMeans(c, h, c.pending[j], SkippedOverlap, now, gone);
        PublishAllThen(h, Finish(c, c.pending[j], SkippedOverlap, now, gone).events, StateOf(r, Fresh(j)));
      } else {
        PublishAllThen(h, [], StateOf(r, Fresh(j)));
      }
    }

    method Queue(r: RunId, j: JobId)
      modifies `runs, `pending, `eventID, `events, `subscribers, `log
      ensures Runs() == old(Runs()).(runs := old(runs)[r := Fresh(j)], pending := old(pending)[j := r])
      ensures Events() == Publish(old(Events()), StateOf(r, Fresh(j)))
    {
      runs := runs[r := Run(j, Queued, false, false, false, false, 0)];
      pending := pending[j := r];
      PublishLocked(State(r, j, Queued, false));
    }

    /** A request for an idle job becomes active at once, and its goroutine is spawned. */
    method Activate(r: RunId, j: JobId) returns (spawn: RunId)
      modifies `runs, `active, `eventID, `events, `subscribers, `log
      ensures Runs() == old(Runs()).(runs := old(runs)[r := Fresh(j)], active := old(active)[j := r])
      ensures Events() == Publish(old(Events()), StateOf(r, Fresh(j))) && spawn == r
    {
      runs := runs[r := Run(j, Queued, false, false, false, false, 0)];
      active := active[j := r];
      PublishLocked(State(r, j, Queued, false));
      spawn := r;
    }

    ghost predicate Starts(job: JobInfo, r: RunId, now: Time, gone: set<RunId>, c: Core, h: Hub, sequence: nat,
                           spawn: Option<RunId>, ticket: Option<nat>)
      reads this
    {
      Does(Reserve(c, r, job.id, job.queueLatest, now, gone), h, sequence, spawn, ticket)
    }

    method Start(job: Option<JobInfo>, revision: nat, r: RunId, now: Time)
      returns (outcome: StartOutcome, ticket: Option<nat>, spawn: Option<RunId>, ghost gone: set<RunId>)
      requires Valid() && r !in runs
      modifies `runs, `active, `pending, `eventID, `events, `subscribers, `log, `historySequence
      ensures outcome.JobNotFound? <==> job.None?
      ensures outcome.RevisionConflict? <==> job.Some? && revision != 0 && revision != job.value.revision
      ensures outcome.Overlap? <==>
                && job.Some? && (revision == 0 || revision == job.value.revision)
                && job.value.id in old(active) && !job.value.queueLatest
      ensures outcome.JobNotFound? || outcome.RevisionConflict? ==>
                Does(Effect(old(Runs()), [], None, None), old(Events()), old(historySequence), spawn, ticket)
      ensures outcome.Overlap? || outcome.Reserved? ==>
                Starts(job.value, r, now, gone, old(Runs()), old(Events()), old(historySequence), spawn, ticket)
      ensures outcome.Overlap? ==>
                var run := Run(job.value.id, SkippedOverlap, false, false, false, true, now);
                && runs == old(runs)[r := run] && active == old(active) && pending == old(pending)
                && log == old(log) + [Event(old(eventID) + 1, State(r, job.value.id, SkippedOverlap, false))]
                && historySequence == old(historySequence) + 1 && ticket == Some(historySequence)
      ensures outcome.Reserved? ==> r in runs && runs[r] == Run(job.value.id, Queued, false, false, false, false, 0)
      ensures outcome.Reserved? && job.value.id !in old(active) ==>
                && active == old(active)[job.value.id := r] && pending == old(pending)
                && log == old(log) + [Event(old(eventID) + 1, State(r, job.value.id, Queued, false))]
                && spawn == Some(r) && NoTicket(ticket)
      ensures outcome.Reserved? && job.value.id in old(active) ==> HeldBack(r, job.value.id, ticket) && spawn == None
      ensures outcome.Reserved? && job.value.id in old(pending) ==>
                LegalTrim(Marked(old(Runs()), old(pending)[job.value.id], SkippedOverlap, now), limits, now, gone)
      ensures Valid()
    {
      ghost var c := Runs();
      ticket, spawn, gone := None, None, {};
      if job.None? {
        outcome := JobNotFound;
      } else if revision != 0 && revision != job.value.revision {
        outcome := RevisionConflict;
      } else if job.value.id in active && !job.value.queueLatest {
        var n := Reject(r, job.value.id, now);
        ticket, outcome := Some(n), Overlap;
      } else if job.value.id in active {
        ticket, spawn, gone := HoldBack(r, job.value.id, now);
        outcome := Reserved;
      } else {
        var q := Activate(r, job.value.id);
        spawn, outcome := Some(q), Reserved;
      }
      if outcome.Overlap? || outcome.Reserved? {
        ReserveKeeps(c, r, job.value.id, job.value.queueLatest, now, gone);
      }
    }

    // ---------- Stop ----------

    method Stop(r: RunId, now: Time)
      returns (outcome: StopOutcome, ticket: Option<nat>, spawn: Option<RunId>, ghost gone: set<RunId>)
      requires Valid()
      modifies `runs, `active, `pending, `eventID, `events, `subscribers, `log, `historySequence
      ensures outcome.RunNotFound? <==> r !in old(runs)
      ensures outcome.Accepted? <==> IsQueued(old(Runs()), r)
      ensures outcome.Forward? <==> r in old(runs) && old(runs)[r].status == Running && old(runs)[r].attached
      ensures IsLive(old(runs), r) ==> LegalTrim(Marked(old(Runs()), r, Killed, now), limits, now, gone)
      ensures Does(StopQueued(old(Runs()), r, now, gone), old(Events()), old(historySequence), spawn, ticket)
      ensures outcome.Accepted? && !old(runs)[r].starting ==> HasEndedAs(r, Killed, now, gone, ticket)
      ensures outcome.Accepted? && old(runs)[r].starting ==>
                NothingEnded(ticket) && runs == old(runs)[r := old(runs)[r].(stopRequested := true, canceled := true)]
      ensures !outcome.Accepted? ==> NothingEnded(ticket) && runs == old(runs)
      ensures Valid()
    {
      ticket, spawn, gone := None, None, {};
      if r !in runs {
        outcome := RunNotFound;
        return;
      }
      if runs[r].status == Queued {
        outcome := Accepted;
        if runs[r].starting {
          gone := AnyTrim(Marked(Runs(), r, Killed, now), now);
          runs := runs[r := runs[r].(stopRequested := true, canceled := true)];
          return;
        }
        ticket, spawn, gone := FinishRun(r, Some(Killed), now);
        return;
      }
      gone := AnyTrim(Marked(Runs(), r, Killed, now), now);
      outcome := if runs[r].status != Running || !runs[r].attached then RunNotActive else Forward;
    }

    /** The trim of a step that does not trim. */
    ghost method AnyTrim(all: map<RunId, Run>, now: Time) returns (gone: set<RunId>)
      ensures LegalTrim(all, limits, now, gone)
    {
      gone := TrimExists(all, limits, now, Expired(all, now - limits.maxAge));
    }

    // ---------- The execute goroutine's own sections ----------

    method ClaimStart(r: RunId) returns (claimed: bool)
      modifies `runs
      ensures claimed == IsQueued(old(Runs()), r)
      ensures Runs() == if claimed then Claim(old(Runs()), r) else old(Runs())
    {
      if r !in runs || runs[r].status != Queued {
        claimed := false;
        return;
      }
      runs := runs[r := runs[r].(starting := true)];
      claimed := true;
    }

    method AttachHandle(r: RunId) returns (stopRequested: bool)
      modifies `runs, `eventID, `events, `subscribers, `log
      ensures Runs() == Attach(old(Runs()), r).core
      ensures Events() == PublishAll(old(Events()), Attach(old(Runs()), r).events)
      ensures stopRequested == (IsQueued(old(Runs()), r) && old(runs)[r].stopRequested)
    {
      stopRequested := false;
      if r in runs && runs[r].status == Queued {
        var run := runs[r].(attached := true, starting := false);
        stopRequested := run.stopRequested;
        run := run.(status := Running);
        runs := runs[r := run];
        PublishLocked(State(r, run.job, Running, false));
      }
    }

    // ---------- History ----------

    /** What a ticket holder does when its turn has come. */
    method PersistHistory(sequence: nat, record: Record, outcome: WriteOutcome)
      requires sequence == historyNext
      modifies `historyNext, `historyFile, `eventID, `events, `subscribers, `log
      ensures historyNext == old(historyNext) + 1
      ensures historyFile == Write(old(historyFile), Writing(record, outcome))
      ensures Events() == if outcome.failed() && record.run in runs
                          then Publish(old(Events()), State(record.run, runs[record.run].job, runs[record.run].status, true))
                          else old(Events())
    {
      AppendHistory(record, outcome);
      if outcome.failed() {
        if record.run in runs {
          PublishLocked(State(record.run, runs[record.run].job, runs[record.run].status, true));
        }
      }
      historyNext := historyNext + 1;
    }

    method AppendHistory(record: Record, outcome: WriteOutcome)
      modifies `historyFile
      ensures historyFile == Write(old(historyFile), Writing(record, outcome))
    {
      var m := historyFile;
      var list := [record] + (if record.job in m then m[record.job] else []);
      if |list| > HIST_KEEP {
        list := list[..HIST_KEEP];
      }
      m := m[record.job := list];
      if outcome.applied() {
        historyFile := m;
      }
    }
  }
}
