/**
 The run protocol: the run table, the execute goroutines, their log sinks, the holders of
 history tickets and the history file, moving together one critical section (or one outside
 answer) at a time, in any order.
 */
module RunProtocol {
  import opened EventLog
  import opened History
  import opened Options
  import opened RunCore

  // ---------- State ----------

  /** Where the execute goroutine of a run stands. */
  datatype Pc =
    | Spawned              // about to read its run
    | Compiling            // in the plan compiler
    | Installing(ok: bool) // compiled and still queued; installing unless compilation failed
    | Failing              // about to end the run as start_failed
    | SinkReady            // log consumer running, about to claim the executor call
    | Starting             // inside Executor.Start
    | StartFailing         // Start failed, sink closed, waiting for the log consumer
    | Attaching            // Start returned a handle, about to publish it
    | Stopping             // forwarding a stop noted during Start
    | Waiting              // in handle.Wait
    | Draining(result: Option<Ended>) // has a result, waiting for the log consumer
    | Done

  predicate Early(p: Pc) { p.Spawned? || p.Compiling? || p.Installing? || p.Failing? || p.SinkReady? }
  predicate InStart(p: Pc) { p.Starting? || p.StartFailing? || p.Attaching? }
  predicate InRun(p: Pc) { p.Stopping? || p.Waiting? || p.Draining? }

  /** The executor's side of a run: nothing launched, streaming output, or stream closed with a result. */
  datatype Exec = NotLaunched | Streaming | Over(result: Option<Ended>)

  /** A log sink: `delivered` is all the executor put in, `published` all the consumer has published. */
  datatype Sink = Sink(exec: Exec, delivered: seq<Line>, taken: nat, published: nat, lost: nat,
                       closes: nat, consumerDone: bool)

  const SINK_CAPACITY := 256

  datatype World = World(
    core: Core, hub: Hub,
    pc: map<RunId, Pc>, sinks: map<RunId, Sink>, forwarded: set<RunId>, startCalls: multiset<RunId>,
    used: set<RunId>, accepted: seq<(JobId, RunId)>,
    sequence: nat, holders: set<nat>, ledger: Ledger)

  // ---------- Steps ----------

  /** Critical sections that reserve, end or drop runs. */
  datatype TableStep =
    | Start(j: JobId, queueLatest: bool)
    | Stop
    | FailRun     // compilation or installation failed
    | FinishRun   // the executor refused, or has delivered its result and all its output
    | Prune

  /** The other moves of an execute goroutine. */
  datatype ThreadStep =
    | ReadRun
    | Compiled(ok: bool)
    | Installed(ok: bool)
    | ClaimStart
    | StartRefused
    | StartReturned
    | AttachHandle
    | ForwardStop
    | Waited

  /** The executor filling a log sink, and the consumer emptying it. */
  datatype SinkStep =
    | Launch
    | Emit(line: Line)
    | EndStream(result: Option<Ended>)
    | TakeLine
    | PublishLine
    | ConsumerExit

  datatype HistoryStep = AppendHistory(outcome: WriteOutcome) | LeaveHistory

  datatype ReaderStep = NewSubscriber(cursor: nat) | ReadEvent(sub: nat) | CloseSubscriber(sub: nat)

  datatype Action =
    | Table(t: TableStep, r: RunId, now: Time, gone: set<RunId>)
    | Thread(m: ThreadStep, r: RunId)
    | Sinking(s: SinkStep, r: RunId)
    | Recording(h: HistoryStep, ticket: nat)
    | Reading(d: ReaderStep)

  /** Everything a critical section does besides moving its own goroutine. */
  function Absorb(w: World, e: Effect): World {
    var w1 := w.(core := e.core, hub := PublishAll(w.hub, e.events), pc := Spawn(w.pc, e.spawn));
    if e.ticket.Some?
    then w1.(sequence := w1.sequence + 1, holders := w1.holders + {w1.sequence + 1},
             ledger := Issue(w1.ledger, e.ticket.value))
    else w1
  }

  function Spawn(pc: map<RunId, Pc>, next: Option<RunId>): map<RunId, Pc> {
    if next.Some? then pc[next.value := Spawned] else pc
  }

  function Move(w: World, r: RunId, p: Pc): World { w.(pc := w.pc[r := p]) }

  function Pour(w: World, r: RunId, s: Sink): World { w.(sinks := w.sinks[r := s]) }

  function EndStatus(result: Option<Ended>): Ended {
    match result
    case Some(s) => s
    case None => Failed
  }

  /** The status a run is about to be ended with, if the step ends one. */
  function Ending(w: World, t: TableStep, r: RunId): Ended {
    match t
    case Stop => Killed
    case Start(_, _) => SkippedOverlap
    case FinishRun => if r in w.pc && w.pc[r].Draining? then EndStatus(w.pc[r].result) else StartFailed
    case _ => StartFailed
  }

  /** The trim made while ending run `r`, if it ends it at all, is a legal one. */
  ghost predicate TrimOk(w: World, limits: Limits, r: RunId, status: Ended, now: Time, gone: set<RunId>) {
    IsLive(w.core.runs, r) ==> LegalTrim(Marked(w.core, r, status, now), limits, now, gone)
  }

  ghost predicate TableEnabled(w: World, limits: Limits, t: TableStep, r: RunId, now: Time, gone: set<RunId>) {
    match t
    case Start(j, _) =>
      r !in w.used && (j in w.core.pending ==> TrimOk(w, limits, w.core.pending[j], SkippedOverlap, now, gone))
    case Stop => TrimOk(w, limits, r, Killed, now, gone)
    case FailRun => r in w.pc && w.pc[r].Failing? && TrimOk(w, limits, r, StartFailed, now, gone)
    case FinishRun =>
      && r in w.pc && (w.pc[r].StartFailing? || w.pc[r].Draining?)
      && r in w.sinks && w.sinks[r].consumerDone
      && TrimOk(w, limits, r, Ending(w, t, r), now, gone)
    case Prune => LegalTrim(w.core.runs, limits, now, gone)
  }

  function TableEffect(w: World, t: TableStep, r: RunId, now: Time, gone: set<RunId>): Effect {
    match t
    case Start(j, queueLatest) => Reserve(w.core, r, j, queueLatest, now, gone)
    case Stop => StopQueued(w.core, r, now, gone)
    case Prune => Effect(w.core.(runs := w.core.runs - gone), [], None, None)
    case _ => Finish(w.core, r, Ending(w, t, r), now, gone)
  }

  /** Where the goroutines stand before the step's own spawn: one that ends its run is done. */
  function Leaving(pc: map<RunId, Pc>, t: TableStep, r: RunId): map<RunId, Pc> {
    if t.FailRun? || t.FinishRun? then pc[r := Done] else pc
  }

  function ApplyTable(w: World, t: TableStep, r: RunId, now: Time, gone: set<RunId>): World {
    var w' := Absorb(w.(pc := Leaving(w.pc, t, r)), TableEffect(w, t, r, now, gone));
    if t.Start?
    then w'.(used := w.used + {r},
             accepted := if t.j in w.core.active && !t.queueLatest then w.accepted else w.accepted + [(t.j, r)])
    else w'
  }

  predicate ThreadEnabled(w: World, m: ThreadStep, r: RunId) {
    && r in w.pc
    && match m
       case ReadRun => w.pc[r].Spawned?
       case Compiled(_) => w.pc[r].Compiling?
       case Installed(ok) => w.pc[r].Installing? && (ok ==> w.pc[r].ok)
       case ClaimStart => w.pc[r].SinkReady? && r in w.sinks
       case StartRefused => w.pc[r].Starting? && r in w.sinks && w.sinks[r].exec.NotLaunched?
       case StartReturned => w.pc[r].Starting? && r in w.sinks && !w.sinks[r].exec.NotLaunched?
       case AttachHandle => w.pc[r].Attaching?
       case ForwardStop => w.pc[r].Stopping?
       case Waited => w.pc[r].Waiting? && r in w.sinks && w.sinks[r].exec.Over?
  }

  function Close(s: Sink): Sink { s.(closes := s.closes + 1) }

  function ApplyThread(w: World, m: ThreadStep, r: RunId): World
    requires ThreadEnabled(w, m, r)
  {
    match m
    case ReadRun => Move(w, r, if r in w.core.runs then Compiling else Done)
    case Compiled(ok) => Move(w, r, if IsQueued(w.core, r) then Installing(ok) else Done)
    case Installed(ok) =>
      if !IsQueued(w.core, r) then Move(w, r, Done)
      else if !ok then Move(w, r, Failing)
      else Pour(Move(w, r, SinkReady), r, Sink(NotLaunched, [], 0, 0, 0, 0, false))
    case ClaimStart =>
      if IsQueued(w.core, r)
      then Move(w, r, Starting).(core := Claim(w.core, r), startCalls := w.startCalls + multiset{r})
      else Pour(Move(w, r, Done), r, Close(w.sinks[r]))
    case StartRefused => Pour(Move(w, r, StartFailing), r, Close(w.sinks[r]))
    case StartReturned => Move(w, r, Attaching)
    case AttachHandle =>
      var stop := IsQueued(w.core, r) && w.core.runs[r].stopRequested;
      Absorb(Move(w, r, if stop then Stopping else Waiting), Attach(w.core, r))
    case ForwardStop => Move(w, r, Waiting).(forwarded := w.forwarded + {r})
    case Waited => Move(w, r, Draining(w.sinks[r].exec.result))
  }

  predicate SinkEnabled(w: World, s: SinkStep, r: RunId) {
    && r in w.sinks
    && var k := w.sinks[r];
       match s
       case Launch => r in w.pc && w.pc[r].Starting? && k.exec.NotLaunched?
       case Emit(_) => k.exec.Streaming?
       case EndStream(_) => k.exec.Streaming?
       case TakeLine => k.published == k.taken < |k.delivered|
       case PublishLine => k.published < k.taken <= |k.delivered|
       case ConsumerExit => k.closes > 0 && k.published == k.taken == |k.delivered|
  }

  function ApplySink(w: World, s: SinkStep, r: RunId): World
    requires SinkEnabled(w, s, r)
  {
    var k := w.sinks[r];
    match s
    case Launch => Pour(w, r, k.(exec := Streaming))
    case Emit(line) =>
      Pour(w, r, if |k.delivered| - k.taken < SINK_CAPACITY then k.(delivered := k.delivered + [line])
                 else k.(lost := k.lost + 1))
    case EndStream(result) => Pour(w, r, Close(k).(exec := Over(result)))
    case TakeLine => Pour(w, r, k.(taken := k.taken + 1))
    case PublishLine =>
      var w' := Pour(w, r, k.(published := k.published + 1));
      if IsLive(w.core.runs, r)
      then w'.(hub := Publish(w.hub, Log(r, w.core.runs[r].status, k.delivered[k.published])))
      else w'
    case ConsumerExit => Pour(w, r, k.(consumerDone := true))
  }

  /** A holder may proceed once it is its turn; it writes first and leaves afterwards. */
  predicate HistoryEnabled(w: World, h: HistoryStep, ticket: nat) {
    && ticket in w.holders && ticket == w.ledger.next && 0 < ticket <= |w.ledger.issued|
    && (h.AppendHistory? <==> w.ledger.appended.None?)
  }

  /** A failed history write is shown on the run, if the run is still in the table. */
  function HistoryEvents(c: Core, l: Ledger): seq<Body>
    requires 0 < l.next <= |l.issued|
  {
    var r := l.issued[l.next - 1].run;
    if l.appended.Some? && l.appended.value.failed() && r in c.runs
    then [State(r, c.runs[r].job, c.runs[r].status, true)]
    else []
  }

  function ApplyHistory(w: World, h: HistoryStep, ticket: nat): World
    requires HistoryEnabled(w, h, ticket)
  {
    match h
    case AppendHistory(outcome) => w.(ledger := Append(w.ledger, outcome))
    case LeaveHistory =>
      w.(hub := PublishAll(w.hub, HistoryEvents(w.core, w.ledger)),
         holders := w.holders - {ticket}, ledger := Leave(w.ledger))
  }

  predicate ReaderEnabled(w: World, d: ReaderStep) {
    match d
    case NewSubscriber(_) => true
    case ReadEvent(i) => i in w.hub.subs && w.hub.subs[i].taken < |w.hub.subs[i].sent|
    case CloseSubscriber(i) => i in w.hub.subs
  }

  function ApplyReader(w: World, d: ReaderStep): World
    requires ReaderEnabled(w, d)
  {
    match d
    case NewSubscriber(cursor) => w.(hub := Subscribe(w.hub, cursor))
    case ReadEvent(i) => w.(hub := Receive(w.hub, i))
    case CloseSubscriber(i) => w.(hub := Unsubscribe(w.hub, i))
  }

  ghost predicate Enabled(w: World, limits: Limits, a: Action) {
    match a
    case Table(t, r, now, gone) => TableEnabled(w, limits, t, r, now, gone)
    case Thread(m, r) => ThreadEnabled(w, m, r)
    case Sinking(s, r) => SinkEnabled(w, s, r)
    case Recording(h, ticket) => HistoryEnabled(w, h, ticket)
    case Reading(d) => ReaderEnabled(w, d)
  }

  ghost function Apply(w: World, limits: Limits, a: Action): World
    requires Enabled(w, limits, a)
  {
    match a
    case Table(t, r, now, gone) => ApplyTable(w, t, r, now, gone)
    case Thread(m, r) => ApplyThread(w, m, r)
    case Sinking(s, r) => ApplySink(w, s, r)
    case Recording(h, ticket) => ApplyHistory(w, h, ticket)
    case Reading(d) => ApplyReader(w, d)
  }

  function Initial(maxEvents: nat, prior: map<JobId, seq<Record>>): World {
    World(Core(map[], map[], map[]), Hub(maxEvents, 0, [], map[], 0, []), map[], map[], {}, multiset{}, {}, [],
          0, {}, Ledger([], 1, None, [], prior, prior))
  }

  ghost predicate Step(w: World, limits: Limits, w': World) {
    exists a :: Enabled(w, limits, a) && w' == Apply(w, limits, a)
  }

  ghost predicate Follows(ws: seq<World>, limits: Limits, k: nat)
    requires 0 < k < |ws|
  {
    Step(ws[k - 1], limits, ws[k])
  }

  /** A behaviour: it starts empty and every later state follows by one step. */
  ghost predicate Behaviour(ws: seq<World>, limits: Limits, prior: map<JobId, seq<Record>>) {
    && ws != []
    && ws[0] == Initial(limits.maxRuns * 8, prior)
    && (forall k | 0 < k < |ws| :: Follows(ws, limits, k))
  }
}
