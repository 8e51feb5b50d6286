/**
 The control loop that owns a process group: it turns stop requests, cancellation and the
 timeout into TERM, a grace period and at most one KILL, and returns before the leader is reaped.
 */
module ExecutionControl {
  import EventLog

  /** Reasons are ordered: a manual request outranks a timeout, and both outrank a mere clean-up. */
  type Reason = nat
  const CLEAN_UP: Reason := 0
  const TIMEOUT: Reason := 1
  const MANUAL: Reason := 2

  datatype Signalled = Delivered | NoSuchProcess | Refused

  datatype Probed = Live | Empty | Unknown

  /** What the loop can wake up for, with the answers the system gives while it is handled. */
  datatype Event =
    | LeaderExit(failed: bool, probe: Probed, term: Signalled)
    | StopRequest(term: Signalled)
    | ContextDone(deadline: bool, term: Signalled)
    | TimeoutFired(term: Signalled)
    | PollTick(probe: Probed)
    | GraceExpired(probe: Probed, kill: Signalled)

  /** The outward acts: probing the group, and signalling it. */
  datatype Act = Probe(empty: bool) | Term(found: bool) | Kill

  datatype Problem = InspectGroup | SignalTerm | ObserveLeader | SignalKill

  /** The loop's result so far. */
  datatype Verdict = Verdict(initiated: bool, reason: Reason, killEscalated: bool, problems: seq<Problem>)

  /** Which channels are listened to; the others are nil. */
  datatype Channels = Channels(leader: bool, context: bool, timeout: bool, grace: bool, poll: bool)

  datatype Seen = Seen(leaderObserved: bool, observationDone: bool, killSent: bool, probeErrorRecorded: bool)

  datatype State = State(result: Verdict, on: Channels, seen: Seen, returned: bool, acts: seq<Act>)

  function Initial(timeout: int): State {
    State(Verdict(false, CLEAN_UP, false, []), Channels(true, true, timeout > 0, false, false),
          Seen(false, false, false, false), false, [])
  }

  /** A nil channel never delivers; stop requests are always listened for. */
  predicate Armed(s: State, e: Event) {
    && !s.returned
    && match e
       case LeaderExit(_, _, _) => s.on.leader
       case StopRequest(_) => true
       case ContextDone(_, _) => s.on.context
       case TimeoutFired(_) => s.on.timeout
       case PollTick(_) => s.on.poll
       case GraceExpired(_, _) => s.on.grace
  }

  function Report(s: State, problem: Problem): State {
    s.(result := s.result.(problems := s.result.problems + [problem]))
  }

  function ProbeGroup(s: State, p: Probed): State {
    var s1 := s.(acts := s.acts + [Probe(p == Empty)]);
    if p == Unknown && !s.seen.probeErrorRecorded
    then Report(s1, InspectGroup).(seen := s.seen.(probeErrorRecorded := true))
    else s1
  }

  function Initiate(s: State, reason: Reason, term: Signalled): State {
    if s.result.initiated then s.(result := s.result.(reason := if reason > s.result.reason then reason else s.result.reason))
    else if term == NoSuchProcess then s.(acts := s.acts + [Term(false)])
    else
      var s1 := if term == Refused then Report(s, SignalTerm) else s;
      s1.(acts := s.acts + [Term(true)],
          result := s1.result.(initiated := true, reason := reason),
          on := s.on.(timeout := false, grace := true))
  }

  function HandleLeader(s0: State, failed: bool, probe: Probed, term: Signalled): State {
    var s := s0.(on := s0.on.(leader := false), seen := s0.seen.(observationDone := true));
    if failed then Report(s, ObserveLeader).(returned := !s.result.initiated || s.seen.killSent)
    else
      var s1 := s.(seen := s.seen.(leaderObserved := true));
      if s1.seen.killSent then s1.(returned := true)
      else
        var s2 := ProbeGroup(s1, probe);
        if probe == Empty then s2.(returned := true) else StartPolling(s2, term)
  }

  /** Members outlive the leader: clean them up unless a termination is under way, and watch them. */
  function StartPolling(s: State, term: Signalled): State {
    var s1 := if s.result.initiated then s else Initiate(s, CLEAN_UP, term);
    if s1.result.initiated then s1.(on := s1.on.(poll := true)) else s1.(returned := true)
  }

  function HandleGrace(s: State, probe: Probed, kill: Signalled): State {
    if s.seen.leaderObserved && probe == Empty then ProbeGroup(s, probe).(returned := true)
    else SendKill(if s.seen.leaderObserved then ProbeGroup(s, probe) else s, kill)
  }

  function SendKill(s: State, kill: Signalled): State {
    var s1 := if kill == Refused then Report(s, SignalKill) else s;
    s1.(acts := s.acts + [Kill],
        result := s1.result.(killEscalated := s.result.killEscalated || kill == Delivered),
        seen := s.seen.(killSent := true),
        on := s.on.(grace := false, poll := false),
        returned := s.seen.observationDone)
  }

  function Handle(s: State, e: Event): State {
    match e
    case LeaderExit(failed, probe, term) => HandleLeader(s, failed, probe, term)
    case StopRequest(term) => Initiate(s, MANUAL, term)
    case ContextDone(deadline, term) =>
      var s1 := Initiate(s, if deadline then TIMEOUT else MANUAL, term);
      s1.(on := s1.on.(context := false))
    case TimeoutFired(term) =>
      var s1 := Initiate(s, TIMEOUT, term);
      s1.(on := s1.on.(timeout := false))
    case PollTick(probe) => ProbeGroup(s, probe).(returned := probe == Empty)
    case GraceExpired(probe, kill) => HandleGrace(s, probe, kill)
  }

  /** A run: events on channels that are not listened to are not received. */
  function Run(s: State, events: seq<Event>): State {
    if events == [] then s
    else
      var s1 := Run(s, events[..|events| - 1]);
      var e := events[|events| - 1];
      if Armed(s1, e) then Handle(s1, e) else s1
  }

  // ---------- Safety ----------

  /** How far signalling has got: no TERM has found the group, one has, KILL was sent, or the group is gone. */
  datatype Phase = Seeking | Termed | Slain | Gone | Broken

  /**
   The escalation protocol: KILL at most once, only after a TERM that found the group; nothing
   is signalled or probed after KILL, nor after the group was observed empty.
   */
  function Escalate(p: Phase, a: Act): Phase {
    match p
    case Seeking =>
      (match a
       case Probe(empty) => if empty then Gone else Seeking
       case Term(found) => if found then Termed else Seeking
       case Kill => Broken)
    case Termed =>
      (match a
       case Probe(empty) => if empty then Gone else Termed
       case Term(_) => Broken
       case Kill => Slain)
    case _ => Broken
  }

  function PhaseOf(acts: seq<Act>): Phase {
    if acts == [] then Seeking else Escalate(PhaseOf(acts[..|acts| - 1]), acts[|acts| - 1])
  }

  lemma PhaseThen(acts: seq<Act>, a: Act)
    ensures PhaseOf(acts + [a]) == Escalate(PhaseOf(acts), a)
  {
    assert (acts + [a])[..|acts|] == acts;
  }

  ghost predicate ControlInv(s: State) {
    && PhaseOf(s.acts) == (if s.seen.killSent then Slain
                           else if s.returned && PhaseOf(s.acts) == Gone then Gone
                           else if s.result.initiated then Termed else Seeking)
    && s.seen.observationDone == !s.on.leader
    && (s.seen.leaderObserved ==> s.seen.observationDone)
    && (s.seen.killSent ==> s.result.initiated)
    && (s.on.poll ==> s.seen.leaderObserved && s.result.initiated && !s.seen.killSent)
    && (!s.returned ==> (s.on.grace <==> s.result.initiated && !s.seen.killSent))
    && (!s.returned ==> s.on.leader || s.on.grace)
    && (s.result.killEscalated ==> s.seen.killSent)
  }

  lemma LeaderEndsIt(s: State, failed: bool, probe: Probed, term: Signalled)
    requires ControlInv(s) && !s.returned && s.on.leader && (failed || s.seen.killSent)
    ensures ControlInv(HandleLeader(s, failed, probe, term))
  {
  }

  lemma LeaderLeavesGroup(s: State, probe: Probed, term: Signalled)
    requires ControlInv(s) && !s.returned && s.on.leader && !s.seen.killSent && (probe == Empty || s.result.initiated)
    requires PhaseOf(s.acts + [Probe(probe == Empty)]) == Escalate(PhaseOf(s.acts), Probe(probe == Empty))
    ensures ControlInv(HandleLeader(s, false, probe, term))
  {
  }

  /** The leader's exit, step by step: it is no longer waited for, then the group is probed, then cleaned up. */
  lemma LeaderKeeps(s: State, failed: bool, probe: Probed, term: Signalled)
    requires ControlInv(s) && !s.returned && s.on.leader
    ensures ControlInv(HandleLeader(s, failed, probe, term))
  {
    if failed || s.seen.killSent {
      LeaderEndsIt(s, failed, probe, term);
    } else {
      PhaseThen(s.acts, Probe(probe == Empty));
      if probe == Empty || s.result.initiated {
        LeaderLeavesGroup(s, probe, term);
      } else {
        PhaseThen(s.acts + [Probe(probe == Empty)], Term(term != NoSuchProcess));
        LeaderCleansUp(s, probe, term);
      }
    }
  }

  lemma LeaderCleansUp(s: State, probe: Probed, term: Signalled)
    requires ControlInv(s) && !s.returned && s.on.leader && !s.seen.killSent && probe != Empty && !s.result.initiated
    requires PhaseOf(s.acts + [Probe(probe == Empty)] + [Term(term != NoSuchProcess)]) == (if term == NoSuchProcess then Seeking else Termed)
    ensures ControlInv(HandleLeader(s, false, probe, term))
  {
  }

  lemma GraceKeeps(s: State, probe: Probed, kill: Signalled)
    requires ControlInv(s) && !s.returned && s.on.grace
    ensures ControlInv(HandleGrace(s, probe, kill))
  {
    PhaseThen(s.acts, Probe(probe == Empty));
    PhaseThen(s.acts + [Probe(probe == Empty)], Kill);
    PhaseThen(s.acts, Kill);
  }

  lemma InitiateKeeps(s: State, reason: Reason, term: Signalled)
    requires ControlInv(s) && !s.returned
    ensures ControlInv(Initiate(s, reason, term))
  {
    PhaseThen(s.acts, Term(term != NoSuchProcess));
  }

  lemma PollKeeps(s: State, probe: Probed)
    requires ControlInv(s) && !s.returned && s.on.poll
    ensures ControlInv(ProbeGroup(s, probe).(returned := probe == Empty))
  {
    PhaseThen(s.acts, Probe(probe == Empty));
  }

  lemma HandleKeeps(s: State, e: Event)
    requires ControlInv(s) && Armed(s, e)
    ensures ControlInv(Handle(s, e))
  {
    match e {
      case LeaderExit(failed, probe, term) => LeaderKeeps(s, failed, probe, term);
      case StopRequest(term) => InitiateKeeps(s, MANUAL, term);
      case ContextDone(deadline, term) => InitiateKeeps(s, if deadline then TIMEOUT else MANUAL, term);
      case TimeoutFired(term) => InitiateKeeps(s, TIMEOUT, term);
      case PollTick(probe) => PollKeeps(s, probe);
      case GraceExpired(probe, kill) => GraceKeeps(s, probe, kill);
    }
  }

  lemma {:induction false} RunKeeps(timeout: int, events: seq<Event>)
    ensures ControlInv(Run(Initial(timeout), events))
    decreases |events|
  {
    if events != [] {
      var s, e := Run(Initial(timeout), events[..|events| - 1]), events[|events| - 1];
      RunKeeps(timeout, events[..|events| - 1]);
      if Armed(s, e) {
        HandleKeeps(s, e);
      }
    }
  }

  predicate Found(a: Act) { a == Term(true) }

  /** What the protocol means for each signal: a KILL is the last act and answers a TERM that found the group. */
  lemma {:induction false} ProtocolMeaning(acts: seq<Act>, i: nat)
    requires PhaseOf(acts) != Broken && i < |acts|
    ensures acts[i].Kill? || acts[i] == Probe(true) ==> i == |acts| - 1
    ensures acts[i].Kill? ==> exists k | 0 <= k < i :: Found(acts[k])
    decreases |acts|
  {
    var rest := acts[..|acts| - 1];
    if i < |rest| {
      ProtocolMeaning(rest, i);
    } else if acts[i].Kill? {
      TermedHasTerm(rest);
    }
  }

  lemma {:induction false} TermedHasTerm(acts: seq<Act>)
    requires PhaseOf(acts) == Termed
    ensures exists k | 0 <= k < |acts| :: Found(acts[k])
    decreases |acts|
  {
    var rest := acts[..|acts| - 1];
    if PhaseOf(rest) == Termed {
      TermedHasTerm(rest);
      var k :| 0 <= k < |rest| && Found(rest[k]);
      assert Found(acts[k]);
    } else {
      assert Found(acts[|acts| - 1]);
    }
  }

  /** Whatever happens in whatever order, the signals sent obey the escalation protocol. */
  lemma SignalProtocol(timeout: int, events: seq<Event>, i: nat)
    ensures var acts := Run(Initial(timeout), events).acts;
            && PhaseOf(acts) != Broken
            && (i < |acts| && acts[i].Kill? ==> i == |acts| - 1 && exists k | 0 <= k < i :: Found(acts[k]))
            && (i < |acts| && acts[i] == Probe(true) ==> i == |acts| - 1 && Run(Initial(timeout), events).returned)
  {
    RunKeeps(timeout, events);
    var s := Run(Initial(timeout), events);
    if i < |s.acts| {
      ProtocolMeaning(s.acts, i);
    }
  }

  // ---------- Progress ----------

  function Rank(s: State): nat {
    if s.returned then 0 else (if s.on.leader then 1 else 0) + (if s.seen.killSent then 0 else 1)
  }

  predicate Decisive(e: Event) { e.LeaderExit? || e.GraceExpired? }

  lemma LeaderDecides(s: State, failed: bool, probe: Probed, term: Signalled)
    requires s.on.leader && !s.returned
    ensures var s' := HandleLeader(s, failed, probe, term);
            (s'.returned || !s'.on.leader) && s'.seen.killSent == s.seen.killSent
  {
  }

  lemma GraceDecides(s: State, probe: Probed, kill: Signalled)
    ensures var s' := HandleGrace(s, probe, kill);
            (s'.returned || (s'.seen.killSent && !s'.on.grace)) && s'.on.leader == s.on.leader
  {
  }

  lemma InitiateDecidesNothing(s: State, reason: Reason, term: Signalled)
    ensures var s' := Initiate(s, reason, term);
            s'.seen == s.seen && s'.on.leader == s.on.leader && s'.returned == s.returned
  {
  }

  lemma OthersDecideNothing(s: State, e: Event)
    requires !Decisive(e)
    ensures var s' := Handle(s, e);
            s'.seen.killSent == s.seen.killSent && s'.on.leader == s.on.leader && (s.returned && !e.PollTick? ==> s'.returned)
  {
    match e {
      case StopRequest(term) => InitiateDecidesNothing(s, MANUAL, term);
      case ContextDone(deadline, term) => InitiateDecidesNothing(s, if deadline then TIMEOUT else MANUAL, term);
      case TimeoutFired(term) => InitiateDecidesNothing(s, TIMEOUT, term);
      case PollTick(probe) =>
    }
  }

  /** KILL is sent only when the grace period armed by initiation expires, and disarms it. */
  lemma KillOnlyAtGrace(s: State, e: Event)
    requires ControlInv(s) && Armed(s, e) && Handle(s, e).seen.killSent && !s.seen.killSent
    ensures e.GraceExpired? && s.result.initiated && s.on.grace && !Handle(s, e).on.grace
  {
    match e {
      case LeaderExit(failed, probe, term) => LeaderDecides(s, failed, probe, term);
      case GraceExpired(probe, kill) => GraceDecides(s, probe, kill);
      case _ => OthersDecideNothing(s, e);
    }
  }

  /** Until it returns, the loop waits for the leader or the grace timer, and either brings it closer to the end. */
  lemma NeverStuck(timeout: int, events: seq<Event>, e: Event)
    ensures var s := Run(Initial(timeout), events);
            && Rank(s) <= 2
            && (!s.returned ==> s.on.leader || s.on.grace)
            && (Armed(s, e) && Decisive(e) ==> Handle(s, e).returned || Rank(Handle(s, e)) < Rank(s))
            && (Armed(s, e) ==> Rank(Handle(s, e)) <= Rank(s))
  {
    var s := Run(Initial(timeout), events);
    RunKeeps(timeout, events);
    match e {
      case LeaderExit(failed, probe, term) =>
        if Armed(s, e) {
          LeaderDecides(s, failed, probe, term);
        }
      case GraceExpired(probe, kill) => GraceDecides(s, probe, kill);
      case _ => OthersDecideNothing(s, e);
    }
  }

  function DecisiveCount(s: State, events: seq<Event>): nat {
    if events == [] then 0
    else
      var e := events[|events| - 1];
      DecisiveCount(s, events[..|events| - 1])
      + (if Armed(Run(s, events[..|events| - 1]), e) && Decisive(e) then 1 else 0)
  }

  /** A loop that has not returned has seen at most one of the two events that bring it to its end. */
  lemma {:induction false} DecisiveBound(timeout: int, events: seq<Event>)
    ensures var s := Run(Initial(timeout), events); s.returned || DecisiveCount(Initial(timeout), events) + Rank(s) <= 2
    decreases |events|
  {
    if events != [] {
      DecisiveBound(timeout, events[..|events| - 1]);
      NeverStuck(timeout, events[..|events| - 1], events[|events| - 1]);
    }
  }

  // ---------- Reasons ----------

  function ReasonOf(e: Event): Reason {
    match e
    case StopRequest(_) => MANUAL
    case ContextDone(deadline, _) => if deadline then TIMEOUT else MANUAL
    case TimeoutFired(_) => TIMEOUT
    case _ => CLEAN_UP
  }

  predicate IsRequest(e: Event) { !e.PollTick? && !e.GraceExpired? }

  /** A request that was received, and that found or brought about an initiated termination. */
  ghost predicate Counts(timeout: int, events: seq<Event>, k: nat)
    requires k < |events|
  {
    && Armed(Run(Initial(timeout), events[..k]), events[k])
    && IsRequest(events[k])
    && Run(Initial(timeout), events[..k + 1]).result.initiated
  }

  lemma CountsInPrefix(timeout: int, events: seq<Event>, n: nat, k: nat)
    requires k < n <= |events|
    ensures Counts(timeout, events, k) == Counts(timeout, events[..n], k) && events[..n][k] == events[k]
  {
    assert events[..n][..k] == events[..k] && events[..n][..k + 1] == events[..k + 1];
  }

  /** Some counted request has the final reason, if a termination was initiated. */
  lemma {:induction false} ReasonWasAsked(timeout: int, events: seq<Event>) returns (k: nat)
    requires Run(Initial(timeout), events).result.initiated
    ensures k < |events| && Counts(timeout, events, k)
    ensures ReasonOf(events[k]) == Run(Initial(timeout), events).result.reason
    decreases |events|
  {
    var n := |events| - 1;
    var before, s := Run(Initial(timeout), events[..n]), Run(Initial(timeout), events);
    assert events[..n + 1] == events;
    if Armed(before, events[n]) {
      ReasonStep(before, events[n]);
    }
    if before.result.initiated && s.result.reason == before.result.reason {
      k := ReasonWasAsked(timeout, events[..n]);
      CountsInPrefix(timeout, events, n, k);
    } else {
      k := n;
    }
  }

  /** No counted request outranks the final reason. */
  lemma {:induction false} ReasonIsHighest(timeout: int, events: seq<Event>, k: nat)
    requires k < |events| && Counts(timeout, events, k)
    ensures var s := Run(Initial(timeout), events);
            s.result.initiated && ReasonOf(events[k]) <= s.result.reason
    decreases |events|
  {
    var n := |events| - 1;
    var before := Run(Initial(timeout), events[..n]);
    assert events[..n + 1] == events;
    if k < n {
      CountsInPrefix(timeout, events, n, k);
      ReasonIsHighest(timeout, events[..n], k);
    }
    if Armed(before, events[n]) {
      ReasonStep(before, events[n]);
    }
  }

  /** The effect of any one event on what was asked for. */
  ghost predicate ReasonMoves(s: State, e: Event, s': State) {
    && (s.result.initiated ==> s'.result.initiated && s.result.reason <= s'.result.reason)
    && (s'.result.initiated && (!s.result.initiated || s'.result.reason != s.result.reason) ==> IsRequest(e) && s'.result.reason == ReasonOf(e))
    && (IsRequest(e) && s'.result.initiated ==> ReasonOf(e) <= s'.result.reason)
  }

  lemma LeaderReason(s: State, failed: bool, probe: Probed, term: Signalled)
    ensures ReasonMoves(s, LeaderExit(failed, probe, term), HandleLeader(s, failed, probe, term))
  {
  }

  lemma ReasonStep(s: State, e: Event)
    ensures ReasonMoves(s, e, Handle(s, e))
  {
    match e {
      case LeaderExit(failed, probe, term) => LeaderReason(s, failed, probe, term);
      case _ =>
    }
  }

  // ---------- What the loop does, told by what it heard and did ----------

  /** The events received, in order. */
  function Heard(timeout: int, events: seq<Event>): seq<Event> {
    if events == [] then []
    else
      var before, e := events[..|events| - 1], events[|events| - 1];
      Heard(timeout, before) + if Armed(Run(Initial(timeout), before), e) then [e] else []
  }

  predicate Exited(heard: seq<Event>) { exists e | e in heard :: e.LeaderExit? }

  predicate Observed(heard: seq<Event>) { exists e | e in heard :: e.LeaderExit? && !e.failed }

  predicate Canceled(heard: seq<Event>) { exists e | e in heard :: e.ContextDone? }

  predicate Expired(heard: seq<Event>) { exists e | e in heard :: e.TimeoutFired? }

  /** A TERM has found the group. */
  predicate Terminating(acts: seq<Act>) { Term(true) in acts }

  predicate FoundEmpty(acts: seq<Act>) { acts != [] && acts[|acts| - 1] == Probe(true) }

  /**
   The loop is over once the group was found empty, or once the leader's exit is known and KILL was
   sent or there was no group to terminate.
   */
  predicate Over(heard: seq<Event>, acts: seq<Act>) {
    FoundEmpty(acts) || (Exited(heard) && (Kill in acts || !Terminating(acts)))
  }

  /** What the loop listens for, given what it has heard and done. */
  predicate Awaits(timeout: int, heard: seq<Event>, acts: seq<Act>, e: Event) {
    && !Over(heard, acts)
    && match e
       case LeaderExit(_, _, _) => !Exited(heard)
       case StopRequest(_) => true
       case ContextDone(_, _) => !Canceled(heard)
       case TimeoutFired(_) => timeout > 0 && !Expired(heard) && !Terminating(acts)
       case PollTick(_) => Observed(heard) && Terminating(acts) && Kill !in acts
       case GraceExpired(_, _) => Terminating(acts) && Kill !in acts
  }

  function TermDue(acts: seq<Act>, term: Signalled): seq<Act> {
    if Terminating(acts) then [] else [Term(term != NoSuchProcess)]
  }

  /** What is done on account of an event. */
  function Due(heard: seq<Event>, acts: seq<Act>, e: Event): seq<Act> {
    match e
    case LeaderExit(failed, probe, term) =>
      if failed || Kill in acts then []
      else if probe == Empty then [Probe(true)]
      else [Probe(false)] + TermDue(acts, term)
    case StopRequest(term) => TermDue(acts, term)
    case ContextDone(_, term) => TermDue(acts, term)
    case TimeoutFired(term) => TermDue(acts, term)
    case PollTick(probe) => [Probe(probe == Empty)]
    case GraceExpired(probe, _) =>
      if !Observed(heard) then [Kill]
      else if probe == Empty then [Probe(true)]
      else [Probe(false), Kill]
  }

  /** The loop's variables say what it has heard and done. */
  ghost predicate Tells(timeout: int, heard: seq<Event>, s: State) {
    && s.result.initiated == Terminating(s.acts)
    && s.seen.killSent == (Kill in s.acts)
    && s.seen.observationDone == Exited(heard) && s.on.leader == !Exited(heard)
    && s.seen.leaderObserved == Observed(heard)
    && s.on.context == !Canceled(heard)
    && s.on.timeout == (timeout > 0 && !Expired(heard) && !Terminating(s.acts))
    && (!s.returned ==> s.on.grace == (Terminating(s.acts) && Kill !in s.acts))
    && (!s.returned ==> s.on.poll == (Observed(heard) && Terminating(s.acts) && Kill !in s.acts))
    && s.returned == Over(heard, s.acts)
  }

  lemma HeardMore(heard: seq<Event>, e: Event)
    ensures Exited(heard + [e]) == (Exited(heard) || e.LeaderExit?)
    ensures Observed(heard + [e]) == (Observed(heard) || (e.LeaderExit? && !e.failed))
    ensures Canceled(heard + [e]) == (Canceled(heard) || e.ContextDone?)
    ensures Expired(heard + [e]) == (Expired(heard) || e.TimeoutFired?)
  {
    assert e in heard + [e] && forall x | x in heard :: x in heard + [e];
  }

  lemma InitiateTells(timeout: int, heard: seq<Event>, s: State, e: Event, reason: Reason, term: Signalled)
    requires Tells(timeout, heard, s) && ControlInv(s) && !s.returned
    requires e.StopRequest? || e.ContextDone? || e.TimeoutFired?
    ensures var s' := Initiate(s, reason, term);
            && s'.acts == s.acts + TermDue(s.acts, term)
            && Tells(timeout, heard + [e], s'.(on := s'.on.(context := s'.on.context && !e.ContextDone?,
                                                            timeout := s'.on.timeout && !e.TimeoutFired?)))
  {
    HeardMore(heard, e);
  }

  /** An unobservable exit, an exit after KILL, or one that leaves no group. */
  lemma LeaderEndTells(timeout: int, heard: seq<Event>, s: State, e: Event)
    requires Tells(timeout, heard, s) && !s.returned && s.on.leader && e.LeaderExit?
    requires e.failed || s.seen.killSent || e.probe == Empty
    ensures var s' := HandleLeader(s, e.failed, e.probe, e.term);
            s'.acts == s.acts + Due(heard, s.acts, e) && Tells(timeout, heard + [e], s')
  {
    HeardMore(heard, e);
  }

  lemma LeaderJoinsTells(timeout: int, heard: seq<Event>, s: State, e: Event)
    requires Tells(timeout, heard, s) && !s.returned && s.on.leader && e.LeaderExit? && !e.failed
    requires !s.seen.killSent && e.probe != Empty && s.result.initiated
    ensures var s' := HandleLeader(s, false, e.probe, e.term);
            s'.acts == s.acts + [Probe(false)] && Tells(timeout, heard + [e], s')
  {
    HeardMore(heard, e);
  }

  lemma LeaderTermTells(timeout: int, heard: seq<Event>, s: State, e: Event)
    requires Tells(timeout, heard, s) && !s.returned && s.on.leader && e.LeaderExit? && !e.failed
    requires !s.seen.killSent && e.probe != Empty && !s.result.initiated
    ensures var s' := HandleLeader(s, false, e.probe, e.term);
            s'.acts == s.acts + [Probe(false)] + [Term(e.term != NoSuchProcess)] && Tells(timeout, heard + [e], s')
  {
    HeardMore(heard, e);
  }

  /** An exit that leaves members of the group. */
  lemma LeaderPollTells(timeout: int, heard: seq<Event>, s: State, e: Event)
    requires Tells(timeout, heard, s) && ControlInv(s) && !s.returned && s.on.leader && e.LeaderExit?
    requires !e.failed && !s.seen.killSent && e.probe != Empty
    ensures var s' := HandleLeader(s, e.failed, e.probe, e.term);
            s'.acts == s.acts + Due(heard, s.acts, e) && Tells(timeout, heard + [e], s')
  {
    HeardMore(heard, e);
    assert s.acts + Due(heard, s.acts, e) == (s.acts + [Probe(false)]) + TermDue(s.acts, e.term);
    if s.result.initiated {
      LeaderJoinsTells(timeout, heard, s, e);
    } else {
      LeaderTermTells(timeout, heard, s, e);
    }
  }

  lemma PollTells(timeout: int, heard: seq<Event>, s: State, e: Event)
    requires Tells(timeout, heard, s) && !s.returned && s.on.poll && e.PollTick?
    ensures var s' := Handle(s, e); s'.acts == s.acts + Due(heard, s.acts, e) && Tells(timeout, heard + [e], s')
  {
    HeardMore(heard, e);
  }

  lemma GraceTells(timeout: int, heard: seq<Event>, s: State, e: Event)
    requires Tells(timeout, heard, s) && !s.returned && s.on.grace && e.GraceExpired?
    ensures var s' := Handle(s, e); s'.acts == s.acts + Due(heard, s.acts, e) && Tells(timeout, heard + [e], s')
  {
    HeardMore(heard, e);
  }

  lemma HandleTells(timeout: int, heard: seq<Event>, s: State, e: Event)
    requires Tells(timeout, heard, s) && ControlInv(s) && Armed(s, e)
    ensures var s' := Handle(s, e); s'.acts == s.acts + Due(heard, s.acts, e) && Tells(timeout, heard + [e], s')
  {
    match e {
      case LeaderExit(failed, probe, _) =>
        if failed || s.seen.killSent || probe == Empty {
          LeaderEndTells(timeout, heard, s, e);
        } else {
          LeaderPollTells(timeout, heard, s, e);
        }
      case StopRequest(term) => InitiateTells(timeout, heard, s, e, MANUAL, term);
      case ContextDone(deadline, term) => InitiateTells(timeout, heard, s, e, if deadline then TIMEOUT else MANUAL, term);
      case TimeoutFired(term) => InitiateTells(timeout, heard, s, e, TIMEOUT, term);
      case PollTick(_) => PollTells(timeout, heard, s, e);
      case GraceExpired(_, _) => GraceTells(timeout, heard, s, e);
    }
  }

  lemma {:induction false} RunTells(timeout: int, events: seq<Event>)
    ensures Tells(timeout, Heard(timeout, events), Run(Initial(timeout), events))
    decreases |events|
  {
    if events != [] {
      var before, e := events[..|events| - 1], events[|events| - 1];
      RunTells(timeout, before);
      RunKeeps(timeout, before);
      if Armed(Run(Initial(timeout), before), e) {
        HandleTells(timeout, Heard(timeout, before), Run(Initial(timeout), before), e);
      }
    }
  }

  /**
   Every turn of the loop, told without its variables: it takes an event exactly if that is awaited, and
   then does exactly what is due.
   */
  lemma TurnsTold(timeout: int, events: seq<Event>, e: Event)
    ensures var s, s', heard := Run(Initial(timeout), events), Run(Initial(timeout), events + [e]), Heard(timeout, events);
            if Awaits(timeout, heard, s.acts, e)
            then Heard(timeout, events + [e]) == heard + [e] && s'.acts == s.acts + Due(heard, s.acts, e)
            else Heard(timeout, events + [e]) == heard && s' == s
  {
    assert (events + [e])[..|events|] == events;
    RunTells(timeout, events);
    RunKeeps(timeout, events);
    if Armed(Run(Initial(timeout), events), e) {
      HandleTells(timeout, Heard(timeout, events), Run(Initial(timeout), events), e);
    }
  }

  /**
   When the loop returns. In particular a loop that returns after a termination was initiated has sent
   KILL, or has just found the group empty.
   */
  lemma ReturnedExactly(timeout: int, events: seq<Event>)
    ensures var s := Run(Initial(timeout), events);
            && (s.returned <==> Over(Heard(timeout, events), s.acts))
            && (s.result.initiated <==> Terminating(s.acts))
            && (s.returned && Terminating(s.acts) ==> Kill in s.acts || FoundEmpty(s.acts))
  {
    RunTells(timeout, events);
  }

  /** The k-th event is received, and KILL goes out in its turn. */
  ghost predicate Kills(timeout: int, events: seq<Event>, k: nat)
    requires k < |events|
  {
    && Awaits(timeout, Heard(timeout, events[..k]), Run(Initial(timeout), events[..k]).acts, events[k])
    && events[k].GraceExpired?
    && Run(Initial(timeout), events[..k + 1]).acts != []
    && var acts := Run(Initial(timeout), events[..k + 1]).acts; acts[|acts| - 1] == Kill
  }

  /**
   A grace expiry that is received sends KILL, unless the leader was observed to exit and the group is
   then found empty.
   */
  lemma GraceKills(timeout: int, events: seq<Event>, k: nat)
    requires k < |events| && events[k].GraceExpired?
    requires Awaits(timeout, Heard(timeout, events[..k]), Run(Initial(timeout), events[..k]).acts, events[k])
    ensures Kills(timeout, events, k) <==> !(Observed(Heard(timeout, events[..k])) && events[k].probe == Empty)
  {
    TurnsTold(timeout, events[..k], events[k]);
    assert events[..k] + [events[k]] == events[..k + 1];
  }

  /** The effect of one event on the account of KILL. */
  lemma EscalationMoves(s: State, e: Event)
    requires ControlInv(s) && Armed(s, e)
    ensures var s' := Handle(s, e);
            && (!e.GraceExpired? ==> s'.result.killEscalated == s.result.killEscalated)
            && (e.GraceExpired? ==> !s.result.killEscalated)
            && (e.GraceExpired? ==>
                  (s'.result.killEscalated
                   <==> s'.acts != [] && s'.acts[|s'.acts| - 1] == Kill && e.kill == Delivered))
  {
    match e {
      case LeaderExit(failed, probe, term) => LeaderKeepsAccount(s, failed, probe, term);
      case _ =>
    }
  }

  lemma LeaderKeepsAccount(s: State, failed: bool, probe: Probed, term: Signalled)
    ensures HandleLeader(s, failed, probe, term).result.killEscalated == s.result.killEscalated
  {
  }

  /** KILL went out in the k-th turn and reached the group. */
  ghost predicate KillTaken(timeout: int, events: seq<Event>, k: nat)
    requires k < |events|
  {
    Kills(timeout, events, k) && events[k].kill == Delivered
  }

  lemma EscalatedStep(timeout: int, events: seq<Event>, n: nat)
    requires n < |events|
    ensures Run(Initial(timeout), events[..n + 1]).result.killEscalated
            <==> Run(Initial(timeout), events[..n]).result.killEscalated || KillTaken(timeout, events, n)
  {
    var s, e := Run(Initial(timeout), events[..n]), events[n];
    assert events[..n + 1][..n] == events[..n];
    RunKeeps(timeout, events[..n]);
    RunTells(timeout, events[..n]);
    if Armed(s, e) {
      EscalationMoves(s, e);
    }
  }

  lemma {:induction false} EscalatedBy(timeout: int, events: seq<Event>, n: nat)
    requires n <= |events|
    ensures Run(Initial(timeout), events[..n]).result.killEscalated
            <==> exists k | 0 <= k < n :: KillTaken(timeout, events, k)
  {
    if n > 0 {
      EscalatedBy(timeout, events, n - 1);
      EscalatedStep(timeout, events, n - 1);
    }
  }

  /** An escalation is reported exactly when some KILL was sent and reached the group. */
  lemma EscalatedExactly(timeout: int, events: seq<Event>)
    ensures Run(Initial(timeout), events).result.killEscalated
            <==> exists k | 0 <= k < |events| :: KillTaken(timeout, events, k)
  {
    EscalatedBy(timeout, events, |events|);
    assert events[..|events|] == events;
  }

  function ProbeTrouble(problems: seq<Problem>, probe: Probed): seq<Problem> {
    if probe == Unknown && InspectGroup !in problems then [InspectGroup] else []
  }

  function TermTrouble(acts: seq<Act>, term: Signalled): seq<Problem> {
    if !Terminating(acts) && term == Refused then [SignalTerm] else []
  }

  /** What is reported on account of an event: every refusal, and an unreadable process table once. */
  function Trouble(heard: seq<Event>, acts: seq<Act>, problems: seq<Problem>, e: Event): seq<Problem> {
    match e
    case LeaderExit(failed, probe, term) =>
      if failed then [ObserveLeader]
      else if Kill in acts then []
      else if probe == Empty then []
      else ProbeTrouble(problems, probe) + TermTrouble(acts, term)
    case StopRequest(term) => TermTrouble(acts, term)
    case ContextDone(_, term) => TermTrouble(acts, term)
    case TimeoutFired(term) => TermTrouble(acts, term)
    case PollTick(probe) => ProbeTrouble(problems, probe)
    case GraceExpired(probe, kill) =>
      if Observed(heard) && probe == Empty then []
      else (if Observed(heard) then ProbeTrouble(problems, probe) else [])
           + (if kill == Refused then [SignalKill] else [])
  }

  ghost predicate OnceReported(s: State) { s.seen.probeErrorRecorded == (InspectGroup in s.result.problems) }

  lemma ProbeReports(s: State, probe: Probed)
    requires OnceReported(s)
    ensures var s' := ProbeGroup(s, probe);
            && s'.result.problems == s.result.problems + ProbeTrouble(s.result.problems, probe) && OnceReported(s')
            && s'.result.initiated == s.result.initiated && s'.seen.killSent == s.seen.killSent
  {
  }

  lemma InitiateReports(s: State, reason: Reason, term: Signalled)
    requires OnceReported(s)
    ensures var s' := Initiate(s, reason, term);
            && s'.result.problems == s.result.problems
                                     + (if !s.result.initiated && term == Refused then [SignalTerm] else [])
            && OnceReported(s')
  {
  }

  lemma LeaderReports(s: State, failed: bool, probe: Probed, term: Signalled)
    requires OnceReported(s)
    ensures var s', problems := HandleLeader(s, failed, probe, term), s.result.problems;
            && OnceReported(s')
            && s'.result.problems ==
               if failed then problems + [ObserveLeader]
               else if s.seen.killSent || probe == Empty then problems
               else problems + ProbeTrouble(problems, probe)
                    + (if !s.result.initiated && term == Refused then [SignalTerm] else [])
  {
    var s1 := s.(on := s.on.(leader := false), seen := s.seen.(observationDone := true, leaderObserved := true));
    ProbeReports(s1, probe);
    InitiateReports(ProbeGroup(s1, probe), CLEAN_UP, term);
  }

  lemma GraceReports(s: State, probe: Probed, kill: Signalled)
    requires OnceReported(s)
    ensures var s', problems := HandleGrace(s, probe, kill), s.result.problems;
            && OnceReported(s')
            && s'.result.problems ==
               if s.seen.leaderObserved && probe == Empty then problems
               else problems + (if s.seen.leaderObserved then ProbeTrouble(problems, probe) else [])
                    + (if kill == Refused then [SignalKill] else [])
  {
    ProbeReports(s, probe);
  }

  lemma HandleTroubles(timeout: int, heard: seq<Event>, s: State, e: Event)
    requires Tells(timeout, heard, s) && OnceReported(s)
    ensures var s' := Handle(s, e);
            && s'.result.problems == s.result.problems + Trouble(heard, s.acts, s.result.problems, e)
            && OnceReported(s')
  {
    match e {
      case LeaderExit(failed, probe, term) =>
        LeaderReports(s, failed, probe, term);
        Regroup(s.result.problems, ProbeTrouble(s.result.problems, probe), TermTrouble(s.acts, term));
      case GraceExpired(probe, kill) =>
        GraceReports(s, probe, kill);
        Regroup(s.result.problems, if Observed(heard) then ProbeTrouble(s.result.problems, probe) else [],
                if kill == Refused then [SignalKill] else []);
      case StopRequest(term) => InitiateReports(s, MANUAL, term);
      case ContextDone(deadline, term) => InitiateReports(s, if deadline then TIMEOUT else MANUAL, term);
      case TimeoutFired(term) => InitiateReports(s, TIMEOUT, term);
      case PollTick(probe) => ProbeReports(s, probe);
    }
  }

  lemma Regroup<T>(a: seq<T>, b: seq<T>, c: seq<T>)
    ensures a + b + c == a + (b + c)
  {
  }

  lemma {:induction false} OnceReportedAlways(timeout: int, events: seq<Event>)
    ensures OnceReported(Run(Initial(timeout), events))
    decreases |events|
  {
    if events != [] {
      var before := events[..|events| - 1];
      OnceReportedAlways(timeout, before);
      RunTells(timeout, before);
      HandleTroubles(timeout, Heard(timeout, before), Run(Initial(timeout), before), events[|events| - 1]);
    }
  }

  /** What each turn reports, told without the loop's variables. */
  lemma TroublesTold(timeout: int, events: seq<Event>, e: Event)
    ensures var s, s', heard := Run(Initial(timeout), events), Run(Initial(timeout), events + [e]), Heard(timeout, events);
            Awaits(timeout, heard, s.acts, e) ==>
              s'.result.problems == s.result.problems + Trouble(heard, s.acts, s.result.problems, e)
  {
    assert (events + [e])[..|events|] == events;
    RunTells(timeout, events);
    OnceReportedAlways(timeout, events);
    HandleTroubles(timeout, Heard(timeout, events), Run(Initial(timeout), events), e);
  }

  // ---------- The reaper ----------

  function StatusOf(s: State, exitCode: int): EventLog.Status {
    if s.result.initiated && s.result.reason == MANUAL then EventLog.Killed
    else if s.result.initiated && s.result.reason == TIMEOUT then EventLog.TimedOut
    else if exitCode == 0 then EventLog.Succeeded
    else EventLog.Failed
  }

  /** Manual outranks timeout in any order, and neither counts before the group was found. */
  lemma StatusByRequests(timeout: int, events: seq<Event>, exitCode: int)
    ensures var status := StatusOf(Run(Initial(timeout), events), exitCode);
            && (status == EventLog.Killed
                <==> exists k | 0 <= k < |events| :: Counts(timeout, events, k) && ReasonOf(events[k]) == MANUAL)
            && (status in {EventLog.Succeeded, EventLog.Failed}
                <==> forall k | 0 <= k < |events| && Counts(timeout, events, k) :: ReasonOf(events[k]) == CLEAN_UP)
            && (status in {EventLog.Killed, EventLog.TimedOut, EventLog.Succeeded, EventLog.Failed})
            && (status in {EventLog.Succeeded, EventLog.Failed} ==> (status == EventLog.Succeeded <==> exitCode == 0))
  {
    var s := Run(Initial(timeout), events);
    forall k | 0 <= k < |events| && Counts(timeout, events, k)
      ensures s.result.initiated && ReasonOf(events[k]) <= s.result.reason
    {
      ReasonIsHighest(timeout, events, k);
    }
    if s.result.initiated {
      var k := ReasonWasAsked(timeout, events);
      assert ReasonOf(events[k]) <= MANUAL;
    }
  }

  /** The executor's goroutines around the loop: the log stream, the reaper and its result. */
  datatype Life = Life(control: State, streamDone: bool, reaps: nat, actsAtReap: nat, result: Outcome)

  datatype Outcome = NotYet | Finished(status: EventLog.Status)

  datatype LifeStep = Control(e: Event) | StreamClosed | Reap | Publish(exitCode: int)

  predicate LifeEnabled(l: Life, x: LifeStep) {
    match x
    case Control(e) => Armed(l.control, e)
    case StreamClosed => !l.streamDone
    case Reap => l.control.returned && l.reaps == 0
    case Publish(_) => l.reaps > 0 && l.streamDone && l.result.NotYet?
  }

  function LifeApply(l: Life, x: LifeStep): Life {
    match x
    case Control(e) => l.(control := Handle(l.control, e))
    case StreamClosed => l.(streamDone := true)
    case Reap => l.(reaps := l.reaps + 1, actsAtReap := |l.control.acts|)
    case Publish(exitCode) => l.(result := Finished(StatusOf(l.control, exitCode)))
  }

  function Lived(l: Life, steps: seq<LifeStep>): Life {
    if steps == [] then l
    else
      var l1 := Lived(l, steps[..|steps| - 1]);
      var x := steps[|steps| - 1];
      if LifeEnabled(l1, x) then LifeApply(l1, x) else l1
  }

  /**
   Every signal precedes the one reap, since reaping waits for the loop to return, and a result exists
   only after it and after the last log line. What the loop does until it returns is `SignalProtocol`'s.
   */
  lemma {:induction false} SignalsBeforeReap(timeout: int, steps: seq<LifeStep>)
    ensures var l := Lived(Life(Initial(timeout), false, 0, 0, NotYet), steps);
            && l.reaps <= 1
            && (l.reaps == 1 ==> l.control.returned && l.actsAtReap == |l.control.acts|)
            && (l.result.Finished? ==> l.reaps == 1 && l.streamDone)
    decreases |steps|
  {
    if steps != [] {
      SignalsBeforeReap(timeout, steps[..|steps| - 1]);
    }
  }
}
