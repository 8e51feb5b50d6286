/**
 The control loop as it runs: variables updated event by event, each event handled in place.
 */
module ExecutionHandles {
  import opened ExecutionControl

  class ExecutionHandle {
    var result: Verdict
    var on: Channels
    var seen: Seen
    var returned: bool
    ghost const timeout: int
    ghost var acts: seq<Act>
    /** All events that have occurred so far, whether listened for or not. */
    ghost var occurred: seq<Event>

    ghost predicate Valid()
      reads this
    {
      Loop() == Run(Initial(timeout), occurred)
    }

    ghost function Loop(): State
      reads this
    {
      State(result, on, seen, returned, acts)
    }

    constructor (timeoutNanos: int)
      ensures Valid() && occurred == [] && timeout == timeoutNanos
    {
      timeout, occurred := timeoutNanos, [];
      result := Verdict(false, CLEAN_UP, false, []);
      on := Channels(true, true, timeoutNanos > 0, false, false);
      seen := Seen(false, false, false, false);
      returned, acts := false, [];
    }

    /** An unreadable process table counts as a live group, and is reported once. */
    method Probing(answer: Probed) returns (live: bool)
      modifies `result, `on, `seen, `returned, `acts
      ensures Loop() == ProbeGroup(old(Loop()), answer) && live == (answer != Empty)
    {
      acts := acts + [Probe(answer == Empty)];
      if answer != Unknown {
        return answer == Live;
      }
      if !seen.probeErrorRecorded {
        result := result.(problems := result.problems + [InspectGroup]);
        seen := seen.(probeErrorRecorded := true);
      }
      return true;
    }

    method Initiating(reason: Reason, term: Signalled) returns (found: bool)
      modifies `result, `on, `seen, `returned, `acts
      ensures Loop() == Initiate(old(Loop()), reason, term) && found == result.initiated
    {
      if result.initiated {
        if reason > result.reason {
          result := result.(reason := reason);
        }
        return true;
      }
      acts := acts + [Term(term != NoSuchProcess)];
      if term != Delivered {
        if term == NoSuchProcess {
          return false;
        }
        result := result.(problems := result.problems + [SignalTerm]);
      }
      result := result.(initiated := true);
      result := result.(reason := reason);
      on := on.(timeout := false);
      on := on.(grace := true);
      return true;
    }

    method LeaderExited(failed: bool, probe: Probed, term: Signalled)
      modifies `result, `on, `seen, `returned, `acts
      ensures Loop() == HandleLeader(old(Loop()), failed, probe, term)
    {
      on := on.(leader := false);
      seen := seen.(observationDone := true);
      if failed {
        result := result.(problems := result.problems + [ObserveLeader]);
        returned := !result.initiated || seen.killSent;
        return;
      }
      seen := seen.(leaderObserved := true);
      if seen.killSent {
        returned := true;
        return;
      }
      var live := Probing(probe);
      if !live {
        returned := true;
        return;
      }
      if !result.initiated {
        var found := Initiating(CLEAN_UP, term);
        if !found {
          returned := true;
          return;
        }
      }
      on := on.(poll := true);
    }

    method GraceOver(probe: Probed, kill: Signalled)
      modifies `result, `on, `seen, `returned, `acts
      ensures Loop() == HandleGrace(old(Loop()), probe, kill)
      ensures old(seen.leaderObserved) && probe == Empty ==> returned && acts == old(acts) + [Probe(true)]
      ensures !(old(seen.leaderObserved) && probe == Empty) ==>
                && acts == old(acts) + (if old(seen.leaderObserved) then [Probe(false)] else []) + [Kill]
                && (kill == Delivered ==> result.killEscalated) && (returned <==> old(seen.observationDone))
    {
      if seen.leaderObserved {
        var live := Probing(probe);
        if !live {
          returned := true;
          return;
        }
      }
      acts := acts + [Kill];
      if kill != Delivered {
        if kill != NoSuchProcess {
          result := result.(problems := result.problems + [SignalKill]);
        }
      } else {
        result := result.(killEscalated := true);
      }
      seen := seen.(killSent := true);
      on := on.(grace := false, poll := false);
      returned := seen.observationDone;
    }

    method HandleEvent(e: Event)
      modifies `result, `on, `seen, `returned, `acts
      ensures Loop() == Handle(old(Loop()), e)
    {
      match e
      case LeaderExit(failed, probe, term) =>
        LeaderExited(failed, probe, term);
      case StopRequest(term) =>
        var _ := Initiating(MANUAL, term);
      case ContextDone(deadline, term) =>
        var reason := MANUAL;
        if deadline {
          reason := TIMEOUT;
        }
        var _ := Initiating(reason, term);
        on := on.(context := false);
      case TimeoutFired(term) =>
        var _ := Initiating(TIMEOUT, term);
        on := on.(timeout := false);
      case PollTick(probe) =>
        var live := Probing(probe);
        returned := !live;
      case GraceExpired(probe, kill) =>
        GraceOver(probe, kill);
    }

    /**
     The loop itself: of the events offered, it takes those it is listening for, until it returns. A loop
     that returns although a TERM found the group has sent KILL or has just found the group empty, and it
     reports an escalation exactly when some KILL it sent reached the group.
     */
    method Control(offered: seq<Event>)
      requires Valid()
      modifies this
      ensures Valid() && occurred == old(occurred) + offered
      ensures returned <==> Over(Heard(timeout, occurred), acts)
      ensures returned && Terminating(acts) ==> Kill in acts || FoundEmpty(acts)
      ensures result.initiated <==> Terminating(acts)
      ensures result.killEscalated <==> exists k | 0 <= k < |occurred| :: KillTaken(timeout, occurred, k)
      ensures PhaseOf(acts) != Broken
    {
      var i := 0;
      while i < |offered|
        invariant i <= |offered|
        invariant Valid() && occurred == old(occurred) + offered[..i]
      {
        var e := offered[i];
        var armed := !returned && match e
          case LeaderExit(_, _, _) => on.leader
          case StopRequest(_) => true
          case ContextDone(_, _) => on.context
          case TimeoutFired(_) => on.timeout
          case PollTick(_) => on.poll
          case GraceExpired(_, _) => on.grace;
        assert (occurred + [e])[..|occurred|] == occurred;
        if armed {
          HandleEvent(e);
        }
        assert offered[..i + 1] == offered[..i] + [e];
        occurred := occurred + [e];
        i := i + 1;
      }
      assert offered[..|offered|] == offered;
      ReturnedExactly(timeout, occurred);
      EscalatedExactly(timeout, occurred);
      RunKeeps(timeout, occurred);
    }
  }
}
