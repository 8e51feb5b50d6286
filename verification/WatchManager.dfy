/**
 The watch manager: it keeps one open handle per watched job. The parts of `Reconcile` between two
 lock acquisitions are methods, and so are the critical sections of reports and fired timers.
 */
module WatchManagers {
  import opened AnyOrder
  import opened CronPlans
  import opened WatchPlans

  /** The host's watchers: the open handles, by generation, with the job each was opened for. */
  class WatchHost {
    var open: map<nat, int>

    constructor ()
      ensures open == map[]
    {
      open := map[];
    }

    /** Opening a handle may fail at any point; whatever was opened for it is closed again. */
    method NewHandle(id: int, handle: Handle, fails: bool) returns (ok: bool)
      modifies this
      ensures ok <==> !fails
      ensures open == if ok then old(open)[handle.generation := id] else old(open)
    {
      ok := !fails;
      if ok {
        open := open[handle.generation := id];
      }
    }

    method Stop(handle: Handle)
      modifies this
      ensures open == old(open) - {handle.generation}
    {
      open := open - {handle.generation};
    }
  }

  /** `Crashed`: a nil handle was dereferenced while stopping. */
  datatype Outcome = Closed | Refused(id: int) | Reconciled(invalid: set<int>) | Crashed

  /** Compares everything but the glob lists first, then the lists one by one. */
  method SameWatchSpec(a: WatchSpec, b: WatchSpec) returns (same: bool)
    ensures same <==> a == b
  {
    if a.revision != b.revision || a.source != b.source || a.viewSource != b.viewSource || a.mode != b.mode
       || a.debounce != b.debounce || a.poll != b.poll || |a.globs| != |b.globs| {
      return false;
    }
    for i := 0 to |a.globs|
      invariant a.globs[..i] == b.globs[..i]
    {
      if a.globs[i] != b.globs[i] {
        return false;
      }
    }
    assert a.globs[..|a.globs|] == a.globs && b.globs[..|b.globs|] == b.globs;
    same := true;
  }

  class WatchManager {
    const host: WatchHost
    var active: map<int, Slot>
    var degraded: set<int>
    var errors: map<int, Trouble>
    var nextGen: nat
    var closed: bool
    var callbacks: nat

    /** Generations are never reused, and a closed manager publishes nothing. */
    ghost predicate Numbered()
      reads this, host
    {
      && (forall id | id in active && active[id].Is? :: active[id].handle.generation <= nextGen)
      && (forall g | g in host.open :: g <= nextGen)
      && (closed ==> active == map[])
    }

    /** Besides, every published handle is open and no other one; a nil handle may not be published. */
    ghost predicate Sound()
      reads this, host
    {
      Numbered() && (!closed ==> Owned(active, host.open))
    }

    constructor (watchers: WatchHost)
      requires watchers.open == map[]
      ensures Sound() && host == watchers && !closed && active == map[] && degraded == {} && errors == map[]
      ensures nextGen == 0 && callbacks == 0
    {
      host := watchers;
      active, degraded, errors, nextGen, closed, callbacks := map[], {}, map[], 0, false, 0;
    }

    ghost function Condition(): Health
      reads this
    {
      Health(degraded, errors)
    }

    // ---------- Reports ----------

    method PublishError(id: int, generation: nat, trouble: Trouble, degrade: bool)
      modifies `errors, `degraded
      ensures Condition() == if closed then old(Condition())
                             else React(active, old(Condition()), if degrade then Degrade(id, generation, trouble)
                                                                  else Complain(id, generation, trouble))
    {
      if closed || !Holds(active, id, generation) {
        return;
      }
      errors := errors[id := trouble];
      if degrade {
        degraded := degraded + {id};
      }
    }

    method RearmLocked(id: int, generation: nat)
      modifies `errors, `degraded
      ensures Condition() == if closed then old(Condition()) else React(active, old(Condition()), Rearm(id, generation))
    {
      if Holds(active, id, generation) && !closed {
        degraded, errors := degraded - {id}, errors - {id};
      }
    }

    /** What watchers and timers may report while Reconcile holds no lock, and the callbacks they may start or end. */
    method Elsewhere(between: seq<Report>)
      requires !closed
      modifies `errors, `degraded, `callbacks
      ensures Condition() == ReactAll(active, old(Condition()), between)
    {
      for k := 0 to |between|
        modifies `errors, `degraded
        invariant Condition() == ReactAll(active, old(Condition()), between[..k])
      {
        assert between[..k + 1][..k] == between[..k];
        match between[k]
        case Degrade(id, generation, trouble) => PublishError(id, generation, trouble, true);
        case Complain(id, generation, trouble) => PublishError(id, generation, trouble, false);
        case Rearm(id, generation) => RearmLocked(id, generation);
      }
      assert between[..|between|] == between;
      callbacks := *;
    }

    // ---------- Reconcile ----------

    static method Wanted(jobs: seq<WatchJob>, looks: seq<Look>)
      returns (desired: map<int, WatchSpec>, invalid: set<int>)
      requires |jobs| == |looks|
      ensures desired == DesiredWatches(jobs, looks) && invalid == InvalidWatches(jobs, looks)
    {
      desired, invalid := map[], {};
      for k := 0 to |jobs|
        invariant desired == DesiredWatches(jobs[..k], looks[..k]) && invalid == InvalidWatches(jobs[..k], looks[..k])
      {
        assert jobs[..k + 1][..k] == jobs[..k] && looks[..k + 1][..k] == looks[..k];
        if Eligible(jobs[k].job, Watch) {
          var checked := SpecOf(jobs[k], looks[k]);
          if checked.Bad? {
            invalid := invalid + {jobs[k].job.id};
          } else {
            desired := desired[jobs[k].job.id := checked.spec];
          }
        }
      }
      assert jobs[..|jobs|] == jobs && looks[..|looks|] == looks;
    }

    /** The first critical section: which handles to create. */
    method PlanLocked(desired: map<int, WatchSpec>) returns (create: map<int, Handle>)
      modifies `nextGen
      ensures IsCreation(desired.Keys, active, degraded, desired, old(nextGen), create, nextGen)
    {
      create := map[];
      var left := desired.Keys;
      ghost var done: set<int> := {};
      while left != {}
        invariant left <= desired.Keys && left !! done && done + left == desired.Keys
        invariant IsCreation(done, active, degraded, desired, old(nextGen), create, nextGen)
        decreases |left|
      {
        var id, rest := Take(left);
        CreationMore(id, done, active, degraded, desired, old(nextGen), create, nextGen);
        var same := false;
        if id in active && active[id].Is? {
          same := SameWatchSpec(active[id].handle.spec, desired[id]);
        }
        if !same || id in degraded {
          nextGen := nextGen + 1;
          create := create[id := Handle(nextGen, desired[id])];
        }
        left, done := rest, done + {id};
      }
      assert done == desired.Keys;
    }

    /** Opens the handles to create; when one fails, stops those already opened. */
    method Prepare(create: map<int, Handle>, fails: set<int>) returns (refused: set<int>)
      requires Unopened(create, host.open)
      modifies host
      ensures refused == {} ==> Opens(old(host.open), create, create.Keys, host.open)
      ensures refused == {} <==> forall id | id in create :: id !in fails
      ensures refused != {} ==> refused <= create.Keys && refused <= fails && host.open == old(host.open)
    {
      refused := {};
      var left, prepared := create.Keys, {};
      while left != {}
        invariant left !! prepared && prepared + left == create.Keys
        invariant Opens(old(host.open), create, prepared, host.open) && forall id | id in prepared :: id !in fails
        decreases |left|
      {
        var id, rest := Take(left);
        OpensMore(old(host.open), create, prepared, host.open, id);
        var ok := host.NewHandle(id, create[id], id in fails);
        if !ok {
          StoppingRestores(old(host.open), create, prepared, host.open);
          StopAll(create, prepared);
          refused := {id};
          return;
        }
        left, prepared := rest, prepared + {id};
      }
    }

    /** Stops the created handles of some jobs. */
    method StopAll(create: map<int, Handle>, ids: set<int>)
      requires ids <= create.Keys
      modifies host
      ensures host.open == old(host.open) - Generations(create, ids)
    {
      var left := ids;
      ghost var stopped: set<nat> := {};
      while left != {}
        invariant left <= ids && stopped == Generations(create, ids - left)
        invariant host.open == old(host.open) - stopped
        decreases |left|
      {
        var id, rest := Take(left);
        host.Stop(create[id]);
        GenerationsMore(create, ids - left, id);
        assert ids - rest == ids - left + {id};
        left, stopped := rest, stopped + {create[id].generation};
      }
      assert ids - {} == ids;
    }

    /** Stops the handles of some slots, in any order, as far as the first nil one. */
    method StopSlots(slots: map<int, Slot>) returns (crashed: bool)
      modifies host
      ensures crashed <==> exists id :: id in slots && slots[id].Nil?
      ensures !crashed ==> host.open == old(host.open) - Published(slots)
      ensures PartlyStopped(old(host.open), Published(slots), host.open)
    {
      var left, done := slots.Keys, {};
      ghost var stopped: set<nat> := {};
      while left != {}
        invariant left !! done && done + left == slots.Keys && forall id | id in done :: slots[id].Is?
        invariant stopped == PublishedFor(slots, done) && host.open == old(host.open) - stopped
        decreases |left|
      {
        var id, rest := Take(left);
        if slots[id].Nil? {
          PublishedWithin(slots, done);
          return true;
        }
        host.Stop(slots[id].handle);
        PublishedMore(slots, done, id);
        left, done, stopped := rest, done + {id}, stopped + {slots[id].handle.generation};
      }
      assert done == slots.Keys;
      crashed := false;
    }

    /** The second critical section: what is published, and which former handles are to be stopped. */
    method PublishLocked(desired: map<int, WatchSpec>, invalid: set<int>, prepared: map<int, Handle>)
      returns (stopped: map<int, Slot>)
      requires forall id | id in active :: Sortable(id, active, desired, invalid, prepared)
      modifies `active, `errors, `degraded
      ensures active == NextActive(old(active), old(degraded), desired, invalid, prepared)
      ensures forall id :: id in stopped <==> Retires(id, old(active), desired, invalid, prepared)
      ensures forall id | id in stopped :: id in old(active) && stopped[id] == old(active)[id]
      ensures Condition() == AfterPublish(old(Condition()), desired.Keys, invalid)
    {
      var sifted;
      sifted, stopped := Sift(desired, invalid, prepared);
      var next := FillIn(sifted, desired, prepared);
      SiftedAndFilled(active, degraded, desired, invalid, prepared, sifted, stopped, next);
      active := next;
      errors := (map id | id in errors.Keys + invalid :: if id in invalid then CannotWatch else errors[id])
                - (desired.Keys - invalid);
      degraded := degraded - (desired.Keys - invalid);
    }

    method Sift(desired: map<int, WatchSpec>, invalid: set<int>, prepared: map<int, Handle>)
      returns (next: map<int, Slot>, stopped: map<int, Slot>)
      requires forall id | id in active :: Sortable(id, active, desired, invalid, prepared)
      ensures IsSifting(active.Keys, active, degraded, desired, invalid, prepared, next, stopped)
    {
      next, stopped := map[], map[];
      var left, done := active.Keys, {};
      while left != {}
        invariant left !! done && done + left == active.Keys
        invariant IsSifting(done, active, degraded, desired, invalid, prepared, next, stopped)
        decreases |left|
      {
        var id, rest := Take(left);
        var next', stopped' := SiftOne(id, desired, invalid, prepared, next, stopped);
        SiftingMore(id, done, active, degraded, desired, invalid, prepared, next, stopped, next', stopped');
        left, done, next, stopped := rest, done + {id}, next', stopped';
      }
      assert done == active.Keys;
    }

    method SiftOne(id: int, desired: map<int, WatchSpec>, invalid: set<int>, prepared: map<int, Handle>,
                   next: map<int, Slot>, stopped: map<int, Slot>)
      returns (next': map<int, Slot>, stopped': map<int, Slot>)
      requires id in active && Sortable(id, active, desired, invalid, prepared)
      ensures stopped' == if Retires(id, active, desired, invalid, prepared) then stopped[id := active[id]] else stopped
      ensures next' == if !InNext(id, active, desired, invalid) then next
                       else if id in invalid then next[id := active[id]]
                       else if id in prepared then next[id := Is(prepared[id])]
                       else if Fits(id, active, degraded, desired[id]) then next[id := active[id]]
                       else next
    {
      next', stopped' := next, stopped;
      var current := active[id];
      if id in invalid {
        next' := next[id := current];
      } else if id !in desired {
        stopped' := stopped[id := current];
      } else if id in prepared {
        next', stopped' := next[id := Is(prepared[id])], stopped[id := current];
      } else {
        var same := SameWatchSpec(current.handle.spec, desired[id]);
        if same && id !in degraded {
          next' := next[id := current];
        }
      }
    }

    /** Looking up a job that was not prepared gives a nil handle. */
    static method FillIn(next: map<int, Slot>, desired: map<int, WatchSpec>, prepared: map<int, Handle>)
      returns (filled: map<int, Slot>)
      ensures forall id :: id in filled <==> id in next || id in desired
      ensures forall id | id in filled ::
                filled[id] == if id in next then next[id] else if id in prepared then Is(prepared[id]) else Nil
    {
      filled := next;
      var left, done := desired.Keys, {};
      while left != {}
        invariant left !! done && done + left == desired.Keys
        invariant forall id :: id in filled <==> id in next || id in done
        invariant forall id | id in filled ::
                    filled[id] == if id in next then next[id] else if id in prepared then Is(prepared[id]) else Nil
        decreases |left|
      {
        var id, rest := Take(left);
        if id !in filled {
          filled := filled[id := if id in prepared then Is(prepared[id]) else Nil];
        }
        left, done := rest, done + {id};
      }
      assert done == desired.Keys;
    }

    /**
     Brings the handles to the jobs. A handle that cannot be opened leaves everything as it was; once
     closed, nothing happens. Otherwise the next handles are published and those they replace stopped,
     unless one of these is nil: exactly then the call crashes. From a sound state it does not, and the
     handles stay sound exactly when no job that the first section left alone was found degraded by
     the second, and none was created in vain. `ready` is what is open once all is prepared.
     */
    method Reconcile(jobs: seq<WatchJob>, looks: seq<Look>, between: seq<Report>, fails: set<int>)
      returns (outcome: Outcome, ghost create: map<int, Handle>, ghost ready: map<nat, int>)
      requires |jobs| == |looks| && Numbered()
      modifies this`active, this`degraded, this`errors, this`callbacks, this`nextGen, host
      ensures Numbered() && closed == old(closed) && (outcome.Closed? <==> closed)
      ensures outcome.Closed? ==> active == old(active) && host.open == old(host.open) && Condition() == old(Condition())
      ensures !closed ==> IsCreation(DesiredWatches(jobs, looks).Keys, old(active), old(degraded), DesiredWatches(jobs, looks),
                                     old(nextGen), create, nextGen)
      ensures outcome.Refused? <==> !closed && exists id :: id in create && id in fails
      ensures outcome.Refused? ==> active == old(active) && host.open == old(host.open) && outcome.id in create
                                   && outcome.id in errors && errors[outcome.id] == CannotPrepare
                                   && degraded == ReactAll(old(active), old(Condition()), between).degraded
      ensures outcome.Crashed? <==>
              !closed && !outcome.Refused?
              && exists id :: id in old(active) && old(active)[id].Nil? && id !in InvalidWatches(jobs, looks)
      ensures outcome.Reconciled? || outcome.Crashed? ==>
                var desired, invalid := DesiredWatches(jobs, looks), InvalidWatches(jobs, looks);
                var gone := Retired(old(active), desired, invalid, create, old(active).Keys);
                && active == NextActive(old(active), ReactAll(old(active), old(Condition()), between).degraded, desired, invalid, create)
                && Condition() == AfterPublish(ReactAll(old(active), old(Condition()), between), desired.Keys, invalid)
                && Opens(old(host.open), create, create.Keys, ready) && PartlyStopped(ready, gone, host.open)
                && (outcome.Reconciled? ==> outcome.invalid == invalid && host.open == ready - gone)
      ensures outcome.Reconciled? || outcome.Crashed? ==> WatchesAll(jobs, looks, old(active), active)
      ensures outcome.Reconciled? || outcome.Crashed? ==>
                var desired, invalid := DesiredWatches(jobs, looks), InvalidWatches(jobs, looks);
                && (forall id | id in desired && id !in invalid :: id !in degraded && id !in errors)
                && (forall id | id in invalid :: id in errors && errors[id] == CannotWatch)
      ensures old(Sound()) ==> if outcome.Reconciled? then Sound() <==> NoneLost(jobs, looks, between, old(active), old(Condition()), create)
                               else Sound() && !outcome.Crashed?
    {
      var desired, invalid := Wanted(jobs, looks);
      create, ready := map[], host.open;
      if closed {
        return Closed, create, ready;
      }
      var planned := PlanLocked(desired);
      create := planned;
      Elsewhere(between);
      var refused := Prepare(planned, fails);
      ready := host.open;
      if refused != {} {
        var id, _ := Take(refused);
        errors := errors[id := CannotPrepare];
        return Refused(id), create, ready;
      }
      // Close waits for Reconcile to return, so that the manager cannot have been closed meanwhile
      NextWatches(jobs, looks, old(active), degraded, old(degraded), planned, old(nextGen), nextGen);
      var crashed := Publish(desired, invalid, planned, old(degraded), old(nextGen), old(host.open));
      outcome := if crashed then Crashed else Reconciled(invalid);
    }

    /** Publishes the next handles, then stops those they replace. */
    method Publish(desired: map<int, WatchSpec>, invalid: set<int>, prepared: map<int, Handle>, ghost sooner: set<int>,
                   ghost from: nat, ghost before: map<nat, int>)
      returns (crashed: bool)
      requires !closed && IsCreation(desired.Keys, active, sooner, desired, from, prepared, nextGen)
      requires Opens(before, prepared, prepared.Keys, host.open) && forall g | g in before :: g <= from
      requires forall id | id in active && active[id].Is? :: active[id].handle.generation <= from
      modifies this`active, this`errors, this`degraded, host
      ensures Numbered() && active == NextActive(old(active), old(degraded), desired, invalid, prepared)
      ensures crashed <==> exists id :: id in old(active) && old(active)[id].Nil? && id !in invalid
      ensures var gone := Retired(old(active), desired, invalid, prepared, old(active).Keys);
              PartlyStopped(old(host.open), gone, host.open) && (!crashed ==> host.open == old(host.open) - gone)
      ensures Owned(old(active), before) ==>
                !crashed && (Sound() <==>
                             forall id :: !FallsBetween(id, old(active), old(degraded), desired, invalid, prepared)
                                          && !Orphaned(id, old(active), invalid, prepared))
      ensures Condition() == AfterPublish(old(Condition()), desired.Keys, invalid)
    {
      AllSortable(active, desired, invalid, prepared, sooner, from, nextGen);
      StaysNumbered(active, degraded, desired, invalid, prepared, sooner, from, nextGen, before, host.open);
      if Owned(active, before) {
        OwnedThenOpens(active, before, prepared, host.open);
        PublishOwns(active, degraded, desired, invalid, prepared, sooner, from, nextGen, host.open);
      }
      var stopped := PublishLocked(desired, invalid, prepared);
      StoppedAreRetired(old(active), desired, invalid, prepared, stopped);
      crashed := StopSlots(stopped);
    }

    // ---------- Signals, fired timers, Close ----------

    predicate Current(id: int, generation: nat)
      reads this
    {
      !closed && Holds(active, id, generation) && id !in degraded
    }

    /** The check under which a fired timer goes on to start a run; it carries the revision of its handle. */
    method Claim(id: int, generation: nat) returns (start: bool)
      modifies `callbacks
      ensures start <==> Current(id, generation)
      ensures callbacks == old(callbacks) + if start then 1 else 0
    {
      if closed || !Holds(active, id, generation) || id in degraded {
        return false;
      }
      callbacks := callbacks + 1;
      start := true;
    }

    /** After a claim: a source gone meanwhile degrades the handle, a failed start other than an overlap is reported. */
    method Settle(id: int, generation: nat, sourceGone: bool, failed: bool, overlap: bool)
      requires callbacks > 0
      modifies `callbacks, `errors, `degraded
      ensures callbacks == old(callbacks) - 1
      ensures Condition() ==
              if closed then old(Condition())
              else if sourceGone then React(active, old(Condition()), Degrade(id, generation, Lost))
              else if failed && !overlap then React(active, old(Condition()), Complain(id, generation, StartFailed))
              else old(Condition())
    {
      if sourceGone {
        PublishError(id, generation, Lost, true);
      } else if failed && !overlap {
        PublishError(id, generation, StartFailed, false);
      }
      callbacks := callbacks - 1;
    }

    /**
     Close unpublishes every handle, then stops it, up to a nil one; waiting for the callbacks comes last,
     and not after a crash. From a sound state nothing stays open.
     */
    method Close() returns (crashed: bool)
      requires Numbered()
      modifies `closed, `active, host
      ensures Numbered() && closed && active == map[]
      ensures crashed <==> !old(closed) && exists id :: id in old(active) && old(active)[id].Nil?
      ensures !old(closed) ==> PartlyStopped(old(host.open), Published(old(active)), host.open)
      ensures !old(closed) && !crashed ==> host.open == old(host.open) - Published(old(active))
      ensures !old(closed) && old(Sound()) ==> !crashed && host.open == map[]
    {
      if closed {
        return false;
      }
      var handles := active;
      if Sound() {
        AllPublished(active, host.open);
      }
      closed, active := true, map[];
      crashed := StopSlots(handles);
    }
  }
}
