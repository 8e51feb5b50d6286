/**
 The scheduler: it keeps the cron engine's registrations in step with the jobs. Each part of
 `Reconcile` between two lock acquisitions is a method, and so are the two halves of a fired
 callback. Between its critical sections other callbacks may run: `Elsewhere`.
 */
module Schedulers {
  import opened AnyOrder
  import opened CronPlans

  /** The cron engine: registers callbacks under increasing positive entries, or refuses. */
  class CronEngine {
    var live: map<nat, Callback>
    var last: nat
    /** The expression of every entry there has ever been. */
    ghost var specs: map<nat, string>
    ghost var operations: nat

    constructor ()
      ensures Numbered() && live == map[] && last == 0 && operations == 0
    {
      live, last, specs, operations := map[], 0, map[], 0;
    }

    ghost predicate Numbered()
      reads this
    {
      (forall e | e in live :: e <= last) && forall e | e in specs :: e <= last
    }

    /** What is known of earlier entries stays known. */
    twostate predicate Remembers()
      reads this
    {
      old(last) <= last && forall e | e in old(specs) :: e in specs && specs[e] == old(specs)[e]
    }

    /** A refusal is usually of the expression, but may have any cause. */
    method AddFunc(spec: string, callback: Callback, refuses: bool) returns (entry: nat, ok: bool)
      requires Numbered()
      modifies this
      ensures Numbered() && Remembers()
      ensures operations == old(operations) + 1 && (ok <==> !refuses)
      ensures ok ==> entry > old(last) && last == entry && live == old(live)[entry := callback]
                     && specs == old(specs)[entry := spec]
      ensures !ok ==> entry == 0 && last == old(last) && live == old(live) && specs == old(specs)
    {
      operations := operations + 1;
      ok := !refuses;
      entry := 0;
      if ok {
        entry :| entry > last;
        last, live, specs := entry, live[entry := callback], specs[entry := spec];
      }
    }

    method Remove(entry: nat)
      modifies `live, `operations
      ensures operations == old(operations) + 1 && live == old(live) - {entry}
    {
      operations, live := operations + 1, live - {entry};
    }
  }

  datatype Failure = NotACronSpec | EngineRefused | StartFailed

  datatype Outcome = Closed | Refused(id: int) | Reconciled(invalid: set<int>)

  class Scheduler {
    const cron: CronEngine
    var entries: map<int, Scheduled>
    var errors: map<int, Failure>
    var nextGen: nat
    var closed: bool
    var callbacks: nat

    ghost predicate Valid()
      reads this, cron
    {
      && cron.Numbered()
      && (if closed then entries == map[] else Mirrors(entries, cron.live))
      && AllRegistered(entries) && Timed(entries, cron.specs)
    }

    constructor (engine: CronEngine)
      requires engine.Numbered() && engine.live == map[]
      ensures Valid() && cron == engine && entries == map[] && errors == map[] && !closed && callbacks == 0
      ensures nextGen == 0
    {
      cron := engine;
      entries, errors, nextGen, closed, callbacks := map[], map[], 0, false, 0;
    }

    // ---------- Reconcile ----------

    static method Wanted(jobs: seq<Job>) returns (desired: map<int, Scheduled>, invalid: set<int>)
      ensures desired == Desired(jobs) && invalid == Invalid(jobs)
    {
      desired, invalid := map[], {};
      for k := 0 to |jobs|
        invariant desired == Desired(jobs[..k]) && invalid == Invalid(jobs[..k])
      {
        var job := jobs[k];
        WantedStep(jobs, k);
        if Eligible(job, Cron) {
          var spec := Normalize(job.cron);
          if spec.BadSpec? {
            invalid := invalid + {job.id};
          } else {
            desired := desired[job.id := Scheduled(0, job.revision, spec.text, 0)];
          }
        }
      }
      assert jobs[..|jobs|] == jobs;
    }

    /** The first critical section: what to keep, what to register and what to remove. */
    method PlanLocked(desired: map<int, Scheduled>, invalid: set<int>) returns (plan: Plan)
      modifies `nextGen
      ensures IsPlan(entries, desired, invalid, old(nextGen), plan) && nextGen == plan.generation
      ensures forall id | id in desired && id !in invalid ::
                id in plan.next && plan.next[id].revision == desired[id].revision && plan.next[id].spec == desired[id].spec
    {
      plan := Plan(map[], map[], {}, nextGen);
      plan := PlanOver(entries.Keys, {}, desired, invalid, nextGen, plan);
      plan := PlanOver(desired.Keys - entries.Keys, {} + entries.Keys, desired, invalid, nextGen, plan);
      assert {} + entries.Keys + (desired.Keys - entries.Keys) == entries.Keys + desired.Keys;
      nextGen := plan.generation;
    }

    method PlanOver(ids: set<int>, ghost done: set<int>, desired: map<int, Scheduled>, invalid: set<int>,
                    ghost before: nat, p: Plan)
      returns (plan: Plan)
      requires IsPlanFor(done, entries, desired, invalid, before, p)
      requires ids !! done && ids <= entries.Keys + desired.Keys
      ensures IsPlanFor(done + ids, entries, desired, invalid, before, plan)
    {
      plan := p;
      var left := ids;
      ghost var visited := done;
      while left != {}
        invariant left <= ids && left !! visited && visited + left == done + ids
        invariant IsPlanFor(visited, entries, desired, invalid, before, plan)
        decreases |left|
      {
        var id, rest := Take(left);
        plan := PlanFor(id, visited, desired, invalid, before, plan);
        left, visited := rest, visited + {id};
      }
    }

    method PlanFor(id: int, ghost done: set<int>, desired: map<int, Scheduled>, invalid: set<int>, ghost before: nat,
                   p: Plan)
      returns (plan: Plan)
      requires IsPlanFor(done, entries, desired, invalid, before, p)
      requires id !in done && (id in entries || id in desired)
      ensures IsPlanFor(done + {id}, entries, desired, invalid, before, plan)
    {
      VisitPlans(id, done, entries, desired, invalid, before, p);
      if id in entries && id in invalid {
        plan := p.(next := p.next[id := entries[id]]);
      } else if id !in desired {
        plan := p.(removed := p.removed + {entries[id].entry});
      } else if id in entries && !Changed(entries[id], desired[id]) {
        plan := p.(next := p.next[id := entries[id]]);
      } else {
        var want := desired[id].(generation := p.generation + 1);
        plan := Plan(p.next[id := want], p.added[id := want], p.removed, p.generation + 1);
        if id in entries {
          plan := plan.(removed := plan.removed + {entries[id].entry});
        }
      }
    }

    /** How far the registrations of a plan have got. */
    ghost predicate Registering(plan: map<int, Scheduled>, added: map<int, Scheduled>, before: map<nat, Callback>,
                                last: nat, done: set<int>)
      reads cron
    {
      && cron.Numbered() && last <= cron.last
      && Filled(plan, added, done) && Extends(before, last, added, done, cron.live) && Timed(added, cron.specs)
    }

    /** Registers what the plan adds; on a refusal, takes back what was registered. */
    method Register(plan: map<int, Scheduled>, refuses: set<int>)
      returns (added: map<int, Scheduled>, refused: set<int>)
      requires cron.Numbered()
      requires forall id | id in plan :: plan[id].entry == 0
      modifies cron
      ensures plan == map[] ==> cron.operations == old(cron.operations) && refused == {}
      ensures cron.Numbered() && cron.Remembers()
      ensures refused == {} <==> forall id | id in plan :: id !in refuses
      ensures refused != {} ==> refused <= plan.Keys && cron.live == old(cron.live)
      ensures refused == {} ==> Registering(plan, added, old(cron.live), old(cron.last), plan.Keys)
    {
      added, refused := plan, {};
      var left := plan.Keys;
      ghost var done: set<int> := {};
      while left != {}
        decreases |left|
        invariant left <= plan.Keys && done == plan.Keys - left
        invariant plan == map[] ==> cron.operations == old(cron.operations)
        invariant Registering(plan, added, old(cron.live), old(cron.last), done) && cron.Remembers()
        invariant forall id | id in done :: id !in refuses
      {
        var id, rest := Take(left);
        var ok;
        added, ok := RegisterOrRestore(id, plan, added, old(cron.live), old(cron.last), done, id in refuses);
        if !ok {
          refused := {id};
          return;
        }
        left, done := rest, done + {id};
      }
    }

    /** One more registration or, if it is refused, none at all. */
    method RegisterOrRestore(id: int, ghost plan: map<int, Scheduled>, added: map<int, Scheduled>,
                             ghost before: map<nat, Callback>, ghost last: nat, ghost done: set<int>, refuses: bool)
      returns (added': map<int, Scheduled>, ok: bool)
      requires Registering(plan, added, before, last, done) && id in added && id !in done
      modifies cron
      ensures cron.Numbered() && cron.Remembers() && (ok <==> !refuses)
      ensures !ok ==> cron.live == before
      ensures ok ==> Registering(plan, added', before, last, done + {id})
    {
      added', ok := RegisterOne(id, plan, added, before, last, done, refuses);
      if !ok {
        Unregister(added', before, last, done);
      }
    }

    method RegisterOne(id: int, ghost plan: map<int, Scheduled>, added: map<int, Scheduled>,
                       ghost before: map<nat, Callback>, ghost last: nat, ghost done: set<int>, refuses: bool)
      returns (added': map<int, Scheduled>, ok: bool)
      requires Registering(plan, added, before, last, done) && id in added && id !in done
      modifies cron
      ensures cron.Remembers() && (ok <==> !refuses)
      ensures !ok ==> added' == added && Registering(plan, added, before, last, done)
      ensures ok ==> Registering(plan, added', before, last, done + {id})
    {
      var want := added[id];
      var entry;
      entry, ok := cron.AddFunc(want.spec, Callback(id, want.revision, want.generation), refuses);
      added' := added;
      if ok {
        ExtendsMore(before, last, added, done, old(cron.live), id, entry);
        added' := added[id := want.(entry := entry)];
      }
    }

    /** Takes back what was registered, leaving live exactly what was live before. */
    method Unregister(added: map<int, Scheduled>, ghost before: map<nat, Callback>, ghost last: nat,
                      ghost done: set<int>)
      requires done <= added.Keys && forall id | id in added && id !in done :: added[id].entry == 0
      requires Extends(before, last, added, done, cron.live) && last >= 0
      requires cron.Numbered()
      modifies cron`live, cron`operations
      ensures cron.live == before && cron.Numbered() && cron.Remembers()
    {
      var left := added.Keys;
      while left != {}
        decreases |left|
        invariant left <= added.Keys
        invariant forall e | e in before :: e in cron.live && cron.live[e] == before[e]
        invariant forall e | e in cron.live && e !in before ::
                    e > last && cron.live[e].id in left && cron.live[e].id in added && added[cron.live[e].id].entry == e
      {
        var id, rest := Take(left);
        var installed := added[id];
        assert id in done || installed.entry == 0;
        if installed.entry != 0 {
          cron.Remove(installed.entry);
        }
        left := rest;
      }
      SameMap(before, cron.live);
    }

    method RemoveAll(removed: set<nat>)
      modifies cron`live, cron`operations
      ensures cron.live == old(cron.live) - removed && (old(cron.Numbered()) ==> cron.Numbered())
      ensures removed == {} ==> cron.operations == old(cron.operations)
    {
      var left := removed;
      while left != {}
        decreases |left|
        invariant left <= removed && cron.live == old(cron.live) - (removed - left)
        invariant removed == {} ==> cron.operations == old(cron.operations)
      {
        var entry, rest := Take(left);
        cron.Remove(entry);
        left := rest;
      }
      assert removed - {} == removed;
    }

    /** The critical section that publishes the new entries and settles the errors. */
    method PublishLocked(next: map<int, Scheduled>, desired: map<int, Scheduled>, invalid: set<int>)
      modifies `entries, `errors
      ensures entries == next
      ensures forall id | id in invalid :: id in errors && errors[id] == NotACronSpec
      ensures forall id | id in desired && id !in invalid :: id !in errors
      ensures forall id | id !in desired && id !in invalid ::
                (id in errors <==> id in old(errors)) && (id in errors ==> errors[id] == old(errors)[id])
    {
      entries := next;
      errors := (map id | id in errors.Keys + invalid :: if id in invalid then NotACronSpec else errors[id])
                - (desired.Keys - invalid);
    }

    /** What other goroutines may do to the scheduler while Reconcile holds no lock: no more than `Claim` and `Settle`. */
    method Elsewhere()
      modifies `errors, `callbacks
    {
      errors := *;
      callbacks := *;
    }

    /**
     Brings the engine to the jobs. It succeeds whole or, exactly when the engine refuses one of the new
     registrations, leaves entries and engine as they were; once closed, it does nothing. A mirrored
     engine stays so, and reconciling the same jobs again does nothing at the engine.
     */
    method Reconcile(jobs: seq<Job>, refuses: set<int>) returns (outcome: Outcome)
      requires Valid()
      modifies this`entries, this`errors, this`callbacks, this`nextGen, cron
      ensures Valid() && nextGen >= old(nextGen)
      ensures outcome.Closed? <==> old(closed)
      ensures outcome.Reconciled? <==>
              !old(closed) && forall id :: Adds(id, old(entries), Desired(jobs), Invalid(jobs)) ==> id !in refuses
      ensures outcome.Closed? ==> entries == old(entries) && errors == old(errors) && cron.live == old(cron.live)
      ensures outcome.Refused? ==> entries == old(entries) && cron.live == old(cron.live) && outcome.id in Desired(jobs)
                                   && outcome.id in errors && errors[outcome.id] == EngineRefused
      ensures outcome.Reconciled? ==> Serves(old(entries), Desired(jobs), Invalid(jobs), entries)
                                      && Settled(entries, Desired(jobs), Invalid(jobs))
                                      && outcome.invalid == Invalid(jobs)
                                      && (forall id | id in outcome.invalid :: id in errors && errors[id] == NotACronSpec)
                                      && (forall id | id in Desired(jobs) && id !in outcome.invalid :: id !in errors)
      ensures outcome.Reconciled? ==> Schedules(jobs, old(entries), entries, cron.live, cron.specs)
      ensures !old(closed) && Settled(old(entries), Desired(jobs), Invalid(jobs)) ==>
                outcome.Reconciled? && entries == old(entries) && cron.operations == old(cron.operations)
    {
      var desired, invalid := Wanted(jobs);
      if closed {
        return Closed;
      }
      DesiredUnregistered(jobs);
      outcome := ReconcileOpen(desired, invalid, refuses);
      if outcome.Reconciled? {
        ServedIsSettled(old(entries), desired, invalid, entries);
        ServedRuns(jobs, old(entries), entries, cron.live, cron.specs);
      }
    }

    method ReconcileOpen(desired: map<int, Scheduled>, invalid: set<int>, refuses: set<int>) returns (outcome: Outcome)
      requires Valid() && !closed && forall id | id in desired :: desired[id].entry == 0
      modifies this`entries, this`errors, this`callbacks, this`nextGen, cron
      ensures Valid() && nextGen >= old(nextGen) && !outcome.Closed?
      ensures outcome.Reconciled? <==> forall id :: Adds(id, old(entries), desired, invalid) ==> id !in refuses
      ensures outcome.Refused? ==> entries == old(entries) && cron.live == old(cron.live) && outcome.id in desired
                                   && outcome.id in errors && errors[outcome.id] == EngineRefused
      ensures outcome.Reconciled? ==> outcome.invalid == invalid && Serves(old(entries), desired, invalid, entries)
                                      && (forall id | id in invalid :: id in errors && errors[id] == NotACronSpec)
                                      && (forall id | id in desired && id !in invalid :: id !in errors)
      ensures Settled(old(entries), desired, invalid) ==>
                outcome.Reconciled? && entries == old(entries) && cron.operations == old(cron.operations)
    {
      var plan := PlanLocked(desired, invalid);
      if Settled(entries, desired, invalid) {
        PlanOfSettled(entries, desired, invalid, old(nextGen), plan);
      }
      outcome := Carry(desired, invalid, plan, refuses, old(nextGen));
    }

    /** What follows the plan, mostly without the lock: registering, then publishing and removing. */
    method Carry(desired: map<int, Scheduled>, invalid: set<int>, plan: Plan, refuses: set<int>, ghost before: nat)
      returns (outcome: Outcome)
      requires Valid() && !closed && IsPlan(entries, desired, invalid, before, plan)
      requires forall id | id in plan.added :: plan.added[id].entry == 0
      modifies this`entries, this`errors, this`callbacks, cron
      ensures Valid() && !outcome.Closed?
      ensures outcome.Reconciled? <==> forall id | id in plan.added :: id !in refuses
      ensures outcome.Refused? ==> entries == old(entries) && cron.live == old(cron.live) && outcome.id in plan.added
                                   && outcome.id in errors && errors[outcome.id] == EngineRefused
      ensures outcome.Reconciled? ==> outcome.invalid == invalid && Serves(old(entries), desired, invalid, entries)
                                      && (forall id | id in invalid :: id in errors && errors[id] == NotACronSpec)
                                      && (forall id | id in desired && id !in invalid :: id !in errors)
      ensures plan.added == map[] && plan.removed == {} ==>
                outcome.Reconciled? && entries == plan.next && cron.operations == old(cron.operations)
    {
      Elsewhere();
      var added, refused := Register(plan.added, refuses);
      if refused != {} {
        var id, _ := Take(refused);
        errors := errors[id := EngineRefused];
        return Refused(id);
      }
      // Close waits for Reconcile to return, so that the scheduler cannot have been closed meanwhile
      Elsewhere();
      Publish(desired, invalid, plan, added, before, old(cron.live), old(cron.last));
      outcome := Reconciled(invalid);
    }

    /** Publishes the next entries, then removes from the engine what they replace. */
    method Publish(desired: map<int, Scheduled>, invalid: set<int>, plan: Plan, added: map<int, Scheduled>,
                   ghost before: nat, ghost live: map<nat, Callback>, ghost last: nat)
      requires !closed && Mirrors(entries, live) && AllRegistered(entries) && Timed(entries, cron.specs)
      requires IsPlan(entries, desired, invalid, before, plan)
      requires Registering(plan.added, added, live, last, plan.added.Keys)
      modifies this`entries, this`errors, cron`live, cron`operations
      ensures Valid() && Serves(old(entries), desired, invalid, entries)
      ensures plan.removed == {} ==> cron.operations == old(cron.operations)
      ensures entries == WithEntries(plan.next, added)
      ensures forall id | id in invalid :: id in errors && errors[id] == NotACronSpec
      ensures forall id | id in desired && id !in invalid :: id !in errors
    {
      PublishReconciles(entries, desired, invalid, before, plan, added);
      PublishMirrors(entries, desired, invalid, before, plan, added, live, last, cron.live);
      PublishLocked(WithEntries(plan.next, added), desired, invalid);
      RemoveAll(plan.removed);
    }

    // ---------- Fired callbacks ----------

    /** The first half of a fired callback: it goes on to start a run only if its registration is the published one. */
    method Claim(callback: Callback) returns (start: bool)
      modifies `callbacks
      ensures start <==> Current(entries, closed, callback)
      ensures callbacks == old(callbacks) + if start then 1 else 0
    {
      if callback.id !in entries || closed {
        return false;
      }
      var entry := entries[callback.id];
      if entry.revision != callback.revision || entry.generation != callback.generation {
        return false;
      }
      callbacks := callbacks + 1;
      start := true;
    }

    /** The second half: a failure other than an overlap is remembered while the registration is still the same. */
    method Settle(callback: Callback, failed: bool, overlap: bool)
      requires callbacks > 0
      modifies `callbacks, `errors
      ensures callbacks == old(callbacks) - 1
      ensures errors == if failed && !overlap && callback.id in entries && entries[callback.id].generation == callback.generation
                        then old(errors)[callback.id := StartFailed] else old(errors)
    {
      if failed && !overlap && callback.id in entries && entries[callback.id].generation == callback.generation {
        errors := errors[callback.id := StartFailed];
      }
      callbacks := callbacks - 1;
    }

    /** The critical section of Close; waiting for the callbacks comes after it. */
    method CloseLocked()
      requires Valid()
      modifies `closed, `entries
      ensures Valid() && closed && entries == map[]
    {
      if !closed {
        closed, entries := true, map[];
      }
    }
  }
}
