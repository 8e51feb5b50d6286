/**
 What the watch manager publishes: for each watched job a handle, with its own watcher, timer and
 goroutines. A handle's generation is its identity.
 */
module WatchPlans {
  import opened CronPlans
  import opened Texts
  import SyncArgs

  datatype Mode = Event | Poll | Hybrid

  /** A job as its form has it; the source is that of its synchronization, if it is one. */
  datatype WatchJob = WatchJob(job: Job, source: string, mode: string, debounce: int, poll: int, globs: string)

  /** Delays in seconds. */
  datatype WatchSpec = WatchSpec(revision: nat, source: string, viewSource: string, mode: Mode, debounce: int, poll: int,
                                 globs: seq<string>)

  datatype Handle = Handle(generation: nat, spec: WatchSpec)

  /** What the map of active handles may hold for a job: a handle or, after a mishap, a nil pointer. */
  datatype Slot = Nil | Is(handle: Handle)

  /** Finding a job's source on the host: where it is seen, if it can be and is a directory. */
  datatype Look = Seen(viewSource: string) | Unresolved | NotWatchable

  datatype Checked = Good(spec: WatchSpec) | Bad

  function SpecOf(w: WatchJob, look: Look): Checked {
    if TrimSpace(w.source) == "" || w.mode !in {"", "event", "poll", "hybrid"} || !look.Seen? then Checked.Bad
    else Checked.Good(WatchSpec(w.job.revision, TrimSpace(w.source), look.viewSource,
                                if w.mode == "event" then Event else if w.mode == "poll" then Poll else Hybrid,
                                if w.debounce <= 0 then 10 else w.debounce, if w.poll <= 0 then 300 else w.poll,
                                SyncArgs.SplitCSV(w.globs)))
  }

  predicate Watches(jobs: seq<WatchJob>, looks: seq<Look>, k: nat)
    requires |jobs| == |looks|
  {
    k < |jobs| && Eligible(jobs[k].job, Watch) && SpecOf(jobs[k], looks[k]).Good?
  }

  /** By job, what its last watchable mention asks for. */
  function DesiredWatches(jobs: seq<WatchJob>, looks: seq<Look>): map<int, WatchSpec>
    requires |jobs| == |looks|
  {
    if jobs == [] then map[]
    else
      var k := |jobs| - 1;
      var rest := DesiredWatches(jobs[..k], looks[..k]);
      if Watches(jobs, looks, k) then rest[jobs[k].job.id := SpecOf(jobs[k], looks[k]).spec] else rest
  }

  function InvalidWatches(jobs: seq<WatchJob>, looks: seq<Look>): set<int>
    requires |jobs| == |looks|
  {
    if jobs == [] then {}
    else
      var k := |jobs| - 1;
      InvalidWatches(jobs[..k], looks[..k])
      + if Eligible(jobs[k].job, Watch) && SpecOf(jobs[k], looks[k]).Bad? then {jobs[k].job.id} else {}
  }

  predicate DistinctIds(jobs: seq<WatchJob>) {
    forall i, j | 0 <= i < j < |jobs| :: jobs[i].job.id != jobs[j].job.id
  }

  predicate Mentioned(jobs: seq<WatchJob>, id: int) { exists k :: 0 <= k < |jobs| && jobs[k].job.id == id }

  lemma {:induction false} MentionedIfAsked(jobs: seq<WatchJob>, looks: seq<Look>, id: int)
    requires |jobs| == |looks| && (id in DesiredWatches(jobs, looks) || id in InvalidWatches(jobs, looks))
    ensures Mentioned(jobs, id)
    decreases |jobs|
  {
    if jobs != [] {
      var k := |jobs| - 1;
      if jobs[k].job.id != id {
        MentionedIfAsked(jobs[..k], looks[..k], id);
        var i :| 0 <= i < k && jobs[..k][i].job.id == id;
        assert jobs[i].job.id == id;
      }
    }
  }

  lemma LastIsNew(jobs: seq<WatchJob>)
    requires jobs != [] && DistinctIds(jobs)
    ensures !Mentioned(jobs[..|jobs| - 1], jobs[|jobs| - 1].job.id)
  {
  }

  /** Jobs listed once each are not asked for both validly and invalidly. */
  lemma {:induction false} MentionedOnce(jobs: seq<WatchJob>, looks: seq<Look>, id: int)
    requires |jobs| == |looks| && DistinctIds(jobs)
    ensures !(id in DesiredWatches(jobs, looks) && id in InvalidWatches(jobs, looks))
    decreases |jobs|
  {
    if jobs != [] {
      var k := |jobs| - 1;
      LastIsNew(jobs);
      MentionedOnce(jobs[..k], looks[..k], id);
      if jobs[k].job.id == id && (id in DesiredWatches(jobs[..k], looks[..k]) || id in InvalidWatches(jobs[..k], looks[..k])) {
        MentionedIfAsked(jobs[..k], looks[..k], id);
      }
    }
  }

  // ---------- Reports from watchers and fired timers ----------

  datatype Trouble = CannotWatch | CannotPrepare | Lost | StartFailed

  datatype Health = Health(degraded: set<int>, errors: map<int, Trouble>)

  datatype Report =
    | Degrade(id: int, generation: nat, trouble: Trouble)
    | Complain(id: int, generation: nat, trouble: Trouble)
    | Rearm(id: int, generation: nat)

  predicate Holds(active: map<int, Slot>, id: int, generation: nat) {
    id in active && active[id].Is? && active[id].handle.generation == generation
  }

  /** A report counts only while its handle is the published one. */
  function React(active: map<int, Slot>, h: Health, r: Report): Health {
    if !Holds(active, r.id, r.generation) then h
    else
      match r
      case Degrade(id, _, trouble) => Health(h.degraded + {id}, h.errors[id := trouble])
      case Complain(id, _, trouble) => h.(errors := h.errors[id := trouble])
      case Rearm(id, _) => Health(h.degraded - {id}, h.errors - {id})
  }

  function ReactAll(active: map<int, Slot>, h: Health, rs: seq<Report>): Health {
    if rs == [] then h else React(active, ReactAll(active, h, rs[..|rs| - 1]), rs[|rs| - 1])
  }

  /** Only a degrade of the published handle makes a job degraded. */
  lemma {:induction false} DegradedByReport(active: map<int, Slot>, h: Health, rs: seq<Report>, id: int)
    requires id in ReactAll(active, h, rs).degraded && id !in h.degraded
    ensures exists k :: 0 <= k < |rs| && rs[k].Degrade? && rs[k].id == id && Holds(active, id, rs[k].generation)
    decreases |rs|
  {
    if rs != [] {
      var init, last := rs[..|rs| - 1], rs[|rs| - 1];
      if id in ReactAll(active, h, init).degraded {
        DegradedByReport(active, h, init, id);
        var k :| 0 <= k < |init| && init[k].Degrade? && init[k].id == id && Holds(active, id, init[k].generation);
        assert rs[k] == init[k];
      } else {
        assert rs[|rs| - 1].Degrade? && rs[|rs| - 1].id == id;
      }
    }
  }

  /** Some report of its published handle degraded the job, and none after it armed the handle again. */
  predicate DegradedLast(active: map<int, Slot>, rs: seq<Report>, id: int) {
    exists k | 0 <= k < |rs| ::
      && rs[k].Degrade? && rs[k].id == id && Holds(active, id, rs[k].generation)
      && !RearmedFrom(active, rs, id, k)
  }

  predicate RearmedFrom(active: map<int, Slot>, rs: seq<Report>, id: int, from: nat) {
    exists k | from <= k < |rs| :: rs[k].Rearm? && rs[k].id == id && Holds(active, id, rs[k].generation)
  }

  /** A job ends up degraded exactly if it was degraded last, or was so from the start and was never armed again. */
  lemma {:induction false} DegradedExactly(active: map<int, Slot>, h: Health, rs: seq<Report>, id: int)
    ensures id in ReactAll(active, h, rs).degraded
            <==> DegradedLast(active, rs, id) || (id in h.degraded && !RearmedFrom(active, rs, id, 0))
    decreases |rs|
  {
    if rs != [] {
      var n := |rs| - 1;
      var init, last := rs[..n], rs[n];
      DegradedExactly(active, h, init, id);
      RearmedMore(active, rs, id);
      if DegradedLast(active, init, id) {
        var k :| 0 <= k < n && init[k].Degrade? && init[k].id == id && Holds(active, id, init[k].generation)
                 && !RearmedFrom(active, init, id, k);
        assert rs[k] == init[k];
        assert RearmedFrom(active, rs, id, k) <==> RearmsNow(active, last, id);
      }
      if DegradedLast(active, rs, id) && !(last.Degrade? && last.id == id && Holds(active, id, last.generation)) {
        var k :| 0 <= k < |rs| && rs[k].Degrade? && rs[k].id == id && Holds(active, id, rs[k].generation)
                 && !RearmedFrom(active, rs, id, k);
        assert init[k] == rs[k] && !RearmedFrom(active, init, id, k);
      }
      if last.Degrade? && last.id == id && Holds(active, id, last.generation) {
        assert !RearmedFrom(active, rs, id, n);
      }
    }
  }

  predicate RearmsNow(active: map<int, Slot>, r: Report, id: int) {
    r.Rearm? && r.id == id && Holds(active, id, r.generation)
  }

  lemma RearmedMore(active: map<int, Slot>, rs: seq<Report>, id: int)
    requires rs != []
    ensures forall from: nat | from < |rs| ::
              RearmedFrom(active, rs, id, from)
              <==> RearmedFrom(active, rs[..|rs| - 1], id, from) || RearmsNow(active, rs[|rs| - 1], id)
  {
    var n := |rs| - 1;
    forall from: nat | from < |rs|
      ensures RearmedFrom(active, rs, id, from) <==> RearmedFrom(active, rs[..n], id, from) || RearmsNow(active, rs[n], id)
    {
      if RearmedFrom(active, rs[..n], id, from) {
        var k :| from <= k < n && rs[..n][k].Rearm? && rs[..n][k].id == id && Holds(active, id, rs[..n][k].generation);
        assert rs[k] == rs[..n][k];
      }
      if RearmedFrom(active, rs, id, from) && !RearmsNow(active, rs[n], id) {
        var k :| from <= k < |rs| && rs[k].Rearm? && rs[k].id == id && Holds(active, id, rs[k].generation);
        assert rs[..n][k] == rs[k];
      }
    }
  }

  // ---------- The two critical sections of Reconcile ----------

  /** Left as it is by the first section: active with the same specification, and not degraded. */
  predicate Fits(id: int, active: map<int, Slot>, degraded: set<int>, want: WatchSpec) {
    id in active && active[id].Is? && active[id].handle.spec == want && id !in degraded
  }

  /** The handles to create for the jobs in `done`. */
  ghost predicate IsCreation(done: set<int>, active: map<int, Slot>, degraded: set<int>, desired: map<int, WatchSpec>,
                             before: nat, create: map<int, Handle>, after: nat)
  {
    && before <= after
    && (forall id :: id in create <==> id in done && id in desired && !Fits(id, active, degraded, desired[id]))
    && (forall id | id in create :: create[id].spec == desired[id] && before < create[id].generation <= after)
    && (forall x, y | x in create && y in create && x != y :: create[x].generation != create[y].generation)
  }

  predicate InNext(id: int, active: map<int, Slot>, desired: map<int, WatchSpec>, invalid: set<int>) {
    id in desired || (id in active && id in invalid)
  }

  /** What the second section publishes for a job. */
  function NextSlot(id: int, active: map<int, Slot>, degraded: set<int>, desired: map<int, WatchSpec>,
                    invalid: set<int>, prepared: map<int, Handle>): Slot
    requires InNext(id, active, desired, invalid)
  {
    if id in active && id in invalid then active[id]
    else if id in prepared then Is(prepared[id])
    else if Fits(id, active, degraded, desired[id]) then active[id]
    else Nil
  }

  function NextActive(active: map<int, Slot>, degraded: set<int>, desired: map<int, WatchSpec>, invalid: set<int>,
                      prepared: map<int, Handle>): map<int, Slot>
  {
    map id | id in active.Keys + desired.Keys && InNext(id, active, desired, invalid) ::
      NextSlot(id, active, degraded, desired, invalid, prepared)
  }

  /** Publishing sets the errors of invalid jobs, and clears errors and degradation of the other desired ones. */
  function AfterPublish(h: Health, desired: set<int>, invalid: set<int>): Health {
    Health(h.degraded - (desired - invalid),
           (map id | id in h.errors.Keys + invalid :: if id in invalid then CannotWatch else h.errors[id]) - (desired - invalid))
  }

  /** What the loop over the active handles has settled for the jobs in `done`. */
  ghost predicate IsSifting(done: set<int>, active: map<int, Slot>, degraded: set<int>, desired: map<int, WatchSpec>,
                            invalid: set<int>, prepared: map<int, Handle>, next: map<int, Slot>, stopped: map<int, Slot>)
  {
    && (forall id :: id in stopped <==> id in done && Retires(id, active, desired, invalid, prepared))
    && (forall id | id in stopped :: stopped[id] == active[id])
    && (forall id | id in next :: id in done && InNext(id, active, desired, invalid)
                                  && next[id] == NextSlot(id, active, degraded, desired, invalid, prepared))
    && (forall id | id in done && InNext(id, active, desired, invalid) && id !in next ::
          NextSlot(id, active, degraded, desired, invalid, prepared) == Nil && id !in prepared && id in desired)
  }

  /** A job that has a nil handle is asked for no specification: it is kept, dropped or replaced. */
  predicate Sortable(id: int, active: map<int, Slot>, desired: map<int, WatchSpec>, invalid: set<int>,
                     prepared: map<int, Handle>) {
    id in active && active[id].Nil? && id in desired && id !in invalid ==> id in prepared
  }

  /** One active handle sifted. */
  lemma SiftingMore(id: int, done: set<int>, active: map<int, Slot>, degraded: set<int>, desired: map<int, WatchSpec>,
                    invalid: set<int>, prepared: map<int, Handle>, next: map<int, Slot>, stopped: map<int, Slot>,
                    next': map<int, Slot>, stopped': map<int, Slot>)
    requires IsSifting(done, active, degraded, desired, invalid, prepared, next, stopped)
    requires id in active && id !in done && Sortable(id, active, desired, invalid, prepared)
    requires stopped' == if Retires(id, active, desired, invalid, prepared) then stopped[id := active[id]] else stopped
    requires next' == if !InNext(id, active, desired, invalid) then next
                      else if id in invalid then next[id := active[id]]
                      else if id in prepared then next[id := Is(prepared[id])]
                      else if Fits(id, active, degraded, desired[id]) then next[id := active[id]]
                      else next
    ensures IsSifting(done + {id}, active, degraded, desired, invalid, prepared, next', stopped')
  {
  }

  /** Once all active handles are sifted, the desired jobs still missing get what was prepared for them, if anything. */
  lemma SiftedAndFilled(active: map<int, Slot>, degraded: set<int>, desired: map<int, WatchSpec>, invalid: set<int>,
                        prepared: map<int, Handle>, next: map<int, Slot>, stopped: map<int, Slot>,
                        filled: map<int, Slot>)
    requires IsSifting(active.Keys, active, degraded, desired, invalid, prepared, next, stopped)
    requires forall id :: id in filled <==> id in next || id in desired
    requires forall id | id in filled ::
               filled[id] == if id in next then next[id] else if id in prepared then Is(prepared[id]) else Nil
    ensures filled == NextActive(active, degraded, desired, invalid, prepared)
  {
    var all := NextActive(active, degraded, desired, invalid, prepared);
    forall id ensures id in filled <==> id in all {
    }
    forall id | id in filled ensures filled[id] == all[id] {
    }
  }

  /** The jobs whose former handle the second section stops. */
  predicate Retires(id: int, active: map<int, Slot>, desired: map<int, WatchSpec>, invalid: set<int>,
                    prepared: map<int, Handle>) {
    id in active && id !in invalid && (id !in desired || id in prepared)
  }

  function Retired(active: map<int, Slot>, desired: map<int, WatchSpec>, invalid: set<int>, prepared: map<int, Handle>,
                   done: set<int>): set<nat>
  {
    set id | id in active && id in done && active[id].Is? && Retires(id, active, desired, invalid, prepared) ::
      active[id].handle.generation
  }

  lemma CreationMore(id: int, done: set<int>, active: map<int, Slot>, degraded: set<int>, desired: map<int, WatchSpec>,
                     before: nat, create: map<int, Handle>, after: nat)
    requires IsCreation(done, active, degraded, desired, before, create, after) && id !in done && id in desired
    ensures IsCreation(done + {id}, active, degraded, desired, before,
                       if Fits(id, active, degraded, desired[id]) then create else create[id := Handle(after + 1, desired[id])],
                       if Fits(id, active, degraded, desired[id]) then after else after + 1)
  {
  }

  // ---------- Ownership ----------

  /** The handles that are open, by generation, with their jobs: exactly the published ones, and nothing else is published. */
  ghost predicate Owned(active: map<int, Slot>, open: map<nat, int>) {
    && (forall id | id in active :: active[id].Is? && active[id].handle.generation in open
                                    && open[active[id].handle.generation] == id)
    && (forall g | g in open :: Holds(active, open[g], g))
  }

  /** With the created handles of the jobs in `done` open besides. */
  ghost predicate OwnedWith(active: map<int, Slot>, create: map<int, Handle>, done: set<int>, open: map<nat, int>) {
    && (forall id | id in active :: active[id].Is? && active[id].handle.generation in open
                                    && open[active[id].handle.generation] == id)
    && (forall id | id in create && id in done :: create[id].generation in open && open[create[id].generation] == id)
    && (forall g | g in open :: Holds(active, open[g], g) || (open[g] in create && open[g] in done && create[open[g]].generation == g))
  }

  /** Left alone by the first section and found degraded by the second. */
  predicate FallsBetween(id: int, active: map<int, Slot>, degraded: set<int>, desired: map<int, WatchSpec>,
                         invalid: set<int>, create: map<int, Handle>)
  {
    id in desired && id in active && id !in invalid && id !in create && id in degraded
  }

  /** Created, and yet kept out by an invalid mention of the same job. */
  predicate Orphaned(id: int, active: map<int, Slot>, invalid: set<int>, create: map<int, Handle>) {
    id in create && id in active && id in invalid
  }

  /** The exact outcome: the jobs that get a nil handle fell between the sections, or are invalid and had one. */
  lemma NilExactly(active: map<int, Slot>, degraded: set<int>, desired: map<int, WatchSpec>, invalid: set<int>,
                   create: map<int, Handle>, sooner: set<int>, from: nat, to: nat, id: int)
    requires IsCreation(desired.Keys, active, sooner, desired, from, create, to)
    ensures var next := NextActive(active, degraded, desired, invalid, create);
            id in next && next[id].Nil? <==> FallsBetween(id, active, degraded, desired, invalid, create)
                                             || (id in active && active[id].Nil? && id in invalid)
  {
  }

  /** A published nil handle is among those to be stopped, and so dereferenced, exactly when its job is not invalid. */
  lemma NilRetires(active: map<int, Slot>, desired: map<int, WatchSpec>, invalid: set<int>, create: map<int, Handle>,
                   sooner: set<int>, from: nat, to: nat, id: int)
    requires IsCreation(desired.Keys, active, sooner, desired, from, create, to) && id in active && active[id].Nil?
    ensures Sortable(id, active, desired, invalid, create)
    ensures Retires(id, active, desired, invalid, create) <==> id !in invalid
  {
  }

  /**
   After publishing and stopping, the open handles are exactly the published ones, if and only if no
   job fell between the two sections and none was created in vain.
   */
  lemma PublishOwns(active: map<int, Slot>, degraded: set<int>, desired: map<int, WatchSpec>, invalid: set<int>,
                    create: map<int, Handle>, sooner: set<int>, from: nat, to: nat, open: map<nat, int>)
    requires IsCreation(desired.Keys, active, sooner, desired, from, create, to)
    requires OwnedWith(active, create, create.Keys, open)
    requires forall id | id in active && active[id].Is? :: active[id].handle.generation <= from
    ensures var next := NextActive(active, degraded, desired, invalid, create);
            var left := open - Retired(active, desired, invalid, create, active.Keys);
            Owned(next, left) <==>
            forall id :: !FallsBetween(id, active, degraded, desired, invalid, create) && !Orphaned(id, active, invalid, create)
  {
    var next := NextActive(active, degraded, desired, invalid, create);
    var gone := Retired(active, desired, invalid, create, active.Keys);
    var left := open - gone;
    if Owned(next, left) {
      forall id ensures !FallsBetween(id, active, degraded, desired, invalid, create) && !Orphaned(id, active, invalid, create) {
        NilExactly(active, degraded, desired, invalid, create, sooner, from, to, id);
        assert id in create ==> create[id].generation in left && left[create[id].generation] == id;
      }
    }
    if forall id :: !FallsBetween(id, active, degraded, desired, invalid, create) && !Orphaned(id, active, invalid, create) {
      NextIsOpen(active, degraded, desired, invalid, create, sooner, from, to, open);
      OpenIsNext(active, degraded, desired, invalid, create, sooner, from, to, open);
    }
  }

  lemma NextIsOpen(active: map<int, Slot>, degraded: set<int>, desired: map<int, WatchSpec>, invalid: set<int>,
                   create: map<int, Handle>, sooner: set<int>, from: nat, to: nat, open: map<nat, int>)
    requires IsCreation(desired.Keys, active, sooner, desired, from, create, to)
    requires OwnedWith(active, create, create.Keys, open)
    requires forall id | id in active && active[id].Is? :: active[id].handle.generation <= from
    requires forall id :: !FallsBetween(id, active, degraded, desired, invalid, create)
    ensures var next := NextActive(active, degraded, desired, invalid, create);
            var left := open - Retired(active, desired, invalid, create, active.Keys);
            forall id | id in next ::
              next[id].Is? && next[id].handle.generation in left && left[next[id].handle.generation] == id
  {
    var next := NextActive(active, degraded, desired, invalid, create);
    forall id | id in next
      ensures next[id].Is? && next[id].handle.generation !in Retired(active, desired, invalid, create, active.Keys)
    {
      assert id in active ==> active[id].Is?;
      NilExactly(active, degraded, desired, invalid, create, sooner, from, to, id);
      assert id in active && next[id] == active[id] ==> !Retires(id, active, desired, invalid, create);
      assert !(id in active && next[id] == active[id]) ==> id in create && next[id] == Is(create[id]);
    }
  }

  lemma OpenIsNext(active: map<int, Slot>, degraded: set<int>, desired: map<int, WatchSpec>, invalid: set<int>,
                   create: map<int, Handle>, sooner: set<int>, from: nat, to: nat, open: map<nat, int>)
    requires IsCreation(desired.Keys, active, sooner, desired, from, create, to)
    requires OwnedWith(active, create, create.Keys, open)
    requires forall id | id in active && active[id].Is? :: active[id].handle.generation <= from
    requires forall id :: !FallsBetween(id, active, degraded, desired, invalid, create) && !Orphaned(id, active, invalid, create)
    ensures var next := NextActive(active, degraded, desired, invalid, create);
            var left := open - Retired(active, desired, invalid, create, active.Keys);
            forall g | g in left :: Holds(next, left[g], g)
  {
    var next := NextActive(active, degraded, desired, invalid, create);
    var left := open - Retired(active, desired, invalid, create, active.Keys);
    forall g | g in left ensures Holds(next, left[g], g) {
      var id := left[g];
      if Holds(active, id, g) {
        assert !Retires(id, active, desired, invalid, create);
        assert !FallsBetween(id, active, degraded, desired, invalid, create);
      } else {
        assert !Orphaned(id, active, invalid, create);
      }
    }
  }

  /** The generations of the handles in some slots. */
  function Published(slots: map<int, Slot>): set<nat> { PublishedFor(slots, slots.Keys) }

  function PublishedFor(slots: map<int, Slot>, ids: set<int>): set<nat> {
    set id | id in slots && id in ids && slots[id].Is? :: slots[id].handle.generation
  }

  lemma StoppedAreRetired(active: map<int, Slot>, desired: map<int, WatchSpec>, invalid: set<int>,
                          prepared: map<int, Handle>, stopped: map<int, Slot>)
    requires forall id :: id in stopped <==> Retires(id, active, desired, invalid, prepared)
    requires forall id | id in stopped :: id in active && stopped[id] == active[id]
    ensures Published(stopped) == Retired(active, desired, invalid, prepared, active.Keys)
  {
  }

  lemma CreatedIsOpen(active: map<int, Slot>, create: map<int, Handle>, done: set<int>, open: map<nat, int>, id: int)
    requires OwnedWith(active, create, done, open) && id in create && id !in done && create[id].generation !in open
    requires forall x, y | x in create && y in create && x != y :: create[x].generation != create[y].generation
    ensures OwnedWith(active, create, done + {id}, open[create[id].generation := id])
  {
  }

  // ---------- Opening and stopping ----------

  /** Open now: what was open, and the created handles of the jobs in `done`. */
  ghost predicate Opens(before: map<nat, int>, create: map<int, Handle>, done: set<int>, now: map<nat, int>) {
    && (forall g | g in before :: g in now && now[g] == before[g])
    && (forall id | id in create && id in done :: create[id].generation in now && now[create[id].generation] == id)
    && (forall g | g in now && g !in before :: now[g] in create && now[g] in done && create[now[g]].generation == g)
  }

  /** Created handles that the host does not know, each with a generation of its own. */
  ghost predicate Unopened(create: map<int, Handle>, open: map<nat, int>) {
    && (forall id | id in create :: create[id].generation !in open)
    && (forall x, y | x in create && y in create && x != y :: create[x].generation != create[y].generation)
  }

  lemma OpensMore(before: map<nat, int>, create: map<int, Handle>, done: set<int>, now: map<nat, int>, id: int)
    requires Opens(before, create, done, now) && Unopened(create, before) && id in create && id !in done
    ensures Opens(before, create, done + {id}, now[create[id].generation := id])
  {
  }

  lemma StoppingRestores(before: map<nat, int>, create: map<int, Handle>, done: set<int>, now: map<nat, int>)
    requires Opens(before, create, done, now) && Unopened(create, before)
    ensures now - Generations(create, done) == before
  {
    var gone := Generations(create, done);
    forall g | g in now ensures g in gone <==> g !in before {
      if g !in before {
        var id := now[g];
        assert id in create && id in done && create[id].generation == g;
      }
    }
  }

  lemma OwnedThenOpens(active: map<int, Slot>, before: map<nat, int>, create: map<int, Handle>, now: map<nat, int>)
    requires Owned(active, before) && Opens(before, create, create.Keys, now)
    ensures OwnedWith(active, create, create.Keys, now)
  {
    forall g | g in now ensures Holds(active, now[g], g) || (now[g] in create && create[now[g]].generation == g) {
      assert g in before ==> Holds(active, before[g], g);
    }
  }

  /** Between what stopping all of some handles leaves open, and what was open. */
  ghost predicate PartlyStopped(before: map<nat, int>, gone: set<nat>, now: map<nat, int>) {
    && (forall g | g in now :: g in before && now[g] == before[g])
    && (forall g | g in before && g !in gone :: g in now)
  }

  function Generations(create: map<int, Handle>, ids: set<int>): set<nat> {
    set id | id in create && id in ids :: create[id].generation
  }

  lemma GenerationsMore(create: map<int, Handle>, ids: set<int>, id: int)
    requires id in create
    ensures Generations(create, ids + {id}) == Generations(create, ids) + {create[id].generation}
  {
  }

  lemma AllPublished(active: map<int, Slot>, open: map<nat, int>)
    requires Owned(active, open)
    ensures open - Published(active) == map[]
  {
    forall g | g in open ensures g in Published(active) {
      assert Holds(active, open[g], g);
    }
  }

  lemma PublishedMore(slots: map<int, Slot>, ids: set<int>, id: int)
    requires id in slots && slots[id].Is?
    ensures PublishedFor(slots, ids + {id}) == PublishedFor(slots, ids) + {slots[id].handle.generation}
  {
  }

  lemma PublishedWithin(slots: map<int, Slot>, ids: set<int>)
    ensures PublishedFor(slots, ids) <= Published(slots)
  {
  }

  lemma StaysNumbered(active: map<int, Slot>, degraded: set<int>, desired: map<int, WatchSpec>, invalid: set<int>,
                      create: map<int, Handle>, sooner: set<int>, from: nat, to: nat, before: map<nat, int>,
                      open: map<nat, int>)
    requires IsCreation(desired.Keys, active, sooner, desired, from, create, to)
    requires forall id | id in active && active[id].Is? :: active[id].handle.generation <= from
    requires Opens(before, create, create.Keys, open) && forall g | g in before :: g <= from
    ensures var next := NextActive(active, degraded, desired, invalid, create);
            forall id | id in next && next[id].Is? :: next[id].handle.generation <= to
    ensures forall g | g in open :: g <= to
  {
    forall g | g in open ensures g <= to {
      if g !in before {
        var id := open[g];
        assert id in create && create[id].generation == g;
      }
    }
  }

  lemma AllSortable(active: map<int, Slot>, desired: map<int, WatchSpec>, invalid: set<int>, create: map<int, Handle>,
                    sooner: set<int>, from: nat, to: nat)
    requires IsCreation(desired.Keys, active, sooner, desired, from, create, to)
    ensures forall id | id in active :: Sortable(id, active, desired, invalid, create)
    ensures forall id | id in active && active[id].Nil? :: Retires(id, active, desired, invalid, create) <==> id !in invalid
  {
    forall id | id in active && active[id].Nil?
      ensures Sortable(id, active, desired, invalid, create)
      ensures Retires(id, active, desired, invalid, create) <==> id !in invalid
    {
      NilRetires(active, desired, invalid, create, sooner, from, to, id);
    }
  }

  /** No job fell between the sections of a reconciliation, and none was created in vain. */
  ghost predicate NoneLost(jobs: seq<WatchJob>, looks: seq<Look>, between: seq<Report>, active: map<int, Slot>,
                           h: Health, create: map<int, Handle>)
    requires |jobs| == |looks|
  {
    var amid, invalid := ReactAll(active, h, between).degraded, InvalidWatches(jobs, looks);
    forall id :: !FallsBetween(id, active, amid, DesiredWatches(jobs, looks), invalid, create) && !Orphaned(id, active, invalid, create)
  }

  // ---------- When a job falls between the two sections ----------

  /** With jobs listed once each and no degrade of a published handle in between, nothing goes wrong. */
  lemma NothingFalls(jobs: seq<WatchJob>, looks: seq<Look>, active: map<int, Slot>, h: Health, between: seq<Report>,
                     from: nat, create: map<int, Handle>, to: nat, id: int)
    requires |jobs| == |looks| && DistinctIds(jobs)
    requires IsCreation(DesiredWatches(jobs, looks).Keys, active, h.degraded, DesiredWatches(jobs, looks), from, create, to)
    requires forall k | 0 <= k < |between| && between[k].Degrade? :: !Holds(active, between[k].id, between[k].generation)
    ensures !FallsBetween(id, active, ReactAll(active, h, between).degraded, DesiredWatches(jobs, looks), InvalidWatches(jobs, looks), create)
    ensures !Orphaned(id, active, InvalidWatches(jobs, looks), create)
  {
    MentionedOnce(jobs, looks, id);
    if id in ReactAll(active, h, between).degraded && id !in h.degraded {
      DegradedByReport(active, h, between, id);
    }
  }

  /**
   It does happen: a job is watched, the manager is asked to reconcile the same job again, and its
   handle is degraded between the two sections. A nil handle is published, nothing is stopped, and
   the job no longer counts as degraded.
   */
  lemma FallingHappens(spec: WatchSpec)
    ensures var desired, first := map[1 := spec], map[1 := Handle(1, spec)];
            var active := NextActive(map[], {}, desired, {}, first);
            var amid := ReactAll(active, Health({}, map[]), [Degrade(1, 1, Lost)]).degraded;
            && IsCreation(desired.Keys, map[], {}, desired, 0, first, 1)
            && IsCreation(desired.Keys, active, {}, desired, 1, map[], 1)
            && NextActive(active, amid, desired, {}, map[]) == map[1 := Nil]
            && Retired(active, desired, {}, map[], active.Keys) == {}
            && 1 !in amid - (desired.Keys - {})
  {
    var desired, first := map[1 := spec], map[1 := Handle(1, spec)];
    var active := NextActive(map[], {}, desired, {}, first);
    assert active == map[1 := Is(Handle(1, spec))];
    var report := Degrade(1, 1, Lost);
    var h := Health({}, map[]);
    assert [report][..0] == [] && ReactAll(active, h, []) == h;
    assert Holds(active, 1, 1);
    var amid := ReactAll(active, h, [report]).degraded;
    assert amid == {} + {1};
    assert NextActive(active, amid, desired, {}, map[]) == map[1 := Nil];
  }

  // ---------- What is watched, told by jobs and handles alone ----------

  /** Jobs that SyncBridge is to start on changes, and whose source can be watched. */
  predicate Watchable(w: WatchJob, look: Look) {
    && w.job.enabled && !w.job.needsReview && w.job.owner == SyncBridge && w.job.trigger == Trigger.Watch
    && TrimSpace(w.source) != "" && w.mode in {"", "event", "poll", "hybrid"} && look.Seen?
  }

  predicate Unwatchable(w: WatchJob, look: Look) {
    && w.job.enabled && !w.job.needsReview && w.job.owner == SyncBridge && w.job.trigger == Trigger.Watch
    && !(TrimSpace(w.source) != "" && w.mode in {"", "event", "poll", "hybrid"} && look.Seen?)
  }

  /** The handle is for the job's current revision, and watches what the job says in the way it says. */
  predicate WatchesFor(w: WatchJob, look: Look, spec: WatchSpec) {
    && spec.revision == w.job.revision && spec.source == TrimSpace(w.source) && spec.globs == SyncArgs.SplitCSV(w.globs)
    && look == Seen(spec.viewSource)
    && (spec.mode == Event <==> w.mode == "event") && (spec.mode == Poll <==> w.mode == "poll")
    && (w.debounce > 0 ==> spec.debounce == w.debounce) && (w.debounce <= 0 ==> spec.debounce == 10)
    && (w.poll > 0 ==> spec.poll == w.poll) && (w.poll <= 0 ==> spec.poll == 300)
  }

  predicate ListedOnce(jobs: seq<WatchJob>, k: nat)
    requires k < |jobs|
  {
    forall i | 0 <= i < |jobs| && i != k :: jobs[i].job.id != jobs[k].job.id
  }

  predicate WatchesSome(jobs: seq<WatchJob>, looks: seq<Look>, id: int, spec: WatchSpec)
    requires |jobs| == |looks|
  {
    exists k | 0 <= k < |jobs| ::
      jobs[k].job.id == id && Watchable(jobs[k], looks[k]) && WatchesFor(jobs[k], looks[k], spec)
  }

  predicate InvalidMention(jobs: seq<WatchJob>, looks: seq<Look>, id: int)
    requires |jobs| == |looks|
  {
    exists k | 0 <= k < |jobs| :: jobs[k].job.id == id && Unwatchable(jobs[k], looks[k])
  }

  /**
   Every watchable job, if listed once, is published, and its handle, if it has one, watches for it at its
   current revision; and whatever is published watches for such a job, or was there before and has an
   invalid mention now.
   */
  ghost predicate WatchesAll(jobs: seq<WatchJob>, looks: seq<Look>, before: map<int, Slot>, active: map<int, Slot>)
    requires |jobs| == |looks|
  {
    && (forall k | 0 <= k < |jobs| && ListedOnce(jobs, k) && Watchable(jobs[k], looks[k]) ::
          && jobs[k].job.id in active
          && (active[jobs[k].job.id].Is? ==> WatchesFor(jobs[k], looks[k], active[jobs[k].job.id].handle.spec)))
    && (forall id | id in active && active[id].Is? ::
          WatchesSome(jobs, looks, id, active[id].handle.spec)
          || (InvalidMention(jobs, looks, id) && id in before && before[id] == active[id]))
  }

  lemma {:induction false} DesiredWatchBy(jobs: seq<WatchJob>, looks: seq<Look>, id: int)
    requires |jobs| == |looks|
    ensures forall k | 0 <= k < |jobs| && jobs[k].job.id == id && Watches(jobs, looks, k) :: id in DesiredWatches(jobs, looks)
    ensures id in DesiredWatches(jobs, looks) ==>
              exists k | 0 <= k < |jobs| :: jobs[k].job.id == id && Watches(jobs, looks, k)
                                            && DesiredWatches(jobs, looks)[id] == SpecOf(jobs[k], looks[k]).spec
    decreases |jobs|
  {
    if jobs != [] {
      var n := |jobs| - 1;
      DesiredWatchBy(jobs[..n], looks[..n], id);
      forall k | 0 <= k < |jobs| && jobs[k].job.id == id && Watches(jobs, looks, k) ensures id in DesiredWatches(jobs, looks) {
        if k < n {
          assert jobs[..n][k] == jobs[k] && looks[..n][k] == looks[k] && Watches(jobs[..n], looks[..n], k);
        }
      }
      if id in DesiredWatches(jobs, looks) {
        if Watches(jobs, looks, n) && jobs[n].job.id == id {
          assert DesiredWatches(jobs, looks)[id] == SpecOf(jobs[n], looks[n]).spec;
        } else {
          var k :| 0 <= k < n && jobs[..n][k].job.id == id && Watches(jobs[..n], looks[..n], k)
                   && DesiredWatches(jobs[..n], looks[..n])[id] == SpecOf(jobs[..n][k], looks[..n][k]).spec;
          assert jobs[k].job.id == id && Watches(jobs, looks, k);
        }
      }
    }
  }

  lemma {:induction false} InvalidWatchBy(jobs: seq<WatchJob>, looks: seq<Look>, id: int)
    requires |jobs| == |looks|
    ensures id in InvalidWatches(jobs, looks) <==> InvalidMention(jobs, looks, id)
    decreases |jobs|
  {
    if jobs != [] {
      var n := |jobs| - 1;
      InvalidWatchBy(jobs[..n], looks[..n], id);
      if InvalidMention(jobs[..n], looks[..n], id) {
        var k :| 0 <= k < n && jobs[..n][k].job.id == id && Unwatchable(jobs[..n][k], looks[..n][k]);
        assert jobs[k].job.id == id && Unwatchable(jobs[k], looks[k]);
      }
      if InvalidMention(jobs, looks, id) {
        var k :| 0 <= k < |jobs| && jobs[k].job.id == id && Unwatchable(jobs[k], looks[k]);
        if k < n {
          assert jobs[..n][k].job.id == id && Unwatchable(jobs[..n][k], looks[..n][k]);
        }
      }
    }
  }

  lemma SpecWatches(w: WatchJob, look: Look)
    ensures Watchable(w, look) <==> Eligible(w.job, Watch) && SpecOf(w, look).Good?
    ensures Watchable(w, look) ==> WatchesFor(w, look, SpecOf(w, look).spec)
  {
  }

  lemma NextWatches(jobs: seq<WatchJob>, looks: seq<Look>, active: map<int, Slot>, degraded: set<int>, sooner: set<int>,
                    create: map<int, Handle>, from: nat, to: nat)
    requires |jobs| == |looks|
    requires var desired := DesiredWatches(jobs, looks); IsCreation(desired.Keys, active, sooner, desired, from, create, to)
    ensures WatchesAll(jobs, looks, active, NextActive(active, degraded, DesiredWatches(jobs, looks),
                                                       InvalidWatches(jobs, looks), create))
  {
    var desired, invalid := DesiredWatches(jobs, looks), InvalidWatches(jobs, looks);
    var next := NextActive(active, degraded, desired, invalid, create);
    forall k | 0 <= k < |jobs| && ListedOnce(jobs, k) && Watchable(jobs[k], looks[k])
      ensures jobs[k].job.id in next
      ensures next[jobs[k].job.id].Is? ==> WatchesFor(jobs[k], looks[k], next[jobs[k].job.id].handle.spec)
    {
      OnceIsDesired(jobs, looks, k);
    }
    forall id | id in next && next[id].Is?
      ensures WatchesSome(jobs, looks, id, next[id].handle.spec)
              || (InvalidMention(jobs, looks, id) && id in active && active[id] == next[id])
    {
      InvalidWatchBy(jobs, looks, id);
      if !(id in active && id in invalid) {
        DesiredIsWatchable(jobs, looks, id);
      }
    }
  }

  lemma DesiredIsWatchable(jobs: seq<WatchJob>, looks: seq<Look>, id: int)
    requires |jobs| == |looks| && id in DesiredWatches(jobs, looks)
    ensures WatchesSome(jobs, looks, id, DesiredWatches(jobs, looks)[id])
  {
    DesiredWatchBy(jobs, looks, id);
    var k :| 0 <= k < |jobs| && jobs[k].job.id == id && Watches(jobs, looks, k)
             && DesiredWatches(jobs, looks)[id] == SpecOf(jobs[k], looks[k]).spec;
    SpecWatches(jobs[k], looks[k]);
    assert WatchesFor(jobs[k], looks[k], DesiredWatches(jobs, looks)[id]);
  }

  lemma OnceIsDesired(jobs: seq<WatchJob>, looks: seq<Look>, k: nat)
    requires |jobs| == |looks| && k < |jobs| && ListedOnce(jobs, k) && Watchable(jobs[k], looks[k])
    ensures var id := jobs[k].job.id;
            && id in DesiredWatches(jobs, looks) && id !in InvalidWatches(jobs, looks)
            && WatchesFor(jobs[k], looks[k], DesiredWatches(jobs, looks)[id])
  {
    var id := jobs[k].job.id;
    SpecWatches(jobs[k], looks[k]);
    assert Watches(jobs, looks, k);
    DesiredWatchBy(jobs, looks, id);
    InvalidWatchBy(jobs, looks, id);
    var i :| 0 <= i < |jobs| && jobs[i].job.id == id && Watches(jobs, looks, i) && DesiredWatches(jobs, looks)[id] == SpecOf(jobs[i], looks[i]).spec;
  }
}
