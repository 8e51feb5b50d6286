/**
 The job store as its file holds it: reading a file into jobs, writing jobs to a file, and the
 one shared store that any number of repositories on the file amount to.
 */
module JobStore {
  import opened AtomicFile
  import opened Options
  import AnyOrder
  import CronPlans
  import SyncArgs

  // ---------- Jobs and files ----------

  datatype Action = Sync(sync: SyncArgs.SyncAction) | Command(command: string)

  datatype Body = Body(name: string, enabled: bool, needsReview: bool, action: Action, scheduler: CronPlans.Owner)

  datatype Job = Job(schemaVersion: int, id: int, revision: nat, body: Body)

  /** A job as the first version of the file had it. */
  datatype LegacyJob = LegacyJob(id: int, name: string, disabled: bool, kind: string, backend: string,
                                 sync: SyncArgs.SyncAction, command: string)

  /** What a file's text decodes to. */
  datatype Content =
    | Garbage
    | Legacy(legacyNext: int, legacyJobs: seq<LegacyJob>)
    | Versioned(schemaVersion: int, next: int, jobs: seq<Job>)

  datatype Store = Store(next: int, jobs: map<int, Job>)

  datatype Loaded = Corrupt | Good(store: Store)

  // ---------- Loading ----------

  /** The jobs taken in one by one, as the list gives them. */
  function Absorb(next: int, jobs: seq<Job>): Loaded {
    if jobs == [] then Good(Store(next, map[]))
    else
      var job, rest := jobs[|jobs| - 1], Absorb(next, jobs[..|jobs| - 1]);
      if rest.Corrupt? || job.id < 1 || job.schemaVersion != 2 || job.id in rest.store.jobs then Corrupt
      else Good(Store(if job.id >= rest.store.next then job.id + 1 else rest.store.next, rest.store.jobs[job.id := job]))
  }

  function Replacement(next: int, jobs: seq<Job>): Loaded {
    if next < 1 then Corrupt else Absorb(next, jobs)
  }

  /** A migrated job starts at revision one and waits for an operator's review. */
  function Migrated(j: LegacyJob): Job {
    Job(2, j.id, 1, Body(j.name, !j.disabled, true, if j.kind == "command" then Command(j.command) else Sync(j.sync),
                         if j.backend == "system" then CronPlans.System else CronPlans.SyncBridge))
  }

  function MigratedAll(jobs: seq<LegacyJob>): seq<Job> {
    seq(|jobs|, k requires 0 <= k < |jobs| => Migrated(jobs[k]))
  }

  /** The store that a file amounts to; no file is an empty store. */
  function Load(file: Option<File<Content>>): Loaded {
    match file
    case None => Good(Store(1, map[]))
    case Some(File(Garbage, _, _)) => Corrupt
    case Some(File(Legacy(next, jobs), _, _)) => if next < 1 then Corrupt else Replacement(next, MigratedAll(jobs))
    case Some(File(Versioned(version, next, jobs), _, _)) => if version != 2 then Corrupt else Replacement(next, jobs)
  }

  predicate ValidStore(s: Store) {
    && s.next >= 1
    && (forall id | id in s.jobs :: 1 <= id < s.next && s.jobs[id].id == id && s.jobs[id].schemaVersion == 2)
  }

  /** A list with a bad beginning is bad. */
  lemma {:induction false} AbsorbStuck(next: int, jobs: seq<Job>, k: nat)
    requires k <= |jobs| && Absorb(next, jobs[..k]).Corrupt?
    ensures Absorb(next, jobs).Corrupt?
    decreases |jobs|
  {
    if k < |jobs| {
      assert jobs[..|jobs| - 1][..k] == jobs[..k];
      AbsorbStuck(next, jobs[..|jobs| - 1], k);
    } else {
      assert jobs[..k] == jobs;
    }
  }

  lemma {:induction false} AbsorbValid(next: int, jobs: seq<Job>)
    requires next >= 1 && Absorb(next, jobs).Good?
    ensures ValidStore(Absorb(next, jobs).store) && Absorb(next, jobs).store.next >= next
    decreases |jobs|
  {
    if jobs != [] {
      AbsorbValid(next, jobs[..|jobs| - 1]);
    }
  }

  /** Whatever loads is a valid store: ids are positive, distinct and below `next`. */
  lemma LoadValid(file: Option<File<Content>>)
    requires Load(file).Good?
    ensures ValidStore(Load(file).store)
  {
    match file {
      case None =>
      case Some(File(Garbage, _, _)) =>
      case Some(File(Legacy(next, jobs), _, _)) => AbsorbValid(next, MigratedAll(jobs));
      case Some(File(Versioned(version, next, jobs), _, _)) => AbsorbValid(next, jobs);
    }
  }

  // ---------- What a file must be to load, and what it loads to ----------

  /** Jobs that a file may list together. */
  predicate Listable(jobs: seq<Job>) {
    && (forall k | 0 <= k < |jobs| :: jobs[k].id >= 1 && jobs[k].schemaVersion == 2)
    && (forall i, k | 0 <= i < k < |jobs| :: jobs[i].id != jobs[k].id)
  }

  predicate InList(jobs: seq<Job>, id: int) { exists k | 0 <= k < |jobs| :: jobs[k].id == id }

  /** The store holds exactly the jobs listed, and its next id is the least that is above all and not below the file's. */
  ghost predicate Holds(s: Store, next: int, jobs: seq<Job>) {
    && (forall id :: id in s.jobs <==> InList(jobs, id))
    && (forall k | 0 <= k < |jobs| :: jobs[k].id in s.jobs && s.jobs[jobs[k].id] == jobs[k])
    && s.next >= next && (forall id | id in s.jobs :: id < s.next)
    && (s.next == next || s.next - 1 in s.jobs)
  }

  lemma ListableLast(jobs: seq<Job>)
    requires jobs != []
    ensures var last, init := jobs[|jobs| - 1], jobs[..|jobs| - 1];
            Listable(jobs) <==> Listable(init) && last.id >= 1 && last.schemaVersion == 2 && !InList(init, last.id)
  {
    var n := |jobs| - 1;
    if Listable(jobs[..n]) && jobs[n].id >= 1 && jobs[n].schemaVersion == 2 && !InList(jobs[..n], jobs[n].id) {
      forall i, k | 0 <= i < k < |jobs| ensures jobs[i].id != jobs[k].id {
        assert jobs[..n][i] == jobs[i];
        if k < n {
          assert jobs[..n][k] == jobs[k];
        }
      }
      forall k | 0 <= k < |jobs| ensures jobs[k].id >= 1 && jobs[k].schemaVersion == 2 {
        if k < n {
          assert jobs[..n][k] == jobs[k];
        }
      }
    }
  }

  lemma InListLast(jobs: seq<Job>, id: int)
    requires jobs != []
    ensures InList(jobs, id) <==> InList(jobs[..|jobs| - 1], id) || jobs[|jobs| - 1].id == id
  {
    var n := |jobs| - 1;
    if InList(jobs[..n], id) {
      var k :| 0 <= k < n && jobs[..n][k].id == id;
      assert jobs[k].id == id;
    }
    if InList(jobs, id) && jobs[n].id != id {
      var k :| 0 <= k < |jobs| && jobs[k].id == id;
      assert jobs[..n][k].id == id;
    }
  }

  lemma {:induction false} AbsorbsExactly(next: int, jobs: seq<Job>)
    ensures Absorb(next, jobs).Good? <==> Listable(jobs)
    ensures Listable(jobs) ==> Holds(Absorb(next, jobs).store, next, jobs)
    decreases |jobs|
  {
    if jobs != [] {
      var last, init := jobs[|jobs| - 1], jobs[..|jobs| - 1];
      AbsorbsExactly(next, init);
      ListableLast(jobs);
      forall id ensures InList(jobs, id) <==> InList(init, id) || last.id == id {
        InListLast(jobs, id);
      }
    }
  }

  /** A file of the current version loads exactly if its jobs can stand together, and then to just these jobs. */
  lemma LoadsExactly(version: int, next: int, jobs: seq<Job>, mode: int, owner: Owner)
    ensures var loaded := Load(Some(File(Versioned(version, next, jobs), mode, owner)));
            && (loaded.Good? <==> version == 2 && next >= 1 && Listable(jobs))
            && (loaded.Good? ==> Holds(loaded.store, next, jobs))
  {
    AbsorbsExactly(next, jobs);
  }

  /** What is kept of a job of the first version: it waits for a review, at revision one, and is otherwise as it was. */
  predicate Keeps(legacy: LegacyJob, job: Job) {
    && job.id == legacy.id && job.revision == 1 && job.schemaVersion == 2
    && job.body.name == legacy.name && job.body.enabled == !legacy.disabled && job.body.needsReview
    && (legacy.kind == "command" <==> job.body.action.Command?)
    && (job.body.action.Command? ==> job.body.action.command == legacy.command)
    && (job.body.action.Sync? ==> job.body.action.sync == legacy.sync)
    && (job.body.scheduler == CronPlans.System <==> legacy.backend == "system")
  }

  /** A file of the first version loads exactly if its ids are positive and distinct, and keeps every job. */
  lemma MigratesExactly(next: int, jobs: seq<LegacyJob>, mode: int, owner: Owner)
    ensures var loaded := Load(Some(File(Legacy(next, jobs), mode, owner)));
            && (loaded.Good? <==> && next >= 1 && (forall k | 0 <= k < |jobs| :: jobs[k].id >= 1)
                                  && (forall i, k | 0 <= i < k < |jobs| :: jobs[i].id != jobs[k].id))
            && (loaded.Good? ==>
                  && (forall k | 0 <= k < |jobs| ::
                        jobs[k].id in loaded.store.jobs && Keeps(jobs[k], loaded.store.jobs[jobs[k].id]))
                  && (forall id | id in loaded.store.jobs :: exists k | 0 <= k < |jobs| :: jobs[k].id == id))
  {
    var all := MigratedAll(jobs);
    AbsorbsExactly(next, all);
    if Load(Some(File(Legacy(next, jobs), mode, owner))).Good? {
      forall i, k | 0 <= i < k < |jobs| ensures jobs[i].id != jobs[k].id {
        assert all[i].id != all[k].id;
      }
      forall k | 0 <= k < |jobs|
        ensures var store := Load(Some(File(Legacy(next, jobs), mode, owner))).store;
                jobs[k].id >= 1 && jobs[k].id in store.jobs && Keeps(jobs[k], store.jobs[jobs[k].id])
      {
        assert all[k] == Migrated(jobs[k]);
      }
      forall id | InList(all, id) ensures exists k | 0 <= k < |jobs| :: jobs[k].id == id {
        var k :| 0 <= k < |all| && all[k].id == id;
        assert jobs[k].id == id;
      }
    }
  }

  // ---------- Persisting ----------

  ghost predicate IsLeast(ids: set<int>, id: int) { id in ids && forall other | other in ids :: id <= other }

  lemma LeastExists(ids: set<int>)
    requires ids != {}
    ensures exists id :: IsLeast(ids, id)
  {
    var id := AnyOrder.LeastOf(ids, (a: int, b: int) => a <= b);
    assert IsLeast(ids, id);
  }

  ghost function Member<T>(s: set<T>): T
    requires s != {}
  {
    var x :| x in s;
    x
  }

  /** The jobs in the order of their ids: the one list that sorting them can give. */
  ghost function Listing(jobs: map<int, Job>): seq<Job>
    decreases |jobs.Keys|
  {
    if jobs == map[] then []
    else
      LeastExists(jobs.Keys);
      var id :| IsLeast(jobs.Keys, id);
      assert (jobs - {id}).Keys == jobs.Keys - {id};
      [jobs[id]] + Listing(jobs - {id})
  }

  ghost function Persisted(s: Store): Content { Versioned(2, s.next, Listing(s.jobs)) }

  lemma ListingFirst(jobs: map<int, Job>, id: int)
    requires IsLeast(jobs.Keys, id)
    ensures Listing(jobs) == [jobs[id]] + Listing(jobs - {id})
  {
  }

  /** Every job of the store once, in the order of ids. */
  ghost predicate Lists(jobs: map<int, Job>, list: seq<Job>) {
    && (forall k | 0 <= k < |list| :: list[k].id in jobs && jobs[list[k].id] == list[k])
    && (forall id | id in jobs :: exists k :: 0 <= k < |list| && list[k].id == id)
    && (forall i, k | 0 <= i < k < |list| :: list[i].id < list[k].id)
  }

  lemma {:induction false} ListingLists(jobs: map<int, Job>)
    requires forall id | id in jobs :: jobs[id].id == id
    ensures Lists(jobs, Listing(jobs))
    decreases |jobs.Keys|
  {
    if jobs != map[] {
      LeastExists(jobs.Keys);
      var id :| IsLeast(jobs.Keys, id) && Listing(jobs) == [jobs[id]] + Listing(jobs - {id});
      assert (jobs - {id}).Keys == jobs.Keys - {id};
      ListingLists(jobs - {id});
      ListsFirst(jobs, id, Listing(jobs - {id}));
    }
  }

  lemma ListsFirst(jobs: map<int, Job>, id: int, rest: seq<Job>)
    requires IsLeast(jobs.Keys, id) && jobs[id].id == id && Lists(jobs - {id}, rest)
    ensures Lists(jobs, [jobs[id]] + rest)
  {
    var list := [jobs[id]] + rest;
    forall k | 0 <= k < |list| ensures list[k].id in jobs && jobs[list[k].id] == list[k] && (k > 0 ==> id < list[k].id) {
      FirstThen(jobs, id, rest, k);
    }
    forall x | x in jobs ensures exists k :: 0 <= k < |list| && list[k].id == x {
      FoundInRest(jobs, id, rest, x);
    }
    forall i, k | 0 <= i < k < |list| ensures list[i].id < list[k].id {
      assert list[k] == rest[k - 1] && (i > 0 ==> list[i] == rest[i - 1]);
    }
  }

  lemma FirstThen(jobs: map<int, Job>, id: int, rest: seq<Job>, k: nat)
    requires IsLeast(jobs.Keys, id) && jobs[id].id == id && Lists(jobs - {id}, rest) && k <= |rest|
    ensures var j := ([jobs[id]] + rest)[k]; j.id in jobs && jobs[j.id] == j && (k > 0 ==> id < j.id)
  {
    if k > 0 {
      assert rest[k - 1].id in jobs - {id};
    }
  }

  lemma FoundInRest(jobs: map<int, Job>, id: int, rest: seq<Job>, x: int)
    requires id in jobs && jobs[id].id == id && Lists(jobs - {id}, rest) && x in jobs
    ensures exists k :: 0 <= k < |[jobs[id]] + rest| && ([jobs[id]] + rest)[k].id == x
  {
    var list := [jobs[id]] + rest;
    if x == id {
      assert list[0].id == x;
    } else {
      assert x in jobs - {id};
      var k :| 0 <= k < |rest| && rest[k].id == x;
      assert list[k + 1].id == x;
    }
  }

  /** Taking in a list of distinct valid jobs gives exactly those jobs. */
  lemma {:induction false} AbsorbLists(next: int, jobs: map<int, Job>, list: seq<Job>)
    requires Lists(jobs, list) && forall id | id in jobs :: 1 <= id < next && jobs[id].schemaVersion == 2
    ensures Absorb(next, list) == Good(Store(next, jobs))
    decreases |list|
  {
    if list == [] {
      if jobs != map[] {
        var id := Member(jobs.Keys);
      }
    } else {
      var k := |list| - 1;
      var id := list[k].id;
      ListsLast(jobs, list);
      AbsorbLists(next, jobs - {id}, list[..k]);
      assert (jobs - {id})[id := jobs[id]] == jobs;
    }
  }

  lemma ListsLast(jobs: map<int, Job>, list: seq<Job>)
    requires Lists(jobs, list) && list != []
    ensures Lists(jobs - {list[|list| - 1].id}, list[..|list| - 1])
  {
    var k := |list| - 1;
    var rest, left := list[..k], jobs - {list[k].id};
    forall i | 0 <= i < |rest| ensures rest[i].id in left && left[rest[i].id] == rest[i] {
      assert list[i].id < list[k].id;
    }
    forall id | id in left ensures exists i :: 0 <= i < |rest| && rest[i].id == id {
      var i :| 0 <= i < |list| && list[i].id == id;
      assert rest[i].id == id;
    }
  }

  /** Loading gives back what was persisted, for every valid store. */
  lemma LoadPersisted(s: Store, mode: int, owner: Owner)
    requires ValidStore(s)
    ensures Load(Some(File(Persisted(s), mode, owner))) == Good(s)
  {
    ListingLists(s.jobs);
    AbsorbLists(s.next, s.jobs, Listing(s.jobs));
  }

  // ---------- The one store ----------

  datatype Op =
    | Create(body: Body)
    | Update(id: int, revision: nat, body: Body)
    | Delete(id: int, revision: nat)

  datatype Reply = Done(job: Job) | Deleted | NotFound | Conflict | Unusable | NotWritten

  function Created(s: Store, body: Body): Job { Job(2, s.next, 1, body) }

  predicate Found(s: Store, op: Op) { op.Create? || (op.id in s.jobs && s.jobs[op.id].revision == op.revision) }

  /** What an operation that goes through makes of the store. */
  function Effect(s: Store, op: Op): Store
    requires Found(s, op)
  {
    match op
    case Create(body) => Store(s.next + 1, s.jobs[s.next := Created(s, body)])
    case Update(id, revision, body) => s.(jobs := s.jobs[id := Job(2, id, revision + 1, body)])
    case Delete(id, _) => s.(jobs := s.jobs - {id})
  }

  function Success(s: Store, op: Op): Reply
    requires Found(s, op)
  {
    match op
    case Create(body) => Done(Created(s, body))
    case Update(id, revision, body) => Done(Job(2, id, revision + 1, body))
    case Delete(_, _) => Deleted
  }

  // ---------- What operations do to the store, told by the stores alone ----------

  /** The two stores have the same jobs but for one id. */
  ghost predicate SameElsewhere(s: Store, s': Store, id: int) {
    forall other | other != id ::
      (other in s'.jobs <==> other in s.jobs) && (other in s.jobs && other in s'.jobs ==> s'.jobs[other] == s.jobs[other])
  }

  predicate HasJob(s: Store, id: int, revision: nat, body: Body) {
    id in s.jobs && s.jobs[id] == Job(2, id, revision, body)
  }

  /** The submitted body is stored under a new id, and nothing else changes. */
  ghost predicate Adds(s: Store, s': Store, body: Body) {
    s.next !in s.jobs && s'.next == s.next + 1 && HasJob(s', s.next, 1, body) && SameElsewhere(s, s', s.next)
  }

  /** The submitted body replaces that of the revision it was made for, and nothing else changes. */
  ghost predicate Revises(s: Store, s': Store, id: int, revision: nat, body: Body) {
    && id in s.jobs && s.jobs[id].revision == revision
    && s'.next == s.next && HasJob(s', id, revision + 1, body) && SameElsewhere(s, s', id)
  }

  /** The job goes at the revision given, and nothing else changes. */
  ghost predicate Removes(s: Store, s': Store, id: int, revision: nat) {
    && id in s.jobs && s.jobs[id].revision == revision
    && s'.next == s.next && id !in s'.jobs && SameElsewhere(s, s', id)
  }

  ghost predicate Does(s: Store, s': Store, op: Op) {
    match op
    case Create(body) => Adds(s, s', body)
    case Update(id, revision, body) => Revises(s, s', id, revision, body)
    case Delete(id, revision) => Removes(s, s', id, revision)
  }

  lemma EffectDoes(s: Store, op: Op)
    requires ValidStore(s) && Found(s, op)
    ensures Does(s, Effect(s, op), op)
    ensures match Success(s, op)
            case Done(job) => !op.Delete? && job.id in Effect(s, op).jobs && Effect(s, op).jobs[job.id] == job
                              && job.body == op.body && job.id == (if op.Create? then s.next else op.id)
            case Deleted => op.Delete?
            case _ => false
  {
  }

  // ---------- One operation, whatever fails ----------

  /** What fails during one operation: reading, the two writes of a migration, and the operation's own write. */
  datatype Faults = Faults(unreadable: bool, backup: Fault, migration: Fault, write: Fault)

  predicate CanLoad(file: Option<File<Content>>, f: Faults) {
    file.None? || (!f.unreadable && Load(file).Good? && (file.value.data.Legacy? ==> f.backup == NoFault && f.migration == NoFault))
  }

  function Answer(file: Option<File<Content>>, op: Op, f: Faults): Reply {
    if !CanLoad(file, f) then Unusable
    else
      var s := Load(file).store;
      if !Found(s, op) then (if op.id in s.jobs then Conflict else NotFound)
      else if f.write == NoFault then Success(s, op)
      else NotWritten
  }

  function After(file: Option<File<Content>>, op: Op, f: Faults): Loaded {
    if CanLoad(file, f) && Found(Load(file).store, op) && Replaces(f.write) then Good(Effect(Load(file).store, op)) else Load(file)
  }

  lemma AnswersArePermitted(file: Option<File<Content>>, op: Op, f: Faults)
    ensures Permitted(Load(file), op, After(file, op, f), Answer(file, op, f))
  {
  }

  lemma EffectValid(s: Store, op: Op)
    requires ValidStore(s) && Found(s, op)
    ensures ValidStore(Effect(s, op)) && Effect(s, op).next >= s.next
  {
  }

  /**
   What one operation of any repository may do to the shared store, and reply: a refusal or a
   failed reading changes nothing; a failed writing may have taken effect all the same.
   */
  predicate Permitted(before: Loaded, op: Op, after: Loaded, reply: Reply) {
    match reply
    case Unusable => after == before
    case NotFound => before.Good? && !op.Create? && op.id !in before.store.jobs && after == before
    case Conflict =>
      before.Good? && !op.Create? && op.id in before.store.jobs && before.store.jobs[op.id].revision != op.revision && after == before
    case NotWritten => before.Good? && Found(before.store, op) && (after == before || after == Good(Effect(before.store, op)))
    case _ => before.Good? && Found(before.store, op) && after == Good(Effect(before.store, op)) && reply == Success(before.store, op)
  }

  /**
   What one operation does, told by the stores: a success is what was asked for and is what is returned;
   a failure changes nothing, except that one while writing may have done what was asked for all the same.
   */
  ghost predicate Outcome(before: Loaded, op: Op, after: Loaded, reply: Reply) {
    match reply
    case Done(job) =>
      && !op.Delete? && before.Good? && after.Good? && Does(before.store, after.store, op)
      && job.id in after.store.jobs && after.store.jobs[job.id] == job && job.body == op.body
      && job.id == (if op.Create? then before.store.next else op.id)
    case Deleted => op.Delete? && before.Good? && after.Good? && Does(before.store, after.store, op)
    case NotFound => !op.Create? && before.Good? && after == before && op.id !in before.store.jobs
    case Conflict =>
      && !op.Create? && before.Good? && after == before
      && op.id in before.store.jobs && before.store.jobs[op.id].revision != op.revision
    case Unusable => after == before
    case NotWritten => after == before || (before.Good? && after.Good? && Does(before.store, after.store, op))
  }

  lemma OutcomeOf(file: Option<File<Content>>, op: Op, f: Faults)
    ensures Outcome(Load(file), op, After(file, op, f), Answer(file, op, f))
    ensures Answer(file, op, f).Unusable? <==> !CanLoad(file, f)
    ensures CanLoad(file, f) && f.write == NoFault ==> !Answer(file, op, f).NotWritten?
  {
    if Load(file).Good? {
      LoadValid(file);
      if Found(Load(file).store, op) {
        EffectDoes(Load(file).store, op);
      }
    }
  }

  datatype Attempt = Attempt(op: Op, reply: Reply)

  /** Operations of any number of repositories on one file, one after the other under its lock. */
  ghost predicate History(states: seq<Loaded>, attempts: seq<Attempt>) {
    && |states| == |attempts| + 1
    && (states[0].Good? ==> ValidStore(states[0].store))
    && (forall k | 0 <= k < |attempts| :: Permitted(states[k], attempts[k].op, states[k + 1], attempts[k].reply))
  }

  /** An attempt that changed the store, whatever it replied. */
  predicate Effective(states: seq<Loaded>, k: nat) { k + 1 < |states| && states[k] != states[k + 1] }

  lemma {:induction false} AlwaysValid(states: seq<Loaded>, attempts: seq<Attempt>, k: nat)
    requires History(states, attempts) && k < |states| && states[k].Good?
    ensures ValidStore(states[k].store)
    decreases k
  {
    if k > 0 {
      assert Permitted(states[k - 1], attempts[k - 1].op, states[k], attempts[k - 1].reply);
      AlwaysValid(states, attempts, k - 1);
      if Effective(states, k - 1) {
        EffectValid(states[k - 1].store, attempts[k - 1].op);
      }
    }
  }

  /** This revision of the job is over: no such job will be seen again. */
  predicate Past(s: Loaded, id: int, revision: nat) {
    s.Good? && id < s.store.next && (id in s.store.jobs ==> s.store.jobs[id].revision > revision)
  }

  lemma PastStays(before: Loaded, op: Op, after: Loaded, reply: Reply, id: int, revision: nat)
    requires Permitted(before, op, after, reply) && Past(before, id, revision)
    ensures Past(after, id, revision)
  {
  }

  lemma {:induction false} PastForGood(states: seq<Loaded>, attempts: seq<Attempt>, i: nat, k: nat, id: int,
                                       revision: nat)
    requires History(states, attempts) && i <= k < |states| && Past(states[i], id, revision)
    ensures Past(states[k], id, revision)
    decreases k
  {
    if i < k {
      PastForGood(states, attempts, i, k - 1, id, revision);
      PastStays(states[k - 1], attempts[k - 1].op, states[k], attempts[k - 1].reply, id, revision);
    }
  }

  /** Each revision of each job admits at most one effective update or delete. */
  lemma OneWinner(states: seq<Loaded>, attempts: seq<Attempt>, i: nat, k: nat)
    requires History(states, attempts) && i < k && Effective(states, i) && Effective(states, k)
    requires !attempts[i].op.Create? && !attempts[k].op.Create? && attempts[i].op.id == attempts[k].op.id
    ensures attempts[i].op.revision != attempts[k].op.revision
  {
    var op := attempts[i].op;
    AlwaysValid(states, attempts, i);
    assert Permitted(states[i], op, states[i + 1], attempts[i].reply);
    assert Past(states[i + 1], op.id, op.revision);
    PastForGood(states, attempts, i + 1, k, op.id, op.revision);
    assert Permitted(states[k], attempts[k].op, states[k + 1], attempts[k].reply);
  }

  lemma {:induction false} NextGrows(states: seq<Loaded>, attempts: seq<Attempt>, i: nat, k: nat)
    requires History(states, attempts) && i <= k < |states| && states[i].Good?
    ensures states[k].Good? && states[k].store.next >= states[i].store.next
    decreases k
  {
    if i < k {
      NextGrows(states, attempts, i, k - 1);
      assert Permitted(states[k - 1], attempts[k - 1].op, states[k], attempts[k - 1].reply);
    }
  }

  /** Ids of jobs created strictly increase, also over jobs deleted since, so that none is ever reused. */
  lemma IdsIncrease(states: seq<Loaded>, attempts: seq<Attempt>, i: nat, k: nat)
    requires History(states, attempts) && i < k && Effective(states, i) && Effective(states, k)
    requires attempts[i].op.Create? && attempts[k].op.Create?
    ensures states[i].store.next < states[k].store.next
    ensures attempts[i].reply.Done? ==> attempts[i].reply.job.id == states[i].store.next
    ensures attempts[k].reply.Done? ==> attempts[k].reply.job.id == states[k].store.next
  {
    assert Permitted(states[i], attempts[i].op, states[i + 1], attempts[i].reply);
    NextGrows(states, attempts, i + 1, k);
    assert Permitted(states[k], attempts[k].op, states[k + 1], attempts[k].reply);
  }

  // ---------- What becomes of submitted jobs ----------

  /** The last that a history says of a job by its operations: its body and how often it was revised. */
  datatype Standing = Absent | Present(body: Body, revision: nat)

  function StandingOf(states: seq<Loaded>, attempts: seq<Attempt>, k: nat, id: int): Standing
    requires k < |states| <= |attempts| + 1 && forall i | 0 <= i <= k :: states[i].Good?
  {
    if k == 0 then
      if id in states[0].store.jobs then Present(states[0].store.jobs[id].body, states[0].store.jobs[id].revision) else Absent
    else
      var before := StandingOf(states, attempts, k - 1, id);
      if !Effective(states, k - 1) then before
      else
        match attempts[k - 1].op
        case Create(body) => if states[k - 1].store.next == id then Present(body, 1) else before
        case Update(target, _, body) =>
          if target == id && before.Present? then Present(body, before.revision + 1) else before
        case Delete(target, _) => if target == id then Absent else before
  }

  lemma AllGood(states: seq<Loaded>, attempts: seq<Attempt>, k: nat)
    requires History(states, attempts) && k < |states| && states[0].Good?
    ensures forall i | 0 <= i <= k :: states[i].Good?
  {
    forall i | 0 <= i <= k ensures states[i].Good? {
      NextGrows(states, attempts, 0, i);
    }
  }

  /**
   In every state of every history, a job is there exactly if it was created, or there from the start, and
   not deleted since; its body is the one last submitted, and its revision counts the updates.
   */
  lemma {:induction false} LastWriteStands(states: seq<Loaded>, attempts: seq<Attempt>, k: nat, id: int)
    requires History(states, attempts) && k < |states| && states[0].Good?
    ensures forall i | 0 <= i <= k :: states[i].Good?
    ensures var s := states[k].store;
            StandingOf(states, attempts, k, id)
            == if id in s.jobs then Present(s.jobs[id].body, s.jobs[id].revision) else Absent
    decreases k
  {
    AllGood(states, attempts, k);
    if k > 0 {
      LastWriteStands(states, attempts, k - 1, id);
      AlwaysValid(states, attempts, k - 1);
      assert Permitted(states[k - 1], attempts[k - 1].op, states[k], attempts[k - 1].reply);
      if Effective(states, k - 1) {
        EffectDoes(states[k - 1].store, attempts[k - 1].op);
      }
    }
  }

  /** What was answered is so: a job returned is in the store with the body submitted, a deleted one is not. */
  lemma RepliesHold(states: seq<Loaded>, attempts: seq<Attempt>, k: nat)
    requires History(states, attempts) && k < |attempts|
    ensures var before, after, x := states[k], states[k + 1], attempts[k];
            && (x.reply.Done? || x.reply.Deleted? ==>
                  before.Good? && after.Good? && Does(before.store, after.store, x.op) && (x.reply.Deleted? <==> x.op.Delete?))
            && (x.reply.Done? ==> x.reply.job.id in after.store.jobs && after.store.jobs[x.reply.job.id] == x.reply.job
                                  && x.reply.job.body == x.op.body)
            && (after != before ==> before.Good? && after.Good? && Does(before.store, after.store, x.op))
  {
    assert Permitted(states[k], attempts[k].op, states[k + 1], attempts[k].reply);
    if states[k].Good? {
      AlwaysValid(states, attempts, k);
      if Found(states[k].store, attempts[k].op) {
        EffectDoes(states[k].store, attempts[k].op);
      }
    }
  }
}
