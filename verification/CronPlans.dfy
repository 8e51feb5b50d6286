/**
 What the scheduler wants registered with the cron engine, and the plan that leads there from
 what is registered now.
 */
module CronPlans {
  import opened Texts

  datatype Trigger = Manual | Cron | Watch
  datatype Owner = SyncBridge | System

  datatype Job = Job(id: int, revision: nat, enabled: bool, needsReview: bool, owner: Owner, trigger: Trigger, cron: string)

  /** A registration as the scheduler remembers it; the engine's entry is zero until it has one. */
  datatype Scheduled = Scheduled(entry: nat, revision: nat, spec: string, generation: nat)

  /** What a registered callback carries: `fire(id, revision, generation)`. */
  datatype Callback = Callback(id: int, revision: nat, generation: nat)

  // ---------- Cron expressions ----------

  datatype Spec = Spec(text: string) | BadSpec

  predicate IsField(f: string) { f != [] && forall k | 0 <= k < |f| :: !IsSpace(f[k]) }

  predicate AllFields(fields: seq<string>) { forall k | 0 <= k < |fields| :: IsField(fields[k]) }

  function Field(s: string): (f: string)
    ensures |f| <= |s| && f == s[..|f|]
    ensures forall k | 0 <= k < |f| :: !IsSpace(f[k])
    ensures |f| < |s| ==> IsSpace(s[|f|])
  {
    if s == [] || IsSpace(s[0]) then [] else [s[0]] + Field(s[1..])
  }

  /** The words of a text, between blanks. */
  function Fields(s: string): (fields: seq<string>)
    ensures AllFields(fields)
    decreases |s|
  {
    if s == [] then []
    else if IsSpace(s[0]) then Fields(s[1..])
    else [Field(s)] + Fields(s[|Field(s)|..])
  }

  function Normalize(spec: string): Spec {
    var fields := Fields(spec);
    if |fields| == 5 then Spec("0 " + Join(fields, ' '))
    else if |fields| == 6 then Spec(Join(fields, ' '))
    else BadSpec
  }

  lemma {:induction false} FieldOf(f: string, rest: string)
    requires IsField(f) && (rest == [] || IsSpace(rest[0]))
    ensures Field(f + rest) == f
    decreases |f|
  {
    assert (f + rest)[1..] == f[1..] + rest;
    if |f| == 1 {
      assert f[1..] + rest == rest;
    } else {
      FieldOf(f[1..], rest);
    }
  }

  lemma {:induction false} FieldsOfJoin(fields: seq<string>)
    requires fields != [] && AllFields(fields)
    ensures Fields(Join(fields, ' ')) == fields
    decreases |fields|
  {
    if |fields| == 1 {
      FieldOf(fields[0], []);
      assert fields[0] + [] == fields[0];
    } else {
      var rest := " " + Join(fields[1..], ' ');
      assert fields[0] + " " + Join(fields[1..], ' ') == fields[0] + rest;
      FieldOf(fields[0], rest);
      assert (fields[0] + rest)[|fields[0]|..] == rest && rest[1..] == Join(fields[1..], ' ');
      FieldsOfJoin(fields[1..]);
    }
  }

  /**
   A normalized expression has exactly six fields and is its own normal form; texts with the same
   fields normalize alike, so that respelling an expression does not replace its registration.
   */
  lemma NormalForm(spec: string)
    requires Normalize(spec).Spec?
    ensures Normalize(Normalize(spec).text) == Normalize(spec)
    ensures Fields(Normalize(spec).text) == (if |Fields(spec)| == 5 then ["0"] else []) + Fields(spec)
  {
    var fields := Fields(spec);
    FieldsOfJoin(fields);
    if |fields| == 5 {
      PaddedForm(fields);
      assert ["0"] + fields == PaddedFields(fields);
    }
  }

  function PaddedFields(fields: seq<string>): seq<string> { ["0"] + fields }

  lemma PaddedForm(fields: seq<string>)
    requires fields != [] && AllFields(fields)
    ensures Fields("0 " + Join(fields, ' ')) == PaddedFields(fields)
  {
    var padded := PaddedFields(fields);
    assert padded[1..] == fields;
    assert "0" + [' '] == "0 ";
    assert Join(padded, ' ') == "0" + [' '] + Join(fields, ' ');
    FieldsOfJoin(padded);
  }

  // ---------- What is wanted ----------

  predicate Eligible(job: Job, trigger: Trigger) {
    job.enabled && !job.needsReview && job.owner == SyncBridge && job.trigger == trigger
  }

  predicate Good(job: Job) { Eligible(job, Cron) && Normalize(job.cron).Spec? }
  predicate Bad(job: Job) { Eligible(job, Cron) && Normalize(job.cron).BadSpec? }

  function WantOf(job: Job): Scheduled
    requires Good(job)
  {
    Scheduled(0, job.revision, Normalize(job.cron).text, 0)
  }

  /** By job, what its last schedulable mention asks for. */
  function Desired(jobs: seq<Job>): (want: map<int, Scheduled>) {
    if jobs == [] then map[]
    else
      var job := jobs[|jobs| - 1];
      if Good(job) then Desired(jobs[..|jobs| - 1])[job.id := WantOf(job)] else Desired(jobs[..|jobs| - 1])
  }

  /** The jobs with some mention whose expression is not valid. */
  function Invalid(jobs: seq<Job>): set<int> {
    set k | 0 <= k < |jobs| && Bad(jobs[k]) :: jobs[k].id
  }

  lemma {:induction false} DesiredUnregistered(jobs: seq<Job>)
    ensures forall id | id in Desired(jobs) :: Desired(jobs)[id].entry == 0
    decreases |jobs|
  {
    if jobs != [] {
      DesiredUnregistered(jobs[..|jobs| - 1]);
    }
  }

  lemma WantedStep(jobs: seq<Job>, k: nat)
    requires k < |jobs|
    ensures Desired(jobs[..k + 1]) == if Good(jobs[k]) then Desired(jobs[..k])[jobs[k].id := WantOf(jobs[k])] else Desired(jobs[..k])
    ensures Invalid(jobs[..k + 1]) == Invalid(jobs[..k]) + (if Bad(jobs[k]) then {jobs[k].id} else {})
  {
    assert jobs[..k + 1][..k] == jobs[..k];
    var more := jobs[..k + 1];
    forall id ensures id in Invalid(more) <==> id in Invalid(jobs[..k]) || (Bad(jobs[k]) && id == jobs[k].id) {
      if id in Invalid(jobs[..k]) {
        var i :| 0 <= i < k && Bad(jobs[..k][i]) && jobs[..k][i].id == id;
        assert more[i] == jobs[i];
      }
      if Bad(jobs[k]) && id == jobs[k].id {
        assert more[k] == jobs[k];
      }
      if id in Invalid(more) {
        var i :| 0 <= i < k + 1 && Bad(more[i]) && more[i].id == id;
        assert i < k ==> jobs[..k][i] == more[i];
      }
    }
  }

  // ---------- The plan ----------

  predicate Changed(current: Scheduled, want: Scheduled) {
    current.revision != want.revision || current.spec != want.spec
  }

  /** To be registered anew: wanted, and not there yet, or there differently and not protected by an invalid mention. */
  predicate Adds(id: int, entries: map<int, Scheduled>, desired: map<int, Scheduled>, invalid: set<int>) {
    id in desired && (id in entries ==> id !in invalid && Changed(entries[id], desired[id]))
  }

  /** To be removed from the engine. */
  predicate Drops(id: int, entries: map<int, Scheduled>, desired: map<int, Scheduled>, invalid: set<int>) {
    id in entries && id !in invalid && (id in desired ==> Changed(entries[id], desired[id]))
  }

  predicate Stays(id: int, entries: map<int, Scheduled>, desired: map<int, Scheduled>, invalid: set<int>) {
    id in desired || (id in entries && id in invalid)
  }

  function Dropped(entries: map<int, Scheduled>, desired: map<int, Scheduled>, invalid: set<int>, done: set<int>): set<nat> {
    set id | id in entries && id in done && Drops(id, entries, desired, invalid) :: entries[id].entry
  }

  datatype Plan = Plan(next: map<int, Scheduled>, added: map<int, Scheduled>, removed: set<nat>, generation: nat)

  /** The part of a plan that concerns the jobs in `done`. */
  ghost predicate IsPlanFor(done: set<int>, entries: map<int, Scheduled>, desired: map<int, Scheduled>,
                            invalid: set<int>, before: nat, p: Plan)
  {
    && before <= p.generation
    && (forall id :: id in p.added <==> id in done && Adds(id, entries, desired, invalid))
    && (forall id :: id in p.next <==> id in done && Stays(id, entries, desired, invalid))
    && (forall id | id in p.added :: p.added[id] == desired[id].(generation := p.added[id].generation))
    && (forall id | id in p.added :: before < p.added[id].generation <= p.generation)
    && (forall x, y | x in p.added && y in p.added && x != y :: p.added[x].generation != p.added[y].generation)
    && (forall id | id in p.next :: p.next[id] == if id in p.added then p.added[id] else entries[id])
    && p.removed == Dropped(entries, desired, invalid, done)
  }

  ghost predicate IsPlan(entries: map<int, Scheduled>, desired: map<int, Scheduled>, invalid: set<int>, before: nat,
                         p: Plan) {
    IsPlanFor(entries.Keys + desired.Keys, entries, desired, invalid, before, p)
  }

  /** One more job taken into the plan. */
  function Visit(id: int, entries: map<int, Scheduled>, desired: map<int, Scheduled>, invalid: set<int>, p: Plan): Plan
    requires id in entries || id in desired
  {
    var p := if Drops(id, entries, desired, invalid) then p.(removed := p.removed + {entries[id].entry}) else p;
    if Adds(id, entries, desired, invalid) then VisitNew(id, desired[id], p)
    else if Stays(id, entries, desired, invalid) then p.(next := p.next[id := entries[id]])
    else p
  }

  function VisitNew(id: int, want: Scheduled, p: Plan): Plan {
    var numbered := want.(generation := p.generation + 1);
    Plan(p.next[id := numbered], p.added[id := numbered], p.removed, p.generation + 1)
  }

  lemma VisitPlans(id: int, done: set<int>, entries: map<int, Scheduled>, desired: map<int, Scheduled>,
                   invalid: set<int>, before: nat, p: Plan)
    requires IsPlanFor(done, entries, desired, invalid, before, p)
    requires id !in done && (id in entries || id in desired)
    ensures IsPlanFor(done + {id}, entries, desired, invalid, before, Visit(id, entries, desired, invalid, p))
  {
    VisitDrops(id, done, entries, desired, invalid);
    if Adds(id, entries, desired, invalid) {
      VisitAdds(id, done, entries, desired, invalid, before, p);
    } else {
      VisitKeeps(id, done, entries, desired, invalid, before, p);
    }
  }

  lemma VisitAdds(id: int, done: set<int>, entries: map<int, Scheduled>, desired: map<int, Scheduled>,
                  invalid: set<int>, before: nat, p: Plan)
    requires IsPlanFor(done, entries, desired, invalid, before, p) && id !in done
    requires Adds(id, entries, desired, invalid)
    ensures var p' := VisitNew(id, desired[id], p).(removed := Dropped(entries, desired, invalid, done + {id}));
            IsPlanFor(done + {id}, entries, desired, invalid, before, p')
  {
  }

  lemma VisitKeeps(id: int, done: set<int>, entries: map<int, Scheduled>, desired: map<int, Scheduled>,
                   invalid: set<int>, before: nat, p: Plan)
    requires IsPlanFor(done, entries, desired, invalid, before, p) && id !in done
    requires !Adds(id, entries, desired, invalid)
    ensures var stays := Stays(id, entries, desired, invalid);
            var p' := p.(next := if stays then p.next[id := entries[id]] else p.next, removed := Dropped(entries, desired, invalid, done + {id}));
            IsPlanFor(done + {id}, entries, desired, invalid, before, p')
  {
  }

  lemma VisitDrops(id: int, done: set<int>, entries: map<int, Scheduled>, desired: map<int, Scheduled>,
                   invalid: set<int>)
    ensures Dropped(entries, desired, invalid, done + {id}) ==
            Dropped(entries, desired, invalid, done) + (if Drops(id, entries, desired, invalid) then {entries[id].entry} else {})
  {
  }

  // ---------- The engine's side ----------

  predicate Registers(live: map<nat, Callback>, id: int, s: Scheduled) {
    s.entry in live && live[s.entry] == Callback(id, s.revision, s.generation)
  }

  /** The engine's live entries are, one for one, the registrations of `entries`. */
  ghost predicate Mirrors(entries: map<int, Scheduled>, live: map<nat, Callback>) {
    && (forall id | id in entries :: Registers(live, id, entries[id]))
    && (forall e | e in live :: live[e].id in entries && entries[live[e].id].entry == e)
  }

  /** What reconciling leaves: the desired jobs as desired, and the invalid ones as they were. */
  ghost predicate Serves(before: map<int, Scheduled>, desired: map<int, Scheduled>, invalid: set<int>,
                         after: map<int, Scheduled>)
  {
    && (forall id :: id in after <==> Stays(id, before, desired, invalid))
    && (forall id | id in after && id in before && id in invalid :: after[id] == before[id])
    && (forall id | id in after && !(id in before && id in invalid) :: !Changed(after[id], desired[id]))
    && (forall id | id in after && id in before && !Adds(id, before, desired, invalid) :: after[id] == before[id])
  }

  /** Nothing to register and nothing to remove. */
  ghost predicate Settled(entries: map<int, Scheduled>, desired: map<int, Scheduled>, invalid: set<int>) {
    forall id :: !Adds(id, entries, desired, invalid) && !Drops(id, entries, desired, invalid)
  }

  /** What reconciling leaves is settled for the same jobs. */
  lemma ServedIsSettled(before: map<int, Scheduled>, desired: map<int, Scheduled>, invalid: set<int>,
                        after: map<int, Scheduled>)
    requires Serves(before, desired, invalid, after)
    ensures Settled(after, desired, invalid)
  {
    forall id ensures !Adds(id, after, desired, invalid) && !Drops(id, after, desired, invalid) {
      assert id in after <==> Stays(id, before, desired, invalid);
    }
  }

  lemma PlanOfSettled(entries: map<int, Scheduled>, desired: map<int, Scheduled>, invalid: set<int>, before: nat,
                      p: Plan)
    requires Settled(entries, desired, invalid) && IsPlan(entries, desired, invalid, before, p)
    ensures p.added == map[] && p.removed == {} && p.next == entries
  {
    forall id ensures id !in p.added {
      assert id in p.added ==> Adds(id, entries, desired, invalid);
    }
    forall id | id in entries ensures id in p.next && p.next[id] == entries[id] {
      assert !Drops(id, entries, desired, invalid);
    }
    forall id | id in p.next ensures id in entries {
      assert !Adds(id, entries, desired, invalid);
    }
  }

  /** Whether a fired callback may start a run: its registration is the published one, and the scheduler is open. */
  predicate Current(entries: map<int, Scheduled>, closed: bool, callback: Callback) {
    && !closed && callback.id in entries
    && entries[callback.id].revision == callback.revision && entries[callback.id].generation == callback.generation
  }

  // ---------- Registering, publishing, removing ----------

  /** `added` with the engine entries of the jobs registered so far; the others have none. */
  ghost predicate Filled(plan: map<int, Scheduled>, added: map<int, Scheduled>, done: set<int>) {
    && added.Keys == plan.Keys && done <= plan.Keys
    && (forall id | id in added :: added[id] == plan[id].(entry := added[id].entry))
    && (forall id | id in added :: added[id].entry > 0 <==> id in done)
    && (forall id | id in added && id !in done :: added[id].entry == 0)
  }

  /** Live now: what was live, and one entry above `last` for each job registered since. */
  ghost predicate Extends(former: map<nat, Callback>, last: nat, added: map<int, Scheduled>, done: set<int>,
                          live: map<nat, Callback>)
  {
    && (forall e | e in former :: e <= last && e in live && live[e] == former[e])
    && (forall e | e in live && e !in former :: e > last && live[e].id in done && live[e].id in added && added[live[e].id].entry == e)
    && (forall id | id in done :: id in added && added[id].entry > last && Registers(live, id, added[id]))
  }

  /** The plan's next entries with the entries the engine gave. */
  function WithEntries(next: map<int, Scheduled>, added: map<int, Scheduled>): map<int, Scheduled> {
    map id | id in next :: if id in added then added[id] else next[id]
  }

  lemma PublishReconciles(entries: map<int, Scheduled>, desired: map<int, Scheduled>, invalid: set<int>, before: nat,
                          p: Plan, added: map<int, Scheduled>)
    requires IsPlan(entries, desired, invalid, before, p) && Filled(p.added, added, p.added.Keys)
    ensures Serves(entries, desired, invalid, WithEntries(p.next, added))
  {
  }

  /** Once the new registrations are live and the dropped ones removed, the engine mirrors the next entries. */
  lemma PublishMirrors(entries: map<int, Scheduled>, desired: map<int, Scheduled>, invalid: set<int>, before: nat,
                       p: Plan, added: map<int, Scheduled>, former: map<nat, Callback>, last: nat,
                       live: map<nat, Callback>)
    requires Mirrors(entries, former) && IsPlan(entries, desired, invalid, before, p)
    requires Filled(p.added, added, p.added.Keys) && Extends(former, last, added, p.added.Keys, live)
    ensures Mirrors(WithEntries(p.next, added), live - p.removed)
  {
    var next, left := WithEntries(p.next, added), live - p.removed;
    forall id | id in next ensures Registers(left, id, next[id]) {
      if id in added {
        assert added[id].entry !in former;
      }
    }
    forall e | e in left ensures left[e].id in next && next[left[e].id].entry == e {
      if e in former {
        assert !Drops(former[e].id, entries, desired, invalid);
      }
    }
  }

  lemma ExtendsMore(former: map<nat, Callback>, last: nat, added: map<int, Scheduled>, done: set<int>,
                    live: map<nat, Callback>, id: int, entry: nat)
    requires Extends(former, last, added, done, live) && done <= added.Keys
    requires id in added && id !in done && entry > last && entry !in live
    ensures Extends(former, last, added[id := added[id].(entry := entry)], done + {id},
                    live[entry := Callback(id, added[id].revision, added[id].generation)])
  {
  }

  // ---------- What is scheduled, told by jobs and engine alone ----------

  /** Jobs that SyncBridge is to start on a schedule. */
  predicate Schedulable(job: Job) {
    job.enabled && !job.needsReview && job.owner == SyncBridge && job.trigger == Trigger.Cron
  }

  predicate HasExpression(job: Job) { |Fields(job.cron)| == 5 || |Fields(job.cron)| == 6 }

  /** The fields of a job's expression, from seconds on. */
  function Times(job: Job): seq<string> { (if |Fields(job.cron)| == 5 then ["0"] else []) + Fields(job.cron) }

  predicate ListedOnce(jobs: seq<Job>, k: nat)
    requires k < |jobs|
  {
    forall i | 0 <= i < |jobs| && i != k :: jobs[i].id != jobs[k].id
  }

  predicate InvalidMention(jobs: seq<Job>, id: int) {
    exists k | 0 <= k < |jobs| :: jobs[k].id == id && Schedulable(jobs[k]) && !HasExpression(jobs[k])
  }

  /** The engine's callback for the job carries its current revision, and its times are the job's. */
  predicate RunsFor(job: Job, entries: map<int, Scheduled>, live: map<nat, Callback>, specs: map<nat, string>) {
    && job.id in entries && entries[job.id].revision == job.revision
    && var e := entries[job.id].entry;
       && e in live && live[e].id == job.id && live[e].revision == job.revision
       && live[e].generation == entries[job.id].generation
       && e in specs && Fields(specs[e]) == Times(job)
  }

  predicate RunsSome(jobs: seq<Job>, id: int, entries: map<int, Scheduled>, live: map<nat, Callback>,
                     specs: map<nat, string>) {
    exists k | 0 <= k < |jobs| ::
      jobs[k].id == id && Schedulable(jobs[k]) && HasExpression(jobs[k]) && RunsFor(jobs[k], entries, live, specs)
  }

  /**
   Every schedulable job with a valid expression, if listed once, is run for at its current revision; and
   whatever is published is run for such a job, or was there before and has an invalid mention now.
   */
  ghost predicate Schedules(jobs: seq<Job>, before: map<int, Scheduled>, entries: map<int, Scheduled>,
                            live: map<nat, Callback>, specs: map<nat, string>) {
    && (forall k | 0 <= k < |jobs| && ListedOnce(jobs, k) && Schedulable(jobs[k]) && HasExpression(jobs[k]) ::
          RunsFor(jobs[k], entries, live, specs))
    && (forall id | id in entries ::
          RunsSome(jobs, id, entries, live, specs)
          || (InvalidMention(jobs, id) && id in before && entries[id] == before[id]))
    && (forall e | e in live :: live[e].id in entries && entries[live[e].id].entry == e)
  }

  /** The engine was given the expressions that the registrations remember. */
  ghost predicate Timed(entries: map<int, Scheduled>, specs: map<nat, string>) {
    forall id | id in entries && entries[id].entry > 0 :: entries[id].entry in specs && specs[entries[id].entry] == entries[id].spec
  }

  ghost predicate AllRegistered(entries: map<int, Scheduled>) { forall id | id in entries :: entries[id].entry > 0 }

  lemma {:induction false} DesiredBy(jobs: seq<Job>, id: int)
    ensures id in Desired(jobs) <==> exists k | 0 <= k < |jobs| :: jobs[k].id == id && Good(jobs[k])
    ensures id in Desired(jobs) ==>
              exists k | 0 <= k < |jobs| :: jobs[k].id == id && Good(jobs[k]) && Desired(jobs)[id] == WantOf(jobs[k])
    decreases |jobs|
  {
    if jobs != [] {
      var n := |jobs| - 1;
      DesiredBy(jobs[..n], id);
      if Good(jobs[n]) && jobs[n].id == id {
        assert Desired(jobs)[id] == WantOf(jobs[n]);
      } else if id in Desired(jobs) {
        var k :| 0 <= k < n && jobs[..n][k].id == id && Good(jobs[..n][k]) && Desired(jobs[..n])[id] == WantOf(jobs[..n][k]);
        assert jobs[k] == jobs[..n][k];
      }
      if k :| 0 <= k < |jobs| && jobs[k].id == id && Good(jobs[k]) {
        if k < n {
          assert jobs[..n][k] == jobs[k];
        }
      }
    }
  }

  lemma WantRuns(job: Job, entries: map<int, Scheduled>, live: map<nat, Callback>, specs: map<nat, string>)
    requires Good(job) && job.id in entries && !Changed(entries[job.id], WantOf(job))
    requires Mirrors(entries, live) && AllRegistered(entries) && Timed(entries, specs)
    ensures Schedulable(job) && HasExpression(job) && RunsFor(job, entries, live, specs)
  {
    NormalForm(job.cron);
  }

  lemma ServedRuns(jobs: seq<Job>, before: map<int, Scheduled>, entries: map<int, Scheduled>, live: map<nat, Callback>,
                   specs: map<nat, string>)
    requires Serves(before, Desired(jobs), Invalid(jobs), entries)
    requires Mirrors(entries, live) && AllRegistered(entries) && Timed(entries, specs)
    ensures Schedules(jobs, before, entries, live, specs)
  {
    forall k | 0 <= k < |jobs| && ListedOnce(jobs, k) && Schedulable(jobs[k]) && HasExpression(jobs[k])
      ensures RunsFor(jobs[k], entries, live, specs)
    {
      OnceIsWanted(jobs, k);
      WantRuns(jobs[k], entries, live, specs);
    }
    forall id | id in entries
      ensures RunsSome(jobs, id, entries, live, specs)
              || (InvalidMention(jobs, id) && id in before && entries[id] == before[id])
    {
      PublishedRuns(jobs, before, entries, live, specs, id);
    }
  }

  lemma OnceIsWanted(jobs: seq<Job>, k: nat)
    requires k < |jobs| && ListedOnce(jobs, k) && Schedulable(jobs[k]) && HasExpression(jobs[k])
    ensures Good(jobs[k]) && jobs[k].id in Desired(jobs) && jobs[k].id !in Invalid(jobs)
    ensures Desired(jobs)[jobs[k].id] == WantOf(jobs[k])
  {
    DesiredBy(jobs, jobs[k].id);
  }

  lemma PublishedRuns(jobs: seq<Job>, before: map<int, Scheduled>, entries: map<int, Scheduled>, live: map<nat, Callback>,
                      specs: map<nat, string>, id: int)
    requires Serves(before, Desired(jobs), Invalid(jobs), entries) && id in entries
    requires Mirrors(entries, live) && AllRegistered(entries) && Timed(entries, specs)
    ensures RunsSome(jobs, id, entries, live, specs)
            || (InvalidMention(jobs, id) && id in before && entries[id] == before[id])
  {
    if id in before && id in Invalid(jobs) {
      var k :| 0 <= k < |jobs| && Bad(jobs[k]) && jobs[k].id == id;
      assert Schedulable(jobs[k]) && !HasExpression(jobs[k]);
    } else {
      assert Stays(id, before, Desired(jobs), Invalid(jobs));
      DesiredBy(jobs, id);
      var k :| 0 <= k < |jobs| && jobs[k].id == id && Good(jobs[k]) && Desired(jobs)[id] == WantOf(jobs[k]);
      WantRuns(jobs[k], entries, live, specs);
    }
  }
}
