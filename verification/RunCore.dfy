/**
 The run table of the run service: which runs exist, which one each job is running and which
 one it holds back. Each function is one critical section under the service lock, giving the
 new table together with what the section publishes, spawns and puts into the history.
 */
module RunCore {
  import opened EventLog
  import opened Options

  /** Finishing time stamps; the clock may step backwards. */
  type Time = int

  /** What an executor may report: an ended status, or none at all. */
  type Ended = s: Status | Terminal(s) witness Failed

  datatype Run = Run(job: JobId, status: Status, starting: bool, stopRequested: bool, attached: bool,
                     canceled: bool, finishedAt: Time)

  datatype Core = Core(runs: map<RunId, Run>, active: map<JobId, RunId>, pending: map<JobId, RunId>)

  datatype Limits = Limits(maxRuns: nat, maxAge: int)

  /** A history record, written once per ended run. */
  datatype Record = Record(run: RunId, job: JobId, status: Status)

  datatype Effect = Effect(core: Core, events: seq<Body>, spawn: Option<RunId>, ticket: Option<Record>)

  predicate IsLive(runs: map<RunId, Run>, r: RunId) {
    r in runs && !Terminal(runs[r].status)
  }

  function StateOf(r: RunId, run: Run): Body { State(r, run.job, run.status, false) }

  // ---------- Trimming ----------

  function EndedRuns(runs: map<RunId, Run>): set<RunId> {
    set r | r in runs && Terminal(runs[r].status)
  }

  function Expired(runs: map<RunId, Run>, cutoff: Time): set<RunId> {
    set r | r in runs && Terminal(runs[r].status) && runs[r].finishedAt < cutoff
  }

  /**
   The runs a trim may drop: every expired one and then, when more than `maxRuns` ended runs
   are left, just enough of the oldest. Runs that ended at the same instant may go in any order.
   */
  ghost predicate LegalTrim(runs: map<RunId, Run>, limits: Limits, now: Time, gone: set<RunId>) {
    var expired := Expired(runs, now - limits.maxAge);
    var kept := EndedRuns(runs) - gone;
    && expired <= gone <= EndedRuns(runs)
    && (gone != expired ==> |kept| == limits.maxRuns)
    && |kept| <= limits.maxRuns
    && (forall x, y | x in gone - expired && y in kept :: runs[x].finishedAt <= runs[y].finishedAt)
  }

  /** The oldest of some ended runs, from which a trim takes the next to drop. */
  lemma {:induction false} OldestExists(runs: map<RunId, Run>, rs: set<RunId>) returns (x: RunId)
    requires rs != {} && rs <= runs.Keys
    ensures x in rs && forall y | y in rs :: runs[x].finishedAt <= runs[y].finishedAt
  {
    x :| x in rs;
    if rs != {x} {
      var y := OldestExists(runs, rs - {x});
      if runs[y].finishedAt < runs[x].finishedAt {
        x := y;
      }
    }
  }

  /** A trim in progress: what it has dropped so far could still become a legal trim. */
  ghost predicate Trimming(runs: map<RunId, Run>, limits: Limits, now: Time, gone: set<RunId>) {
    var expired := Expired(runs, now - limits.maxAge);
    var kept := EndedRuns(runs) - gone;
    && expired <= gone <= EndedRuns(runs)
    && (gone != expired ==> |kept| >= limits.maxRuns)
    && (forall x, y | x in gone - expired && y in kept :: runs[x].finishedAt <= runs[y].finishedAt)
  }

  lemma TrimStart(runs: map<RunId, Run>, limits: Limits, now: Time)
    ensures Trimming(runs, limits, now, Expired(runs, now - limits.maxAge))
  {
  }

  lemma TrimEnd(runs: map<RunId, Run>, limits: Limits, now: Time, gone: set<RunId>)
    requires Trimming(runs, limits, now, gone) && |EndedRuns(runs) - gone| <= limits.maxRuns
    ensures LegalTrim(runs, limits, now, gone)
  {
  }

  lemma DropOldest(runs: map<RunId, Run>, limits: Limits, now: Time, gone: set<RunId>, x: RunId)
    requires Trimming(runs, limits, now, gone)
    requires var kept := EndedRuns(runs) - gone;
             |kept| > limits.maxRuns && x in kept && forall y | y in kept :: runs[x].finishedAt <= runs[y].finishedAt
    ensures Trimming(runs, limits, now, gone + {x})
    ensures |EndedRuns(runs) - (gone + {x})| == |EndedRuns(runs) - gone| - 1
  {
    assert EndedRuns(runs) - (gone + {x}) == (EndedRuns(runs) - gone) - {x};
  }

  lemma TrimStep(all: map<RunId, Run>, limits: Limits, now: Time, gone: set<RunId>, runs: map<RunId, Run>,
                 terminal: set<RunId>, oldest: RunId)
    requires Trimming(all, limits, now, gone)
    requires runs == all - gone && terminal == EndedRuns(all) - gone && |terminal| > limits.maxRuns
    requires oldest in terminal && forall y | y in terminal :: runs[oldest].finishedAt <= runs[y].finishedAt
    ensures Trimming(all, limits, now, gone + {oldest})
    ensures runs - {oldest} == all - (gone + {oldest})
    ensures terminal - {oldest} == EndedRuns(all) - (gone + {oldest})
    ensures |terminal - {oldest}| < |terminal|
  {
    assert forall y | y in terminal :: runs[y] == all[y];
    DropOldest(all, limits, now, gone, oldest);
  }

  /** Whatever the table and the clock, some trim is legal. */
  lemma {:induction false} TrimExists(runs: map<RunId, Run>, limits: Limits, now: Time, gone: set<RunId>)
    returns (all: set<RunId>)
    requires Trimming(runs, limits, now, gone)
    ensures LegalTrim(runs, limits, now, all)
    decreases |EndedRuns(runs) - gone|
  {
    if |EndedRuns(runs) - gone| <= limits.maxRuns {
      all := gone;
    } else {
      var x := OldestExists(runs, EndedRuns(runs) - gone);
      DropOldest(runs, limits, now, gone, x);
      all := TrimExists(runs, limits, now, gone + {x});
    }
  }

  /** The ended runs that are not expired and finished later than the run. */
  function Newer(runs: map<RunId, Run>, cutoff: Time, x: RunId): set<RunId>
    requires x in runs
  {
    set y | y in runs && Terminal(runs[y].status) && runs[y].finishedAt >= cutoff && runs[y].finishedAt > runs[x].finishedAt
  }

  lemma SubsetSize<T>(a: set<T>, b: set<T>)
    requires a <= b
    ensures |a| <= |b| && (|a| == |b| ==> a == b)
    decreases |a|
  {
    if a != {} {
      var x :| x in a;
      SubsetSize(a - {x}, b - {x});
      assert a == a - {x} + {x} && b == b - {x} + {x};
    }
  }

  /**
   If no two runs finished at the same instant, a legal trim keeps an ended run exactly if it is not too
   old and fewer runs finished after it than may be kept.
   */
  lemma TrimByRank(runs: map<RunId, Run>, limits: Limits, now: Time, gone: set<RunId>, x: RunId)
    requires LegalTrim(runs, limits, now, gone) && x in runs && Terminal(runs[x].status)
    requires forall y | y in runs && Terminal(runs[y].status) && y != x :: runs[y].finishedAt != runs[x].finishedAt
    ensures x !in gone <==>
            runs[x].finishedAt >= now - limits.maxAge && |Newer(runs, now - limits.maxAge, x)| < limits.maxRuns
  {
    var kept, newer := EndedRuns(runs) - gone, Newer(runs, now - limits.maxAge, x);
    if x in kept {
      assert x !in newer && newer <= kept;
      SubsetSize(newer + {x}, kept);
    } else if x !in Expired(runs, now - limits.maxAge) {
      assert kept <= newer;
      SubsetSize(kept, newer);
    }
  }

  // ---------- Critical sections ----------

  /**
   Ending a run: the slot it holds is freed, the held-back request of the same job takes over
   the active slot in the same step, and trimming drops the runs in `gone` in between.
   */
  function Finish(c: Core, r: RunId, status: Ended, now: Time, gone: set<RunId>): Effect {
    if !IsLive(c.runs, r) then Effect(c, [], None, None)
    else
      var run := c.runs[r].(status := status, canceled := true, finishedAt := now);
      var j := run.job;
      var active := if j in c.active && c.active[j] == r then c.active - {j} else c.active;
      var pending := if j in c.pending && c.pending[j] == r then c.pending - {j} else c.pending;
      var runs := c.runs[r := run] - gone;
      var ticket := Some(Record(r, j, status));
      if j in pending
      then Effect(Core(runs, active[j := pending[j]], pending - {j}), [StateOf(r, run)], Some(pending[j]), ticket)
      else Effect(Core(runs, active, pending), [StateOf(r, run)], None, ticket)
  }

  /** The table after the run has been marked ended, on which `Finish` trims. */
  function Marked(c: Core, r: RunId, status: Ended, now: Time): map<RunId, Run>
    requires r in c.runs
  {
    c.runs[r := c.runs[r].(status := status, canceled := true, finishedAt := now)]
  }

  function Fresh(j: JobId): Run { Run(j, Queued, false, false, false, false, 0) }

  /** Reserving a run: rejected, held back in place of an older request, or made active. */
  function Reserve(c: Core, r: RunId, j: JobId, queueLatest: bool, now: Time, gone: set<RunId>): Effect {
    if j in c.active && !queueLatest then
      var run := Fresh(j).(status := SkippedOverlap, canceled := true, finishedAt := now);
      Effect(c.(runs := c.runs[r := run]), [StateOf(r, run)], None, Some(Record(r, j, SkippedOverlap)))
    else if j in c.active then
      var e := if j in c.pending then Finish(c, c.pending[j], SkippedOverlap, now, gone) else Effect(c, [], None, None);
      Effect(e.core.(runs := e.core.runs[r := Fresh(j)], pending := e.core.pending[j := r]),
             e.events + [StateOf(r, Fresh(j))], e.spawn, e.ticket)
    else
      Effect(c.(runs := c.runs[r := Fresh(j)], active := c.active[j := r]), [StateOf(r, Fresh(j))], Some(r), None)
  }

  /** A stop before the executor has been called ends the run; during the call it is only noted. */
  function StopQueued(c: Core, r: RunId, now: Time, gone: set<RunId>): Effect {
    if r in c.runs && c.runs[r].status == Queued && c.runs[r].starting
    then Effect(c.(runs := c.runs[r := c.runs[r].(stopRequested := true, canceled := true)]), [], None, None)
    else if r in c.runs && c.runs[r].status == Queued then Finish(c, r, Killed, now, gone)
    else Effect(c, [], None, None)
  }

  predicate IsQueued(c: Core, r: RunId) { r in c.runs && c.runs[r].status == Queued }

  function Claim(c: Core, r: RunId): Core
    requires IsQueued(c, r)
  {
    c.(runs := c.runs[r := c.runs[r].(starting := true)])
  }

  function Attach(c: Core, r: RunId): Effect {
    if !IsQueued(c, r) then Effect(c, [], None, None)
    else
      var run := c.runs[r].(attached := true, starting := false, status := Running);
      Effect(c.(runs := c.runs[r := run]), [StateOf(r, run)], None, None)
  }

  // ---------- The table invariant ----------

  predicate Holds(slots: map<JobId, RunId>, j: JobId, r: RunId) { j in slots && slots[j] == r }

  ghost predicate ActiveOk(c: Core) {
    forall j | j in c.active :: IsLive(c.runs, c.active[j]) && c.runs[c.active[j]].job == j
  }

  ghost predicate PendingOk(c: Core) {
    forall j | j in c.pending ::
      && j in c.active && c.active[j] != c.pending[j]
      && c.pending[j] in c.runs && c.runs[c.pending[j]] == Fresh(j)
  }

  ghost predicate LiveOk(c: Core) {
    forall r | IsLive(c.runs, r) :: Holds(c.active, c.runs[r].job, r) || Holds(c.pending, c.runs[r].job, r)
  }

  /** The live runs of a job are exactly its active one and its held-back one. */
  ghost predicate CoreInv(c: Core) {
    ActiveOk(c) && PendingOk(c) && LiveOk(c)
  }

  lemma FinishKeeps(c: Core, r: RunId, status: Ended, now: Time, gone: set<RunId>)
    requires CoreInv(c)
    requires IsLive(c.runs, r) ==> gone <= EndedRuns(Marked(c, r, status, now))
    ensures CoreInv(Finish(c, r, status, now, gone).core)
  {
  }

  lemma ReserveKeeps(c: Core, r: RunId, j: JobId, queueLatest: bool, now: Time, gone: set<RunId>)
    requires CoreInv(c) && r !in c.runs
    requires j in c.pending && queueLatest ==> gone <= EndedRuns(Marked(c, c.pending[j], SkippedOverlap, now))
    ensures CoreInv(Reserve(c, r, j, queueLatest, now, gone).core)
  {
    if j in c.active && queueLatest && j in c.pending {
      FinishKeeps(c, c.pending[j], SkippedOverlap, now, gone);
    }
  }
}
