/**
 Mutual exclusion and hand-over: how every execute goroutine agrees with the run table, in
 every reachable state.
 */
module RunThreads {
  import opened EventLog
  import opened RunCore
  import opened RunProtocol

  /** Stops forwarded to handles, and calls of the executor, so far. */
  datatype Calls = Calls(forwarded: set<RunId>, starts: multiset<RunId>)

  /** What the run table and the calls made say about the run of a goroutine standing at `p`. */
  predicate Agrees(c: Core, x: Calls, r: RunId, p: Pc) {
    && x.starts[r] <= 1
    && (Early(p) ==> x.starts[r] == 0)
    && if Early(p) then IsLive(c.runs, r) ==> c.runs[r] == Fresh(c.runs[r].job)
       else if InStart(p) then IsQueued(c, r) && c.runs[r].starting && !c.runs[r].attached
       else if InRun(p) then
         && r in c.runs && c.runs[r].status == Running && c.runs[r].attached && !c.runs[r].starting
         && (c.runs[r].stopRequested ==> p.Stopping? || r in x.forwarded)
       else !IsLive(c.runs, r)
  }

  /** Active runs have a goroutine, held-back ones do not, and only goroutines call the executor. */
  ghost predicate SlotInv(c: Core, pc: map<RunId, Pc>, used: set<RunId>, x: Calls) {
    && c.runs.Keys <= used
    && pc.Keys <= used
    && (forall j | j in c.active :: c.active[j] in pc)
    && (forall j | j in c.pending :: c.pending[j] !in pc)
    && (forall r | r in x.starts :: r in pc)
  }

  ghost predicate AgreeInv(c: Core, pc: map<RunId, Pc>, x: Calls) {
    forall r | r in pc :: Agrees(c, x, r, pc[r])
  }

  ghost predicate ThreadInv(c: Core, pc: map<RunId, Pc>, used: set<RunId>, x: Calls) {
    CoreInv(c) && SlotInv(c, pc, used, x) && AgreeInv(c, pc, x)
  }

  function CallsOf(w: World): Calls { Calls(w.forwarded, w.startCalls) }

  ghost predicate Threads(w: World) { ThreadInv(w.core, w.pc, w.used, CallsOf(w)) }

  predicate GoneOk(c: Core, r: RunId, status: Ended, now: Time, gone: set<RunId>) {
    IsLive(c.runs, r) ==> gone <= EndedRuns(Marked(c, r, status, now))
  }

  /** The goroutines as a run ends: that of the run itself, if past its early phase, is done. */
  predicate Leaves(pc: map<RunId, Pc>, r: RunId, pc': map<RunId, Pc>) {
    (pc' == pc && (r in pc ==> Early(pc[r]))) || (r in pc && pc' == pc[r := Done])
  }

  lemma FinishSlots(c: Core, pc: map<RunId, Pc>, used: set<RunId>, x: Calls, r: RunId, status: Ended, now: Time,
                    gone: set<RunId>)
    requires CoreInv(c) && SlotInv(c, pc, used, x) && GoneOk(c, r, status, now, gone)
    ensures var e := Finish(c, r, status, now, gone); SlotInv(e.core, Spawn(pc, e.spawn), used, x)
    ensures var e := Finish(c, r, status, now, gone); e.spawn.Some? ==> e.spawn.value !in pc
  {
  }

  lemma FinishAgrees(c: Core, x: Calls, r: RunId, status: Ended, now: Time, gone: set<RunId>, q: RunId, p: Pc)
    requires GoneOk(c, r, status, now, gone) && Agrees(c, x, q, p)
    requires IsLive(c.runs, r) && (q == r ==> Early(p))
    ensures Agrees(Finish(c, r, status, now, gone).core, x, q, p)
  {
  }

  lemma FinishDone(c: Core, x: Calls, r: RunId, status: Ended, now: Time, gone: set<RunId>, p: Pc)
    requires Agrees(c, x, r, p)
    ensures Agrees(Finish(c, r, status, now, gone).core, x, r, Done)
  {
  }

  lemma FinishThreads(c: Core, pc: map<RunId, Pc>, used: set<RunId>, x: Calls, r: RunId, status: Ended, now: Time,
                      gone: set<RunId>, pc': map<RunId, Pc>)
    requires ThreadInv(c, pc, used, x) && GoneOk(c, r, status, now, gone) && Leaves(pc, r, pc')
    ensures var e := Finish(c, r, status, now, gone); ThreadInv(e.core, Spawn(pc', e.spawn), used, x)
  {
    FinishKeeps(c, r, status, now, gone);
    FinishSlots(c, pc, used, x, r, status, now, gone);
    var e := Finish(c, r, status, now, gone);
    var pc'' := Spawn(pc', e.spawn);
    assert SlotInv(e.core, pc'', used, x) by {
      assert pc''.Keys == Spawn(pc, e.spawn).Keys;
    }
    forall q | q in pc'' ensures Agrees(e.core, x, q, pc''[q]) {
      if q in pc {
        assert Agrees(c, x, q, pc[q]);
        if IsLive(c.runs, r) && pc''[q] == pc[q] && (q == r ==> Early(pc[q])) {
          FinishAgrees(c, x, r, status, now, gone, q, pc[q]);
        } else if q == r {
          FinishDone(c, x, r, status, now, gone, pc[q]);
        }
      }
    }
  }

  /** A new run without a goroutine: rejected, or held back. */
  lemma AddRun(c: Core, pc: map<RunId, Pc>, used: set<RunId>, x: Calls, r: RunId, run: Run, pending: map<JobId, RunId>)
    requires SlotInv(c, pc, used, x) && AgreeInv(c, pc, x) && r !in used
    requires forall j | j in pending :: pending[j] == r || (j in c.pending && pending[j] == c.pending[j])
    ensures var c' := Core(c.runs[r := run], c.active, pending); SlotInv(c', pc, used + {r}, x) && AgreeInv(c', pc, x)
  {
    var c' := Core(c.runs[r := run], c.active, pending);
    forall q | q in pc ensures Agrees(c', x, q, pc[q]) {
      assert q != r && Agrees(c, x, q, pc[q]);
    }
  }

  /** A new active run, with its goroutine. */
  lemma AddActive(c: Core, pc: map<RunId, Pc>, used: set<RunId>, x: Calls, r: RunId, j: JobId)
    requires SlotInv(c, pc, used, x) && AgreeInv(c, pc, x) && r !in used && forall i | i in c.pending :: c.pending[i] != r
    ensures var c' := Core(c.runs[r := Fresh(j)], c.active[j := r], c.pending);
            SlotInv(c', pc[r := Spawned], used + {r}, x) && AgreeInv(c', pc[r := Spawned], x)
  {
    var c', pc' := Core(c.runs[r := Fresh(j)], c.active[j := r], c.pending), pc[r := Spawned];
    assert r !in pc && x.starts[r] == 0;
    forall q | q in pc' ensures Agrees(c', x, q, pc'[q]) {
      if q != r {
        assert Agrees(c, x, q, pc[q]);
      }
    }
  }

  lemma PendingIsUsed(c: Core, used: set<RunId>, r: RunId)
    requires CoreInv(c) && c.runs.Keys <= used && r !in used
    ensures forall i | i in c.pending :: c.pending[i] != r
  {
  }

  lemma ReserveThreads(c: Core, pc: map<RunId, Pc>, used: set<RunId>, x: Calls, r: RunId, j: JobId, queueLatest: bool,
                       now: Time, gone: set<RunId>)
    requires ThreadInv(c, pc, used, x) && r !in used
    requires j in c.pending ==> gone <= EndedRuns(Marked(c, c.pending[j], SkippedOverlap, now))
    ensures var e := Reserve(c, r, j, queueLatest, now, gone); ThreadInv(e.core, Spawn(pc, e.spawn), used + {r}, x)
  {
    ReserveKeeps(c, r, j, queueLatest, now, gone);
    if j in c.active && !queueLatest {
      AddRun(c, pc, used, x, r, Fresh(j).(status := SkippedOverlap, canceled := true, finishedAt := now), c.pending);
    } else if j in c.active && j in c.pending {
      FinishThreads(c, pc, used, x, c.pending[j], SkippedOverlap, now, gone, pc);
      var e := Finish(c, c.pending[j], SkippedOverlap, now, gone);
      AddRun(e.core, Spawn(pc, e.spawn), used, x, r, Fresh(j), e.core.pending[j := r]);
    } else if j in c.active {
      AddRun(c, pc, used, x, r, Fresh(j), c.pending[j := r]);
    } else {
      PendingIsUsed(c, used, r);
      AddActive(c, pc, used, x, r, j);
    }
  }

  /** Moving one goroutine, with the table and the calls changed at most for its own run. */
  lemma MoveThreads(c: Core, pc: map<RunId, Pc>, used: set<RunId>, x: Calls, c': Core, x': Calls, r: RunId, p: Pc)
    requires ThreadInv(c, pc, used, x) && r in pc
    requires c' == c || (IsLive(c.runs, r) && r in c'.runs && c' == c.(runs := c.runs[r := c'.runs[r]]))
    requires c' != c ==> !Terminal(c'.runs[r].status) && c'.runs[r].job == c.runs[r].job
    requires x' == x || x' == x.(forwarded := x.forwarded + {r}) || x' == x.(starts := x.starts + multiset{r})
    requires Agrees(c', x', r, p)
    ensures ThreadInv(c', pc[r := p], used, x')
  {
    var pc' := pc[r := p];
    forall q | q in pc' ensures Agrees(c', x', q, pc'[q]) {
      if q != r {
        assert Agrees(c, x, q, pc[q]);
      }
    }
  }

  lemma PruneThreads(c: Core, pc: map<RunId, Pc>, used: set<RunId>, x: Calls, gone: set<RunId>)
    requires ThreadInv(c, pc, used, x) && gone <= EndedRuns(c.runs)
    ensures ThreadInv(c.(runs := c.runs - gone), pc, used, x)
  {
    var c' := c.(runs := c.runs - gone);
    forall q | q in pc ensures Agrees(c', x, q, pc[q]) {
      assert Agrees(c, x, q, pc[q]);
    }
  }

  lemma StopWhileStarting(c: Core, pc: map<RunId, Pc>, used: set<RunId>, x: Calls, r: RunId, now: Time, gone: set<RunId>)
    requires ThreadInv(c, pc, used, x) && IsQueued(c, r) && c.runs[r].starting
    ensures ThreadInv(StopQueued(c, r, now, gone).core, pc, used, x)
  {
    assert r in pc;
    assert Agrees(c, x, r, pc[r]);
    assert pc[r := pc[r]] == pc;
    MoveThreads(c, pc, used, x, StopQueued(c, r, now, gone).core, x, r, pc[r]);
  }

  lemma StopThreads(c: Core, pc: map<RunId, Pc>, used: set<RunId>, x: Calls, r: RunId, now: Time, gone: set<RunId>)
    requires ThreadInv(c, pc, used, x) && GoneOk(c, r, Killed, now, gone)
    ensures var e := StopQueued(c, r, now, gone); ThreadInv(e.core, Spawn(pc, e.spawn), used, x)
  {
    if IsQueued(c, r) && c.runs[r].starting {
      StopWhileStarting(c, pc, used, x, r, now, gone);
    } else if IsQueued(c, r) {
      assert r in pc ==> Agrees(c, x, r, pc[r]);
      FinishThreads(c, pc, used, x, r, Killed, now, gone, pc);
    }
  }

  lemma EffectThreads(w: World, limits: Limits, t: TableStep, r: RunId, now: Time, gone: set<RunId>)
    requires Threads(w) && TableEnabled(w, limits, t, r, now, gone)
    ensures var e := TableEffect(w, t, r, now, gone);
            ThreadInv(e.core, Spawn(Leaving(w.pc, t, r), e.spawn), if t.Start? then w.used + {r} else w.used, CallsOf(w))
  {
    var x := CallsOf(w);
    match t {
      case Start(j, queueLatest) => ReserveThreads(w.core, w.pc, w.used, x, r, j, queueLatest, now, gone);
      case Stop => StopThreads(w.core, w.pc, w.used, x, r, now, gone);
      case Prune => PruneThreads(w.core, w.pc, w.used, x, gone);
      case _ => FinishThreads(w.core, w.pc, w.used, x, r, Ending(w, t, r), now, gone, w.pc[r := Done]);
    }
  }

  lemma TableChanges(w: World, t: TableStep, r: RunId, now: Time, gone: set<RunId>)
    ensures var w', e := ApplyTable(w, t, r, now, gone), TableEffect(w, t, r, now, gone);
            && w'.core == e.core && w'.pc == Spawn(Leaving(w.pc, t, r), e.spawn) && CallsOf(w') == CallsOf(w)
            && w'.used == if t.Start? then w.used + {r} else w.used
  {
  }

  lemma TableThreads(w: World, limits: Limits, t: TableStep, r: RunId, now: Time, gone: set<RunId>)
    requires Threads(w) && TableEnabled(w, limits, t, r, now, gone)
    ensures Threads(ApplyTable(w, t, r, now, gone))
  {
    TableChanges(w, t, r, now, gone);
    EffectThreads(w, limits, t, r, now, gone);
  }

  /** A goroutine is only ever spawned for a run that had none. */
  lemma SpawnsAnew(w: World, limits: Limits, t: TableStep, r: RunId, now: Time, gone: set<RunId>)
    requires Threads(w) && TableEnabled(w, limits, t, r, now, gone)
    ensures var e := TableEffect(w, t, r, now, gone); e.spawn.Some? ==> e.spawn.value !in w.pc
  {
  }

  /** Claiming the executor call, and attaching the handle, are the moves that change the run itself. */
  lemma ClaimThreads(w: World, m: ThreadStep, r: RunId)
    requires Threads(w) && ThreadEnabled(w, m, r) && (m.ClaimStart? || m.AttachHandle?)
    ensures Threads(ApplyThread(w, m, r))
  {
    var w' := ApplyThread(w, m, r);
    assert Agrees(w.core, CallsOf(w), r, w.pc[r]);
    MoveThreads(w.core, w.pc, w.used, CallsOf(w), w'.core, CallsOf(w'), r, w'.pc[r]);
  }

  lemma ThreadThreads(w: World, m: ThreadStep, r: RunId)
    requires Threads(w) && ThreadEnabled(w, m, r)
    ensures Threads(ApplyThread(w, m, r))
  {
    if m.ClaimStart? || m.AttachHandle? {
      ClaimThreads(w, m, r);
    } else {
      var w' := ApplyThread(w, m, r);
      assert Agrees(w.core, CallsOf(w), r, w.pc[r]);
      MoveThreads(w.core, w.pc, w.used, CallsOf(w), w'.core, CallsOf(w'), r, w'.pc[r]);
    }
  }
}
