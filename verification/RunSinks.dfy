/**
 The log sink of each execute goroutine: who may fill it, when it is closed, and that it is
 closed exactly once on every path.
 */
module RunSinks {
  import opened EventLog
  import opened Options
  import opened RunCore
  import opened RunProtocol

  predicate SinkOk(k: Sink) {
    && k.published <= k.taken <= k.published + 1
    && k.taken <= |k.delivered| <= k.taken + SINK_CAPACITY
    && k.closes <= 1
    && (k.consumerDone ==> k.closes == 1 && k.published == |k.delivered|)
    && (k.exec.NotLaunched? ==> k.delivered == [])
    && (k.exec.Streaming? ==> k.closes == 0)
    && (k.exec.Over? ==> k.closes == 1)
  }

  predicate NeedsSink(p: Pc) { p.SinkReady? || InStart(p) || InRun(p) }

  predicate SinkAt(k: Sink, p: Pc) {
    match p
    case SinkReady => k.exec.NotLaunched? && k.closes == 0
    case Starting => k.exec.NotLaunched? ==> k.closes == 0
    case StartFailing => k.exec.NotLaunched? && k.closes == 1
    case Attaching | Stopping | Waiting => !k.exec.NotLaunched?
    case Draining(result) => k.exec == Over(result)
    case Done => k.closes == 1 && (!k.exec.NotLaunched? ==> k.consumerDone)
    case _ => false
  }

  ghost predicate Sinks(pc: map<RunId, Pc>, sinks: map<RunId, Sink>) {
    && (forall r | r in pc && NeedsSink(pc[r]) :: r in sinks)
    && (forall r | r in sinks :: SinkOk(sinks[r]) && r in pc && SinkAt(sinks[r], pc[r]))
  }

  /** A finished goroutine has no open sink, and a spawned one has no sink yet. */
  lemma TableSinks(pc: map<RunId, Pc>, sinks: map<RunId, Sink>, t: TableStep, r: RunId, spawn: Option<RunId>)
    requires Sinks(pc, sinks) && (spawn.Some? ==> spawn.value !in pc)
    requires t.FailRun? ==> r in pc && pc[r].Failing?
    requires t.FinishRun? ==> r in pc && r in sinks && sinks[r].consumerDone
    ensures Sinks(Spawn(Leaving(pc, t, r), spawn), sinks)
  {
  }

  lemma MoveSinks(pc: map<RunId, Pc>, sinks: map<RunId, Sink>, r: RunId, p: Pc)
    requires Sinks(pc, sinks) && r in pc
    requires if r in sinks then SinkAt(sinks[r], p) else !NeedsSink(p)
    ensures Sinks(pc[r := p], sinks)
  {
  }

  lemma PourSinks(pc: map<RunId, Pc>, sinks: map<RunId, Sink>, r: RunId, p: Pc, k: Sink)
    requires Sinks(pc, sinks) && r in pc && SinkOk(k) && SinkAt(k, p)
    ensures Sinks(pc[r := p], sinks[r := k])
  {
  }

  /** The moves that make a sink, or close one. */
  predicate TouchesSink(m: ThreadStep) { m.Installed? || m.ClaimStart? || m.StartRefused? }

  lemma PouringSinks(w: World, m: ThreadStep, r: RunId)
    requires Sinks(w.pc, w.sinks) && ThreadEnabled(w, m, r) && TouchesSink(m)
    ensures var w' := ApplyThread(w, m, r); Sinks(w'.pc, w'.sinks)
  {
    var w' := ApplyThread(w, m, r);
    if w'.sinks == w.sinks {
      MoveSinks(w.pc, w.sinks, r, w'.pc[r]);
    } else {
      PourSinks(w.pc, w.sinks, r, w'.pc[r], w'.sinks[r]);
    }
  }

  lemma ThreadSinks(w: World, m: ThreadStep, r: RunId)
    requires Sinks(w.pc, w.sinks) && ThreadEnabled(w, m, r)
    ensures var w' := ApplyThread(w, m, r); Sinks(w'.pc, w'.sinks)
  {
    if TouchesSink(m) {
      PouringSinks(w, m, r);
    } else {
      MoveSinks(w.pc, w.sinks, r, ApplyThread(w, m, r).pc[r]);
    }
  }

  lemma SinkMoves(k: Sink, p: Pc, k': Sink)
    requires SinkOk(k) && SinkAt(k, p)
    requires k.closes == k'.closes && k.exec == k'.exec && k'.published <= k'.taken <= k'.published + 1
    requires k'.taken <= |k'.delivered| <= k'.taken + SINK_CAPACITY && (k'.exec.NotLaunched? ==> k'.delivered == [])
    requires k'.consumerDone ==> k.closes > 0 && k'.published == |k'.delivered|
    requires k.consumerDone ==> k'.consumerDone
    ensures SinkOk(k') && SinkAt(k', p)
  {
  }

  lemma SinkSinks(w: World, s: SinkStep, r: RunId)
    requires Sinks(w.pc, w.sinks) && SinkEnabled(w, s, r)
    ensures var w' := ApplySink(w, s, r); Sinks(w'.pc, w'.sinks)
  {
    var w' := ApplySink(w, s, r);
    var k, k', p := w.sinks[r], w'.sinks[r], w.pc[r];
    assert SinkOk(k) && SinkAt(k, p);
    if !s.Launch? && !s.EndStream? {
      SinkMoves(k, p, k');
    }
    assert w.pc[r := p] == w.pc && w'.sinks == w.sinks[r := k'];
    PourSinks(w.pc, w.sinks, r, p, k');
  }
}
