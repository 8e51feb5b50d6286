/**
 The scheduler among its concurrent callers: reconciling one engine call at a time, callbacks
 firing and finishing at any moment, and closing. Reconcile and Close exclude each other; fired
 callbacks exclude nothing, and may be late: the engine may run one after it was removed.
 */
module CronProtocol {
  import opened CronPlans

  datatype Engine = Engine(live: map<nat, Callback>, last: nat, ever: map<nat, Callback>)

  datatype Reconciling =
    | Idle
    | Registering(plan: Plan, added: map<int, Scheduled>, done: set<int>, before: map<nat, Callback>, from: nat)
    | Undoing(left: set<nat>, original: map<nat, Callback>)
    | Removing(gone: set<nat>)

  datatype Closing = Open | Draining | Quiet

  datatype World = World(entries: map<int, Scheduled>, generation: nat, engine: Engine, phase: Reconciling,
                         closing: Closing, inFlight: multiset<Callback>)

  datatype Step =
    | Begin(desired: map<int, Scheduled>, invalid: set<int>, plan: Plan)
    | Add(id: int, entry: nat)
    | Refuse
    | Undo(entry: nat)
    | Publish
    | Remove(entry: nat)
    | Return
    | Fire(entry: nat)
    | Finish(callback: Callback)
    | Close
    | CloseReturns

  /** The registrations that a fired callback finds itself among. */
  predicate Claims(w: World, entry: nat) {
    entry in w.engine.ever && Current(w.entries, w.closing != Open, w.engine.ever[entry])
  }

  ghost predicate Enabled(w: World, s: Step) {
    match s
    case Begin(desired, invalid, plan) =>
      && w.phase.Idle? && w.closing.Open? && (forall id | id in desired :: desired[id].entry == 0)
      && IsPlan(w.entries, desired, invalid, w.generation, plan)
    case Add(id, entry) => w.phase.Registering? && id in w.phase.plan.added && id !in w.phase.done && entry > w.engine.last
    case Refuse => w.phase.Registering? && w.phase.done != w.phase.plan.added.Keys
    case Undo(entry) => w.phase.Undoing? && entry in w.phase.left
    case Publish => w.phase.Registering? && w.phase.done == w.phase.plan.added.Keys
    case Remove(entry) => w.phase.Removing? && entry in w.phase.gone
    case Return => (w.phase.Undoing? && w.phase.left == {}) || (w.phase.Removing? && w.phase.gone == {})
    case Fire(entry) => entry in w.engine.ever
    case Finish(callback) => callback in w.inFlight
    case Close => w.phase.Idle? && w.closing.Open?
    case CloseReturns => w.closing.Draining? && w.inFlight == multiset{}
  }

  function NewEntries(added: map<int, Scheduled>, done: set<int>): set<nat> {
    set id | id in added && id in done :: added[id].entry
  }

  ghost function Apply(w: World, s: Step): World
    requires Enabled(w, s)
  {
    match s
    case Begin(desired, invalid, plan) =>
      w.(generation := plan.generation, phase := Registering(plan, plan.added, {}, w.engine.live, w.engine.last))
    case Add(id, entry) =>
      var want := w.phase.plan.added[id];
      var callback := Callback(id, want.revision, want.generation);
      w.(engine := Engine(w.engine.live[entry := callback], entry, w.engine.ever[entry := callback]),
         phase := w.phase.(added := w.phase.added[id := want.(entry := entry)], done := w.phase.done + {id}))
    case Refuse => w.(phase := Undoing(NewEntries(w.phase.added, w.phase.done), w.phase.before))
    case Undo(entry) =>
      w.(engine := w.engine.(live := w.engine.live - {entry}), phase := w.phase.(left := w.phase.left - {entry}))
    case Publish => w.(entries := WithEntries(w.phase.plan.next, w.phase.added), phase := Removing(w.phase.plan.removed))
    case Remove(entry) =>
      w.(engine := w.engine.(live := w.engine.live - {entry}), phase := Removing(w.phase.gone - {entry}))
    case Return => w.(phase := Idle)
    case Fire(entry) => if Claims(w, entry) then w.(inFlight := w.inFlight + multiset{w.engine.ever[entry]}) else w
    case Finish(callback) => w.(inFlight := w.inFlight - multiset{callback})
    case Close => w.(closing := Draining, entries := map[])
    case CloseReturns => w.(closing := Quiet)
  }

  predicate Initial(w: World) {
    w == World(map[], 0, Engine(map[], 0, map[]), Idle, Open, multiset{})
  }

  ghost predicate Run(ws: seq<World>, steps: seq<Step>) {
    && |ws| == |steps| + 1 && Initial(ws[0])
    && (forall k | 0 <= k < |steps| :: Enabled(ws[k], steps[k]) && ws[k + 1] == Apply(ws[k], steps[k]))
  }

  // ---------- The invariant ----------

  /** Entries are never reissued, and no two registrations ever made share a generation. */
  ghost predicate EngineInv(e: Engine, generation: nat) {
    && (forall x | x in e.live :: x in e.ever && e.live[x] == e.ever[x])
    && (forall x | x in e.ever :: 0 < x <= e.last && e.ever[x].generation <= generation)
    && (forall x, y | x in e.ever && y in e.ever && e.ever[x].generation == e.ever[y].generation :: x == y)
  }

  /** Every published entry was registered under its job, revision and generation. */
  ghost predicate Known(entries: map<int, Scheduled>, ever: map<nat, Callback>) {
    forall id | id in entries :: Registers(ever, id, entries[id])
  }

  /** The plan still describes the step from `entries`, and generations not registered yet are unused. */
  ghost predicate RegisteringInv(entries: map<int, Scheduled>, e: Engine, p: Reconciling)
    requires p.Registering?
  {
    && (exists desired, invalid, before :: IsPlan(entries, desired, invalid, before, p.plan))
    && (forall id | id in p.plan.added :: p.plan.added[id].entry == 0)
    && Mirrors(entries, p.before) && p.from <= e.last
    && Filled(p.plan.added, p.added, p.done) && Extends(p.before, p.from, p.added, p.done, e.live)
    && (forall id, x | id in p.plan.added && x in e.ever && e.ever[x].generation == p.plan.added[id].generation ::
          id in p.done && p.added[id].entry == x)
  }

  ghost predicate PhaseInv(entries: map<int, Scheduled>, e: Engine, p: Reconciling) {
    match p
    case Idle => Mirrors(entries, e.live)
    case Registering(_, _, _, _, _) => RegisteringInv(entries, e, p)
    case Undoing(left, original) => Mirrors(entries, original) && e.live - left == original
    case Removing(gone) => Mirrors(entries, e.live - gone)
  }

  ghost predicate Inv(w: World) {
    && EngineInv(w.engine, w.generation)
    && Known(w.entries, w.engine.ever)
    && (w.closing.Open? ==> PhaseInv(w.entries, w.engine, w.phase))
    && (!w.closing.Open? ==> w.phase.Idle? && w.entries == map[])
    && (w.closing.Quiet? ==> w.inFlight == multiset{})
    && (w.phase.Registering? ==> w.phase.plan.generation == w.generation)
  }

  // ---------- Every step keeps it ----------

  lemma BeginKeeps(entries: map<int, Scheduled>, e: Engine, generation: nat, desired: map<int, Scheduled>,
                   invalid: set<int>, plan: Plan)
    requires EngineInv(e, generation) && Known(entries, e.ever) && Mirrors(entries, e.live)
    requires (forall id | id in desired :: desired[id].entry == 0)
    requires IsPlan(entries, desired, invalid, generation, plan)
    ensures EngineInv(e, plan.generation)
    ensures RegisteringInv(entries, e, Registering(plan, plan.added, {}, e.live, e.last))
  {
  }

  lemma AddKeepsEngine(e: Engine, generation: nat, callback: Callback, entry: nat)
    requires EngineInv(e, generation) && entry > e.last && callback.generation <= generation
    requires forall x | x in e.ever :: e.ever[x].generation != callback.generation
    ensures EngineInv(Engine(e.live[entry := callback], entry, e.ever[entry := callback]), generation)
  {
  }

  lemma AddKeeps(entries: map<int, Scheduled>, e: Engine, generation: nat, p: Reconciling, id: int, entry: nat)
    requires EngineInv(e, generation) && Known(entries, e.ever) && p.Registering? && RegisteringInv(entries, e, p)
    requires id in p.plan.added && id !in p.done && entry > e.last
    ensures var want := p.plan.added[id];
            var callback := Callback(id, want.revision, want.generation);
            var e' := Engine(e.live[entry := callback], entry, e.ever[entry := callback]);
            Known(entries, e'.ever)
            && RegisteringInv(entries, e', p.(added := p.added[id := want.(entry := entry)], done := p.done + {id}))
            && want.generation <= p.plan.generation
  {
    ExtendsMore(p.before, p.from, p.added, p.done, e.live, id, entry);
    AddFills(p.plan.added, p.added, p.done, id, entry);
  }

  lemma AddFills(plan: map<int, Scheduled>, added: map<int, Scheduled>, done: set<int>, id: int, entry: nat)
    requires Filled(plan, added, done) && id in plan && id !in done && entry > 0
    ensures Filled(plan, added[id := plan[id].(entry := entry)], done + {id})
    ensures plan[id].entry == 0 ==> added[id] == plan[id]
  {
  }

  lemma RefuseKeeps(before: map<nat, Callback>, last: nat, added: map<int, Scheduled>, done: set<int>,
                    live: map<nat, Callback>)
    requires Extends(before, last, added, done, live)
    ensures live - NewEntries(added, done) == before
  {
    var new_ := NewEntries(added, done);
    forall x | x in live ensures x in new_ <==> x !in before {
      if x !in before {
        assert added[live[x].id].entry in new_;
      }
    }
  }

  lemma PublishKeeps(entries: map<int, Scheduled>, e: Engine, p: Reconciling)
    requires p.Registering? && RegisteringInv(entries, e, p) && Known(entries, e.ever) && p.done == p.plan.added.Keys
    requires forall x | x in e.live :: x in e.ever && e.live[x] == e.ever[x]
    ensures var next := WithEntries(p.plan.next, p.added); Known(next, e.ever) && Mirrors(next, e.live - p.plan.removed)
  {
    var desired, invalid, before :| IsPlan(entries, desired, invalid, before, p.plan);
    PublishMirrors(entries, desired, invalid, before, p.plan, p.added, p.before, p.from, e.live);
    KnownAfter(WithEntries(p.plan.next, p.added), e.live, p.plan.removed, e.ever);
  }

  lemma KnownAfter(next: map<int, Scheduled>, live: map<nat, Callback>, gone: set<nat>, ever: map<nat, Callback>)
    requires Mirrors(next, live - gone) && forall x | x in live :: x in ever && live[x] == ever[x]
    ensures Known(next, ever)
  {
  }

  lemma RemoveKeeps(e: Engine, generation: nat, gone: set<nat>, entry: nat)
    requires EngineInv(e, generation) && entry in gone
    ensures EngineInv(e.(live := e.live - {entry}), generation)
    ensures (e.live - {entry}) - (gone - {entry}) == e.live - gone
  {
  }

  lemma StepKeeps(w: World, s: Step)
    requires Inv(w) && Enabled(w, s)
    ensures Inv(Apply(w, s))
  {
    match s {
      case Begin(desired, invalid, plan) => BeginKeeps(w.entries, w.engine, w.generation, desired, invalid, plan);
      case Add(id, entry) =>
        var want := w.phase.plan.added[id];
        AddKeeps(w.entries, w.engine, w.generation, w.phase, id, entry);
        AddKeepsEngine(w.engine, w.generation, Callback(id, want.revision, want.generation), entry);
      case Refuse => RefuseKeeps(w.phase.before, w.phase.from, w.phase.added, w.phase.done, w.engine.live);
      case Undo(entry) => RemoveKeeps(w.engine, w.generation, w.phase.left, entry);
      case Publish => PublishKeeps(w.entries, w.engine, w.phase);
      case Remove(entry) => RemoveKeeps(w.engine, w.generation, w.phase.gone, entry);
      case Return => assert w.engine.live - {} == w.engine.live;
      case Fire(entry) =>
      case Finish(callback) =>
      case Close =>
      case CloseReturns =>
    }
  }

  lemma {:induction false} AlwaysInv(ws: seq<World>, steps: seq<Step>, k: nat)
    requires Run(ws, steps) && k < |ws|
    ensures Inv(ws[k])
  {
    if k > 0 {
      AlwaysInv(ws, steps, k - 1);
      StepKeeps(ws[k - 1], steps[k - 1]);
    }
  }

  // ---------- What follows ----------

  /**
   A fired callback goes on to start a run exactly when the scheduler is open and the registration
   it was fired from is the one published for its job: not one registered but not yet published,
   nor one replaced, removed or rolled back. It then carries the published revision.
   */
  lemma OnlyPublishedFire(ws: seq<World>, steps: seq<Step>, k: nat, entry: nat)
    requires Run(ws, steps) && k < |steps| && steps[k] == Fire(entry)
    ensures var w := ws[k]; var callback := w.engine.ever[entry];
            Claims(w, entry) <==> w.closing.Open? && callback.id in w.entries && w.entries[callback.id].entry == entry
    ensures Claims(ws[k], entry) ==>
              entry in ws[k].engine.live && ws[k].entries[ws[k].engine.ever[entry].id].revision == ws[k].engine.ever[entry].revision
  {
    AlwaysInv(ws, steps, k);
    var w := ws[k];
    var callback := w.engine.ever[entry];
    if w.closing.Open? && callback.id in w.entries {
      PublishedAreLive(w.entries, w.engine, w.phase);
      assert Registers(w.engine.ever, callback.id, w.entries[callback.id]);
    }
  }

  /** Published registrations stay in the engine all through a reconciliation. */
  lemma PublishedAreLive(entries: map<int, Scheduled>, e: Engine, p: Reconciling)
    requires PhaseInv(entries, e, p)
    ensures forall id | id in entries :: Registers(e.live, id, entries[id])
  {
    forall id | id in entries ensures Registers(e.live, id, entries[id]) {
      if p.Registering? {
        assert Registers(p.before, id, entries[id]);
      }
    }
  }

  /** Between reconciliations the engine's live entries are exactly the published registrations. */
  lemma IdleMirrors(ws: seq<World>, steps: seq<Step>, k: nat)
    requires Run(ws, steps) && k < |ws| && ws[k].phase.Idle? && ws[k].closing.Open?
    ensures Mirrors(ws[k].entries, ws[k].engine.live)
  {
    AlwaysInv(ws, steps, k);
  }

  /** Until it publishes, a reconciliation that began with these entries and live registrations can go back to them. */
  ghost predicate Restorable(w: World, entries: map<int, Scheduled>, live: map<nat, Callback>) {
    match w.phase
    case Idle => w.entries == entries && w.engine.live == live
    case Registering(_, _, _, before, _) => w.entries == entries && before == live
    case Undoing(_, original) => w.entries == entries && original == live
    case Removing(_) => true
  }

  lemma RestorableKeeps(w: World, s: Step, entries: map<int, Scheduled>, live: map<nat, Callback>)
    requires Inv(w) && Enabled(w, s) && Restorable(w, entries, live)
    requires w.phase.Idle? ==> s.Begin?
    ensures !w.phase.Removing? ==> Restorable(Apply(w, s), entries, live)
  {
    if w.phase.Undoing? && s.Return? {
      assert w.engine.live - {} == w.engine.live;
    }
  }

  /** A refused reconciliation returns with entries and engine as they were when it began. */
  lemma {:induction false} RefusedRestores(ws: seq<World>, steps: seq<Step>, i: nat, k: nat)
    requires Run(ws, steps) && i < k < |ws| && steps[i].Begin?
    requires forall j | i < j < k :: !ws[j].phase.Idle? && !ws[j].phase.Removing?
    ensures Restorable(ws[k], ws[i].entries, ws[i].engine.live)
    decreases k
  {
    AlwaysInv(ws, steps, k - 1);
    if k > i + 1 {
      RefusedRestores(ws, steps, i, k - 1);
    }
    RestorableKeeps(ws[k - 1], steps[k - 1], ws[i].entries, ws[i].engine.live);
  }

  /** Once Close has returned, no start is in flight and no callback begins one, ever again. */
  lemma {:induction false} QuietForGood(ws: seq<World>, steps: seq<Step>, k: nat, j: nat, entry: nat)
    requires Run(ws, steps) && k <= j < |ws| && ws[k].closing.Quiet?
    ensures ws[j].closing.Quiet? && ws[j].inFlight == multiset{} && !Claims(ws[j], entry)
    decreases j
  {
    AlwaysInv(ws, steps, j);
    if j > k {
      QuietForGood(ws, steps, k, j - 1, entry);
    }
  }
}
