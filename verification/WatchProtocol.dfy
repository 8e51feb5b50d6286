/**
 The watch manager among its goroutines: reconciling one handle at a time, reports, signals that
 arm debounce timers, timers firing into callbacks, stopping, and closing. Reconcile and Close
 exclude each other; everything else may happen in between. Stopping a nil handle crashes the call
 that does it; the manager goes on with whatever that call has left.
 */
module WatchProtocol {
  import opened WatchPlans

  /** A handle's private state: its context, and whether its debounce timer is armed. */
  datatype Watcher = Watcher(id: int, spec: WatchSpec, canceled: bool, armed: bool)

  datatype Phase =
    | Idle
    | Preparing(desired: map<int, WatchSpec>, invalid: set<int>, create: map<int, Handle>, ready: set<int>,
                sooner: set<int>, from: nat)
    | Stopping(left: set<nat>, nils: bool)

  /** `Broken`: Close crashed, and did not wait for the callbacks. */
  datatype Closing = Open | Draining | Quiet | Broken

  /** Handles with a goroutine past the check of a signal, past a timer's firing, or inside a claimed start. */
  datatype Moving = Moving(signals: multiset<nat>, firing: multiset<nat>, inFlight: multiset<nat>)

  datatype World = World(active: map<int, Slot>, health: Health, watchers: map<nat, Watcher>, last: nat,
                         closing: Closing, phase: Phase, moving: Moving)

  datatype Step =
    | Begin(wanted: map<int, WatchSpec>, bad: set<int>, made: map<int, Handle>, to: nat)
    | OpenHandle(id: int)
    | Refuse(id: int)
    | Publish
    | Cancel(g: nat)
    | StopTimer(g: nat)
    | Return
    | Dereference
    | Reports(report: Report)
    | Signal(g: nat)
    | Arm(g: nat)
    | TimerFires(g: nat)
    | Fire(g: nat)
    | Finish(g: nat)
    | Close
    | CloseReturns

  /** The check made by a signal and again by a fired timer. */
  predicate Current(w: World, g: nat) {
    && w.closing.Open? && g in w.watchers
    && Holds(w.active, w.watchers[g].id, g) && w.watchers[g].id !in w.health.degraded
  }

  /** Handles are stopped one after the other, so that none is half stopped when the next turns out nil. */
  predicate NoneHalfStopped(watchers: map<nat, Watcher>, left: set<nat>) {
    forall g | g in left && g in watchers && watchers[g].canceled :: !watchers[g].armed
  }

  ghost predicate HasNil(active: map<int, Slot>) { exists id :: id in active && active[id].Nil? }

  /** A nil handle is among those that a publication replaces. */
  ghost predicate NilRetired(active: map<int, Slot>, p: Phase)
    requires p.Preparing?
  {
    exists id :: id in active && active[id].Nil? && Retires(id, active, p.desired, p.invalid, p.create)
  }

  ghost predicate Enabled(w: World, s: Step) {
    match s
    case Begin(wanted, bad, made, to) =>
      w.phase.Idle? && w.closing.Open? && IsCreation(wanted.Keys, w.active, w.health.degraded, wanted, w.last, made, to)
    case OpenHandle(id) => w.phase.Preparing? && id in w.phase.create && id !in w.phase.ready
    case Refuse(id) => w.phase.Preparing? && id in w.phase.create && id !in w.phase.ready
    case Publish => w.phase.Preparing? && w.phase.ready == w.phase.create.Keys
    case Cancel(g) => w.phase.Stopping? && g in w.phase.left && g in w.watchers
    case StopTimer(g) => w.phase.Stopping? && g in w.phase.left && g in w.watchers && w.watchers[g].canceled
    case Return => w.phase.Stopping? && w.phase.left == {} && !w.phase.nils
    case Dereference => w.phase.Stopping? && w.phase.nils && NoneHalfStopped(w.watchers, w.phase.left)
    case Reports(_) => w.closing.Open?
    case Signal(g) => g in w.watchers
    case Arm(g) => g in w.moving.signals && g in w.watchers
    case TimerFires(g) => g in w.watchers && w.watchers[g].armed
    case Fire(g) => g in w.moving.firing
    case Finish(g) => g in w.moving.inFlight
    case Close => w.phase.Idle? && w.closing.Open?
    case CloseReturns => w.closing.Draining? && w.phase.Idle? && w.moving.inFlight == multiset{}
  }

  ghost function Apply(w: World, s: Step): World
    requires Enabled(w, s)
  {
    match s
    case Begin(wanted, bad, made, to) => w.(last := to, phase := Preparing(wanted, bad, made, {}, w.health.degraded, w.last))
    case OpenHandle(id) =>
      var h := w.phase.create[id];
      w.(watchers := w.watchers[h.generation := Watcher(id, h.spec, false, false)],
         phase := w.phase.(ready := w.phase.ready + {id}))
    case Refuse(id) =>
      w.(health := w.health.(errors := w.health.errors[id := CannotPrepare]),
         phase := Stopping(Generations(w.phase.create, w.phase.ready), false))
    case Publish =>
      var p := w.phase;
      w.(active := NextActive(w.active, w.health.degraded, p.desired, p.invalid, p.create),
         health := AfterPublish(w.health, p.desired.Keys, p.invalid),
         phase := Stopping(Retired(w.active, p.desired, p.invalid, p.create, w.active.Keys), NilRetired(w.active, p)))
    case Cancel(g) => w.(watchers := w.watchers[g := w.watchers[g].(canceled := true)])
    case StopTimer(g) =>
      w.(watchers := w.watchers[g := w.watchers[g].(armed := false)], phase := w.phase.(left := w.phase.left - {g}))
    case Return => w.(phase := Idle)
    case Dereference => w.(phase := Idle, closing := if w.closing.Draining? then Broken else w.closing)
    case Reports(report) => w.(health := React(w.active, w.health, report))
    case Signal(g) => if Current(w, g) then w.(moving := w.moving.(signals := w.moving.signals + multiset{g})) else w
    case Arm(g) =>
      w.(moving := w.moving.(signals := w.moving.signals - multiset{g}),
         watchers := if w.watchers[g].canceled then w.watchers else w.watchers[g := w.watchers[g].(armed := true)])
    case TimerFires(g) =>
      w.(watchers := w.watchers[g := w.watchers[g].(armed := false)],
         moving := w.moving.(firing := w.moving.firing + multiset{g}))
    case Fire(g) =>
      w.(moving := w.moving.(firing := w.moving.firing - multiset{g},
                             inFlight := if Current(w, g) then w.moving.inFlight + multiset{g} else w.moving.inFlight))
    case Finish(g) => w.(moving := w.moving.(inFlight := w.moving.inFlight - multiset{g}))
    case Close => w.(closing := Draining, active := map[], phase := Stopping(Published(w.active), HasNil(w.active)))
    case CloseReturns => w.(closing := Quiet)
  }

  predicate Initial(w: World) {
    w == World(map[], Health({}, map[]), map[], 0, Open, Idle, Moving(multiset{}, multiset{}, multiset{}))
  }

  ghost predicate Run(ws: seq<World>, steps: seq<Step>) {
    && |ws| == |steps| + 1 && Initial(ws[0])
    && (forall k | 0 <= k < |steps| :: Enabled(ws[k], steps[k]) && ws[k + 1] == Apply(ws[k], steps[k]))
  }

  // ---------- What every run keeps ----------

  /** A published handle is one that was ready, under its own job and specification. */
  ghost predicate KnownSlots(active: map<int, Slot>, watchers: map<nat, Watcher>) {
    forall id | id in active && active[id].Is? ::
      var h := active[id].handle;
      h.generation in watchers && watchers[h.generation].id == id && watchers[h.generation].spec == h.spec
  }

  /** Handles in preparation have numbers of their own. */
  ghost predicate KnownCreation(create: map<int, Handle>, ready: set<int>, watchers: map<nat, Watcher>, last: nat) {
    && ready <= create.Keys
    && (forall id | id in create :: create[id].generation <= last)
    && (forall x, y | x in create && y in create && x != y :: create[x].generation != create[y].generation)
    && (forall id | id in create :: create[id].generation in watchers <==> id in ready)
    && (forall id | id in ready :: watchers[create[id].generation].id == id && watchers[create[id].generation].spec == create[id].spec)
  }

  ghost predicate Planned(active: map<int, Slot>, p: Phase, last: nat)
    requires p.Preparing?
  {
    IsCreation(p.desired.Keys, active, p.sooner, p.desired, p.from, p.create, last)
  }

  /** A handle that was stopped, and not just told to stop, has no armed timer. */
  ghost predicate TimersStopped(watchers: map<nat, Watcher>, phase: Phase) {
    forall g | g in watchers && watchers[g].canceled && watchers[g].armed :: phase.Stopping? && g in phase.left
  }

  ghost predicate Inv(w: World) {
    && (forall g | g in w.watchers :: g <= w.last)
    && KnownSlots(w.active, w.watchers)
    && (w.phase.Preparing? ==> KnownCreation(w.phase.create, w.phase.ready, w.watchers, w.last)
                               && Planned(w.active, w.phase, w.last))
    && TimersStopped(w.watchers, w.phase)
    && (!w.closing.Open? ==> w.active == map[] && !w.phase.Preparing?)
    && (w.closing.Quiet? ==> w.moving.inFlight == multiset{} && w.phase.Idle?)
  }

  lemma PublishKnown(active: map<int, Slot>, degraded: set<int>, desired: map<int, WatchSpec>, invalid: set<int>,
                     create: map<int, Handle>, watchers: map<nat, Watcher>, last: nat)
    requires KnownSlots(active, watchers) && KnownCreation(create, create.Keys, watchers, last)
    ensures KnownSlots(NextActive(active, degraded, desired, invalid, create), watchers)
  {
  }

  lemma OpenKnown(active: map<int, Slot>, create: map<int, Handle>, ready: set<int>, watchers: map<nat, Watcher>,
                  last: nat, id: int)
    requires KnownSlots(active, watchers) && KnownCreation(create, ready, watchers, last) && id in create
    requires id !in ready
    ensures var watchers' := watchers[create[id].generation := Watcher(id, create[id].spec, false, false)];
            KnownSlots(active, watchers') && KnownCreation(create, ready + {id}, watchers', last)
  {
  }

  lemma ReconcilingKeeps(w: World, s: Step)
    requires Inv(w) && Enabled(w, s) && (s.Begin? || s.OpenHandle? || s.Refuse? || s.Publish? || s.Return?)
    ensures Inv(Apply(w, s))
  {
    match s {
      case OpenHandle(id) => OpenKnown(w.active, w.phase.create, w.phase.ready, w.watchers, w.last, id);
      case Publish =>
        PublishKnown(w.active, w.health.degraded, w.phase.desired, w.phase.invalid, w.phase.create, w.watchers, w.last);
      case _ =>
    }
  }

  lemma StoppingKeeps(w: World, s: Step)
    requires Inv(w) && Enabled(w, s) && (s.Cancel? || s.StopTimer? || s.Dereference? || s.Close? || s.CloseReturns?)
    ensures Inv(Apply(w, s))
  {
  }

  lemma MovingKeeps(w: World, s: Step)
    requires Inv(w) && Enabled(w, s) && (s.Reports? || s.Signal? || s.Arm? || s.TimerFires? || s.Fire? || s.Finish?)
    ensures Inv(Apply(w, s))
  {
  }

  lemma {:induction false} AlwaysInv(ws: seq<World>, steps: seq<Step>, k: nat)
    requires Run(ws, steps) && k < |ws|
    ensures Inv(ws[k])
  {
    if k > 0 {
      var w, s := ws[k - 1], steps[k - 1];
      AlwaysInv(ws, steps, k - 1);
      if s.Begin? || s.OpenHandle? || s.Refuse? || s.Publish? || s.Return? {
        ReconcilingKeeps(w, s);
      } else if s.Cancel? || s.StopTimer? || s.Dereference? || s.Close? || s.CloseReturns? {
        StoppingKeeps(w, s);
      } else {
        MovingKeeps(w, s);
      }
    }
  }

  // ---------- What follows for every run ----------

  /** A fired timer starts a run only for the handle published for its job, with that handle's revision, and not while degraded. */
  lemma OnlyPublishedFire(ws: seq<World>, steps: seq<Step>, k: nat, g: nat)
    requires Run(ws, steps) && k < |steps| && steps[k] == Fire(g)
    requires ws[k + 1].moving.inFlight != ws[k].moving.inFlight
    ensures var w := ws[k];
            g in w.watchers && var id := w.watchers[g].id;
            && w.closing.Open? && id !in w.health.degraded && id in w.active && w.active[id].Is?
            && w.active[id].handle.generation == g && w.active[id].handle.spec.revision == w.watchers[g].spec.revision
  {
    AlwaysInv(ws, steps, k);
  }

  predicate Stopped(w: World, g: nat) { g in w.watchers && w.watchers[g].canceled && !w.watchers[g].armed }

  lemma StoppedStays(w: World, s: Step, g: nat)
    requires Inv(w) && Enabled(w, s) && Stopped(w, g)
    ensures Stopped(Apply(w, s), g)
  {
  }

  /** A handle that was stopped is never armed again. */
  lemma {:induction false} StoppedForGood(ws: seq<World>, steps: seq<Step>, k: nat, j: nat, g: nat)
    requires Run(ws, steps) && k <= j < |ws| && Stopped(ws[k], g)
    ensures Stopped(ws[j], g)
    decreases j
  {
    if j > k {
      StoppedForGood(ws, steps, k, j - 1, g);
      AlwaysInv(ws, steps, j - 1);
      StoppedStays(ws[j - 1], steps[j - 1], g);
    }
  }

  /**
   The nil handles that are dereferenced: at a publication, exactly those of jobs that are not invalid;
   at Close, all of them. The call that is to stop one of them does not return.
   */
  lemma DereferencedExactly(ws: seq<World>, steps: seq<Step>, k: nat)
    requires Run(ws, steps) && k < |steps|
    ensures steps[k].Publish? ==>
              (ws[k + 1].phase.nils
               <==> exists id :: id in ws[k].active && ws[k].active[id].Nil? && id !in ws[k].phase.invalid)
    ensures steps[k].Close? ==> (ws[k + 1].phase.nils <==> exists id :: id in ws[k].active && ws[k].active[id].Nil?)
    ensures steps[k].Return? ==> !ws[k].phase.nils
  {
    AlwaysInv(ws, steps, k);
    if steps[k].Publish? {
      var w, p := ws[k], ws[k].phase;
      forall id | id in w.active && w.active[id].Nil?
        ensures Retires(id, w.active, p.desired, p.invalid, p.create) <==> id !in p.invalid
      {
        NilRetires(w.active, p.desired, p.invalid, p.create, p.sooner, p.from, w.last, id);
      }
    }
  }

  /** Once Close has begun, no callback begins a start, whether or not Close crashes. */
  lemma {:induction false} NoneBegins(ws: seq<World>, steps: seq<Step>, k: nat, j: nat, g: nat)
    requires Run(ws, steps) && k <= j < |ws| && !ws[k].closing.Open?
    ensures !ws[j].closing.Open? && !Current(ws[j], g)
    decreases j
  {
    if j > k {
      NoneBegins(ws, steps, k, j - 1, g);
    }
  }

  /** Once Close has returned, no start is in flight and none can begin. */
  lemma {:induction false} QuietForGood(ws: seq<World>, steps: seq<Step>, k: nat, j: nat, g: nat)
    requires Run(ws, steps) && k <= j < |ws| && ws[k].closing.Quiet?
    ensures ws[j].closing.Quiet? && ws[j].moving.inFlight == multiset{} && !Current(ws[j], g)
    decreases j
  {
    AlwaysInv(ws, steps, j);
    if j > k {
      QuietForGood(ws, steps, k, j - 1, g);
    }
  }

  // ---------- A run that publishes a nil handle ----------

  lemma Then(ws: seq<World>, steps: seq<Step>, s: Step) returns (ws': seq<World>, steps': seq<Step>)
    requires Run(ws, steps) && Enabled(ws[|steps|], s)
    ensures Run(ws', steps') && ws'[|steps'|] == Apply(ws[|steps|], s)
  {
    ws', steps' := ws + [Apply(ws[|steps|], s)], steps + [s];
  }

  /** Open and idle, with nothing moving and no error. */
  function Calm(active: map<int, Slot>, watchers: map<nat, Watcher>, last: nat): World {
    World(active, Health({}, map[]), watchers, last, Open, Idle, Moving(multiset{}, multiset{}, multiset{}))
  }

  function Watched(spec: WatchSpec): World {
    Calm(map[1 := Is(Handle(1, spec))], map[1 := Watcher(1, spec, false, false)], 1)
  }

  /** A first reconciliation watches a job. */
  lemma WatchRun(spec: WatchSpec) returns (ws: seq<World>, steps: seq<Step>)
    ensures Run(ws, steps) && ws[|steps|] == Watched(spec)
  {
    var desired, first := map[1 := spec], map[1 := Handle(1, spec)];
    FallingHappens(spec);
    ws, steps := [Calm(map[], map[], 0)], [];
    ws, steps := Then(ws, steps, Begin(desired, {}, first, 1));
    ws, steps := Then(ws, steps, OpenHandle(1));
    assert ws[|steps|].phase.ready == first.Keys;
    ws, steps := Then(ws, steps, Publish);
    assert ws[|steps|].active == map[1 := Is(Handle(1, spec))];
    assert ws[|steps|].phase == Stopping({}, false) && ws[|steps|].health.degraded == {};
    ws, steps := Then(ws, steps, Return);
  }

  /** Reconciling the same job again creates nothing, and its handle is degraded meanwhile. */
  lemma DegradeRun(spec: WatchSpec) returns (ws: seq<World>, steps: seq<Step>)
    ensures Run(ws, steps)
    ensures ws[|steps|] == Watched(spec).(health := Health({1}, map[1 := Lost]),
                                          phase := Preparing(map[1 := spec], {}, map[], {}, {}, 1))
  {
    FallingHappens(spec);
    ws, steps := WatchRun(spec);
    ws, steps := Then(ws, steps, Begin(map[1 := spec], {}, map[], 1));
    ws, steps := Then(ws, steps, Reports(Degrade(1, 1, Lost)));
    assert ws[|steps|].health == Health({1}, map[1 := Lost]);
  }

  /**
   The job is left with a nil handle, its former one runs on, and the manager is idle, open and shows
   the job as healthy.
   */
  lemma NilRun(spec: WatchSpec) returns (ws: seq<World>, steps: seq<Step>)
    ensures Run(ws, steps) && ws[|steps|] == Calm(map[1 := Nil], map[1 := Watcher(1, spec, false, false)], 1)
  {
    ws, steps := DegradeRun(spec);
    ws, steps := Then(ws, steps, Publish);
    assert ws[|steps|].active == map[1 := Nil] && ws[|steps|].phase == Stopping({}, false);
    assert ws[|steps|].health == Health({}, map[]);
    ws, steps := Then(ws, steps, Return);
  }

  // ---------- Runs in which no job falls between the sections of a reconciliation ----------

  ghost predicate Clean(w: World, s: Step)
    requires Enabled(w, s)
  {
    s.Publish? ==>
      var p := w.phase;
      forall id :: !FallsBetween(id, w.active, w.health.degraded, p.desired, p.invalid, p.create)
                   && !Orphaned(id, w.active, p.invalid, p.create)
  }

  ghost predicate CleanRun(ws: seq<World>, steps: seq<Step>) {
    Run(ws, steps) && forall k | 0 <= k < |steps| :: Clean(ws[k], steps[k])
  }

  /** The handles that run and are not about to be stopped, with their jobs. */
  function Kept(watchers: map<nat, Watcher>, left: set<nat>): map<nat, int> {
    map g | g in watchers && !watchers[g].canceled && g !in left :: watchers[g].id
  }

  ghost predicate TidyPreparing(active: map<int, Slot>, watchers: map<nat, Watcher>, p: Phase, last: nat)
    requires p.Preparing?
  {
    && OwnedWith(active, p.create, p.ready, Kept(watchers, {}))
    && Planned(active, p, last)
    && (forall id | id in active && active[id].Is? :: active[id].handle.generation <= p.from)
  }

  ghost predicate Tidy(w: World) {
    match w.phase
    case Idle => Owned(w.active, Kept(w.watchers, {}))
    case Preparing(_, _, _, _, _, _) => TidyPreparing(w.active, w.watchers, w.phase, w.last)
    case Stopping(left, nils) => Owned(w.active, Kept(w.watchers, left)) && left <= w.watchers.Keys && !nils
  }

  lemma BeginTidy(w: World, s: Step)
    requires Inv(w) && Tidy(w) && Enabled(w, s) && s.Begin?
    ensures Tidy(Apply(w, s))
  {
  }

  lemma OpenTidy(active: map<int, Slot>, watchers: map<nat, Watcher>, p: Phase, last: nat, id: int)
    requires p.Preparing? && TidyPreparing(active, watchers, p, last)
    requires KnownCreation(p.create, p.ready, watchers, last)
    requires id in p.create && id !in p.ready
    ensures TidyPreparing(active, watchers[p.create[id].generation := Watcher(id, p.create[id].spec, false, false)],
                          p.(ready := p.ready + {id}), last)
  {
    var g := p.create[id].generation;
    var watchers' := watchers[g := Watcher(id, p.create[id].spec, false, false)];
    CreatedIsOpen(active, p.create, p.ready, Kept(watchers, {}), id);
    assert Kept(watchers', {}) == Kept(watchers, {})[g := id];
  }

  lemma RefuseTidy(active: map<int, Slot>, watchers: map<nat, Watcher>, p: Phase, last: nat)
    requires p.Preparing? && TidyPreparing(active, watchers, p, last)
    ensures Owned(active, Kept(watchers, Generations(p.create, p.ready)))
  {
    var gone := Generations(p.create, p.ready);
    var open, kept := Kept(watchers, {}), Kept(watchers, gone);
    forall g | g in kept ensures Holds(active, kept[g], g) {
      assert g in open && open[g] == kept[g];
    }
    forall id | id in active ensures active[id].Is? && active[id].handle.generation in kept && kept[active[id].handle.generation] == id {
      assert active[id].handle.generation in open;
    }
  }

  lemma PublishTidy(active: map<int, Slot>, degraded: set<int>, watchers: map<nat, Watcher>, p: Phase, last: nat)
    requires p.Preparing? && TidyPreparing(active, watchers, p, last) && p.ready == p.create.Keys
    requires forall id :: !FallsBetween(id, active, degraded, p.desired, p.invalid, p.create) && !Orphaned(id, active, p.invalid, p.create)
    ensures var gone := Retired(active, p.desired, p.invalid, p.create, active.Keys);
            Owned(NextActive(active, degraded, p.desired, p.invalid, p.create), Kept(watchers, gone)) && gone <= watchers.Keys
  {
    PublishOwns(active, degraded, p.desired, p.invalid, p.create, p.sooner, p.from, last, Kept(watchers, {}));
    var gone := Retired(active, p.desired, p.invalid, p.create, active.Keys);
    assert Kept(watchers, {}) - gone == Kept(watchers, gone);
  }

  lemma NoNilWhenOwned(active: map<int, Slot>, p: Phase, open: map<nat, int>)
    requires p.Preparing? && OwnedWith(active, p.create, p.ready, open)
    ensures !NilRetired(active, p)
  {
  }

  lemma StopTidy(watchers: map<nat, Watcher>, left: set<nat>, g: nat)
    requires g in left && g in watchers
    ensures Kept(watchers[g := watchers[g].(canceled := true)], left) == Kept(watchers, left)
    ensures watchers[g].canceled ==> Kept(watchers[g := watchers[g].(armed := false)], left - {g}) == Kept(watchers, left)
  {
  }

  lemma TimerTidy(watchers: map<nat, Watcher>, left: set<nat>, g: nat, armed: bool)
    requires g in watchers
    ensures Kept(watchers[g := watchers[g].(armed := armed)], left) == Kept(watchers, left)
  {
  }

  lemma CloseTidy(active: map<int, Slot>, watchers: map<nat, Watcher>)
    requires Owned(active, Kept(watchers, {}))
    ensures Owned(map[], Kept(watchers, Published(active))) && Published(active) <= watchers.Keys
  {
    var open := Kept(watchers, {});
    forall g | g in open ensures g in Published(active) {
      assert Holds(active, open[g], g);
    }
    forall g | g in Published(active) ensures g in watchers {
      assert g in open;
    }
  }

  lemma StepTidy(w: World, s: Step)
    requires Inv(w) && Tidy(w) && Enabled(w, s) && Clean(w, s)
    ensures Tidy(Apply(w, s))
  {
    var left := if w.phase.Stopping? then w.phase.left else {};
    match s {
      case Begin(_, _, _, _) => BeginTidy(w, s);
      case OpenHandle(id) => OpenTidy(w.active, w.watchers, w.phase, w.last, id);
      case Refuse(_) => RefuseTidy(w.active, w.watchers, w.phase, w.last);
      case Publish =>
        NoNilWhenOwned(w.active, w.phase, Kept(w.watchers, {}));
        PublishTidy(w.active, w.health.degraded, w.watchers, w.phase, w.last);
      case Cancel(g) => StopTidy(w.watchers, left, g);
      case StopTimer(g) => StopTidy(w.watchers, left, g);
      case Arm(g) => TimerTidy(w.watchers, left, g, true);
      case TimerFires(g) => TimerTidy(w.watchers, left, g, false);
      case Close => CloseTidy(w.active, w.watchers);
      case _ =>
    }
  }

  lemma {:induction false} AlwaysTidy(ws: seq<World>, steps: seq<Step>, k: nat)
    requires CleanRun(ws, steps) && k < |ws|
    ensures Tidy(ws[k])
  {
    if k > 0 {
      AlwaysTidy(ws, steps, k - 1);
      AlwaysInv(ws, steps, k - 1);
      StepTidy(ws[k - 1], steps[k - 1]);
    }
  }

  /** Between reconciliations, the handles not told to stop are exactly the published ones: none is lost. */
  lemma NoHandleLost(ws: seq<World>, steps: seq<Step>, k: nat, g: nat)
    requires CleanRun(ws, steps) && k < |ws| && ws[k].phase.Idle? && g in ws[k].watchers
    ensures !ws[k].watchers[g].canceled <==> Holds(ws[k].active, ws[k].watchers[g].id, g)
  {
    AlwaysTidy(ws, steps, k);
    AlwaysInv(ws, steps, k);
    var w := ws[k];
    if !w.watchers[g].canceled {
      assert g in Kept(w.watchers, {});
    }
  }

  /** After Close has returned, every handle ever opened has been told to stop and has no timer armed. */
  lemma AllStopped(ws: seq<World>, steps: seq<Step>, k: nat, g: nat)
    requires CleanRun(ws, steps) && k < |ws| && ws[k].closing.Quiet? && g in ws[k].watchers
    ensures Stopped(ws[k], g)
  {
    AlwaysInv(ws, steps, k);
    NoHandleLost(ws, steps, k, g);
  }
}
