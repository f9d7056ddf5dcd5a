/** The two threads of the DVL system interleaved: what every run keeps. */
module DvlThreads {
  import opened DvlRequests

  /** Where OnPreRender, OnRender and OnPostRender are. */
  datatype Phase = Idle | Draining | Handling | Prepared | RenderDone

  /** `raising`: the simulation thread is between inserting a batch and setting the flag. */
  datatype State = State(
    sim: Simulation, raising: bool,
    queued: seq<Request>, pending: bool,
    phase: Phase, batch: seq<Request>, ren: Rendering)

  datatype Entry = Did(request: Request, outcome: Outcome) | Teardown

  /** The state with what is known from outside: which sensors have kinematic components,
      which were ever found, all requests ever made, and what was handled. */
  datatype System = System(
    state: State, tracked: set<Entity>, found: set<Entity>, history: seq<Request>, log: seq<Entry>)

  datatype Event =
    | PreUpdate(found: seq<Entity>)
    | PostUpdate(report: Report)
    | Raise
    | TakeFlag
    | Drain
    | HandleNext(outcome: Outcome)
    | AllHandled
    | Render(ready: bool, fired: seq<SensorId>)
    | PostRender(targets: SensorId -> set<Entity>)
    | TearDown

  predicate Distinct(es: seq<Entity>) { forall i, j :: 0 <= i < j < |es| ==> es[i] != es[j] }

  /** When an event can happen.  A sensor is new once; an entity with kinematic components
      is reported until it is removed; a removed sensor is among the removed custom
      sensors; a new sensor gets an id of its own. */
  ghost predicate Enabled(y: System, e: Event) {
    var s := y.state;
    match e
    case PreUpdate(found) => !s.raising && Distinct(found) && forall x <- found :: x !in y.found
    case PostUpdate(p) =>
      !s.raising && y.tracked <= p.each.Keys && forall x <- p.removed :: x in s.sim.known ==> x in p.gone
    case Raise => s.raising
    case TakeFlag => s.phase == Idle
    case Drain => s.phase == Draining
    case HandleNext(o) => s.phase == Handling && s.batch != [] && (o.Made? ==> o.id !in s.ren.sensors)
    case AllHandled => s.phase == Handling && s.batch == []
    case Render(_, fired) => s.phase == Prepared && forall id <- fired :: id in Ids(s.ren.sensorIdPerEntity)
    case PostRender(_) => s.phase == RenderDone
    case TearDown => s.phase == Idle
  }

  function OnPreUpdate(y: System, found: seq<Entity>): System {
    var s := y.state;
    y.(state := s.(sim := Discovered(s.sim, found, |found|)),
       tracked := y.tracked + (set x | x in found), found := y.found + (set x | x in found),
       history := y.history + Creations(found, |found|))
  }

  /** DoPostUpdate up to the end of its lock. */
  function OnPostUpdate(y: System, p: Report): System {
    var s := y.state;
    var m, asked := Collected(s.sim, p), Destructions(s.sim.known, p.gone, |p.gone|);
    if Flushes(m, p) then
      y.(state := s.(sim := m.(perStep := []), queued := s.queued + Batch(m), raising := true),
         tracked := y.tracked - p.removed, history := y.history + asked + [SetWorldState(m.world)])
    else
      y.(state := s.(sim := m), tracked := y.tracked - p.removed, history := y.history + asked)
  }

  function OnHandleNext(y: System, o: Outcome): System
    requires y.state.batch != []
  {
    var s := y.state;
    y.(state := s.(ren := Handled(s.ren, s.batch[0], o), batch := s.batch[1..]), log := y.log + [Did(s.batch[0], o)])
  }

  function OnRender(s: State, ready: bool, fired: seq<SensorId>): State {
    s.(phase := RenderDone, ren := Rendered(s.ren, ready, fired))
  }

  function OnPostRender(s: State, targets: SensorId -> set<Entity>): State {
    s.(phase := Idle, ren := Published(s.ren, targets))
  }

  ghost function Next(y: System, e: Event): System
    requires Enabled(y, e)
  {
    var s := y.state;
    match e
    case PreUpdate(found) => OnPreUpdate(y, found)
    case PostUpdate(p) => OnPostUpdate(y, p)
    case Raise => y.(state := s.(pending := true, raising := false))
    case TakeFlag => y.(state := FlagTaken(s))
    case Drain => Drained(y)
    case HandleNext(o) => OnHandleNext(y, o)
    case AllHandled => y.(state := s.(phase := Prepared))
    case Render(ready, fired) => y.(state := OnRender(s, ready, fired))
    case PostRender(targets) => y.(state := OnPostRender(s, targets))
    case TearDown => y.(state := s.(ren := TornDown(s.ren)), log := y.log + [Teardown])
  }

  // ----- The methods are sequences of steps -----

  /** n turns of the handling loop. */
  function AfterHandling(y: System, outcomes: seq<Outcome>, n: nat): System
    requires n <= |outcomes| == |y.state.batch|
    ensures |AfterHandling(y, outcomes, n).state.batch| == |y.state.batch| - n
  {
    if n == 0 then y else OnHandleNext(AfterHandling(y, outcomes, n - 1), outcomes[n - 1])
  }

  lemma {:induction false} HandlingIsHandledAll(y: System, outcomes: seq<Outcome>, n: nat)
    requires n <= |outcomes| == |y.state.batch|
    ensures var z := AfterHandling(y, outcomes, n);
      z.state == y.state.(ren := HandledAll(y.state.ren, y.state.batch, outcomes, n), batch := y.state.batch[n..])
  {
    if n > 0 {
      HandlingIsHandledAll(y, outcomes, n - 1);
      hide Handled;
    }
  }

  function FlagTaken(s: State): State {
    s.(pending := false, phase := if s.pending then Draining else Prepared)
  }

  function Drained(y: System): System {
    y.(state := y.state.(batch := y.state.queued, queued := [], phase := Handling))
  }

  /** OnPreRender, when nothing comes in between, is taking the flag, draining, and
      handling all there is. */
  lemma PreRenderIsSteps(y: System, outcomes: seq<Outcome>)
    requires y.state.phase == Idle && y.state.pending && |outcomes| == |y.state.queued|
    ensures var z := AfterHandling(Drained(y.(state := FlagTaken(y.state))), outcomes, |outcomes|);
      && z.state.ren == HandledAll(y.state.ren, y.state.queued, outcomes, |outcomes|)
      && z.state.batch == [] == z.state.queued && !z.state.pending && z.state.sim == y.state.sim
  {
    HandlingIsHandledAll(Drained(y.(state := FlagTaken(y.state))), outcomes, |outcomes|);
  }

  /** With the flag down OnPreRender does nothing; and the rendering thread goes round. */
  lemma PhasesGoRound(y: System, e: Event)
    requires Enabled(y, e)
    ensures e == TakeFlag && !y.state.pending ==> Next(y, e) == y.(state := y.state.(phase := Prepared))
    ensures var before, after := y.state.phase, Next(y, e).state.phase;
      && (e == TakeFlag ==> before == Idle && after == if y.state.pending then Draining else Prepared)
      && (e == Drain ==> before == Draining && after == Handling)
      && (e.HandleNext? ==> before == after == Handling && |Next(y, e).state.batch| == |y.state.batch| - 1)
      && (e == AllHandled ==> before == Handling && after == Prepared)
      && (e.Render? ==> before == Prepared && after == RenderDone)
      && (e.PostRender? ==> before == RenderDone && after == Idle)
      && (e.PreUpdate? || e.PostUpdate? || e == Raise || e == TearDown ==> after == before)
    ensures e.Render? ==> Next(y, e).state.ren == Rendered(y.state.ren, e.ready, e.fired)
    ensures e.PostRender? ==> Next(y, e).state.ren == Published(y.state.ren, e.targets)
  {
    hide Handled, Published, Rendered, Collected, Creations, Destructions, TornDown, Ids;
  }

  // ----- What the requests say by themselves -----

  /** The requests of a log, in order. */
  function Requests(log: seq<Entry>): seq<Request> {
    if log == [] then []
    else Requests(log[..|log| - 1]) + if log[|log| - 1].Did? then [log[|log| - 1].request] else []
  }

  /** The sensors created and not destroyed by the first m requests. */
  function KnownAfter(h: seq<Request>, m: nat): set<Entity>
    requires m <= |h|
  {
    if m == 0 then {}
    else
      match h[m - 1]
      case CreateSensor(e) => KnownAfter(h, m - 1) + {e}
      case DestroySensor(e) => KnownAfter(h, m - 1) - {e}
      case SetWorldState(_) => KnownAfter(h, m - 1)
  }

  /** Nothing after a whole sequence of batches is missing its world state. */
  predicate Whole(h: seq<Request>) { h != [] ==> h[|h| - 1].SetWorldState? }

  predicate Ends(x: Entry, e: Entity) { x.Teardown? || x.request == DestroySensor(e) }

  /** The last word of a log on entity e: sensor id was made for it. */
  ghost predicate Live(log: seq<Entry>, e: Entity, id: SensorId) {
    exists j :: 0 <= j < |log| && LiveSince(log, e, id, j)
  }

  ghost predicate LiveSince(log: seq<Entry>, e: Entity, id: SensorId, j: nat)
    requires j < |log|
  {
    log[j] == Did(CreateSensor(e), Made(id)) && forall k :: j < k < |log| ==> !Ends(log[k], e)
  }

  // ----- The invariant -----

  /** No request is lost, doubled or reordered. */
  ghost predicate Conserved(y: System) {
    Requests(y.log) + y.state.batch + y.state.queued + y.state.sim.perStep == y.history
  }

  /** A queued request is not stranded. */
  predicate Signalled(s: State) {
    s.queued != [] ==> s.pending || s.raising || s.phase == Draining
  }

  /** Batches are not split, and each ends with its world state. */
  ghost predicate BatchesWhole(y: System) {
    && Whole(y.state.queued) && Whole(Requests(y.log) + y.state.batch)
    && (y.state.phase != Handling ==> y.state.batch == [])
  }

  /** Every world state in the history holds all sensors known then. */
  ghost predicate SnapshotsCover(h: seq<Request>) {
    forall j :: 0 <= j < |h| && h[j].SetWorldState? ==> KnownAfter(h, j) <= h[j].world.Keys
  }

  ghost predicate CreatedOnce(h: seq<Request>, found: set<Entity>) {
    && (forall i :: 0 <= i < |h| && h[i].CreateSensor? ==> h[i].entity in found)
    && (forall i, j :: 0 <= i < j < |h| && h[i].CreateSensor? && h[j].CreateSensor? ==> h[i] != h[j])
  }

  ghost predicate HistoryOk(h: seq<Request>, found: set<Entity>, known: set<Entity>) {
    SnapshotsCover(h) && CreatedOnce(h, found) && KnownAfter(h, |h|) == known
  }

  /** The index is what the log says. */
  ghost predicate IndexIsReplay(y: System) {
    forall e, id ::
      (e in y.state.ren.sensorIdPerEntity && y.state.ren.sensorIdPerEntity[e] == id) <==> Live(y.log, e, id)
  }

  /** The index and the live sensors belong together one to one. */
  ghost predicate IndexIsSensors(r: Rendering) {
    && (forall e <- r.sensorIdPerEntity ::
         r.sensorIdPerEntity[e] in r.sensors && r.sensors[r.sensorIdPerEntity[e]].entity == e)
    && (forall id <- r.sensors ::
         r.sensors[id].entity in r.sensorIdPerEntity && r.sensorIdPerEntity[r.sensors[id].entity] == id)
  }

  predicate Extends(w: WorldState, base: WorldState) {
    forall e <- base :: e in w && w[e] == base[e]
  }

  /** Outside the handling of a batch every sensor holds the last world state handled. */
  ghost predicate Current(y: System) {
    var h, r := Requests(y.log), y.state.ren;
    y.state.batch == [] && h != [] && h[|h| - 1].SetWorldState? ==>
      forall id <- r.sensors :: Extends(r.sensors[id].world, h[|h| - 1].world)
  }

  ghost predicate UpdatedAreLive(s: State) {
    && (s.phase != RenderDone ==> s.ren.updated == [])
    && (forall id <- s.ren.updated :: id in s.ren.sensors)
  }

  ghost predicate HandOffFits(y: System) { Conserved(y) && Signalled(y.state) && BatchesWhole(y) }

  ghost predicate HistoryFits(y: System) {
    HistoryOk(y.history, y.found, y.state.sim.known) && y.state.sim.known <= y.tracked
  }

  ghost predicate RenderingFits(y: System) {
    IndexIsReplay(y) && IndexIsSensors(y.state.ren) && Current(y) && UpdatedAreLive(y.state)
  }

  ghost predicate Coherent(y: System) { HandOffFits(y) && HistoryFits(y) && RenderingFits(y) }

  ghost predicate Initial(y: System) {
    && y.state == State(Simulation([], {}, map[]), false, [], false, Idle, [], Rendering(map[], map[], [], false))
    && y.tracked == {} && y.found == {} && y.history == [] && y.log == []
  }

  // ----- Requests and histories -----

  lemma RequestsOfMore(log: seq<Entry>, x: Entry)
    ensures Requests(log + [x]) == Requests(log) + if x.Did? then [x.request] else []
  {
    assert (log + [x])[..|log|] == log;
  }

  lemma {:induction false} KnownOfPrefix(h: seq<Request>, more: seq<Request>, m: nat)
    requires m <= |h|
    ensures KnownAfter(h + more, m) == KnownAfter(h, m)
  {
    if m > 0 { KnownOfPrefix(h, more, m - 1); }
  }

  lemma KnownOfOneMore(h: seq<Request>, q: Request)
    ensures KnownAfter(h + [q], |h| + 1) ==
      match q
      case CreateSensor(e) => KnownAfter(h, |h|) + {e}
      case DestroySensor(e) => KnownAfter(h, |h|) - {e}
      case SetWorldState(_) => KnownAfter(h, |h|)
  {
    KnownOfPrefix(h, [q], |h|);
  }

  /** A history stays covered by one more request if a world state holds what is known. */
  lemma OneMoreCovers(h: seq<Request>, q: Request)
    requires SnapshotsCover(h) && (q.SetWorldState? ==> KnownAfter(h, |h|) <= q.world.Keys)
    ensures SnapshotsCover(h + [q])
  {
    forall j | 0 <= j < |h + [q]| && (h + [q])[j].SetWorldState?
      ensures KnownAfter(h + [q], j) <= (h + [q])[j].world.Keys
    {
      KnownOfPrefix(h, [q], j);
    }
  }

  lemma {:induction false} CreationsAdd(h: seq<Request>, found: seq<Entity>, n: nat)
    requires n <= |found| && SnapshotsCover(h)
    ensures var h' := h + Creations(found, n);
      SnapshotsCover(h') && KnownAfter(h', |h'|) == Joined(KnownAfter(h, |h|), found, n)
  {
    if n == 0 {
      assert h + [] == h;
    } else {
      CreationsAdd(h, found, n - 1);
      var b := h + Creations(found, n - 1);
      assert h + Creations(found, n) == b + [CreateSensor(found[n - 1])];
      hide SnapshotsCover, KnownAfter;
      OneMoreCovers(b, CreateSensor(found[n - 1]));
      KnownOfOneMore(b, CreateSensor(found[n - 1]));
    }
  }

  lemma {:induction false} DestructionsAdd(h: seq<Request>, gone: seq<Entity>, n: nat)
    requires n <= |gone| && SnapshotsCover(h)
    ensures var known := KnownAfter(h, |h|);
      var h' := h + Destructions(known, gone, n);
      SnapshotsCover(h') && KnownAfter(h', |h'|) == Left(known, gone, n)
  {
    var known := KnownAfter(h, |h|);
    if n == 0 {
      assert h + [] == h;
    } else {
      DestructionsAdd(h, gone, n - 1);
      var b := h + Destructions(known, gone, n - 1);
      hide SnapshotsCover, KnownAfter;
      if gone[n - 1] in Left(known, gone, n - 1) {
        assert h + Destructions(known, gone, n) == b + [DestroySensor(gone[n - 1])];
        OneMoreCovers(b, DestroySensor(gone[n - 1]));
        KnownOfOneMore(b, DestroySensor(gone[n - 1]));
      } else {
        assert h + Destructions(known, gone, n) == b;
      }
    }
  }

  lemma {:induction false} JoinedIsSum(known: set<Entity>, found: seq<Entity>, n: nat)
    requires n <= |found|
    ensures forall e :: e in Joined(known, found, n) <==> e in known || exists i :: 0 <= i < n && found[i] == e
  {
    if n > 0 { JoinedIsSum(known, found, n - 1); }
  }

  lemma {:induction false} CreationAt(found: seq<Entity>, n: nat)
    requires n <= |found|
    ensures |Creations(found, n)| == n
    ensures forall i :: 0 <= i < n ==> Creations(found, n)[i] == CreateSensor(found[i])
  {
    if n > 0 { CreationAt(found, n - 1); }
  }

  lemma {:induction false} OnlyDestructions(known: set<Entity>, gone: seq<Entity>, n: nat)
    requires n <= |gone|
    ensures forall i :: 0 <= i < |Destructions(known, gone, n)| ==> Destructions(known, gone, n)[i].DestroySensor?
  {
    if n > 0 { OnlyDestructions(known, gone, n - 1); }
  }

  // ----- Steps of the simulation thread -----

  lemma PreUpdateKeepsHandOff(y: System, found: seq<Entity>)
    requires HandOffFits(y)
    ensures HandOffFits(OnPreUpdate(y, found))
  {
    hide Requests, Creations, Joined;
    var s := y.state;
    assert Requests(y.log) + s.batch + s.queued + (s.sim.perStep + Creations(found, |found|))
           == (Requests(y.log) + s.batch + s.queued + s.sim.perStep) + Creations(found, |found|);
  }

  lemma CreationsKeepCreatedOnce(h: seq<Request>, new_: seq<Entity>, found: set<Entity>)
    requires CreatedOnce(h, found) && Distinct(new_) && forall x <- new_ :: x !in found
    ensures CreatedOnce(h + Creations(new_, |new_|), found + (set x | x in new_))
  {
    CreationAt(new_, |new_|);
    hide Creations;
  }

  lemma PreUpdateKeepsHistory(y: System, found: seq<Entity>)
    requires HistoryFits(y) && Enabled(y, PreUpdate(found))
    ensures HistoryFits(OnPreUpdate(y, found))
  {
    CreationsAdd(y.history, found, |found|);
    CreationsKeepCreatedOnce(y.history, found, y.found);
    JoinedIsSum(y.state.sim.known, found, |found|);
    hide Creations, Joined, KnownAfter, SnapshotsCover, CreatedOnce;
  }

  lemma Regroup(done: seq<Request>, queued: seq<Request>, perStep: seq<Request>, asked: seq<Request>, w: seq<Request>)
    ensures done + queued + (perStep + asked) == (done + queued + perStep) + asked
    ensures done + (queued + ((perStep + asked) + w)) + [] == (done + queued + perStep) + asked + w
  {
  }

  lemma PostUpdateKeepsHandOff(y: System, p: Report)
    requires HandOffFits(y) && !y.state.raising
    ensures HandOffFits(OnPostUpdate(y, p))
  {
    hide Requests, Destructions, Left;
    var s, m := y.state, Collected(y.state.sim, p);
    Regroup(Requests(y.log) + s.batch, s.queued, s.sim.perStep,
            Destructions(s.sim.known, p.gone, |p.gone|), [SetWorldState(m.world)]);
  }

  lemma PostUpdateKnown(y: System, p: Report)
    requires HistoryFits(y) && Enabled(y, PostUpdate(p))
    ensures var m := Collected(y.state.sim, p);
      m.known <= y.tracked - p.removed && m.known <= m.world.Keys
  {
    LeftIsRest(y.state.sim.known, p.gone, |p.gone|);
    hide Left, Destructions, HistoryOk;
  }

  lemma OthersKeepCreatedOnce(h: seq<Request>, more: seq<Request>, found: set<Entity>)
    requires CreatedOnce(h, found) && forall i :: 0 <= i < |more| ==> !more[i].CreateSensor?
    ensures CreatedOnce(h + more, found)
  {
  }

  lemma DestructionsKeepHistory(h: seq<Request>, found: set<Entity>, known: set<Entity>, gone: seq<Entity>)
    requires HistoryOk(h, found, known)
    ensures HistoryOk(h + Destructions(known, gone, |gone|), found, Left(known, gone, |gone|))
  {
    DestructionsAdd(h, gone, |gone|);
    OnlyDestructions(known, gone, |gone|);
    OthersKeepCreatedOnce(h, Destructions(known, gone, |gone|), found);
    hide Destructions, Left, KnownAfter, SnapshotsCover, CreatedOnce;
  }

  lemma SnapshotKeepsHistory(h: seq<Request>, found: set<Entity>, known: set<Entity>, w: WorldState)
    requires HistoryOk(h, found, known) && known <= w.Keys
    ensures HistoryOk(h + [SetWorldState(w)], found, known)
  {
    OneMoreCovers(h, SetWorldState(w));
    KnownOfOneMore(h, SetWorldState(w));
    OthersKeepCreatedOnce(h, [SetWorldState(w)], found);
    hide KnownAfter, SnapshotsCover, CreatedOnce;
  }

  lemma PostUpdateKeepsHistory(y: System, p: Report)
    requires HistoryFits(y) && Enabled(y, PostUpdate(p))
    ensures HistoryFits(OnPostUpdate(y, p))
  {
    var known, m := y.state.sim.known, Collected(y.state.sim, p);
    DestructionsKeepHistory(y.history, y.found, known, p.gone);
    PostUpdateKnown(y, p);
    hide Destructions, Left, HistoryOk, Enabled;
    if Flushes(m, p) {
      SnapshotKeepsHistory(y.history + Destructions(known, p.gone, |p.gone|), y.found, m.known, m.world);
    }
  }

  /** What the simulation thread does does not touch the rendering thread. */
  lemma SimulationLeavesRendering(y: System, y': System)
    requires RenderingFits(y)
    requires y'.log == y.log && y'.state.batch == y.state.batch
    requires y'.state.ren == y.state.ren && y'.state.phase == y.state.phase
    ensures RenderingFits(y')
  {
    hide Requests, Live, Extends;
  }

  // ----- Steps of the rendering thread -----

  lemma LiveOfMore(log: seq<Entry>, x: Entry, e: Entity, id: SensorId)
    ensures Live(log + [x], e, id) <==> x == Did(CreateSensor(e), Made(id)) || (Live(log, e, id) && !Ends(x, e))
  {
    var more := log + [x];
    if Live(log, e, id) && !Ends(x, e) {
      var j :| 0 <= j < |log| && LiveSince(log, e, id, j);
      assert LiveSince(more, e, id, j);
    }
    if x == Did(CreateSensor(e), Made(id)) { assert LiveSince(more, e, id, |log|); }
    if Live(more, e, id) {
      var j :| 0 <= j < |more| && LiveSince(more, e, id, j);
      if j < |log| {
        assert forall k :: j < k < |log| ==> more[k] == log[k];
        assert LiveSince(log, e, id, j) && more[|log|] == x;
      }
    }
  }

  lemma {:induction false} RequestInLog(log: seq<Entry>, j: nat) returns (i: nat)
    requires j < |log| && log[j].Did?
    ensures i < |Requests(log)| && Requests(log)[i] == log[j].request
  {
    if j == |log| - 1 {
      i := |Requests(log)| - 1;
    } else {
      i := RequestInLog(log[..|log| - 1], j);
    }
  }

  /** A sensor about to be created was never created before ... */
  lemma LoggedDiffers(y: System, j: nat)
    requires HandOffFits(y) && HistoryFits(y) && j < |y.log| && y.log[j].Did?
    requires y.state.batch != [] && y.state.batch[0].CreateSensor?
    ensures y.log[j].request != y.state.batch[0]
  {
    var h := Requests(y.log);
    var i := RequestInLog(y.log, j);
    hide Requests, SnapshotsCover, KnownAfter;
    assert y.history[i] == h[i] && y.history[|h|] == y.state.batch[0];
  }

  /** ... so it is not in the index. */
  lemma NewIsNotIndexed(y: System)
    requires HandOffFits(y) && HistoryFits(y) && IndexIsReplay(y)
    requires y.state.batch != [] && y.state.batch[0].CreateSensor?
    ensures y.state.batch[0].entity !in y.state.ren.sensorIdPerEntity
  {
    var e, index := y.state.batch[0].entity, y.state.ren.sensorIdPerEntity;
    hide HandOffFits, HistoryFits;
    if e in index {
      assert Live(y.log, e, index[e]);
      var j :| 0 <= j < |y.log| && LiveSince(y.log, e, index[e], j);
      LoggedDiffers(y, j);
    }
  }

  lemma HandleNextKeepsHandOff(y: System, o: Outcome)
    requires HandOffFits(y) && y.state.phase == Handling && y.state.batch != []
    ensures HandOffFits(OnHandleNext(y, o))
  {
    var s, y' := y.state, OnHandleNext(y, o);
    RequestsOfMore(y.log, Did(s.batch[0], o));
    hide Requests, Handled;
    assert s.batch == [s.batch[0]] + s.batch[1..];
    assert Requests(y'.log) + y'.state.batch == Requests(y.log) + s.batch;
  }

  lemma CreateKeepsReplay(y: System, o: Outcome)
    requires HandOffFits(y) && HistoryFits(y) && IndexIsReplay(y)
    requires y.state.batch != [] && y.state.batch[0].CreateSensor?
    ensures IndexIsReplay(OnHandleNext(y, o))
  {
    var y' := OnHandleNext(y, o);
    NewIsNotIndexed(y);
    var new_ := y.state.batch[0].entity;
    hide HandOffFits, HistoryFits;
    forall e, id
      ensures (e in y'.state.ren.sensorIdPerEntity && y'.state.ren.sensorIdPerEntity[e] == id) <==> Live(y'.log, e, id)
    {
      LiveOfMore(y.log, Did(y.state.batch[0], o), e, id);
      hide Live;
      assert (e in y.state.ren.sensorIdPerEntity && y.state.ren.sensorIdPerEntity[e] == id) <==> Live(y.log, e, id);
    }
  }

  lemma OtherKeepsReplay(y: System, o: Outcome)
    requires IndexIsReplay(y) && y.state.batch != [] && !y.state.batch[0].CreateSensor?
    ensures IndexIsReplay(OnHandleNext(y, o))
  {
    var y' := OnHandleNext(y, o);
    forall e, id
      ensures (e in y'.state.ren.sensorIdPerEntity && y'.state.ren.sensorIdPerEntity[e] == id) <==> Live(y'.log, e, id)
    {
      LiveOfMore(y.log, Did(y.state.batch[0], o), e, id);
      hide Live, WithWorld;
      assert (e in y.state.ren.sensorIdPerEntity && y.state.ren.sensorIdPerEntity[e] == id) <==> Live(y.log, e, id);
    }
  }

  lemma HandledKeepsSensors(r: Rendering, q: Request, o: Outcome)
    requires IndexIsSensors(r) && (o.Made? ==> o.id !in r.sensors)
    requires q.CreateSensor? ==> q.entity !in r.sensorIdPerEntity
    ensures IndexIsSensors(Handled(r, q, o))
  {
  }

  lemma WorldReachesAll(r: Rendering, w: WorldState)
    requires IndexIsSensors(r)
    ensures forall id <- r.sensors :: Handled(r, SetWorldState(w), Refused).sensors[id].world == w
  {
    forall id | id in r.sensors
      ensures id in Ids(r.sensorIdPerEntity)
    {
      assert r.sensorIdPerEntity[r.sensors[id].entity] == id;
    }
  }

  lemma HandleNextKeepsCurrent(y: System, o: Outcome)
    requires IndexIsSensors(y.state.ren) && y.state.batch != []
    ensures Current(OnHandleNext(y, o))
  {
    var q, y' := y.state.batch[0], OnHandleNext(y, o);
    RequestsOfMore(y.log, Did(q, o));
    if q.SetWorldState? { WorldReachesAll(y.state.ren, q.world); }
    hide Requests, IndexIsSensors, Ids;
  }

  lemma HandleNextKeepsRendering(y: System, o: Outcome)
    requires Coherent(y) && Enabled(y, HandleNext(o))
    ensures RenderingFits(OnHandleNext(y, o))
  {
    if y.state.batch[0].CreateSensor? {
      NewIsNotIndexed(y);
      CreateKeepsReplay(y, o);
    } else {
      OtherKeepsReplay(y, o);
    }
    HandledKeepsSensors(y.state.ren, y.state.batch[0], o);
    HandleNextKeepsCurrent(y, o);
    hide HandOffFits, HistoryFits, IndexIsReplay, IndexIsSensors, Current, WithWorld, Ids;
  }

  lemma PostRenderKeepsRendering(y: System, targets: SensorId -> set<Entity>)
    requires RenderingFits(y)
    ensures RenderingFits(y.(state := OnPostRender(y.state, targets)))
  {
    hide Requests, Live;
  }

  lemma TearDownKeepsReplay(y: System)
    requires IndexIsReplay(y)
    ensures IndexIsReplay(y.(state := y.state.(ren := TornDown(y.state.ren)), log := y.log + [Teardown]))
  {
    forall e, id
      ensures !Live(y.log + [Teardown], e, id)
    {
      LiveOfMore(y.log, Teardown, e, id);
    }
  }

  lemma TearDownKeepsCoherent(y: System)
    requires Coherent(y) && y.state.phase == Idle
    ensures Coherent(y.(state := y.state.(ren := TornDown(y.state.ren)), log := y.log + [Teardown]))
  {
    TearDownKeepsReplay(y);
    RequestsOfMore(y.log, Teardown);
    TornDownIsEmpty(y.state.ren);
    hide Requests, IndexIsReplay, KnownAfter, SnapshotsCover, CreatedOnce, IndexIsSensors, Ids, TornDown;
    assert Requests(y.log) + [] == Requests(y.log);
  }

  lemma TornDownIsEmpty(r: Rendering)
    requires IndexIsSensors(r)
    ensures TornDown(r).sensors == map[] && IndexIsSensors(TornDown(r)) && TornDown(r).updated == r.updated
  {
    forall id | id in r.sensors
      ensures id in Ids(r.sensorIdPerEntity)
    {
      assert r.sensorIdPerEntity[r.sensors[id].entity] == id;
    }
  }

  lemma DrainKeepsHandOff(y: System)
    requires HandOffFits(y) && y.state.phase == Draining
    ensures HandOffFits(Drained(y))
  {
    hide Requests;
    var s, h := y.state, Requests(y.log);
    assert h + [] == h;
    assert h + [] + s.queued + s.sim.perStep == h + s.queued + [] + s.sim.perStep;
    assert s.queued != [] ==> (h + s.queued)[|h + s.queued| - 1] == s.queued[|s.queued| - 1];
    assert s.queued == [] ==> h + s.queued == h;
  }

  lemma DrainKeepsCoherent(y: System)
    requires Coherent(y) && y.state.phase == Draining
    ensures Coherent(Drained(y))
  {
    DrainKeepsHandOff(y);
    assert y.state.batch == [];
    hide Requests, KnownAfter, SnapshotsCover, CreatedOnce, IndexIsSensors, Extends, IndexIsReplay;
    SameReplay(y, Drained(y));
  }

  /** The steps that move the flag and the phase only. */
  lemma PhaseKeepsCoherent(y: System, e: Event)
    requires Coherent(y) && Enabled(y, e) && (e.Raise? || e.TakeFlag? || e.AllHandled?)
    ensures Coherent(Next(y, e))
  {
    hide Requests, IndexIsReplay, KnownAfter, SnapshotsCover, CreatedOnce, IndexIsSensors, Extends;
    assert IndexIsReplay(Next(y, e)) by { SameReplay(y, Next(y, e)); }
  }

  lemma SameReplay(y: System, y': System)
    requires IndexIsReplay(y) && y'.log == y.log && y'.state.ren.sensorIdPerEntity == y.state.ren.sensorIdPerEntity
    ensures IndexIsReplay(y')
  {
  }

  lemma RenderKeepsCoherent(y: System, ready: bool, fired: seq<SensorId>)
    requires Coherent(y) && Enabled(y, Render(ready, fired))
    ensures Coherent(y.(state := OnRender(y.state, ready, fired)))
  {
    hide Requests, IndexIsReplay, KnownAfter, SnapshotsCover, CreatedOnce, Extends;
    SameReplay(y, y.(state := OnRender(y.state, ready, fired)));
  }

  lemma SimulationStepKeepsCoherent(y: System, e: Event)
    requires Coherent(y) && Enabled(y, e) && (e.PreUpdate? || e.PostUpdate?)
    ensures Coherent(Next(y, e))
  {
    if e.PreUpdate? {
      PreUpdateKeepsHandOff(y, e.found);
      PreUpdateKeepsHistory(y, e.found);
    } else {
      PostUpdateKeepsHandOff(y, e.report);
      PostUpdateKeepsHistory(y, e.report);
    }
    hide HandOffFits, HistoryFits, RenderingFits, Enabled, Collected;
    SimulationLeavesRendering(y, Next(y, e));
  }

  lemma HandleNextKeepsCoherent(y: System, o: Outcome)
    requires Coherent(y) && Enabled(y, HandleNext(o))
    ensures Coherent(OnHandleNext(y, o))
  {
    HandleNextKeepsHandOff(y, o);
    HandleNextKeepsRendering(y, o);
    hide HandOffFits, RenderingFits, HistoryOk, Handled;
  }

  lemma PostRenderKeepsCoherent(y: System, targets: SensorId -> set<Entity>)
    requires Coherent(y) && y.state.phase == RenderDone
    ensures Coherent(y.(state := OnPostRender(y.state, targets)))
  {
    PostRenderKeepsRendering(y, targets);
    hide RenderingFits, Requests, HistoryOk, TouchedAll;
  }

  lemma StepKeepsCoherent(y: System, e: Event)
    requires Coherent(y) && Enabled(y, e)
    ensures Coherent(Next(y, e))
  {
    hide Coherent;
    match e {
      case PreUpdate(_) => SimulationStepKeepsCoherent(y, e);
      case PostUpdate(_) => SimulationStepKeepsCoherent(y, e);
      case HandleNext(o) => HandleNextKeepsCoherent(y, o);
      case Drain => DrainKeepsCoherent(y);
      case Render(ready, fired) => RenderKeepsCoherent(y, ready, fired);
      case PostRender(targets) => PostRenderKeepsCoherent(y, targets);
      case TearDown => TearDownKeepsCoherent(y);
      case _ => PhaseKeepsCoherent(y, e);
    }
  }

  // ----- All runs -----

  /** The system after the first m events of a run; an event that cannot happen does nothing. */
  ghost function SystemAt(start: System, run: seq<Event>, m: nat): System
    requires m <= |run|
  {
    if m == 0 then start
    else
      var y := SystemAt(start, run, m - 1);
      if Enabled(y, run[m - 1]) then Next(y, run[m - 1]) else y
  }

  lemma InitialIsCoherent(y: System)
    requires Initial(y)
    ensures Coherent(y)
  {
  }

  /** Under every interleaving the requests handled, taken, queued and still in the
      simulation thread are the request history, and the index is what the handled
      requests say. */
  lemma {:induction false} AlwaysCoherent(start: System, run: seq<Event>, m: nat)
    requires m <= |run| && Initial(start)
    ensures Coherent(SystemAt(start, run, m))
  {
    if m == 0 {
      InitialIsCoherent(start);
    } else {
      AlwaysCoherent(start, run, m - 1);
      hide Coherent, Next, Enabled, Initial;
      var y := SystemAt(start, run, m - 1);
      if Enabled(y, run[m - 1]) { StepKeepsCoherent(y, run[m - 1]); }
    }
  }

  /** A live sensor's entity is known to the requests that were handled. */
  lemma {:induction false} LiveIsKnown(log: seq<Entry>, e: Entity, id: SensorId)
    requires Live(log, e, id)
    ensures e in KnownAfter(Requests(log), |Requests(log)|)
  {
    var front, x := log[..|log| - 1], log[|log| - 1];
    assert log == front + [x];
    LiveOfMore(front, x, e, id);
    RequestsOfMore(front, x);
    if x.Did? { KnownOfOneMore(Requests(front), x.request); }
    if x != Did(CreateSensor(e), Made(id)) { LiveIsKnown(front, e, id); }
  }

  lemma LastSnapshotCovers(y: System, h: seq<Request>)
    requires HandOffFits(y) && HistoryFits(y) && y.state.batch == [] && h == Requests(y.log) && h != []
    ensures h[|h| - 1].SetWorldState? && KnownAfter(h, |h|) <= h[|h| - 1].world.Keys
  {
    hide Requests, KnownAfter, CreatedOnce;
    var rest := y.state.queued + y.state.sim.perStep;
    assert h + [] == h;
    assert y.history == h + rest;
    assert y.history[|h| - 1] == h[|h| - 1];
    KnownOfPrefix(h, rest, |h| - 1);
    assert h == h[..|h| - 1] + [h[|h| - 1]];
    KnownOfOneMore(h[..|h| - 1], h[|h| - 1]);
    KnownOfPrefix(h[..|h| - 1], [h[|h| - 1]], |h| - 1);
  }

  /** Whenever no request is half handled, each live sensor finds its own entity in the
      world state it holds. */
  lemma SensorFindsItself(y: System, id: SensorId)
    requires Coherent(y) && y.state.batch == [] && id in y.state.ren.sensors
    ensures y.state.ren.sensors[id].entity in y.state.ren.sensors[id].world
  {
    var r, h := y.state.ren, Requests(y.log);
    var e := r.sensors[id].entity;
    assert Live(y.log, e, id);
    LiveIsKnown(y.log, e, id);
    hide Live, Requests, IndexIsReplay;
    if h != [] { LastSnapshotCovers(y, h); }
  }

  /** On every run, when the updated sensors publish, each of them is alive and at() finds
      its entity. */
  lemma UpdatedSensorsCanPublish(start: System, run: seq<Event>, m: nat)
    requires m <= |run| && Initial(start) && SystemAt(start, run, m).state.phase == RenderDone
    ensures CanPublish(SystemAt(start, run, m).state.ren)
  {
    AlwaysCoherent(start, run, m);
    var y := SystemAt(start, run, m);
    hide SystemAt;
    forall id | id in y.state.ren.updated
      ensures id in y.state.ren.sensors && y.state.ren.sensors[id].entity in y.state.ren.sensors[id].world
    {
      SensorFindsItself(y, id);
    }
  }

  /** No step of handling meets a dangling sensor, and what OnRender updates is live. */
  lemma {:induction false} NothingDangles(y: System, order: seq<Entity>, fires: SensorId -> bool, n: nat)
    requires Coherent(y) && Visits(order, y.state.ren.sensorIdPerEntity) && n <= |order|
    ensures Linked(y.state.ren)
    ensures forall id <- Fired(y.state.ren, order, fires, n) :: id in Ids(y.state.ren.sensorIdPerEntity)
  {
    hide Coherent;
    assert Linked(y.state.ren) by { LinkedIfPaired(y); }
    if n > 0 {
      NothingDangles(y, order, fires, n - 1);
      assert y.state.ren.sensorIdPerEntity[order[n - 1]] in Ids(y.state.ren.sensorIdPerEntity);
    }
  }

  lemma LinkedIfPaired(y: System)
    requires Coherent(y)
    ensures Linked(y.state.ren)
  {
  }

  /** Every sensor made has an id of its own when it is made. */
  ghost predicate FreshIds(r: Rendering, batch: seq<Request>, outcomes: seq<Outcome>)
    requires |batch| == |outcomes|
  {
    forall n :: 0 <= n < |batch| && outcomes[n].Made? ==> outcomes[n].id !in HandledAll(r, batch, outcomes, n).sensors
  }

  lemma {:induction false} HandlingKeepsCoherent(y: System, outcomes: seq<Outcome>, n: nat)
    requires Coherent(y) && y.state.phase == Handling && n <= |outcomes| == |y.state.batch|
    requires FreshIds(y.state.ren, y.state.batch, outcomes)
    ensures Coherent(AfterHandling(y, outcomes, n))
  {
    hide Coherent, Handled;
    if n > 0 {
      HandlingKeepsCoherent(y, outcomes, n - 1);
      HandlingIsHandledAll(y, outcomes, n - 1);
      var z := AfterHandling(y, outcomes, n - 1);
      assert z.state.batch[0] == y.state.batch[n - 1];
      StepKeepsCoherent(z, HandleNext(outcomes[n - 1]));
    }
  }

  /** What OnPreRender needs of its callers holds in every coherent state: no request of the
      queue, in turn, finds a dangling sensor. */
  lemma BatchStaysLinked(y: System, outcomes: seq<Outcome>, n: nat)
    requires Coherent(y) && y.state.phase == Idle && y.state.pending && n <= |outcomes| == |y.state.queued|
    requires FreshIds(y.state.ren, y.state.queued, outcomes)
    ensures Linked(HandledAll(y.state.ren, y.state.queued, outcomes, n))
  {
    hide Coherent, Handled, Linked, FreshIds;
    StepKeepsCoherent(y, TakeFlag);
    var taken := y.(state := FlagTaken(y.state));
    StepKeepsCoherent(taken, Drain);
    HandlingKeepsCoherent(Drained(taken), outcomes, n);
    HandlingIsHandledAll(Drained(taken), outcomes, n);
    LinkedIfPaired(AfterHandling(Drained(taken), outcomes, n));
  }
}
