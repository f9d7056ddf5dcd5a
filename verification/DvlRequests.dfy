/** The requests that the DVL system passes from the simulation thread to the rendering
    thread, and what its methods do with them (DopplerVelocityLogSystem). */
module DvlRequests {

  type Entity = nat
  type SensorId = nat

  datatype Kinematics = Kinematics(pose: seq<real>, linearVelocity: seq<real>, angularVelocity: seq<real>)

  type WorldState = map<Entity, Kinematics>

  const UNKNOWN: Kinematics := Kinematics([], [], [])

  datatype Request =
    | CreateSensor(entity: Entity)
    | DestroySensor(entity: Entity)
    | SetWorldState(world: WorldState)

  /** What becomes of a creation: the sensor manager refuses it, the parent's visual is
      missing, or there is a new sensor. */
  datatype Outcome = Refused | NoVisual | Made(id: SensorId)

  datatype Sensor = Sensor(entity: Entity, world: WorldState)

  /** What only the simulation thread touches. */
  datatype Simulation = Simulation(perStep: seq<Request>, known: set<Entity>, world: WorldState)

  /** What only the rendering thread touches. */
  datatype Rendering = Rendering(
    sensorIdPerEntity: map<Entity, SensorId>, sensors: map<SensorId, Sensor>,
    updated: seq<SensorId>, needsUpdate: bool)

  // ----- Simulation thread -----

  /** The creations DoPreUpdate asks for, for the first n new DVL sensors. */
  function Creations(found: seq<Entity>, n: nat): seq<Request>
    requires n <= |found|
  {
    if n == 0 then [] else Creations(found, n - 1) + [CreateSensor(found[n - 1])]
  }

  function Joined(known: set<Entity>, found: seq<Entity>, n: nat): set<Entity>
    requires n <= |found|
  {
    if n == 0 then known else Joined(known, found, n - 1) + {found[n - 1]}
  }

  /** The destructions DoPostUpdate asks for, for the first n removed custom sensors, and
      the sensors still known then. */
  function Destructions(known: set<Entity>, gone: seq<Entity>, n: nat): seq<Request>
    requires n <= |gone|
  {
    if n == 0 then []
    else
      Destructions(known, gone, n - 1)
      + if gone[n - 1] in Left(known, gone, n - 1) then [DestroySensor(gone[n - 1])] else []
  }

  function Left(known: set<Entity>, gone: seq<Entity>, n: nat): set<Entity>
    requires n <= |gone|
  {
    if n == 0 then known else Left(known, gone, n - 1) - {gone[n - 1]}
  }

  function Discovered(m: Simulation, found: seq<Entity>, n: nat): Simulation
    requires n <= |found|
  {
    m.(perStep := m.perStep + Creations(found, n), known := Joined(m.known, found, n))
  }

  function Removals(m: Simulation, gone: seq<Entity>, n: nat): Simulation
    requires n <= |gone|
  {
    m.(perStep := m.perStep + Destructions(m.known, gone, n), known := Left(m.known, gone, n))
  }

  /** What one step of the simulation reports: the entities with kinematic components,
      the removed custom sensors in the order they are visited, all removed entities, and
      whether a sensor's next update is due. */
  datatype Report = Report(each: WorldState, gone: seq<Entity>, removed: set<Entity>, due: bool)

  function Collected(m: Simulation, p: Report): Simulation {
    var b := Removals(m.(world := m.world + p.each), p.gone, |p.gone|);
    b.(world := b.world - p.removed)
  }

  /** The world state w' follows w by one report: it has exactly the reported kinematics of
      what is reported, keeps what is not, and drops what is removed. */
  ghost predicate Follows(w': WorldState, w: WorldState, p: Report) {
    && (forall e <- p.removed :: e !in w')
    && (forall e <- p.each :: e !in p.removed ==> e in w' && w'[e] == p.each[e])
    && (forall e <- w :: e !in p.removed && e !in p.each ==> e in w' && w'[e] == w[e])
    && (forall e <- w' :: e in p.each || e in w)
  }

  lemma CollectedFollows(m: Simulation, p: Report)
    ensures Follows(Collected(m, p).world, m.world, p)
  {
    hide Destructions, Left;
  }

  /** The numbers below n at which a predicate holds, in order. */
  function Places(holds: nat -> bool, n: nat): (at: seq<nat>)
    ensures forall i :: 0 <= i < |at| ==> at[i] < n
    ensures forall i, j :: 0 <= i < j < |at| ==> at[i] < at[j]
    ensures forall k :: k in at <==> 0 <= k < n && holds(k)
  {
    if n == 0 then [] else Places(holds, n - 1) + if holds(n - 1) then [n - 1] else []
  }

  predicate IsNewlyGone(known: set<Entity>, gone: seq<Entity>, k: nat) {
    k < |gone| && gone[k] in known && gone[k] !in gone[..k]
  }

  function NewlyGone(known: set<Entity>, gone: seq<Entity>): nat -> bool { (k: nat) => IsNewlyGone(known, gone, k) }

  /** Every known sensor among the removed ones is to be destroyed once, where it is first
      visited. */
  lemma {:induction false} DestructionsAt(known: set<Entity>, gone: seq<Entity>, n: nat)
    requires n <= |gone|
    ensures var at := Places(NewlyGone(known, gone), n);
      && |Destructions(known, gone, n)| == |at|
      && forall i :: 0 <= i < |at| ==> Destructions(known, gone, n)[i] == DestroySensor(gone[at[i]])
  {
    hide IsNewlyGone, Left;
    if n > 0 {
      DestructionsAt(known, gone, n - 1);
      LeftIsNewlyGone(known, gone, n - 1);
    }
  }

  lemma LeftIsNewlyGone(known: set<Entity>, gone: seq<Entity>, k: nat)
    requires k < |gone|
    ensures gone[k] in Left(known, gone, k) <==> IsNewlyGone(known, gone, k)
  {
    LeftIsRest(known, gone, k);
  }

  lemma {:induction false} LeftIsRest(known: set<Entity>, gone: seq<Entity>, n: nat)
    requires n <= |gone|
    ensures forall e :: e in Left(known, gone, n) <==> e in known && forall i :: 0 <= i < n ==> gone[i] != e
  {
    if n > 0 { LeftIsRest(known, gone, n - 1); }
  }

  /** Something is to be destroyed exactly if a known sensor is among the removed ones. */
  lemma DestroysIff(known: set<Entity>, gone: seq<Entity>)
    ensures Destructions(known, gone, |gone|) != [] <==> exists e <- gone :: e in known
  {
    var at := Places(NewlyGone(known, gone), |gone|);
    DestructionsAt(known, gone, |gone|);
    if Destructions(known, gone, |gone|) != [] {
      assert at[0] in at && IsNewlyGone(known, gone, at[0]);
    }
    if e :| e in gone && e in known {
      var k := FirstOf(gone, e);
      assert IsNewlyGone(known, gone, k) && k in at;
    }
  }

  lemma {:induction false} FirstOf(es: seq<Entity>, e: Entity) returns (k: nat)
    requires e in es
    ensures k < |es| && es[k] == e && e !in es[..k]
  {
    if e in es[..|es| - 1] {
      k := FirstOf(es[..|es| - 1], e);
      assert es[..|es| - 1][..k] == es[..k];
    } else {
      k := |es| - 1;
    }
  }

  predicate Flushes(m: Simulation, p: Report) { m.perStep != [] || p.due }

  /** After a report something leaves the simulation thread exactly if requests were pending,
      a known sensor was removed, or an update is due. */
  lemma FlushesIff(m: Simulation, p: Report)
    ensures Flushes(Collected(m, p), p) <==> m.perStep != [] || p.due || exists e <- p.gone :: e in m.known
  {
    DestroysIff(m.known, p.gone);
    hide Destructions, Left;
  }

  /** The batch that leaves the simulation thread. */
  function Batch(m: Simulation): seq<Request> { m.perStep + [SetWorldState(m.world)] }

  // ----- Rendering thread -----

  function Ids(index: map<Entity, SensorId>): set<SensorId> { set e | e in index :: index[e] }

  function WithWorld(sensors: map<SensorId, Sensor>, ids: set<SensorId>, w: WorldState): map<SensorId, Sensor> {
    map id | id in sensors :: if id in ids then sensors[id].(world := w) else sensors[id]
  }

  function Handled(r: Rendering, q: Request, o: Outcome): Rendering {
    match q
    case CreateSensor(e) => Created(r, e, o)
    case DestroySensor(e) =>
      if e in r.sensorIdPerEntity then
        r.(sensors := r.sensors - {r.sensorIdPerEntity[e]}, sensorIdPerEntity := r.sensorIdPerEntity - {e})
      else r
    case SetWorldState(w) => r.(sensors := WithWorld(r.sensors, Ids(r.sensorIdPerEntity), w), needsUpdate := true)
  }

  /** insert() leaves an entry that is already there. */
  function Created(r: Rendering, e: Entity, o: Outcome): Rendering {
    match o
    case Made(id) =>
      r.(sensors := r.sensors[id := Sensor(e, map[])],
         sensorIdPerEntity := if e in r.sensorIdPerEntity then r.sensorIdPerEntity else r.sensorIdPerEntity[e := id],
         needsUpdate := true)
    case _ => r
  }

  function HandledAll(r: Rendering, batch: seq<Request>, outcomes: seq<Outcome>, n: nat): Rendering
    requires n <= |batch| == |outcomes|
  {
    if n == 0 then r else Handled(HandledAll(r, batch, outcomes, n - 1), batch[n - 1], outcomes[n - 1])
  }

  /** No reference to a sensor dangles. */
  predicate Linked(r: Rendering) {
    forall e <- r.sensorIdPerEntity :: r.sensorIdPerEntity[e] in r.sensors
  }

  /** OnRender: the sensors among the first n of the index that update themselves. */
  function Fired(r: Rendering, order: seq<Entity>, fires: SensorId -> bool, n: nat): seq<SensorId>
    requires n <= |order| && forall i :: 0 <= i < n ==> order[i] in r.sensorIdPerEntity
  {
    if n == 0 then []
    else
      var id := r.sensorIdPerEntity[order[n - 1]];
      Fired(r, order, fires, n - 1) + if fires(id) then [id] else []
  }

  /** PostUpdate looks up the kinematics of every target, adding what is missing. */
  function Touched(w: WorldState, targets: set<Entity>): WorldState {
    (map e | e in targets && e !in w :: UNKNOWN) + w
  }

  function TouchedAll(
    sensors: map<SensorId, Sensor>, ids: set<SensorId>, targets: SensorId -> set<Entity>): map<SensorId, Sensor>
  {
    map id | id in sensors ::
      if id in ids then sensors[id].(world := Touched(sensors[id].world, targets(id))) else sensors[id]
  }

  function Listed(ids: seq<SensorId>, n: nat): set<SensorId>
    requires n <= |ids|
  {
    if n == 0 then {} else Listed(ids, n - 1) + {ids[n - 1]}
  }

  /** What the first n updated sensors read of their own entities. */
  function Readings(r: Rendering, n: nat): seq<Kinematics>
    requires CanPublish(r) && n <= |r.updated|
  {
    if n == 0 then []
    else
      var s := r.sensors[r.updated[n - 1]];
      Readings(r, n - 1) + [s.world[s.entity]]
  }

  /** Every updated sensor is alive and finds its entity in the world state it holds. */
  predicate CanPublish(r: Rendering) {
    forall id <- r.updated :: id in r.sensors && r.sensors[id].entity in r.sensors[id].world
  }

  /** OnRender, when these sensors update themselves. */
  function Rendered(r: Rendering, ready: bool, fired: seq<SensorId>): Rendering {
    if ready && r.needsUpdate then r.(updated := r.updated + fired, needsUpdate := false) else r
  }

  /** OnPostRender. */
  function Published(r: Rendering, targets: SensorId -> set<Entity>): Rendering {
    r.(sensors := TouchedAll(r.sensors, Listed(r.updated, |r.updated|), targets), updated := [])
  }

  function TornDown(r: Rendering): Rendering {
    r.(sensors := r.sensors - Ids(r.sensorIdPerEntity), sensorIdPerEntity := map[])
  }

  // ----- What that means, request by request -----

  /** A creation that succeeds adds its sensor, still without a world, and an entry for an
      entity that has none; one that does not succeed changes nothing. */
  lemma CreationSays(r: Rendering, e: Entity, o: Outcome)
    ensures var r' := Handled(r, CreateSensor(e), o);
      && r'.updated == r.updated && (!o.Made? ==> r' == r)
      && (o.Made? ==>
           && r'.needsUpdate && o.id in r'.sensors && r'.sensors[o.id] == Sensor(e, map[])
           && (forall id :: id != o.id ==> (id in r'.sensors <==> id in r.sensors))
           && (forall id <- r.sensors :: id != o.id ==> r'.sensors[id] == r.sensors[id])
           && (forall x :: x in r'.sensorIdPerEntity <==> x in r.sensorIdPerEntity || x == e)
           && (forall x <- r.sensorIdPerEntity :: r'.sensorIdPerEntity[x] == r.sensorIdPerEntity[x])
           && (e !in r.sensorIdPerEntity ==> r'.sensorIdPerEntity[e] == o.id))
  {
  }

  /** A destruction takes the entity's entry and the sensor named there, and nothing else. */
  lemma DestructionSays(r: Rendering, e: Entity, o: Outcome)
    ensures var r' := Handled(r, DestroySensor(e), o);
      && r'.updated == r.updated && r'.needsUpdate == r.needsUpdate
      && (forall x :: x in r'.sensorIdPerEntity <==> x in r.sensorIdPerEntity && x != e)
      && (forall x <- r'.sensorIdPerEntity :: r'.sensorIdPerEntity[x] == r.sensorIdPerEntity[x])
      && (forall id :: id in r'.sensors <==>
           id in r.sensors && (e in r.sensorIdPerEntity ==> id != r.sensorIdPerEntity[e]))
      && (forall id <- r'.sensors :: r'.sensors[id] == r.sensors[id])
  {
  }

  /** A world state reaches exactly the sensors that the index names, and asks for an update. */
  lemma WorldStateSays(r: Rendering, w: WorldState, o: Outcome)
    ensures var r' := Handled(r, SetWorldState(w), o);
      && r'.updated == r.updated && r'.needsUpdate
      && r'.sensorIdPerEntity == r.sensorIdPerEntity && r'.sensors.Keys == r.sensors.Keys
      && (forall e <- r.sensorIdPerEntity :: r.sensorIdPerEntity[e] in r.sensors ==>
           r'.sensors[r.sensorIdPerEntity[e]].world == w)
      && (forall id <- r.sensors :: r'.sensors[id].entity == r.sensors[id].entity)
      && (forall id <- r.sensors :: (forall e <- r.sensorIdPerEntity :: r.sensorIdPerEntity[e] != id) ==>
           r'.sensors[id] == r.sensors[id])
  {
  }

  /** After a batch that ends with a world state, as every batch does, an update is due. */
  lemma BatchAsksForUpdate(r: Rendering, batch: seq<Request>, outcomes: seq<Outcome>)
    requires |batch| == |outcomes| && batch != [] && batch[|batch| - 1].SetWorldState?
    ensures HandledAll(r, batch, outcomes, |batch|).needsUpdate
  {
    WorldStateSays(HandledAll(r, batch, outcomes, |batch| - 1), batch[|batch| - 1].world, outcomes[|batch| - 1]);
    hide Handled;
  }

  predicate FiresAt(r: Rendering, order: seq<Entity>, fires: SensorId -> bool, k: nat) {
    k < |order| && order[k] in r.sensorIdPerEntity && fires(r.sensorIdPerEntity[order[k]])
  }

  function Firing(r: Rendering, order: seq<Entity>, fires: SensorId -> bool): nat -> bool {
    (k: nat) => FiresAt(r, order, fires, k)
  }

  /** The sensors noted are those visited that fire, in the order visited, each once a visit. */
  lemma {:induction false} FiredAt(r: Rendering, order: seq<Entity>, fires: SensorId -> bool, n: nat)
    requires n <= |order| && forall i :: 0 <= i < |order| ==> order[i] in r.sensorIdPerEntity
    ensures var at := Places(Firing(r, order, fires), n);
      && |Fired(r, order, fires, n)| == |at|
      && forall i :: 0 <= i < |at| ==> Fired(r, order, fires, n)[i] == r.sensorIdPerEntity[order[at[i]]]
  {
    if n > 0 { FiredAt(r, order, fires, n - 1); }
  }

  /** The ids are those that the index names and that fire. */
  ghost predicate AreFiring(index: map<Entity, SensorId>, fires: SensorId -> bool, ids: seq<SensorId>) {
    forall id :: id in ids <==> fires(id) && exists e <- index :: index[e] == id
  }

  /** So an id is noted exactly when it is in the index and fires. */
  lemma FiredIff(r: Rendering, order: seq<Entity>, fires: SensorId -> bool)
    requires Visits(order, r.sensorIdPerEntity)
    ensures AreFiring(r.sensorIdPerEntity, fires, Fired(r, order, fires, |order|))
  {
    var ids := Fired(r, order, fires, |order|);
    hide Fired, Visits;
    forall id
      ensures id in ids <==> fires(id) && exists e <- r.sensorIdPerEntity :: r.sensorIdPerEntity[e] == id
    {
      if id in ids { NotedFires(r, order, fires, id); }
      if e :| e in r.sensorIdPerEntity && r.sensorIdPerEntity[e] == id && fires(id) {
        FiringIsNoted(r, order, fires, e);
      }
    }
  }

  lemma NotedFires(r: Rendering, order: seq<Entity>, fires: SensorId -> bool, id: SensorId)
    requires Visits(order, r.sensorIdPerEntity) && id in Fired(r, order, fires, |order|)
    ensures fires(id) && exists e <- r.sensorIdPerEntity :: r.sensorIdPerEntity[e] == id
  {
    var ids, at := Fired(r, order, fires, |order|), Places(Firing(r, order, fires), |order|);
    FiredAt(r, order, fires, |order|);
    hide Fired, Places, Visits;
    var i :| 0 <= i < |ids| && ids[i] == id;
    assert at[i] in at && FiresAt(r, order, fires, at[i]);
  }

  lemma FiringIsNoted(r: Rendering, order: seq<Entity>, fires: SensorId -> bool, e: Entity)
    requires Visits(order, r.sensorIdPerEntity) && e in r.sensorIdPerEntity && fires(r.sensorIdPerEntity[e])
    ensures r.sensorIdPerEntity[e] in Fired(r, order, fires, |order|)
  {
    var ids, at := Fired(r, order, fires, |order|), Places(Firing(r, order, fires), |order|);
    var k :| 0 <= k < |order| && order[k] == e;
    FiredAt(r, order, fires, |order|);
    hide Fired, Places, Visits;
    assert FiresAt(r, order, fires, k) && k in at;
    var i :| 0 <= i < |at| && at[i] == k;
    assert ids[i] == r.sensorIdPerEntity[e];
  }

  /** Where no two entities share a sensor, none is noted twice. */
  lemma FiredOnce(r: Rendering, order: seq<Entity>, fires: SensorId -> bool, i: nat, j: nat)
    requires Visits(order, r.sensorIdPerEntity) && i < j < |Fired(r, order, fires, |order|)|
    requires forall e, x :: e in r.sensorIdPerEntity && x in r.sensorIdPerEntity && e != x ==>
      r.sensorIdPerEntity[e] != r.sensorIdPerEntity[x]
    ensures Fired(r, order, fires, |order|)[i] != Fired(r, order, fires, |order|)[j]
  {
    var at := Places(Firing(r, order, fires), |order|);
    FiredAt(r, order, fires, |order|);
    assert at[i] < at[j] && order[at[i]] != order[at[j]];
  }

  /** Rendering notes the sensors that fire once after each request for an update, if the
      scene is ready, and otherwise leaves everything as it is. */
  lemma RenderingSays(r: Rendering, ready: bool, fired: seq<SensorId>)
    ensures var r' := Rendered(r, ready, fired);
      && r'.sensors == r.sensors && r'.sensorIdPerEntity == r.sensorIdPerEntity
      && (ready && r.needsUpdate ==> r'.updated == r.updated + fired && !r'.needsUpdate)
      && (!ready || !r.needsUpdate ==> r' == r)
  {
  }

  lemma {:induction false} ReadingsAt(r: Rendering, n: nat)
    requires CanPublish(r) && n <= |r.updated|
    ensures |Readings(r, n)| == n
    ensures forall i :: 0 <= i < n ==>
      Readings(r, n)[i] == r.sensors[r.updated[i]].world[r.sensors[r.updated[i]].entity]
  {
    if n > 0 { ReadingsAt(r, n - 1); }
  }

  /** Publishing empties the list of updated sensors; looking up targets leaves what is in a
      world state and adds an unknown for each that is not, in the updated sensors only. */
  lemma PublishingSays(r: Rendering, targets: SensorId -> set<Entity>)
    ensures var r' := Published(r, targets);
      && r'.updated == [] && r'.needsUpdate == r.needsUpdate && r'.sensorIdPerEntity == r.sensorIdPerEntity
      && r'.sensors.Keys == r.sensors.Keys
      && (forall id <- r.sensors ::
           var w, w' := r.sensors[id].world, r'.sensors[id].world;
           && r'.sensors[id].entity == r.sensors[id].entity
           && (id !in r.updated ==> w' == w)
           && (forall e :: e in w' <==> e in w || (id in r.updated && e in targets(id)))
           && (forall e <- w' :: w'[e] == if e in w then w[e] else Kinematics([], [], [])))
  {
    ListedIs(r.updated, |r.updated|);
    hide Listed;
  }

  lemma {:induction false} ListedIs(ids: seq<SensorId>, n: nat)
    requires n <= |ids|
    ensures forall id :: id in Listed(ids, n) <==> id in ids[..n]
  {
    if n > 0 {
      ListedIs(ids, n - 1);
      assert ids[..n] == ids[..n - 1] + [ids[n - 1]];
    }
  }

  /** The order in which the index is visited: any that visits every entry once. */
  ghost predicate Visits(order: seq<Entity>, index: map<Entity, SensorId>) {
    && (forall i :: 0 <= i < |order| ==> order[i] in index)
    && (forall e <- index :: e in order)
    && (forall i, j :: 0 <= i < j < |order| ==> order[i] != order[j])
  }

  class DopplerVelocityLogSystem {
    var perStepRequests: seq<Request>
    var knownSensorEntities: set<Entity>
    var worldState: WorldState
    var queuedRequests: seq<Request>
    var pendingRequests: bool
    var sensorIdPerEntity: map<Entity, SensorId>
    var sensors: map<SensorId, Sensor>
    var updatedSensorIds: seq<SensorId>
    var needsUpdate: bool

    function Sim(): Simulation
      reads this
    {
      Simulation(perStepRequests, knownSensorEntities, worldState)
    }

    function Ren(): Rendering
      reads this
    {
      Rendering(sensorIdPerEntity, sensors, updatedSensorIds, needsUpdate)
    }

    constructor ()
      ensures Sim() == Simulation([], {}, map[]) && Ren() == Rendering(map[], map[], [], false)
      ensures queuedRequests == [] && !pendingRequests
    {
      perStepRequests, knownSensorEntities, worldState := [], {}, map[];
      queuedRequests, pendingRequests := [], false;
      sensorIdPerEntity, sensors, updatedSensorIds, needsUpdate := map[], map[], [], false;
    }

    method DoPreUpdate(found: seq<Entity>)
      modifies this`perStepRequests, this`knownSensorEntities
      ensures Sim() == Discovered(old(Sim()), found, |found|)
    {
      for n := 0 to |found|
        invariant Sim() == Discovered(old(Sim()), found, n)
      {
        perStepRequests := perStepRequests + [CreateSensor(found[n])];
        knownSensorEntities := knownSensorEntities + {found[n]};
      }
    }

    method DoPostUpdate(p: Report)
      modifies this`perStepRequests, this`knownSensorEntities, this`worldState
      modifies this`queuedRequests, this`pendingRequests
      ensures var m := Collected(old(Sim()), p);
        if Flushes(m, p) then
          Sim() == m.(perStep := []) && queuedRequests == old(queuedRequests) + Batch(m) && pendingRequests
        else
          Sim() == m && queuedRequests == old(queuedRequests) && pendingRequests == old(pendingRequests)
      ensures Follows(worldState, old(worldState), p)
      ensures var flushed := old(perStepRequests) != [] || p.due || exists e <- p.gone :: e in old(knownSensorEntities);
        && (flushed ==> queuedRequests != [] && queuedRequests[|queuedRequests| - 1] == SetWorldState(worldState))
        && (!flushed ==> queuedRequests == old(queuedRequests))
        && (pendingRequests <==> old(pendingRequests) || flushed)
    {
      CollectedFollows(Sim(), p);
      FlushesIff(Sim(), p);
      hide Follows, Destructions, Left;
      Collect(p);
      if perStepRequests != [] || p.due {
        perStepRequests := perStepRequests + [SetWorldState(worldState)];
        queuedRequests := queuedRequests + perStepRequests;
        perStepRequests := [];
        pendingRequests := true;
      }
    }

    method Collect(p: Report)
      modifies this`perStepRequests, this`knownSensorEntities, this`worldState
      ensures Sim() == Collected(old(Sim()), p)
    {
      worldState := worldState + p.each;
      ghost var m := Sim();
      for n := 0 to |p.gone|
        invariant Sim() == Removals(m, p.gone, n)
      {
        if p.gone[n] in knownSensorEntities {
          perStepRequests := perStepRequests + [DestroySensor(p.gone[n])];
          knownSensorEntities := knownSensorEntities - {p.gone[n]};
        }
      }
      worldState := worldState - p.removed;
    }

    method HandleCreateSensor(e: Entity, o: Outcome)
      modifies this`sensorIdPerEntity, this`sensors, this`needsUpdate
      ensures Ren() == Created(old(Ren()), e, o)
    {
      match o {
        case Refused =>
        case NoVisual =>
        case Made(id) =>
          sensors := sensors[id := Sensor(e, map[])];
          if e !in sensorIdPerEntity {
            sensorIdPerEntity := sensorIdPerEntity[e := id];
          }
          needsUpdate := true;
      }
    }

    method HandleDestroySensor(e: Entity)
      modifies this`sensorIdPerEntity, this`sensors
      ensures Ren() == Handled(old(Ren()), DestroySensor(e), Refused)
    {
      if e in sensorIdPerEntity {
        var id := sensorIdPerEntity[e];
        if id in sensors {
          sensors := sensors - {id};
        }
        assert sensors == old(sensors) - {id};
        sensorIdPerEntity := sensorIdPerEntity - {e};
      }
    }

    /** A sensor that is not there would be dereferenced as null. */
    method HandleSetWorldState(w: WorldState)
      requires Linked(Ren())
      modifies this`sensors, this`needsUpdate
      ensures Ren() == Handled(old(Ren()), SetWorldState(w), Refused)
    {
      hide WithWorld;
      ghost var before, done := sensors, {};
      var rest := sensorIdPerEntity.Keys;
      NoWorld(before, w);
      while rest != {}
        invariant rest <= sensorIdPerEntity.Keys
        invariant done == set e | e in sensorIdPerEntity && e !in rest :: sensorIdPerEntity[e]
        invariant sensors == WithWorld(before, done, w)
        decreases |rest|
      {
        var e :| e in rest;
        var id := sensorIdPerEntity[e];
        assert id in before;
        OneMoreWorld(before, done, id, w);
        sensors := sensors[id := sensors[id].(world := w)];
        OneMoreId(sensorIdPerEntity, rest, e);
        rest, done := rest - {e}, done + {id};
      }
      assert done == Ids(sensorIdPerEntity);
      needsUpdate := true;
    }

    method Handle(q: Request, o: Outcome)
      requires Linked(Ren())
      modifies this`sensorIdPerEntity, this`sensors, this`needsUpdate
      ensures Ren() == Handled(old(Ren()), q, o)
    {
      match q {
        case CreateSensor(e) => HandleCreateSensor(e, o);
        case DestroySensor(e) => HandleDestroySensor(e);
        case SetWorldState(w) => HandleSetWorldState(w);
      }
    }

    /** When no other thread comes in between. */
    method OnPreRender(outcomes: seq<Outcome>)
      requires |outcomes| == |queuedRequests|
      requires forall n :: 0 <= n <= |queuedRequests| ==> Linked(HandledAll(Ren(), queuedRequests, outcomes, n))
      modifies this`queuedRequests, this`pendingRequests, this`sensorIdPerEntity, this`sensors, this`needsUpdate
      ensures !pendingRequests
      ensures old(pendingRequests) ==>
        queuedRequests == [] && Ren() == HandledAll(old(Ren()), old(queuedRequests), outcomes, |outcomes|)
      ensures !old(pendingRequests) ==> queuedRequests == old(queuedRequests) && Ren() == old(Ren())
    {
      hide Linked;
      var pending := pendingRequests;
      pendingRequests := false;
      if pending {
        var requests := queuedRequests;
        queuedRequests := [];
        for n := 0 to |requests|
          invariant Ren() == HandledAll(old(Ren()), requests, outcomes, n)
          invariant queuedRequests == [] && !pendingRequests
        {
          Handle(requests[n], outcomes[n]);
        }
      }
    }

    method OnRender(ready: bool, order: seq<Entity>, fires: SensorId -> bool)
      requires Linked(Ren()) && Visits(order, sensorIdPerEntity)
      modifies this`updatedSensorIds, this`needsUpdate
      ensures var r := old(Ren());
        Ren() == Rendered(r, ready, Fired(r, order, fires, |order|))
      ensures ready && old(needsUpdate) ==>
        && old(updatedSensorIds) <= updatedSensorIds
        && AreFiring(sensorIdPerEntity, fires, updatedSensorIds[|old(updatedSensorIds)|..])
    {
      hide AreFiring;
      FiredIff(Ren(), order, fires);
      if !ready {
        return;
      }
      if needsUpdate {
        ghost var r := Ren();
        for n := 0 to |order|
          invariant updatedSensorIds == r.updated + Fired(r, order, fires, n)
        {
          var id := sensorIdPerEntity[order[n]];
          if fires(id) {
            updatedSensorIds := updatedSensorIds + [id];
          }
        }
        needsUpdate := false;
      }
    }

    /** Every updated sensor reads the state of its own entity with at(), which throws if
        it is missing, and then looks up its targets. */
    method OnPostRender(targets: SensorId -> set<Entity>) returns (readings: seq<Kinematics>)
      requires CanPublish(Ren())
      modifies this`updatedSensorIds, this`sensors
      ensures var r := old(Ren());
        && Ren() == Published(r, targets)
        && readings == Readings(r, |r.updated|)
    {
      hide TouchedAll;
      readings := [];
      ghost var r := Ren();
      NothingTouched(r.sensors, targets);
      for n := 0 to |updatedSensorIds|
        invariant updatedSensorIds == r.updated
        invariant sensors == TouchedAll(r.sensors, Listed(r.updated, n), targets)
        invariant readings == Readings(r, n)
      {
        var id := updatedSensorIds[n];
        TouchedOne(r.sensors, Listed(r.updated, n), id, targets);
        var s := sensors[id];
        readings := readings + [s.world[s.entity]];
        sensors := sensors[id := s.(world := Touched(s.world, targets(id)))];
      }
      updatedSensorIds := [];
    }

    method OnRenderTeardown()
      modifies this`sensorIdPerEntity, this`sensors
      ensures Ren() == TornDown(old(Ren()))
    {
      ghost var before, index, done := sensors, sensorIdPerEntity, {};
      var rest := sensorIdPerEntity.Keys;
      while rest != {}
        invariant sensorIdPerEntity == index && rest <= index.Keys
        invariant done == set e | e in index && e !in rest :: index[e]
        invariant sensors == before - done
        decreases |rest|
      {
        var e :| e in rest;
        var id := sensorIdPerEntity[e];
        if id in sensors {
          sensors := sensors - {id};
        }
        OneMoreId(index, rest, e);
        rest, done := rest - {e}, done + {id};
        assert sensors == before - done;
      }
      assert done == Ids(index);
      sensorIdPerEntity := map[];
    }
  }

  lemma OneMoreId(index: map<Entity, SensorId>, rest: set<Entity>, e: Entity)
    requires e in index && e in rest
    ensures (set x | x in index && x !in rest :: index[x]) + {index[e]}
            == set x | x in index && x !in rest - {e} :: index[x]
  {
    var more := set x | x in index && x !in rest - {e} :: index[x];
    assert e !in rest - {e};
    assert index[e] in more;
    forall id | id in (set x | x in index && x !in rest :: index[x])
      ensures id in more
    {
      var x :| x in index && x !in rest && index[x] == id;
      assert x !in rest - {e};
    }
  }

  lemma NoWorld(sensors: map<SensorId, Sensor>, w: WorldState)
    ensures WithWorld(sensors, {}, w) == sensors
  {
  }

  lemma OneMoreWorld(sensors: map<SensorId, Sensor>, ids: set<SensorId>, id: SensorId, w: WorldState)
    requires id in sensors
    ensures id in WithWorld(sensors, ids, w)
    ensures WithWorld(sensors, ids + {id}, w)
            == WithWorld(sensors, ids, w)[id := WithWorld(sensors, ids, w)[id].(world := w)]
  {
  }

  lemma NothingTouched(sensors: map<SensorId, Sensor>, targets: SensorId -> set<Entity>)
    ensures TouchedAll(sensors, {}, targets) == sensors
  {
  }

  lemma TouchedOne(sensors: map<SensorId, Sensor>, ids: set<SensorId>, id: SensorId, targets: SensorId -> set<Entity>)
    requires id in sensors && sensors[id].entity in sensors[id].world
    ensures var now := TouchedAll(sensors, ids, targets);
      && id in now && now[id].entity == sensors[id].entity && now[id].entity in now[id].world
      && now[id].world[now[id].entity] == sensors[id].world[sensors[id].entity]
      && TouchedAll(sensors, ids + {id}, targets) == now[id := now[id].(world := Touched(now[id].world, targets(id)))]
  {
    var w, t := sensors[id].world, targets(id);
    assert Touched(Touched(w, t), t) == Touched(w, t);
  }
}
