/** The acoustic channel of one vehicle (SimpleAcousticModel) and the plugin that
    steps it (AcousticCommsPlugin). */
module AcousticModel {
  import opened Wrappers
  import opened CommsPacket

  /** What the channel is configured with.  The distance between two positions is a
      parameter; speedOfSound and maxRange are read as unsigned integers. */
  datatype Acoustics = Acoustics(
    address: uint32, maxRange: uint32, speedOfSound: uint32, dist: (Position, Position) -> real)

  /** The distance sound covers at speed c in ns nanoseconds. */
  function Covered(c: real, ns: int): real { c * ((ns as real) / 1000000000.0) }

  /** In metres, for metres a second and nanoseconds. */
  lemma CoveredIs(c: real, ns: int)
    ensures Covered(c, ns) == c * (ns as real) / 1000000000.0
  {
  }

  lemma CoveredAdds(c: real, x: int, y: int)
    ensures Covered(c, x + y) == Covered(c, x) + Covered(c, y)
  {
    var a, b := (x as real) / 1000000000.0, (y as real) / 1000000000.0;
    assert ((x + y) as real) / 1000000000.0 == a + b;
    assert c * (a + b) == c * a + c * b;
  }

  lemma CoveredGrows(c: real, x: int, y: int)
    requires c >= 0.0 && x <= y
    ensures Covered(c, x) <= Covered(c, y)
  {
    var a, b := (x as real) / 1000000000.0, (y as real) / 1000000000.0;
    assert a <= b;
    assert c * (b - a) >= 0.0;
  }

  predicate Arrived(k: Acoustics, p: Packet, now: int, at: Position) {
    k.dist(p.position, at) <= Covered(k.speedOfSound as real, now - p.timeOfTx)
  }

  predicate DropPacket(k: Acoustics, distance: real) { distance > k.maxRange as real }

  predicate Reaches(k: Acoustics, p: Packet, now: int, at: Position) {
    Arrived(k, p, now, at) && !DropPacket(k, k.dist(p.position, at))
  }

  /** The packets still under way, those handed over and those dropped, in queue order. */
  function Survivors(k: Acoustics, ps: seq<Packet>, now: int, at: Position): seq<Packet> {
    if ps == [] then [] else
      var p := ps[|ps| - 1];
      Survivors(k, ps[..|ps| - 1], now, at) + if Arrived(k, p, now, at) then [] else [p]
  }

  function Delivered(k: Acoustics, ps: seq<Packet>, now: int, at: Position): seq<Packet> {
    if ps == [] then [] else
      var p := ps[|ps| - 1];
      Delivered(k, ps[..|ps| - 1], now, at) + if Reaches(k, p, now, at) then [p] else []
  }

  function Dropped(k: Acoustics, ps: seq<Packet>, now: int, at: Position): seq<Packet> {
    if ps == [] then [] else
      var p := ps[|ps| - 1];
      Dropped(k, ps[..|ps| - 1], now, at) + if Arrived(k, p, now, at) && !Reaches(k, p, now, at) then [p] else []
  }

  function Enqueued(k: Acoustics, ps: seq<Packet>, p: Packet): seq<Packet> {
    if p.to == k.address then ps + [p] else ps
  }

  /** Sound has not come as far as from the packet to here. */
  predicate IsShort(k: Acoustics, p: Packet, now: int, at: Position) {
    (k.speedOfSound as real) * ((now - p.timeOfTx) as real) / 1000000000.0 < k.dist(p.position, at)
  }

  /** Which packets a step keeps and which it hands over: sound, at so many metres a second,
      has come too short in the nanoseconds since the packet was sent, or far enough, and
      then the distance must be within the range. */
  lemma {:induction false} StepSorts(k: Acoustics, ps: seq<Packet>, now: int, at: Position)
    ensures forall p :: p in Survivors(k, ps, now, at) <==>
      p in ps && IsShort(k, p, now, at)
    ensures forall p :: p in Delivered(k, ps, now, at) <==>
      p in ps && !IsShort(k, p, now, at) && k.dist(p.position, at) <= k.maxRange as real
  {
    if ps != [] {
      var p := ps[|ps| - 1];
      StepSorts(k, ps[..|ps| - 1], now, at);
      CoveredIs(k.speedOfSound as real, now - p.timeOfTx);
      hide Covered;
    }
  }

  class SimpleAcousticModel {
    const acoustics: Acoustics
    var packets: seq<Packet>

    constructor (k: Acoustics)
      ensures acoustics == k && packets == []
    {
      acoustics := k;
      packets := [];
    }

    method EnqueueMsg(p: Packet)
      modifies this
      ensures packets == Enqueued(acoustics, old(packets), p)
    {
      if p.to == acoustics.address {
        packets := packets + [p];
      }
    }

    /** erase(remove_if(...)): survivors are moved to the front over the places of the
        packets that leave; what arrives within range is handed to the message manager. */
    method Step(now: int, at: Position) returns (reached: seq<Packet>)
      modifies this
      ensures packets == Survivors(acoustics, old(packets), now, at)
      ensures reached == Delivered(acoustics, old(packets), now, at)
      ensures forall p :: p in packets <==>
        p in old(packets) && IsShort(acoustics, p, now, at)
      ensures forall p :: p in reached <==>
        p in old(packets) && !IsShort(acoustics, p, now, at)
        && acoustics.dist(p.position, at) <= acoustics.maxRange as real
    {
      hide Covered, IsShort;
      ghost var before := packets;
      reached := [];
      var write, read := 0, 0;
      while read < |packets|
        invariant 0 <= write <= read <= |packets| == |before|
        invariant packets[..write] == Survivors(acoustics, before[..read], now, at)
        invariant forall i :: read <= i < |packets| ==> packets[i] == before[i]
        invariant reached == Delivered(acoustics, before[..read], now, at)
      {
        var packet := packets[read];
        assert before[..read + 1][..read] == before[..read];
        var distance := acoustics.dist(packet.position, at);
        if distance <= Covered(acoustics.speedOfSound as real, now - packet.timeOfTx) {
          if !DropPacket(acoustics, distance) {
            reached := reached + [packet];
          }
        } else {
          packets := packets[write := packet];
          write := write + 1;
        }
        read := read + 1;
      }
      assert before[..read] == before;
      packets := packets[..write];
      StepSorts(acoustics, before, now, at);
    }
  }

  // ----- Any run of the channel, packet by packet -----

  datatype Event = Enqueue(packet: Packet) | Tick(now: int, at: Position)

  function QueueStep(k: Acoustics, q: seq<Packet>, e: Event): seq<Packet> {
    match e
    case Enqueue(p) => Enqueued(k, q, p)
    case Tick(now, at) => Survivors(k, q, now, at)
  }

  /** The packets one event hands over. */
  function HandsOver(k: Acoustics, q: seq<Packet>, e: Event): seq<Packet> {
    match e
    case Enqueue(_) => []
    case Tick(now, at) => Delivered(k, q, now, at)
  }

  /** The queue after the first m events of a run. */
  function QueueAfter(k: Acoustics, run: seq<Event>, m: nat): seq<Packet>
    requires m <= |run|
  {
    if m == 0 then [] else QueueStep(k, QueueAfter(k, run, m - 1), run[m - 1])
  }

  /** What becomes of a packet judged on its own: the first tick after it was accepted
      at which sound has covered the distance decides. */
  datatype Fate = Pending | Handed(now: int, at: Position) | Lost(now: int, at: Position)

  function Judge(k: Acoustics, p: Packet, e: Event): Fate {
    match e
    case Enqueue(_) => Pending
    case Tick(now, at) =>
      if !Arrived(k, p, now, at) then Pending
      else if Reaches(k, p, now, at) then Handed(now, at)
      else Lost(now, at)
  }

  predicate Accepted(k: Acoustics, e: Event) {
    e.Enqueue? && e.packet.to == k.address
  }

  /** The fate, after the first m events, of the packet accepted by event i. */
  function FateOf(k: Acoustics, run: seq<Event>, i: nat, m: nat): Fate
    requires i < m <= |run| && Accepted(k, run[i])
  {
    if m == i + 1 then Pending
    else
      var f := FateOf(k, run, i, m - 1);
      if f == Pending then Judge(k, run[i].packet, run[m - 1]) else f
  }

  predicate StillOpen(k: Acoustics, run: seq<Event>, i: nat, m: nat)
    requires i < m <= |run|
  {
    Accepted(k, run[i]) && FateOf(k, run, i, m) == Pending
  }

  predicate HandedBy(k: Acoustics, run: seq<Event>, i: nat, m: nat)
    requires i < m <= |run|
  {
    Accepted(k, run[i]) && i + 1 < m && FateOf(k, run, i, m - 1) == Pending && FateOf(k, run, i, m).Handed?
  }

  /** Of the packets accepted by the first n events, in order: those whose fate is
      still open after m events, and those handed over by event m - 1. */
  function OpenFates(k: Acoustics, run: seq<Event>, n: nat, m: nat): seq<Packet>
    requires n <= m <= |run|
  {
    if n == 0 then []
    else OpenFates(k, run, n - 1, m) + if StillOpen(k, run, n - 1, m) then [run[n - 1].packet] else []
  }

  function HandedFates(k: Acoustics, run: seq<Event>, n: nat, m: nat): seq<Packet>
    requires n <= m <= |run|
  {
    if n == 0 then []
    else HandedFates(k, run, n - 1, m) + if HandedBy(k, run, n - 1, m) then [run[n - 1].packet] else []
  }

  lemma StepOnLast(k: Acoustics, q: seq<Packet>, p: Packet, now: int, at: Position)
    ensures Survivors(k, q + [p], now, at) == Survivors(k, q, now, at) + if Arrived(k, p, now, at) then [] else [p]
    ensures Delivered(k, q + [p], now, at) == Delivered(k, q, now, at) + if Reaches(k, p, now, at) then [p] else []
  {
    assert (q + [p])[..|q|] == q;
  }

  lemma {:induction false} TickSettlesFates(k: Acoustics, run: seq<Event>, n: nat, m: nat)
    requires n <= m < |run| && run[m].Tick?
    ensures Survivors(k, OpenFates(k, run, n, m), run[m].now, run[m].at) == OpenFates(k, run, n, m + 1)
    ensures Delivered(k, OpenFates(k, run, n, m), run[m].now, run[m].at) == HandedFates(k, run, n, m + 1)
  {
    if n > 0 {
      TickSettlesFates(k, run, n - 1, m);
      if StillOpen(k, run, n - 1, m) {
        StepOnLast(k, OpenFates(k, run, n - 1, m), run[n - 1].packet, run[m].now, run[m].at);
      } else {
        assert OpenFates(k, run, n, m) == OpenFates(k, run, n - 1, m);
        assert OpenFates(k, run, n, m + 1) == OpenFates(k, run, n - 1, m + 1);
      }
    }
  }

  lemma {:induction false} EnqueueSettlesNothing(k: Acoustics, run: seq<Event>, n: nat, m: nat)
    requires n <= m < |run| && run[m].Enqueue?
    ensures OpenFates(k, run, n, m) == OpenFates(k, run, n, m + 1)
  {
    if n > 0 { EnqueueSettlesNothing(k, run, n - 1, m); }
  }

  /** At every point of any run the queue is exactly the accepted packets with an open
      fate, in order of acceptance: none is lost, doubled, overtaken or touched by the
      others. */
  lemma {:induction false} QueueIsOpenFates(k: Acoustics, run: seq<Event>, m: nat)
    requires m <= |run|
    ensures QueueAfter(k, run, m) == OpenFates(k, run, m, m)
  {
    if m > 0 {
      QueueIsOpenFates(k, run, m - 1);
      if run[m - 1].Tick? {
        TickSettlesFates(k, run, m - 1, m - 1);
      } else {
        EnqueueSettlesNothing(k, run, m - 1, m - 1);
      }
    }
  }

  /** And every event hands over exactly the packets whose fate it settles so. */
  lemma HandedOverIsSettled(k: Acoustics, run: seq<Event>, m: nat)
    requires m < |run|
    ensures HandsOver(k, QueueAfter(k, run, m), run[m]) == HandedFates(k, run, m, m + 1)
  {
    QueueIsOpenFates(k, run, m);
    if run[m].Tick? {
      TickSettlesFates(k, run, m, m);
    } else {
      EnqueueHandsNothing(k, run, m, m);
    }
  }

  lemma {:induction false} EnqueueHandsNothing(k: Acoustics, run: seq<Event>, n: nat, m: nat)
    requires n <= m < |run| && run[m].Enqueue?
    ensures HandedFates(k, run, n, m + 1) == []
  {
    if n > 0 { EnqueueHandsNothing(k, run, n - 1, m); }
  }

  /** The packet accepted by event i has arrived at the tick that is event j. */
  predicate ArrivedAt(k: Acoustics, run: seq<Event>, i: nat, j: nat)
    requires i < j < |run| && Accepted(k, run[i])
  {
    run[j].Tick? && !IsShort(k, run[i].packet, run[j].now, run[j].at)
  }

  /** A fate is open as long as sound has not covered the distance at any tick; it is
      settled by the first tick at which it has, never earlier and only once, and the
      packet is lost only if it is then out of range. */
  lemma {:induction false} FateIsFirstArrival(k: Acoustics, run: seq<Event>, i: nat, m: nat) returns (j: nat)
    requires i < m <= |run| && Accepted(k, run[i])
    ensures FateOf(k, run, i, m) == Pending <==> forall n :: i < n < m ==> !ArrivedAt(k, run, i, n)
    ensures FateOf(k, run, i, m) != Pending ==>
      && i < j < m && ArrivedAt(k, run, i, j)
      && (forall n :: i < n < j ==> !ArrivedAt(k, run, i, n))
      && FateOf(k, run, i, m) ==
         if k.dist(run[i].packet.position, run[j].at) > k.maxRange as real then Lost(run[j].now, run[j].at)
         else Handed(run[j].now, run[j].at)
  {
    j := m - 1;
    if i + 1 < m {
      if run[m - 1].Tick? { CoveredIs(k.speedOfSound as real, run[m - 1].now - run[i].packet.timeOfTx); }
      hide Covered;
      var earlier := FateIsFirstArrival(k, run, i, m - 1);
      if FateOf(k, run, i, m - 1) != Pending { j := earlier; }
      if FateOf(k, run, i, m) != Pending { assert ArrivedAt(k, run, i, j); }
    }
  }

  // ----- Substeps of one update -----

  lemma ArrivedStays(k: Acoustics, p: Packet, t: int, u: int, at: Position)
    requires t <= u
    ensures Arrived(k, p, t, at) ==> Arrived(k, p, u, at)
  {
    CoveredGrows(k.speedOfSound as real, t - p.timeOfTx, u - p.timeOfTx);
  }

  lemma {:induction false} SurvivorsOfSurvivors(k: Acoustics, ps: seq<Packet>, t: int, u: int, at: Position)
    requires t <= u
    ensures Survivors(k, Survivors(k, ps, t, at), u, at) == Survivors(k, ps, u, at)
  {
    if ps != [] {
      var front, p := ps[..|ps| - 1], ps[|ps| - 1];
      SurvivorsOfSurvivors(k, front, t, u, at);
      ArrivedStays(k, p, t, u, at);
      hide Arrived;
      if !Arrived(k, p, t, at) {
        assert Survivors(k, ps, t, at)[..|Survivors(k, front, t, at)|] == Survivors(k, front, t, at);
      } else {
        assert Survivors(k, ps, t, at) == Survivors(k, front, t, at);
      }
    }
  }

  lemma SurvivorsLast(k: Acoustics, ps: seq<Packet>, t: int, u: int, at: Position)
    requires ps != []
    ensures var front, p := ps[..|ps| - 1], ps[|ps| - 1];
      Delivered(k, Survivors(k, ps, t, at), u, at) ==
        Delivered(k, Survivors(k, front, t, at), u, at)
        + if !Arrived(k, p, t, at) && Reaches(k, p, u, at) then [p] else []
  {
    hide Arrived, Reaches;
    var front, p := ps[..|ps| - 1], ps[|ps| - 1];
    var s := Survivors(k, ps, t, at);
    if !Arrived(k, p, t, at) {
      assert s[..|s| - 1] == Survivors(k, front, t, at) && s[|s| - 1] == p;
    } else {
      assert s == Survivors(k, front, t, at);
    }
  }

  lemma PiecesAddUp(a: seq<Packet>, x: seq<Packet>, b: seq<Packet>, y: seq<Packet>, c: seq<Packet>)
    requires multiset(a) + multiset(b) == multiset(c)
    ensures multiset(a + x) + multiset(b + y) == multiset(c + (x + y))
  {
    assert multiset(x + y) == multiset(x) + multiset(y);
  }

  lemma ReachedInOneStep(k: Acoustics, p: Packet, t: int, u: int, at: Position)
    requires t <= u
    ensures (if Reaches(k, p, t, at) then [p] else [])
            + (if !Arrived(k, p, t, at) && Reaches(k, p, u, at) then [p] else [])
            == if Reaches(k, p, u, at) then [p] else []
  {
    ArrivedStays(k, p, t, u, at);
    hide Arrived, DropPacket;
  }

  lemma {:induction false} DeliveredInTwoSteps(k: Acoustics, ps: seq<Packet>, t: int, u: int, at: Position)
    requires t <= u
    ensures multiset(Delivered(k, ps, t, at)) + multiset(Delivered(k, Survivors(k, ps, t, at), u, at))
            == multiset(Delivered(k, ps, u, at))
  {
    hide Arrived, Reaches;
    if ps != [] {
      var front, p := ps[..|ps| - 1], ps[|ps| - 1];
      DeliveredInTwoSteps(k, front, t, u, at);
      SurvivorsLast(k, ps, t, u, at);
      ReachedInOneStep(k, p, t, u, at);
      PiecesAddUp(Delivered(k, front, t, at), if Reaches(k, p, t, at) then [p] else [],
                  Delivered(k, Survivors(k, front, t, at), u, at),
                  if !Arrived(k, p, t, at) && Reaches(k, p, u, at) then [p] else [],
                  Delivered(k, front, u, at));
    }
  }

  function Min(a: int, b: int): int { if a < b then a else b }

  /** The number of substeps of length h that cover dt. */
  function Substeps(dt: int, h: int): int
    requires h > 0
  {
    (dt + h - 1) / h
  }

  lemma MultiplesAreApart(a: int, h: int)
    requires h > 0
    ensures a >= 1 ==> a * h >= h
    ensures a <= -1 ==> a * h <= -h
  {
    if a >= 1 { assert (a - 1) * h >= 0; }
    if a <= -1 { assert (-1 - a) * h >= 0; }
  }

  lemma SameMultiple(n: int, m: int, h: int, lo: int)
    requires h > 0 && lo <= n * h < lo + h && lo <= m * h < lo + h
    ensures n == m
  {
    MultiplesAreApart(n - m, h);
    assert (n - m) * h == n * h - m * h;
  }

  lemma DivisionParts(a: int, h: int)
    requires h > 0
    ensures a == (a / h) * h + a % h && 0 <= a % h < h
  {
  }

  lemma MultipleIsMultiple(n: int, h: int)
    requires h > 0
    ensures (n * h) % h == 0
  {
    DivisionParts(n * h, h);
    if (n * h) % h != 0 { SameMultiple(n, (n * h) / h, h, n * h - (n * h) % h); }
  }

  /** They end in [dt, dt + h), and at dt itself exactly when h divides dt. */
  lemma SubstepsCover(dt: int, h: int)
    requires dt > 0 && h > 0
    ensures Substeps(dt, h) >= 1
    ensures dt <= Substeps(dt, h) * h < dt + h
    ensures Substeps(dt, h) * h == dt <==> dt % h == 0
  {
    var n := Substeps(dt, h);
    DivisionParts(dt + h - 1, h);
    if n < 0 { MultiplesAreApart(n, h); }
    DivisionParts(dt, h);
    var q := dt / h;
    if n * h == dt { SameMultiple(n, q, h, dt - h + 1); }
    if dt % h == 0 { SameMultiple(n, q, h, dt); }
  }

  /** A timestep that is not positive makes the loop of PreUpdate go on for ever. */
  lemma NonPositiveTimestepNeverEnds(timestep: int, dt: int, n: nat)
    requires dt > 0
    ensures (forall m: nat :: Stepped(timestep, dt, m) < dt) <==> timestep <= 0
    ensures timestep <= 0 ==> Stepped(timestep, dt, n) < dt
  {
    var h := Min(timestep, dt);
    if timestep <= 0 {
      forall m: nat
        ensures Stepped(timestep, dt, m) < dt
      {
        assert m * h <= 0;
      }
      assert Stepped(timestep, dt, n) < dt;
    } else {
      SubstepsCover(dt, h);
      assert Stepped(timestep, dt, Substeps(dt, h)) >= dt;
    }
  }

  /** How far n turns of the loop advance the clock. */
  function Stepped(timestep: int, dt: int, n: nat): int { n * Min(timestep, dt) }

  /** The times at which the last substep runs and at which the loop leaves the clock. */
  function LastSubstep(start: int, timestep: int, dt: int): int
    requires timestep > 0 && dt > 0
  {
    var h := Min(timestep, dt);
    start + (Substeps(dt, h) - 1) * h
  }

  function ClockAfter(start: int, timestep: int, dt: int): int
    requires timestep > 0 && dt > 0
  {
    var h := Min(timestep, dt);
    start + Substeps(dt, h) * h
  }

  /** The clock leaves an update ahead of its end by less than a substep, and at its end
      exactly when the substep divides the update. */
  lemma ClockOvershoots(start: int, timestep: int, dt: int)
    requires timestep > 0 && dt > 0
    ensures var h := if timestep < dt then timestep else dt;
      && start + dt <= ClockAfter(start, timestep, dt) < start + dt + h
      && (ClockAfter(start, timestep, dt) - start) % h == 0
      && (ClockAfter(start, timestep, dt) == start + dt <==> dt % h == 0)
      && LastSubstep(start, timestep, dt) == ClockAfter(start, timestep, dt) - h < start + dt
  {
    MultipleIsMultiple(Substeps(dt, Min(timestep, dt)), Min(timestep, dt));
    var h := Min(timestep, dt);
    SubstepsCover(dt, h);
    assert (Substeps(dt, h) - 1) * h == Substeps(dt, h) * h - h;
  }

  class AcousticCommsPlugin {
    const model: SimpleAcousticModel
    const timestep: Option<int>
    var currentPosition: Position
    var currentTime: int

    constructor (m: SimpleAcousticModel, step: Option<int>)
      ensures model == m && timestep == step
    {
      model := m;
      timestep := step;
      currentPosition := Position(0.0, 0.0, 0.0);
      currentTime := 0;
    }

    /** The message published on the bus all vehicles listen to. */
    method OnMessageSendReq(m: AcousticMessage) returns (published: InternalComms)
      ensures MakeInternal(published) == Make(m, currentPosition, currentTime)
    {
      PacketSurvives(Make(m, currentPosition, currentTime), m, currentPosition, currentTime);
      published := ToInternalMsg(Make(m, currentPosition, currentTime));
    }

    method OnReceiveMessage(m: InternalComms)
      modifies model
      ensures model.packets == Enqueued(model.acoustics, old(model.packets), MakeInternal(m))
    {
      model.EnqueueMsg(MakeInternal(m));
    }

    /** With a timestep, one update is as good as a single step at the last substep time,
        except for the order in which packets of different substeps are handed over. */
    method PreUpdate(paused: bool, pose: Option<Position>, simTime: int, dt: int) returns (reached: seq<Packet>)
      requires timestep.Some? && dt > 0 ==> timestep.value > 0
      modifies this, model
      ensures paused || pose.None? ==>
        reached == [] && model.packets == old(model.packets)
        && currentTime == old(currentTime) && currentPosition == old(currentPosition)
      ensures !paused && pose.Some? ==> currentPosition == pose.value
      ensures !paused && pose.Some? && timestep.None? ==>
        && currentTime == simTime
        && model.packets == Survivors(model.acoustics, old(model.packets), simTime, pose.value)
        && reached == Delivered(model.acoustics, old(model.packets), simTime, pose.value)
      ensures !paused && pose.Some? && timestep.Some? && dt <= 0 ==>
        currentTime == simTime && model.packets == old(model.packets) && reached == []
      ensures !paused && pose.Some? && timestep.Some? && dt > 0 ==>
        var last := LastSubstep(simTime, timestep.value, dt);
        && currentTime == ClockAfter(simTime, timestep.value, dt)
        && model.packets == Survivors(model.acoustics, old(model.packets), last, pose.value)
        && multiset(reached) == multiset(Delivered(model.acoustics, old(model.packets), last, pose.value))
    {
      hide Survivors, Delivered, LastSubstep, ClockAfter;
      reached := [];
      if paused || pose.None? {
        return;
      }
      currentPosition := pose.value;
      currentTime := simTime;
      if timestep.None? {
        reached := model.Step(simTime, pose.value);
        return;
      }
      var endTime := currentTime + dt;
      reached := RunSubsteps(timestep.value, endTime, dt, pose.value);
    }

    method RunSubsteps(step: int, endTime: int, dt: int, at: Position) returns (reached: seq<Packet>)
      requires endTime == currentTime + dt
      requires dt > 0 ==> step > 0
      modifies this`currentTime, model
      ensures dt <= 0 ==> currentTime == old(currentTime) && model.packets == old(model.packets) && reached == []
      ensures dt > 0 ==>
        var last := LastSubstep(old(currentTime), step, dt);
        && currentTime == ClockAfter(old(currentTime), step, dt)
        && model.packets == Survivors(model.acoustics, old(model.packets), last, at)
        && multiset(reached) == multiset(Delivered(model.acoustics, old(model.packets), last, at))
    {
      hide Survivors, Delivered, Substeps;
      reached := [];
      ghost var before, k, n, simTime := model.packets, model.acoustics, 0, currentTime;
      ghost var h := if dt > 0 then Min(step, dt) else 1;
      ghost var last := currentTime;
      while currentTime < endTime
        invariant n >= 0 && currentTime == simTime + n * h
        invariant n > 0 ==> dt > 0 && last == currentTime - h < endTime
        invariant n == 0 ==> model.packets == before && reached == []
        invariant n > 0 ==> model.packets == Survivors(k, before, last, at)
        invariant n > 0 ==> multiset(reached) == multiset(Delivered(k, before, last, at))
        decreases endTime - currentTime
      {
        var stepDt := Min(step, dt);
        var now := model.Step(currentTime, at);
        if n > 0 {
          SurvivorsOfSurvivors(k, before, last, currentTime, at);
          DeliveredInTwoSteps(k, before, last, currentTime, at);
        }
        assert multiset(reached + now) == multiset(reached) + multiset(now);
        assert n == 0 ==> reached + now == now;
        reached := reached + now;
        assert (n + 1) * h == n * h + h;
        last := currentTime;
        currentTime := currentTime + stepDt;
        n := n + 1;
      }
      if dt > 0 {
        SubstepsCover(dt, h);
        SameMultiple(n, Substeps(dt, h), h, dt);
        assert (n - 1) * h == n * h - h;
      }
    }
  }
}
