/** That answers come: on a scheduled run a request to a vehicle within range is lost
    nowhere, and how long it can take to be answered. */
module RangeAnswers {
  import opened CommsPacket
  import opened AcousticModel
  import opened RangeBearing
  import opened Counting
  import opened Network
  import opened RangeAccuracy
  import opened Wrappers

  /** The vehicle that was asked exists, and neither end drops at this distance. */
  ghost predicate InRange(g: Setting, vs: seq<Vehicle>, t: Trip) {
    && HasAddress(vs, t.to)
    && forall i :: 0 <= i < |vs| && (vs[i].address == t.to || vs[i].address == t.key.initiator) ==>
         Apart(g, t) <= vs[i].acoustics.maxRange as real
  }

  /** Nothing of a trip within range has been lost. */
  ghost predicate Unlost(g: Setting, s: Timed, o: nat, id: uint32)
    requires o < |s.net.vehicles| && Tracked(g, s, o, id)
  {
    id in s.net.vehicles[o].node.transmissionTime && InRange(g, s.net.vehicles, TripOf(s, o, id)) ==>
      Count(s.net.lost, MessageKey, Key(s.net.vehicles[o].address, id)) == 0
  }

  ghost predicate AllUnlost(g: Setting, s: Timed)
    requires AllTracked(g, s)
  {
    forall o, id: uint32 :: 0 <= o < |s.net.vehicles| ==> Tracked(g, s, o, id) && Unlost(g, s, o, id)
  }

  // ----- What a step loses -----

  ghost predicate SameChannels(vs: seq<Vehicle>, us: seq<Vehicle>) {
    |vs| == |us| && forall i :: 0 <= i < |vs| ==> vs[i].address == us[i].address && vs[i].acoustics == us[i].acoustics
  }

  lemma StepKeepsChannels(s: State, a: Network.Event)
    requires Enabled(s, a)
    ensures SameChannels(s.vehicles, Next(s, a).vehicles)
  {
    hide Survivors, Delivered, Dropped, Released, Replies, DuePrefix, Broadcast;
  }

  lemma InRangeStays(g: Setting, vs: seq<Vehicle>, us: seq<Vehicle>, t: Trip)
    requires SameChannels(vs, us) && InRange(g, us, t)
    ensures InRange(g, vs, t)
  {
    hide DropPacket, Apart;
    var i :| 0 <= i < |us| && us[i].address == t.to;
    assert vs[i].address == t.to;
  }

  /** The channel of a vehicle within range drops no packet of the trip. */
  lemma {:induction false} NothingDropped(
    g: Setting, t: Trip, k: Acoustics, ps: seq<Packet>, clock: int, now: int, a: uint32)
    requires Proper(g) && k.dist == g.dist && AllTo(ps, a) && PacketsFit(g, t, clock, ps)
    requires a == t.to || a == t.key.initiator ==> !DropPacket(k, Apart(g, t))
    ensures Count(Dropped(k, ps, now, g.place(a)), PacketKey, t.key) == 0
  {
    if ps != [] {
      var front, p, at := ps[..|ps| - 1], ps[|ps| - 1], g.place(a);
      assert PacketFits(g, t, clock, ps[|ps| - 1]) && p.to == a;
      NothingDropped(g, t, k, front, clock, now, a);
      if PacketKey(p) == Some(t.key) { assert k.dist(p.position, at) == Apart(g, t); }
      hide Arrived, DropPacket, PacketFits, Proper, PacketKey;
      var last := if Arrived(k, p, now, at) && !Reaches(k, p, now, at) then [p] else [];
      CountLast(Dropped(k, front, now, at), last, t.key);
    }
  }

  lemma CommsUpdateLosesNothing(g: Setting, t: Trip, s: Timed, i: nat)
    requires Ready(g, t, s) && i < |s.net.vehicles| && InRange(g, s.net.vehicles, t)
    ensures var s' := Next(s.net, CommsUpdate(i, s.now, s.net.vehicles[i].position));
      Count(s'.lost, MessageKey, t.key) == Count(s.net.lost, MessageKey, t.key)
  {
    var v := s.net.vehicles[i];
    assert Stands(g, v) && WellConfigured(v) && VehicleFits(g, t, v);
    NothingDropped(g, t, v.acoustics, v.packets, v.commsTime, s.now, v.address);
    hide Count, Dropped, Survivors, Delivered, External, Ready, InRange;
    var dropped := Dropped(v.acoustics, v.packets, s.now, v.position);
    CountExternal(dropped, t.key);
    CountOfSum(s.net.lost, External(dropped), MessageKey, t.key);
  }

  lemma TxLosesNothing(g: Setting, t: Trip, s: Timed, n: nat)
    requires Ready(g, t, s) && n < |s.net.flight| && s.net.flight[n].body.Tx? && Enabled(s.net, Deliver(n))
    requires InRange(g, s.net.vehicles, t) && HasAddress(s.net.vehicles, t.key.initiator)
    ensures Count(Next(s.net, Deliver(n)).lost, MessageKey, t.key) == Count(s.net.lost, MessageKey, t.key)
  {
    var e := s.net.flight[n];
    assert EnvelopeFits(g, t, s.now, e);
    hide Count, Broadcast, Ready, HasAddress, Heard, Replied, Returned, DropPacket;
    var m := e.body.m;
    if HasAddress(s.net.vehicles, m.to) {
      assert s.net.lost + [] == s.net.lost;
    } else {
      CountAppend(s.net.lost, m, MessageKey, t.key);
    }
  }

  /** A step loses nothing of a trip within range. */
  lemma StepLosesNothing(g: Setting, t: Trip, s: Timed, a: Network.Event)
    requires Ready(g, t, s) && Scheduled(g, s, Act(a))
    requires InRange(g, s.net.vehicles, t) && HasAddress(s.net.vehicles, t.key.initiator)
    ensures Count(Next(s.net, a).lost, MessageKey, t.key) == Count(s.net.lost, MessageKey, t.key)
  {
    hide Ready, InRange, HasAddress, AllAt, Fresh, Count, Survivors, Delivered, Dropped, External, Replies, DuePrefix,
      Broadcast;
    match a {
      case CommsUpdate(i, _, _) => CommsUpdateLosesNothing(g, t, s, i);
      case Deliver(n) => if s.net.flight[n].body.Tx? { TxLosesNothing(g, t, s, n); }
      case _ =>
    }
  }

  // ----- The invariant of all runs -----

  /** A request about to be taken up has nothing lost under its key. */
  lemma RequestTopicIsUnlost(s: State, n: nat, k: Key)
    requires WellFormed(s) && Books(s) && n < |s.flight| && s.flight[n].body.RequestTopic?
    requires k == Key(s.flight[n].address, s.flight[n].body.id)
    ensures Count(s.lost, MessageKey, k) == 0
  {
    assert Balanced(s, k) && WellAddressed(s.vehicles, s.flight[n]);
    CountPositive(s.flight, n, AskOf, k);
    OwnerHoldsAll(s, s.flight[n].dest, k);
    TotalIsNat(s.vehicles, |s.vehicles|, k);
    hide Total, Count;
  }

  lemma StartedTripIsUnlost(g: Setting, s: Timed, a: Network.Event, k: Key)
    requires Good(g, s) && Enabled(s.net, a) && Starts(s, a, k)
    ensures Count(Next(s.net, a).lost, MessageKey, k) == 0
  {
    RequestTopicIsUnlost(s.net, a.index, k);
    hide Count, Good;
  }

  lemma StepKeepsUnlost(g: Setting, s: Timed, a: Network.Event, o: nat, id: uint32)
    requires Proper(g) && Good(g, s) && AllUnlost(g, s) && Scheduled(g, s, Act(a))
    requires o < |Next(s.net, a).vehicles| && Tracked(g, TimedNext(g, s, Act(a)), o, id)
    ensures Unlost(g, TimedNext(g, s, Act(a)), o, id)
  {
    StepKeepsChannels(s.net, a);
    var v := s.net.vehicles[o];
    var k, s' := Key(v.address, id), TimedNext(g, s, Act(a));
    hide Next, TripFits, Fresh, AllAt, Books, Proper, AllStand, WellFormed, InRange, Count, InTurn;
    if id in s'.net.vehicles[o].node.transmissionTime && InRange(g, s'.net.vehicles, TripOf(s', o, id)) {
      if Starts(s, a, k) {
        StartedTripIsUnlost(g, s, a, k);
      } else {
        OldTripStays(g, s, a, o, id);
        assert Tracked(g, s, o, id) && Unlost(g, s, o, id);
        var t := TripOf(s, o, id);
        InRangeStays(g, s.net.vehicles, s'.net.vehicles, t);
        StepLosesNothing(g, t, s, a);
      }
    }
  }

  ghost predicate Safe(g: Setting, s: Timed) { Good(g, s) && AllUnlost(g, s) }

  lemma StepKeepsSafe(g: Setting, s: Timed, e: TimedEvent)
    requires Proper(g) && Safe(g, s) && Scheduled(g, s, e)
    ensures Safe(g, TimedNext(g, s, e))
  {
    StepKeepsGood(g, s, e);
    var s' := TimedNext(g, s, e);
    forall o, id: uint32 | 0 <= o < |s'.net.vehicles|
      ensures Tracked(g, s', o, id) && Unlost(g, s', o, id)
    {
      assert Tracked(g, s', o, id);
      match e {
        case NewTick => assert Tracked(g, s, o, id) && Unlost(g, s, o, id);
        case Act(a) => StepKeepsUnlost(g, s, a, o, id);
      }
    }
  }

  lemma {:induction false} AlwaysSafe(g: Setting, start: Timed, run: seq<TimedEvent>, m: nat)
    requires m <= |run| && Proper(g) && TimedInitial(g, start)
    ensures Safe(g, TimedStateAt(g, start, run, m))
  {
    if m == 0 {
      AlwaysGood(g, start, run, 0);
      forall o, id: uint32 | 0 <= o < |start.net.vehicles|
        ensures Tracked(g, start, o, id) && Unlost(g, start, o, id)
      {
        assert Idle(start.net.vehicles[o]);
      }
    } else {
      AlwaysSafe(g, start, run, m - 1);
      hide Safe, TimedNext, Scheduled, TimedInitial, Proper;
      var s := TimedStateAt(g, start, run, m - 1);
      if Scheduled(g, s, run[m - 1]) { StepKeepsSafe(g, s, run[m - 1]); }
    }
  }

  // ----- Where a token can be at the end of a tick -----

  lemma {:induction false} SomeoneHolds(vs: seq<Vehicle>, n: nat, k: Key) returns (i: nat)
    requires n <= |vs| && Total(vs, n, TokensAt, k) > 0
    ensures i < n && TokensAt(vs[i], k) > 0
  {
    if TokensAt(vs[n - 1], k) > 0 { i := n - 1; } else { i := SomeoneHolds(vs, n - 1, k); }
  }

  lemma {:induction false} CountFinds<T, K>(xs: seq<T>, key: T -> Option<K>, k: K) returns (i: nat)
    requires Count(xs, key, k) > 0
    ensures i < |xs| && key(xs[i]) == Some(k)
  {
    var last := |xs| - 1;
    if key(xs[last]) == Some(k) { i := last; } else { i := CountFinds(xs[..last], key, k); }
  }

  /** How far sound can have come since the start of a trip, the delay taken off, while
      the trip is not over. */
  predicate UnderWay(g: Setting, t: Trip, now: int) {
    (g.soundSpeed as real) * ((now - t.start - g.delay) as real) / 1000000000.0
      <= 2.0 * Apart(g, t) + 2.0 * ((g.soundSpeed as real) * (g.dt as real) / 1000000000.0)
  }

  lemma UnderWayIs(g: Setting, t: Trip, now: int)
    ensures UnderWay(g, t, now) <==>
      Sounded(g, now - t.start - g.delay) <= 2.0 * Apart(g, t) + 2.0 * Sounded(g, g.dt)
  {
  }

  lemma PacketIsUnderWay(g: Setting, t: Trip, now: int, p: Packet)
    requires Proper(g) && PacketFits(g, t, now, p) && PacketKey(p) == Some(t.key)
    ensures UnderWay(g, t, now)
  {
    NoSoundInNoTime(g);
    SoundedGrows(g, 0, g.dt);
    if p.kind == RangeRequest {
      SoundedGrows(g, now - t.start - g.delay, now - t.start);
    } else {
      var sent := p.timeOfTx;
      SoundedAdds(g, sent - t.start - g.delay, now - sent);
      assert now - t.start - g.delay == (sent - t.start - g.delay) + (now - sent);
    }
    UnderWayIs(g, t, now);
    hide Sounded, UnderWay;
  }

  lemma PingIsUnderWay(g: Setting, t: Trip, address: uint32, now: int, p: Ping)
    requires Proper(g) && PingFits(g, t, address, now, p) && PingKey(p) == Some(t.key)
    ensures UnderWay(g, t, now)
  {
    NoSoundInNoTime(g);
    SoundedGrows(g, 0, g.dt);
    SoundedGrows(g, now - t.start - g.delay, p.timeOfReception - t.start);
    UnderWayIs(g, t, now);
    hide Sounded, UnderWay;
  }

  lemma TokenIsUnderWay(g: Setting, t: Trip, s: State, now: int)
    requires Proper(g) && TripFits(g, t, s, now) && AllAt(s.vehicles, now) && s.flight == []
    requires Tokens(s, t.key) > 0
    ensures UnderWay(g, t, now)
  {
    var i := SomeoneHolds(s.vehicles, |s.vehicles|, t.key);
    var v := s.vehicles[i];
    assert VehicleFits(g, t, v) && v.commsTime == now && v.node.timeNow == now;
    hide Proper, UnderWay, PacketFits, PingFits, PacketKey, Total;
    if Count(v.packets, PacketKey, t.key) > 0 {
      var j := CountFinds(v.packets, PacketKey, t.key);
      PacketIsUnderWay(g, t, now, v.packets[j]);
    } else {
      var j := CountFinds(v.node.messageQueue, PingKey, t.key);
      PingIsUnderWay(g, t, v.address, now, v.node.messageQueue[j]);
    }
  }

  /** What the vehicle at o still waits for was asked of somebody, and is either out of
      range or recent: sound has come no further than twice the distance and two ticks. */
  ghost predicate WaitsNoLonger(g: Setting, s: Timed, o: nat, id: uint32)
    requires o < |s.net.vehicles|
  {
    id in s.net.vehicles[o].node.transmissionTime ==>
      && Key(s.net.vehicles[o].address, id) in s.target
      && (InRange(g, s.net.vehicles, TripOf(s, o, id)) ==> UnderWay(g, TripOf(s, o, id), s.now))
  }

  lemma WaitingIsUnderWay(g: Setting, s: Timed, o: nat, id: uint32)
    requires Proper(g) && Safe(g, s) && Scheduled(g, s, NewTick) && o < |s.net.vehicles|
    ensures WaitsNoLonger(g, s, o, id)
  {
    var k := Key(s.net.vehicles[o].address, id);
    assert Tracked(g, s, o, id) && Unlost(g, s, o, id) && Balanced(s.net, k);
    OwnerHoldsAll(s.net, o, k);
    hide Safe, Total, Count, TripFits, UnderWay, InRange;
    if id in s.net.vehicles[o].node.transmissionTime && InRange(g, s.net.vehicles, TripOf(s, o, id)) {
      TokenIsUnderWay(g, TripOf(s, o, id), s.net, s.now);
    }
  }

  /** On a scheduled run, at the end of any tick, at any vehicle and for any id: a request
      within range is not waited for longer than its sound takes there and back and two
      ticks more, the processing delay aside. */
  lemma AnswerComesInTime(g: Setting, start: Timed, run: seq<TimedEvent>, m: nat, o: nat, id: uint32)
    requires m <= |run| && Proper(g) && TimedInitial(g, start)
    requires Scheduled(g, TimedStateAt(g, start, run, m), NewTick)
    requires o < |TimedStateAt(g, start, run, m).net.vehicles|
    ensures WaitsNoLonger(g, TimedStateAt(g, start, run, m), o, id)
  {
    AlwaysSafe(g, start, run, m);
    WaitingIsUnderWay(g, TimedStateAt(g, start, run, m), o, id);
    hide Safe, WaitsNoLonger, TimedStateAt;
  }

  /** And at the end of a tick an id that is not waited for has nothing pending at its
      client: every request with it was answered, and every answer fulfilled. */
  lemma NotWaitedForIsAnswered(g: Setting, start: Timed, run: seq<TimedEvent>, m: nat, o: nat, id: uint32)
    requires m <= |run| && Proper(g) && TimedInitial(g, start)
    requires Scheduled(g, TimedStateAt(g, start, run, m), NewTick) && o < |TimedStateAt(g, start, run, m).net.vehicles|
    ensures var net := TimedStateAt(g, start, run, m).net;
      var v := net.vehicles[o];
      var k := Key(v.address, id);
      && (id in v.client.responsePromises <==> id in v.node.transmissionTime)
      && Count(net.asked, SameKey, k) ==
           Count(net.answered, SameKey, k) + One(id in v.node.transmissionTime)
  {
    AlwaysGood(g, start, run, m);
    var net := TimedStateAt(g, start, run, m).net;
    var k := Key(net.vehicles[o].address, id);
    assert Balanced(net, k);
    OwnerHoldsAll(net, o, k);
    hide TimedStateAt, Good;
  }

  // ----- A tick can always end -----

  /** How many deliveries an envelope can still cause, its own included. */
  function Cost(e: Envelope, vehicles: nat): nat {
    match e.body
    case RequestTopic(_, _) => vehicles + 2
    case Tx(_) => vehicles + 1
    case Bus(_) => 1
    case Rx(_) => 2
    case ResponseTopic(_) => 1
  }

  function Work(es: seq<Envelope>, vehicles: nat): nat {
    if es == [] then 0 else Work(es[..|es| - 1], vehicles) + Cost(es[|es| - 1], vehicles)
  }

  lemma {:induction false} WorkOfSum(es: seq<Envelope>, more: seq<Envelope>, vehicles: nat)
    ensures Work(es + more, vehicles) == Work(es, vehicles) + Work(more, vehicles)
  {
    if more == [] {
      assert es + more == es;
    } else {
      WorkOfSum(es, more[..|more| - 1], vehicles);
      assert (es + more)[..|es + more| - 1] == es + more[..|more| - 1];
    }
  }

  lemma WorkWithout(es: seq<Envelope>, n: nat, vehicles: nat)
    requires n < |es|
    ensures Work(es, vehicles) == Work(Without(es, n), vehicles) + Cost(es[n], vehicles)
  {
    assert es == (es[..n] + [es[n]]) + es[n + 1..];
    WorkOfSum(es[..n] + [es[n]], es[n + 1..], vehicles);
    WorkOfSum(es[..n], [es[n]], vehicles);
    WorkOfSum(es[..n], es[n + 1..], vehicles);
    WorkOfOne(es[n], vehicles);
    hide Work, Cost;
  }

  lemma WorkOfOne(e: Envelope, vehicles: nat)
    ensures Work([e], vehicles) == Cost(e, vehicles)
  {
    assert [e][..0] == [];
  }

  lemma {:induction false} WorkOfBroadcast(vs: seq<Vehicle>, n: nat, im: InternalComms, vehicles: nat)
    requires n <= |vs|
    ensures Work(Broadcast(vs, n, im), vehicles) == n
  {
    if n > 0 { WorkOfBroadcast(vs, n - 1, im, vehicles); }
  }

  /** Every delivery leaves less to deliver: the callbacks of a tick come to an end, and
      the next tick can begin. */
  lemma DeliveriesRunOut(s: State, n: nat)
    requires Enabled(s, Deliver(n))
    ensures Work(Next(s, Deliver(n)).flight, |s.vehicles|) < Work(s.flight, |s.vehicles|)
  {
    var rest, e, more := Without(s.flight, n), s.flight[n], Sent(s, n);
    WorkWithout(s.flight, n, |s.vehicles|);
    WorkOfSum(rest, more, |s.vehicles|);
    SentIsLess(s, n);
    SentIsSent(s, n);
    hide Next, Work, Cost, Sent;
  }

  /** What the callback that takes envelope n puts in flight. */
  function Sent(s: State, n: nat): seq<Envelope>
    requires Enabled(s, Deliver(n))
  {
    var e := s.flight[n];
    var v := s.vehicles[e.dest];
    match e.body
    case RequestTopic(to, id) => [Envelope(e.dest, e.address, Tx(RequestFor(v.ranging, to, id)))]
    case Tx(m) => Broadcast(s.vehicles, |s.vehicles|, ToInternalMsg(Make(m, v.position, v.commsTime)))
    case Rx(m) =>
      if m.kind == RangeResponseMessage
      then [Envelope(e.dest, e.address, ResponseTopic(AnswerTo(v.ranging, v.node, m)))]
      else []
    case _ => []
  }

  lemma SentIsSent(s: State, n: nat)
    requires Enabled(s, Deliver(n))
    ensures Next(s, Deliver(n)).flight == Without(s.flight, n) + Sent(s, n)
  {
    assert Without(s.flight, n) + [] == Without(s.flight, n);
    hide Broadcast, Without;
  }

  lemma SentIsLess(s: State, n: nat)
    requires Enabled(s, Deliver(n))
    ensures Work(Sent(s, n), |s.vehicles|) < Cost(s.flight[n], |s.vehicles|)
  {
    var e := s.flight[n];
    var v := s.vehicles[e.dest];
    hide Broadcast, ToInternalMsg, Covered;
    match e.body {
      case RequestTopic(to, id) =>
        WorkOfOne(Envelope(e.dest, e.address, Tx(RequestFor(v.ranging, to, id))), |s.vehicles|);
      case Tx(m) =>
        WorkOfBroadcast(s.vehicles, |s.vehicles|, ToInternalMsg(Make(m, v.position, v.commsTime)), |s.vehicles|);
      case Rx(m) =>
        if m.kind == RangeResponseMessage {
          WorkOfOne(Envelope(e.dest, e.address, ResponseTopic(AnswerTo(v.ranging, v.node, m))), |s.vehicles|);
        }
      case _ =>
    }
  }
}
