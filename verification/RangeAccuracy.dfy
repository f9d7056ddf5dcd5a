/** How accurate a published range is: the network of vehicles under a simulation clock,
    with the vehicles standing still. */
module RangeAccuracy {
  import opened CommsPacket
  import opened AcousticModel
  import opened RangeBearing
  import opened Counting
  import opened Network
  import opened Wrappers

  /** What all vehicles share, and where each address stands. */
  datatype Setting = Setting(
    dt: int, soundSpeed: uint32, delay: int, dist: (Position, Position) -> real, place: uint32 -> Position)

  ghost predicate Proper(g: Setting) {
    && g.dt > 0 && g.delay >= 0
    && forall p, q :: g.dist(p, q) >= 0.0 && g.dist(p, q) == g.dist(q, p)
  }

  /** The vehicle is configured as the setting says and stands at its place. */
  ghost predicate Stands(g: Setting, v: Vehicle) {
    && v.position == g.place(v.address)
    && v.acoustics.dist == g.dist && v.acoustics.speedOfSound == g.soundSpeed
    && v.ranging.speedOfSound == g.soundSpeed as real && v.ranging.processingDelay == g.delay
    && QueueInOrder(v.node)
  }

  ghost predicate AllStand(g: Setting, vs: seq<Vehicle>) {
    forall i :: 0 <= i < |vs| ==> Stands(g, vs[i])
  }

  /** A network at a simulation time; `target` remembers whom each request asked. */
  datatype Timed = Timed(net: State, now: int, target: map<Key, uint32>)

  datatype TimedEvent = NewTick | Act(event: Network.Event)

  predicate AllAt(vs: seq<Vehicle>, t: int) {
    forall i :: 0 <= i < |vs| ==> vs[i].commsTime == t && vs[i].node.timeNow == t
  }

  /** The schedule of a simulation: in every tick each plugin is updated once, then the
      callbacks run, and the next tick begins when nothing is left in flight.  Clients
      ask at any time, with fresh ids. */
  ghost predicate Scheduled(g: Setting, s: Timed, e: TimedEvent) {
    match e
    case NewTick => AllAt(s.net.vehicles, s.now) && s.net.flight == []
    case Act(a) => Enabled(s.net, a) && Fresh(s.net, a) && InTurn(g, s, a)
  }

  ghost predicate InTurn(g: Setting, s: Timed, a: Network.Event)
    requires Enabled(s.net, a)
  {
    match a
    case Deliver(_) => AllAt(s.net.vehicles, s.now)
    case CommsUpdate(i, t, at) =>
      t == s.now && s.net.vehicles[i].commsTime == s.now - g.dt && at == s.net.vehicles[i].position
    case RangingUpdate(i, t) => t == s.now && s.net.vehicles[i].node.timeNow == s.now - g.dt
    case Ask(_, _) => true
    case SendData(_, _, _) => true
  }

  function Targets(s: Timed, a: Network.Event): map<Key, uint32>
    requires Enabled(s.net, a)
  {
    if a.Deliver? && s.net.flight[a.index].body.RequestTopic? then
      var e := s.net.flight[a.index];
      s.target[Key(e.address, e.body.id) := e.body.to]
    else s.target
  }

  ghost function TimedNext(g: Setting, s: Timed, e: TimedEvent): Timed
    requires Scheduled(g, s, e)
  {
    match e
    case NewTick => s.(now := s.now + g.dt)
    case Act(a) => Timed(Next(s.net, a), s.now, Targets(s, a))
  }

  ghost function TimedStateAt(g: Setting, start: Timed, run: seq<TimedEvent>, m: nat): Timed
    requires m <= |run|
  {
    if m == 0 then start
    else
      var s := TimedStateAt(g, start, run, m - 1);
      if Scheduled(g, s, run[m - 1]) then TimedNext(g, s, run[m - 1]) else s
  }

  ghost predicate TimedInitial(g: Setting, s: Timed) {
    Initial(s.net) && AllStand(g, s.net.vehicles) && AllAt(s.net.vehicles, s.now)
  }

  // ----- One request on its way -----

  /** A request, whom it asked, and when it was sent. */
  datatype Trip = Trip(key: Key, to: uint32, start: int)

  function Apart(g: Setting, t: Trip): real { g.dist(g.place(t.key.initiator), g.place(t.to)) }

  /** How far sound comes in so many nanoseconds. */
  function Sounded(g: Setting, ns: int): real { (g.soundSpeed as real) * (ns as real) / 1000000000.0 }

  lemma SoundedIsCovered(g: Setting, ns: int)
    ensures Sounded(g, ns) == Covered(g.soundSpeed as real, ns)
  {
    CoveredIs(g.soundSpeed as real, ns);
    hide Covered;
  }

  /** Hearing the request at r, answering it at r, hearing the answer at r: how far sound
      can have come since the start, the processing delay taken off. */
  predicate Heard(g: Setting, t: Trip, r: int) {
    Apart(g, t) <= Sounded(g, r - t.start) <= Apart(g, t) + Sounded(g, g.dt)
  }

  predicate Replied(g: Setting, t: Trip, r: int) {
    Apart(g, t) <= Sounded(g, r - t.start - g.delay) <= Apart(g, t) + 2.0 * Sounded(g, g.dt)
  }

  predicate Returned(g: Setting, t: Trip, r: int) {
    2.0 * Apart(g, t) <= Sounded(g, r - t.start - g.delay) <= 2.0 * Apart(g, t) + 3.0 * Sounded(g, g.dt)
  }

  /** A packet of the trip was sent from the right place at a right time. */
  predicate SentRight(g: Setting, t: Trip, p: Packet) {
    if p.kind == RangeRequest then
      p.to == t.to && p.timeOfTx == t.start && p.position == g.place(t.key.initiator)
    else
      p.from == t.to && Replied(g, t, p.timeOfTx) && p.position == g.place(t.to)
  }

  ghost predicate EnvelopeFits(g: Setting, t: Trip, now: int, e: Envelope) {
    TokenOf(e) == Some(t.key) ==>
      match e.body
      case Tx(m) =>
        if m.kind == RangeRequestMessage then m.to == t.to && t.start == now
        else m.from == t.to && Replied(g, t, now)
      case Bus(im) => SentRight(g, t, MakeInternal(im)) && MakeInternal(im).timeOfTx == now
      case Rx(m) =>
        if m.kind == RangeRequestMessage then m.to == t.to && Heard(g, t, now)
        else m.from == t.to && Returned(g, t, now)
      case _ => true
  }

  /** At the channel's clock, sound had not covered the distance yet. */
  ghost predicate PacketFits(g: Setting, t: Trip, clock: int, p: Packet) {
    PacketKey(p) == Some(t.key) ==>
      && SentRight(g, t, p) && p.timeOfTx <= clock
      && (p.timeOfTx == clock || Sounded(g, clock - p.timeOfTx) < Apart(g, t))
  }

  /** At the plugin's clock, the ping was not due yet. */
  ghost predicate PingFits(g: Setting, t: Trip, address: uint32, clock: int, p: Ping) {
    PingKey(p) == Some(t.key) ==>
      && address == t.to && Heard(g, t, p.timeOfReception) && p.timeOfReception <= clock
      && (p.timeOfReception == clock || p.timeOfReception + g.delay > clock)
  }

  ghost predicate PacketsFit(g: Setting, t: Trip, clock: int, ps: seq<Packet>) {
    forall i :: 0 <= i < |ps| ==> PacketFits(g, t, clock, ps[i])
  }

  ghost predicate PingsFit(g: Setting, t: Trip, address: uint32, clock: int, q: seq<Ping>) {
    forall i :: 0 <= i < |q| ==> PingFits(g, t, address, clock, q[i])
  }

  ghost predicate EnvelopesFit(g: Setting, t: Trip, now: int, es: seq<Envelope>) {
    forall n :: 0 <= n < |es| ==> EnvelopeFits(g, t, now, es[n])
  }

  ghost predicate VehicleFits(g: Setting, t: Trip, v: Vehicle) {
    PacketsFit(g, t, v.commsTime, v.packets) && PingsFit(g, t, v.address, v.node.timeNow, v.node.messageQueue)
  }

  ghost predicate VehiclesFit(g: Setting, t: Trip, vs: seq<Vehicle>) {
    forall i :: 0 <= i < |vs| ==> VehicleFits(g, t, vs[i])
  }

  ghost predicate TripFits(g: Setting, t: Trip, s: State, now: int) {
    EnvelopesFit(g, t, now, s.flight) && VehiclesFit(g, t, s.vehicles)
  }

  // ----- Sound and time -----

  lemma SoundedAdds(g: Setting, x: int, y: int)
    ensures Sounded(g, x + y) == Sounded(g, x) + Sounded(g, y)
  {
    CoveredAdds(g.soundSpeed as real, x, y);
    SoundedIsCovered(g, x + y);
    SoundedIsCovered(g, x);
    SoundedIsCovered(g, y);
    hide Sounded, Covered;
  }

  lemma SoundedGrows(g: Setting, x: int, y: int)
    requires x <= y
    ensures Sounded(g, x) <= Sounded(g, y)
  {
    CoveredGrows(g.soundSpeed as real, x, y);
    SoundedIsCovered(g, x);
    SoundedIsCovered(g, y);
    hide Sounded, Covered;
  }

  lemma NoSoundInNoTime(g: Setting)
    ensures Sounded(g, 0) == 0.0
  {
  }

  /** What had not arrived a tick ago is at most one tick of sound past the distance. */
  lemma ArrivalWindow(g: Setting, sent: int, now: int, d: real)
    requires d >= 0.0 && (sent == now - g.dt || Sounded(g, now - g.dt - sent) < d)
    ensures Sounded(g, now - sent) <= d + Sounded(g, g.dt)
  {
    SoundedAdds(g, now - g.dt - sent, g.dt);
    NoSoundInNoTime(g);
    hide Sounded;
  }

  lemma RequestIsHeard(g: Setting, t: Trip, now: int)
    requires Proper(g) && (t.start == now - g.dt || Sounded(g, now - g.dt - t.start) < Apart(g, t))
    requires Apart(g, t) <= Sounded(g, now - t.start)
    ensures Heard(g, t, now)
  {
    ArrivalWindow(g, t.start, now, Apart(g, t));
  }

  lemma PingIsReplied(g: Setting, t: Trip, r: int, now: int)
    requires Proper(g) && Heard(g, t, r) && r + g.delay <= now
    requires r == now - g.dt || r + g.delay > now - g.dt
    ensures Replied(g, t, now)
  {
    SoundedGrows(g, r - t.start, now - t.start - g.delay);
    SoundedAdds(g, r - t.start, g.dt);
    SoundedGrows(g, now - t.start - g.delay, r - t.start + g.dt);
    hide Sounded;
  }

  lemma ReplyIsReturned(g: Setting, t: Trip, sent: int, now: int)
    requires Proper(g) && Replied(g, t, sent)
    requires sent == now - g.dt || Sounded(g, now - g.dt - sent) < Apart(g, t)
    requires Apart(g, t) <= Sounded(g, now - sent)
    ensures Returned(g, t, now)
  {
    ArrivalWindow(g, sent, now, Apart(g, t));
    SoundedAdds(g, sent - t.start - g.delay, now - sent);
    assert now - t.start - g.delay == (sent - t.start - g.delay) + (now - sent);
    hide Sounded;
  }

  // ----- The pieces of a step -----

  /** One tick of the channel of the vehicle at `a`, for one packet. */
  lemma PacketMoves(g: Setting, t: Trip, k: Acoustics, p: Packet, now: int, a: uint32, dest: nat)
    requires Proper(g) && k.dist == g.dist && k.speedOfSound == g.soundSpeed && p.to == a
    requires PacketFits(g, t, now - g.dt, p)
    ensures !Arrived(k, p, now, g.place(a)) ==> PacketFits(g, t, now, p)
    ensures Reaches(k, p, now, g.place(a)) ==> EnvelopeFits(g, t, now, Envelope(dest, a, Rx(ToExternalMsg(p))))
  {
    if PacketKey(p) == Some(t.key) {
      assert g.dist(p.position, g.place(a)) == Apart(g, t);
      hide Sounded, Covered;
      if Arrived(k, p, now, g.place(a)) {
        ArrivedIsSounded(g, t, k, p, now, g.place(a));
        if p.kind == RangeRequest {
          RequestIsHeard(g, t, now);
        } else {
          ReplyIsReturned(g, t, p.timeOfTx, now);
        }
      } else {
        ArrivedIsSounded(g, t, k, p, now, g.place(a));
      }
    }
  }

  lemma ArrivedIsSounded(g: Setting, t: Trip, k: Acoustics, p: Packet, now: int, at: Position)
    requires k.dist == g.dist && k.speedOfSound == g.soundSpeed && g.dist(p.position, at) == Apart(g, t)
    ensures Arrived(k, p, now, at) <==> Apart(g, t) <= Sounded(g, now - p.timeOfTx)
  {
    SoundedIsCovered(g, now - p.timeOfTx);
    hide Covered, Sounded;
  }

  lemma {:induction false} PacketsMove(
    g: Setting, t: Trip, k: Acoustics, ps: seq<Packet>, now: int, a: uint32, dest: nat)
    requires Proper(g) && k.dist == g.dist && k.speedOfSound == g.soundSpeed && AllTo(ps, a)
    requires PacketsFit(g, t, now - g.dt, ps)
    ensures PacketsFit(g, t, now, Survivors(k, ps, now, g.place(a)))
    ensures EnvelopesFit(g, t, now, ToRx(Delivered(k, ps, now, g.place(a)), dest, a))
  {
    if ps != [] {
      var front, p, at := ps[..|ps| - 1], ps[|ps| - 1], g.place(a);
      assert PacketFits(g, t, now - g.dt, ps[|ps| - 1]);
      PacketsMove(g, t, k, front, now, a, dest);
      PacketMoves(g, t, k, p, now, a, dest);
      hide Arrived, Reaches, PacketFits, EnvelopeFits, Proper;
      var d := Delivered(k, front, now, at);
      assert (d + [p])[..|d|] == d;
      assert d + [] == d;
    }
  }

  lemma {:induction false} RepliesFit(g: Setting, t: Trip, c: RangingConfig, q: seq<Ping>, n: nat, now: int, dest: nat)
    requires n <= |q| && Proper(g) && c.processingDelay == g.delay
    requires PingsFit(g, t, c.address, now - g.dt, q) && forall i :: 0 <= i < n ==> Due(c, now, q[i])
    ensures EnvelopesFit(g, t, now, ToTx(Replies(c, q, n), dest, c.address))
  {
    if n > 0 {
      RepliesFit(g, t, c, q, n - 1, now, dest);
      var rs, p := Replies(c, q, n - 1), q[n - 1];
      ReplyFits(g, t, c, p, now, dest);
      hide EnvelopeFits, PingFits, Due, Proper;
      assert (rs + [ReplyTo(c, p)])[..|rs|] == rs;
    }
  }

  lemma ReplyFits(g: Setting, t: Trip, c: RangingConfig, p: Ping, now: int, dest: nat)
    requires Proper(g) && c.processingDelay == g.delay
    requires PingFits(g, t, c.address, now - g.dt, p) && Due(c, now, p)
    ensures EnvelopeFits(g, t, now, Envelope(dest, c.address, Tx(ReplyTo(c, p))))
  {
    hide Heard, Replied;
    if PingKey(p) == Some(t.key) { PingIsReplied(g, t, p.timeOfReception, now); }
  }

  lemma PingsWait(g: Setting, t: Trip, c: RangingConfig, s: RangingState, now: int)
    requires QueueInOrder(s) && s.timeNow <= now && c.processingDelay == g.delay
    requires PingsFit(g, t, c.address, s.timeNow, s.messageQueue)
    ensures PingsFit(g, t, c.address, now, Released(c, s, now).messageQueue)
  {
    var n, q := DuePrefix(c, now, s.messageQueue, 0), Released(c, s, now).messageQueue;
    hide DuePrefix, Heard;
    forall i | 0 <= i < |q|
      ensures PingFits(g, t, c.address, now, q[i])
    {
      assert q[i] == s.messageQueue[n + i];
      NoPingWaitsInLine(c, s, now, n + i);
    }
  }

  lemma {:induction false} BroadcastFits(g: Setting, t: Trip, vs: seq<Vehicle>, n: nat, im: InternalComms, now: int)
    requires n <= |vs|
    requires PacketKey(MakeInternal(im)) == Some(t.key) ==>
      SentRight(g, t, MakeInternal(im)) && MakeInternal(im).timeOfTx == now
    ensures EnvelopesFit(g, t, now, Broadcast(vs, n, im))
  {
    if n > 0 { BroadcastFits(g, t, vs, n - 1, im, now); }
  }

  lemma WithoutFits(g: Setting, t: Trip, now: int, es: seq<Envelope>, n: nat)
    requires n < |es| && EnvelopesFit(g, t, now, es)
    ensures EnvelopesFit(g, t, now, Without(es, n))
  {
    hide EnvelopeFits;
    var rest := Without(es, n);
    assert forall j :: 0 <= j < |rest| ==> rest[j] == if j < n then es[j] else es[j + 1];
  }

  /** One vehicle changed and envelopes were added. */
  lemma FitsAfter(
    g: Setting, t: Trip, s: State, now: int, i: nat, v: Vehicle, rest: seq<Envelope>, more: seq<Envelope>, s': State)
    requires i < |s.vehicles| && VehiclesFit(g, t, s.vehicles) && VehicleFits(g, t, v)
    requires EnvelopesFit(g, t, now, rest) && EnvelopesFit(g, t, now, more)
    requires s'.vehicles == s.vehicles[i := v] && s'.flight == rest + more
    ensures TripFits(g, t, s', now)
  {
    hide VehicleFits, EnvelopeFits;
  }

  // ----- Every step keeps a trip fitting -----

  ghost predicate Ready(g: Setting, t: Trip, s: Timed) {
    Proper(g) && WellFormed(s.net) && AllStand(g, s.net.vehicles) && TripFits(g, t, s.net, s.now)
  }

  lemma RequestTopicFits(g: Setting, t: Trip, s: Timed, n: nat)
    requires Ready(g, t, s) && n < |s.net.flight| && s.net.flight[n].body.RequestTopic?
    requires var e := s.net.flight[n];
      t.key == Key(e.address, e.body.id) ==> t.to == e.body.to && t.start == s.now
    ensures Enabled(s.net, Deliver(n)) && TripFits(g, t, Next(s.net, Deliver(n)), s.now)
  {
    var e := s.net.flight[n];
    var v := s.net.vehicles[e.dest];
    assert WellAddressed(s.net.vehicles, e) && WellConfigured(v) && VehicleFits(g, t, v);
    WithoutFits(g, t, s.now, s.net.flight, n);
    hide Proper, WellFormed, AllStand, Stands, EnvelopesFit, VehiclesFit, Heard, Replied, Returned, PacketsFit,
      PingsFit;
    var m := RequestFor(v.ranging, e.body.to, e.body.id);
    OneFits(g, t, s.now, Envelope(e.dest, e.address, Tx(m)));
    FitsAfter(g, t, s.net, s.now, e.dest, v.(node := RequestSent(v.node, e.body.id)),
              Without(s.net.flight, n), [Envelope(e.dest, e.address, Tx(m))], Next(s.net, Deliver(n)));
  }

  lemma OneFits(g: Setting, t: Trip, now: int, e: Envelope)
    requires EnvelopeFits(g, t, now, e)
    ensures EnvelopesFit(g, t, now, [e])
  {
  }

  lemma TxFits(g: Setting, t: Trip, s: Timed, n: nat)
    requires Ready(g, t, s) && AllAt(s.net.vehicles, s.now) && n < |s.net.flight| && s.net.flight[n].body.Tx?
    ensures Enabled(s.net, Deliver(n)) && TripFits(g, t, Next(s.net, Deliver(n)), s.now)
  {
    var e := s.net.flight[n];
    var v, m := s.net.vehicles[e.dest], e.body.m;
    assert WellAddressed(s.net.vehicles, e) && Stands(g, v) && VehicleFits(g, t, v);
    assert EnvelopeFits(g, t, s.now, e) && v.commsTime == s.now;
    WithoutFits(g, t, s.now, s.net.flight, n);
    var p := Make(m, v.position, v.commsTime);
    var im := ToInternalMsg(p);
    PacketSurvives(p, m, v.position, v.commsTime);
    MadeIsSentRight(g, t, m, v.position, s.now);
    BroadcastFits(g, t, s.net.vehicles, |s.net.vehicles|, im, s.now);
    hide Proper, WellFormed, AllStand, Stands, EnvelopesFit, VehiclesFit, VehicleFits, EnvelopeFits, Broadcast;
    assert s.net.vehicles[e.dest := v] == s.net.vehicles;
    FitsAfter(g, t, s.net, s.now, e.dest, v, Without(s.net.flight, n),
              Broadcast(s.net.vehicles, |s.net.vehicles|, im), Next(s.net, Deliver(n)));
  }

  lemma MadeIsSentRight(g: Setting, t: Trip, m: AcousticMessage, at: Position, now: int)
    requires at == g.place(m.from)
    requires EnvelopeFits(g, t, now, Envelope(0, m.from, Tx(m)))
    ensures PacketKey(Make(m, at, now)) == Some(t.key) ==> SentRight(g, t, Make(m, at, now))
  {
    hide Replied;
  }

  lemma BusFits(g: Setting, t: Trip, s: Timed, n: nat)
    requires Ready(g, t, s) && AllAt(s.net.vehicles, s.now) && n < |s.net.flight| && s.net.flight[n].body.Bus?
    ensures Enabled(s.net, Deliver(n)) && TripFits(g, t, Next(s.net, Deliver(n)), s.now)
  {
    var e := s.net.flight[n];
    var v, p := s.net.vehicles[e.dest], MakeInternal(e.body.im);
    assert WellAddressed(s.net.vehicles, e) && WellConfigured(v) && VehicleFits(g, t, v);
    assert EnvelopeFits(g, t, s.now, e) && v.commsTime == s.now;
    WithoutFits(g, t, s.now, s.net.flight, n);
    var rest := Without(s.net.flight, n);
    var v' := v.(packets := Enqueued(v.acoustics, v.packets, p));
    hide Proper, WellFormed, AllStand, Stands, VehiclesFit, SentRight, MakeInternal, PingsFit, Without;
    assert VehicleFits(g, t, v');
    assert rest + [] == rest;
    FitsAfter(g, t, s.net, s.now, e.dest, v', rest, [], Next(s.net, Deliver(n)));
  }

  lemma RxFits(g: Setting, t: Trip, s: Timed, n: nat)
    requires Ready(g, t, s) && AllAt(s.net.vehicles, s.now) && n < |s.net.flight| && s.net.flight[n].body.Rx?
    ensures Enabled(s.net, Deliver(n)) && TripFits(g, t, Next(s.net, Deliver(n)), s.now)
  {
    var e := s.net.flight[n];
    var v, m := s.net.vehicles[e.dest], e.body.m;
    assert WellAddressed(s.net.vehicles, e) && VehicleFits(g, t, v);
    assert EnvelopeFits(g, t, s.now, e) && v.node.timeNow == s.now;
    WithoutFits(g, t, s.now, s.net.flight, n);
    var rest := Without(s.net.flight, n);
    var s' := Next(s.net, Deliver(n));
    hide Proper, WellFormed, AllStand, Stands, EnvelopesFit, VehiclesFit, Heard, Returned, PacketsFit, Without;
    assert rest + [] == rest && s.net.vehicles[e.dest := v] == s.net.vehicles;
    assert EnvelopesFit(g, t, s.now, []) by { NoneFits(g, t, s.now); }
    match m.kind {
      case RangeRequestMessage =>
        assert VehicleFits(g, t, v.(node := PingQueued(v.node, m)));
        FitsAfter(g, t, s.net, s.now, e.dest, v.(node := PingQueued(v.node, m)), rest, [], s');
      case RangeResponseMessage =>
        var answer := Envelope(e.dest, e.address, ResponseTopic(AnswerTo(v.ranging, v.node, m)));
        OneFits(g, t, s.now, answer);
        FitsAfter(g, t, s.net, s.now, e.dest, v.(node := ResponseTaken(v.node, m)), rest, [answer], s');
      case OtherMessage => FitsAfter(g, t, s.net, s.now, e.dest, v, rest, [], s');
    }
  }

  lemma NoneFits(g: Setting, t: Trip, now: int)
    ensures EnvelopesFit(g, t, now, [])
  {
  }

  lemma ResponseTopicFits(g: Setting, t: Trip, s: Timed, n: nat)
    requires Ready(g, t, s) && n < |s.net.flight| && s.net.flight[n].body.ResponseTopic?
    ensures Enabled(s.net, Deliver(n)) && TripFits(g, t, Next(s.net, Deliver(n)), s.now)
  {
    var e := s.net.flight[n];
    assert WellAddressed(s.net.vehicles, e) && VehicleFits(g, t, s.net.vehicles[e.dest]);
    WithoutFits(g, t, s.now, s.net.flight, n);
    NoneFits(g, t, s.now);
    var rest := Without(s.net.flight, n);
    hide Proper, WellFormed, AllStand, EnvelopesFit, VehiclesFit, PacketsFit, PingsFit, Without;
    assert rest + [] == rest;
    FitsAfter(g, t, s.net, s.now, e.dest, Next(s.net, Deliver(n)).vehicles[e.dest], rest, [], Next(s.net, Deliver(n)));
  }

  lemma AskFits(g: Setting, t: Trip, s: Timed, a: Network.Event)
    requires Ready(g, t, s) && (a.Ask? || a.SendData?) && Enabled(s.net, a)
    ensures TripFits(g, t, Next(s.net, a), s.now)
  {
    var i := a.vehicle;
    assert VehicleFits(g, t, s.net.vehicles[i]);
    var s' := Next(s.net, a);
    assert s.net.vehicles[i := s.net.vehicles[i]] == s.net.vehicles;
    var e := s'.flight[|s.net.flight|];
    assert s'.flight == s.net.flight + [e];
    OneFits(g, t, s.now, e);
    hide Proper, WellFormed, AllStand, EnvelopesFit, VehiclesFit, PacketsFit, PingsFit;
    FitsAfter(g, t, s.net, s.now, i, s'.vehicles[i], s.net.flight, [e], s');
  }

  lemma CommsUpdateFits(g: Setting, t: Trip, s: Timed, i: nat)
    requires Ready(g, t, s) && i < |s.net.vehicles| && s.net.vehicles[i].commsTime == s.now - g.dt
    ensures TripFits(g, t, Next(s.net, CommsUpdate(i, s.now, s.net.vehicles[i].position)), s.now)
  {
    var v := s.net.vehicles[i];
    var at := v.position;
    assert Stands(g, v) && WellConfigured(v) && VehicleFits(g, t, v);
    PacketsMove(g, t, v.acoustics, v.packets, s.now, v.address, i);
    var s' := Next(s.net, CommsUpdate(i, s.now, at));
    hide Proper, WellFormed, AllStand, Stands, EnvelopesFit, VehiclesFit, PacketsFit, PingsFit, Survivors, Delivered,
      Dropped, ToRx;
    FitsAfter(g, t, s.net, s.now, i, s'.vehicles[i], s.net.flight,
              ToRx(Delivered(v.acoustics, v.packets, s.now, at), i, v.address), s');
  }

  lemma RangingUpdateFits(g: Setting, t: Trip, s: Timed, i: nat)
    requires Ready(g, t, s) && i < |s.net.vehicles| && s.net.vehicles[i].node.timeNow == s.now - g.dt
    ensures TripFits(g, t, Next(s.net, RangingUpdate(i, s.now)), s.now)
  {
    var v := s.net.vehicles[i];
    var q := v.node.messageQueue;
    var n := DuePrefix(v.ranging, s.now, q, 0);
    assert Stands(g, v) && WellConfigured(v) && VehicleFits(g, t, v);
    DuePrefixIsDue(v.ranging, s.now, q, 0);
    RepliesFit(g, t, v.ranging, q, n, s.now, i);
    PingsWait(g, t, v.ranging, v.node, s.now);
    var s' := Next(s.net, RangingUpdate(i, s.now));
    hide Proper, WellFormed, AllStand, Stands, EnvelopesFit, VehiclesFit, PacketsFit, PingsFit, DuePrefix, Replies,
      ToTx;
    FitsAfter(g, t, s.net, s.now, i, s'.vehicles[i], s.net.flight, ToTx(Replies(v.ranging, q, n), i, v.address), s');
  }

  lemma DeliveryFits(g: Setting, t: Trip, s: Timed, n: nat)
    requires Ready(g, t, s) && AllAt(s.net.vehicles, s.now) && n < |s.net.flight|
    requires var e := s.net.flight[n];
      e.body.RequestTopic? && t.key == Key(e.address, e.body.id) ==> t.to == e.body.to && t.start == s.now
    ensures Enabled(s.net, Deliver(n)) && TripFits(g, t, Next(s.net, Deliver(n)), s.now)
  {
    hide Ready, Next, TripFits, AllAt, Enabled;
    match s.net.flight[n].body {
      case RequestTopic(_, _) => RequestTopicFits(g, t, s, n);
      case Tx(_) => TxFits(g, t, s, n);
      case Bus(_) => BusFits(g, t, s, n);
      case Rx(_) => RxFits(g, t, s, n);
      case ResponseTopic(_) => ResponseTopicFits(g, t, s, n);
    }
  }

  /** The step starts a trip with this key. */
  predicate Starts(s: Timed, a: Network.Event, k: Key)
    requires Enabled(s.net, a)
  {
    a.Deliver? && s.net.flight[a.index].body.RequestTopic?
    && k == Key(s.net.flight[a.index].address, s.net.flight[a.index].body.id)
  }

  lemma StepFits(g: Setting, t: Trip, s: Timed, a: Network.Event)
    requires Ready(g, t, s) && Scheduled(g, s, Act(a))
    requires Starts(s, a, t.key) ==> t.to == s.net.flight[a.index].body.to && t.start == s.now
    ensures TripFits(g, t, Next(s.net, a), s.now)
  {
    hide Ready, Next, TripFits, AllAt, Fresh;
    match a {
      case Deliver(n) => DeliveryFits(g, t, s, n);
      case CommsUpdate(i, _, _) => CommsUpdateFits(g, t, s, i);
      case RangingUpdate(i, _) => RangingUpdateFits(g, t, s, i);
      case Ask(_, _) => AskFits(g, t, s, a);
      case SendData(_, _, _) => AskFits(g, t, s, a);
    }
  }

  // ----- The invariant of all runs -----

  lemma {:induction false} TotalIsZero(vs: seq<Vehicle>, n: nat, k: Key)
    requires n <= |vs| && Total(vs, n, TokensAt, k) == 0
    ensures forall i :: 0 <= i < n ==> TokensAt(vs[i], k) == 0
  {
    if n > 0 {
      TotalIsNat(vs, n - 1, k);
      TotalIsZero(vs, n - 1, k);
    }
  }

  lemma {:induction false} TotalIsNat(vs: seq<Vehicle>, n: nat, k: Key)
    requires n <= |vs|
    ensures Total(vs, n, TokensAt, k) >= 0
  {
    if n > 0 { TotalIsNat(vs, n - 1, k); }
  }

  lemma EmptyVehicleFits(g: Setting, t: Trip, v: Vehicle)
    requires TokensAt(v, t.key) == 0
    ensures VehicleFits(g, t, v)
  {
    hide Count, PacketKey;
    forall i | 0 <= i < |v.packets|
      ensures PacketFits(g, t, v.commsTime, v.packets[i])
    {
      if PacketKey(v.packets[i]) == Some(t.key) { CountPositive(v.packets, i, PacketKey, t.key); }
    }
    forall i | 0 <= i < |v.node.messageQueue|
      ensures PingFits(g, t, v.address, v.node.timeNow, v.node.messageQueue[i])
    {
      if PingKey(v.node.messageQueue[i]) == Some(t.key) { CountPositive(v.node.messageQueue, i, PingKey, t.key); }
    }
  }

  /** A trip without tokens fits. */
  lemma NoTokensFit(g: Setting, t: Trip, s: State, now: int)
    requires Tokens(s, t.key) == 0
    ensures TripFits(g, t, s, now)
  {
    hide Count, Total, VehicleFits, TokensAt, TokenOf;
    TotalIsNat(s.vehicles, |s.vehicles|, t.key);
    TotalIsZero(s.vehicles, |s.vehicles|, t.key);
    forall i | 0 <= i < |s.vehicles|
      ensures VehicleFits(g, t, s.vehicles[i])
    {
      EmptyVehicleFits(g, t, s.vehicles[i]);
    }
    forall n | 0 <= n < |s.flight|
      ensures EnvelopeFits(g, t, now, s.flight[n])
    {
      if TokenOf(s.flight[n]) == Some(t.key) { CountPositive(s.flight, n, TokenOf, t.key); }
    }
  }

  function TripOf(s: Timed, o: nat, id: uint32): Trip
    requires o < |s.net.vehicles| && id in s.net.vehicles[o].node.transmissionTime
    requires Key(s.net.vehicles[o].address, id) in s.target
  {
    var k := Key(s.net.vehicles[o].address, id);
    Trip(k, s.target[k], s.net.vehicles[o].node.transmissionTime[id])
  }

  ghost predicate Tracked(g: Setting, s: Timed, o: nat, id: uint32)
    requires o < |s.net.vehicles|
  {
    id in s.net.vehicles[o].node.transmissionTime ==>
      Key(s.net.vehicles[o].address, id) in s.target && TripFits(g, TripOf(s, o, id), s.net, s.now)
  }

  ghost predicate AllTracked(g: Setting, s: Timed) {
    forall o, id: uint32 :: 0 <= o < |s.net.vehicles| ==> Tracked(g, s, o, id)
  }

  ghost predicate Good(g: Setting, s: Timed) {
    WellFormed(s.net) && Books(s.net) && AllStand(g, s.net.vehicles) && AllTracked(g, s)
  }

  /** A request topic on its way means its id is not yet waited for, and has no tokens. */
  lemma RequestTopicIsFirst(s: State, n: nat, k: Key)
    requires WellFormed(s) && Books(s) && n < |s.flight| && s.flight[n].body.RequestTopic?
    requires k == Key(s.flight[n].address, s.flight[n].body.id)
    ensures Tokens(s, k) == 0
  {
    assert Balanced(s, k) && WellAddressed(s.vehicles, s.flight[n]);
    CountPositive(s.flight, n, AskOf, k);
    OwnerHoldsAll(s, s.flight[n].dest, k);
    TotalIsNat(s.vehicles, |s.vehicles|, k);
    hide Total, Count;
  }

  /** What a step that does not start it leaves of a trip: only its tokens move. */
  lemma OldTripStays(g: Setting, s: Timed, a: Network.Event, o: nat, id: uint32)
    requires WellFormed(s.net) && Enabled(s.net, a) && o < |s.net.vehicles|
    requires var s' := Next(s.net, a);
      o < |s'.vehicles| && id in s'.vehicles[o].node.transmissionTime
    requires !Starts(s, a, Key(s.net.vehicles[o].address, id))
    ensures var v, v' := s.net.vehicles[o], Next(s.net, a).vehicles[o];
      && v'.address == v.address && id in v.node.transmissionTime
      && v'.node.transmissionTime[id] == v.node.transmissionTime[id]
    ensures var k := Key(s.net.vehicles[o].address, id);
      k in s.target ==> k in Targets(s, a) && Targets(s, a)[k] == s.target[k]
  {
    hide Survivors, Delivered, Dropped, Replies, DuePrefix, Broadcast, Count;
    if a.Deliver? { assert WellAddressed(s.net.vehicles, s.net.flight[a.index]); }
  }

  lemma StepKeepsTrack(g: Setting, s: Timed, a: Network.Event, o: nat, id: uint32)
    requires Proper(g) && Good(g, s) && Scheduled(g, s, Act(a)) && o < |Next(s.net, a).vehicles|
    ensures Tracked(g, TimedNext(g, s, Act(a)), o, id)
  {
    StepKeepsAddresses(s.net, a);
    var v := s.net.vehicles[o];
    var k, s' := Key(v.address, id), TimedNext(g, s, Act(a));
    hide Next, TripFits, Fresh, AllAt, Books, Proper, AllStand, WellFormed;
    if id in s'.net.vehicles[o].node.transmissionTime {
      if Starts(s, a, k) {
        StartedTripFits(g, s, a, o, id);
      } else {
        OldTripStays(g, s, a, o, id);
        assert Tracked(g, s, o, id);
        StepFits(g, TripOf(s, o, id), s, a);
      }
    }
  }

  lemma StartedTripFits(g: Setting, s: Timed, a: Network.Event, o: nat, id: uint32)
    requires Proper(g) && Good(g, s) && Scheduled(g, s, Act(a)) && o < |s.net.vehicles|
    requires Starts(s, a, Key(s.net.vehicles[o].address, id))
    ensures o < |Next(s.net, a).vehicles| && Tracked(g, TimedNext(g, s, Act(a)), o, id)
  {
    var n, k := a.index, Key(s.net.vehicles[o].address, id);
    var e := s.net.flight[n];
    assert WellAddressed(s.net.vehicles, e);
    assert e.dest == o && s.net.vehicles[o].node.timeNow == s.now;
    var t := Trip(k, e.body.to, s.now);
    RequestTopicIsFirst(s.net, n, k);
    NoTokensFit(g, t, s.net, s.now);
    StepFits(g, t, s, a);
    hide TripFits, Fresh, AllAt, Books, Proper, AllStand, WellFormed;
    assert TripOf(TimedNext(g, s, Act(a)), o, id) == t;
  }

  lemma StepKeepsStanding(g: Setting, s: Timed, a: Network.Event)
    requires Proper(g) && AllStand(g, s.net.vehicles) && Scheduled(g, s, Act(a)) && WellFormed(s.net)
    ensures AllStand(g, Next(s.net, a).vehicles)
  {
    var vs := Next(s.net, a).vehicles;
    StepKeepsAddresses(s.net, a);
    forall i | 0 <= i < |vs|
      ensures Stands(g, vs[i])
    {
      var v := s.net.vehicles[i];
      assert Stands(g, v);
      hide QueueInOrder, AllAt, Fresh, Count, Survivors, Delivered, Dropped, Released, Replies, DuePrefix;
      match a {
        case RangingUpdate(_, now) =>
          if i == a.vehicle { ReleaseKeepsOrder(v.ranging, v.node, now); }
        case Deliver(n) => DeliveryKeepsOrder(s.net, n, i);
        case _ =>
      }
    }
  }

  lemma DeliveryKeepsOrder(s: State, n: nat, i: nat)
    requires WellFormed(s) && n < |s.flight| && i < |s.vehicles| && QueueInOrder(s.vehicles[i].node)
    ensures Enabled(s, Deliver(n)) && i < |Next(s, Deliver(n)).vehicles|
    ensures var v, v' := s.vehicles[i], Next(s, Deliver(n)).vehicles[i];
      v'.address == v.address && v'.position == v.position && v'.acoustics == v.acoustics
      && v'.ranging == v.ranging && QueueInOrder(v'.node)
  {
    var e, v := s.flight[n], s.vehicles[i];
    assert WellAddressed(s.vehicles, e);
    hide QueueInOrder, WellFormed, WellAddressed, Broadcast, Covered, MakeInternal, ToInternalMsg;
    match e.body {
      case RequestTopic(_, id) =>
        QueueStaysInOrder(v.ranging, v.node, AcousticMessage(0, 0, OtherMessage, Ranging(0)), id);
      case Rx(m) => QueueStaysInOrder(v.ranging, v.node, m, 0);
      case _ =>
    }
  }

  lemma TickKeepsGood(g: Setting, s: Timed)
    requires Good(g, s) && s.net.flight == []
    ensures Good(g, s.(now := s.now + g.dt))
  {
    var s' := s.(now := s.now + g.dt);
    forall o, id: uint32 | 0 <= o < |s'.net.vehicles|
      ensures Tracked(g, s', o, id)
    {
      assert Tracked(g, s, o, id);
    }
  }

  lemma StepKeepsGood(g: Setting, s: Timed, e: TimedEvent)
    requires Proper(g) && Good(g, s) && Scheduled(g, s, e)
    ensures Good(g, TimedNext(g, s, e))
  {
    match e {
      case NewTick => TickKeepsGood(g, s);
      case Act(a) =>
        StepKeepsWellFormed(s.net, a);
        StepKeepsBooks(s.net, a);
        StepKeepsStanding(g, s, a);
        forall o, id: uint32 | 0 <= o < |Next(s.net, a).vehicles|
          ensures Tracked(g, TimedNext(g, s, Act(a)), o, id)
        {
          StepKeepsTrack(g, s, a, o, id);
        }
        hide Tracked, WellFormed, Books, AllStand, Next;
    }
  }

  lemma {:induction false} AlwaysGood(g: Setting, start: Timed, run: seq<TimedEvent>, m: nat)
    requires m <= |run| && Proper(g) && TimedInitial(g, start)
    ensures Good(g, TimedStateAt(g, start, run, m))
  {
    if m == 0 {
      InitialBooks(start.net);
      forall o, id: uint32 | 0 <= o < |start.net.vehicles|
        ensures Tracked(g, start, o, id)
      {
        assert Idle(start.net.vehicles[o]);
      }
    } else {
      AlwaysGood(g, start, run, m - 1);
      hide Good, TimedNext, Scheduled, TimedInitial, Proper;
      var s := TimedStateAt(g, start, run, m - 1);
      if Scheduled(g, s, run[m - 1]) { StepKeepsGood(g, s, run[m - 1]); }
    }
  }

  /** A ranging plugin is about to take in a response. */
  ghost predicate TakesResponse(g: Setting, s: Timed, n: nat) {
    Scheduled(g, s, Act(Deliver(n))) && s.net.flight[n].body.Rx? && s.net.flight[n].body.m.kind == RangeResponseMessage
  }

  /** It waits for it, the response comes from the vehicle that was asked, and the range
      it publishes is never below the distance to that vehicle and never more than one
      and a half ticks of sound above it. */
  ghost predicate PublishesTrueRange(g: Setting, s: Timed, n: nat)
    requires TakesResponse(g, s, n)
  {
    var e := s.net.flight[n];
    var v := s.net.vehicles[e.dest];
    var answer, k := AnswerTo(v.ranging, v.node, e.body.m), Key(v.address, ReqId(e.body.m.data));
    var d := g.dist(g.place(v.address), g.place(answer.responder));
    && k.id in v.node.transmissionTime && k in s.target && s.target[k] == answer.responder
    && d <= answer.range <= d + 1.5 * ((g.soundSpeed as real) * (g.dt as real) / 1000000000.0)
  }

  lemma ReturnedRange(g: Setting, t: Trip, now: int)
    requires Returned(g, t, now)
    ensures Apart(g, t) <= Covered(g.soundSpeed as real, now - t.start - g.delay) / 2.0
            <= Apart(g, t) + 1.5 * Sounded(g, g.dt)
  {
    SoundedIsCovered(g, now - t.start - g.delay);
    hide Covered, Sounded;
  }

  lemma ResponseIsAccurate(g: Setting, s: Timed, n: nat)
    requires Good(g, s) && TakesResponse(g, s, n)
    ensures PublishesTrueRange(g, s, n)
  {
    var e := s.net.flight[n];
    var v := s.net.vehicles[e.dest];
    var id := ReqId(e.body.m.data);
    ResponseIsExpected(s.net, n);
    assert WellAddressed(s.net.vehicles, e) && Stands(g, v) && Tracked(g, s, e.dest, id);
    var t := TripOf(s, e.dest, id);
    assert EnvelopeFits(g, t, s.now, e) && v.node.timeNow == s.now;
    ReturnedRange(g, t, s.now);
    hide Good, Covered, Fresh, AllAt, Returned, Heard, Replied, TripFits, WellFormed, Books, AllTracked, AllStand,
      QueueInOrder;
  }

  /** Every response taken in on a scheduled run, at whatever point, gives a true range. */
  lemma PublishedRangeIsAccurate(g: Setting, start: Timed, run: seq<TimedEvent>, m: nat, n: nat)
    requires m <= |run| && Proper(g) && TimedInitial(g, start)
    requires TakesResponse(g, TimedStateAt(g, start, run, m), n)
    ensures PublishesTrueRange(g, TimedStateAt(g, start, run, m), n)
  {
    AlwaysGood(g, start, run, m);
    ResponseIsAccurate(g, TimedStateAt(g, start, run, m), n);
    hide Good, PublishesTrueRange, TimedStateAt;
  }
}
