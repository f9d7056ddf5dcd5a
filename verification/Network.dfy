/** A whole network of vehicles: every message between clients, ranging plugins and
    comms plugins waits in flight until some callback takes it, in any order. */
module Network {
  import opened Wrappers
  import opened CommsPacket
  import opened AcousticModel
  import opened RangeBearing
  import opened Counting

  /** A ranging request is known by who asks and by its id there. */
  datatype Key = Key(initiator: uint32, id: uint32)

  datatype Vehicle = Vehicle(
    address: uint32,
    acoustics: Acoustics,
    ranging: RangingConfig,
    position: Position,
    commsTime: int,
    packets: seq<Packet>,
    node: RangingState,
    client: ClientState)

  datatype Body =
    | RequestTopic(to: uint32, id: uint32)   // client to ranging plugin
    | Tx(m: AcousticMessage)                 // ranging plugin to comms plugin
    | Bus(im: InternalComms)                 // comms plugin to comms plugin
    | Rx(m: AcousticMessage)                 // comms plugin to ranging plugin
    | ResponseTopic(answer: RangeAnswer)     // ranging plugin to client

  /** A published message waiting for the callback of the vehicle at index dest. */
  datatype Envelope = Envelope(dest: nat, address: uint32, body: Body)

  datatype State = State(
    vehicles: seq<Vehicle>,
    flight: seq<Envelope>,
    lost: seq<AcousticMessage>,
    asked: seq<Key>,
    answered: seq<Key>)

  // ----- Steps -----

  datatype Event =
    | Ask(vehicle: nat, to: uint32)
    | SendData(vehicle: nat, to: uint32, bytes: string)
    | Deliver(index: nat)
    | CommsUpdate(vehicle: nat, now: int, at: Position)
    | RangingUpdate(vehicle: nat, now: int)

  predicate HasAddress(vs: seq<Vehicle>, a: uint32) {
    exists i :: 0 <= i < |vs| && vs[i].address == a
  }

  /** One copy on the bus for every vehicle among the first n. */
  function Broadcast(vs: seq<Vehicle>, n: nat, im: InternalComms): seq<Envelope>
    requires n <= |vs|
  {
    if n == 0 then [] else Broadcast(vs, n - 1, im) + [Envelope(n - 1, vs[n - 1].address, Bus(im))]
  }

  function ToRx(ps: seq<Packet>, dest: nat, address: uint32): seq<Envelope> {
    if ps == [] then []
    else ToRx(ps[..|ps| - 1], dest, address) + [Envelope(dest, address, Rx(ToExternalMsg(ps[|ps| - 1])))]
  }

  function ToTx(ms: seq<AcousticMessage>, dest: nat, address: uint32): seq<Envelope> {
    if ms == [] then [] else ToTx(ms[..|ms| - 1], dest, address) + [Envelope(dest, address, Tx(ms[|ms| - 1]))]
  }

  function External(ps: seq<Packet>): seq<AcousticMessage> {
    if ps == [] then [] else External(ps[..|ps| - 1]) + [ToExternalMsg(ps[|ps| - 1])]
  }

  function OnRequestTopic(s: State, e: Envelope, to: uint32, id: uint32): State
    requires e.dest < |s.vehicles|
  {
    var v := s.vehicles[e.dest];
    s.(vehicles := s.vehicles[e.dest := v.(node := RequestSent(v.node, id))],
       flight := s.flight + [Envelope(e.dest, e.address, Tx(RequestFor(v.ranging, to, id)))])
  }

  function OnTx(s: State, e: Envelope, m: AcousticMessage): State
    requires e.dest < |s.vehicles|
  {
    var v := s.vehicles[e.dest];
    s.(flight := s.flight + Broadcast(s.vehicles, |s.vehicles|, ToInternalMsg(Make(m, v.position, v.commsTime))),
       lost := s.lost + if HasAddress(s.vehicles, m.to) then [] else [m])
  }

  function OnBus(s: State, e: Envelope, im: InternalComms): State
    requires e.dest < |s.vehicles|
  {
    var v := s.vehicles[e.dest];
    s.(vehicles := s.vehicles[e.dest := v.(packets := Enqueued(v.acoustics, v.packets, MakeInternal(im)))])
  }

  function OnRx(s: State, e: Envelope, m: AcousticMessage): State
    requires e.dest < |s.vehicles|
  {
    var v := s.vehicles[e.dest];
    match m.kind
    case RangeRequestMessage => s.(vehicles := s.vehicles[e.dest := v.(node := PingQueued(v.node, m))])
    case RangeResponseMessage =>
      s.(vehicles := s.vehicles[e.dest := v.(node := ResponseTaken(v.node, m))],
         flight := s.flight + [Envelope(e.dest, e.address, ResponseTopic(AnswerTo(v.ranging, v.node, m)))],
         answered := s.answered + [Key(e.address, ReqId(m.data))])
    case OtherMessage => s
  }

  function OnResponseTopic(s: State, e: Envelope, a: RangeAnswer): State
    requires e.dest < |s.vehicles|
  {
    var v := s.vehicles[e.dest];
    s.(vehicles := s.vehicles[e.dest := v.(client := Responded(v.client, a.reqId))])
  }

  function OnDelivery(s: State, e: Envelope): State
    requires e.dest < |s.vehicles|
  {
    match e.body
    case RequestTopic(to, id) => OnRequestTopic(s, e, to, id)
    case Tx(m) => OnTx(s, e, m)
    case Bus(im) => OnBus(s, e, im)
    case Rx(m) => OnRx(s, e, m)
    case ResponseTopic(a) => OnResponseTopic(s, e, a)
  }

  function OnAsk(s: State, i: nat, to: uint32): State
    requires i < |s.vehicles|
  {
    var v := s.vehicles[i];
    var id := v.client.requestsCounter;
    s.(vehicles := s.vehicles[i := v.(client := Requested(v.client))],
       flight := s.flight + [Envelope(i, v.address, RequestTopic(to, id))],
       asked := s.asked + [Key(v.address, id)])
  }

  function OnCommsUpdate(s: State, i: nat, now: int, at: Position): State
    requires i < |s.vehicles|
  {
    var v := s.vehicles[i];
    s.(vehicles := s.vehicles[i := v.(position := at, commsTime := now,
                                      packets := Survivors(v.acoustics, v.packets, now, at))],
       flight := s.flight + ToRx(Delivered(v.acoustics, v.packets, now, at), i, v.address),
       lost := s.lost + External(Dropped(v.acoustics, v.packets, now, at)))
  }

  function OnRangingUpdate(s: State, i: nat, now: int): State
    requires i < |s.vehicles|
  {
    var v := s.vehicles[i];
    var q := v.node.messageQueue;
    s.(vehicles := s.vehicles[i := v.(node := Released(v.ranging, v.node, now))],
       flight := s.flight + ToTx(Replies(v.ranging, q, DuePrefix(v.ranging, now, q, 0)), i, v.address))
  }

  predicate Enabled(s: State, e: Event) {
    match e
    case Deliver(n) => n < |s.flight| && s.flight[n].dest < |s.vehicles|
    case Ask(i, _) => i < |s.vehicles|
    case SendData(i, _, _) => i < |s.vehicles|
    case CommsUpdate(i, _, _) => i < |s.vehicles|
    case RangingUpdate(i, _) => i < |s.vehicles|
  }

  function Next(s: State, e: Event): State
    requires Enabled(s, e)
  {
    match e
    case Ask(i, to) => OnAsk(s, i, to)
    case SendData(i, to, bytes) =>
      s.(flight := s.flight + [Envelope(i, s.vehicles[i].address,
           Tx(AcousticMessage(to, s.vehicles[i].address, OtherMessage, Raw(bytes))))])
    case Deliver(n) => OnDelivery(s.(flight := Without(s.flight, n)), s.flight[n])
    case CommsUpdate(i, now, at) => OnCommsUpdate(s, i, now, at)
    case RangingUpdate(i, now) => OnRangingUpdate(s, i, now)
  }

  // ----- Where a request is -----

  function MessageKey(m: AcousticMessage): Option<Key> {
    match m.kind
    case RangeRequestMessage => Some(Key(m.from, ReqId(m.data)))
    case RangeResponseMessage => Some(Key(m.to, ReqId(m.data)))
    case OtherMessage => None
  }

  function PacketKey(p: Packet): Option<Key> { MessageKey(ToExternalMsg(p)) }

  function PingKey(p: Ping): Option<Key> { Some(Key(p.from, p.reqId)) }

  function SameKey(k: Key): Option<Key> { Some(k) }

  /** The request an envelope carries across the water; a bus copy counts only at the
      vehicle it is addressed to. */
  function TokenOf(e: Envelope): Option<Key> {
    match e.body
    case Tx(m) => MessageKey(m)
    case Rx(m) => MessageKey(m)
    case Bus(im) => if MakeInternal(im).to == e.address then PacketKey(MakeInternal(im)) else None
    case _ => None
  }

  function AskOf(e: Envelope): Option<Key> {
    match e.body
    case RequestTopic(_, id) => Some(Key(e.address, id))
    case _ => None
  }

  function ReplyOf(e: Envelope): Option<Key> {
    match e.body
    case ResponseTopic(a) => Some(Key(e.address, a.reqId))
    case _ => None
  }

  function TokensAt(v: Vehicle, k: Key): int {
    Count(v.packets, PacketKey, k) + Count(v.node.messageQueue, PingKey, k)
  }

  function OutstandingAt(v: Vehicle, k: Key): int {
    One(v.address == k.initiator && k.id in v.node.transmissionTime)
  }

  function PromisedAt(v: Vehicle, k: Key): int {
    One(v.address == k.initiator && k.id in v.client.responsePromises)
  }

  /** The sum of a measure over the first n vehicles. */
  function Total(vs: seq<Vehicle>, n: nat, measure: (Vehicle, Key) -> int, k: Key): int
    requires n <= |vs|
  {
    if n == 0 then 0 else Total(vs, n - 1, measure, k) + measure(vs[n - 1], k)
  }

  function Tokens(s: State, k: Key): int {
    Count(s.flight, TokenOf, k) + Total(s.vehicles, |s.vehicles|, TokensAt, k)
  }

  function Outstanding(s: State, k: Key): int { Total(s.vehicles, |s.vehicles|, OutstandingAt, k) }

  function Promised(s: State, k: Key): int { Total(s.vehicles, |s.vehicles|, PromisedAt, k) }

  // ----- The books -----

  /** Every id an initiator waits for has one token on its way or has been lost. */
  ghost predicate TokensBalance(s: State, k: Key) {
    Tokens(s, k) + Count(s.lost, MessageKey, k) == Outstanding(s, k)
  }

  /** Every promise of a client is a request not yet taken up, one being waited for, or
      an answer not yet delivered. */
  ghost predicate PromisesBalance(s: State, k: Key) {
    Promised(s, k) == Count(s.flight, AskOf, k) + Outstanding(s, k) + Count(s.flight, ReplyOf, k)
  }

  ghost predicate AnswersBalance(s: State, k: Key) {
    Count(s.asked, SameKey, k) == Count(s.flight, AskOf, k) + Outstanding(s, k) + Count(s.answered, SameKey, k)
  }

  ghost predicate Balanced(s: State, k: Key) {
    TokensBalance(s, k) && PromisesBalance(s, k) && AnswersBalance(s, k)
  }

  /** The parts of a state fit together: unique addresses, envelopes at their vehicles,
      sent under the vehicle's own address, and only what is addressed to a vehicle gets
      past its comms plugin. */
  ghost predicate WellFormed(s: State) {
    && (forall i :: 0 <= i < |s.vehicles| ==> WellConfigured(s.vehicles[i]))
    && (forall i, j :: 0 <= i < j < |s.vehicles| ==> s.vehicles[i].address != s.vehicles[j].address)
    && (forall n :: 0 <= n < |s.flight| ==> WellAddressed(s.vehicles, s.flight[n]))
  }

  ghost predicate WellConfigured(v: Vehicle) {
    && v.acoustics.address == v.address && v.ranging.address == v.address
    && forall i :: 0 <= i < |v.packets| ==> v.packets[i].to == v.address
  }

  ghost predicate WellAddressed(vs: seq<Vehicle>, e: Envelope) {
    && e.dest < |vs| && vs[e.dest].address == e.address
    && (e.body.Rx? ==> e.body.m.to == e.address)
    && (e.body.Tx? ==> e.body.m.from == e.address)
  }

  /** A client's request is fresh when its id has no pending promise there.  The counter
      wraps around at 2^32, so this is not automatic. */
  ghost predicate Fresh(s: State, e: Event) {
    e.Ask? && e.vehicle < |s.vehicles| ==>
      s.vehicles[e.vehicle].client.requestsCounter !in s.vehicles[e.vehicle].client.responsePromises
  }

  // ----- Counting lemmas -----

  lemma {:induction false} TotalAfterUpdate(
    vs: seq<Vehicle>, i: nat, v: Vehicle, n: nat, measure: (Vehicle, Key) -> int, k: Key)
    requires i < |vs| && n <= |vs|
    ensures Total(vs[i := v], n, measure, k) ==
      Total(vs, n, measure, k) + if i < n then measure(v, k) - measure(vs[i], k) else 0
  {
    if n > 0 { TotalAfterUpdate(vs, i, v, n - 1, measure, k); }
  }

  lemma {:induction false} TotalAtOwner(vs: seq<Vehicle>, n: nat, o: nat, measure: (Vehicle, Key) -> int, k: Key)
    requires n <= |vs| && o < |vs|
    requires forall i :: 0 <= i < |vs| && i != o ==> measure(vs[i], k) == 0
    ensures Total(vs, n, measure, k) == if o < n then measure(vs[o], k) else 0
  {
    if n > 0 { TotalAtOwner(vs, n - 1, o, measure, k); }
  }

  lemma {:induction false} TotalOfNothing(vs: seq<Vehicle>, n: nat, measure: (Vehicle, Key) -> int, k: Key)
    requires n <= |vs| && forall i :: 0 <= i < |vs| ==> measure(vs[i], k) == 0
    ensures Total(vs, n, measure, k) == 0
  {
    if n > 0 { TotalOfNothing(vs, n - 1, measure, k); }
  }

  lemma {:induction false} TotalAtLeast(vs: seq<Vehicle>, n: nat, o: nat, measure: (Vehicle, Key) -> int, k: Key)
    requires n <= |vs| && o < |vs|
    requires forall i :: 0 <= i < |vs| ==> measure(vs[i], k) >= 0
    ensures Total(vs, n, measure, k) >= if o < n then measure(vs[o], k) else 0
  {
    if n > 0 { TotalAtLeast(vs, n - 1, o, measure, k); }
  }

  lemma {:induction false} CountRx(ps: seq<Packet>, dest: nat, address: uint32, k: Key)
    ensures Count(ToRx(ps, dest, address), TokenOf, k) == Count(ps, PacketKey, k)
    ensures Count(ToRx(ps, dest, address), AskOf, k) == 0
    ensures Count(ToRx(ps, dest, address), ReplyOf, k) == 0
  {
    if ps != [] {
      CountRx(ps[..|ps| - 1], dest, address, k);
      var front, e := ToRx(ps[..|ps| - 1], dest, address), Envelope(dest, address, Rx(ToExternalMsg(ps[|ps| - 1])));
      AppendOne(front, e, k);
    }
  }

  lemma AppendOne(es: seq<Envelope>, e: Envelope, k: Key)
    ensures Count(es + [e], TokenOf, k) == Count(es, TokenOf, k) + One(TokenOf(e) == Some(k))
    ensures Count(es + [e], AskOf, k) == Count(es, AskOf, k) + One(AskOf(e) == Some(k))
    ensures Count(es + [e], ReplyOf, k) == Count(es, ReplyOf, k) + One(ReplyOf(e) == Some(k))
  {
    CountAppend(es, e, TokenOf, k);
    CountAppend(es, e, AskOf, k);
    CountAppend(es, e, ReplyOf, k);
  }

  lemma AppendAll(es: seq<Envelope>, more: seq<Envelope>, k: Key)
    ensures Count(es + more, TokenOf, k) == Count(es, TokenOf, k) + Count(more, TokenOf, k)
    ensures Count(es + more, AskOf, k) == Count(es, AskOf, k) + Count(more, AskOf, k)
    ensures Count(es + more, ReplyOf, k) == Count(es, ReplyOf, k) + Count(more, ReplyOf, k)
  {
    CountOfSum(es, more, TokenOf, k);
    CountOfSum(es, more, AskOf, k);
    CountOfSum(es, more, ReplyOf, k);
  }

  lemma TakeOne(es: seq<Envelope>, n: nat, k: Key)
    requires n < |es|
    ensures Count(es, TokenOf, k) == Count(Without(es, n), TokenOf, k) + One(TokenOf(es[n]) == Some(k))
    ensures Count(es, AskOf, k) == Count(Without(es, n), AskOf, k) + One(AskOf(es[n]) == Some(k))
    ensures Count(es, ReplyOf, k) == Count(Without(es, n), ReplyOf, k) + One(ReplyOf(es[n]) == Some(k))
  {
    CountWithout(es, n, TokenOf, k);
    CountWithout(es, n, AskOf, k);
    CountWithout(es, n, ReplyOf, k);
  }

  lemma {:induction false} CountReplies(c: RangingConfig, q: seq<Ping>, n: nat, dest: nat, address: uint32, k: Key)
    requires n <= |q|
    ensures var es := ToTx(Replies(c, q, n), dest, address);
      Count(es, TokenOf, k) == Count(q[..n], PingKey, k) && Count(es, AskOf, k) == 0 && Count(es, ReplyOf, k) == 0
  {
    if n > 0 {
      CountReplies(c, q, n - 1, dest, address, k);
      var rs := Replies(c, q, n - 1);
      assert (rs + [ReplyTo(c, q[n - 1])])[..|rs|] == rs;
      assert q[..n] == q[..n - 1] + [q[n - 1]];
      hide Count, Replies;
      AppendOne(ToTx(rs, dest, address), Envelope(dest, address, Tx(ReplyTo(c, q[n - 1]))), k);
      CountAppend(q[..n - 1], q[n - 1], PingKey, k);
    }
  }

  lemma {:induction false} CountExternal(ps: seq<Packet>, k: Key)
    ensures Count(External(ps), MessageKey, k) == Count(ps, PacketKey, k)
  {
    if ps != [] {
      CountExternal(ps[..|ps| - 1], k);
      var front := External(ps[..|ps| - 1]);
      assert External(ps)[..|front|] == front;
    }
  }

  lemma CountLast(ps: seq<Packet>, x: seq<Packet>, k: Key)
    requires |x| <= 1
    ensures Count(ps + x, PacketKey, k) ==
      Count(ps, PacketKey, k) + if x == [] then 0 else One(PacketKey(x[0]) == Some(k))
  {
    if x == [] {
      assert ps + x == ps;
    } else {
      assert (ps + x)[..|ps|] == ps;
    }
  }

  /** A step of the acoustic model sorts its packets without loss. */
  lemma {:induction false} CountStep(c: Acoustics, ps: seq<Packet>, now: int, at: Position, k: Key)
    ensures Count(ps, PacketKey, k) ==
      Count(Survivors(c, ps, now, at), PacketKey, k)
      + Count(Delivered(c, ps, now, at), PacketKey, k)
      + Count(Dropped(c, ps, now, at), PacketKey, k)
  {
    if ps != [] {
      var front, p := ps[..|ps| - 1], ps[|ps| - 1];
      CountStep(c, front, now, at, k);
      hide Arrived, DropPacket, PacketKey;
      CountLast(Survivors(c, front, now, at), if Arrived(c, p, now, at) then [] else [p], k);
      CountLast(Delivered(c, front, now, at), if Reaches(c, p, now, at) then [p] else [], k);
      CountLast(Dropped(c, front, now, at), if Arrived(c, p, now, at) && !Reaches(c, p, now, at) then [p] else [], k);
    }
  }

  /** A broadcast makes one counting copy if the addressee exists, none otherwise. */
  lemma {:induction false} CountBroadcast(vs: seq<Vehicle>, n: nat, im: InternalComms, k: Key)
    requires n <= |vs|
    requires forall i, j :: 0 <= i < j < |vs| ==> vs[i].address != vs[j].address
    ensures var es := Broadcast(vs, n, im);
      && Count(es, TokenOf, k) ==
           One(PacketKey(MakeInternal(im)) == Some(k) && HasAddress(vs[..n], MakeInternal(im).to))
      && Count(es, AskOf, k) == 0 && Count(es, ReplyOf, k) == 0
  {
    if n > 0 {
      CountBroadcast(vs, n - 1, im, k);
      AppendOne(Broadcast(vs, n - 1, im), Envelope(n - 1, vs[n - 1].address, Bus(im)), k);
      AddressAmong(vs, n, MakeInternal(im).to);
    }
  }

  lemma AddressAmong(vs: seq<Vehicle>, n: nat, a: uint32)
    requires 0 < n <= |vs|
    requires forall i, j :: 0 <= i < j < |vs| ==> vs[i].address != vs[j].address
    ensures HasAddress(vs[..n], a) <==> HasAddress(vs[..n - 1], a) || vs[n - 1].address == a
    ensures vs[n - 1].address == a ==> !HasAddress(vs[..n - 1], a)
  {
    assert forall i :: 0 <= i < n - 1 ==> vs[..n][i] == vs[..n - 1][i] == vs[i];
    assert vs[..n][n - 1] == vs[n - 1];
  }

  // ----- Every step keeps the books -----

  /** The vehicle at index i changed to v: what that does to the sums. */
  lemma VehicleChange(vs: seq<Vehicle>, i: nat, v: Vehicle, k: Key)
    requires i < |vs|
    ensures Total(vs[i := v], |vs|, TokensAt, k) == Total(vs, |vs|, TokensAt, k) + TokensAt(v, k) - TokensAt(vs[i], k)
    ensures Total(vs[i := v], |vs|, OutstandingAt, k)
            == Total(vs, |vs|, OutstandingAt, k) + OutstandingAt(v, k) - OutstandingAt(vs[i], k)
    ensures Total(vs[i := v], |vs|, PromisedAt, k)
            == Total(vs, |vs|, PromisedAt, k) + PromisedAt(v, k) - PromisedAt(vs[i], k)
  {
    TotalAfterUpdate(vs, i, v, |vs|, TokensAt, k);
    TotalAfterUpdate(vs, i, v, |vs|, OutstandingAt, k);
    TotalAfterUpdate(vs, i, v, |vs|, PromisedAt, k);
  }

  /** Only the vehicle with the initiator's address waits for a key. */
  lemma OwnerHoldsAll(s: State, o: nat, k: Key)
    requires WellFormed(s) && o < |s.vehicles| && s.vehicles[o].address == k.initiator
    ensures Outstanding(s, k) == OutstandingAt(s.vehicles[o], k)
    ensures Promised(s, k) == PromisedAt(s.vehicles[o], k)
  {
    TotalAtOwner(s.vehicles, |s.vehicles|, o, OutstandingAt, k);
    TotalAtOwner(s.vehicles, |s.vehicles|, o, PromisedAt, k);
  }

  lemma StrangerHoldsNone(s: State, k: Key)
    requires !HasAddress(s.vehicles, k.initiator)
    ensures Outstanding(s, k) == 0 && Promised(s, k) == 0
  {
    TotalOfNothing(s.vehicles, |s.vehicles|, OutstandingAt, k);
    TotalOfNothing(s.vehicles, |s.vehicles|, PromisedAt, k);
  }

  /** A key that is counted anywhere is being waited for. */
  lemma TokenIsOutstanding(s: State, k: Key)
    requires WellFormed(s) && TokensBalance(s, k) && Tokens(s, k) > 0
    ensures Outstanding(s, k) == 1 == Tokens(s, k) && Count(s.lost, MessageKey, k) == 0
    ensures exists o :: 0 <= o < |s.vehicles| && s.vehicles[o].address == k.initiator
                        && k.id in s.vehicles[o].node.transmissionTime
  {
    if HasAddress(s.vehicles, k.initiator) {
      var o :| 0 <= o < |s.vehicles| && s.vehicles[o].address == k.initiator;
      OwnerHoldsAll(s, o, k);
    } else {
      StrangerHoldsNone(s, k);
    }
  }

  lemma FlightTokenCounts(s: State, n: nat, k: Key)
    requires n < |s.flight| && TokenOf(s.flight[n]) == Some(k)
    ensures Tokens(s, k) > 0
  {
    CountPositive(s.flight, n, TokenOf, k);
    if s.vehicles != [] { TotalAtLeast(s.vehicles, |s.vehicles|, 0, TokensAt, k); }
  }

  lemma RequestTopicKeepsBooks(s: State, n: nat, k: Key)
    requires WellFormed(s) && Balanced(s, k) && n < |s.flight| && s.flight[n].body.RequestTopic?
    ensures Balanced(Next(s, Deliver(n)), k)
  {
    hide Count, Total, Covered;
    var e := s.flight[n];
    var v := s.vehicles[e.dest];
    var id := e.body.id;
    var rest := Without(s.flight, n);
    TakeOne(s.flight, n, k);
    AppendOne(rest, Envelope(e.dest, e.address, Tx(RequestFor(v.ranging, e.body.to, id))), k);
    VehicleChange(s.vehicles, e.dest, v.(node := RequestSent(v.node, id)), k);
    assert WellAddressed(s.vehicles, e) && WellConfigured(v);
    if k == Key(e.address, id) {
      OwnerHoldsAll(s, e.dest, k);
      CountPositive(s.flight, n, AskOf, k);
    }
  }

  lemma TxKeepsBooks(s: State, n: nat, k: Key)
    requires WellFormed(s) && Balanced(s, k) && n < |s.flight| && s.flight[n].body.Tx?
    ensures Balanced(Next(s, Deliver(n)), k)
  {
    hide Count, Total, Broadcast, ToInternalMsg, MakeInternal;
    var e := s.flight[n];
    var v, m := s.vehicles[e.dest], e.body.m;
    var im := ToInternalMsg(Make(m, v.position, v.commsTime));
    PacketSurvives(Make(m, v.position, v.commsTime), m, v.position, v.commsTime);
    assert s.vehicles[..|s.vehicles|] == s.vehicles;
    TakeOne(s.flight, n, k);
    CountBroadcast(s.vehicles, |s.vehicles|, im, k);
    AppendAll(Without(s.flight, n), Broadcast(s.vehicles, |s.vehicles|, im), k);
    if HasAddress(s.vehicles, m.to) {
      assert s.lost + [] == s.lost;
    } else {
      CountAppend(s.lost, m, MessageKey, k);
    }
  }

  lemma BusKeepsBooks(s: State, n: nat, k: Key)
    requires WellFormed(s) && Balanced(s, k) && n < |s.flight| && s.flight[n].body.Bus?
    ensures Balanced(Next(s, Deliver(n)), k)
  {
    hide Count, Total, Covered;
    var e := s.flight[n];
    var v, p := s.vehicles[e.dest], MakeInternal(e.body.im);
    assert WellAddressed(s.vehicles, e) && WellConfigured(v);
    TakeOne(s.flight, n, k);
    CountAppend(v.packets, p, PacketKey, k);
    VehicleChange(s.vehicles, e.dest, v.(packets := Enqueued(v.acoustics, v.packets, p)), k);
  }

  lemma RxKeepsBooks(s: State, n: nat, k: Key)
    requires WellFormed(s) && Balanced(s, k) && n < |s.flight| && s.flight[n].body.Rx?
    requires s.flight[n].body.m.kind == RangeResponseMessage ==>
      ReqId(s.flight[n].body.m.data) in s.vehicles[s.flight[n].dest].node.transmissionTime
    ensures Balanced(Next(s, Deliver(n)), k)
  {
    hide Count, Total, Covered;
    var e := s.flight[n];
    var v, m := s.vehicles[e.dest], e.body.m;
    assert WellAddressed(s.vehicles, e);
    TakeOne(s.flight, n, k);
    match m.kind {
      case RangeRequestMessage =>
        CountAppend(v.node.messageQueue, Ping(m.from, ReqId(m.data), v.node.timeNow), PingKey, k);
        VehicleChange(s.vehicles, e.dest, v.(node := PingQueued(v.node, m)), k);
      case RangeResponseMessage =>
        AppendOne(Without(s.flight, n), Envelope(e.dest, e.address, ResponseTopic(AnswerTo(v.ranging, v.node, m))), k);
        CountAppend(s.answered, Key(e.address, ReqId(m.data)), SameKey, k);
        VehicleChange(s.vehicles, e.dest, v.(node := ResponseTaken(v.node, m)), k);
      case OtherMessage =>
    }
  }

  lemma ResponseTopicKeepsBooks(s: State, n: nat, k: Key)
    requires WellFormed(s) && Balanced(s, k) && n < |s.flight| && s.flight[n].body.ResponseTopic?
    requires s.flight[n].body.answer.reqId in s.vehicles[s.flight[n].dest].client.responsePromises
    ensures Balanced(Next(s, Deliver(n)), k)
  {
    hide Count, Total, Covered;
    var e := s.flight[n];
    var v := s.vehicles[e.dest];
    assert WellAddressed(s.vehicles, e);
    TakeOne(s.flight, n, k);
    VehicleChange(s.vehicles, e.dest, v.(client := Responded(v.client, e.body.answer.reqId)), k);
  }

  lemma CommsUpdateKeepsBooks(s: State, i: nat, now: int, at: Position, k: Key)
    requires Balanced(s, k) && i < |s.vehicles|
    ensures Balanced(Next(s, CommsUpdate(i, now, at)), k)
  {
    hide Count, Total, Survivors, Delivered, Dropped, External, ToRx;
    var v := s.vehicles[i];
    var delivered, dropped := Delivered(v.acoustics, v.packets, now, at), Dropped(v.acoustics, v.packets, now, at);
    CountStep(v.acoustics, v.packets, now, at, k);
    CountRx(delivered, i, v.address, k);
    AppendAll(s.flight, ToRx(delivered, i, v.address), k);
    CountExternal(dropped, k);
    CountOfSum(s.lost, External(dropped), MessageKey, k);
    VehicleChange(s.vehicles, i, v.(position := at, commsTime := now,
                                    packets := Survivors(v.acoustics, v.packets, now, at)), k);
  }

  lemma RangingUpdateKeepsBooks(s: State, i: nat, now: int, k: Key)
    requires Balanced(s, k) && i < |s.vehicles|
    ensures Balanced(Next(s, RangingUpdate(i, now)), k)
  {
    hide Count, Total, Replies, DuePrefix, ToTx;
    var v := s.vehicles[i];
    var q := v.node.messageQueue;
    var n := DuePrefix(v.ranging, now, q, 0);
    CountReplies(v.ranging, q, n, i, v.address, k);
    AppendAll(s.flight, ToTx(Replies(v.ranging, q, n), i, v.address), k);
    assert q == q[..n] + q[n..];
    CountOfSum(q[..n], q[n..], PingKey, k);
    VehicleChange(s.vehicles, i, v.(node := Released(v.ranging, v.node, now)), k);
  }

  /** A request leaves the books balanced exactly when its id is not already promised. */
  lemma AskKeepsBooksIffFresh(s: State, i: nat, to: uint32, k: Key)
    requires WellFormed(s) && Balanced(s, k) && i < |s.vehicles|
    requires k == Key(s.vehicles[i].address, s.vehicles[i].client.requestsCounter)
    ensures Balanced(Next(s, Ask(i, to)), k) <==> Fresh(s, Ask(i, to))
  {
    hide Count, Total;
    var v := s.vehicles[i];
    AppendOne(s.flight, Envelope(i, v.address, RequestTopic(to, k.id)), k);
    CountAppend(s.asked, k, SameKey, k);
    VehicleChange(s.vehicles, i, v.(client := Requested(v.client)), k);
  }

  lemma AskKeepsOtherBooks(s: State, i: nat, to: uint32, k: Key)
    requires Balanced(s, k) && i < |s.vehicles|
    requires k != Key(s.vehicles[i].address, s.vehicles[i].client.requestsCounter)
    ensures Balanced(Next(s, Ask(i, to)), k)
  {
    hide Count, Total;
    var v := s.vehicles[i];
    var id := v.client.requestsCounter;
    AppendOne(s.flight, Envelope(i, v.address, RequestTopic(to, id)), k);
    CountAppend(s.asked, Key(v.address, id), SameKey, k);
    VehicleChange(s.vehicles, i, v.(client := Requested(v.client)), k);
  }

  // ----- Every step keeps the parts fitting together -----

  ghost predicate SameAddresses(vs: seq<Vehicle>, us: seq<Vehicle>) {
    |vs| == |us| && forall i :: 0 <= i < |vs| ==> vs[i].address == us[i].address
  }

  ghost predicate AllWellAddressed(vs: seq<Vehicle>, es: seq<Envelope>) {
    forall n :: 0 <= n < |es| ==> WellAddressed(vs, es[n])
  }

  ghost predicate AllTo(ps: seq<Packet>, a: uint32) {
    forall i :: 0 <= i < |ps| ==> ps[i].to == a
  }

  lemma {:induction false} StepKeepsAddressee(c: Acoustics, ps: seq<Packet>, now: int, at: Position, a: uint32)
    requires AllTo(ps, a)
    ensures AllTo(Survivors(c, ps, now, at), a) && AllTo(Delivered(c, ps, now, at), a)
  {
    hide Arrived, Reaches;
    if ps != [] { StepKeepsAddressee(c, ps[..|ps| - 1], now, at, a); }
  }

  lemma {:induction false} RxIsWellAddressed(vs: seq<Vehicle>, ps: seq<Packet>, dest: nat)
    requires dest < |vs| && AllTo(ps, vs[dest].address)
    ensures AllWellAddressed(vs, ToRx(ps, dest, vs[dest].address))
  {
    if ps != [] { RxIsWellAddressed(vs, ps[..|ps| - 1], dest); }
  }

  lemma {:induction false} RepliesAreWellAddressed(vs: seq<Vehicle>, c: RangingConfig, q: seq<Ping>, n: nat, dest: nat)
    requires n <= |q| && dest < |vs| && c.address == vs[dest].address
    ensures AllWellAddressed(vs, ToTx(Replies(c, q, n), dest, vs[dest].address))
  {
    if n > 0 {
      RepliesAreWellAddressed(vs, c, q, n - 1, dest);
      var rs := Replies(c, q, n - 1);
      assert (rs + [ReplyTo(c, q[n - 1])])[..|rs|] == rs;
    }
  }

  lemma {:induction false} BusIsWellAddressed(vs: seq<Vehicle>, n: nat, im: InternalComms)
    requires n <= |vs|
    ensures AllWellAddressed(vs, Broadcast(vs, n, im))
  {
    if n > 0 { BusIsWellAddressed(vs, n - 1, im); }
  }

  /** A vehicle changed but kept its address and configuration, and new envelopes are
      well addressed: the state is as well formed as before. */
  lemma WellFormedAfter(s: State, i: nat, v: Vehicle, old': seq<Envelope>, more: seq<Envelope>, s': State)
    requires WellFormed(s) && i < |s.vehicles|
    requires v.address == s.vehicles[i].address && WellConfigured(v)
    requires AllWellAddressed(s.vehicles, old') && AllWellAddressed(s.vehicles, more)
    requires s'.vehicles == s.vehicles[i := v] && s'.flight == old' + more
    ensures WellFormed(s')
  {
    hide WellConfigured;
    forall n | 0 <= n < |s'.flight|
      ensures WellAddressed(s'.vehicles, s'.flight[n])
    {
      if n < |old'| {
        assert WellAddressed(s.vehicles, old'[n]);
      } else {
        assert WellAddressed(s.vehicles, more[n - |old'|]);
      }
    }
  }

  lemma WithoutIsWellAddressed(vs: seq<Vehicle>, es: seq<Envelope>, n: nat)
    requires AllWellAddressed(vs, es) && n < |es|
    ensures AllWellAddressed(vs, Without(es, n))
  {
    var rest := Without(es, n);
    forall j | 0 <= j < |rest|
      ensures WellAddressed(vs, rest[j])
    {
      assert rest[j] == if j < n then es[j] else es[j + 1];
    }
  }

  lemma DeliveryKeepsWellFormed(s: State, n: nat)
    requires WellFormed(s) && n < |s.flight|
    ensures Enabled(s, Deliver(n)) && WellFormed(Next(s, Deliver(n)))
  {
    var e, s' := s.flight[n], Next(s, Deliver(n));
    assert WellAddressed(s.vehicles, e);
    var i := e.dest;
    var v, rest := s.vehicles[i], Without(s.flight, n);
    assert WellConfigured(v);
    WithoutIsWellAddressed(s.vehicles, s.flight, n);
    assert s.vehicles[i := v] == s.vehicles && rest + [] == rest;
    match e.body {
      case RequestTopic(to, id) =>
        WellFormedAfter(s, i, s'.vehicles[i], rest, [Envelope(i, e.address, Tx(RequestFor(v.ranging, to, id)))], s');
      case Tx(m) =>
        var im := ToInternalMsg(Make(m, v.position, v.commsTime));
        BusIsWellAddressed(s.vehicles, |s.vehicles|, im);
        WellFormedAfter(s, i, v, rest, Broadcast(s.vehicles, |s.vehicles|, im), s');
      case Bus(im) => WellFormedAfter(s, i, s'.vehicles[i], rest, [], s');
      case Rx(m) =>
        var more := if m.kind == RangeResponseMessage
                    then [Envelope(i, e.address, ResponseTopic(AnswerTo(v.ranging, v.node, m)))] else [];
        WellFormedAfter(s, i, s'.vehicles[i], rest, more, s');
      case ResponseTopic(a) => WellFormedAfter(s, i, s'.vehicles[i], rest, [], s');
    }
  }

  lemma StepKeepsWellFormed(s: State, e: Event)
    requires WellFormed(s) && Enabled(s, e)
    ensures WellFormed(Next(s, e))
  {
    var s' := Next(s, e);
    match e {
      case Deliver(n) => DeliveryKeepsWellFormed(s, n);
      case Ask(i, to) =>
        var v := s.vehicles[i];
        assert WellConfigured(v);
        WellFormedAfter(s, i, s'.vehicles[i], s.flight,
                        [Envelope(i, v.address, RequestTopic(to, v.client.requestsCounter))], s');
      case SendData(i, to, bytes) =>
        var v := s.vehicles[i];
        assert WellConfigured(v) && s.vehicles[i := v] == s.vehicles;
        WellFormedAfter(s, i, v, s.flight,
                        [Envelope(i, v.address, Tx(AcousticMessage(to, v.address, OtherMessage, Raw(bytes))))], s');
      case CommsUpdate(i, now, at) =>
        var v := s.vehicles[i];
        assert WellConfigured(v) && AllTo(v.packets, v.address);
        StepKeepsAddressee(v.acoustics, v.packets, now, at, v.address);
        RxIsWellAddressed(s.vehicles, Delivered(v.acoustics, v.packets, now, at), i);
        WellFormedAfter(s, i, s'.vehicles[i], s.flight,
                        ToRx(Delivered(v.acoustics, v.packets, now, at), i, v.address), s');
      case RangingUpdate(i, now) =>
        var v := s.vehicles[i];
        var q := v.node.messageQueue;
        var sent := Replies(v.ranging, q, DuePrefix(v.ranging, now, q, 0));
        assert WellConfigured(v);
        RepliesAreWellAddressed(s.vehicles, v.ranging, q, DuePrefix(v.ranging, now, q, 0), i);
        WellFormedAfter(s, i, s'.vehicles[i], s.flight, ToTx(sent, i, v.address), s');
    }
  }

  // ----- All runs -----

  ghost predicate Books(s: State) { forall k: Key :: Balanced(s, k) }

  /** A response can only arrive for a request that its vehicle is waiting for. */
  lemma ResponseIsExpected(s: State, n: nat)
    requires WellFormed(s) && Books(s) && n < |s.flight|
    requires s.flight[n].body.Rx? && s.flight[n].body.m.kind == RangeResponseMessage
    ensures ReqId(s.flight[n].body.m.data) in s.vehicles[s.flight[n].dest].node.transmissionTime
  {
    var e := s.flight[n];
    var k := Key(e.body.m.to, ReqId(e.body.m.data));
    assert WellAddressed(s.vehicles, e) && Balanced(s, k);
    FlightTokenCounts(s, n, k);
    TokenIsOutstanding(s, k);
    OwnerHoldsAll(s, e.dest, k);
  }

  /** An answer can only reach a client for a promise it has pending. */
  lemma AnswerIsPromised(s: State, n: nat)
    requires WellFormed(s) && Books(s) && n < |s.flight| && s.flight[n].body.ResponseTopic?
    ensures s.flight[n].body.answer.reqId in s.vehicles[s.flight[n].dest].client.responsePromises
  {
    var e := s.flight[n];
    var k := Key(e.address, e.body.answer.reqId);
    assert WellAddressed(s.vehicles, e) && Balanced(s, k);
    CountPositive(s.flight, n, ReplyOf, k);
    OwnerHoldsAll(s, e.dest, k);
  }

  lemma DeliveryKeepsBooks(s: State, n: nat, k: Key)
    requires WellFormed(s) && Books(s) && n < |s.flight|
    ensures Enabled(s, Deliver(n)) && Balanced(Next(s, Deliver(n)), k)
  {
    assert WellAddressed(s.vehicles, s.flight[n]) && Balanced(s, k);
    hide Next, Balanced;
    match s.flight[n].body {
      case RequestTopic(_, _) => RequestTopicKeepsBooks(s, n, k);
      case Tx(_) => TxKeepsBooks(s, n, k);
      case Bus(_) => BusKeepsBooks(s, n, k);
      case Rx(m) =>
        if m.kind == RangeResponseMessage { ResponseIsExpected(s, n); }
        RxKeepsBooks(s, n, k);
      case ResponseTopic(_) =>
        AnswerIsPromised(s, n);
        ResponseTopicKeepsBooks(s, n, k);
    }
  }

  lemma SendDataKeepsBooks(s: State, i: nat, to: uint32, bytes: string, k: Key)
    requires Balanced(s, k) && i < |s.vehicles|
    ensures Balanced(Next(s, SendData(i, to, bytes)), k)
  {
    hide Count, Total;
    AppendOne(s.flight, Envelope(i, s.vehicles[i].address,
      Tx(AcousticMessage(to, s.vehicles[i].address, OtherMessage, Raw(bytes)))), k);
  }

  lemma AskKeepsBooks(s: State, i: nat, to: uint32, k: Key)
    requires WellFormed(s) && Balanced(s, k) && i < |s.vehicles| && Fresh(s, Ask(i, to))
    ensures Balanced(Next(s, Ask(i, to)), k)
  {
    hide Balanced, Next, WellFormed;
    if k == Key(s.vehicles[i].address, s.vehicles[i].client.requestsCounter) {
      AskKeepsBooksIffFresh(s, i, to, k);
    } else {
      AskKeepsOtherBooks(s, i, to, k);
    }
  }

  lemma StepKeepsBooks(s: State, e: Event)
    requires WellFormed(s) && Books(s) && Enabled(s, e) && Fresh(s, e)
    ensures Books(Next(s, e))
  {
    hide Next, Balanced, WellFormed, Fresh;
    forall k: Key
      ensures Balanced(Next(s, e), k)
    {
      assert Balanced(s, k);
      match e {
        case Deliver(n) => DeliveryKeepsBooks(s, n, k);
        case Ask(i, to) => AskKeepsBooks(s, i, to, k);
        case SendData(i, to, bytes) => SendDataKeepsBooks(s, i, to, bytes, k);
        case CommsUpdate(i, now, at) => CommsUpdateKeepsBooks(s, i, now, at, k);
        case RangingUpdate(i, now) => RangingUpdateKeepsBooks(s, i, now, k);
      }
    }
  }

  /** Vehicles just configured: nothing sent, nothing waited for. */
  ghost predicate Initial(s: State) {
    && WellFormed(s) && s.flight == [] && s.lost == [] && s.asked == [] && s.answered == []
    && forall i :: 0 <= i < |s.vehicles| ==> Idle(s.vehicles[i])
  }

  ghost predicate Idle(v: Vehicle) {
    && v.packets == [] && v.node.messageQueue == [] && v.node.transmissionTime == map[]
    && v.client.responsePromises == {}
  }

  lemma InitialBooks(s: State)
    requires Initial(s)
    ensures Books(s)
  {
    forall k: Key
      ensures Balanced(s, k)
    {
      forall i | 0 <= i < |s.vehicles|
        ensures TokensAt(s.vehicles[i], k) == 0
        ensures OutstandingAt(s.vehicles[i], k) == 0 && PromisedAt(s.vehicles[i], k) == 0
      {
        assert Idle(s.vehicles[i]);
      }
      TotalOfNothing(s.vehicles, |s.vehicles|, TokensAt, k);
      TotalOfNothing(s.vehicles, |s.vehicles|, OutstandingAt, k);
      TotalOfNothing(s.vehicles, |s.vehicles|, PromisedAt, k);
    }
  }

  /** The state after the first m events of a run; an event that is not enabled does nothing. */
  function StateAt(start: State, run: seq<Event>, m: nat): State
    requires m <= |run|
  {
    if m == 0 then start
    else
      var s := StateAt(start, run, m - 1);
      if Enabled(s, run[m - 1]) then Next(s, run[m - 1]) else s
  }

  ghost predicate FreshRun(start: State, run: seq<Event>, m: nat)
    requires m <= |run|
  {
    forall j :: 0 <= j < m ==> Fresh(StateAt(start, run, j), run[j])
  }

  /** On every run with fresh ids, in every state: the books balance. */
  lemma {:induction false} BooksBalanceAlways(start: State, run: seq<Event>, m: nat)
    requires m <= |run| && Initial(start) && FreshRun(start, run, m)
    ensures WellFormed(StateAt(start, run, m)) && Books(StateAt(start, run, m))
  {
    if m == 0 {
      InitialBooks(start);
    } else {
      BooksBalanceAlways(start, run, m - 1);
      var s, e := StateAt(start, run, m - 1), run[m - 1];
      assert Fresh(s, e);
      hide Next, Fresh, Books, WellFormed;
      if Enabled(s, e) {
        StepKeepsWellFormed(s, e);
        StepKeepsBooks(s, e);
      }
    }
  }

  /** On every run with fresh ids, a response only ever arrives where it is waited for, and
      an answer only where it was promised: no look-up misses. */
  lemma NoLookUpMisses(start: State, run: seq<Event>, m: nat, n: nat)
    requires m <= |run| && Initial(start) && FreshRun(start, run, m)
    requires n < |StateAt(start, run, m).flight|
    ensures var s := StateAt(start, run, m);
      var e := s.flight[n];
      && e.dest < |s.vehicles|
      && (e.body.Rx? && e.body.m.kind == RangeResponseMessage ==>
            ReqId(e.body.m.data) in s.vehicles[e.dest].node.transmissionTime)
      && (e.body.ResponseTopic? ==> e.body.answer.reqId in s.vehicles[e.dest].client.responsePromises)
  {
    BooksBalanceAlways(start, run, m);
    var s := StateAt(start, run, m);
    assert WellAddressed(s.vehicles, s.flight[n]);
    hide StateAt, WellFormed, Books;
    if s.flight[n].body.Rx? && s.flight[n].body.m.kind == RangeResponseMessage { ResponseIsExpected(s, n); }
    if s.flight[n].body.ResponseTopic? { AnswerIsPromised(s, n); }
  }

  // ----- Fresh ids on runs of the real clients -----

  function AskedBy(k: Key): Option<uint32> { Some(k.initiator) }

  function AskedTimes(s: State, a: uint32): int { Count(s.asked, AskedBy, a) }

  ghost predicate ClientsInStep(s: State) {
    forall i :: 0 <= i < |s.vehicles| ==> HasAsked(s.vehicles[i].client, AskedTimes(s, s.vehicles[i].address))
  }

  lemma StepKeepsClientsInStep(s: State, e: Event)
    requires WellFormed(s) && ClientsInStep(s) && Enabled(s, e)
    ensures ClientsInStep(Next(s, e))
  {
    hide Count, HasAsked;
    var s' := Next(s, e);
    forall i | 0 <= i < |s'.vehicles|
      ensures HasAsked(s'.vehicles[i].client, AskedTimes(s', s'.vehicles[i].address))
    {
      var v := s.vehicles[i];
      var n := AskedTimes(s, v.address);
      assert HasAsked(v.client, n);
      match e {
        case Ask(j, _) =>
          HasAskedSteps(v.client, n, 0);
          CountAppend(s.asked, Key(s.vehicles[j].address, s.vehicles[j].client.requestsCounter), AskedBy, v.address);
        case Deliver(j) =>
          if s.flight[j].body.ResponseTopic? { HasAskedSteps(v.client, n, s.flight[j].body.answer.reqId); }
        case _ =>
      }
    }
  }

  /** No vehicle asks more than 2^32 times within the first m events. */
  ghost predicate FewAsked(start: State, run: seq<Event>, m: nat)
    requires m <= |run|
  {
    forall j, i :: 0 <= j < m && 0 <= i < |start.vehicles| ==>
      AskedTimes(StateAt(start, run, j), start.vehicles[i].address) < 0x1_0000_0000
  }

  /** Vehicles with clients as they are made: their runs need no further assumption. */
  ghost predicate NewClients(s: State) {
    forall i :: 0 <= i < |s.vehicles| ==> s.vehicles[i].client == ClientState(2, {})
  }

  lemma {:induction false} ClientsStayInStep(start: State, run: seq<Event>, m: nat)
    requires m <= |run| && Initial(start) && NewClients(start)
    ensures ClientsInStep(StateAt(start, run, m)) && WellFormed(StateAt(start, run, m))
    ensures SameAddresses(start.vehicles, StateAt(start, run, m).vehicles)
  {
    if m > 0 {
      ClientsStayInStep(start, run, m - 1);
      var s, e := StateAt(start, run, m - 1), run[m - 1];
      if Enabled(s, e) {
        StepKeepsWellFormed(s, e);
        StepKeepsClientsInStep(s, e);
        StepKeepsAddresses(s, e);
        hide Next, WellFormed, ClientsInStep;
      }
    }
  }

  lemma StepKeepsAddresses(s: State, e: Event)
    requires Enabled(s, e)
    ensures SameAddresses(s.vehicles, Next(s, e).vehicles)
  {
    hide Survivors, Delivered, Released;
  }

  lemma FewAskedIsFresh(start: State, run: seq<Event>, m: nat)
    requires m <= |run| && Initial(start) && NewClients(start) && FewAsked(start, run, m)
    ensures FreshRun(start, run, m)
  {
    forall j | 0 <= j < m
      ensures Fresh(StateAt(start, run, j), run[j])
    {
      ClientsStayInStep(start, run, j);
      var s, e := StateAt(start, run, j), run[j];
      if e.Ask? && e.vehicle < |s.vehicles| {
        var v := s.vehicles[e.vehicle];
        assert v.address == start.vehicles[e.vehicle].address;
        NextIdIsFresh(v.client, AskedTimes(s, v.address));
      }
    }
  }

  /** What that means for a request a vehicle is waiting for: its one token is still on
      its way, or it was lost; and never are there more answers than requests. */
  lemma OneTokenPerRequest(start: State, run: seq<Event>, m: nat, o: nat, id: uint32)
    requires m <= |run| && Initial(start) && FreshRun(start, run, m)
    requires o < |StateAt(start, run, m).vehicles|
    ensures var s := StateAt(start, run, m);
      var k := Key(s.vehicles[o].address, id);
      && (Tokens(s, k) + Count(s.lost, MessageKey, k) == 1 <==> id in s.vehicles[o].node.transmissionTime)
      && (Tokens(s, k) + Count(s.lost, MessageKey, k) == 0 <==> id !in s.vehicles[o].node.transmissionTime)
      && Count(s.answered, SameKey, k) <= Count(s.asked, SameKey, k)
  {
    BooksBalanceAlways(start, run, m);
    var s := StateAt(start, run, m);
    var k := Key(s.vehicles[o].address, id);
    assert Balanced(s, k);
    OwnerHoldsAll(s, o, k);
  }
}
