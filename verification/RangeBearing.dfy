/** Two-way acoustic ranging on one vehicle (RangeBearingPlugin), and the client that
    asks for ranges (Client). */
module RangeBearing {
  import opened CommsPacket
  import opened AcousticModel

  /** speedOfSound is a floating-point number here, unlike in the acoustic model. */
  datatype RangingConfig = RangingConfig(address: uint32, processingDelay: int, speedOfSound: real)

  datatype Ping = Ping(from: uint32, reqId: uint32, timeOfReception: int)

  /** What the plugin publishes for a finished request; `responder` is the sender of
      the response, which the published message does not name. */
  datatype RangeAnswer = RangeAnswer(reqId: uint32, range: real, responder: uint32)

  datatype RangingState = RangingState(
    timeNow: int, messageQueue: seq<Ping>, transmissionTime: map<uint32, int>)

  // ----- The plugin as functions on its state -----

  function RequestSent(s: RangingState, id: uint32): RangingState {
    s.(transmissionTime := s.transmissionTime[id := s.timeNow])
  }

  function RequestFor(c: RangingConfig, to: uint32, id: uint32): AcousticMessage {
    AcousticMessage(to, c.address, RangeRequestMessage, Ranging(id))
  }

  function PingQueued(s: RangingState, m: AcousticMessage): RangingState {
    s.(messageQueue := s.messageQueue + [Ping(m.from, ReqId(m.data), s.timeNow)])
  }

  /** transmissionTime[id]: looking up a missing id inserts the epoch. */
  function TimeOfTx(s: RangingState, id: uint32): int {
    if id in s.transmissionTime then s.transmissionTime[id] else 0
  }

  function ResponseTaken(s: RangingState, m: AcousticMessage): RangingState {
    s.(transmissionTime := s.transmissionTime - {ReqId(m.data)})
  }

  function AnswerTo(c: RangingConfig, s: RangingState, m: AcousticMessage): RangeAnswer {
    var duration := s.timeNow - TimeOfTx(s, ReqId(m.data)) - c.processingDelay;
    RangeAnswer(ReqId(m.data), Covered(c.speedOfSound, duration) / 2.0, m.from)
  }

  /** The answer to a response: half of what sound, at so many metres a second, covers in the
      nanoseconds since the request was sent less the processing delay. */
  lemma AnswerIsHalfWay(c: RangingConfig, s: RangingState, m: AcousticMessage)
    ensures var a, id := AnswerTo(c, s, m), ReqId(m.data);
      && a.reqId == id && a.responder == m.from
      && (id in s.transmissionTime ==>
           a.range == c.speedOfSound
                      * ((s.timeNow - s.transmissionTime[id] - c.processingDelay) as real) / 1000000000.0 / 2.0)
      && (id !in s.transmissionTime ==>
           a.range == c.speedOfSound * ((s.timeNow - c.processingDelay) as real) / 1000000000.0 / 2.0)
  {
    CoveredIs(c.speedOfSound, s.timeNow - TimeOfTx(s, ReqId(m.data)) - c.processingDelay);
    hide Covered;
  }

  predicate Due(c: RangingConfig, now: int, p: Ping) {
    p.timeOfReception + c.processingDelay <= now
  }

  /** How many pings the release loop takes off the front of the queue, from index i. */
  function DuePrefix(c: RangingConfig, now: int, q: seq<Ping>, i: nat): (n: nat)
    requires i <= |q|
    ensures i <= n <= |q|
    decreases |q| - i
  {
    if i < |q| && Due(c, now, q[i]) then DuePrefix(c, now, q, i + 1) else i
  }

  lemma {:induction false} DuePrefixIsDue(c: RangingConfig, now: int, q: seq<Ping>, i: nat)
    requires i <= |q|
    ensures var n := DuePrefix(c, now, q, i);
      && (forall j :: i <= j < n ==> Due(c, now, q[j]))
      && (n < |q| ==> !Due(c, now, q[n]))
    decreases |q| - i
  {
    if i < |q| && Due(c, now, q[i]) { DuePrefixIsDue(c, now, q, i + 1); }
  }

  function ReplyTo(c: RangingConfig, p: Ping): AcousticMessage {
    AcousticMessage(p.from, c.address, RangeResponseMessage, Ranging(p.reqId))
  }

  function Replies(c: RangingConfig, q: seq<Ping>, n: nat): seq<AcousticMessage>
    requires n <= |q|
  {
    if n == 0 then [] else Replies(c, q, n - 1) + [ReplyTo(c, q[n - 1])]
  }

  function Released(c: RangingConfig, s: RangingState, now: int): RangingState {
    s.(timeNow := now, messageQueue := s.messageQueue[DuePrefix(c, now, s.messageQueue, 0)..])
  }

  // ----- The ping queue stays in order -----

  /** Pings are queued in order of reception, none later than the clock. */
  ghost predicate QueueInOrder(s: RangingState) {
    && (forall i, j :: 0 <= i < j < |s.messageQueue| ==>
         s.messageQueue[i].timeOfReception <= s.messageQueue[j].timeOfReception)
    && (forall i :: 0 <= i < |s.messageQueue| ==> s.messageQueue[i].timeOfReception <= s.timeNow)
  }

  lemma QueueStaysInOrder(c: RangingConfig, s: RangingState, m: AcousticMessage, id: uint32)
    requires QueueInOrder(s)
    ensures QueueInOrder(PingQueued(s, m)) && QueueInOrder(RequestSent(s, id)) && QueueInOrder(ResponseTaken(s, m))
  {
    var q := PingQueued(s, m).messageQueue;
    assert forall i :: 0 <= i < |s.messageQueue| ==> q[i] == s.messageQueue[i];
  }

  lemma ReleaseKeepsOrder(c: RangingConfig, s: RangingState, now: int)
    requires QueueInOrder(s) && s.timeNow <= now
    ensures var s' := Released(c, s, now);
      QueueInOrder(s') && s'.timeNow == now && s'.transmissionTime == s.transmissionTime
  {
    var q, n := Released(c, s, now).messageQueue, DuePrefix(c, now, s.messageQueue, 0);
    assert forall i :: 0 <= i < |q| ==> q[i] == s.messageQueue[n + i];
  }

  /** With the queue in order, the loop that stops at the first ping not yet due answers
      exactly the pings that are due: an early ping never waits behind a late one. */
  lemma NoPingWaitsInLine(c: RangingConfig, s: RangingState, now: int, i: nat)
    requires QueueInOrder(s) && i < |s.messageQueue|
    ensures i < DuePrefix(c, now, s.messageQueue, 0) <==>
      s.messageQueue[i].timeOfReception + c.processingDelay <= now
  {
    var n := DuePrefix(c, now, s.messageQueue, 0);
    DuePrefixIsDue(c, now, s.messageQueue, 0);
    if n <= i && n < i {
      assert s.messageQueue[n].timeOfReception <= s.messageQueue[i].timeOfReception;
    }
  }

  /** Out of order, an early ping can be held up: the clock must not run backwards. */
  lemma LatePingHoldsUpEarlyOne(c: RangingConfig, s: RangingState, now: int, i: nat, j: nat)
    requires i < j < |s.messageQueue|
    requires s.messageQueue[j].timeOfReception + c.processingDelay <= now
    requires now < s.messageQueue[i].timeOfReception + c.processingDelay
    ensures j >= DuePrefix(c, now, s.messageQueue, 0)
    ensures s.messageQueue[j].timeOfReception < s.messageQueue[i].timeOfReception
  {
    DuePrefixIsDue(c, now, s.messageQueue, 0);
  }

  class RangeBearingPlugin {
    const config: RangingConfig
    var timeNow: int
    var messageQueue: seq<Ping>
    var transmissionTime: map<uint32, int>

    function View(): RangingState
      reads this
    {
      RangingState(timeNow, messageQueue, transmissionTime)
    }

    constructor (c: RangingConfig)
      ensures config == c && View() == RangingState(0, [], map[])
    {
      config := c;
      timeNow := 0;
      messageQueue := [];
      transmissionTime := map[];
    }

    method OnRangeRequest(to: uint32, id: uint32) returns (sent: AcousticMessage)
      modifies this
      ensures View() == RequestSent(old(View()), id)
      ensures sent == RequestFor(config, to, id)
    {
      sent := AcousticMessage(to, config.address, RangeRequestMessage, Ranging(id));
      transmissionTime := transmissionTime[id := timeNow];
    }

    method OnReceiveCommsMsg(m: AcousticMessage) returns (published: seq<RangeAnswer>)
      modifies this
      ensures m.kind == RangeRequestMessage ==> View() == PingQueued(old(View()), m) && published == []
      ensures m.kind == RangeResponseMessage ==>
        View() == ResponseTaken(old(View()), m) && published == [AnswerTo(config, old(View()), m)]
      ensures m.kind == OtherMessage ==> View() == old(View()) && published == []
    {
      published := [];
      var ping := Ping(m.from, ReqId(m.data), timeNow);
      match m.kind {
        case RangeRequestMessage => messageQueue := messageQueue + [ping];
        case RangeResponseMessage =>
          var answer := PublishResponse(m);
          published := [answer];
        case OtherMessage =>
      }
    }

    method PublishResponse(m: AcousticMessage) returns (answer: RangeAnswer)
      modifies this
      ensures View() == ResponseTaken(old(View()), m)
      ensures answer == AnswerTo(config, old(View()), m)
      ensures ReqId(m.data) in old(transmissionTime) ==>
        answer.range == config.speedOfSound
                        * ((timeNow - old(transmissionTime)[ReqId(m.data)] - config.processingDelay) as real)
                        / 1000000000.0 / 2.0
    {
      AnswerIsHalfWay(config, View(), m);
      var id := ReqId(m.data);
      if id !in transmissionTime {
        transmissionTime := transmissionTime[id := 0];
      }
      var timeOfTx := transmissionTime[id];
      transmissionTime := transmissionTime - {id};
      assert transmissionTime == old(transmissionTime) - {id};
      var duration := timeNow - timeOfTx - config.processingDelay;
      answer := RangeAnswer(id, Covered(config.speedOfSound, duration) / 2.0, m.from);
    }

    method PreUpdate(paused: bool, hasPose: bool, simTime: int) returns (sent: seq<AcousticMessage>)
      modifies this
      ensures paused || !hasPose ==> View() == old(View()) && sent == []
      ensures !paused && hasPose ==>
        && View() == Released(config, old(View()), simTime)
        && sent == Replies(config, old(messageQueue), DuePrefix(config, simTime, old(messageQueue), 0))
    {
      sent := [];
      if paused || !hasPose {
        return;
      }
      timeNow := simTime;
      sent := ReleaseDue();
    }

    /** The loop of PreUpdate: replies to the pings at the front that are due. */
    method ReleaseDue() returns (sent: seq<AcousticMessage>)
      modifies this`messageQueue
      ensures var n := DuePrefix(config, timeNow, old(messageQueue), 0);
        messageQueue == old(messageQueue)[n..] && sent == Replies(config, old(messageQueue), n)
    {
      sent := [];
      ghost var queue, n := messageQueue, 0;
      ghost var due := DuePrefix(config, timeNow, queue, 0);
      while messageQueue != [] && messageQueue[0].timeOfReception + config.processingDelay <= timeNow
        invariant 0 <= n <= |queue| && messageQueue == queue[n..]
        invariant due == DuePrefix(config, timeNow, queue, n)
        invariant sent == Replies(config, queue, n)
        decreases |messageQueue|
      {
        var ping := messageQueue[0];
        sent := sent + [AcousticMessage(ping.from, config.address, RangeResponseMessage, Ranging(ping.reqId))];
        messageQueue := messageQueue[1..];
        n := n + 1;
      }
    }
  }

  // ----- The client -----

  datatype ClientState = ClientState(requestsCounter: uint32, responsePromises: set<uint32>)

  function Increment(x: uint32): uint32 { (x + 1) % 0x1_0000_0000 }

  function Requested(s: ClientState): ClientState {
    ClientState(Increment(s.requestsCounter), s.responsePromises + {s.requestsCounter})
  }

  function Responded(s: ClientState, id: uint32): ClientState {
    s.(responsePromises := s.responsePromises - {id})
  }

  /** The id of the n-th request, from 0. */
  function NthId(n: nat): uint32 { (2 + n) % 0x1_0000_0000 }

  /** How many requests lie between the first one and a request with this id. */
  function Rank(id: uint32): nat { (id - 2) % 0x1_0000_0000 }

  /** A client that has asked n times: what it asks next, and only ids it has used are
      pending. */
  ghost predicate HasAsked(s: ClientState, n: nat) {
    s.requestsCounter == NthId(n) && forall id <- s.responsePromises :: Rank(id) < n
  }

  lemma HasAskedSteps(s: ClientState, n: nat, id: uint32)
    requires HasAsked(s, n)
    ensures HasAsked(Requested(s), n + 1)
    ensures HasAsked(Responded(s, id), n)
  {
    RankOfNth(n);
    assert s.requestsCounter == NthId(n);
    hide Rank;
  }

  lemma RankOfNth(n: nat)
    ensures Rank(NthId(n)) <= n
    ensures n < 0x1_0000_0000 ==> Rank(NthId(n)) == n
    ensures Increment(NthId(n)) == NthId(n + 1)
  {
  }

  /** Up to its 2^32-th request a client asks with an id that no pending promise has. */
  lemma NextIdIsFresh(s: ClientState, n: nat)
    requires HasAsked(s, n) && n < 0x1_0000_0000
    ensures s.requestsCounter !in s.responsePromises
  {
    RankOfNth(n);
    hide Rank;
  }

  /** A new client whose first request is never answered, after n more requests, each
      answered before the next. */
  function FirstUnanswered(n: nat): ClientState {
    if n == 0 then Requested(ClientState(2, {}))
    else
      var s := FirstUnanswered(n - 1);
      Responded(Requested(s), s.requestsCounter)
  }

  lemma {:induction false} FirstStaysPending(n: nat)
    requires n < 0x1_0000_0000
    ensures FirstUnanswered(n) == ClientState(NthId(n + 1), {2})
  {
    RankOfNth(0);
    RankOfNth(n);
    if n > 0 { FirstStaysPending(n - 1); }
    hide Rank, Increment;
  }

  /** After that it need not be: after 2^32 requests of that run, and not before, the id the
      client asks with next is that of its first request, still pending. */
  lemma IdsComeAround(n: nat)
    requires n < 0x1_0000_0000
    ensures var s := FirstUnanswered(n);
      s.requestsCounter in s.responsePromises <==> n == 0xFFFF_FFFF
  {
    FirstStaysPending(n);
  }

  class Client {
    var requestsCounter: uint32
    var responsePromises: set<uint32>

    function View(): ClientState
      reads this
    {
      ClientState(requestsCounter, responsePromises)
    }

    constructor ()
      ensures View() == ClientState(2, {})
    {
      requestsCounter := 2;
      responsePromises := {};
    }

    /** The id published with the request; its promise is now pending. */
    method Request() returns (id: uint32)
      modifies this
      ensures id == old(requestsCounter) && View() == Requested(old(View()))
    {
      id := requestsCounter;
      requestsCounter := Increment(requestsCounter);
      responsePromises := responsePromises + {id};
    }

    /** Whether the response fulfilled a promise; an unknown id is only warned about. */
    method OnResponse(id: uint32) returns (fulfilled: bool)
      modifies this
      ensures fulfilled <==> id in old(responsePromises)
      ensures View() == Responded(old(View()), id)
    {
      fulfilled := id in responsePromises;
      if !fulfilled {
        return;
      }
      responsePromises := responsePromises - {id};
    }
  }
}
