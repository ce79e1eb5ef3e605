/** The agent's end of the WebSocket: registration, heartbeat timer and challenge handler. */
module WebSocketService {
  import opened Prelude
  import opened Crypto
  import opened Entities
  import opened Framing
  import opened AgentSigning
  import opened EnrollmentService
  import opened Heartbeats
  import Gateway = EventsGateway

  type Socket = Gateway.Socket

  datatype ToHub =
    | DeviceConnect(deviceId: Option<string>)
    | DeviceHeartbeat(deviceId: Option<string>)
    | ChallengeResponse(challengeId: string, deviceId: Option<string>, signature: Signature)

  /** A message, the instant it was sent, and the connection it was sent on. */
  datatype Emission = Emission(at: nat, socket: Socket, message: ToHub)

  /** When the timer was started, and how often it has fired. */
  datatype Timer = Timer(start: nat, fired: nat)

  /** `used` are the connection ids of the client so far; a new connection gets a new one. */
  datatype Link = Link(deviceId: Option<string>, now: nat, socket: Option<Socket>, timer: Option<Timer>,
                       used: set<Socket>, outbox: seq<Emission>)

  datatype LinkStep =
    | Passes(until: nat)
    | Connects(connection: Socket)
    | Loses
    | Disconnects
    | Fires
    | Sends(challengeId: string, signature: Signature)

  function Due(t: Timer): nat {
    BeatAt(t.start, t.fired)
  }

  /**
   The timer fires when it is due; the connected and disconnected events alternate;
   a lost socket is noticed later.
   */
  predicate Possible(l: Link, s: LinkStep) {
    match s
    case Passes(until) => l.now <= until && (l.timer.Some? ==> until <= Due(l.timer.value))
    case Connects(c) => l.socket.None? && l.timer.None? && c !in l.used
    case Loses => l.socket.Some?
    case Disconnects => l.socket.None? && l.timer.Some?
    case Fires => l.timer.Some? && l.now == Due(l.timer.value)
    case Sends(_, _) => l.socket.Some?
  }

  function Emitted(l: Link, message: ToHub): seq<Emission> {
    if l.socket.Some? then l.outbox + [Emission(l.now, l.socket.value, message)] else l.outbox
  }

  function After(l: Link, s: LinkStep): Link
    requires Possible(l, s)
  {
    match s
    case Passes(until) => l.(now := until)
    case Connects(c) =>
      var l1 := l.(socket := Some(c), timer := Some(Timer(l.now, 0)), used := l.used + {c});
      l1.(outbox := Emitted(l1, DeviceConnect(l.deviceId)))
    case Loses => l.(socket := None)
    case Disconnects => l.(timer := None)
    case Fires =>
      l.(timer := Some(Timer(l.timer.value.start, l.timer.value.fired + 1)),
         outbox := Emitted(l, DeviceHeartbeat(l.deviceId)))
    case Sends(id, signature) => l.(outbox := Emitted(l, ChallengeResponse(id, l.deviceId, signature)))
  }

  datatype LinkRun = LinkRun(links: seq<Link>, steps: seq<LinkStep>)

  predicate Opened(l: Link) {
    l.socket.None? && l.timer.None? && l.used == {} && l.outbox == []
  }

  predicate LinkStepAt(r: LinkRun, i: nat)
    requires i < |r.steps| && |r.links| == |r.steps| + 1
  {
    Possible(r.links[i], r.steps[i]) && r.links[i + 1] == After(r.links[i], r.steps[i])
  }

  ghost predicate ValidLink(r: LinkRun) {
    && |r.links| == |r.steps| + 1 && Opened(r.links[0])
    && forall i :: 0 <= i < |r.steps| ==> LinkStepAt(r, i)
  }

  // ---- What is said on one connection ----

  /** The announcements and heartbeats sent on connection `c`, in order. */
  function Talk(outbox: seq<Emission>, c: Socket): seq<Emission> {
    if outbox == [] then []
    else
      var last := outbox[|outbox| - 1];
      Talk(outbox[..|outbox| - 1], c) + if last.socket == c && !last.message.ChallengeResponse? then [last] else []
  }

  lemma TalkMore(outbox: seq<Emission>, e: Emission, c: Socket)
    ensures Talk(outbox + [e], c) ==
      Talk(outbox, c) + if e.socket == c && !e.message.ChallengeResponse? then [e] else []
  {
    assert (outbox + [e])[..|outbox|] == outbox;
  }

  /** One announcement at `start`, then `n` heartbeats, the `i`-th exactly at `BeatAt(start, i)`. */
  function Session(deviceId: Option<string>, c: Socket, start: nat, n: nat): seq<Emission> {
    if n == 0 then [Emission(start, c, DeviceConnect(deviceId))]
    else Session(deviceId, c, start, n - 1) + [Emission(BeatAt(start, n - 1), c, DeviceHeartbeat(deviceId))]
  }

  /** What was said on a connection is one session. */
  ghost predicate Kept(l: Link, c: Socket) {
    exists start: nat, n: nat :: Talk(l.outbox, c) == Session(l.deviceId, c, start, n)
  }

  /** Every connection so far was one session, and the open one is up to date with its timer. */
  ghost predicate Wired(l: Link) {
    && (l.socket.Some? ==>
          && l.socket.value in l.used && l.timer.Some?
          && Talk(l.outbox, l.socket.value) ==
               Session(l.deviceId, l.socket.value, l.timer.value.start, l.timer.value.fired))
    && (l.timer.Some? ==> l.now <= Due(l.timer.value))
    && (forall c :: c in l.used ==> Kept(l, c))
    && (forall c :: c !in l.used ==> Talk(l.outbox, c) == [])
  }

  lemma KeptMore(l: Link, l': Link, c: Socket)
    requires Kept(l, c) && l'.deviceId == l.deviceId && Talk(l'.outbox, c) == Talk(l.outbox, c)
    ensures Kept(l', c)
  {
    var start: nat, n: nat :| Talk(l.outbox, c) == Session(l.deviceId, c, start, n);
    assert Talk(l'.outbox, c) == Session(l'.deviceId, c, start, n);
  }

  /** A message on the open connection leaves what was said on the others. */
  lemma OthersKept(l: Link, l': Link, c: Socket, e: Emission)
    requires Wired(l) && l'.deviceId == l.deviceId && l'.outbox == l.outbox + [e] && e.socket == c
    ensures forall d :: d != c && d in l.used ==> Kept(l', d)
    ensures forall d :: d != c && d !in l.used ==> Talk(l'.outbox, d) == []
  {
    forall d | d != c && d in l.used
      ensures Kept(l', d)
    {
      TalkMore(l.outbox, e, d);
      KeptMore(l, l', d);
    }
    forall d | d != c && d !in l.used
      ensures Talk(l'.outbox, d) == []
    {
      TalkMore(l.outbox, e, d);
    }
  }

  lemma WiredConnects(l: Link, c: Socket)
    requires Wired(l) && Possible(l, Connects(c))
    ensures Wired(After(l, Connects(c)))
  {
    var l' := After(l, Connects(c));
    var e := Emission(l.now, c, DeviceConnect(l.deviceId));
    OthersKept(l, l', c, e);
    TalkMore(l.outbox, e, c);
    assert Talk(l'.outbox, c) == Session(l.deviceId, c, l.now, 0);
  }

  lemma WiredFires(l: Link)
    requires Wired(l) && Possible(l, Fires) && l.socket.Some?
    ensures Wired(After(l, Fires))
  {
    var l', c, t := After(l, Fires), l.socket.value, l.timer.value;
    var e := Emission(l.now, c, DeviceHeartbeat(l.deviceId));
    OthersKept(l, l', c, e);
    TalkMore(l.outbox, e, c);
    assert Talk(l'.outbox, c) == Session(l.deviceId, c, t.start, t.fired + 1);
  }

  lemma WiredSends(l: Link, id: string, signature: Signature)
    requires Wired(l) && Possible(l, Sends(id, signature))
    ensures Wired(After(l, Sends(id, signature)))
  {
    var l', c := After(l, Sends(id, signature)), l.socket.value;
    var e := Emission(l.now, c, ChallengeResponse(id, l.deviceId, signature));
    OthersKept(l, l', c, e);
    TalkMore(l.outbox, e, c);
    KeptMore(l, l', c);
  }

  lemma WiredStep(l: Link, s: LinkStep)
    requires Wired(l) && Possible(l, s)
    ensures Wired(After(l, s))
  {
    if s.Connects? {
      WiredConnects(l, s.connection);
    } else if s.Fires? && l.socket.Some? {
      WiredFires(l);
    } else if s.Sends? {
      WiredSends(l, s.challengeId, s.signature);
    } else {
      forall c | c in l.used
        ensures Kept(After(l, s), c)
      {
        KeptMore(l, After(l, s), c);
      }
    }
  }

  /** In every reachable state of the agent's client each connection was one session. */
  lemma {:induction false} AlwaysWired(r: LinkRun, i: nat)
    requires ValidLink(r) && i < |r.links|
    ensures Wired(r.links[i]) && r.links[i].deviceId == r.links[0].deviceId
  {
    if i > 0 {
      AlwaysWired(r, i - 1);
      assert LinkStepAt(r, i - 1);
      WiredStep(r.links[i - 1], r.steps[i - 1]);
    }
  }

  /** When the heartbeats on connection `c` were sent. */
  function BeatTimes(outbox: seq<Emission>, c: Socket): seq<nat> {
    if outbox == [] then []
    else
      var last := outbox[|outbox| - 1];
      BeatTimes(outbox[..|outbox| - 1], c) + if last.socket == c && last.message.DeviceHeartbeat? then [last.at] else []
  }

  lemma {:induction false} BeatsOfTalk(outbox: seq<Emission>, c: Socket)
    ensures BeatTimes(outbox, c) == BeatTimes(Talk(outbox, c), c)
  {
    if outbox != [] {
      var front, last := outbox[..|outbox| - 1], outbox[|outbox| - 1];
      BeatsOfTalk(front, c);
      if last.socket == c && !last.message.ChallengeResponse? {
        BeatsMore(Talk(front, c), last, c);
      } else {
        assert Talk(outbox, c) == Talk(front, c);
      }
    }
  }

  lemma BeatsMore(outbox: seq<Emission>, e: Emission, c: Socket)
    ensures BeatTimes(outbox + [e], c) ==
      BeatTimes(outbox, c) + if e.socket == c && e.message.DeviceHeartbeat? then [e.at] else []
  {
    assert (outbox + [e])[..|outbox|] == outbox;
  }

  lemma {:induction false} BeatsOfSession(deviceId: Option<string>, c: Socket, start: nat, n: nat)
    ensures var times := BeatTimes(Session(deviceId, c, start, n), c);
      |times| == n && forall i :: 0 <= i < n ==> times[i] == BeatAt(start, i)
  {
    if n == 0 {
      BeatsOfNone(Emission(start, c, DeviceConnect(deviceId)), c);
    } else {
      BeatsOfSession(deviceId, c, start, n - 1);
      BeatsMore(Session(deviceId, c, start, n - 1), Emission(BeatAt(start, n - 1), c, DeviceHeartbeat(deviceId)), c);
    }
  }

  lemma BeatsOfNone(e: Emission, c: Socket)
    requires !e.message.DeviceHeartbeat?
    ensures BeatTimes([e], c) == []
  {
    assert [e][..0] == [];
  }

  /**
   While a connection is open, its heartbeats have left exactly thirty seconds
   after it opened and every sixty seconds from then on, up to the present.
   */
  lemma BeatsOnTime(r: LinkRun, i: nat)
    requires ValidLink(r) && i < |r.links| && r.links[i].socket.Some?
    ensures r.links[i].timer.Some?
    ensures var l := r.links[i]; var times := BeatTimes(l.outbox, l.socket.value); var start := l.timer.value.start;
      && (forall n :: 0 <= n < |times| ==> times[n] == BeatAt(start, n) <= l.now)
      && l.now <= BeatAt(start, |times|)
  {
    AlwaysWired(r, i);
    var l := r.links[i];
    BeatsOfTalk(l.outbox, l.socket.value);
    BeatsOfSession(l.deviceId, l.socket.value, l.timer.value.start, l.timer.value.fired);
    SentInPast(r, i);
    BeatsNotAhead(l.outbox, l.socket.value, l.now);
  }

  predicate NotAhead(outbox: seq<Emission>, now: nat) {
    forall n :: 0 <= n < |outbox| ==> outbox[n].at <= now
  }

  /** Nothing in the outbox is from the future. */
  lemma {:induction false} SentInPast(r: LinkRun, i: nat)
    requires ValidLink(r) && i < |r.links|
    ensures NotAhead(r.links[i].outbox, r.links[i].now)
  {
    if i > 0 {
      SentInPast(r, i - 1);
      assert LinkStepAt(r, i - 1);
    }
  }

  lemma {:induction false} BeatsNotAhead(outbox: seq<Emission>, c: Socket, now: nat)
    requires NotAhead(outbox, now)
    ensures forall n :: 0 <= n < |BeatTimes(outbox, c)| ==> BeatTimes(outbox, c)[n] <= now
  {
    if outbox != [] {
      BeatsNotAhead(outbox[..|outbox| - 1], c, now);
    }
  }

  lemma {:induction false} SessionAnnouncesOnce(deviceId: Option<string>, c: Socket, start: nat, n: nat, i: nat)
    requires i < |Session(deviceId, c, start, n)| && Session(deviceId, c, start, n)[i].message.DeviceConnect?
    ensures i == 0 && Session(deviceId, c, start, n)[i] == Emission(start, c, DeviceConnect(deviceId))
  {
    if n > 0 && i < |Session(deviceId, c, start, n - 1)| {
      SessionAnnouncesOnce(deviceId, c, start, n - 1, i);
    }
  }

  lemma {:induction false} TalkHas(outbox: seq<Emission>, e: Emission)
    requires e in outbox && !e.message.ChallengeResponse?
    ensures e in Talk(outbox, e.socket)
  {
    var last := outbox[|outbox| - 1];
    if last != e {
      assert outbox == outbox[..|outbox| - 1] + [last];
      TalkHas(outbox[..|outbox| - 1], e);
    }
  }

  /** A connection announces one device id, once: that of the agent. */
  lemma AnnouncesOne(r: LinkRun, i: nat, e: Emission)
    requires ValidLink(r) && i < |r.links| && e in r.links[i].outbox && e.message.DeviceConnect?
    ensures e.message.deviceId == r.links[0].deviceId && e.socket in r.links[i].used
    ensures forall d :: d in r.links[i].outbox && d.message.DeviceConnect? && d.socket == e.socket ==> d == e
  {
    AlwaysWired(r, i);
    var l := r.links[i];
    TalkHas(l.outbox, e);
    assert e.socket in l.used;
    assert Kept(l, e.socket);
    var start: nat, n: nat :| Talk(l.outbox, e.socket) == Session(l.deviceId, e.socket, start, n);
    forall d | d in l.outbox && d.message.DeviceConnect? && d.socket == e.socket
      ensures d == Emission(start, e.socket, DeviceConnect(l.deviceId))
    {
      TalkHas(l.outbox, d);
      var m :| 0 <= m < |Talk(l.outbox, e.socket)| && Talk(l.outbox, e.socket)[m] == d;
      SessionAnnouncesOnce(l.deviceId, e.socket, start, n, m);
    }
  }

  // ---- What is said to a challenge ----

  /** The challenge handler: signs and answers, or does nothing if signing throws. */
  function Handled(l: Link, a: Option<Identity>, p: Payload): Link
    requires l.socket.Some?
  {
    if a.Some? && SignChallenge(a.value, p).Some?
    then After(l, Sends(p.challengeId, SignChallenge(a.value, p).value))
    else l
  }

  /**
   Sent now, on the open connection, for this challenge and from this agent's
   device, with a signature that verifies under its key for exactly these ten
   lines and for no other text.
   */
  ghost predicate RightAnswer(e: Emission, l: Link, a: Identity, p: Payload) {
    && e.at == l.now && l.socket == Some(e.socket)
    && e.message.ChallengeResponse? && e.message.challengeId == p.challengeId && e.message.deviceId == l.deviceId
    && forall text :: Verify(Pub(a.key), text, e.message.signature) <==>
         text == Join(["troofai-v1", p.challengeId, a.tenantId.GetOr(""), a.deviceId.GetOr(""), a.userId.GetOr(""),
                       p.meetingId, p.participantId, p.nonce, p.issuedAt, p.expiresAt])
  }

  /** One answer to a challenge whose three ids have eight characters or more, and none to any other. */
  lemma AnswersRight(l: Link, a: Identity, p: Payload)
    requires l.socket.Some?
    ensures var l' := Handled(l, Some(a), p);
      if |p.challengeId| >= 8 && |p.meetingId| >= 8 && |p.participantId| >= 8
      then |l'.outbox| == |l.outbox| + 1 && l' == l.(outbox := l.outbox + [l'.outbox[|l.outbox|]])
           && RightAnswer(l'.outbox[|l.outbox|], l, a, p)
      else l' == l
  {
  }

  // ---- The client ----

  class WebSocketService {
    const enrollment: EnrollmentService
    var now: nat
    var socket: Option<Socket>
    var timer: Option<Timer>
    var outbox: seq<Emission>
    ghost var used: set<Socket>

    constructor (enrollment: EnrollmentService)
      ensures this.enrollment == enrollment && Opened(State()) && Wired(State())
    {
      this.enrollment := enrollment;
      now, socket, timer, outbox, used := 0, None, None, [], {};
    }

    ghost function State(): Link
      reads this, enrollment
    {
      Link(enrollment.deviceId, now, socket, timer, used, outbox)
    }

    /** What the challenge handler signs with; null before the key is initialised. */
    ghost function Signer(): Option<Identity>
      reads enrollment, enrollment.keys
    {
      if enrollment.keys.rsa.None? then None
      else Some(Identity(enrollment.keys.rsa.value, enrollment.tenantId, enrollment.deviceId, enrollment.userId))
    }

    method OnConnected(connection: Socket)
      requires Wired(State()) && Possible(State(), Connects(connection))
      modifies this
      ensures State() == After(old(State()), Connects(connection)) && Wired(State())
      ensures Talk(outbox, connection) == Session(enrollment.deviceId, connection, now, 0)
    {
      WiredStep(State(), Connects(connection));
      socket := Some(connection);
      used := used + {connection};
      outbox := outbox + [Emission(now, connection, DeviceConnect(enrollment.deviceId))];
      timer := Some(Timer(now, 0));
    }

    method OnDisconnected()
      requires Wired(State()) && Possible(State(), Disconnects)
      modifies this
      ensures State() == After(old(State()), Disconnects) && Wired(State())
      ensures forall c :: Talk(outbox, c) == old(Talk(outbox, c))
    {
      WiredStep(State(), Disconnects);
      timer := None;
    }

    /** The callback sends only on an open socket. */
    method OnTimer()
      requires Wired(State()) && Possible(State(), Fires)
      modifies this
      ensures State() == After(old(State()), Fires) && Wired(State())
      ensures socket.Some? ==>
        Talk(outbox, socket.value) == Session(enrollment.deviceId, socket.value, timer.value.start, timer.value.fired)
    {
      WiredStep(State(), Fires);
      if socket.Some? {
        outbox := outbox + [Emission(now, socket.value, DeviceHeartbeat(enrollment.deviceId))];
      }
      timer := Some(Timer(timer.value.start, timer.value.fired + 1));
    }

    /** Answers with the device id of the enrolment; an error while signing is swallowed. */
    method OnChallenge(p: Payload)
      requires Wired(State()) && socket.Some?
      modifies this`outbox
      ensures Wired(State())
      ensures State() == Handled(old(State()), Signer(), p)
      ensures if enrollment.keys.rsa.Some? && |p.challengeId| >= 8 && |p.meetingId| >= 8 && |p.participantId| >= 8
        then |outbox| == |old(outbox)| + 1 && outbox[..|old(outbox)|] == old(outbox)
             && RightAnswer(outbox[|old(outbox)|], old(State()), Signer().value, p)
        else outbox == old(outbox)
    {
      if enrollment.keys.rsa.None? {
        return;
      }
      var a := Identity(enrollment.keys.rsa.value, enrollment.tenantId, enrollment.deviceId, enrollment.userId);
      var signature := SignChallenge(a, p);
      if signature.Some? {
        WiredStep(State(), Sends(p.challengeId, signature.value));
        outbox := outbox + [Emission(now, socket.value,
          ChallengeResponse(p.challengeId, enrollment.deviceId, signature.value))];
      }
    }
  }
}
