/**
 The WebSocket registry. Its two maps are changed in place; a ghost history of
 what the clients did says what they should hold.
 */
module EventsGateway {
  import opened Prelude
  import opened Entities

  /** The id of one Socket.IO connection; a reconnecting client gets a new one. */
  type Socket = nat

  datatype GatewayEvent =
    | Joined(socket: Socket)
    | Left(socket: Socket)
    | Registered(socket: Socket, deviceId: string)
    | Subscribed(socket: Socket, meetingId: string)

  datatype Message =
    | ChallengeIssue(payload: Payload)
    | StatusUpdate(meetingId: Option<string>, participantId: string, status: TrustStatus)

  datatype Delivery = Delivery(to: Socket, message: Message)

  // ---- What a history says ----

  function After(clients: set<Socket>, e: GatewayEvent): set<Socket> {
    if e.Joined? then clients + {e.socket}
    else if e.Left? then clients - {e.socket}
    else clients
  }

  function Connected(history: seq<GatewayEvent>): set<Socket> {
    if history == [] then {}
    else After(Connected(history[..|history| - 1]), history[|history| - 1])
  }

  /** The position of the latest `device:connect` for a device, or -1. */
  function LatestConnect(history: seq<GatewayEvent>, d: string): (i: int)
    ensures -1 <= i < |history|
    ensures i >= 0 ==> history[i].Registered? && history[i].deviceId == d
  {
    if history == [] then -1
    else
      var last := history[|history| - 1];
      if last.Registered? && last.deviceId == d then |history| - 1
      else LatestConnect(history[..|history| - 1], d)
  }

  /** The socket a challenge for `d` should go to. */
  function RouteOf(history: seq<GatewayEvent>, d: string): Option<Socket> {
    var i := LatestConnect(history, d);
    if i >= 0 && history[i].socket in Connected(history) then Some(history[i].socket) else None
  }

  function SubscribersOf(history: seq<GatewayEvent>, m: string): set<Socket> {
    set s | s in Connected(history) && Subscribed(s, m) in history
  }

  /** As the agent does: one connection announces one device id. */
  predicate OneDevicePerSocket(history: seq<GatewayEvent>) {
    forall i, j ::
      (0 <= i < |history| && 0 <= j < |history| && history[i].Registered? && history[j].Registered?
       && history[i].socket == history[j].socket)
      ==> history[i].deviceId == history[j].deviceId
  }

  ghost predicate RoutesRight(deviceSockets: map<string, Socket>, history: seq<GatewayEvent>) {
    forall d: string ::
      RouteOf(history, d) == if d in deviceSockets then Some(deviceSockets[d]) else None
  }

  ghost predicate IndexRight(meetingSockets: map<string, set<Socket>>, history: seq<GatewayEvent>) {
    forall m: string ::
      SubscribersOf(history, m) == (if m in meetingSockets then meetingSockets[m] else {})
      && (m in meetingSockets ==> meetingSockets[m] != {})
  }

  /** At most one device is routed to `s`. */
  predicate HoldsAtMostOne(deviceSockets: map<string, Socket>, s: Socket) {
    forall d, e :: d in deviceSockets && e in deviceSockets && deviceSockets[d] == s && deviceSockets[e] == s ==> d == e
  }

  lemma SingleRoute(deviceSockets: map<string, Socket>, history: seq<GatewayEvent>, s: Socket)
    requires OneDevicePerSocket(history) && RoutesRight(deviceSockets, history)
    ensures HoldsAtMostOne(deviceSockets, s)
  {
    forall d, e | d in deviceSockets && e in deviceSockets && deviceSockets[d] == s && deviceSockets[e] == s
      ensures d == e
    {
      assert RouteOf(history, d) == Some(s) == RouteOf(history, e);
      assert history[LatestConnect(history, d)].socket == history[LatestConnect(history, e)].socket;
    }
  }

  lemma OneDevicePrefix(history: seq<GatewayEvent>, e: GatewayEvent)
    requires OneDevicePerSocket(history + [e])
    ensures OneDevicePerSocket(history)
  {
    var h := history + [e];
    assert forall i :: 0 <= i < |history| ==> h[i] == history[i];
  }

  /** How each answer read off the history changes with one more event. */
  lemma Extend(history: seq<GatewayEvent>, e: GatewayEvent)
    ensures Connected(history + [e]) == After(Connected(history), e)
    ensures forall d ::
      LatestConnect(history + [e], d) ==
        if e.Registered? && e.deviceId == d then |history| else LatestConnect(history, d)
    ensures forall x :: x in history + [e] <==> x in history || x == e
  {
    assert (history + [e])[..|history|] == history;
  }

  lemma RoutesAfterDisconnect(before: map<string, Socket>, after: map<string, Socket>, history: seq<GatewayEvent>,
      client: Socket)
    requires RoutesRight(before, history)
    requires after.Keys == set d | d in before && before[d] != client
    requires forall d :: d in after ==> after[d] == before[d]
    ensures RoutesRight(after, history + [Left(client)])
  {
    var h := history + [Left(client)];
    Extend(history, Left(client));
    forall d: string
      ensures RouteOf(h, d) == if d in after then Some(after[d]) else None
    {
      assert RouteOf(history, d) == if d in before then Some(before[d]) else None;
      var i := LatestConnect(history, d);
      assert i >= 0 ==> h[i] == history[i];
    }
  }

  lemma RoutesAfterConnect(before: map<string, Socket>, history: seq<GatewayEvent>, client: Socket, device: string)
    requires RoutesRight(before, history) && client in Connected(history)
    ensures RoutesRight(before[device := client], history + [Registered(client, device)])
  {
    var h := history + [Registered(client, device)];
    Extend(history, Registered(client, device));
    forall d: string
      ensures RouteOf(h, d) == if d in before[device := client] then Some(before[device := client][d]) else None
    {
      assert RouteOf(history, d) == if d in before then Some(before[d]) else None;
      var i := LatestConnect(history, d);
      assert i >= 0 ==> h[i] == history[i];
    }
  }

  lemma RoutesKept(routes: map<string, Socket>, history: seq<GatewayEvent>, e: GatewayEvent)
    requires RoutesRight(routes, history)
    requires e.Subscribed? || (e.Joined? && forall i :: 0 <= i < |history| ==> history[i].socket != e.socket)
    ensures RoutesRight(routes, history + [e])
  {
    Extend(history, e);
    forall d: string
      ensures RouteOf(history + [e], d) == if d in routes then Some(routes[d]) else None
    {
      assert RouteOf(history, d) == if d in routes then Some(routes[d]) else None;
      var i := LatestConnect(history, d);
      assert i >= 0 ==> (history + [e])[i] == history[i];
    }
  }

  lemma IndexKept(index: map<string, set<Socket>>, history: seq<GatewayEvent>, e: GatewayEvent)
    requires IndexRight(index, history)
    requires e.Registered? || (e.Joined? && forall i :: 0 <= i < |history| ==> history[i].socket != e.socket)
    ensures IndexRight(index, history + [e])
  {
    Extend(history, e);
    forall m: string
      ensures SubscribersOf(history + [e], m) == SubscribersOf(history, m)
    {
    }
  }

  function With(index: map<string, set<Socket>>, m: string, client: Socket): map<string, set<Socket>> {
    index[m := (if m in index then index[m] else {}) + {client}]
  }

  lemma IndexAfterSubscribe(before: map<string, set<Socket>>, history: seq<GatewayEvent>, client: Socket,
      meetingId: string)
    requires IndexRight(before, history) && client in Connected(history)
    ensures IndexRight(With(before, meetingId, client), history + [Subscribed(client, meetingId)])
  {
    var h := history + [Subscribed(client, meetingId)];
    Extend(history, Subscribed(client, meetingId));
    forall m: string
      ensures SubscribersOf(h, m) == SubscribersOf(history, m) + if m == meetingId then {client} else {}
    {
    }
  }

  /** What the second loop of a disconnect leaves of the index. */
  ghost predicate Pruned(before: map<string, set<Socket>>, after: map<string, set<Socket>>, client: Socket) {
    && (forall m :: m in after <==> m in before && before[m] - {client} != {})
    && (forall m :: m in after ==> after[m] == before[m] - {client})
  }

  lemma IndexAfterDisconnect(before: map<string, set<Socket>>, after: map<string, set<Socket>>,
                             history: seq<GatewayEvent>, client: Socket)
    requires IndexRight(before, history) && Pruned(before, after, client)
    ensures IndexRight(after, history + [Left(client)])
  {
    var h := history + [Left(client)];
    Extend(history, Left(client));
    forall m: string
      ensures SubscribersOf(h, m) == (if m in after then after[m] else {}) && (m in after ==> after[m] != {})
    {
      assert SubscribersOf(h, m) == SubscribersOf(history, m) - {client};
      assert SubscribersOf(history, m) == if m in before then before[m] else {};
    }
  }

  /** The three tables say what the history says. */
  ghost predicate Mirrors(deviceSockets: map<string, Socket>, meetingSockets: map<string, set<Socket>>,
                          clients: set<Socket>, history: seq<GatewayEvent>) {
    && clients == Connected(history)
    && IndexRight(meetingSockets, history)
    && (OneDevicePerSocket(history) ==> RoutesRight(deviceSockets, history))
  }

  lemma MirrorsConnection(routes: map<string, Socket>, index: map<string, set<Socket>>, clients: set<Socket>,
                          history: seq<GatewayEvent>, client: Socket)
    requires Mirrors(routes, index, clients, history)
    requires forall i :: 0 <= i < |history| ==> history[i].socket != client
    ensures Mirrors(routes, index, clients + {client}, history + [Joined(client)])
  {
    var e := Joined(client);
    Extend(history, e);
    IndexKept(index, history, e);
    if OneDevicePerSocket(history + [e]) {
      OneDevicePrefix(history, e);
      RoutesKept(routes, history, e);
    }
  }

  lemma MirrorsDevice(routes: map<string, Socket>, index: map<string, set<Socket>>, clients: set<Socket>,
                      history: seq<GatewayEvent>, client: Socket, deviceId: string)
    requires Mirrors(routes, index, clients, history) && client in clients
    ensures Mirrors(routes[deviceId := client], index, clients, history + [Registered(client, deviceId)])
  {
    var e := Registered(client, deviceId);
    Extend(history, e);
    IndexKept(index, history, e);
    if OneDevicePerSocket(history + [e]) {
      OneDevicePrefix(history, e);
      RoutesAfterConnect(routes, history, client, deviceId);
    }
  }

  lemma MirrorsSubscription(routes: map<string, Socket>, index: map<string, set<Socket>>, clients: set<Socket>,
                            history: seq<GatewayEvent>, client: Socket, meetingId: string)
    requires Mirrors(routes, index, clients, history) && client in clients
    ensures Mirrors(routes, With(index, meetingId, client), clients, history + [Subscribed(client, meetingId)])
  {
    var e := Subscribed(client, meetingId);
    Extend(history, e);
    IndexAfterSubscribe(index, history, client, meetingId);
    if OneDevicePerSocket(history + [e]) {
      OneDevicePrefix(history, e);
      RoutesKept(routes, history, e);
    }
  }

  /** What the first loop of a disconnect leaves of the routes: one removal at most. */
  ghost predicate Unrouted(before: map<string, Socket>, after: map<string, Socket>, client: Socket) {
    && after.Keys <= before.Keys
    && (forall d :: d in after ==> after[d] == before[d])
    && (forall d :: d in before && before[d] != client ==> d in after)
    && (client !in after.Values <==> HoldsAtMostOne(before, client))
  }

  /** A map's keys in the order in which it walks them: that of their first insertion. */
  ghost predicate WalkOrder(deviceSockets: map<string, Socket>, order: seq<string>) {
    && (forall i, j :: 0 <= i < j < |order| ==> order[i] != order[j])
    && (forall i :: 0 <= i < |order| ==> order[i] in deviceSockets)
    && (forall d {:trigger d in order} :: d in deviceSockets ==> d in order)
  }

  /** The device at position `i` is the first one routed to `client`. */
  ghost predicate FirstRouted(deviceSockets: map<string, Socket>, order: seq<string>, client: Socket, i: int)
    requires WalkOrder(deviceSockets, order)
  {
    && 0 <= i < |order| && deviceSockets[order[i]] == client
    && forall j :: 0 <= j < i ==> deviceSockets[order[j]] != client
  }

  /** The first device routed to `client` goes, and nothing else. */
  ghost predicate DropsFirst(before: map<string, Socket>, order: seq<string>,
                             after: map<string, Socket>, order': seq<string>, client: Socket)
    requires WalkOrder(before, order)
  {
    && (forall i :: FirstRouted(before, order, client, i) ==>
          after == before - {order[i]} && order' == order[..i] + order[i + 1..])
    && ((forall i :: !FirstRouted(before, order, client, i)) ==> after == before && order' == order)
  }

  lemma WalkOrderMore(deviceSockets: map<string, Socket>, order: seq<string>, d: string, client: Socket)
    requires WalkOrder(deviceSockets, order)
    ensures WalkOrder(deviceSockets[d := client], if d in deviceSockets then order else order + [d])
  {
  }

  lemma WalkOrderLess(deviceSockets: map<string, Socket>, order: seq<string>, i: nat)
    requires WalkOrder(deviceSockets, order) && i < |order|
    ensures WalkOrder(deviceSockets - {order[i]}, order[..i] + order[i + 1..])
  {
    var less := order[..i] + order[i + 1..];
    forall d | d in order && d != order[i]
      ensures d in less
    {
      var j :| 0 <= j < |order| && order[j] == d;
      assert j < i ==> less[j] == d;
      assert j > i ==> less[j - 1] == d;
    }
  }

  lemma FirstDropped(before: map<string, Socket>, order: seq<string>, client: Socket, i: nat)
    requires WalkOrder(before, order) && FirstRouted(before, order, client, i)
    ensures Unrouted(before, before - {order[i]}, client)
    ensures DropsFirst(before, order, before - {order[i]}, order[..i] + order[i + 1..], client)
  {
    var after := before - {order[i]};
    assert forall d :: d in after ==> after[d] in after.Values;
  }

  lemma NoneDropped(before: map<string, Socket>, order: seq<string>, client: Socket)
    requires WalkOrder(before, order)
    requires forall j :: 0 <= j < |order| ==> before[order[j]] != client
    ensures Unrouted(before, before, client)
    ensures DropsFirst(before, order, before, order, client)
  {
    forall d | d in before
      ensures before[d] != client
    {
      assert d in order;
    }
  }

  lemma MirrorsDisconnect(routes: map<string, Socket>, routes': map<string, Socket>,
                          index: map<string, set<Socket>>, index': map<string, set<Socket>>,
                          clients: set<Socket>, history: seq<GatewayEvent>, client: Socket)
    requires Mirrors(routes, index, clients, history)
    requires Unrouted(routes, routes', client) && Pruned(index, index', client)
    ensures Mirrors(routes', index', clients - {client}, history + [Left(client)])
  {
    var e := Left(client);
    Extend(history, e);
    IndexAfterDisconnect(index, index', history, client);
    if OneDevicePerSocket(history + [e]) {
      OneDevicePrefix(history, e);
      SingleRoute(routes, history, client);
      assert forall d :: d in routes' ==> routes'[d] in routes'.Values;
      RoutesAfterDisconnect(routes, routes', history, client);
    }
  }

  /**
   The disconnect of another socket, however late and however many devices that
   socket held, leaves a device's route as the history and the map have it.
   */
  lemma OtherSocketLeaves(routes: map<string, Socket>, routes': map<string, Socket>, history: seq<GatewayEvent>,
                          d: string, s: Socket)
    requires Unrouted(routes, routes', s)
    requires RouteOf(history, d) == if d in routes then Some(routes[d]) else None
    requires RouteOf(history, d) != Some(s)
    ensures RouteOf(history + [Left(s)], d) == RouteOf(history, d)
    ensures RouteOf(history, d) == if d in routes' then Some(routes'[d]) else None
  {
    Extend(history, Left(s));
    var i := LatestConnect(history, d);
    assert i >= 0 ==> (history + [Left(s)])[i] == history[i];
  }

  /** A socket that announced two devices keeps a route after it left: one removal is not enough. */
  lemma TwoDevicesOneSocket(after: map<string, Socket>)
    requires Unrouted(map["a" := 7, "b" := 7], after, 7)
    ensures 7 in after.Values
  {
    var before: map<string, Socket> := map["a" := 7, "b" := 7];
    assert "a" in before && "b" in before && before["a"] == 7 && before["b"] == 7;
    assert "a"[0] != "b"[0];
    assert !HoldsAtMostOne(before, 7);
  }

  // ---- The registry ----

  class EventsGateway {
    var deviceSockets: map<string, Socket>
    var deviceOrder: seq<string>
    var meetingSockets: map<string, set<Socket>>
    var clients: set<Socket>
    var sent: multiset<Delivery>
    var calls: seq<Notice>
    ghost var history: seq<GatewayEvent>

    ghost predicate Valid()
      reads this
    {
      Mirrors(deviceSockets, meetingSockets, clients, history) && WalkOrder(deviceSockets, deviceOrder)
    }

    constructor ()
      ensures Valid() && history == [] && clients == {} && calls == [] && sent == multiset{}
    {
      deviceSockets, deviceOrder, meetingSockets, clients := map[], [], map[], {};
      sent, calls, history := multiset{}, [], [];
    }

    method HandleConnection(client: Socket)
      requires Valid()
      requires forall i :: 0 <= i < |history| ==> history[i].socket != client
      modifies this
      ensures Valid() && history == old(history) + [Joined(client)]
      ensures sent == old(sent) && calls == old(calls)
    {
      MirrorsConnection(deviceSockets, meetingSockets, clients, history, client);
      clients := clients + {client};
      history := history + [Joined(client)];
    }

    method HandleDeviceConnect(client: Socket, deviceId: string)
      requires Valid() && client in clients
      modifies this
      ensures Valid() && history == old(history) + [Registered(client, deviceId)]
      ensures deviceSockets == old(deviceSockets)[deviceId := client]
      ensures sent == old(sent) && calls == old(calls)
    {
      MirrorsDevice(deviceSockets, meetingSockets, clients, history, client, deviceId);
      WalkOrderMore(deviceSockets, deviceOrder, deviceId, client);
      if deviceId !in deviceSockets {
        deviceOrder := deviceOrder + [deviceId];
      }
      deviceSockets := deviceSockets[deviceId := client];
      history := history + [Registered(client, deviceId)];
    }

    method AddSubscription(client: Socket, meetingId: string)
      modifies this`meetingSockets
      ensures meetingSockets == With(old(meetingSockets), meetingId, client)
    {
      if meetingId !in meetingSockets {
        meetingSockets := meetingSockets[meetingId := {}];
      }
      meetingSockets := meetingSockets[meetingId := meetingSockets[meetingId] + {client}];
    }

    method HandleMeetingSubscribe(client: Socket, meetingId: string)
      requires Valid() && client in clients
      modifies this
      ensures Valid() && history == old(history) + [Subscribed(client, meetingId)]
      ensures deviceSockets == old(deviceSockets) && meetingSockets == With(old(meetingSockets), meetingId, client)
      ensures sent == old(sent) && calls == old(calls)
    {
      MirrorsSubscription(deviceSockets, meetingSockets, clients, history, client, meetingId);
      AddSubscription(client, meetingId);
      history := history + [Subscribed(client, meetingId)];
    }

    /** The first loop: the registration found first is removed and the loop stops. */
    method DropRegistration(client: Socket)
      requires WalkOrder(deviceSockets, deviceOrder)
      modifies this`deviceSockets, this`deviceOrder
      ensures WalkOrder(deviceSockets, deviceOrder) && Unrouted(old(deviceSockets), deviceSockets, client)
      ensures DropsFirst(old(deviceSockets), old(deviceOrder), deviceSockets, deviceOrder, client)
    {
      for i := 0 to |deviceOrder|
        invariant deviceSockets == old(deviceSockets) && deviceOrder == old(deviceOrder)
        invariant forall j :: 0 <= j < i ==> deviceSockets[deviceOrder[j]] != client
      {
        var deviceId := deviceOrder[i];
        if deviceSockets[deviceId] == client {
          WalkOrderLess(deviceSockets, deviceOrder, i);
          FirstDropped(deviceSockets, deviceOrder, client, i);
          deviceSockets := deviceSockets - {deviceId};
          deviceOrder := deviceOrder[..i] + deviceOrder[i + 1..];
          return;
        }
      }
      NoneDropped(deviceSockets, deviceOrder, client);
    }

    /** The second loop: entries are deleted from the map while it is walked. */
    method DropSubscriptions(client: Socket)
      modifies this`meetingSockets
      ensures Pruned(old(meetingSockets), meetingSockets, client)
    {
      var todo := meetingSockets.Keys;
      while todo != {}
        invariant todo <= meetingSockets.Keys <= old(meetingSockets).Keys
        invariant forall m :: m in todo ==> meetingSockets[m] == old(meetingSockets)[m]
        invariant forall m :: m in old(meetingSockets) && m !in todo ==>
          (m in meetingSockets <==> old(meetingSockets)[m] - {client} != {})
        invariant forall m :: m in meetingSockets && m !in todo ==>
          meetingSockets[m] == old(meetingSockets)[m] - {client}
        decreases todo
      {
        var meetingId :| meetingId in todo;
        todo := todo - {meetingId};
        meetingSockets := meetingSockets[meetingId := meetingSockets[meetingId] - {client}];
        if meetingSockets[meetingId] == {} {
          meetingSockets := meetingSockets - {meetingId};
        }
      }
    }

    /**
     With one device a socket, exactly the client's own routes go. Without it,
     the single removal suffices exactly when the client held at most one.
     */
    method HandleDisconnect(client: Socket)
      requires Valid()
      modifies this
      ensures Valid() && history == old(history) + [Left(client)]
      ensures Unrouted(old(deviceSockets), deviceSockets, client)
      ensures Pruned(old(meetingSockets), meetingSockets, client)
      ensures sent == old(sent) && calls == old(calls)
    {
      DropRegistration(client);
      DropSubscriptions(client);
      MirrorsDisconnect(old(deviceSockets), deviceSockets, old(meetingSockets), meetingSockets,
                        clients, history, client);
      clients := clients - {client};
      history := history + [Left(client)];
    }

    /** With one device a socket, the challenge goes to the socket the history names, or nowhere. */
    method EmitChallengeToDevice(deviceId: string, payload: Payload)
      requires Valid()
      modifies this`sent, this`calls
      ensures Valid()
      ensures OneDevicePerSocket(history) ==>
        match RouteOf(history, deviceId)
        case Some(s) => sent == old(sent) + multiset{Delivery(s, ChallengeIssue(payload))}
        case None => sent == old(sent)
      ensures calls == old(calls) + [ChallengeToDevice(deviceId, payload)]
      ensures sent == old(sent) +
        if deviceId in deviceSockets then multiset{Delivery(deviceSockets[deviceId], ChallengeIssue(payload))}
        else multiset{}
    {
      if deviceId in deviceSockets {
        sent := sent + multiset{Delivery(deviceSockets[deviceId], ChallengeIssue(payload))};
      }
      calls := calls + [ChallengeToDevice(deviceId, payload)];
    }

    method SendToAll(targets: set<Socket>, message: Message)
      modifies this`sent
      ensures forall x :: sent[x] == old(sent)[x] + if x.message == message && x.to in targets then 1 else 0
    {
      var todo := targets;
      while todo != {}
        invariant todo <= targets
        invariant forall x :: sent[x] == old(sent)[x] + if x.message == message && x.to in targets - todo then 1 else 0
        decreases todo
      {
        var socket :| socket in todo;
        todo := todo - {socket};
        sent := sent + multiset{Delivery(socket, message)};
      }
    }

    /** How many copies of one update a socket has been sent, in either form. */
    ghost function Copies(s: Socket, meetingId: string, participantId: string, status: TrustStatus): nat
      reads this`sent
    {
      sent[Delivery(s, StatusUpdate(None, participantId, status))]
        + sent[Delivery(s, StatusUpdate(Some(meetingId), participantId, status))]
    }

    /**
     First to the subscribers, then to every client with the meeting id added:
     a subscriber gets two copies, any other connected client one, nobody else any.
     */
    method EmitMeetingUpdate(meetingId: string, participantId: string, status: TrustStatus)
      requires Valid()
      modifies this`sent, this`calls
      ensures Valid()
      ensures calls == old(calls) + [MeetingUpdate(meetingId, participantId, status)]
      ensures forall x ::
        sent[x] == old(sent)[x]
          + (if x.message == StatusUpdate(None, participantId, status) && x.to in SubscribersOf(history, meetingId)
            then 1 else 0)
          + (if x.message == StatusUpdate(Some(meetingId), participantId, status) && x.to in Connected(history)
            then 1 else 0)
      ensures forall s: Socket ::
        Copies(s, meetingId, participantId, status) ==
          old(Copies(s, meetingId, participantId, status))
            + if s in SubscribersOf(history, meetingId) then 2 else if s in Connected(history) then 1 else 0
    {
      assert SubscribersOf(history, meetingId) == if meetingId in meetingSockets then meetingSockets[meetingId] else {};
      if meetingId in meetingSockets {
        SendToAll(meetingSockets[meetingId], StatusUpdate(None, participantId, status));
      }
      SendToAll(clients, StatusUpdate(Some(meetingId), participantId, status));
      calls := calls + [MeetingUpdate(meetingId, participantId, status)];
    }

    method IsDeviceConnected(deviceId: string) returns (b: bool)
      requires Valid()
      ensures OneDevicePerSocket(history) ==> (b <==> RouteOf(history, deviceId).Some?)
    {
      b := deviceId in deviceSockets;
    }
  }
}
