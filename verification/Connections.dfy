/** What the agents' clients guarantee to the hub's gateway and to its heartbeat rule. */
module Connections {
  import opened Prelude
  import opened Entities
  import opened Policy
  import opened EventsGateway
  import opened Heartbeats
  import opened WebSocketService
  import Hub = Interleaved

  function Now(r: LinkRun): Link
    requires |r.links| > 0
  {
    r.links[|r.links| - 1]
  }

  // ---- Routing ----

  /** Clients of any number of agents, on connections of their own. */
  ghost predicate Clients(agents: map<nat, LinkRun>) {
    && (forall a :: a in agents ==> ValidLink(agents[a]))
    && (forall a, b :: a in agents && b in agents && a != b ==> Now(agents[a]).used !! Now(agents[b]).used)
  }

  /** Agent `a` has announced device `d` on connection `s`. */
  ghost predicate Announced(agents: map<nat, LinkRun>, a: nat, s: Socket, d: string)
    requires Clients(agents)
  {
    a in agents && exists e :: e in Now(agents[a]).outbox && e.socket == s && e.message == DeviceConnect(Some(d))
  }

  /** Every device registered at the gateway was announced by one of them. */
  ghost predicate FromAgents(history: seq<GatewayEvent>, agents: map<nat, LinkRun>)
    requires Clients(agents)
  {
    forall i :: 0 <= i < |history| && history[i].Registered? ==>
      exists a :: Announced(agents, a, history[i].socket, history[i].deviceId)
  }

  lemma AnnouncedOnce(agents: map<nat, LinkRun>, a: nat, b: nat, s: Socket, d: string, e: string)
    requires Clients(agents) && Announced(agents, a, s, d) && Announced(agents, b, s, e)
    ensures d == e
  {
    var x :| x in Now(agents[a]).outbox && x.socket == s && x.message == DeviceConnect(Some(d));
    var y :| y in Now(agents[b]).outbox && y.socket == s && y.message == DeviceConnect(Some(e));
    AnnouncesOne(agents[a], |agents[a].links| - 1, x);
    AnnouncesOne(agents[b], |agents[b].links| - 1, y);
  }

  /** So no socket registers two devices. */
  lemma AgentsKeepToOne(history: seq<GatewayEvent>, agents: map<nat, LinkRun>)
    requires Clients(agents) && FromAgents(history, agents)
    ensures OneDevicePerSocket(history)
  {
    forall i, j | 0 <= i < |history| && 0 <= j < |history| && history[i].Registered? && history[j].Registered?
                  && history[i].socket == history[j].socket
      ensures history[i].deviceId == history[j].deviceId
    {
      var a :| Announced(agents, a, history[i].socket, history[i].deviceId);
      var b :| Announced(agents, b, history[j].socket, history[j].deviceId);
      AnnouncedOnce(agents, a, b, history[i].socket, history[i].deviceId, history[j].deviceId);
    }
  }

  /** And every route of the gateway is the device's latest connection, if that is still there. */
  lemma AgentsAreRouted(routes: map<string, Socket>, index: map<string, set<Socket>>, clients: set<Socket>,
                        history: seq<GatewayEvent>, agents: map<nat, LinkRun>, d: string)
    requires Mirrors(routes, index, clients, history) && Clients(agents) && FromAgents(history, agents)
    ensures RouteOf(history, d) == if d in routes then Some(routes[d]) else None
    ensures d in routes ==> exists a :: Announced(agents, a, routes[d], d)
  {
    AgentsKeepToOne(history, agents);
    assert RouteOf(history, d) == if d in routes then Some(routes[d]) else None;
    if d in routes {
      var i := LatestConnect(history, d);
      assert history[i].Registered? && history[i].socket == routes[d];
    }
  }

  // ---- Heartbeats ----

  /**
   The `i`-th heartbeat on the open connection arrives at `arrival(i)`, if it
   arrives, at most `delay` after it left.
   */
  ghost predicate Delivered(l: Link, arrival: nat -> Option<nat>, delay: nat)
    requires l.socket.Some?
  {
    var sent := BeatTimes(l.outbox, l.socket.value);
    forall i: nat :: arrival(i).Some? ==> i < |sent| && sent[i] <= arrival(i).value <= sent[i] + delay
  }

  /** Of the heartbeats sent on it never more than `k` in a row are lost. */
  ghost predicate MostDelivered(l: Link, arrival: nat -> Option<nat>, k: nat)
    requires l.socket.Some?
  {
    forall i: nat :: i + k < |BeatTimes(l.outbox, l.socket.value)| ==> ArrivesWithin(arrival, i, k)
  }

  /** What the timer's schedule makes of that: the two hypotheses of the heartbeat rule. */
  lemma ScheduleDischarges(c: LinkRun, arrival: nat -> Option<nat>, k: nat, delay: nat)
    requires ValidLink(c) && Now(c).socket.Some? && Now(c).timer.Some? && Now(c).now < Due(Now(c).timer.value)
    requires Delivered(Now(c), arrival, delay) && MostDelivered(Now(c), arrival, k)
    ensures Timely(Now(c).timer.value.start, arrival, delay)
    ensures FewLossesBy(Now(c).timer.value.start, arrival, k, delay, Now(c).now)
  {
    var l := Now(c);
    var start, sent := l.timer.value.start, BeatTimes(l.outbox, l.socket.value);
    BeatsOnTime(c, |c.links| - 1);
    forall i: nat | BeatAt(start, i + k) + delay <= l.now
      ensures ArrivesWithin(arrival, i, k)
    {
      AllSent(c);
      assert i + k < |sent|;
    }
  }

  /** With nothing left for the timer to do, as many heartbeats have left as it has fired. */
  lemma AllSent(c: LinkRun)
    requires ValidLink(c) && Now(c).socket.Some?
    ensures Now(c).timer.Some? && |BeatTimes(Now(c).outbox, Now(c).socket.value)| == Now(c).timer.value.fired
  {
    var l := Now(c);
    AlwaysWired(c, |c.links| - 1);
    BeatsOfTalk(l.outbox, l.socket.value);
    BeatsOfSession(l.deviceId, l.socket.value, l.timer.value.start, l.timer.value.fired);
  }

  /**
   End to end, from the agent's timer to the hub's verdict: if up to the moment a
   call reads its device's row the agent's client has been connected, at most `k`
   of its heartbeats lost in a row and the others at most `delay` under way, and
   one of them has arrived, the call does not judge the device STALE, provided the
   gap between reading and judging fits as well.
   */
  lemma ConnectedAgentNeverStale(a: LinkRun, r: Hub.Run, g: nat, i: nat, call: nat, c: Challenge, device: Device,
                                 status: TrustStatus, arrival: nat -> Option<nat>, k: nat, delay: nat, gap: nat, n: nat)
    requires ValidLink(a) && Now(a).deviceId == Some(c.deviceId)
    requires Now(a).socket.Some? && Now(a).timer.Some? && Now(a).now < Due(Now(a).timer.value)
    requires Delivered(Now(a), arrival, delay) && MostDelivered(Now(a), arrival, k)
    requires Observed(r, g, i, call, c, device, status, gap) && r.worlds[g].now == Now(a).now
    requires Carries(r, g, c.deviceId, arrival) && Arrived(arrival, n, Now(a).now)
    requires PERIOD_MS * (k + 1) + delay + gap <= HEARTBEAT_STALE_MS + 1
    ensures status != Stale
  {
    ScheduleDischarges(a, arrival, k, delay);
    ConnectedNeverStale(r, g, i, call, c, device, status, Now(a).timer.value.start, arrival, k, delay, gap, n);
  }
}
