/** The gateway hears what the audit log says: two records of one story, in one order. */
module GatewayLog {
  import opened Prelude
  import opened Entities
  import opened MeetingService
  import opened ChallengeService
  import opened IssueLaws
  import opened Sequential

  /** What an audit event and a gateway call can both tell. */
  datatype Told =
    | ToldChallenge(challengedDevice: string, challengeId: string, participantId: string)
    | ToldStatus(meeting: Option<string>, participantId: string, status: TrustStatus)

  function FlatMap<T, U>(f: T -> seq<U>, xs: seq<T>): seq<U> {
    if xs == [] then [] else FlatMap(f, xs[..|xs| - 1]) + f(xs[|xs| - 1])
  }

  lemma FlatMapMore<T, U>(f: T -> seq<U>, xs: seq<T>, x: T)
    ensures FlatMap(f, xs + [x]) == FlatMap(f, xs) + f(x)
  {
    assert (xs + [x])[..|xs|] == xs;
  }

  lemma {:induction false} FlatMapConcat<T, U>(f: T -> seq<U>, a: seq<T>, b: seq<T>)
    ensures FlatMap(f, a + b) == FlatMap(f, a) + FlatMap(f, b)
    decreases |b|
  {
    if b == [] {
      assert a + b == a;
    } else {
      var front := b[..|b| - 1];
      FlatMapConcat(f, a, front);
      assert (a + b)[..|a + b| - 1] == a + front;
    }
  }

  function Spoken(n: Notice): seq<Told> {
    match n
    case ChallengeToDevice(d, payload) => [ToldChallenge(d, payload.challengeId, payload.participantId)]
    case MeetingUpdate(m, p, status) => [ToldStatus(Some(m), p, status)]
  }

  function Logged(e: AuditEvent): seq<Told> {
    match e.detail
    case ChallengeIssued(id, p, _, d) => [ToldChallenge(d, id, p)]
    case ChallengeNoDevice(p, _) => [ToldStatus(e.meetingId, p, Failed)]
    case ChallengeJudged(_, _, p, _, status, _, _) => [ToldStatus(e.meetingId, p, status)]
    case _ => []
  }

  predicate InStep(notices: seq<Notice>, log: seq<AuditEvent>) {
    FlatMap(Spoken, notices) == FlatMap(Logged, log)
  }

  lemma OneMore(notices: seq<Notice>, log: seq<AuditEvent>, n: Notice, e: AuditEvent)
    requires InStep(notices, log) && Spoken(n) == Logged(e)
    ensures InStep(notices + [n], log + [e])
  {
    FlatMapMore(Spoken, notices, n);
    FlatMapMore(Logged, log, e);
  }

  lemma Silent(notices: seq<Notice>, log: seq<AuditEvent>, e: AuditEvent)
    requires InStep(notices, log) && Logged(e) == []
    ensures InStep(notices, log + [e])
  {
    FlatMapMore(Logged, log, e);
  }

  lemma RowTold(r: Round, i: nat)
    requires Fits(r, i + 1)
    ensures Spoken(NoticeOf(r.meetingId, r.tenantId, r.rows[i], r.draws[i])) ==
      Logged(EventOf(r.meetingId, r.tenantId, r.rows[i], r.draws[i]))
  {
  }

  lemma TurnTold(r: Round, n: nat)
    requires 0 < n && Fits(r, n) && InStep(Notices(r, n - 1), Events(r, n - 1))
    ensures InStep(Notices(r, n), Events(r, n))
  {
    var notice := NoticeOf(r.meetingId, r.tenantId, r.rows[n - 1], r.draws[n - 1]);
    var event := EventOf(r.meetingId, r.tenantId, r.rows[n - 1], r.draws[n - 1]);
    RowTold(r, n - 1);
    OneMore(Notices(r, n - 1), Events(r, n - 1), notice, event);
    assert Notices(r, n) == Notices(r, n - 1) + [notice] && Events(r, n) == Events(r, n - 1) + [event];
  }

  /** The events and the gateway calls of a round tell the same. */
  lemma {:induction false} RoundTold(r: Round, n: nat)
    requires Fits(r, n)
    ensures InStep(Notices(r, n), Events(r, n))
  {
    if n > 0 {
      RoundTold(r, n - 1);
      TurnTold(r, n);
    }
  }

  lemma RoundInStep(h: Hub, r: Round, n: nat)
    requires InStep(h.notices, h.audit) && Fits(r, n)
    ensures var h' := IssueUpTo(h, r, n).0; InStep(h'.notices, h'.audit)
  {
    LogsOfLoop(h, r, n);
    FlatMapConcat(Logged, h.audit, Events(r, n));
    FlatMapConcat(Spoken, h.notices, Notices(r, n));
    RoundTold(r, n);
  }

  lemma JudgeInStep(h: Hub, q: Response, t: Readings)
    requires InStep(h.notices, h.audit)
    ensures var h' := Judge(h, q, t).0; InStep(h'.notices, h'.audit)
  {
    var (h', outcome) := Judge(h, q, t);
    if outcome.Verdict? {
      var c := h.challenges[q.challengeId].value;
      OneMore(h.notices, h.audit, MeetingUpdate(c.meetingId, c.participantId, outcome.status),
              JudgedEvent(q, c, h.devices[q.deviceId], outcome.status, outcome.valid));
    }
  }

  lemma BindInStep(h: Hub, q: BindRequest, got: nat, wrote: nat)
    requires InStep(h.notices, h.audit)
    ensures var h' := Bind(h, q, got, wrote).0; InStep(h'.notices, h'.audit)
  {
    var (h', outcome) := Bind(h, q, got, wrote);
    if outcome.Bound? {
      Silent(h.notices, h.audit,
             BindEvent(h.meetings[q.meetingId].tenantId, q, h.tokens[q.token].value, h.devices[q.deviceId]));
    }
  }

  lemma BriefInStep(s: Site, c: Call)
    requires Brief(c) && InStep(s.hub.notices, s.hub.audit)
    ensures InStep(BriefAfter(s, c).notices, BriefAfter(s, c).audit)
  {
    var h, h' := s.hub, BriefAfter(s, c);
    assert h'.notices == h.notices;
    if h'.audit != h.audit {
      assert h'.audit == h.audit + [h'.audit[|h.audit|]];
      Silent(h.notices, h.audit, h'.audit[|h.audit|]);
    }
  }

  lemma InStepStep(s: Site, c: Call)
    requires Enabled(s, c) && InStep(s.hub.notices, s.hub.audit)
    ensures InStep(HubAfter(s, c).notices, HubAfter(s, c).audit)
  {
    if Brief(c) {
      BriefInStep(s, c);
    } else if c.DoIssue? {
      RoundInStep(s.hub, c.round, |c.round.rows|);
    } else if c.DoVerify? {
      JudgeInStep(s.hub, c.response, c.readings);
    } else if c.DoBind? {
      BindInStep(s.hub, c.bind, s.now, c.wrote);
    }
  }

  /**
   In every reachable state the gateway has been told exactly the challenges and
   verdicts in the log, in its order.
   */
  lemma {:induction false} GatewayHearsLog(r: Run, i: nat)
    requires Valid(r) && i < |r.sites|
    ensures FlatMap(Spoken, r.sites[i].hub.notices) == FlatMap(Logged, r.sites[i].hub.audit)
  {
    if i > 0 {
      GatewayHearsLog(r, i - 1);
      StepBack(r, i);
      InStepStep(r.sites[i - 1], r.calls[i - 1]);
    }
  }
}
