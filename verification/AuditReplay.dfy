/** The audit log alone tells every participant's status and device. */
module AuditReplay {
  import opened Prelude
  import opened Crypto
  import opened Entities
  import opened DeviceService
  import opened MeetingService
  import opened ChallengeService
  import opened HubLaws
  import opened Sequential
  import opened OneTime

  /** What the log lets a reader say of one participant. */
  datatype Seen = Seen(trust: TrustStatus, deviceId: Option<string>)

  /** What one write does to a participant's row, and one audit event to a reader's picture of it. */
  datatype Effect = Enters | Marks(status: TrustStatus) | Binds(deviceId: string)

  function Apply(seen: Option<Seen>, e: Effect): Option<Seen> {
    match e
    case Enters => Some(Seen(Unknown, None))
    case Marks(status) => Some(Seen(status, if seen.Some? then seen.value.deviceId else None))
    case Binds(d) => Some(Seen(Verified, Some(d)))
  }

  function ApplyAll(seen: Option<Seen>, story: seq<Effect>): Option<Seen> {
    if story == [] then seen else Apply(ApplyAll(seen, story[..|story| - 1]), story[|story| - 1])
  }

  lemma ApplyOne(seen: Option<Seen>, e: Effect)
    ensures ApplyAll(seen, [e]) == Apply(seen, e)
  {
    assert [e][..0] == [];
  }

  /** What one audit event tells about participant `p`. */
  function EventEffect(d: Detail, p: string): seq<Effect> {
    match d
    case ParticipantJoined(_, id) => if id == p then [Enters] else []
    case DeviceBound(id, device, _) => if id == p then [Binds(device)] else []
    case ChallengeNoDevice(id, _) => if id == p then [Marks(Failed)] else []
    case ChallengeJudged(_, _, id, _, status, _, _) => if id == p then [Marks(status)] else []
    case _ => []
  }

  /** What a log tells about participant `p`, event by event. */
  function EffectsOf(log: seq<AuditEvent>, p: string): seq<Effect> {
    if log == [] then [] else EffectsOf(log[..|log| - 1], p) + EventEffect(log[|log| - 1].detail, p)
  }

  /** What a replay of the log shows of participant `p` in the end. */
  function Replayed(log: seq<AuditEvent>, p: string): Option<Seen> {
    ApplyAll(None, EffectsOf(log, p))
  }

  /** What the participant table shows. */
  function Shown(h: Hub, p: string): Option<Seen> {
    if p in h.participants then Some(Seen(h.participants[p].trust, h.participants[p].deviceId)) else None
  }

  ghost predicate Faithful(h: Hub) {
    forall p: string :: Replayed(h.audit, p) == Shown(h, p)
  }

  lemma {:induction false} ApplyMore(seen: Option<Seen>, a: seq<Effect>, b: seq<Effect>)
    ensures ApplyAll(seen, a + b) == ApplyAll(ApplyAll(seen, a), b)
    decreases |b|
  {
    if b == [] {
      assert a + b == a;
    } else {
      ApplyMore(seen, a, b[..|b| - 1]);
      assert (a + b)[..|a + b| - 1] == a + b[..|b| - 1];
    }
  }

  lemma EffectsMore(log: seq<AuditEvent>, e: AuditEvent, p: string)
    ensures EffectsOf(log + [e], p) == EffectsOf(log, p) + EventEffect(e.detail, p)
  {
    assert (log + [e])[..|log|] == log;
  }

  lemma ReplayedMore(log: seq<AuditEvent>, e: AuditEvent, p: string)
    ensures Replayed(log + [e], p) == ApplyAll(Replayed(log, p), EventEffect(e.detail, p))
  {
    EffectsMore(log, e, p);
    ApplyMore(None, EffectsOf(log, p), EventEffect(e.detail, p));
  }

  // ---- Handlers ----

  /** The event appended and the change of the table have the same effect on everybody. */
  lemma SameEffect(h: Hub, h': Hub, e: AuditEvent)
    requires Faithful(h) && h'.audit == h.audit + [e]
    requires forall p: string :: Shown(h', p) == ApplyAll(Shown(h, p), EventEffect(e.detail, p))
    ensures Faithful(h')
  {
    forall p: string
      ensures Replayed(h'.audit, p) == Shown(h', p)
    {
      ReplayedMore(h.audit, e, p);
    }
  }

  /** An event that is not about a participant. */
  predicate Silent(d: Detail) {
    d.MeetingCreated? || d.DeviceEnrolled? || d.DeviceReEnrolled? || d.ChallengeIssued?
  }

  lemma SilentReplay(h: Hub, h': Hub)
    requires Faithful(h) && h'.participants == h.participants
    requires h'.audit == h.audit || (exists e :: h'.audit == h.audit + [e] && Silent(e.detail))
    ensures Faithful(h')
  {
    if h'.audit == h.audit {
      assert forall p: string :: Replayed(h'.audit, p) == Replayed(h.audit, p) == Shown(h, p) == Shown(h', p);
    } else {
      var e :| h'.audit == h.audit + [e] && Silent(e.detail);
      assert forall p: string :: Shown(h', p) == Shown(h, p);
      SameEffect(h, h', e);
    }
  }

  /** One row is set and the event says how. */
  lemma OneRowReplay(h: Hub, h': Hub, e: AuditEvent, id: string, effect: Effect)
    requires Faithful(h) && h'.audit == h.audit + [e]
    requires forall p: string :: EventEffect(e.detail, p) == if p == id then [effect] else []
    requires id in h'.participants && h'.participants == h.participants[id := h'.participants[id]]
    requires Shown(h', id) == Apply(Shown(h, id), effect)
    ensures Faithful(h')
  {
    forall p: string
      ensures Shown(h', p) == ApplyAll(Shown(h, p), EventEffect(e.detail, p))
    {
      ApplyOne(Shown(h, p), effect);
    }
    SameEffect(h, h', e);
  }

  lemma JoinReplay(h: Hub, id: string, meetingId: string, userId: string, displayName: string)
    requires Faithful(h)
    ensures Faithful(AddParticipant(h, id, meetingId, userId, displayName).0)
  {
    if meetingId in h.meetings {
      var h' := AddParticipant(h, id, meetingId, userId, displayName).0;
      OneRowReplay(h, h', h'.audit[|h.audit|], id, Enters);
    }
  }

  lemma BriefReplay(s: Site, c: Call)
    requires Faithful(s.hub) && Brief(c)
    ensures Faithful(BriefAfter(s, c))
  {
    if c.DoJoin? {
      JoinReplay(s.hub, c.participantId, c.meetingId, c.userId, c.displayName);
    } else {
      SilentReplay(s.hub, BriefAfter(s, c));
    }
  }

  lemma TurnReplay(h: Hub, meetingId: string, tenantId: string, row: Row, draw: Draw)
    requires Faithful(h) && row.id in h.participants
    ensures var h' := IssueOne(h, meetingId, tenantId, row, draw).0;
      Faithful(h') && h'.participants.Keys == h.participants.Keys
  {
    var h' := IssueOne(h, meetingId, tenantId, row, draw).0;
    if Challengeable(row) {
      var e := IssuedEvent(ChallengeFor(meetingId, tenantId, row, draw), row.participant.displayName);
      assert h'.audit == h.audit + [e] && Silent(e.detail);
      SilentReplay(h, h');
    } else {
      OneRowReplay(h, h', NoDeviceEvent(meetingId, tenantId, row), row.id, Marks(Failed));
    }
  }

  lemma {:induction false} RoundReplay(h: Hub, r: Round, n: nat)
    requires Faithful(h) && Known(h, r.rows) && Fits(r, n)
    ensures var h' := IssueUpTo(h, r, n).0; Faithful(h') && h'.participants.Keys == h.participants.Keys
  {
    if n > 0 {
      RoundReplay(h, r, n - 1);
      TurnReplay(IssueUpTo(h, r, n - 1).0, r.meetingId, r.tenantId, r.rows[n - 1], r.draws[n - 1]);
    }
  }

  lemma JudgeReplay(h: Hub, q: Response, t: Readings)
    requires Faithful(h) && !Judge(h, q, t).1.ParticipantMissing?
    ensures Faithful(Judge(h, q, t).0)
  {
    var (h', outcome) := Judge(h, q, t);
    if outcome.Verdict? {
      var c := h.challenges[q.challengeId].value;
      var e := JudgedEvent(q, c, h.devices[q.deviceId], outcome.status, outcome.valid);
      OneRowReplay(h, h', e, c.participantId, Marks(outcome.status));
    } else {
      assert h' == h;
    }
  }

  /** What an accepted binding makes of the participant table. */
  lemma AcceptedShown(h: Hub, q: BindRequest, got: nat, wrote: nat)
    requires Accepted(h, q, got) && h.tokens[q.token].value.participantId in h.participants
    ensures var p := h.tokens[q.token].value.participantId; var h' := Bind(h, q, got, wrote).0;
      && h'.participants == h.participants[p := BoundRow(h.participants[p], q.deviceId, wrote)]
      && Shown(h', p) == Some(Seen(Verified, Some(q.deviceId)))
  {
  }

  lemma AcceptedReplay(h: Hub, q: BindRequest, got: nat, wrote: nat)
    requires Faithful(h) && Accepted(h, q, got) && h.tokens[q.token].value.participantId in h.participants
    requires q.meetingId in h.meetings
    ensures Faithful(Bind(h, q, got, wrote).0)
  {
    var h' := Bind(h, q, got, wrote).0;
    var held, device := h.tokens[q.token].value, h.devices[q.deviceId];
    AcceptedShown(h, q, got, wrote);
    var e := BindEvent(h.meetings[q.meetingId].tenantId, q, held, device);
    assert h'.audit == h.audit + [e];
    OneRowReplay(h, h', e, held.participantId, Binds(q.deviceId));
  }

  /** A binding whose meeting is missing changes the table alone. */
  lemma UnloggedReplay(h: Hub, q: BindRequest, got: nat, wrote: nat)
    requires Faithful(h) && Accepted(h, q, got) && h.tokens[q.token].value.participantId in h.participants
    requires q.meetingId !in h.meetings
    ensures Faithful(Bind(h, q, got, wrote).0) <==> AlreadyShows(h, h.tokens[q.token].value.participantId, q.deviceId)
  {
    var h', p := Bind(h, q, got, wrote).0, h.tokens[q.token].value.participantId;
    AcceptedShown(h, q, got, wrote);
    assert h'.audit == h.audit;
    assert Replayed(h'.audit, p) == Shown(h, p);
    if AlreadyShows(h, p, q.deviceId) {
      forall id: string
        ensures Replayed(h'.audit, id) == Shown(h', id)
      {
        assert Replayed(h.audit, id) == Shown(h, id);
      }
    }
  }

  /** What the row a token points at would have to show already for a lost audit event not to matter. */
  predicate AlreadyShows(h: Hub, p: string, deviceId: string) {
    p in h.participants && h.participants[p].trust == Verified && h.participants[p].deviceId == Some(deviceId)
  }

  /**
   A binding keeps the log faithful exactly when it is rejected, or its meeting
   exists, or the row already shows what the binding writes: with a meeting that
   does not exist the handler throws after the row is written.
   */
  lemma BindReplay(h: Hub, q: BindRequest, got: nat, wrote: nat)
    requires Faithful(h) && TokensOk(h)
    ensures Faithful(Bind(h, q, got, wrote).0) <==>
      (Accepted(h, q, got) && q.meetingId !in h.meetings ==>
        AlreadyShows(h, h.tokens[q.token].value.participantId, q.deviceId))
  {
    if !Accepted(h, q, got) {
      RejectedBindIsInert(h, q, got, wrote);
    } else if q.meetingId in h.meetings {
      AcceptedReplay(h, q, got, wrote);
    } else {
      UnloggedReplay(h, q, got, wrote);
    }
  }

  // One such case, call by call: a token for meeting "x", which does not exist.

  const BEFORE: Hub := Hub({"T"}, map[], map[], map[], map[], map[], [], [])
  const MET: Hub := CreateMeeting(BEFORE, "m", "T", "").0
  const JOINED: Hub := AddParticipant(MET, "p", "m", "u", "").0
  const ENROLLED: Hub := Enroll(JOINED, EnrollDto("T", "d", "u", "", Pub(1), None, None), 0).0
  const TICKETED: Hub := IssueJoinToken(ENROLLED, "t", "x", "p", 0, 0).0
  const LOST: BindRequest := BindRequest("x", "t", "d", Sig(1, BindingMaterial("t", "x", "p", "d", 30_000)))

  lemma TicketedRows()
    ensures TICKETED.meetings.Keys == {"m"}
    ensures TICKETED.participants.Keys == {"p"} && TICKETED.participants["p"].trust == Unknown
    ensures TICKETED.devices.Keys == {"d"} && TICKETED.devices["d"].publicKey == Pub(1)
    ensures TICKETED.tokens.Keys == {"t"}
    ensures TICKETED.tokens["t"] == Expiring(JoinToken("x", "p", 30_000), Some(30_000))
  {
    assert "m" in MET.meetings;
  }

  lemma TicketedFaithful()
    ensures Faithful(TICKETED)
  {
    assert Faithful(BEFORE);
    SilentReplay(BEFORE, MET);
    JoinReplay(MET, "p", "m", "u", "");
    SilentReplay(JOINED, ENROLLED);
    SilentReplay(ENROLLED, TICKETED);
  }

  /** The binding goes through, and the log no longer says what the table says. */
  lemma LostBinding()
    ensures Faithful(TICKETED) && !Faithful(Bind(TICKETED, LOST, 0, 0).0)
  {
    TicketedRows();
    TicketedFaithful();
    assert "x"[0] != "m"[0];
    assert Accepted(TICKETED, LOST, 0);
    BindReplay(TICKETED, LOST, 0, 0);
  }

  // ---- Runs ----

  /** Every token issued in the run names a meeting that exists when it is issued. */
  ghost predicate TokensNameMeetings(r: Run)
    requires Valid(r)
  {
    forall i :: 0 <= i < |r.calls| && r.calls[i].DoIssueToken? ==> r.calls[i].tokenMeeting in r.sites[i].hub.meetings
  }

  ghost predicate TokenMeetingsExist(h: Hub) {
    forall t :: t in h.tokens ==> h.tokens[t].value.meetingId in h.meetings
  }

  lemma TokenMeetingsStep(s: Site, c: Call)
    requires Inv(s) && Enabled(s, c) && TokenMeetingsExist(s.hub)
    requires c.DoIssueToken? ==> c.tokenMeeting in s.hub.meetings
    ensures TokenMeetingsExist(HubAfter(s, c))
  {
    HubStep(s, c);
    forall t | t in HubAfter(s, c).tokens
      ensures HubAfter(s, c).tokens[t].value.meetingId in HubAfter(s, c).meetings
    {
      TokensStep(s, c, t);
    }
  }

  lemma FaithfulStep(s: Site, c: Call)
    requires Inv(s) && Enabled(s, c) && TokenMeetingsExist(s.hub) && Faithful(s.hub)
    ensures Faithful(HubAfter(s, c))
  {
    if Brief(c) {
      BriefReplay(s, c);
    } else if c.DoBind? {
      BindReplay(s.hub, c.bind, s.now, c.wrote);
    } else if c.DoIssue? {
      RoundReplay(s.hub, c.round, |c.round.rows|);
    } else if c.DoVerify? {
      JudgeKeeps(s.hub, c.response, c.readings);
      JudgeReplay(s.hub, c.response, c.readings);
    }
  }

  /** In every reachable state, replaying the log gives every participant's status and device. */
  lemma {:induction false} LogTellsAll(r: Run, i: nat)
    requires Valid(r) && TokensNameMeetings(r) && i < |r.sites|
    ensures TokenMeetingsExist(r.sites[i].hub)
    ensures forall p: string :: Replayed(r.sites[i].hub.audit, p) == Shown(r.sites[i].hub, p)
  {
    if i > 0 {
      LogTellsAll(r, i - 1);
      StepBack(r, i);
      TokenMeetingsStep(r.sites[i - 1], r.calls[i - 1]);
      FaithfulStep(r.sites[i - 1], r.calls[i - 1]);
    }
  }
}
