/** Issuing challenges to a meeting and judging the responses. */
module ChallengeService {
  import opened Prelude
  import opened Framing
  import opened Crypto
  import opened Entities
  import opened Storage
  import opened Policy
  import opened EventsGateway
  import opened DeviceService

  const CHALLENGE_TTL_SECONDS: nat := 15
  const CHALLENGE_LIFE_MS: nat := 10_000
  const GRACE_MS: nat := 5_000

  // ---- Issuing ----

  /** A participant as `findMany` returns it, with the bound device joined in. */
  datatype Row = Row(id: string, participant: Participant, deviceFound: bool)

  /** The random values and clock readings of one turn of the loop. */
  datatype Draw = Draw(id: string, nonce: string, issuedAt: nat, expiryBase: nat, now: nat)

  datatype IssueResult =
    | Rejected(participantId: string, displayName: string)
    | Sent(participantId: string, displayName: string, challengeId: string)

  /** `participant.deviceId && participant.device`: the empty id is falsy. */
  predicate Challengeable(row: Row) {
    row.participant.deviceId.Some? && row.participant.deviceId.value != "" && row.deviceFound
  }

  function PayloadOf(c: Challenge): Payload {
    Payload(c.id, c.nonce, c.meetingId, c.participantId, TimeText(c.issuedAt), TimeText(c.expiresAt))
  }

  function ChallengeFor(meetingId: string, tenantId: string, row: Row, draw: Draw): Challenge
    requires Challengeable(row)
  {
    Challenge(draw.id, draw.nonce, meetingId, row.id, draw.issuedAt, draw.expiryBase + CHALLENGE_LIFE_MS,
              tenantId, row.participant.deviceId.value, row.participant.userId)
  }

  function FailedRow(p: Participant, now: nat): Participant {
    p.(trust := Failed, lastChallengeAt := Some(now))
  }

  /** The update of one row by id; rows are never deleted, so a listed one is always there. */
  function FailIn(table: map<string, Participant>, id: string, now: nat): map<string, Participant> {
    if id in table then table[id := FailedRow(table[id], now)] else table
  }

  function NoDeviceEvent(meetingId: string, tenantId: string, row: Row): AuditEvent {
    AuditEvent(tenantId, Some(meetingId), row.participant.userId,
      ChallengeNoDevice(row.id, row.participant.displayName))
  }

  function IssuedEvent(c: Challenge, displayName: string): AuditEvent {
    AuditEvent(c.tenantId, Some(c.meetingId), "system", ChallengeIssued(c.id, c.participantId, displayName, c.deviceId))
  }

  /** One turn of the loop. */
  function IssueOne(h: Hub, meetingId: string, tenantId: string, row: Row, draw: Draw): (Hub, IssueResult) {
    if !Challengeable(row) then
      (h.(participants := FailIn(h.participants, row.id, draw.now),
          audit := h.audit + [NoDeviceEvent(meetingId, tenantId, row)],
          notices := h.notices + [MeetingUpdate(meetingId, row.id, Failed)]),
       Rejected(row.id, row.participant.displayName))
    else
      var c := ChallengeFor(meetingId, tenantId, row, draw);
      (h.(challenges := Put(h.challenges, draw.id, c, CHALLENGE_TTL_SECONDS, draw.now),
          audit := h.audit + [IssuedEvent(c, row.participant.displayName)],
          notices := h.notices + [ChallengeToDevice(c.deviceId, PayloadOf(c))]),
       Sent(row.id, row.participant.displayName, draw.id))
  }

  // ---- A turn, one await at a time ----

  /** Where a turn stands: before its first write, or between that write and its audit event. */
  datatype IssuePc = AtRow | Failing | Announcing(c: Challenge)

  /** The first half: the row turns FAILED, or the challenge is stored. */
  function IssueStart(h: Hub, meetingId: string, tenantId: string, row: Row, draw: Draw): (Hub, IssuePc) {
    if !Challengeable(row) then (h.(participants := FailIn(h.participants, row.id, draw.now)), Failing)
    else
      var c := ChallengeFor(meetingId, tenantId, row, draw);
      (h.(challenges := Put(h.challenges, draw.id, c, CHALLENGE_TTL_SECONDS, draw.now)), Announcing(c))
  }

  /** The second half: the audit event and the gateway call. */
  function IssueFinish(h: Hub, meetingId: string, tenantId: string, row: Row, pc: IssuePc): Hub
    requires !pc.AtRow?
  {
    match pc
    case Failing =>
      h.(audit := h.audit + [NoDeviceEvent(meetingId, tenantId, row)],
         notices := h.notices + [MeetingUpdate(meetingId, row.id, Failed)])
    case Announcing(c) =>
      h.(audit := h.audit + [IssuedEvent(c, row.participant.displayName)],
         notices := h.notices + [ChallengeToDevice(c.deviceId, PayloadOf(c))])
  }

  /** The two halves, undisturbed, are one turn. */
  lemma IssueStepsCompose(h: Hub, meetingId: string, tenantId: string, row: Row, draw: Draw)
    ensures var (h1, pc) := IssueStart(h, meetingId, tenantId, row, draw);
      !pc.AtRow? && IssueFinish(h1, meetingId, tenantId, row, pc) == IssueOne(h, meetingId, tenantId, row, draw).0
  {
  }

  /** One call of the loop: the participant query's answer, and what each turn draws. */
  datatype Round = Round(meetingId: string, tenantId: string, rows: seq<Row>, draws: seq<Draw>)

  predicate Fits(r: Round, n: nat) {
    n <= |r.rows| && n <= |r.draws|
  }

  /** The first `n` turns of the loop. */
  function IssueUpTo(h: Hub, r: Round, n: nat): (Hub, seq<IssueResult>)
    requires Fits(r, n)
  {
    if n == 0 then (h, [])
    else
      var before := IssueUpTo(h, r, n - 1);
      var turn := IssueOne(before.0, r.meetingId, r.tenantId, r.rows[n - 1], r.draws[n - 1]);
      (turn.0, before.1 + [turn.1])
  }

  predicate Known(h: Hub, rows: seq<Row>) {
    forall i :: 0 <= i < |rows| ==> rows[i].id in h.participants
  }

  /** Rows that are a faithful answer to `findMany({ where: { meetingId } })`. */
  ghost predicate Listing(h: Hub, meetingId: string, rows: seq<Row>) {
    && (forall i, j :: 0 <= i < j < |rows| ==> rows[i].id != rows[j].id)
    && (forall i :: 0 <= i < |rows| ==>
          && rows[i].id in h.participants
          && rows[i].participant == h.participants[rows[i].id]
          && rows[i].participant.meetingId == meetingId
          && (rows[i].deviceFound <==>
                rows[i].participant.deviceId.Some? && rows[i].participant.deviceId.value in h.devices))
    && (forall p :: p in h.participants && h.participants[p].meetingId == meetingId ==>
          exists i :: 0 <= i < |rows| && rows[i].id == p)
  }

  // ---- Verifying, one await at a time ----

  datatype VerifyOutcome =
    | NotFound
    | DeviceMismatch
    | DeviceMissing
    | ParticipantMissing
    | Verdict(status: TrustStatus, valid: bool)

  datatype Response = Response(challengeId: string, deviceId: string, signature: Signature)

  /** Where a `verifyResponse` call stands between two awaits. */
  datatype VerifyPc =
    | Fetched(held: Challenge)
    | Checked(held: Challenge, expired: bool)
    | Loaded(held: Challenge, expired: bool, device: Device)
    | Removed(held: Challenge, expired: bool, device: Device)
    | Judged(held: Challenge, device: Device, valid: bool, status: TrustStatus, at: nat)
    | Updated(held: Challenge, device: Device, valid: bool, status: TrustStatus)
    | Finished(outcome: VerifyOutcome)

  /** The hub's half of the signing string. */
  function ChallengeLines(c: Challenge): seq<string> {
    ["troofai-v1", c.id, c.tenantId, c.deviceId, c.userId, c.meetingId, c.participantId, c.nonce,
     TimeText(c.issuedAt), TimeText(c.expiresAt)]
  }

  function ChallengeMaterial(c: Challenge): string {
    Join(ChallengeLines(c))
  }

  predicate SignedBy(c: Challenge, device: Device, signature: Signature) {
    Verify(device.publicKey, ChallengeMaterial(c), signature)
  }

  /** The status the policy engine gives, with the constant binding flag of the source. */
  function StatusOf(c: Challenge, expired: bool, device: Device, signature: Signature, now: nat): TrustStatus {
    Evaluate(InputFor(device, SignedBy(c, device, signature), expired, true), now)
  }

  function JudgedRow(p: Participant, status: TrustStatus, at: nat): Participant {
    p.(trust := status, lastChallengeAt := Some(at))
  }

  /** Challenge and device are named as the response names them. */
  function JudgedEvent(q: Response, c: Challenge, device: Device, status: TrustStatus, valid: bool): AuditEvent {
    AuditEvent(c.tenantId, Some(c.meetingId), c.userId,
               ChallengeJudged(status == Verified, q.challengeId, c.participantId, q.deviceId, status,
                               device.hardwareBound, valid))
  }

  function VerifyStart(h: Hub, q: Response, now: nat): VerifyPc {
    match Lookup(h.challenges, q.challengeId, now)
    case None => Finished(NotFound)
    case Some(c) => Fetched(c)
  }

  function VerifyNext(h: Hub, q: Response, pc: VerifyPc, now: nat): (Hub, VerifyPc)
    requires !pc.Finished?
  {
    match pc
    case Fetched(c) =>
      (h, if c.deviceId != q.deviceId then Finished(DeviceMismatch) else Checked(c, now > c.expiresAt))
    case Checked(c, expired) =>
      (h, if q.deviceId in h.devices then Loaded(c, expired, h.devices[q.deviceId]) else Finished(DeviceMissing))
    case Loaded(c, expired, device) =>
      (h.(challenges := Drop(h.challenges, q.challengeId)), Removed(c, expired, device))
    case Removed(c, expired, device) =>
      (h, Judged(c, device, SignedBy(c, device, q.signature), StatusOf(c, expired, device, q.signature, now), now))
    case Judged(c, device, valid, status, at) =>
      if c.participantId !in h.participants then (h, Finished(ParticipantMissing))
      else
        var row := JudgedRow(h.participants[c.participantId], status, at);
        (h.(participants := h.participants[c.participantId := row]), Updated(c, device, valid, status))
    case Updated(c, device, valid, status) =>
      (h.(audit := h.audit + [JudgedEvent(q, c, device, status, valid)],
          notices := h.notices + [MeetingUpdate(c.meetingId, c.participantId, status)]),
       Finished(Verdict(status, valid)))
  }

  /** The three clock readings of an undisturbed call, in the order they are taken. */
  datatype Readings = Readings(got: nat, checked: nat, judged: nat)

  /** The same call when nothing else runs between its awaits. */
  function Judge(h: Hub, q: Response, t: Readings): (Hub, VerifyOutcome) {
    match Lookup(h.challenges, q.challengeId, t.got)
    case None => (h, NotFound)
    case Some(c) =>
      if c.deviceId != q.deviceId then (h, DeviceMismatch)
      else if q.deviceId !in h.devices then (h, DeviceMissing)
      else
        var device := h.devices[q.deviceId];
        var h1 := h.(challenges := Drop(h.challenges, q.challengeId));
        var status := StatusOf(c, t.checked > c.expiresAt, device, q.signature, t.judged);
        var valid := SignedBy(c, device, q.signature);
        if c.participantId !in h.participants then (h1, ParticipantMissing)
        else
          (h1.(participants := h.participants[c.participantId :=
            JudgedRow(h.participants[c.participantId], status, t.judged)],
               audit := h.audit + [JudgedEvent(q, c, device, status, valid)],
               notices := h.notices + [MeetingUpdate(c.meetingId, c.participantId, status)]),
           Verdict(status, valid))
  }

  function StepsLeft(pc: VerifyPc): nat {
    match pc
    case Fetched(_) => 6
    case Checked(_, _) => 5
    case Loaded(_, _, _) => 4
    case Removed(_, _, _) => 3
    case Judged(_, _, _, _, _) => 2
    case Updated(_, _, _, _) => 1
    case Finished(_) => 0
  }

  /** Takes the remaining steps of a call with nobody else in between. */
  function VerifyToEnd(h: Hub, q: Response, pc: VerifyPc, t: Readings): (Hub, VerifyOutcome)
    decreases StepsLeft(pc)
  {
    if pc.Finished? then (h, pc.outcome)
    else
      var (h1, pc1) := VerifyNext(h, q, pc, if pc.Fetched? then t.checked else t.judged);
      VerifyToEnd(h1, q, pc1, t)
  }

  /** The step-by-step call, undisturbed, is the sequential one. */
  lemma VerifyStepsCompose(h: Hub, q: Response, t: Readings)
    ensures VerifyToEnd(h, q, VerifyStart(h, q, t.got), t) == Judge(h, q, t)
  {
    var pc := VerifyStart(h, q, t.got);
    if pc.Fetched? {
      var (h1, pc1) := VerifyNext(h, q, pc, t.checked);
      assert VerifyToEnd(h, q, pc, t) == VerifyToEnd(h1, q, pc1, t);
      if pc1.Checked? {
        var (h2, pc2) := VerifyNext(h1, q, pc1, t.judged);
        assert VerifyToEnd(h1, q, pc1, t) == VerifyToEnd(h2, q, pc2, t);
        if pc2.Loaded? {
          FromLoaded(h2, q, pc2, t);
        }
      }
    }
  }

  lemma FromLoaded(h: Hub, q: Response, pc: VerifyPc, t: Readings)
    requires pc.Loaded? && Live(h.challenges, q.challengeId, t.got) && q.deviceId in h.devices
    requires h.challenges[q.challengeId].value == pc.held && pc.held.deviceId == q.deviceId
    requires pc.device == h.devices[q.deviceId] && pc.expired == (t.checked > pc.held.expiresAt)
    ensures VerifyToEnd(h, q, pc, t) == Judge(h, q, t)
  {
    var (h1, pc1) := VerifyNext(h, q, pc, t.judged);
    var (h2, pc2) := VerifyNext(h1, q, pc1, t.judged);
    var (h3, pc3) := VerifyNext(h2, q, pc2, t.judged);
    assert VerifyToEnd(h, q, pc, t) == VerifyToEnd(h1, q, pc1, t) == VerifyToEnd(h2, q, pc2, t) ==
      VerifyToEnd(h3, q, pc3, t);
    if pc3.Updated? {
      var (h4, pc4) := VerifyNext(h3, q, pc3, t.judged);
      assert VerifyToEnd(h3, q, pc3, t) == VerifyToEnd(h4, q, pc4, t) == (h4, pc4.outcome);
    }
  }

  // ---- The service ----

  class ChallengeService {
    const prisma: PrismaService
    const redis: RedisService<Challenge>
    const audit: AuditService
    const gateway: EventsGateway
    const devices: DeviceService

    constructor (prisma: PrismaService, redis: RedisService<Challenge>, audit: AuditService,
                 gateway: EventsGateway, devices: DeviceService)
      requires audit.prisma == prisma && devices.prisma == prisma
      ensures Wired() && this.prisma == prisma && this.redis == redis && this.gateway == gateway
    {
      this.prisma := prisma;
      this.redis := redis;
      this.audit := audit;
      this.gateway := gateway;
      this.devices := devices;
    }

    ghost predicate Wired() {
      audit.prisma == prisma && devices.prisma == prisma
    }

    /** The part of the hub these handlers can reach. */
    ghost function State(): Hub
      reads prisma, redis, gateway`calls
    {
      HubOf(prisma, redis.entries, map[], gateway.calls)
    }

    /** One turn of the loop over the participants. */
    method IssueTurn(meetingId: string, tenantId: string, row: Row, draw: Draw) returns (result: IssueResult)
      requires Wired() && gateway.Valid() && row.id in prisma.participants
      modifies prisma`participants, prisma`auditEvents, redis, gateway`sent, gateway`calls
      ensures gateway.Valid()
      ensures (State(), result) == IssueOne(old(State()), meetingId, tenantId, row, draw)
      ensures prisma.participants.Keys == old(prisma.participants).Keys
    {
      if !Challengeable(row) {
        prisma.participants := prisma.participants[row.id := FailedRow(prisma.participants[row.id], draw.now)];
        audit.Log(NoDeviceEvent(meetingId, tenantId, row));
        gateway.EmitMeetingUpdate(meetingId, row.id, Failed);
        return Rejected(row.id, row.participant.displayName);
      }
      var expiresAt := draw.expiryBase + CHALLENGE_LIFE_MS;
      var deviceId := row.participant.deviceId.value;
      var c := Challenge(draw.id, draw.nonce, meetingId, row.id, draw.issuedAt, expiresAt,
                         tenantId, deviceId, row.participant.userId);
      redis.Set(draw.id, c, CHALLENGE_TTL_SECONDS, draw.now);
      gateway.EmitChallengeToDevice(deviceId, PayloadOf(c));
      audit.Log(IssuedEvent(c, row.participant.displayName));
      result := Sent(row.id, row.participant.displayName, draw.id);
    }

    /** `rows` is the answer of the participant query, in whatever order the database gives it. */
    method IssueChallenge(meetingId: string, rows: seq<Row>, draws: seq<Draw>) returns (results: seq<IssueResult>)
      requires Wired() && gateway.Valid() && Known(State(), rows) && |draws| == |rows|
      modifies prisma`participants, prisma`auditEvents, redis, gateway`sent, gateway`calls
      ensures gateway.Valid()
      ensures meetingId !in prisma.meetings ==> results == [] && State() == old(State())
      ensures meetingId in prisma.meetings ==>
        (State(), results) ==
          IssueUpTo(old(State()), Round(meetingId, prisma.meetings[meetingId].tenantId, rows, draws), |rows|)
    {
      results := [];
      if meetingId !in prisma.meetings {
        return;
      }
      var meeting := prisma.meetings[meetingId];
      ghost var round := Round(meetingId, meeting.tenantId, rows, draws);
      for i := 0 to |rows|
        invariant gateway.Valid() && Known(State(), rows)
        invariant (State(), results) == IssueUpTo(old(State()), round, i)
      {
        var result := IssueTurn(meetingId, meeting.tenantId, rows[i], draws[i]);
        results := results + [result];
      }
    }

    method VerifyResponse(q: Response, t: Readings) returns (r: VerifyOutcome)
      requires Wired() && gateway.Valid()
      modifies prisma`participants, prisma`auditEvents, redis, gateway`sent, gateway`calls
      ensures gateway.Valid()
      ensures (State(), r) == Judge(old(State()), q, t)
    {
      var found := redis.Get(q.challengeId, t.got);
      if found.None? {
        return NotFound;
      }
      var held := found.value;
      var isExpired := t.checked > held.expiresAt;
      if held.deviceId != q.deviceId {
        return DeviceMismatch;
      }
      var row := devices.FindById(q.deviceId);
      if row.None? {
        return DeviceMissing;
      }
      var device := row.value;
      var isValid := Verify(device.publicKey, ChallengeMaterial(held), q.signature);
      redis.Del(q.challengeId);
      var status := Evaluate(PolicyInput(device.status, device.lastHeartbeat, device.hardwareBound,
                                         isValid, isExpired, true), t.judged);
      if held.participantId !in prisma.participants {
        return ParticipantMissing;
      }
      prisma.participants := prisma.participants[held.participantId :=
        JudgedRow(prisma.participants[held.participantId], status, t.judged)];
      audit.Log(JudgedEvent(q, held, device, status, isValid));
      gateway.EmitMeetingUpdate(held.meetingId, held.participantId, status);
      r := Verdict(status, isValid);
    }
  }
}
