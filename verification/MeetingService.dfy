/** Meetings, participants, join tokens and the binding of a device to a participant. */
module MeetingService {
  import opened Prelude
  import opened Framing
  import opened Crypto
  import opened Entities
  import opened Storage

  const TOKEN_TTL_SECONDS: nat := 30
  const TOKEN_LIFE_MS: nat := 30_000

  function CreateMeeting(h: Hub, id: string, tenantId: string, name: string): (Hub, bool) {
    if tenantId !in h.tenants then (h, false)
    else
      var e := AuditEvent(tenantId, Some(id), "system", MeetingCreated(name));
      (h.(meetings := h.meetings[id := Meeting(tenantId, name)], audit := h.audit + [e]), true)
  }

  function NewParticipant(meetingId: string, userId: string, displayName: string): Participant {
    Participant(meetingId, userId, displayName, None, Unknown, None, None)
  }

  function AddParticipant(h: Hub, id: string, meetingId: string, userId: string, displayName: string): (Hub, bool) {
    if meetingId !in h.meetings then (h, false)
    else
      var e := JoinEvent(h.meetings[meetingId].tenantId, id, meetingId, userId, displayName);
      (h.(participants := h.participants[id := NewParticipant(meetingId, userId, displayName)],
          audit := h.audit + [e]), true)
  }

  function JoinEvent(tenantId: string, id: string, meetingId: string, userId: string, displayName: string): AuditEvent {
    AuditEvent(tenantId, Some(meetingId), userId, ParticipantJoined(displayName, id))
  }

  /** The first half of `addParticipant`, up to the row; the audit event is a second await. */
  function AddRow(h: Hub, id: string, meetingId: string, userId: string, displayName: string): Hub {
    if meetingId !in h.meetings then h
    else h.(participants := h.participants[id := NewParticipant(meetingId, userId, displayName)])
  }

  function Logged(h: Hub, e: AuditEvent): Hub {
    h.(audit := h.audit + [e])
  }

  /** The two halves, undisturbed, are the whole call. */
  lemma JoinStepsCompose(h: Hub, id: string, meetingId: string, userId: string, displayName: string)
    requires meetingId in h.meetings
    ensures Logged(AddRow(h, id, meetingId, userId, displayName),
                   JoinEvent(h.meetings[meetingId].tenantId, id, meetingId, userId, displayName))
      == AddParticipant(h, id, meetingId, userId, displayName).0
  {
  }

  /** Only the participant is looked up: the meeting named in the request is stored as it came. */
  function IssueJoinToken(h: Hub, token: string, meetingId: string, participantId: string,
                          base: nat, now: nat): (Hub, Option<JoinToken>) {
    if participantId !in h.participants then (h, None)
    else
      var t := JoinToken(meetingId, participantId, base + TOKEN_LIFE_MS);
      (h.(tokens := Put(h.tokens, token, t, TOKEN_TTL_SECONDS, now)), Some(t))
  }

  function BindingMaterial(token: string, meetingId: string, participantId: string, deviceId: string,
                           expiresAt: nat): string
  {
    Join([token, meetingId, participantId, deviceId, TimeText(expiresAt)])
  }

  // ---- Binding, one await at a time ----

  datatype BindOutcome =
    | Bound(row: Participant)
    | TokenInvalid
    | MeetingMismatch
    | NotEnrolled
    | BadSignature
    | ParticipantMissing
    | MeetingMissing

  datatype BindRequest = BindRequest(meetingId: string, token: string, deviceId: string, signature: Signature)

  /** Where a `bindDevice` call stands between two awaits. */
  datatype BindPc =
    | BindFetched(held: JoinToken)
    | BindAccepted(held: JoinToken, device: Device)
    | BindConsumed(held: JoinToken, device: Device)
    | BindWritten(held: JoinToken, device: Device, row: Participant)
    | BindFinished(outcome: BindOutcome)

  function BoundRow(row: Participant, deviceId: string, now: nat): Participant {
    row.(deviceId := Some(deviceId), boundAt := Some(now), trust := Verified)
  }

  function BindEvent(tenantId: string, q: BindRequest, held: JoinToken, device: Device): AuditEvent {
    AuditEvent(tenantId, Some(q.meetingId), device.userId,
               DeviceBound(held.participantId, q.deviceId, device.hardwareBound))
  }

  predicate BindSigned(q: BindRequest, held: JoinToken, device: Device) {
    Verify(device.publicKey,
           BindingMaterial(q.token, q.meetingId, held.participantId, q.deviceId, held.expiresAt), q.signature)
  }

  /** The token GET, and the meeting test made on its answer. */
  function BindStart(h: Hub, q: BindRequest, now: nat): BindPc {
    match Lookup(h.tokens, q.token, now)
    case None => BindFinished(TokenInvalid)
    case Some(held) =>
      if held.meetingId != q.meetingId then BindFinished(MeetingMismatch) else BindFetched(held)
  }

  function BindNext(h: Hub, q: BindRequest, pc: BindPc, now: nat): (Hub, BindPc)
    requires !pc.BindFinished?
  {
    match pc
    case BindFetched(held) =>
      if q.deviceId !in h.devices then (h, BindFinished(NotEnrolled))
      else
        var device := h.devices[q.deviceId];
        (h, if BindSigned(q, held, device) then BindAccepted(held, device) else BindFinished(BadSignature))
    case BindAccepted(held, device) =>
      (h.(tokens := Drop(h.tokens, q.token)), BindConsumed(held, device))
    case BindConsumed(held, device) =>
      if held.participantId !in h.participants then (h, BindFinished(ParticipantMissing))
      else
        var row := BoundRow(h.participants[held.participantId], q.deviceId, now);
        (h.(participants := h.participants[held.participantId := row]), BindWritten(held, device, row))
    case BindWritten(held, device, row) =>
      if q.meetingId !in h.meetings then (h, BindFinished(MeetingMissing))
      else
        var e := BindEvent(h.meetings[q.meetingId].tenantId, q, held, device);
        (h.(audit := h.audit + [e]), BindFinished(Bound(row)))
  }

  /** The same call when nothing else runs between its awaits; `got` and `wrote` are its two clock readings. */
  function Bind(h: Hub, q: BindRequest, got: nat, wrote: nat): (Hub, BindOutcome) {
    match Lookup(h.tokens, q.token, got)
    case None => (h, TokenInvalid)
    case Some(held) =>
      if held.meetingId != q.meetingId then (h, MeetingMismatch)
      else if q.deviceId !in h.devices then (h, NotEnrolled)
      else
        var device := h.devices[q.deviceId];
        if !BindSigned(q, held, device) then (h, BadSignature)
        else
          var h1 := h.(tokens := Drop(h.tokens, q.token));
          if held.participantId !in h.participants then (h1, ParticipantMissing)
          else
            var row := BoundRow(h.participants[held.participantId], q.deviceId, wrote);
            var h2 := h1.(participants := h.participants[held.participantId := row]);
            if q.meetingId !in h.meetings then (h2, MeetingMissing)
            else (h2.(audit := h.audit + [BindEvent(h.meetings[q.meetingId].tenantId, q, held, device)]), Bound(row))
  }

  function BindStepsLeft(pc: BindPc): nat {
    match pc
    case BindFetched(_) => 4
    case BindAccepted(_, _) => 3
    case BindConsumed(_, _) => 2
    case BindWritten(_, _, _) => 1
    case BindFinished(_) => 0
  }

  /** Takes the remaining steps of a call with nobody else in between. */
  function BindToEnd(h: Hub, q: BindRequest, pc: BindPc, now: nat): (Hub, BindOutcome)
    decreases BindStepsLeft(pc)
  {
    if pc.BindFinished? then (h, pc.outcome)
    else
      var (h1, pc1) := BindNext(h, q, pc, now);
      BindToEnd(h1, q, pc1, now)
  }

  /** The step-by-step call, undisturbed, is the sequential one. */
  lemma BindStepsCompose(h: Hub, q: BindRequest, got: nat, wrote: nat)
    ensures BindToEnd(h, q, BindStart(h, q, got), wrote) == Bind(h, q, got, wrote)
  {
    var pc := BindStart(h, q, got);
    if pc.BindFetched? {
      var (h1, pc1) := BindNext(h, q, pc, wrote);
      assert BindToEnd(h, q, pc, wrote) == BindToEnd(h1, q, pc1, wrote);
      if pc1.BindAccepted? {
        var (h2, pc2) := BindNext(h1, q, pc1, wrote);
        var (h3, pc3) := BindNext(h2, q, pc2, wrote);
        assert BindToEnd(h1, q, pc1, wrote) == BindToEnd(h2, q, pc2, wrote) == BindToEnd(h3, q, pc3, wrote);
        if pc3.BindWritten? {
          var (h4, pc4) := BindNext(h3, q, pc3, wrote);
          assert BindToEnd(h3, q, pc3, wrote) == BindToEnd(h4, q, pc4, wrote) == (h4, pc4.outcome);
        }
      } else {
        assert BindToEnd(h1, q, pc1, wrote) == (h1, pc1.outcome);
      }
    }
  }

  class MeetingService {
    const prisma: PrismaService
    const redis: RedisService<JoinToken>
    const audit: AuditService

    constructor (prisma: PrismaService, redis: RedisService<JoinToken>, audit: AuditService)
      requires audit.prisma == prisma
      ensures this.prisma == prisma && this.redis == redis && this.audit == audit
    {
      this.prisma := prisma;
      this.redis := redis;
      this.audit := audit;
    }

    /** The part of the hub these handlers can reach. */
    ghost function State(): Hub
      reads prisma, redis
    {
      HubOf(prisma, map[], redis.entries, [])
    }

    method Create(id: string, tenantId: string, name: string) returns (ok: bool)
      requires audit.prisma == prisma
      modifies prisma
      ensures (State(), ok) == CreateMeeting(old(State()), id, tenantId, name)
    {
      if tenantId !in prisma.tenants {
        return false;
      }
      prisma.meetings := prisma.meetings[id := Meeting(tenantId, name)];
      audit.Log(AuditEvent(tenantId, Some(id), "system", MeetingCreated(name)));
      ok := true;
    }

    method Join(id: string, meetingId: string, userId: string, displayName: string) returns (ok: bool)
      requires audit.prisma == prisma
      modifies prisma
      ensures (State(), ok) == AddParticipant(old(State()), id, meetingId, userId, displayName)
    {
      if meetingId !in prisma.meetings {
        return false;
      }
      var meeting := prisma.meetings[meetingId];
      prisma.participants := prisma.participants[id := NewParticipant(meetingId, userId, displayName)];
      audit.Log(JoinEvent(meeting.tenantId, id, meetingId, userId, displayName));
      ok := true;
    }

    method IssueToken(token: string, meetingId: string, participantId: string, base: nat, now: nat)
      returns (r: Option<JoinToken>)
      modifies redis
      ensures (State(), r) == IssueJoinToken(old(State()), token, meetingId, participantId, base, now)
    {
      if participantId !in prisma.participants {
        return None;
      }
      var t := JoinToken(meetingId, participantId, base + TOKEN_LIFE_MS);
      redis.Set(token, t, TOKEN_TTL_SECONDS, now);
      r := Some(t);
    }

    method BindDevice(q: BindRequest, got: nat, wrote: nat) returns (r: BindOutcome)
      requires audit.prisma == prisma
      modifies prisma, redis
      ensures (State(), r) == Bind(old(State()), q, got, wrote)
    {
      var found := redis.Get(q.token, got);
      if found.None? {
        return TokenInvalid;
      }
      var held := found.value;
      if held.meetingId != q.meetingId {
        return MeetingMismatch;
      }
      if q.deviceId !in prisma.devices {
        return NotEnrolled;
      }
      var device := prisma.devices[q.deviceId];
      var material := BindingMaterial(q.token, q.meetingId, held.participantId, q.deviceId, held.expiresAt);
      if !Verify(device.publicKey, material, q.signature) {
        return BadSignature;
      }
      redis.Del(q.token);
      if held.participantId !in prisma.participants {
        return ParticipantMissing;
      }
      var row := prisma.participants[held.participantId].(
        deviceId := Some(q.deviceId), boundAt := Some(wrote), trust := Verified);
      prisma.participants := prisma.participants[held.participantId := row];
      if q.meetingId !in prisma.meetings {
        return MeetingMissing;
      }
      var meeting := prisma.meetings[q.meetingId];
      audit.Log(BindEvent(meeting.tenantId, q, held, device));
      r := Bound(row);
    }
  }
}
