/**
 What every handler step keeps of the hub, whoever runs between two steps:
 well-formed rows, growth of the tables, and the backing of each stored record.
 */
module HubLaws {
  import opened Prelude
  import opened Entities
  import opened DeviceService
  import opened MeetingService
  import opened ChallengeService

  // ---- Rows ----

  /** The participant status machine: which combinations of fields a row can show. */
  predicate StatusOk(p: Participant) {
    && p.trust in {Unknown, Verified, Stale, Failed}
    && (p.trust == Unknown <==> p.deviceId.None? && p.lastChallengeAt.None?)
    && (p.trust in {Verified, Stale} ==> p.deviceId.Some?)
    && (p.deviceId.Some? <==> p.boundAt.Some?)
  }

  predicate DevicesOk(h: Hub, now: nat) {
    forall d :: d in h.devices ==> h.devices[d].lastHeartbeat.Some? && h.devices[d].lastHeartbeat.value <= now
  }

  predicate MeetingsOk(h: Hub) {
    forall m :: m in h.meetings ==> h.meetings[m].tenantId in h.tenants
  }

  predicate ParticipantsOk(h: Hub) {
    forall p :: p in h.participants ==>
      && h.participants[p].meetingId in h.meetings
      && (h.participants[p].deviceId.Some? ==> h.participants[p].deviceId.value in h.devices)
      && StatusOk(h.participants[p])
  }

  /** CHALLENGE_PASSED is logged for VERIFIED alone, and VERIFIED only with a valid signature. */
  predicate VerdictOk(d: Detail) {
    d.ChallengeJudged? ==>
      (d.passed <==> d.status == Verified) && (d.passed ==> d.signatureValid) && d.status in {Verified, Stale, Failed}
  }

  predicate AuditOk(h: Hub) {
    forall i :: 0 <= i < |h.audit| ==>
      && VerdictOk(h.audit[i].detail)
      && h.audit[i].tenantId in h.tenants
      && (h.audit[i].meetingId.Some? ==> h.audit[i].meetingId.value in h.meetings)
  }

  /** Everything the database guarantees, and what the handlers add to it. */
  predicate Rows(h: Hub, now: nat) {
    DevicesOk(h, now) && MeetingsOk(h) && ParticipantsOk(h) && AuditOk(h)
  }

  // ---- Growth ----

  predicate DeviceGrows(a: Device, b: Device) {
    && a.tenantId == b.tenantId && a.userId == b.userId && a.displayName == b.displayName
    && (a.lastHeartbeat.Some? ==> b.lastHeartbeat.Some? && a.lastHeartbeat.value <= b.lastHeartbeat.value)
  }

  /** Once bound never unbound, once judged never UNKNOWN again, identity fixed. */
  predicate ParticipantGrows(a: Participant, b: Participant) {
    && a.meetingId == b.meetingId && a.userId == b.userId && a.displayName == b.displayName
    && (a.deviceId.Some? ==> b.deviceId.Some?)
    && (a.trust != Unknown ==> b.trust != Unknown)
  }

  ghost predicate Grows(h: Hub, h': Hub) {
    && h'.tenants == h.tenants
    && (forall d :: d in h.devices ==> d in h'.devices && DeviceGrows(h.devices[d], h'.devices[d]))
    && (forall m :: m in h.meetings ==> m in h'.meetings && h'.meetings[m] == h.meetings[m])
    && (forall p :: p in h.participants ==>
          p in h'.participants && ParticipantGrows(h.participants[p], h'.participants[p]))
    && h.audit <= h'.audit
    && h.notices <= h'.notices
  }

  lemma GrowsTransitive(a: Hub, b: Hub, c: Hub)
    requires Grows(a, b) && Grows(b, c)
    ensures Grows(a, c)
  {
    forall p | p in a.participants
      ensures p in c.participants && ParticipantGrows(a.participants[p], c.participants[p])
    {
      assert p in b.participants && ParticipantGrows(a.participants[p], b.participants[p]);
    }
    forall d | d in a.devices
      ensures d in c.devices && DeviceGrows(a.devices[d], c.devices[d])
    {
      assert d in b.devices && DeviceGrows(a.devices[d], b.devices[d]);
    }
  }

  // ---- Stored records ----

  /**
   A challenge names a participant of its meeting, that meeting's tenant, its user,
   a device, and the participant is bound.
   */
  predicate Sound(h: Hub, c: Challenge) {
    && c.participantId in h.participants
    && h.participants[c.participantId].meetingId == c.meetingId
    && h.participants[c.participantId].userId == c.userId
    && h.participants[c.participantId].deviceId.Some?
    && c.meetingId in h.meetings
    && h.meetings[c.meetingId].tenantId == c.tenantId
    && c.deviceId in h.devices
  }

  lemma SoundGrows(h: Hub, h': Hub, c: Challenge)
    requires Sound(h, c) && Grows(h, h')
    ensures Sound(h', c)
  {
    assert ParticipantGrows(h.participants[c.participantId], h'.participants[c.participantId]);
  }

  /** Ten seconds to answer, at least five more in the store. */
  predicate Timed(e: Expiring<Challenge>, now: nat) {
    && e.deadline.Some?
    && e.value.issuedAt + CHALLENGE_LIFE_MS <= e.value.expiresAt
    && e.value.expiresAt + GRACE_MS <= e.deadline.value <= now + 15_000
  }

  ghost predicate ChallengesOk(h: Hub, now: nat) {
    forall id :: id in h.challenges ==>
      h.challenges[id].value.id == id && Sound(h, h.challenges[id].value) && Timed(h.challenges[id], now)
  }

  ghost predicate TokensOk(h: Hub) {
    forall t :: t in h.tokens ==> h.tokens[t].value.participantId in h.participants
  }

  ghost predicate Whole(h: Hub, now: nat) {
    Rows(h, now) && ChallengesOk(h, now) && TokensOk(h)
  }

  lemma WholeGrows(h: Hub, h': Hub, now: nat)
    requires ChallengesOk(h, now) && TokensOk(h) && Grows(h, h')
    requires forall id :: id in h'.challenges ==> id in h.challenges && h'.challenges[id] == h.challenges[id]
    requires forall t :: t in h'.tokens ==> t in h.tokens && h'.tokens[t] == h.tokens[t]
    ensures ChallengesOk(h', now) && TokensOk(h')
  {
    forall id | id in h'.challenges
      ensures h'.challenges[id].value.id == id && Sound(h', h'.challenges[id].value) && Timed(h'.challenges[id], now)
    {
      SoundGrows(h, h', h.challenges[id].value);
    }
  }

  lemma WholeLater(h: Hub, now: nat, later: nat)
    requires Whole(h, now) && now <= later
    ensures Whole(h, later)
  {
  }

  // ---- The four ways a table changes ----

  lemma SetDevice(h: Hub, d: string, row: Device, now: nat)
    requires Whole(h, now)
    requires row.lastHeartbeat.Some? && row.lastHeartbeat.value <= now
    requires d in h.devices ==> DeviceGrows(h.devices[d], row)
    ensures var h' := h.(devices := h.devices[d := row]); Whole(h', now) && Grows(h, h')
  {
    var h' := h.(devices := h.devices[d := row]);
    assert Grows(h, h');
    assert DevicesOk(h', now);
    WholeGrows(h, h', now);
  }

  lemma SetParticipant(h: Hub, p: string, row: Participant, now: nat)
    requires Whole(h, now)
    requires row.meetingId in h.meetings && StatusOk(row)
    requires row.deviceId.Some? ==> row.deviceId.value in h.devices
    requires p in h.participants ==> ParticipantGrows(h.participants[p], row)
    ensures var h' := h.(participants := h.participants[p := row]); Whole(h', now) && Grows(h, h')
  {
    var h' := h.(participants := h.participants[p := row]);
    assert Grows(h, h');
    assert ParticipantsOk(h');
    WholeGrows(h, h', now);
  }

  lemma Append(h: Hub, e: AuditEvent, notices: seq<Notice>, now: nat)
    requires Whole(h, now)
    requires e.tenantId in h.tenants && (e.meetingId.Some? ==> e.meetingId.value in h.meetings) && VerdictOk(e.detail)
    ensures var h' := h.(audit := h.audit + [e], notices := h.notices + notices); Whole(h', now) && Grows(h, h')
  {
    var h' := h.(audit := h.audit + [e], notices := h.notices + notices);
    assert Grows(h, h');
    assert AuditOk(h');
    WholeGrows(h, h', now);
  }

  lemma Shrink(h: Hub, h': Hub, now: nat)
    requires Whole(h, now) && h' == h.(challenges := h'.challenges, tokens := h'.tokens)
    requires forall id :: id in h'.challenges ==> id in h.challenges && h'.challenges[id] == h.challenges[id]
    requires forall t :: t in h'.tokens ==> t in h.tokens && h'.tokens[t] == h.tokens[t]
    ensures Whole(h', now) && Grows(h, h')
  {
    assert Grows(h, h');
    WholeGrows(h, h', now);
  }

  lemma StoreChallenge(h: Hub, id: string, e: Expiring<Challenge>, now: nat)
    requires Whole(h, now) && e.value.id == id && Sound(h, e.value) && Timed(e, now)
    ensures var h' := h.(challenges := h.challenges[id := e]); Whole(h', now) && Grows(h, h')
  {
    var h' := h.(challenges := h.challenges[id := e]);
    assert Grows(h, h');
    forall i | i in h'.challenges
      ensures h'.challenges[i].value.id == i && Sound(h', h'.challenges[i].value) && Timed(h'.challenges[i], now)
    {
      SoundGrows(h, h', h'.challenges[i].value);
    }
  }

  lemma StoreToken(h: Hub, token: string, e: Expiring<JoinToken>, now: nat)
    requires Whole(h, now) && e.value.participantId in h.participants
    ensures var h' := h.(tokens := h.tokens[token := e]); Whole(h', now) && Grows(h, h')
  {
    var h' := h.(tokens := h.tokens[token := e]);
    assert Grows(h, h');
    forall i | i in h'.challenges
      ensures h'.challenges[i].value.id == i && Sound(h', h'.challenges[i].value) && Timed(h'.challenges[i], now)
    {
      SoundGrows(h, h', h.challenges[i].value);
    }
  }

  // ---- The handlers, one lemma each ----

  lemma EnrollKeeps(h: Hub, dto: EnrollDto, now: nat)
    requires Whole(h, now)
    ensures var h' := Enroll(h, dto, now).0; Whole(h', now) && Grows(h, h')
  {
    var (h', r) := Enroll(h, dto, now);
    var row := if dto.deviceId in h.devices then RefreshedRow(h.devices[dto.deviceId], dto, now) else NewRow(dto, now);
    var h1 := h.(devices := h.devices[dto.deviceId := row]);
    SetDevice(h, dto.deviceId, row, now);
    if r.Ok? {
      var e := EnrollEvent(dto, dto.deviceId in h.devices);
      assert h1.notices + [] == h1.notices;
      Append(h1, e, [], now);
      GrowsTransitive(h, h1, h');
    }
  }

  lemma HeartbeatKeeps(h: Hub, deviceId: string, now: nat)
    requires Whole(h, now)
    ensures var h' := Heartbeat(h, deviceId, now); Whole(h', now) && Grows(h, h')
  {
    if deviceId in h.devices {
      SetDevice(h, deviceId, h.devices[deviceId].(lastHeartbeat := Some(now)), now);
    }
  }

  /** An administrator's revocation: no handler of the hub does it. */
  function Revoke(h: Hub, deviceId: string): Hub {
    if deviceId in h.devices then h.(devices := h.devices[deviceId := h.devices[deviceId].(status := Revoked)]) else h
  }

  lemma RevokeKeeps(h: Hub, deviceId: string, now: nat)
    requires Whole(h, now)
    ensures var h' := Revoke(h, deviceId); Whole(h', now) && Grows(h, h')
  {
    if deviceId in h.devices {
      SetDevice(h, deviceId, h.devices[deviceId].(status := Revoked), now);
    }
  }

  lemma CreateMeetingKeeps(h: Hub, id: string, tenantId: string, name: string, now: nat)
    requires Whole(h, now) && id !in h.meetings
    ensures var h' := CreateMeeting(h, id, tenantId, name).0; Whole(h', now) && Grows(h, h')
  {
    if tenantId in h.tenants {
      var h1 := h.(meetings := h.meetings[id := Meeting(tenantId, name)]);
      assert Grows(h, h1);
      WholeGrows(h, h1, now);
      assert h1.notices + [] == h1.notices;
      Append(h1, AuditEvent(tenantId, Some(id), "system", MeetingCreated(name)), [], now);
      GrowsTransitive(h, h1, CreateMeeting(h, id, tenantId, name).0);
    }
  }

  lemma AddRowKeeps(h: Hub, id: string, meetingId: string, userId: string, displayName: string, now: nat)
    requires Whole(h, now) && id !in h.participants
    ensures var h' := AddRow(h, id, meetingId, userId, displayName); Whole(h', now) && Grows(h, h')
  {
    if meetingId in h.meetings {
      SetParticipant(h, id, NewParticipant(meetingId, userId, displayName), now);
    }
  }

  /** An event the audit table accepts. */
  predicate EventOk(h: Hub, e: AuditEvent) {
    e.tenantId in h.tenants && (e.meetingId.Some? ==> e.meetingId.value in h.meetings) && VerdictOk(e.detail)
  }

  lemma LoggedKeeps(h: Hub, e: AuditEvent, now: nat)
    requires Whole(h, now) && EventOk(h, e)
    ensures Whole(Logged(h, e), now) && Grows(h, Logged(h, e))
  {
    assert h.notices + [] == h.notices;
    Append(h, e, [], now);
  }

  lemma AddParticipantKeeps(h: Hub, id: string, meetingId: string, userId: string, displayName: string, now: nat)
    requires Whole(h, now) && id !in h.participants
    ensures var h' := AddParticipant(h, id, meetingId, userId, displayName).0; Whole(h', now) && Grows(h, h')
  {
    if meetingId in h.meetings {
      var h1 := AddRow(h, id, meetingId, userId, displayName);
      var e := JoinEvent(h.meetings[meetingId].tenantId, id, meetingId, userId, displayName);
      AddRowKeeps(h, id, meetingId, userId, displayName, now);
      LoggedKeeps(h1, e, now);
      JoinStepsCompose(h, id, meetingId, userId, displayName);
      GrowsTransitive(h, h1, AddParticipant(h, id, meetingId, userId, displayName).0);
    }
  }

  lemma IssueJoinTokenKeeps(h: Hub, token: string, meetingId: string, participantId: string, base: nat, now: nat)
    requires Whole(h, now)
    ensures var h' := IssueJoinToken(h, token, meetingId, participantId, base, now).0; Whole(h', now) && Grows(h, h')
  {
    if participantId in h.participants {
      var t := JoinToken(meetingId, participantId, base + TOKEN_LIFE_MS);
      StoreToken(h, token, Expiring(t, Some(now + 30_000)), now);
    }
  }

  lemma BindNextKeeps(h: Hub, q: BindRequest, pc: BindPc, now: nat)
    requires Whole(h, now) && !pc.BindFinished? && BindPcOk(h, q, pc)
    ensures var (h', pc') := BindNext(h, q, pc, now); Whole(h', now) && Grows(h, h') && BindPcOk(h', q, pc')
  {
    var h' := BindNext(h, q, pc, now).0;
    match pc
    case BindFetched(held) =>
    case BindAccepted(held, device) => Shrink(h, h', now);
    case BindConsumed(held, device) =>
      SetParticipant(h, held.participantId, BoundRow(h.participants[held.participantId], q.deviceId, now), now);
    case BindWritten(held, device, row) =>
      if q.meetingId in h.meetings {
        assert h.notices + [] == h.notices;
        Append(h, BindEvent(h.meetings[q.meetingId].tenantId, q, held, device), [], now);
      }
  }

  /** What a binding call relies on between two of its steps. */
  predicate BindPcOk(h: Hub, q: BindRequest, pc: BindPc) {
    match pc
    case BindFetched(held) => held.participantId in h.participants
    case BindAccepted(held, _) => held.participantId in h.participants && q.deviceId in h.devices
    case BindConsumed(held, _) => held.participantId in h.participants && q.deviceId in h.devices
    case BindWritten(_, _, _) => true
    case BindFinished(outcome) => !outcome.ParticipantMissing?
  }

  /** What a row of an issue loop under way still says of the hub, however old the snapshot is. */
  predicate RowHolds(h: Hub, meetingId: string, tenantId: string, row: Row) {
    && row.id in h.participants
    && h.participants[row.id].meetingId == meetingId
    && h.participants[row.id].userId == row.participant.userId
    && h.participants[row.id].displayName == row.participant.displayName
    && meetingId in h.meetings && h.meetings[meetingId].tenantId == tenantId
    && (Challengeable(row) ==> h.participants[row.id].deviceId.Some? && row.participant.deviceId.value in h.devices)
  }

  lemma RowHoldsGrows(h: Hub, h': Hub, meetingId: string, tenantId: string, row: Row)
    requires RowHolds(h, meetingId, tenantId, row) && Grows(h, h')
    ensures RowHolds(h', meetingId, tenantId, row)
  {
    assert ParticipantGrows(h.participants[row.id], h'.participants[row.id]);
  }

  /** The clock readings of a turn are taken in order, and none is in the future. */
  predicate DrawOk(draw: Draw, now: nat) {
    draw.issuedAt <= draw.expiryBase <= draw.now <= now
  }

  /** What the second half of a turn relies on. */
  predicate IssuePcOk(meetingId: string, tenantId: string, row: Row, pc: IssuePc) {
    match pc
    case AtRow => true
    case Failing => !Challengeable(row)
    case Announcing(c) => Challengeable(row) && c.meetingId == meetingId && c.tenantId == tenantId
  }

  lemma IssueStartKeeps(h: Hub, meetingId: string, tenantId: string, row: Row, draw: Draw, now: nat)
    requires Whole(h, now) && RowHolds(h, meetingId, tenantId, row) && DrawOk(draw, now)
    ensures var (h', pc) := IssueStart(h, meetingId, tenantId, row, draw);
      Whole(h', now) && Grows(h, h') && !pc.AtRow? && IssuePcOk(meetingId, tenantId, row, pc)
  {
    if Challengeable(row) {
      var c := ChallengeFor(meetingId, tenantId, row, draw);
      StoreChallenge(h, draw.id, Expiring(c, Some(draw.now + 15_000)), now);
    } else {
      SetParticipant(h, row.id, FailedRow(h.participants[row.id], draw.now), now);
    }
  }

  lemma IssueFinishKeeps(h: Hub, meetingId: string, tenantId: string, row: Row, pc: IssuePc, now: nat)
    requires Whole(h, now) && RowHolds(h, meetingId, tenantId, row)
    requires !pc.AtRow? && IssuePcOk(meetingId, tenantId, row, pc)
    ensures var h' := IssueFinish(h, meetingId, tenantId, row, pc); Whole(h', now) && Grows(h, h')
  {
    match pc
    case Failing =>
      Append(h, NoDeviceEvent(meetingId, tenantId, row), [MeetingUpdate(meetingId, row.id, Failed)], now);
    case Announcing(c) =>
      Append(h, IssuedEvent(c, row.participant.displayName), [ChallengeToDevice(c.deviceId, PayloadOf(c))], now);
  }

  lemma IssueOneKeeps(h: Hub, meetingId: string, tenantId: string, row: Row, draw: Draw, now: nat)
    requires Whole(h, now) && RowHolds(h, meetingId, tenantId, row) && DrawOk(draw, now)
    ensures var h' := IssueOne(h, meetingId, tenantId, row, draw).0; Whole(h', now) && Grows(h, h')
  {
    var (h1, pc) := IssueStart(h, meetingId, tenantId, row, draw);
    IssueStartKeeps(h, meetingId, tenantId, row, draw, now);
    RowHoldsGrows(h, h1, meetingId, tenantId, row);
    IssueFinishKeeps(h1, meetingId, tenantId, row, pc, now);
    IssueStepsCompose(h, meetingId, tenantId, row, draw);
    GrowsTransitive(h, h1, IssueOne(h, meetingId, tenantId, row, draw).0);
  }

  /** What a verifying call relies on between two of its steps. */
  predicate VerifyPcOk(h: Hub, q: Response, pc: VerifyPc) {
    match pc
    case Fetched(c) => Sound(h, c) && c.id == q.challengeId
    case Checked(c, _) => Sound(h, c) && c.id == q.challengeId && c.deviceId == q.deviceId
    case Loaded(c, _, _) => Sound(h, c) && c.id == q.challengeId && c.deviceId == q.deviceId
    case Removed(c, _, _) => Sound(h, c) && c.id == q.challengeId && c.deviceId == q.deviceId
    case Judged(c, _, valid, status, _) =>
      && Sound(h, c) && c.id == q.challengeId && c.deviceId == q.deviceId
      && status in {Verified, Stale, Failed} && (status == Verified ==> valid)
    case Updated(c, _, valid, status) =>
      && Sound(h, c) && c.id == q.challengeId && c.deviceId == q.deviceId
      && status in {Verified, Stale, Failed} && (status == Verified ==> valid)
    case Finished(outcome) => !outcome.DeviceMissing? && !outcome.ParticipantMissing?
  }

  lemma VerifyPcGrows(h: Hub, h': Hub, q: Response, pc: VerifyPc)
    requires VerifyPcOk(h, q, pc) && Grows(h, h')
    ensures VerifyPcOk(h', q, pc)
  {
    if !pc.Finished? {
      SoundGrows(h, h', pc.held);
    }
  }

  lemma BindPcGrows(h: Hub, h': Hub, q: BindRequest, pc: BindPc)
    requires BindPcOk(h, q, pc) && Grows(h, h')
    ensures BindPcOk(h', q, pc)
  {
  }

  /** What one step of a verifying call does to the hub. */
  lemma VerifyHubKeeps(h: Hub, q: Response, pc: VerifyPc, now: nat)
    requires Whole(h, now) && !pc.Finished? && VerifyPcOk(h, q, pc)
    ensures var h' := VerifyNext(h, q, pc, now).0; Whole(h', now) && Grows(h, h')
  {
    var h' := VerifyNext(h, q, pc, now).0;
    var c := pc.held;
    if pc.Loaded? {
      Shrink(h, h', now);
    } else if pc.Judged? {
      SetParticipant(h, c.participantId, JudgedRow(h.participants[c.participantId], pc.status, pc.at), now);
    } else if pc.Updated? {
      Append(h, JudgedEvent(q, c, pc.device, pc.status, pc.valid),
        [MeetingUpdate(c.meetingId, c.participantId, pc.status)], now);
    }
  }

  lemma VerifyNextKeeps(h: Hub, q: Response, pc: VerifyPc, now: nat)
    requires Whole(h, now) && !pc.Finished? && VerifyPcOk(h, q, pc)
    ensures var (h', pc') := VerifyNext(h, q, pc, now); Whole(h', now) && Grows(h, h') && VerifyPcOk(h', q, pc')
  {
    VerifyHubKeeps(h, q, pc, now);
    SoundGrows(h, VerifyNext(h, q, pc, now).0, pc.held);
  }

  // ---- The undisturbed calls ----

  lemma BindKeeps(h: Hub, q: BindRequest, got: nat, wrote: nat)
    requires Whole(h, got) && got <= wrote
    ensures var h' := Bind(h, q, got, wrote).0; Whole(h', wrote) && Grows(h, h')
  {
    WholeLater(h, got, wrote);
    BindStepsCompose(h, q, got, wrote);
    var pc := BindStart(h, q, got);
    assert BindPcOk(h, q, pc);
    BindToEndKeeps(h, q, pc, wrote);
  }

  lemma {:induction false} BindToEndKeeps(h: Hub, q: BindRequest, pc: BindPc, now: nat)
    requires Whole(h, now) && BindPcOk(h, q, pc)
    ensures var h' := BindToEnd(h, q, pc, now).0; Whole(h', now) && Grows(h, h')
    decreases BindStepsLeft(pc)
  {
    if !pc.BindFinished? {
      var (h1, pc1) := BindNext(h, q, pc, now);
      BindNextKeeps(h, q, pc, now);
      BindToEndKeeps(h1, q, pc1, now);
      GrowsTransitive(h, h1, BindToEnd(h, q, pc, now).0);
    }
  }

  predicate InOrder(t: Readings) {
    t.got <= t.checked <= t.judged
  }

  lemma JudgeKeeps(h: Hub, q: Response, t: Readings)
    requires Whole(h, t.got) && InOrder(t)
    ensures var (h', outcome) := Judge(h, q, t);
      && Whole(h', t.judged) && Grows(h, h')
      && !outcome.DeviceMissing? && !outcome.ParticipantMissing?
  {
    WholeLater(h, t.got, t.judged);
    VerifyStepsCompose(h, q, t);
    var pc := VerifyStart(h, q, t.got);
    assert VerifyPcOk(h, q, pc);
    if pc.Fetched? {
      var (h1, pc1) := VerifyNext(h, q, pc, t.checked);
      assert h1 == h;
      VerifyNextKeeps(h, q, pc, t.judged);
      assert VerifyPcOk(h, q, pc1);
      VerifyToEndKeeps(h1, q, pc1, t);
    }
  }

  lemma {:induction false} VerifyToEndKeeps(h: Hub, q: Response, pc: VerifyPc, t: Readings)
    requires Whole(h, t.judged) && VerifyPcOk(h, q, pc) && !pc.Fetched?
    ensures var (h', outcome) := VerifyToEnd(h, q, pc, t);
      && Whole(h', t.judged) && Grows(h, h')
      && !outcome.DeviceMissing? && !outcome.ParticipantMissing?
    decreases StepsLeft(pc)
  {
    if !pc.Finished? {
      var (h1, pc1) := VerifyNext(h, q, pc, t.judged);
      VerifyNextKeeps(h, q, pc, t.judged);
      VerifyToEndKeeps(h1, q, pc1, t);
      GrowsTransitive(h, h1, VerifyToEnd(h, q, pc, t).0);
    }
  }

  /** One turn of the loop, from the state the earlier turns reached. */
  lemma OneMoreTurn(h: Hub, h1: Hub, meetingId: string, tenantId: string, row: Row, draw: Draw, now: nat)
    requires Whole(h1, now) && Grows(h, h1) && RowHolds(h, meetingId, tenantId, row) && DrawOk(draw, now)
    ensures var h2 := IssueOne(h1, meetingId, tenantId, row, draw).0; Whole(h2, now) && Grows(h, h2)
  {
    RowHoldsGrows(h, h1, meetingId, tenantId, row);
    IssueOneKeeps(h1, meetingId, tenantId, row, draw, now);
    GrowsTransitive(h, h1, IssueOne(h1, meetingId, tenantId, row, draw).0);
  }

  lemma TurnKeeps(h: Hub, r: Round, n: nat, now: nat)
    requires 0 < n && Fits(r, n) && DrawOk(r.draws[n - 1], now)
    requires RowHolds(h, r.meetingId, r.tenantId, r.rows[n - 1])
    requires var h1 := IssueUpTo(h, r, n - 1).0; Whole(h1, now) && Grows(h, h1)
    ensures var h' := IssueUpTo(h, r, n).0; Whole(h', now) && Grows(h, h')
  {
    OneMoreTurn(h, IssueUpTo(h, r, n - 1).0, r.meetingId, r.tenantId, r.rows[n - 1], r.draws[n - 1], now);
  }

  lemma GrowsSelf(h: Hub)
    ensures Grows(h, h)
  {
  }

  lemma {:induction false} IssueUpToKeeps(h: Hub, r: Round, n: nat, now: nat)
    requires Whole(h, now) && Fits(r, n)
    requires forall i :: 0 <= i < n ==> RowHolds(h, r.meetingId, r.tenantId, r.rows[i]) && DrawOk(r.draws[i], now)
    ensures var h' := IssueUpTo(h, r, n).0; Whole(h', now) && Grows(h, h')
  {
    if n == 0 {
      GrowsSelf(h);
    } else {
      assert RowHolds(h, r.meetingId, r.tenantId, r.rows[n - 1]) && DrawOk(r.draws[n - 1], now);
      IssueUpToKeeps(h, r, n - 1, now);
      TurnKeeps(h, r, n, now);
    }
  }

  /** A fresh answer of the participant query holds of the hub it was read from. */
  lemma ListingHolds(h: Hub, meetingId: string, rows: seq<Row>, i: nat)
    requires Listing(h, meetingId, rows) && i < |rows| && meetingId in h.meetings
    ensures RowHolds(h, meetingId, h.meetings[meetingId].tenantId, rows[i])
  {
  }
}
