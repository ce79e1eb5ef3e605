/** Which verdict a response gets, exactly, and how it changes with the time of arrival. */
module Verdicts {
  import opened Prelude
  import opened Framing
  import opened Crypto
  import opened Entities
  import opened Storage
  import opened MeetingService
  import opened ChallengeService
  import opened AgentSigning
  import opened HubLaws

  // ---- Completeness ----

  /** The two signing strings agree exactly when the agent's own tenant and user do. */
  lemma SameStrings(a: Identity, c: Challenge)
    requires a.deviceId == Some(c.deviceId)
    requires AllClean(ChallengeLines(c)) && Clean(a.tenantId.GetOr("")) && Clean(a.userId.GetOr(""))
    ensures Join(AgentLines(a, PayloadOf(c))) == ChallengeMaterial(c) <==>
      a.tenantId.GetOr("") == c.tenantId && a.userId.GetOr("") == c.userId
  {
    var l, m := AgentLines(a, PayloadOf(c)), ChallengeLines(c);
    assert forall i :: 0 <= i < |l| && i != 2 && i != 4 ==> l[i] == m[i];
    assert AllClean(l);
    if Join(l) == Join(m) {
      JoinInjective(l, m);
      assert l[2] == m[2] && l[4] == m[4];
    }
    if a.tenantId.GetOr("") == c.tenantId && a.userId.GetOr("") == c.userId {
      assert l == m;
    }
  }

  /** Valid and the status, each exactly: `age` is how long ago the device last beat, in milliseconds. */
  predicate RightVerdict(outcome: VerifyOutcome, valid: bool, active: bool, inTime: bool, age: int) {
    && outcome.Verdict? && outcome.valid == valid
    && (outcome.status == Verified <==> valid && active && inTime && age <= 300_000)
    && (outcome.status == Stale <==> valid && active && inTime && age > 300_000)
    && (outcome.status == Failed <==> !valid || !active || !inTime)
  }

  /**
   An agent answers a stored challenge for its device: the signature is valid
   exactly when the hub holds the agent's key and the agent's tenant and user are
   those of the meeting and the participant, and the verdict is VERIFIED exactly
   when also the device is active, the answer in time and the heartbeat at most
   five minutes old, STALE exactly when only that is missing, and else FAILED.
   */
  lemma ExactVerdict(h: Hub, a: Identity, id: string, t: Readings)
    requires Whole(h, t.got) && InOrder(t) && Live(h.challenges, id, t.got)
    requires var c := h.challenges[id].value;
      && a.deviceId == Some(c.deviceId)
      && AllClean(ChallengeLines(c)) && Clean(a.tenantId.GetOr("")) && Clean(a.userId.GetOr(""))
      && Printable(PayloadOf(c))
    ensures var c := h.challenges[id].value;
      var device := h.devices[c.deviceId];
      var signature := SignChallenge(a, PayloadOf(c)).value;
      var own := device.publicKey == Pub(a.key)
                 && a.tenantId.GetOr("") == h.meetings[c.meetingId].tenantId
                 && a.userId.GetOr("") == h.participants[c.participantId].userId;
      var outcome := Judge(h, Response(id, c.deviceId, signature), t).1;
      && (SignedBy(c, device, signature) <==> own)
      && RightVerdict(outcome, own, device.status == Active, t.checked <= c.expiresAt,
                      t.judged - device.lastHeartbeat.value)
  {
    var c := h.challenges[id].value;
    SameStrings(a, c);
    assert Sound(h, c);
  }

  /**
   The token round trip: the answer of a token request, signed as it came by an
   agent whose key the hub knows, binds the agent's device to the participant asked
   for exactly when it is presented within thirty seconds and its meeting exists.
   */
  lemma ExactBinding(h: Hub, a: Identity, token: string, meetingId: string, participantId: string,
                     base: nat, issued: nat, got: nat, wrote: nat)
    requires participantId in h.participants && a.deviceId.Some?
    requires a.deviceId.value in h.devices && h.devices[a.deviceId.value].publicKey == Pub(a.key)
    ensures var (h1, answer) := IssueJoinToken(h, token, meetingId, participantId, base, issued);
      && answer.Some? && answer.value.expiresAt == base + 30_000
      && var signature := SignBinding(a, BindingTuple(token, answer.value.meetingId, answer.value.participantId,
           TimeText(answer.value.expiresAt)));
         var (h2, outcome) := Bind(h1, BindRequest(meetingId, token, a.deviceId.value, signature), got, wrote);
         && (outcome.Bound? <==> got <= issued + 30_000 && meetingId in h.meetings)
         && (outcome.Bound? ==> token !in h2.tokens)
         && (outcome.Bound? ==>
              h2.participants == h.participants[participantId :=
                h.participants[participantId].(deviceId := a.deviceId, boundAt := Some(wrote), trust := Verified)])
  {
    var (h1, answer) := IssueJoinToken(h, token, meetingId, participantId, base, issued);
    assert BindingLines(a, BindingTuple(token, meetingId, participantId, TimeText(answer.value.expiresAt)))
      == [token, meetingId, participantId, a.deviceId.value, TimeText(answer.value.expiresAt)];
  }

  // ---- What a call returns, writes and logs ----

  /** The signature verifies under the row's key for exactly the ten lines of the challenge. */
  predicate SignsLines(row: Device, c: Challenge, s: Signature) {
    Verify(row.publicKey, Join(["troofai-v1", c.id, c.tenantId, c.deviceId, c.userId, c.meetingId, c.participantId,
                                c.nonce, TimeText(c.issuedAt), TimeText(c.expiresAt)]), s)
  }

  /** The audit entry of a verdict, field by field. */
  predicate VerdictEntry(e: AuditEvent, q: Response, c: Challenge, row: Device, outcome: VerifyOutcome) {
    && outcome.Verdict? && e.detail.ChallengeJudged?
    && e.detail.signatureValid == outcome.valid && e.detail.status == outcome.status
    && (e.detail.passed <==> outcome.status == Verified)
    && e.detail.challengeId == q.challengeId && e.detail.deviceId == q.deviceId
    && e.detail.participantId == c.participantId && e.detail.hardwareBound == row.hardwareBound
    && e.actor == c.userId && e.tenantId == c.tenantId && e.meetingId == Some(c.meetingId)
  }

  /** A call that ends in a verdict: its answer, the row, the log entry, the notice, and nothing else but the DEL. */
  lemma VerdictRecorded(h: Hub, q: Response, t: Readings)
    requires Judge(h, q, t).1.Verdict?
    ensures q.challengeId in h.challenges && q.deviceId in h.devices
    ensures var (h', outcome) := Judge(h, q, t);
      var c := h.challenges[q.challengeId].value;
      && c.participantId in h.participants
      && outcome.valid == SignsLines(h.devices[q.deviceId], c, q.signature)
      && |h'.audit| == |h.audit| + 1 && h'.audit[..|h.audit|] == h.audit
      && VerdictEntry(h'.audit[|h.audit|], q, c, h.devices[q.deviceId], outcome)
      && h' == h.(
           challenges := h.challenges - {q.challengeId},
           participants := h.participants[c.participantId :=
             h.participants[c.participantId].(trust := outcome.status, lastChallengeAt := Some(t.judged))],
           audit := h'.audit,
           notices := h.notices + [MeetingUpdate(c.meetingId, c.participantId, outcome.status)])
  {
  }

  /** Which answer a verifying call gives, and that without a verdict it leaves everything but a deleted challenge. */
  lemma WhichVerdict(h: Hub, q: Response, t: Readings)
    ensures var (h', outcome) := Judge(h, q, t);
      var found := Lookup(h.challenges, q.challengeId, t.got);
      && (outcome.NotFound? <==> found.None?)
      && (outcome.DeviceMismatch? <==> found.Some? && found.value.deviceId != q.deviceId)
      && (outcome.DeviceMissing? <==> found.Some? && found.value.deviceId == q.deviceId && q.deviceId !in h.devices)
      && (outcome.ParticipantMissing? <==>
            && found.Some? && found.value.deviceId == q.deviceId && q.deviceId in h.devices
            && found.value.participantId !in h.participants)
      && (outcome.NotFound? || outcome.DeviceMismatch? || outcome.DeviceMissing? ==> h' == h)
      && (outcome.ParticipantMissing? ==> h' == h.(challenges := h.challenges - {q.challengeId}))
  {
  }

  /** The signature verifies under the row's key for exactly the five lines of the binding. */
  predicate SignsBinding(row: Device, q: BindRequest, held: JoinToken) {
    Verify(row.publicKey, Join([q.token, q.meetingId, held.participantId, q.deviceId, TimeText(held.expiresAt)]),
           q.signature)
  }

  /** The audit entry of a binding, field by field. */
  predicate BindingEntry(e: AuditEvent, q: BindRequest, held: JoinToken, row: Device) {
    && e.detail == DeviceBound(held.participantId, q.deviceId, row.hardwareBound)
    && e.actor == row.userId && e.meetingId == Some(q.meetingId)
  }

  /** Which answer a binding call gives, and what it has written by then. */
  lemma WhichBinding(h: Hub, q: BindRequest, got: nat, wrote: nat)
    ensures var (h', outcome) := Bind(h, q, got, wrote);
      var found := Lookup(h.tokens, q.token, got);
      && (outcome.TokenInvalid? <==> found.None?)
      && (outcome.MeetingMismatch? <==> found.Some? && found.value.meetingId != q.meetingId)
      && (outcome.NotEnrolled? <==>
            found.Some? && found.value.meetingId == q.meetingId && q.deviceId !in h.devices)
      && (outcome.BadSignature? <==>
            && found.Some? && found.value.meetingId == q.meetingId && q.deviceId in h.devices
            && !SignsBinding(h.devices[q.deviceId], q, found.value))
      && (outcome.TokenInvalid? || outcome.MeetingMismatch? || outcome.NotEnrolled? || outcome.BadSignature? ==>
            h' == h)
      && (outcome.ParticipantMissing? ==>
            h' == h.(tokens := h.tokens - {q.token}) && found.value.participantId !in h.participants)
      && (outcome.Bound? || outcome.MeetingMissing? ==>
            && found.value.participantId in h.participants
            && (outcome.Bound? <==> q.meetingId in h.meetings)
            && var row := h.participants[found.value.participantId].(
                 deviceId := Some(q.deviceId), boundAt := Some(wrote), trust := Verified);
               && h' == h.(tokens := h.tokens - {q.token}, audit := h'.audit,
                           participants := h.participants[found.value.participantId := row])
               && (outcome.Bound? ==>
                     && outcome.row == row && |h'.audit| == |h.audit| + 1 && h'.audit[..|h.audit|] == h.audit
                     && BindingEntry(h'.audit[|h.audit|], q, found.value, h.devices[q.deviceId])
                     && h'.audit[|h.audit|].tenantId == h.meetings[q.meetingId].tenantId)
               && (outcome.MeetingMissing? ==> h'.audit == h.audit))
  {
  }

  // ---- Decay ----

  /** VERIFIED above STALE above FAILED above no verdict. */
  function Rank(outcome: VerifyOutcome): nat {
    if !outcome.Verdict? then 0
    else match outcome.status
      case Verified => 3
      case Stale => 2
      case _ => 1
  }

  predicate NoEarlier(t: Readings, u: Readings) {
    t.got <= u.got && t.checked <= u.checked && t.judged <= u.judged
  }

  /** The same response to the same hub never gets a better verdict by arriving later. */
  lemma VerdictsDecay(h: Hub, q: Response, t: Readings, u: Readings)
    requires NoEarlier(t, u)
    ensures Rank(Judge(h, q, u).1) <= Rank(Judge(h, q, t).1)
  {
    if Live(h.challenges, q.challengeId, u.got) {
      var c := h.challenges[q.challengeId].value;
      assert Live(h.challenges, q.challengeId, t.got);
      if q.deviceId in h.devices {
        StatusDecays(c, h.devices[q.deviceId], q.signature, t, u);
      }
    }
  }

  lemma StatusDecays(c: Challenge, device: Device, signature: Signature, t: Readings, u: Readings)
    requires NoEarlier(t, u)
    ensures var before := StatusOf(c, t.checked > c.expiresAt, device, signature, t.judged);
      var after := StatusOf(c, u.checked > c.expiresAt, device, signature, u.judged);
      Rank(Verdict(after, true)) <= Rank(Verdict(before, true))
  {
  }

  /**
   Between the expiry and the end of the store's time to live, at least five
   seconds, every response from the right device is FAILED; after that there is
   no verdict and nothing changes.
   */
  lemma GraceThenNothing(h: Hub, q: Response, t: Readings, now: nat)
    requires Whole(h, now) && q.challengeId in h.challenges
    requires h.challenges[q.challengeId].value.deviceId == q.deviceId
      && t.checked > h.challenges[q.challengeId].value.expiresAt
    ensures var e := h.challenges[q.challengeId];
      && e.deadline.Some? && e.value.expiresAt + 5_000 <= e.deadline.value
      && (t.got <= e.deadline.value ==> Judge(h, q, t).1.Verdict? && Judge(h, q, t).1.status == Failed)
      && (t.got > e.deadline.value ==> Judge(h, q, t) == (h, NotFound))
  {
    assert Sound(h, h.challenges[q.challengeId].value);
  }
}
