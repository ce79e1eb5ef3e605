/** From the challenge an agent's client receives to the verdict its answer gets. */
module Answers {
  import opened Prelude
  import opened Framing
  import opened Crypto
  import opened Entities
  import opened ChallengeService
  import opened HubLaws
  import opened IssueLaws
  import opened Verdicts
  import opened WebSocketService
  import opened Processes
  import opened Fleet

  /** The message as the hub's gateway hands it on. */
  function Heard(m: ToHub): Response
    requires m.ChallengeResponse? && m.deviceId.Some?
  {
    Response(m.challengeId, m.deviceId.value, m.signature)
  }

  /**
   End to end: what the client of a running enrolled agent sends in answer to a
   challenge for its device is heard by the hub as a response that gets the exact
   verdict: valid when the last enrolment that rewrote the device's row carried the
   agent's key and its tenant and user are the right ones, and then VERIFIED, STALE
   or FAILED by the device's status, the clock and the last heartbeat.
   */
  lemma RunningAgentAnswers(r: Run, i: nat, p: nat, l: Link, payload: Payload, id: string, t: Readings)
    requires Valid(r) && Running(r, i, p) && l.socket.Some? && l.deviceId == r.fleets[i].processes[p].deviceId
    requires var h := r.fleets[i].site.hub; var q := r.fleets[i].processes[p];
      && t.got == r.fleets[i].site.now && InOrder(t) && Storage.Live(h.challenges, id, t.got)
      && Conveys(payload, h.challenges[id].value) && Some(h.challenges[id].value.deviceId) == q.deviceId
      && AllClean(ChallengeLines(h.challenges[id].value)) && Clean(q.tenantId.GetOr("")) && Clean(q.userId.GetOr(""))
      && |payload.challengeId| >= 8 && |payload.meetingId| >= 8 && |payload.participantId| >= 8
    ensures var h := r.fleets[i].site.hub; var q := r.fleets[i].processes[p];
      var l' := Handled(l, Some(IdentityOf(q)), payload);
      && |l'.outbox| == |l.outbox| + 1
      && var m := l'.outbox[|l.outbox|].message;
         && m.ChallengeResponse? && m.deviceId.Some?
         && var c := h.challenges[id].value;
            && c.deviceId in h.devices && h.devices[c.deviceId].lastHeartbeat.Some?
            && c.meetingId in h.meetings && c.participantId in h.participants
            && RightVerdict(Judge(h, Heard(m), t).1,
                            LastKey(r, i, c.deviceId) == Some(Pub(q.loaded.key))
                            && q.tenantId.GetOr("") == h.meetings[c.meetingId].tenantId
                            && q.userId.GetOr("") == h.participants[c.participantId].userId,
                            h.devices[c.deviceId].status == Active, t.checked <= c.expiresAt,
                            t.judged - h.devices[c.deviceId].lastHeartbeat.value)
  {
    var h, q := r.fleets[i].site.hub, r.fleets[i].processes[p];
    var c := h.challenges[id].value;
    assert payload == PayloadOf(c);
    RunningAgentVerdict(r, i, p, id, t);
    assert c.id == id && h.devices[c.deviceId].lastHeartbeat.Some?;
  }
}
