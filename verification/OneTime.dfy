/** Challenges and join tokens are used once, and only inside their window. */
module OneTime {
  import opened Prelude
  import opened Entities
  import opened MeetingService
  import opened ChallengeService
  import opened Sequential

  ghost predicate Position(r: Run, i: int) {
    |r.sites| == |r.calls| + 1 && 0 <= i < |r.calls|
  }

  /** Call `i` judges challenge `id`. */
  ghost predicate VerdictAt(r: Run, i: int, id: string) {
    && Position(r, i)
    && r.calls[i].DoVerify? && r.calls[i].response.challengeId == id
    && Judge(r.sites[i].hub, r.calls[i].response, r.calls[i].readings).1.Verdict?
  }

  /** Call `i` binds a device with token `t`: the row is written, whether or not the meeting is found after it. */
  ghost predicate BoundAt(r: Run, i: int, t: string) {
    && Position(r, i)
    && r.calls[i].DoBind? && r.calls[i].bind.token == t
    && Accepted(r.sites[i].hub, r.calls[i].bind, r.sites[i].now)
  }

  /** Call `i` issues token `t` for this meeting and participant. */
  ghost predicate IssuedAt(r: Run, i: int, t: string, tokenMeeting: string, participantId: string) {
    && Position(r, i)
    && r.calls[i].DoIssueToken? && r.calls[i].token == t
    && r.calls[i].tokenMeeting == tokenMeeting && r.calls[i].tokenParticipant == participantId
  }

  /** At most one verdict a challenge. */
  lemma OneVerdict(r: Run, i: int, j: int, id: string)
    requires Valid(r) && VerdictAt(r, i, id) && VerdictAt(r, j, id)
    ensures i == j
  {
    if i < j {
      VerdictRetires(r, i, j, id);
    } else if j < i {
      VerdictRetires(r, j, i, id);
    }
  }

  lemma VerdictRetires(r: Run, i: int, j: int, id: string)
    requires Valid(r) && VerdictAt(r, i, id) && i < j < |r.sites|
    ensures id !in r.sites[j].hub.challenges
  {
    StepBack(r, i + 1);
    UsedForever(r, i, i + 1, id);
    JudgeKeys(r.sites[i].hub, r.calls[i].response, r.calls[i].readings);
    ChallengeGone(r, i + 1, j, id);
  }

  /** At most one binding a token. */
  lemma OneBinding(r: Run, i: int, j: int, t: string)
    requires Valid(r) && BoundAt(r, i, t) && BoundAt(r, j, t)
    ensures i == j
  {
    if i < j {
      BindingRetires(r, i, j, t);
    } else if j < i {
      BindingRetires(r, j, i, t);
    }
  }

  lemma BindingRetires(r: Run, i: int, j: int, t: string)
    requires Valid(r) && BoundAt(r, i, t) && i < j < |r.sites|
    ensures t !in r.sites[j].hub.tokens
  {
    StepBack(r, i + 1);
    UsedForever(r, i, i + 1, t);
    BindKeys(r.sites[i].hub, r.calls[i].bind, r.sites[i].now, r.calls[i].wrote);
    TokenGone(r, i + 1, j, t);
  }

  lemma {:induction false} TokenIssued(r: Run, i: nat, t: string)
    requires Valid(r) && i < |r.sites| && t in r.sites[i].hub.tokens
    ensures var e := r.sites[i].hub.tokens[t];
      exists s :: s < i && IssuedAt(r, s, t, e.value.meetingId, e.value.participantId)
        && e.deadline == Some(r.sites[s].now + 30_000)
  {
    StepBack(r, i);
    TokensStep(r.sites[i - 1], r.calls[i - 1], t);
    var s := r.sites[i - 1];
    if t in s.hub.tokens && r.sites[i].hub.tokens[t] == s.hub.tokens[t] {
      TokenIssued(r, i - 1, t);
    } else {
      var e := r.sites[i].hub.tokens[t];
      assert IssuedAt(r, i - 1, t, e.value.meetingId, e.value.participantId);
    }
  }

  /**
   A binding uses a token issued at most thirty seconds before, for the meeting
   of the request, and it is the token's own participant that gets the device.
   */
  lemma BindingInWindow(r: Run, i: int, t: string)
    requires Valid(r) && BoundAt(r, i, t)
    ensures exists s, p ::
      && s < i && IssuedAt(r, s, t, r.calls[i].bind.meetingId, p)
      && r.sites[s].now <= r.sites[i].now <= r.sites[s].now + 30_000
      && p in r.sites[i + 1].hub.participants
      && r.sites[i + 1].hub.participants[p].deviceId == Some(r.calls[i].bind.deviceId)
      && r.sites[i + 1].hub.participants[p].trust == Verified
  {
    StepBack(r, i + 1);
    TokenIssued(r, i, t);
    var e := r.sites[i].hub.tokens[t];
    var s :| s < i && IssuedAt(r, s, t, e.value.meetingId, e.value.participantId)
      && e.deadline == Some(r.sites[s].now + 30_000);
    ClockForward(r, s, i);
    BindWrites(r.sites[i].hub, r.calls[i].bind, r.sites[i].now, r.calls[i].wrote);
  }

  lemma BindWrites(h: Hub, q: BindRequest, got: nat, wrote: nat)
    requires Accepted(h, q, got) && h.tokens[q.token].value.participantId in h.participants
    ensures var p := h.tokens[q.token].value.participantId; var h' := Bind(h, q, got, wrote).0;
      p in h'.participants && h'.participants[p].deviceId == Some(q.deviceId) && h'.participants[p].trust == Verified
  {
  }

  /** No accepted binding between two moments uses token `t`. */
  ghost predicate Unspent(r: Run, i: nat, j: nat, t: string)
    requires Valid(r)
  {
    forall m :: i <= m < j && m < |r.calls| ==>
      !(r.calls[m].DoBind? && r.calls[m].bind.token == t && Accepted(r.sites[m].hub, r.calls[m].bind, r.sites[m].now))
  }

  /** A token that nobody spends stays as it was issued, through any other calls and any rejected bindings. */
  lemma {:induction false} TokenSurvives(r: Run, i: nat, j: nat, t: string)
    requires Valid(r) && i <= j < |r.sites| && t in r.sites[i].hub.tokens && Unspent(r, i, j, t)
    ensures t in r.sites[j].hub.tokens && r.sites[j].hub.tokens[t] == r.sites[i].hub.tokens[t]
    decreases j
  {
    if i < j {
      TokenSurvives(r, i, j - 1, t);
      StepBack(r, j);
      TokenStays(r.sites[j - 1], r.calls[j - 1], t);
    }
  }

  lemma TokenStays(s: Site, c: Call, t: string)
    requires Inv(s) && Enabled(s, c) && t in s.hub.tokens
    requires !(c.DoBind? && c.bind.token == t && Accepted(s.hub, c.bind, s.now))
    ensures t in HubAfter(s, c).tokens && HubAfter(s, c).tokens[t] == s.hub.tokens[t]
  {
    if Brief(c) {
      BriefKeys(s, c);
    } else if c.DoBind? {
      BindKeys(s.hub, c.bind, s.now, c.wrote);
    } else if c.DoIssue? {
      RoundKeys(s, c.round, c.ended);
    } else if c.DoVerify? {
      JudgeKeys(s.hub, c.response, c.readings);
    }
  }

  /** A rejected binding changes nothing at all. */
  lemma RejectedBindIsInert(h: Hub, q: BindRequest, got: nat, wrote: nat)
    ensures Bind(h, q, got, wrote).0 == h <==> !Accepted(h, q, got)
  {
    BindKeys(h, q, got, wrote);
    if Accepted(h, q, got) {
      assert q.token !in Bind(h, q, got, wrote).0.tokens;
    }
  }

  /** A correct binding in the window succeeds, however many rejected ones came before it. */
  lemma LaterBindSucceeds(r: Run, i: nat, j: nat, q: BindRequest, wrote: nat)
    requires Valid(r) && i <= j < |r.sites| && q.token in r.sites[i].hub.tokens && Unspent(r, i, j, q.token)
    requires var e := r.sites[i].hub.tokens[q.token];
      && e.value.meetingId == q.meetingId && q.meetingId in r.sites[j].hub.meetings
      && (e.deadline.Some? ==> r.sites[j].now <= e.deadline.value)
      && q.deviceId in r.sites[j].hub.devices
      && BindSigned(q, e.value, r.sites[j].hub.devices[q.deviceId])
    ensures Bind(r.sites[j].hub, q, r.sites[j].now, wrote).1.Bound?
  {
    TokenSurvives(r, i, j, q.token);
    Reachable(r, j);
  }
}
