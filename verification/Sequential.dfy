/** The hub with one handler call at a time: each call runs to its end before the next. */
module Sequential {
  import opened Prelude
  import opened Entities
  import opened Storage
  import opened DeviceService
  import opened MeetingService
  import opened ChallengeService
  import opened HubLaws
  import opened IssueLaws

  /** `used` are the random ids drawn so far. */
  datatype Site = Site(now: nat, hub: Hub, used: set<string>)

  datatype Call =
    | Wait(until: nat)
    | DoRevoke(deviceId: string)
    | DoEnroll(dto: EnrollDto)
    | DoBeat(deviceId: string)
    | DoCreate(meetingId: string, tenantId: string, name: string)
    | DoJoin(participantId: string, meetingId: string, userId: string, displayName: string)
    | DoIssueToken(token: string, tokenMeeting: string, tokenParticipant: string, base: nat)
    | DoBind(bind: BindRequest, wrote: nat)
    | DoIssue(round: Round, ended: nat)
    | DoVerify(response: Response, readings: Readings)

  ghost predicate RoundOk(s: Site, r: Round, ended: nat) {
    && s.now <= ended
    && r.meetingId in s.hub.meetings && r.tenantId == s.hub.meetings[r.meetingId].tenantId
    && Listing(s.hub, r.meetingId, r.rows)
    && |r.draws| == |r.rows|
    && (forall i :: 0 <= i < |r.draws| ==> r.draws[i].id !in s.used && DrawOk(r.draws[i], ended))
    && (forall i, j :: 0 <= i < j < |r.draws| ==> r.draws[i].id != r.draws[j].id)
  }

  ghost predicate Enabled(s: Site, c: Call) {
    match c
    case DoCreate(m, _, _) => m !in s.hub.meetings
    case DoJoin(p, _, _, _) => p !in s.hub.participants
    case DoIssueToken(t, _, _, base) => t !in s.used && base <= s.now
    case Wait(until) => s.now <= until
    case DoBind(_, wrote) => s.now <= wrote
    case DoIssue(r, ended) => RoundOk(s, r, ended)
    case DoVerify(_, t) => t.got == s.now && InOrder(t)
    case _ => true
  }

  function NowAfter(s: Site, c: Call): nat {
    match c
    case Wait(until) => until
    case DoBind(_, wrote) => wrote
    case DoIssue(_, ended) => ended
    case DoVerify(_, t) => t.judged
    case _ => s.now
  }

  /** The calls that are over in an instant. */
  predicate Brief(c: Call) {
    c.DoRevoke? || c.DoEnroll? || c.DoBeat? || c.DoCreate? || c.DoJoin? || c.DoIssueToken?
  }

  function BriefAfter(s: Site, c: Call): Hub
    requires Brief(c)
  {
    match c
    case DoRevoke(d) => Revoke(s.hub, d)
    case DoEnroll(dto) => Enroll(s.hub, dto, s.now).0
    case DoBeat(d) => Heartbeat(s.hub, d, s.now)
    case DoCreate(m, tenant, name) => CreateMeeting(s.hub, m, tenant, name).0
    case DoJoin(p, m, user, name) => AddParticipant(s.hub, p, m, user, name).0
    case DoIssueToken(t, m, p, base) => IssueJoinToken(s.hub, t, m, p, base, s.now).0
  }

  ghost function HubAfter(s: Site, c: Call): Hub
    requires Enabled(s, c)
  {
    if Brief(c) then BriefAfter(s, c)
    else if c.DoBind? then Bind(s.hub, c.bind, s.now, c.wrote).0
    else if c.DoIssue? then IssueUpTo(s.hub, c.round, |c.round.rows|).0
    else if c.DoVerify? then Judge(s.hub, c.response, c.readings).0
    else s.hub
  }

  function UsedAfter(s: Site, c: Call): set<string> {
    match c
    case DoIssueToken(t, _, _, _) => s.used + {t}
    case DoIssue(r, _) => s.used + set d | d in r.draws :: d.id
    case _ => s.used
  }

  ghost function Next(s: Site, c: Call): Site
    requires Enabled(s, c)
  {
    Site(NowAfter(s, c), HubAfter(s, c), UsedAfter(s, c))
  }

  datatype Run = Run(sites: seq<Site>, calls: seq<Call>)

  ghost predicate Initial(s: Site) {
    s.hub == Hub(s.hub.tenants, map[], map[], map[], map[], map[], [], [])
  }

  ghost predicate StepAt(r: Run, i: nat)
    requires i < |r.calls| && |r.sites| == |r.calls| + 1
  {
    Enabled(r.sites[i], r.calls[i]) && r.sites[i + 1] == Next(r.sites[i], r.calls[i])
  }

  ghost predicate Valid(r: Run) {
    && |r.sites| == |r.calls| + 1
    && Initial(r.sites[0])
    && forall i :: 0 <= i < |r.calls| ==> StepAt(r, i)
  }

  ghost predicate KeysUsed(s: Site) {
    && (forall id :: id in s.hub.challenges ==> id in s.used)
    && (forall t :: t in s.hub.tokens ==> t in s.used)
  }

  ghost predicate Inv(s: Site) {
    Whole(s.hub, s.now) && KeysUsed(s)
  }

  lemma BriefStep(s: Site, c: Call)
    requires Inv(s) && Enabled(s, c) && Brief(c)
    ensures Whole(BriefAfter(s, c), s.now) && Grows(s.hub, BriefAfter(s, c))
  {
    match c
    case DoRevoke(d) => RevokeKeeps(s.hub, d, s.now);
    case DoEnroll(dto) => EnrollKeeps(s.hub, dto, s.now);
    case DoBeat(d) => HeartbeatKeeps(s.hub, d, s.now);
    case DoCreate(m, tenant, name) => CreateMeetingKeeps(s.hub, m, tenant, name, s.now);
    case DoJoin(p, m, user, name) => AddParticipantKeeps(s.hub, p, m, user, name, s.now);
    case DoIssueToken(t, m, p, base) => IssueJoinTokenKeeps(s.hub, t, m, p, base, s.now);
  }

  lemma HubStep(s: Site, c: Call)
    requires Inv(s) && Enabled(s, c)
    ensures Whole(HubAfter(s, c), NowAfter(s, c)) && Grows(s.hub, HubAfter(s, c))
  {
    if Brief(c) {
      BriefStep(s, c);
    } else if c.DoBind? {
      BindKeeps(s.hub, c.bind, s.now, c.wrote);
    } else if c.DoIssue? {
      RoundKeeps(s, c.round, c.ended);
    } else if c.DoVerify? {
      JudgeKeeps(s.hub, c.response, c.readings);
    } else {
      WholeLater(s.hub, s.now, NowAfter(s, c));
    }
  }

  lemma RoundKeeps(s: Site, r: Round, ended: nat)
    requires Inv(s) && RoundOk(s, r, ended)
    ensures var h' := IssueUpTo(s.hub, r, |r.rows|).0; Whole(h', ended) && Grows(s.hub, h')
  {
    WholeLater(s.hub, s.now, ended);
    forall i | 0 <= i < |r.rows|
      ensures RowHolds(s.hub, r.meetingId, r.tenantId, r.rows[i])
    {
      ListingHolds(s.hub, r.meetingId, r.rows, i);
    }
    IssueUpToKeeps(s.hub, r, |r.rows|, ended);
  }

  // ---- Stored keys ----

  /** The token test of `bindDevice`, up to the point where it deletes the token. */
  predicate Accepted(h: Hub, q: BindRequest, got: nat) {
    && Live(h.tokens, q.token, got)
    && h.tokens[q.token].value.meetingId == q.meetingId
    && q.deviceId in h.devices
    && BindSigned(q, h.tokens[q.token].value, h.devices[q.deviceId])
  }

  /** The tests of `verifyResponse`, up to the point where it deletes the challenge. */
  predicate Taken(h: Hub, q: Response, got: nat) {
    && Live(h.challenges, q.challengeId, got)
    && h.challenges[q.challengeId].value.deviceId == q.deviceId
    && q.deviceId in h.devices
  }

  lemma BindKeys(h: Hub, q: BindRequest, got: nat, wrote: nat)
    ensures var h' := Bind(h, q, got, wrote).0;
      && h'.challenges == h.challenges
      && h'.tokens == if Accepted(h, q, got) then Drop(h.tokens, q.token) else h.tokens
  {
  }

  lemma JudgeKeys(h: Hub, q: Response, t: Readings)
    ensures var h' := Judge(h, q, t).0;
      && h'.tokens == h.tokens
      && h'.challenges == if Taken(h, q, t.got) then Drop(h.challenges, q.challengeId) else h.challenges
  {
  }

  lemma RoundKeys(s: Site, r: Round, ended: nat)
    requires Inv(s) && RoundOk(s, r, ended)
    ensures var h' := IssueUpTo(s.hub, r, |r.rows|).0;
      && h'.tokens == s.hub.tokens
      && (forall id :: id in s.hub.challenges ==> id in h'.challenges && h'.challenges[id] == s.hub.challenges[id])
      && (forall id :: id in h'.challenges && id !in s.hub.challenges ==>
            exists i :: 0 <= i < |r.draws| && id == r.draws[i].id)
  {
    KeysOfLoop(s.hub, r, |r.rows|);
    ResultsOfLoop(s.hub, r, |r.rows|);
    var h' := IssueUpTo(s.hub, r, |r.rows|).0;
    assert forall id :: id in h'.challenges && id !in s.hub.challenges ==> DrawnFor(r, |r.rows|, id);
  }

  lemma BriefKeys(s: Site, c: Call)
    requires Brief(c)
    ensures BriefAfter(s, c).challenges == s.hub.challenges
    ensures !c.DoIssueToken? ==> BriefAfter(s, c).tokens == s.hub.tokens
  {
  }

  /** A token in the store was there before, or the call is the one that issued it. */
  lemma TokensStep(s: Site, c: Call, t: string)
    requires Inv(s) && Enabled(s, c) && t in HubAfter(s, c).tokens
    ensures (t in s.hub.tokens && HubAfter(s, c).tokens[t] == s.hub.tokens[t])
      || (c.DoIssueToken? && t == c.token
          && HubAfter(s, c).tokens[t] ==
               Expiring(JoinToken(c.tokenMeeting, c.tokenParticipant, c.base + TOKEN_LIFE_MS), Some(s.now + 30_000)))
  {
    if Brief(c) {
      BriefKeys(s, c);
    } else if c.DoBind? {
      BindKeys(s.hub, c.bind, s.now, c.wrote);
    } else if c.DoIssue? {
      RoundKeys(s, c.round, c.ended);
    } else if c.DoVerify? {
      JudgeKeys(s.hub, c.response, c.readings);
    }
  }

  lemma RoundChallenge(s: Site, r: Round, ended: nat, id: string)
    requires Inv(s) && RoundOk(s, r, ended) && id in IssueUpTo(s.hub, r, |r.rows|).0.challenges
    ensures (id in s.hub.challenges && IssueUpTo(s.hub, r, |r.rows|).0.challenges[id] == s.hub.challenges[id])
      || (id !in s.used && id in UsedAfter(s, DoIssue(r, ended)))
  {
    RoundKeys(s, r, ended);
    if id !in s.hub.challenges {
      var i :| 0 <= i < |r.draws| && id == r.draws[i].id;
      assert r.draws[i] in r.draws;
    }
  }

  /** A challenge in the store was there before, or the call drew its id. */
  lemma ChallengesStep(s: Site, c: Call, id: string)
    requires Inv(s) && Enabled(s, c) && id in HubAfter(s, c).challenges
    ensures (id in s.hub.challenges && HubAfter(s, c).challenges[id] == s.hub.challenges[id])
      || (id !in s.used && id in UsedAfter(s, c))
  {
    if Brief(c) {
      BriefKeys(s, c);
    } else if c.DoBind? {
      BindKeys(s.hub, c.bind, s.now, c.wrote);
    } else if c.DoIssue? {
      RoundChallenge(s, c.round, c.ended, id);
    } else if c.DoVerify? {
      JudgeKeys(s.hub, c.response, c.readings);
    }
  }

  lemma KeysStep(s: Site, c: Call)
    requires Inv(s) && Enabled(s, c)
    ensures KeysUsed(Next(s, c))
  {
    forall id | id in HubAfter(s, c).challenges
      ensures id in UsedAfter(s, c)
    {
      ChallengesStep(s, c, id);
    }
    forall t | t in HubAfter(s, c).tokens
      ensures t in UsedAfter(s, c)
    {
      TokensStep(s, c, t);
    }
  }

  // ---- Runs ----

  lemma {:induction false} Reachable(r: Run, i: nat)
    requires Valid(r) && i < |r.sites|
    ensures Inv(r.sites[i])
  {
    if i > 0 {
      Reachable(r, i - 1);
      assert StepAt(r, i - 1);
      HubStep(r.sites[i - 1], r.calls[i - 1]);
      KeysStep(r.sites[i - 1], r.calls[i - 1]);
    }
  }

  lemma StepBack(r: Run, i: nat)
    requires Valid(r) && 0 < i < |r.sites|
    ensures Enabled(r.sites[i - 1], r.calls[i - 1]) && r.sites[i] == Next(r.sites[i - 1], r.calls[i - 1])
    ensures Inv(r.sites[i - 1])
  {
    assert StepAt(r, i - 1);
    Reachable(r, i - 1);
  }

  lemma {:induction false} ClockForward(r: Run, i: nat, j: nat)
    requires Valid(r) && i <= j < |r.sites|
    ensures r.sites[i].now <= r.sites[j].now
    decreases j
  {
    if i < j {
      ClockForward(r, i, j - 1);
      StepBack(r, j);
    }
  }

  lemma {:induction false} UsedForever(r: Run, i: nat, j: nat, id: string)
    requires Valid(r) && i <= j < |r.sites| && id in r.sites[i].used
    ensures id in r.sites[j].used
    decreases j
  {
    if i < j {
      UsedForever(r, i, j - 1, id);
      StepBack(r, j);
    }
  }

  lemma {:induction false} ChallengeGone(r: Run, i: nat, j: nat, id: string)
    requires Valid(r) && i <= j < |r.sites| && id in r.sites[i].used && id !in r.sites[i].hub.challenges
    ensures id !in r.sites[j].hub.challenges
    decreases j
  {
    if i < j {
      ChallengeGone(r, i, j - 1, id);
      UsedForever(r, i, j - 1, id);
      StepBack(r, j);
      if id in r.sites[j].hub.challenges {
        ChallengesStep(r.sites[j - 1], r.calls[j - 1], id);
      }
    }
  }

  lemma {:induction false} TokenGone(r: Run, i: nat, j: nat, t: string)
    requires Valid(r) && i <= j < |r.sites| && t in r.sites[i].used && t !in r.sites[i].hub.tokens
    ensures t !in r.sites[j].hub.tokens
    decreases j
  {
    if i < j {
      TokenGone(r, i, j - 1, t);
      UsedForever(r, i, j - 1, t);
      StepBack(r, j);
      if t in r.sites[j].hub.tokens {
        TokensStep(r.sites[j - 1], r.calls[j - 1], t);
      }
    }
  }
}
