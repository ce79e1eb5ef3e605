/** What the gateway is told, and the rows and tokens the rest rests on: where each comes from. */
module Notified {
  import opened Entities
  import opened MeetingService
  import opened ChallengeService
  import opened HubLaws
  import opened IssueLaws
  import opened Interleaved
  import opened CallHistory
  import opened BindHistory
  import opened Provenance

  // ---- Gateway calls ----

  /** A challenge goes to the device it was stored for, as it was stored. */
  ghost predicate FromStored(r: Run, n: int, d: string, payload: Payload) {
    && Position(r, n)
    && exists s, k, c :: s < n && r.steps[n] == IssueLogs(k) && StoredFor(r, s, k, c)
         && d == c.deviceId && Conveys(payload, c)
  }

  /** A dashboard is told the outcome of a call about this participant of this meeting. */
  ghost predicate FromOutcome(r: Run, n: int, m: string, p: string, status: TrustStatus) {
    exists f, g, j, k, q, c, row, valid :: j < n
      && Trail(r, f, g, j, k, q, c, row, status, valid) && EndsAt(r, n, k, q, Verdict(status, valid))
      && c.meetingId == m && c.participantId == p
  }

  /** Or that the participant had no usable device. */
  ghost predicate FromRefusal(r: Run, n: int, m: string, p: string, status: TrustStatus) {
    && Position(r, n) && status == Failed
    && p in r.worlds[n].hub.participants && r.worlds[n].hub.participants[p].meetingId == m
    && exists s, k :: s < n && r.steps[n] == IssueLogs(k) && FailsFor(r, s, k, p)
  }

  ghost predicate Meant(r: Run, n: int, notice: Notice) {
    match notice
    case ChallengeToDevice(d, payload) => FromStored(r, n, d, payload)
    case MeetingUpdate(m, p, status) => FromOutcome(r, n, m, p, status) || FromRefusal(r, n, m, p, status)
  }

  /** Step `n` tells the gateway nothing, or one thing that it means. */
  ghost predicate Tells(r: Run, n: int)
    requires Valid(r) && Position(r, n)
  {
    var (told, told') := (r.worlds[n].hub.notices, r.worlds[n + 1].hub.notices);
    told' == told || (|told'| == |told| + 1 && told'[..|told|] == told && Meant(r, n, told'[|told|]))
  }

  lemma TellsOne(r: Run, n: nat, notice: Notice)
    requires Valid(r) && Position(r, n) && Meant(r, n, notice)
    requires r.worlds[n + 1].hub.notices == r.worlds[n].hub.notices + [notice]
    ensures Tells(r, n)
  {
  }

  lemma NoticeOfVerify(h: Hub, q: Response, pc: VerifyPc, now: nat)
    requires !pc.Finished?
    ensures var h' := VerifyNext(h, q, pc, now).0;
      h'.notices == h.notices +
        if pc.Updated? then [MeetingUpdate(pc.held.meetingId, pc.held.participantId, pc.status)] else []
  {
  }

  lemma OutcomeTold(r: Run, n: nat, k: nat)
    requires Valid(r) && Position(r, n) && r.steps[n] == VerifyContinues(k) && k in r.worlds[n].verifies
    requires r.worlds[n].verifies[k].pc.Updated?
    ensures var pc := r.worlds[n].verifies[k].pc;
      FromOutcome(r, n, pc.held.meetingId, pc.held.participantId, pc.status)
  {
    var q, pc := r.worlds[n].verifies[k].q, r.worlds[n].verifies[k].pc;
    EndsWith(r, n, k);
    CallDecided(r, n, k);
    var f, g, j :| j < n && Trail(r, f, g, j, k, q, pc.held, pc.device, pc.status, pc.valid);
  }

  lemma VerdictTells(r: Run, n: nat)
    requires Valid(r) && Position(r, n) && r.steps[n].VerifyContinues?
    ensures Tells(r, n)
  {
    HubAt(r, n);
    var w, k := r.worlds[n], r.steps[n].call;
    var pc := w.verifies[k].pc;
    NoticeOfVerify(w.hub, w.verifies[k].q, pc, w.now);
    if pc.Updated? {
      OutcomeTold(r, n, k);
      TellsOne(r, n, MeetingUpdate(pc.held.meetingId, pc.held.participantId, pc.status));
    }
  }

  lemma PendingHolds(r: Run, i: nat, k: nat)
    requires Valid(r) && i < |r.worlds| && k in r.worlds[i].issues && r.worlds[i].issues[k].pending != []
    ensures var c := r.worlds[i].issues[k]; RowHolds(r.worlds[i].hub, c.meetingId, c.tenantId, c.pending[0])
  {
    Reachable(r, i);
  }

  lemma RefusalMeant(r: Run, n: nat, k: nat)
    requires Valid(r) && Position(r, n) && r.steps[n] == IssueLogs(k) && k in r.worlds[n].issues
    requires r.worlds[n].issues[k].pc.Failing? && r.worlds[n].issues[k].pending != []
    ensures var c := r.worlds[n].issues[k]; FromRefusal(r, n, c.meetingId, c.pending[0].id, Failed)
  {
    TurnUnderWay(r, n, k);
    PendingHolds(r, n, k);
  }

  lemma ChallengeMeant(r: Run, n: nat, k: nat)
    requires Valid(r) && Position(r, n) && r.steps[n] == IssueLogs(k) && k in r.worlds[n].issues
    requires r.worlds[n].issues[k].pc.Announcing?
    ensures var c := r.worlds[n].issues[k].pc.c; FromStored(r, n, c.deviceId, PayloadOf(c))
  {
    var c := r.worlds[n].issues[k].pc.c;
    TurnUnderWay(r, n, k);
    var s :| s < n && StoredFor(r, s, k, c);
    assert Conveys(PayloadOf(c), c);
  }

  lemma IssueTells(r: Run, n: nat)
    requires Valid(r) && Position(r, n) && r.steps[n].IssueLogs?
    ensures Tells(r, n)
  {
    HubAt(r, n);
    var k := r.steps[n].call;
    var c := r.worlds[n].issues[k];
    match c.pc
    case Failing =>
      RefusalMeant(r, n, k);
      TellsOne(r, n, MeetingUpdate(c.meetingId, c.pending[0].id, Failed));
    case Announcing(challenge) =>
      ChallengeMeant(r, n, k);
      TellsOne(r, n, ChallengeToDevice(challenge.deviceId, PayloadOf(challenge)));
  }

  lemma OthersSilent(w: World, s: Step)
    requires Enabled(w, s) && !s.VerifyContinues? && !s.IssueLogs?
    ensures HubAfter(w, s).notices == w.hub.notices
  {
    if s.BindContinues? {
      NoticesKeptByBind(w.hub, w.binds[s.call].q, w.binds[s.call].pc, w.now);
    }
  }

  lemma NoticesKeptByBind(h: Hub, q: BindRequest, pc: BindPc, now: nat)
    requires !pc.BindFinished?
    ensures BindNext(h, q, pc, now).0.notices == h.notices
  {
  }

  lemma StepTells(r: Run, n: nat)
    requires Valid(r) && Position(r, n)
    ensures Tells(r, n)
  {
    if r.steps[n].VerifyContinues? {
      VerdictTells(r, n);
    } else if r.steps[n].IssueLogs? {
      IssueTells(r, n);
    } else {
      HubAt(r, n);
      OthersSilent(r.worlds[n], r.steps[n]);
    }
  }

  ghost predicate ToldAt(r: Run, n: int, m: nat, notice: Notice) {
    && Position(r, n) && |r.worlds[n].hub.notices| == m && m < |r.worlds[n + 1].hub.notices|
    && r.worlds[n + 1].hub.notices[m] == notice && Meant(r, n, notice)
  }

  /**
   In every reachable state, whatever ran at the same time: each call on the gateway
   was made by one step of the run, which means all of it. A device is sent exactly
   the challenges stored for it, as drawn; a dashboard hears exactly outcomes.
   */
  lemma {:induction false} EveryNoticeMeant(r: Run, i: nat, m: nat)
    requires Valid(r) && i < |r.worlds| && m < |r.worlds[i].hub.notices|
    ensures exists n :: n < i && ToldAt(r, n, m, r.worlds[i].hub.notices[m])
  {
    if i > 0 {
      StepTells(r, i - 1);
      var told, told' := r.worlds[i - 1].hub.notices, r.worlds[i].hub.notices;
      if m < |told| {
        EveryNoticeMeant(r, i - 1, m);
        assert told'[..|told|][m] == told'[m];
      } else {
        assert ToldAt(r, i - 1, m, told'[m]);
      }
    }
  }

  // ---- Participants and tokens ----

  /** Step `s` let the participant in, as the row still says. */
  ghost predicate JoinedAs(r: Run, s: int, p: string, row: Participant) {
    Position(r, s) && r.steps[s].Joins? && JoinsAt(r, s, r.steps[s].call, p, row.meetingId, row.userId, row.displayName)
  }

  lemma RowsOfVerify(h: Hub, q: Response, pc: VerifyPc, now: nat)
    requires !pc.Finished?
    ensures VerifyNext(h, q, pc, now).0.participants.Keys == h.participants.Keys
  {
  }

  lemma RowsOfBinding(h: Hub, q: BindRequest, pc: BindPc, now: nat)
    requires !pc.BindFinished?
    ensures BindNext(h, q, pc, now).0.participants.Keys == h.participants.Keys
  {
  }

  /** Only joining makes a row. */
  lemma NoNewRow(w: World, s: Step)
    requires Enabled(w, s) && !s.Joins?
    ensures HubAfter(w, s).participants.Keys == w.hub.participants.Keys
  {
    if s.VerifyContinues? {
      RowsOfVerify(w.hub, w.verifies[s.call].q, w.verifies[s.call].pc, w.now);
    } else if s.BindContinues? {
      RowsOfBinding(w.hub, w.binds[s.call].q, w.binds[s.call].pc, w.now);
    }
  }

  lemma NewRow(r: Run, i: nat, p: string)
    requires Valid(r) && Position(r, i)
    requires p in r.worlds[i + 1].hub.participants && p !in r.worlds[i].hub.participants
    ensures JoinedAs(r, i, p, r.worlds[i + 1].hub.participants[p])
  {
    HubAt(r, i);
    var s := r.steps[i];
    if s.Joins? {
      assert JoinsAt(r, i, s.call, p, s.meetingId, s.userId, s.displayName);
    } else {
      NoNewRow(r.worlds[i], s);
    }
  }

  /** Every participant is as it joined: meeting, user and name, in every reachable state. */
  lemma {:induction false} EveryRowJoined(r: Run, i: nat, p: string)
    requires Valid(r) && i < |r.worlds| && p in r.worlds[i].hub.participants
    ensures exists s :: s < i && JoinedAs(r, s, p, r.worlds[i].hub.participants[p])
  {
    if i > 0 {
      if p in r.worlds[i - 1].hub.participants {
        EveryRowJoined(r, i - 1, p);
        RunGrows(r, i - 1, i);
        var before, row := r.worlds[i - 1].hub.participants[p], r.worlds[i].hub.participants[p];
      assert ParticipantGrows(before, row);
      var s :| s < i - 1 && JoinedAs(r, s, p, before);
      assert JoinedAs(r, s, p, row);
      } else {
        NewRow(r, i - 1, p);
      }
    }
  }

  /** A stored token is as asked for: the meeting and the participant of the request, with thirty seconds to bind. */
  lemma TokenAsAsked(r: Run, s: int, t: string, held: JoinToken)
    requires Valid(r) && TokenStoredAt(r, s, t, held)
    ensures r.steps[s].participantId in r.worlds[s].hub.participants
    ensures held.meetingId == r.steps[s].meetingId && held.participantId == r.steps[s].participantId
    ensures held.expiresAt == r.steps[s].base + 30_000
  {
    HubAt(r, s);
    Reachable(r, s);
    assert t !in r.worlds[s].hub.tokens;
  }
}
