/**
 The audit log can be trusted entry by entry: each was written by one step of one
 call, and every field of it is what that call was asked, read and decided.
 */
module Provenance {
  import opened Prelude
  import opened Entities
  import opened DeviceService
  import opened MeetingService
  import opened ChallengeService
  import opened HubLaws
  import opened IssueLaws
  import opened Verdicts
  import opened Interleaved
  import opened CallHistory
  import opened BindHistory
  import opened Safety

  /** The entry names the meeting of participant `p`, and that meeting's tenant. */
  predicate Placed(h: Hub, p: string, e: AuditEvent) {
    && p in h.participants && h.participants[p].meetingId in h.meetings
    && e.meetingId == Some(h.participants[p].meetingId)
    && e.tenantId == h.meetings[h.participants[p].meetingId].tenantId
  }

  // ---- Verdicts ----

  /**
   Call `k` found `c` at step `f`, read the row at step `g` and decided at step `j`;
   its answer is right about the signature under that row.
   */
  ghost predicate Trail(r: Run, f: int, g: int, j: int, k: nat, q: Response, c: Challenge, row: Device,
                        status: TrustStatus, valid: bool) {
    && f < g < j && GetsAt(r, f, k, q, c) && ReadsAt(r, g, k, c, row) && JudgesAt(r, j, k, c, row, status)
    && valid == SignsLines(row, c, q.signature)
  }

  lemma GotBeforeRead(r: Run, f: int, g: int, k: nat, q: Response, c: Challenge, row: Device)
    requires Valid(r) && GetsAt(r, f, k, q, c) && ReadsAt(r, g, k, c, row)
    ensures f < g
  {
    BeginsNew(r, f);
    if g <= f {
      CallStays(r, g, f, k);
    }
  }

  /** The step at which a call decides: its trail is complete. */
  lemma JustDecided(r: Run, i: nat, k: nat)
    requires Valid(r) && 0 < i && InProgress(r, i, k) && InProgress(r, i - 1, k)
    requires r.steps[i - 1] == VerifyContinues(k) && r.worlds[i - 1].verifies[k].pc.Removed?
    requires r.worlds[i].verifies[k].pc.Judged? && r.worlds[i].verifies[k].q == r.worlds[i - 1].verifies[k].q
    ensures var call := r.worlds[i].verifies[k];
      exists f, g, j :: j < i
        && Trail(r, f, g, j, k, call.q, call.pc.held, call.pc.device, call.pc.status, call.pc.valid)
  {
    CallBefore(r, i, k);
    var q, pc := r.worlds[i].verifies[k].q, r.worlds[i].verifies[k].pc;
    CallGot(r, i - 1, k);
    CallRead(r, i - 1, k);
    var f :| f < i - 1 && GetsAt(r, f, k, q, pc.held);
    var g :| g < i - 1 && ReadsAt(r, g, k, pc.held, pc.device);
    GotBeforeRead(r, f, g, k, q, pc.held, pc.device);
    assert JudgesAt(r, i - 1, k, pc.held, pc.device, pc.status);
    assert Trail(r, f, g, i - 1, k, q, pc.held, pc.device, pc.status, pc.valid);
  }

  predicate Decided(pc: VerifyPc) {
    pc.Judged? || pc.Updated?
  }

  lemma NotJustBegun(r: Run, i: nat, k: nat)
    requires Valid(r) && 0 < i && InProgress(r, i, k) && !r.worlds[i].verifies[k].pc.Fetched?
    ensures !(r.steps[i - 1].VerifyBegins? && r.steps[i - 1].call == k)
  {
    assert StepAt(r, i - 1);
  }

  /** What was decided was decided by the last step, or before it. */
  lemma DecidedBefore(r: Run, i: nat, k: nat)
    requires Valid(r) && 0 < i && InProgress(r, i, k) && Decided(r.worlds[i].verifies[k].pc)
    ensures InProgress(r, i - 1, k) && Position(r, i - 1)
    ensures var (c, c') := (r.worlds[i - 1].verifies[k], r.worlds[i].verifies[k]);
      && c'.q == c.q
      && if Decided(c.pc)
         then c'.pc.held == c.pc.held && c'.pc.device == c.pc.device && c'.pc.status == c.pc.status
              && c'.pc.valid == c.pc.valid
         else r.steps[i - 1] == VerifyContinues(k) && c.pc.Removed? && c'.pc.Judged?
  {
    NotJustBegun(r, i, k);
    CallBefore(r, i, k);
  }

  lemma {:induction false} CallDecided(r: Run, i: nat, k: nat)
    requires Valid(r) && InProgress(r, i, k) && Decided(r.worlds[i].verifies[k].pc)
    ensures var call := r.worlds[i].verifies[k];
      exists f, g, j :: j < i
        && Trail(r, f, g, j, k, call.q, call.pc.held, call.pc.device, call.pc.status, call.pc.valid)
  {
    StepBackOrStart(r, i, k);
    DecidedBefore(r, i, k);
    if Decided(r.worlds[i - 1].verifies[k].pc) {
      CallDecided(r, i - 1, k);
    } else {
      JustDecided(r, i, k);
    }
  }

  /** Step `n` ends call `k` with this outcome. */
  ghost predicate EndsAt(r: Run, n: int, k: nat, q: Response, outcome: VerifyOutcome) {
    && Position(r, n) && r.steps[n] == VerifyContinues(k)
    && k in r.worlds[n + 1].verifies && r.worlds[n + 1].verifies[k] == VerifyCall(q, Finished(outcome))
  }

  /** The step ends a call with a verdict, and the entry is of that call: challenge, row, answer, place and user. */
  ghost predicate FromVerdict(r: Run, n: int, e: AuditEvent) {
    exists f, g, j, k, q, c, row, status, valid :: j < n
      && Trail(r, f, g, j, k, q, c, row, status, valid) && EndsAt(r, n, k, q, Verdict(status, valid))
      && VerdictEntry(e, q, c, row, Verdict(status, valid))
      && Placed(r.worlds[n].hub, c.participantId, e)
      && e.actor == r.worlds[n].hub.participants[c.participantId].userId
  }

  // ---- Bindings ----

  /** Step `g` is binding call `k` reading the device row. */
  ghost predicate RowReadBy(r: Run, g: int, k: nat, q: BindRequest, row: Device) {
    && Position(r, g) && r.steps[g] == BindContinues(k)
    && k in r.worlds[g].binds && r.worlds[g].binds[k].pc.BindFetched?
    && q.deviceId in r.worlds[g].hub.devices && r.worlds[g].hub.devices[q.deviceId] == row
  }

  /** Step `u` is binding call `k` writing the participant's row. */
  ghost predicate BindsRow(r: Run, u: int, k: nat, q: BindRequest, p: string) {
    && Position(r, u) && r.steps[u] == BindContinues(k)
    && p in r.worlds[u].hub.participants
    && r.worlds[u + 1].hub.participants == r.worlds[u].hub.participants[p := r.worlds[u].hub.participants[p].(
         deviceId := Some(q.deviceId), boundAt := Some(r.worlds[u].now), trust := Verified)]
  }

  /** The call found `held`, then read a row whose key signed the binding. */
  ghost predicate BindTrail(r: Run, f: int, g: int, k: nat, q: BindRequest, held: JoinToken, row: Device) {
    f < g && TokenReadAt(r, f, k, q, held) && RowReadBy(r, g, k, q, row) && SignsBinding(row, q, held)
  }

  lemma JustAccepted(r: Run, g: nat, k: nat, q: BindRequest, held: JoinToken, row: Device)
    requires Valid(r) && BindInProgress(r, g, k) && RowReadBy(r, g, k, q, row)
    requires r.worlds[g].binds[k].q == q && r.worlds[g].binds[k].pc.held == held && BindSigned(q, held, row)
    ensures exists f :: f < g && BindTrail(r, f, g, k, q, held, row)
  {
    BindGot(r, g, k);
    var f :| f < g && TokenReadAt(r, f, k, q, held);
    assert BindTrail(r, f, g, k, q, held, row);
  }

  /** A binding call past its row read was under way before the last step, which took it on or left it. */
  lemma BindBefore(r: Run, i: nat, k: nat)
    requires Valid(r) && 0 < i && BindInProgress(r, i, k) && !r.worlds[i].binds[k].pc.BindFetched?
    ensures BindInProgress(r, i - 1, k) && Position(r, i - 1)
    ensures var (c, c') := (r.worlds[i - 1].binds[k], r.worlds[i].binds[k]);
      if r.steps[i - 1] == BindContinues(k)
      then c' == BindCall(c.q, BindNext(r.worlds[i - 1].hub, c.q, c.pc, r.worlds[i - 1].now).1)
      else c' == c
  {
    StepBack(r, i);
  }

  lemma {:induction false} BindRead(r: Run, i: nat, k: nat)
    requires Valid(r) && BindInProgress(r, i, k) && !r.worlds[i].binds[k].pc.BindFetched?
    ensures var call := r.worlds[i].binds[k];
      exists f, g :: g < i && BindTrail(r, f, g, k, call.q, call.pc.held, call.pc.device)
  {
    if i > 0 {
      BindBefore(r, i, k);
      var call := r.worlds[i].binds[k];
      if r.steps[i - 1] == BindContinues(k) && r.worlds[i - 1].binds[k].pc.BindFetched? {
        JustAccepted(r, i - 1, k, call.q, call.pc.held, call.pc.device);
      } else {
        BindRead(r, i - 1, k);
      }
    }
  }

  lemma JustBound(r: Run, u: nat, k: nat)
    requires Valid(r) && BindInProgress(r, u, k) && Position(r, u) && r.steps[u] == BindContinues(k)
    requires r.worlds[u].binds[k].pc.BindConsumed?
    requires r.worlds[u].binds[k].pc.held.participantId in r.worlds[u].hub.participants
    ensures BindsRow(r, u, k, r.worlds[u].binds[k].q, r.worlds[u].binds[k].pc.held.participantId)
  {
    HubAt(r, u);
  }

  lemma {:induction false} BindWrote(r: Run, i: nat, k: nat)
    requires Valid(r) && BindInProgress(r, i, k) && r.worlds[i].binds[k].pc.BindWritten?
    ensures var call := r.worlds[i].binds[k];
      exists u :: u < i && BindsRow(r, u, k, call.q, call.pc.held.participantId)
  {
    if i > 0 {
      BindBefore(r, i, k);
      if r.steps[i - 1] == BindContinues(k) {
        JustBound(r, i - 1, k);
      } else {
        BindWrote(r, i - 1, k);
      }
    }
  }

  /** The step ends a binding call, and the entry is of that call: token, row, and the write before it. */
  ghost predicate FromBinding(r: Run, n: int, e: AuditEvent) {
    && Position(r, n)
    && exists f, g, u, k, q, held, row :: g < n && u < n && r.steps[n] == BindContinues(k)
         && BindTrail(r, f, g, k, q, held, row) && BindsRow(r, u, k, q, held.participantId)
         && BindingEntry(e, q, held, row)
         && q.meetingId in r.worlds[n].hub.meetings && e.tenantId == r.worlds[n].hub.meetings[q.meetingId].tenantId
  }

  // ---- Issued challenges ----

  /** Step `b` begins loop `k`, and its query finds participant `p` like this. */
  ghost predicate ListedAt(r: Run, b: int, k: nat, p: string, row: Participant) {
    && Position(r, b) && r.steps[b].IssueBegins? && r.steps[b].call == k
    && p in r.worlds[b].hub.participants && r.worlds[b].hub.participants[p] == row
    && row.meetingId == r.steps[b].meetingId
  }

  /** A row still to be worked on is one the loop's own query found. */
  ghost predicate Pending(r: Run, b: int, k: nat, row: Row) {
    && ListedAt(r, b, k, row.id, row.participant)
    && (Challengeable(row) <==> Usable(r.worlds[b].hub, row.participant))
  }

  lemma {:induction false} RowListed(r: Run, i: nat, k: nat, n: nat)
    requires Valid(r) && i < |r.worlds| && k in r.worlds[i].issues && n < |r.worlds[i].issues[k].pending|
    ensures exists b :: b < i && Pending(r, b, k, r.worlds[i].issues[k].pending[n])
  {
    if i > 0 {
      StepBack(r, i);
      var s := r.steps[i - 1];
      if s.IssueBegins? && s.call == k {
        assert Pending(r, i - 1, k, r.worlds[i].issues[k].pending[n]);
      } else {
        RowListed(r, i - 1, k, if s.IssueLogs? && s.call == k then n + 1 else n);
      }
    }
  }

  /**
   Step `s` of loop `k` stores `c`, for a participant found with a usable device
   when the loop began: as drawn, for that device and that user.
   */
  ghost predicate StoredFor(r: Run, s: int, k: nat, c: Challenge) {
    && StoresAt(r, s, c) && r.steps[s].call == k && AsDrawn(c, r.steps[s].draw)
    && exists b, row :: b < s && ListedAt(r, b, k, c.participantId, row) && Usable(r.worlds[b].hub, row)
         && c.meetingId in r.worlds[s].hub.meetings
         && IsFor(c, row.meetingId, r.worlds[s].hub.meetings[c.meetingId].tenantId, c.participantId, row)
  }

  lemma StoredAsDrawn(r: Run, s: int, c: Challenge)
    requires Valid(r) && StoresAt(r, s, c)
    ensures StoredFor(r, s, r.steps[s].call, c)
  {
    var w, k := r.worlds[s], r.steps[s].call;
    HubAt(r, s);
    Reachable(r, s);
    assert c.id !in w.hub.challenges;
    ChallengesStep(w, r.steps[s], c.id);
    RowListed(r, s, k, 0);
    var row := w.issues[k].pending[0];
    var b :| b < s && Pending(r, b, k, row);
    assert RowHolds(w.hub, w.issues[k].meetingId, w.issues[k].tenantId, row);
    RunGrows(r, b, s);
    assert ParticipantGrows(r.worlds[b].hub.participants[row.id], w.hub.participants[row.id]);
    assert ListedAt(r, b, k, c.participantId, row.participant);
  }

  /** Step `s` of loop `k` turns participant `p` FAILED, found without a usable device when the loop began. */
  ghost predicate FailsFor(r: Run, s: int, k: nat, p: string) {
    && Position(r, s) && r.steps[s].IssueContinues? && r.steps[s].call == k && p in r.worlds[s].hub.participants
    && r.worlds[s + 1].hub.participants == r.worlds[s].hub.participants[p :=
         r.worlds[s].hub.participants[p].(trust := Failed, lastChallengeAt := Some(r.worlds[s].now))]
    && exists b, row :: b < s && ListedAt(r, b, k, p, row) && !Usable(r.worlds[b].hub, row)
  }

  lemma FailedAsFound(r: Run, s: nat, k: nat)
    requires Valid(r) && Position(r, s) && r.steps[s].IssueContinues? && r.steps[s].call == k
    requires k in r.worlds[s + 1].issues && r.worlds[s + 1].issues[k].pc.Failing?
    ensures r.worlds[s + 1].issues[k].pending != [] && FailsFor(r, s, k, r.worlds[s + 1].issues[k].pending[0].id)
  {
    StepBack(r, s + 1);
    var w := r.worlds[s];
    var row := w.issues[k].pending[0];
    assert RowHolds(w.hub, w.issues[k].meetingId, w.issues[k].tenantId, row);
    RowListed(r, s, k, 0);
    var b :| b < s && Pending(r, b, k, row);
    assert ListedAt(r, b, k, row.id, row.participant);
  }

  /** What a turn that stands before its log has done. */
  ghost predicate TurnBegun(r: Run, i: nat, k: nat, c: IssueCall) {
    match c.pc
    case AtRow => true
    case Failing => c.pending != [] && exists s :: s < i && FailsFor(r, s, k, c.pending[0].id)
    case Announcing(challenge) => exists s :: s < i && StoredFor(r, s, k, challenge)
  }

  lemma TurnBegins(r: Run, i: nat, k: nat)
    requires Valid(r) && 0 < i < |r.worlds| && r.steps[i - 1].IssueContinues? && r.steps[i - 1].call == k
    requires k in r.worlds[i].issues
    ensures TurnBegun(r, i, k, r.worlds[i].issues[k])
  {
    StepBack(r, i);
    var pc := r.worlds[i].issues[k].pc;
    if pc.Failing? {
      FailedAsFound(r, i - 1, k);
    } else if pc.Announcing? {
      assert StoresAt(r, i - 1, pc.c);
      StoredAsDrawn(r, i - 1, pc.c);
    }
  }

  lemma {:induction false} TurnUnderWay(r: Run, i: nat, k: nat)
    requires Valid(r) && i < |r.worlds| && k in r.worlds[i].issues
    ensures TurnBegun(r, i, k, r.worlds[i].issues[k])
  {
    if i > 0 {
      StepBack(r, i);
      var s := r.steps[i - 1];
      if s.IssueContinues? && s.call == k {
        TurnBegins(r, i, k);
      } else if !(s.IssueBegins? && s.call == k) && !(s.IssueLogs? && s.call == k) {
        TurnUnderWay(r, i - 1, k);
      }
    }
  }

  /** The step ends a turn, and the entry is of its challenge, or of its failure. */
  ghost predicate FromIssue(r: Run, n: int, e: AuditEvent) {
    && Position(r, n)
    && exists s, k, c :: s < n && r.steps[n] == IssueLogs(k) && StoredFor(r, s, k, c)
         && Placed(r.worlds[n].hub, c.participantId, e)
         && IssueEntry(e, c, r.worlds[n].hub.participants[c.participantId].displayName)
  }

  ghost predicate FromFailure(r: Run, n: int, e: AuditEvent, p: string) {
    && Position(r, n) && Placed(r.worlds[n].hub, p, e)
    && FailureEntry(e, r.worlds[n].hub.participants[p].meetingId, e.tenantId, p, r.worlds[n].hub.participants[p])
    && exists s, k :: s < n && r.steps[n] == IssueLogs(k) && FailsFor(r, s, k, p)
  }

  // ---- Joinings ----

  /** Step `s` is joining `k`: the row it makes of the request. */
  ghost predicate JoinsAt(r: Run, s: int, k: nat, p: string, m: string, user: string, name: string) {
    && Position(r, s) && r.steps[s] == Joins(k, p, m, user, name)
    && m in r.worlds[s].hub.meetings && p !in r.worlds[s].hub.participants
    && p in r.worlds[s + 1].hub.participants
    && r.worlds[s + 1].hub.participants[p] == Participant(m, user, name, None, Unknown, None, None)
  }

  predicate JoinEntry(e: AuditEvent, tenant: string, p: string, m: string, user: string, name: string) {
    && e.detail == ParticipantJoined(name, p)
    && e.actor == user && e.meetingId == Some(m) && e.tenantId == tenant
  }

  ghost predicate JoinBegun(r: Run, i: nat, k: nat, e: AuditEvent) {
    exists s, p, m, user, name :: s < i && JoinsAt(r, s, k, p, m, user, name)
      && JoinEntry(e, r.worlds[s].hub.meetings[m].tenantId, p, m, user, name)
  }

  lemma {:induction false} JoinUnderWay(r: Run, i: nat, k: nat)
    requires Valid(r) && i < |r.worlds| && k in r.worlds[i].joins
    ensures JoinBegun(r, i, k, r.worlds[i].joins[k].event)
  {
    if i > 0 {
      StepBack(r, i);
      var s := r.steps[i - 1];
      if s.Joins? && s.call == k && s.meetingId in r.worlds[i - 1].hub.meetings {
        assert JoinsAt(r, i - 1, k, s.participantId, s.meetingId, s.userId, s.displayName);
      } else {
        JoinUnderWay(r, i - 1, k);
      }
    }
  }

  // ---- Every entry ----

  predicate MeetingEntry(e: AuditEvent, m: string, tenant: string, name: string) {
    e.detail == MeetingCreated(name) && e.actor == "system" && e.meetingId == Some(m) && e.tenantId == tenant
  }

  /** A first enrolment and a later one are logged differently; both as they were asked for. */
  predicate EnrolmentEntry(e: AuditEvent, dto: EnrollDto, known: bool) {
    && e.detail == (if known then DeviceReEnrolled(dto.deviceId, dto.hardwareBound, dto.keyAlgorithm)
                    else DeviceEnrolled(dto.deviceId, dto.displayName, dto.hardwareBound, dto.keyAlgorithm))
    && e.actor == dto.userId && e.meetingId == None && e.tenantId == dto.tenantId
  }

  ghost predicate FromCreation(r: Run, n: int, e: AuditEvent) {
    && Position(r, n) && r.steps[n].Creates?
    && MeetingEntry(e, r.steps[n].meetingId, r.steps[n].tenantId, r.steps[n].name)
    && r.steps[n].meetingId in r.worlds[n + 1].hub.meetings
    && r.worlds[n + 1].hub.meetings[r.steps[n].meetingId] == Meeting(r.steps[n].tenantId, r.steps[n].name)
  }

  ghost predicate FromEnrolment(r: Run, n: int, e: AuditEvent) {
    && Position(r, n) && r.steps[n].Enrolls?
    && EnrolmentEntry(e, r.steps[n].dto, r.steps[n].dto.deviceId in r.worlds[n].hub.devices)
  }

  ghost predicate FromJoin(r: Run, n: int, e: AuditEvent) {
    Position(r, n) && r.steps[n].JoinLogs? && JoinBegun(r, n, r.steps[n].call, e)
  }

  /** The entry is what step `n` has to say, by its kind. */
  ghost predicate Explained(r: Run, n: int, e: AuditEvent) {
    match e.detail
    case MeetingCreated(_) => FromCreation(r, n, e)
    case DeviceEnrolled(_, _, _, _) => FromEnrolment(r, n, e)
    case DeviceReEnrolled(_, _, _) => FromEnrolment(r, n, e)
    case ParticipantJoined(_, _) => FromJoin(r, n, e)
    case DeviceBound(_, _, _) => FromBinding(r, n, e)
    case ChallengeNoDevice(p, _) => FromFailure(r, n, e, p)
    case ChallengeIssued(_, _, _, _) => FromIssue(r, n, e)
    case ChallengeJudged(_, _, _, _, _, _, _) => FromVerdict(r, n, e)
  }

  /** Step `n` leaves the log as it is or adds one entry that it explains. */
  ghost predicate Adds(r: Run, n: int)
    requires Valid(r) && Position(r, n)
  {
    var (log, log') := (r.worlds[n].hub.audit, r.worlds[n + 1].hub.audit);
    log' == log || (|log'| == |log| + 1 && log'[..|log|] == log && Explained(r, n, log'[|log|]))
  }

  /** One more entry, and the step explains it. */
  lemma AddsOne(r: Run, n: nat, e: AuditEvent)
    requires Valid(r) && Position(r, n) && Explained(r, n, e)
    requires r.worlds[n + 1].hub.audit == r.worlds[n].hub.audit + [e]
    ensures Adds(r, n)
  {
  }

  lemma LogOfVerify(h: Hub, q: Response, pc: VerifyPc, now: nat)
    requires !pc.Finished? && pc.held.participantId in h.participants
    ensures var (h', pc') := VerifyNext(h, q, pc, now);
      if pc.Updated? then
        && h'.audit == h.audit + [JudgedEvent(q, pc.held, pc.device, pc.status, pc.valid)]
        && pc' == Finished(Verdict(pc.status, pc.valid))
      else h'.audit == h.audit
  {
  }

  lemma VerdictExplained(r: Run, n: nat, k: nat)
    requires Valid(r) && Position(r, n) && r.steps[n] == VerifyContinues(k) && k in r.worlds[n].verifies
    requires r.worlds[n].verifies[k].pc.Updated?
    requires Placeable(r.worlds[n].hub, r.worlds[n].verifies[k].pc.held)
    requires var c := r.worlds[n].verifies[k]; EndsAt(r, n, k, c.q, Verdict(c.pc.status, c.pc.valid))
    ensures var c := r.worlds[n].verifies[k];
      FromVerdict(r, n, JudgedEvent(c.q, c.pc.held, c.pc.device, c.pc.status, c.pc.valid))
  {
    var q, pc := r.worlds[n].verifies[k].q, r.worlds[n].verifies[k].pc;
    CallDecided(r, n, k);
    var f, g, j :| j < n && Trail(r, f, g, j, k, q, pc.held, pc.device, pc.status, pc.valid);
    assert VerdictEntry(JudgedEvent(q, pc.held, pc.device, pc.status, pc.valid), q, pc.held, pc.device,
                        Verdict(pc.status, pc.valid));
  }

  /** The tables the challenge was made from. */
  predicate Placeable(h: Hub, c: Challenge) {
    && c.participantId in h.participants && h.participants[c.participantId].userId == c.userId
    && h.participants[c.participantId].meetingId == c.meetingId
    && c.meetingId in h.meetings && h.meetings[c.meetingId].tenantId == c.tenantId
  }

  lemma EndsWith(r: Run, n: nat, k: nat)
    requires Valid(r) && Position(r, n) && r.steps[n] == VerifyContinues(k) && k in r.worlds[n].verifies
    requires r.worlds[n].verifies[k].pc.Updated?
    ensures var c := r.worlds[n].verifies[k]; EndsAt(r, n, k, c.q, Verdict(c.pc.status, c.pc.valid))
  {
    CallOk(r, n, k);
    CallNext(r, n, k);
    LogOfVerify(r.worlds[n].hub, r.worlds[n].verifies[k].q, r.worlds[n].verifies[k].pc, r.worlds[n].now);
  }

  lemma CallOk(r: Run, n: nat, k: nat)
    requires Valid(r) && n < |r.worlds| && k in r.worlds[n].verifies
    ensures VerifyPcOk(r.worlds[n].hub, r.worlds[n].verifies[k].q, r.worlds[n].verifies[k].pc)
  {
    Reachable(r, n);
  }

  lemma CallNext(r: Run, n: nat, k: nat)
    requires Valid(r) && Position(r, n) && r.steps[n] == VerifyContinues(k) && k in r.worlds[n].verifies
    requires !r.worlds[n].verifies[k].pc.Finished?
    ensures var c := r.worlds[n].verifies[k];
      && k in r.worlds[n + 1].verifies
      && r.worlds[n + 1].verifies[k] == VerifyCall(c.q, VerifyNext(r.worlds[n].hub, c.q, c.pc, r.worlds[n].now).1)
  {
    assert StepAt(r, n);
  }

  lemma VerdictAdds(r: Run, n: nat)
    requires Valid(r) && Position(r, n) && r.steps[n].VerifyContinues?
    ensures Adds(r, n)
  {
    HubAt(r, n);
    var w, k := r.worlds[n], r.steps[n].call;
    var q, pc := w.verifies[k].q, w.verifies[k].pc;
    CallOk(r, n, k);
    LogOfVerify(w.hub, q, pc, w.now);
    if pc.Updated? {
      EndsWith(r, n, k);
      VerdictExplained(r, n, k);
      AddsOne(r, n, JudgedEvent(q, pc.held, pc.device, pc.status, pc.valid));
    }
  }

  lemma LogOfBinding(h: Hub, q: BindRequest, pc: BindPc, now: nat)
    requires !pc.BindFinished?
    ensures var h' := BindNext(h, q, pc, now).0;
      if pc.BindWritten? && q.meetingId in h.meetings
      then h'.audit == h.audit + [BindEvent(h.meetings[q.meetingId].tenantId, q, pc.held, pc.device)]
      else h'.audit == h.audit
  {
  }

  lemma BindingExplained(r: Run, n: nat, k: nat)
    requires Valid(r) && Position(r, n) && r.steps[n] == BindContinues(k) && k in r.worlds[n].binds
    requires r.worlds[n].binds[k].pc.BindWritten? && r.worlds[n].binds[k].q.meetingId in r.worlds[n].hub.meetings
    ensures var c := r.worlds[n].binds[k];
      FromBinding(r, n, BindEvent(r.worlds[n].hub.meetings[c.q.meetingId].tenantId, c.q, c.pc.held, c.pc.device))
  {
    var q, pc := r.worlds[n].binds[k].q, r.worlds[n].binds[k].pc;
    BindRead(r, n, k);
    var f, g :| g < n && BindTrail(r, f, g, k, q, pc.held, pc.device);
    BindWrote(r, n, k);
    var u :| u < n && BindsRow(r, u, k, q, pc.held.participantId);
    assert BindingEntry(BindEvent(r.worlds[n].hub.meetings[q.meetingId].tenantId, q, pc.held, pc.device), q, pc.held,
                        pc.device);
  }

  lemma BindingAdds(r: Run, n: nat)
    requires Valid(r) && Position(r, n) && r.steps[n].BindContinues?
    ensures Adds(r, n)
  {
    HubAt(r, n);
    var w, k := r.worlds[n], r.steps[n].call;
    var q, pc := w.binds[k].q, w.binds[k].pc;
    LogOfBinding(w.hub, q, pc, w.now);
    if pc.BindWritten? && q.meetingId in w.hub.meetings {
      BindingExplained(r, n, k);
      AddsOne(r, n, BindEvent(w.hub.meetings[q.meetingId].tenantId, q, pc.held, pc.device));
    }
  }

  lemma IssueExplained(r: Run, n: nat, k: nat)
    requires Valid(r) && Position(r, n) && r.steps[n] == IssueLogs(k) && k in r.worlds[n].issues
    requires r.worlds[n].issues[k].pc.Announcing? && r.worlds[n].issues[k].pending != []
    requires Placeable(r.worlds[n].hub, r.worlds[n].issues[k].pc.c)
    ensures var c := r.worlds[n].issues[k].pc.c;
      FromIssue(r, n, IssuedEvent(c, r.worlds[n].hub.participants[c.participantId].displayName))
  {
    var c := r.worlds[n].issues[k].pc.c;
    TurnUnderWay(r, n, k);
    var s :| s < n && StoredFor(r, s, k, c);
    assert IssueEntry(IssuedEvent(c, r.worlds[n].hub.participants[c.participantId].displayName), c,
                      r.worlds[n].hub.participants[c.participantId].displayName);
  }

  lemma FailureExplained(r: Run, n: nat, k: nat)
    requires Valid(r) && Position(r, n) && r.steps[n] == IssueLogs(k) && k in r.worlds[n].issues
    requires r.worlds[n].issues[k].pc.Failing? && r.worlds[n].issues[k].pending != []
    requires var c := r.worlds[n].issues[k]; RowHolds(r.worlds[n].hub, c.meetingId, c.tenantId, c.pending[0])
    ensures var c := r.worlds[n].issues[k];
      FromFailure(r, n, NoDeviceEvent(c.meetingId, c.tenantId, c.pending[0]), c.pending[0].id)
  {
    TurnUnderWay(r, n, k);
  }

  /** The challenge a turn is about to announce is for the participant of its row. */
  lemma {:induction false} AnnouncedFor(r: Run, i: nat, k: nat)
    requires Valid(r) && i < |r.worlds| && k in r.worlds[i].issues && r.worlds[i].issues[k].pc.Announcing?
    ensures var (w, c) := (r.worlds[i], r.worlds[i].issues[k]);
      && c.pending != [] && c.pc.c.participantId == c.pending[0].id && Placeable(w.hub, c.pc.c)
      && c.pending[0].participant.displayName == w.hub.participants[c.pending[0].id].displayName
  {
    if i > 0 {
      StepBack(r, i);
      Reachable(r, i);
      assert IssueCallOk(r.worlds[i].issues[k]);
      var c := r.worlds[i].issues[k];
      assert RowHolds(r.worlds[i].hub, c.meetingId, c.tenantId, c.pending[0]);
      if !(r.steps[i - 1].IssueContinues? && r.steps[i - 1].call == k) {
        AnnouncedFor(r, i - 1, k);
      }
    }
  }

  lemma IssueAdds(r: Run, n: nat)
    requires Valid(r) && Position(r, n) && r.steps[n].IssueLogs?
    ensures Adds(r, n)
  {
    HubAt(r, n);
    Reachable(r, n);
    var w, k := r.worlds[n], r.steps[n].call;
    var c := w.issues[k];
    var row := c.pending[0];
    assert RowHolds(w.hub, c.meetingId, c.tenantId, row) && IssueCallOk(c);
    match c.pc
    case Failing =>
      FailureExplained(r, n, k);
      AddsOne(r, n, NoDeviceEvent(c.meetingId, c.tenantId, row));
    case Announcing(challenge) =>
      AnnouncedFor(r, n, k);
      IssueExplained(r, n, k);
      AddsOne(r, n, IssuedEvent(challenge, row.participant.displayName));
  }

  lemma LogOfRest(w: World, s: Step)
    requires Enabled(w, s)
    requires !s.VerifyContinues? && !s.BindContinues? && !s.IssueLogs? && !s.JoinLogs?
    ensures HubAfter(w, s).audit == w.hub.audit +
      (if s.Creates? && s.tenantId in w.hub.tenants
       then [AuditEvent(s.tenantId, Some(s.meetingId), "system", MeetingCreated(s.name))]
       else if s.Enrolls? && s.dto.tenantId in w.hub.tenants
       then [EnrollEvent(s.dto, s.dto.deviceId in w.hub.devices)]
       else [])
  {
  }

  lemma OtherAdds(r: Run, n: nat)
    requires Valid(r) && Position(r, n)
    requires !r.steps[n].VerifyContinues? && !r.steps[n].BindContinues? && !r.steps[n].IssueLogs?
    ensures Adds(r, n)
  {
    HubAt(r, n);
    var w, s := r.worlds[n], r.steps[n];
    if s.JoinLogs? {
      JoinUnderWay(r, n, s.call);
      AddsOne(r, n, w.joins[s.call].event);
    } else {
      LogOfRest(w, s);
      if s.Creates? && s.tenantId in w.hub.tenants {
        AddsOne(r, n, AuditEvent(s.tenantId, Some(s.meetingId), "system", MeetingCreated(s.name)));
      } else if s.Enrolls? && s.dto.tenantId in w.hub.tenants {
        AddsOne(r, n, EnrollEvent(s.dto, s.dto.deviceId in w.hub.devices));
      }
    }
  }

  lemma StepAdds(r: Run, n: nat)
    requires Valid(r) && Position(r, n)
    ensures Adds(r, n)
  {
    if r.steps[n].VerifyContinues? {
      VerdictAdds(r, n);
    } else if r.steps[n].BindContinues? {
      BindingAdds(r, n);
    } else if r.steps[n].IssueLogs? {
      IssueAdds(r, n);
    } else {
      OtherAdds(r, n);
    }
  }

  /** Step `n` wrote the entry that is now at that place, and explains it. */
  ghost predicate WrittenAt(r: Run, n: int, m: nat, e: AuditEvent) {
    && Position(r, n) && |r.worlds[n].hub.audit| == m && m < |r.worlds[n + 1].hub.audit|
    && r.worlds[n + 1].hub.audit[m] == e && Explained(r, n, e)
  }

  /**
   In every reachable state, whatever ran at the same time: each entry of the audit
   log was written by one step of the run, which explains all of it.
   */
  lemma {:induction false} EveryEntryExplained(r: Run, i: nat, m: nat)
    requires Valid(r) && i < |r.worlds| && m < |r.worlds[i].hub.audit|
    ensures exists n :: n < i && WrittenAt(r, n, m, r.worlds[i].hub.audit[m])
  {
    if i > 0 {
      StepAdds(r, i - 1);
      var log, log' := r.worlds[i - 1].hub.audit, r.worlds[i].hub.audit;
      if m < |log| {
        EveryEntryExplained(r, i - 1, m);
        assert log'[..|log|][m] == log'[m];
      } else {
        assert WrittenAt(r, i - 1, m, log'[m]);
      }
    }
  }
}
