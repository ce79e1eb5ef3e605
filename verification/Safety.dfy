/** What holds over every run of the interleaved hub. */
module Safety {
  import opened Prelude
  import opened Framing
  import opened Crypto
  import opened Entities
  import opened Storage
  import opened Policy
  import opened MeetingService
  import opened ChallengeService
  import opened AgentSigning
  import opened HubLaws
  import opened Interleaved
  import opened CallHistory
  import opened BindHistory

  // ---- States ----

  /** In every reachable state each participant row is one the status machine allows. */
  lemma StatusMachine(r: Run, i: nat, p: string)
    requires Valid(r) && i < |r.worlds| && p in r.worlds[i].hub.participants
    ensures var row := r.worlds[i].hub.participants[p];
      && row.trust in {Unknown, Verified, Stale, Failed}
      && (row.trust == Unknown <==> row.deviceId.None? && row.lastChallengeAt.None?)
      && (row.trust in {Verified, Stale} ==> row.deviceId.Some?)
  {
    Reachable(r, i);
  }

  /** Between any two moments: once bound never unbound, once out of UNKNOWN never back. */
  lemma StatusForward(r: Run, i: nat, j: nat, p: string)
    requires Valid(r) && i <= j < |r.worlds| && p in r.worlds[i].hub.participants
    ensures p in r.worlds[j].hub.participants
    ensures var (a, b) := (r.worlds[i].hub.participants[p], r.worlds[j].hub.participants[p]);
      && (a.deviceId.Some? ==> b.deviceId.Some?)
      && (a.trust != Unknown ==> b.trust != Unknown)
      && a.meetingId == b.meetingId && a.userId == b.userId
  {
    RunGrows(r, i, j);
    assert ParticipantGrows(r.worlds[i].hub.participants[p], r.worlds[j].hub.participants[p]);
  }

  /** Every enrolled device has a heartbeat, never in the future, that never goes back. */
  lemma HeartbeatsForward(r: Run, i: nat, j: nat, d: string)
    requires Valid(r) && i <= j < |r.worlds| && d in r.worlds[i].hub.devices
    ensures d in r.worlds[j].hub.devices
    ensures var (a, b) := (r.worlds[i].hub.devices[d].lastHeartbeat, r.worlds[j].hub.devices[d].lastHeartbeat);
      a.Some? && b.Some? && a.value <= b.value <= r.worlds[j].now
  {
    Reachable(r, i);
    Reachable(r, j);
    RunGrows(r, i, j);
    assert DeviceGrows(r.worlds[i].hub.devices[d], r.worlds[j].hub.devices[d]);
  }

  /** Every stored challenge is backed by the tables it was made from. */
  lemma StoredIsSound(r: Run, i: nat, id: string)
    requires Valid(r) && i < |r.worlds| && id in r.worlds[i].hub.challenges
    ensures var c := r.worlds[i].hub.challenges[id].value; c.id == id && Sound(r.worlds[i].hub, c)
  {
    Reachable(r, i);
  }

  /** The two returns for a missing row are unreachable, in any schedule. */
  lemma NoMissingRows(r: Run, i: nat, k: nat)
    requires Valid(r) && i < |r.worlds| && k in r.worlds[i].verifies && r.worlds[i].verifies[k].pc.Finished?
    ensures !r.worlds[i].verifies[k].pc.outcome.DeviceMissing?
      && !r.worlds[i].verifies[k].pc.outcome.ParticipantMissing?
  {
    Reachable(r, i);
  }

  /** The binding test the source leaves out. */
  predicate ReallyBound(h: Hub, c: Challenge) {
    c.participantId in h.participants && h.participants[c.participantId].deviceId.Some?
  }

  /**
   `hasMeetingBinding: true` is what the real test would give: for each stored
   challenge, for each call in progress, and so for the policy engine's answer.
   */
  lemma ConstantBindingIsReal(r: Run, i: nat, k: nat, signature: Signature)
    requires Valid(r) && InProgress(r, i, k)
    ensures ReallyBound(r.worlds[i].hub, r.worlds[i].verifies[k].pc.held)
    ensures var w := r.worlds[i]; var pc := w.verifies[k].pc;
      pc.Removed? ==>
        StatusOf(pc.held, pc.expired, pc.device, signature, w.now) ==
        Evaluate(InputFor(pc.device, SignedBy(pc.held, pc.device, signature), pc.expired,
          ReallyBound(w.hub, pc.held)), w.now)
  {
    Reachable(r, i);
  }

  /** Every audit row names a tenant and a meeting that exist: no append the model makes could have been refused. */
  lemma AuditRowsReferToRows(r: Run, i: nat, n: nat)
    requires Valid(r) && i < |r.worlds| && n < |r.worlds[i].hub.audit|
    ensures var e := r.worlds[i].hub.audit[n]; var h := r.worlds[i].hub;
      e.tenantId in h.tenants && (e.meetingId.Some? ==> e.meetingId.value in h.meetings)
  {
    Reachable(r, i);
  }

  /** A challenge is logged as passed exactly when it was judged VERIFIED, and then its signature was valid. */
  lemma PassedMeansVerified(r: Run, i: nat, n: nat)
    requires Valid(r) && i < |r.worlds| && n < |r.worlds[i].hub.audit|
      && r.worlds[i].hub.audit[n].detail.ChallengeJudged?
    ensures var d := r.worlds[i].hub.audit[n].detail;
      (d.passed <==> d.status == Verified) && (d.passed ==> d.signatureValid)
  {
    Reachable(r, i);
    assert VerdictOk(r.worlds[i].hub.audit[n].detail);
  }

  // ---- Retirement ----

  /** Challenge `c`, stored at step `s`, is found by call `k` at step `g`, within its fifteen seconds. */
  ghost predicate FoundAlive(r: Run, s: int, g: int, k: nat, q: Response, c: Challenge) {
    && 0 <= s < g && StoresAt(r, s, c) && GetsAt(r, g, k, q, c)
    && r.worlds[s].now <= r.worlds[g].now <= r.worlds[s].now + 15_000
  }

  lemma FoundWhileAlive(r: Run, g: int, k: nat, q: Response, c: Challenge)
    requires Valid(r) && GetsAt(r, g, k, q, c)
    ensures c.id == q.challengeId
    ensures exists s :: FoundAlive(r, s, g, k, q, c)
  {
    Reachable(r, g);
    ChallengeStored(r, g, c.id);
    var s :| s < g && StoresAt(r, s, c) && r.worlds[g].hub.challenges[c.id].deadline == Some(r.worlds[s].now + 15_000);
    RunGrows(r, s, g);
    assert FoundAlive(r, s, g, k, q, c);
  }

  /**
   Whatever else runs, a call that got hold of a challenge did its GET within
   fifteen seconds of the challenge being stored, and before any DEL of it.
   */
  lemma Retirement(r: Run, i: nat, k: nat)
    requires Valid(r) && InProgress(r, i, k)
    ensures var call := r.worlds[i].verifies[k]; var c := call.pc.held;
      && c.id == call.q.challengeId
      && exists s, g :: g < i && FoundAlive(r, s, g, k, call.q, c) && (forall d :: d < g ==> !DeletesAt(r, d, c.id))
  {
    var q, c := r.worlds[i].verifies[k].q, r.worlds[i].verifies[k].pc.held;
    CallGot(r, i, k);
    var g :| g < i && GetsAt(r, g, k, q, c);
    FoundWhileAlive(r, g, k, q, c);
    forall d | d < g
      ensures !DeletesAt(r, d, c.id)
    {
      if DeletesAt(r, d, c.id) {
        DeletedIsGone(r, d, g, c.id);
      }
    }
  }

  lemma DeleteDrops(r: Run, d: int, id: string)
    requires Valid(r) && DeletesAt(r, d, id)
    ensures id !in r.worlds[d + 1].hub.challenges
  {
    HubAt(r, d);
    var call := r.worlds[d].verifies[r.steps[d].call];
    KeptByVerify(r.worlds[d].hub, call.q, call.pc, r.worlds[d].now);
  }

  /** After a DEL of a challenge no later GET finds it. */
  lemma DeletedIsGone(r: Run, d: int, g: int, id: string)
    requires Valid(r) && DeletesAt(r, d, id) && d < g < |r.worlds|
    ensures id !in r.worlds[g].hub.challenges
    ensures Lookup(r.worlds[g].hub.challenges, id, r.worlds[g].now) == None
  {
    var k := r.steps[d].call;
    CallGot(r, d, k);
    var e :| e < d && GetsAt(r, e, k, r.worlds[d].verifies[k].q, r.worlds[d].verifies[k].pc.held);
    Reachable(r, e);
    UsedForever(r, e, d + 1, id);
    DeleteDrops(r, d, id);
    GoneForever(r, d + 1, g, id);
  }

  // ---- Agreement ----

  /** The agent's key and local fields, and the payload it answered, are exactly the challenge's. */
  predicate Answers(a: Identity, p: Payload, c: Challenge, key: Key) {
    && a.key == key
    && a.tenantId.GetOr("") == c.tenantId
    && a.deviceId.GetOr("") == c.deviceId
    && a.userId.GetOr("") == c.userId
    && p == PayloadOf(c)
  }

  /** Step `j` is an agent with this key answering challenge `c`. */
  ghost predicate AnswersAt(r: Run, j: int, c: Challenge, key: Key) {
    Position(r, j) && r.steps[j].AgentSigns? && Answers(r.steps[j].identity, r.steps[j].payload, c, key)
  }

  /** Whatever the agent's fields contain: its ten lines are the challenge's only if they are the same fields. */
  lemma SameLines(a: Identity, p: Payload, c: Challenge)
    requires AllClean(ChallengeLines(c)) && Join(AgentLines(a, p)) == ChallengeMaterial(c)
    ensures Answers(a, p, c, a.key)
  {
    CleanWins(AgentLines(a, p), ChallengeLines(c));
    var l, m := AgentLines(a, p), ChallengeLines(c);
    assert l[1] == m[1] && l[2] == m[2] && l[3] == m[3] && l[4] == m[4] && l[5] == m[5];
    assert l[6] == m[6] && l[7] == m[7] && l[8] == m[8] && l[9] == m[9];
  }

  /** Two challenges with the same signing string are one challenge, instants included. */
  lemma SameMaterial(c: Challenge, d: Challenge)
    requires AllClean(ChallengeLines(c)) && AllClean(ChallengeLines(d))
    requires ChallengeMaterial(c) == ChallengeMaterial(d)
    ensures c == d
  {
    JoinInjective(ChallengeLines(c), ChallengeLines(d));
    var l, m := ChallengeLines(c), ChallengeLines(d);
    assert l[1] == m[1] && l[2] == m[2] && l[3] == m[3] && l[4] == m[4] && l[5] == m[5];
    assert l[6] == m[6] && l[7] == m[7] && l[8] == m[8] && l[9] == m[9];
    TimeTextInjective(c.issuedAt, d.issuedAt);
    TimeTextInjective(c.expiresAt, d.expiresAt);
  }

  /** A signature is good for one challenge only, under whatever rows the two are judged. */
  lemma OneSignatureOneChallenge(c: Challenge, d: Challenge, under: Device, other: Device, signature: Signature)
    requires AllClean(ChallengeLines(c)) && AllClean(ChallengeLines(d))
    requires SignedBy(c, under, signature) && SignedBy(d, other, signature)
    ensures c == d && under.publicKey == other.publicKey
  {
    SameMaterial(c, d);
  }

  /** A five-line binding string is never a ten-line challenge string. */
  lemma BindingIsNoChallenge(a: Identity, b: BindingTuple, c: Challenge)
    requires AllClean(BindingLines(a, b)) && AllClean(ChallengeLines(c))
    ensures Join(BindingLines(a, b)) != ChallengeMaterial(c)
  {
    if Join(BindingLines(a, b)) == ChallengeMaterial(c) {
      JoinInjective(BindingLines(a, b), ChallengeLines(c));
    }
  }

  /** Step `j` is an agent with this key binding a tuple with a newline in a field, whose string is the challenge's. */
  ghost predicate BlursAt(r: Run, j: int, c: Challenge, key: Key) {
    && Position(r, j) && r.steps[j].AgentBinds? && r.steps[j].identity.key == key
    && !AllClean(BindingLines(r.steps[j].identity, r.steps[j].tuple))
    && Join(BindingLines(r.steps[j].identity, r.steps[j].tuple)) == ChallengeMaterial(c)
  }

  /** Who made a signature that verifies for `c`. */
  lemma SignerOf(r: Run, g: nat, c: Challenge, key: Key, s: Signature)
    requires Valid(r) && g < |r.worlds| && AllClean(ChallengeLines(c))
    requires s == Sig(key, ChallengeMaterial(c)) && s in r.worlds[g].signatures
    ensures exists j :: 0 <= j < g && MakesAt(r, j, s) && (AnswersAt(r, j, c, key) || BlursAt(r, j, c, key))
  {
    SignatureMade(r, g, s);
    var j :| j < g && MakesAt(r, j, s);
    match r.steps[j]
    case AgentSigns(a, p) =>
      SameLines(a, p, c);
      assert AnswersAt(r, j, c, key);
    case AgentBinds(a, b) =>
      if AllClean(BindingLines(a, b)) {
        BindingIsNoChallenge(a, b, c);
      }
      assert BlursAt(r, j, c, key);
  }

  /** An agent that signed for the id of a stored challenge did so after it was stored. */
  lemma SignedAfterStored(r: Run, s: int, j: int, c: Challenge)
    requires Valid(r) && StoresAt(r, s, c) && Position(r, j)
    requires r.steps[j].AgentSigns? && r.steps[j].payload.challengeId == c.id
    ensures s < j
  {
    StepBack(r, j + 1);
    if j <= s {
      UsedForever(r, j + 1, s, c.id);
    }
  }

  /** The call `k` decides at step `i`, with this row and this verdict. */
  ghost predicate JudgesAt(r: Run, i: int, k: nat, c: Challenge, device: Device, status: TrustStatus) {
    && Position(r, i)
    && r.steps[i] == VerifyContinues(k)
    && k in r.worlds[i].verifies
    && r.worlds[i].verifies[k].pc.Removed?
    && r.worlds[i].verifies[k].pc.held == c
    && r.worlds[i].verifies[k].pc.device == device
    && k in r.worlds[i + 1].verifies
    && r.worlds[i + 1].verifies[k].pc.Judged?
    && r.worlds[i + 1].verifies[k].pc.status == status
  }

  lemma JudgedBy(r: Run, i: int, k: nat, c: Challenge, device: Device, status: TrustStatus)
    requires Valid(r) && JudgesAt(r, i, k, c, device, status)
    ensures var call := r.worlds[i].verifies[k];
      InProgress(r, i, k) && status == StatusOf(c, call.pc.expired, device, call.q.signature, r.worlds[i].now)
  {
    CallBefore(r, i + 1, k);
  }

  lemma DeliveredAt(r: Run, g: int, k: nat, q: Response, c: Challenge)
    requires Valid(r) && GetsAt(r, g, k, q, c)
    ensures Deliverable(r.worlds[g], q.signature) && c.id == q.challengeId
  {
    BeginsNew(r, g);
    Reachable(r, g);
  }

  /** Challenge `c` is stored at step `s`, then an agent with this key answers it at step `j`, before step `g`. */
  ghost predicate StoredThenSigned(r: Run, s: int, j: int, g: int, c: Challenge, key: Key) {
    && 0 <= s < j < g < |r.worlds| && StoresAt(r, s, c) && AnswersAt(r, j, c, key)
    && r.worlds[s].now <= r.worlds[j].now <= r.worlds[g].now
  }

  /** Before its GET, somebody with the key answered the challenge, or bound a tuple that reads like it. */
  ghost predicate SignedSomehow(r: Run, g: int, c: Challenge, key: Key) {
    || (exists s, j :: StoredThenSigned(r, s, j, g, c, key))
    || (exists j :: j < g && BlursAt(r, j, c, key))
  }

  lemma SignedBeforeGet(r: Run, g: int, k: nat, q: Response, c: Challenge, key: Key)
    requires Valid(r) && GetsAt(r, g, k, q, c)
    requires q.signature == Sig(key, ChallengeMaterial(c)) && key in r.worlds[0].agentKeys
    requires AllClean(ChallengeLines(c))
    ensures SignedSomehow(r, g, c, key)
  {
    DeliveredAt(r, g, k, q, c);
    SameAgentKeys(r, g);
    SignerOf(r, g, c, key, q.signature);
    var j :| 0 <= j < g && MakesAt(r, j, q.signature) && (AnswersAt(r, j, c, key) || BlursAt(r, j, c, key));
    if AnswersAt(r, j, c, key) {
      AnswerInTime(r, g, k, q, c, key, j);
    }
  }

  lemma AnswerInTime(r: Run, g: int, k: nat, q: Response, c: Challenge, key: Key, j: int)
    requires Valid(r) && GetsAt(r, g, k, q, c) && 0 <= j < g && AnswersAt(r, j, c, key)
    ensures exists s :: StoredThenSigned(r, s, j, g, c, key)
  {
    FoundWhileAlive(r, g, k, q, c);
    var s :| FoundAlive(r, s, g, k, q, c);
    SignedAfterStored(r, s, j, c);
    RunGrows(r, s, j);
    RunGrows(r, j, g);
    assert StoredThenSigned(r, s, j, g, c, key);
  }

  /** A call that found the challenge unexpired did its GET by the expiry. */
  lemma GotByExpiry(r: Run, g: int, i: int, k: nat, q: Response, c: Challenge)
    requires Valid(r) && GetsAt(r, g, k, q, c) && InProgress(r, i, k)
    requires r.worlds[i].verifies[k].pc.Removed? && r.worlds[i].verifies[k].pc.held == c
    requires !r.worlds[i].verifies[k].pc.expired
    ensures r.worlds[g].now <= c.expiresAt
  {
    CallChecked(r, i, k);
    var e :| e < i && ChecksAt(r, e, k, c, false);
    CheckedAfterGot(r, g, e, k, q, c, false);
    RunGrows(r, g, e);
  }

  /** A call's GET, its signature, and what stands behind the signature. */
  ghost predicate GotAndSigned(r: Run, g: int, i: int, c: Challenge, key: Key) {
    0 <= g < i < |r.worlds| && r.worlds[g].now <= c.expiresAt && SignedSomehow(r, g, c, key)
  }

  /**
   Agreement, whatever anybody signs. If a challenge is judged VERIFIED against a
   device row whose key only agents hold, then by its expiry an agent with that
   key signed exactly this challenge, as its tenant, device and user and after it
   was stored, or bound a tuple with a newline in it that reads like the challenge.
   */
  lemma AgreementOrBlur(r: Run, i: int, k: nat, c: Challenge, device: Device, key: Key)
    requires Valid(r)
    requires JudgesAt(r, i, k, c, device, Verified)
    requires device.publicKey == Pub(key) && key in r.worlds[0].agentKeys
    requires AllClean(ChallengeLines(c))
    ensures exists g :: GotAndSigned(r, g, i, c, key)
  {
    JudgedBy(r, i, k, c, device, Verified);
    var q := r.worlds[i].verifies[k].q;
    CallGot(r, i, k);
    var g :| g < i && GetsAt(r, g, k, q, c);
    SignedBeforeGet(r, g, k, q, c, key);
    GotByExpiry(r, g, i, k, q, c);
    assert GotAndSigned(r, g, i, c, key);
  }

  /** By the moment `i` no tuple with a newline in a field that reads like this challenge was bound under the key. */
  ghost predicate Unblurred(r: Run, i: int, c: Challenge, key: Key) {
    forall j :: j < i ==> !BlursAt(r, j, c, key)
  }

  /** So where no such tuple is bound under the key, it is the challenge that was signed. */
  lemma Agreement(r: Run, i: int, k: nat, c: Challenge, device: Device, key: Key)
    requires Valid(r) && Unblurred(r, i, c, key)
    requires JudgesAt(r, i, k, c, device, Verified)
    requires device.publicKey == Pub(key) && key in r.worlds[0].agentKeys
    requires AllClean(ChallengeLines(c))
    ensures exists s, j, g :: g < i && StoredThenSigned(r, s, j, g, c, key) && r.worlds[g].now <= c.expiresAt
  {
    AgreementOrBlur(r, i, k, c, device, key);
    var g :| GotAndSigned(r, g, i, c, key);
    assert exists s, j :: StoredThenSigned(r, s, j, g, c, key);
  }

  /** A call compares the clock after its GET. */
  lemma CheckedAfterGot(r: Run, g: int, e: int, k: nat, q: Response, c: Challenge, expired: bool)
    requires Valid(r) && GetsAt(r, g, k, q, c) && ChecksAt(r, e, k, c, expired)
    ensures g < e
  {
    BeginsNew(r, g);
    if e <= g {
      CallStays(r, e, g, k);
    }
  }

  lemma {:induction false} CallStays(r: Run, i: nat, j: nat, k: nat)
    requires Valid(r) && i <= j < |r.worlds| && k in r.worlds[i].verifies
    ensures k in r.worlds[j].verifies
    decreases j
  {
    if i < j {
      CallStays(r, i, j - 1, k);
      StepBack(r, j);
    }
  }

  /**
   A VERIFIED verdict rests on an ACTIVE row that was the hub's own at some
   step of the call, and at the moment of the verdict the device's latest
   heartbeat is at most five minutes old.
   */
  lemma VerifiedIsFresh(r: Run, i: int, k: nat, c: Challenge, device: Device)
    requires Valid(r) && JudgesAt(r, i, k, c, device, Verified)
    ensures exists g :: g < i && ReadsAt(r, g, k, c, device)
    ensures device.status == Active
    ensures c.deviceId in r.worlds[i].hub.devices
    ensures var beat := r.worlds[i].hub.devices[c.deviceId].lastHeartbeat;
      beat.Some? && r.worlds[i].now - beat.value <= HEARTBEAT_STALE_MS
  {
    JudgedBy(r, i, k, c, device, Verified);
    CallRead(r, i, k);
    var g :| g < i && ReadsAt(r, g, k, c, device);
    HeartbeatsForward(r, g, i, c.deviceId);
  }

  // ---- Agreement on bindings ----

  /** The agent's key, device and signed tuple are exactly those of the binding. */
  ghost predicate BindsExactly(r: Run, j: int, q: BindRequest, held: JoinToken, key: Key) {
    && Position(r, j) && r.steps[j].AgentBinds?
    && r.steps[j].identity.key == key
    && r.steps[j].identity.deviceId.GetOr("") == q.deviceId
    && r.steps[j].tuple == BindingTuple(q.token, q.meetingId, held.participantId, TimeText(held.expiresAt))
  }

  lemma SameBindingLines(a: Identity, b: BindingTuple, q: BindRequest, held: JoinToken)
    requires AllClean(HubBindingLines(q, held))
    requires Join(BindingLines(a, b)) == Join(HubBindingLines(q, held))
    ensures a.deviceId.GetOr("") == q.deviceId
    ensures b == BindingTuple(q.token, q.meetingId, held.participantId, TimeText(held.expiresAt))
  {
    CleanWins(BindingLines(a, b), HubBindingLines(q, held));
    var l, m := BindingLines(a, b), HubBindingLines(q, held);
    assert l[0] == m[0] && l[1] == m[1] && l[2] == m[2] && l[3] == m[3] && l[4] == m[4];
  }

  function HubBindingLines(q: BindRequest, held: JoinToken): seq<string> {
    [q.token, q.meetingId, held.participantId, q.deviceId, TimeText(held.expiresAt)]
  }

  /** Ten lines or more are never five, whatever the fields contain. */
  lemma ChallengeIsNoBinding(a: Identity, p: Payload, q: BindRequest, held: JoinToken)
    requires AllClean(HubBindingLines(q, held))
    ensures Join(AgentLines(a, p)) != Join(HubBindingLines(q, held))
  {
    if Join(AgentLines(a, p)) == Join(HubBindingLines(q, held)) {
      CleanWins(AgentLines(a, p), HubBindingLines(q, held));
    }
  }

  /** A call past its signature check has a signature that verified. */
  ghost predicate SignedFor(q: BindRequest, pc: BindPc) {
    pc.BindAccepted? || pc.BindConsumed? || pc.BindWritten? ==> BindSigned(q, pc.held, pc.device)
  }

  lemma {:induction false} BindChecked(r: Run, i: nat, k: nat)
    requires Valid(r) && BindInProgress(r, i, k)
    ensures SignedFor(r.worlds[i].binds[k].q, r.worlds[i].binds[k].pc)
  {
    if i > 0 {
      StepBack(r, i);
      if !(r.steps[i - 1].BindBegins? && r.steps[i - 1].call == k) {
        BindChecked(r, i - 1, k);
      }
    }
  }

  /**
   Token `held` is issued at step `s`, signed at step `j` by an agent with this
   key, and read by the call at step `g`.
   */
  ghost predicate IssuedSignedRead(r: Run, s: int, j: int, g: int, k: nat, q: BindRequest, held: JoinToken, key: Key) {
    s < j < g && TokenFoundAlive(r, s, g, k, q, held) && BindsExactly(r, j, q, held, key)
  }

  lemma BoundAfterIssued(r: Run, s: int, j: int, t: string, held: JoinToken)
    requires Valid(r) && TokenStoredAt(r, s, t, held) && Position(r, j)
    requires r.steps[j].AgentBinds? && r.steps[j].tuple.token == t
    ensures s < j
  {
    StepBack(r, j + 1);
    if j <= s {
      UsedForever(r, j + 1, s, t);
    }
  }

  /** Who made a signature that verifies for a binding. */
  lemma BinderOf(r: Run, g: nat, q: BindRequest, held: JoinToken, key: Key)
    requires Valid(r) && g < |r.worlds| && AllClean(HubBindingLines(q, held))
    requires q.signature == Sig(key, Join(HubBindingLines(q, held))) && q.signature in r.worlds[g].signatures
    ensures exists j :: j < g && BindsExactly(r, j, q, held, key)
  {
    SignatureMade(r, g, q.signature);
    var j :| j < g && MakesAt(r, j, q.signature);
    match r.steps[j]
    case AgentSigns(a, p) => ChallengeIsNoBinding(a, p, q, held);
    case AgentBinds(a, b) =>
      SameBindingLines(a, b, q, held);
      assert BindsExactly(r, j, q, held, key);
  }

  /**
   Agreement on bindings: a device is bound under a key that only agents hold
   only if an agent with that key and that device id signed this very token,
   meeting, participant and expiry, after the token was issued and within the
   thirty seconds in which the hub read it back.
   */
  lemma BindingAgreement(r: Run, i: nat, k: nat, key: Key)
    requires Valid(r) && BindInProgress(r, i, k) && r.worlds[i].binds[k].pc.BindAccepted?
    requires r.worlds[i].binds[k].pc.device.publicKey == Pub(key) && key in r.worlds[0].agentKeys
    requires AllClean(HubBindingLines(r.worlds[i].binds[k].q, r.worlds[i].binds[k].pc.held))
    ensures var call := r.worlds[i].binds[k];
      exists s, j, g :: g < i && IssuedSignedRead(r, s, j, g, k, call.q, call.pc.held, key)
  {
    var q, held := r.worlds[i].binds[k].q, r.worlds[i].binds[k].pc.held;
    BindChecked(r, i, k);
    BindGot(r, i, k);
    var g :| g < i && TokenReadAt(r, g, k, q, held);
    assert StepAt(r, g);
    SameAgentKeys(r, g);
    BinderOf(r, g, q, held, key);
    var j :| j < g && BindsExactly(r, j, q, held, key);
    TokenFoundWhileAlive(r, g, k, q, held);
    var s :| TokenFoundAlive(r, s, g, k, q, held);
    BoundAfterIssued(r, s, j, q.token, held);
    assert IssuedSignedRead(r, s, j, g, k, q, held, key);
  }
}
