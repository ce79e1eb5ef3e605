/** Two verdicts on one participant written in one order and logged in the other. */
module Crossings {
  import opened Prelude
  import opened Crypto
  import opened Entities
  import opened Storage
  import opened AuditReplay
  import opened ChallengeService
  import opened HubLaws
  import opened Interleaved
  import opened CallHistory
  import opened Races
  import opened Schedules
  import opened Stories
  import opened ReplayRaces

  // ---- Two verdicts that overlap ----

  /** Call `k` is about to write its verdict on `p`. */
  ghost predicate Poised(w: World, k: nat, p: string, status: TrustStatus) {
    k in w.verifies && w.verifies[k].pc.Judged? && w.verifies[k].pc.held.participantId == p
      && w.verifies[k].pc.status == status
  }

  /** Call `k` has written its verdict on `p` and is about to log it. */
  ghost predicate Written(w: World, k: nat, p: string, status: TrustStatus) {
    k in w.verifies && w.verifies[k].pc.Updated? && w.verifies[k].pc.held.participantId == p
      && w.verifies[k].pc.status == status
  }

  /** Only the hub and call `k` have changed. */
  ghost predicate AloneMoved(w: World, w': World, k: nat) {
    && w' == w.(hub := w'.hub, verifies := w'.verifies) && w'.verifies.Keys == w.verifies.Keys + {k}
    && forall l :: l in w.verifies && l != k ==> l in w'.verifies && w'.verifies[l] == w.verifies[l]
  }

  /** What the step of a verdict at its last two places does to the calls. */
  lemma VerdictMoves(w: World, k: nat)
    requires Inv(w) && Enabled(w, VerifyContinues(k))
    requires w.verifies[k].pc.Judged? || w.verifies[k].pc.Updated?
    ensures var (pc, w') := (w.verifies[k].pc, Next(w, VerifyContinues(k)));
      && AloneMoved(w, w', k)
      && (pc.Judged? ==> Written(w', k, pc.held.participantId, pc.status))
      && (pc.Updated? ==> w'.verifies[k].pc == Finished(Verdict(pc.status, pc.valid)))
  {
    assert VerifyPcOk(w.hub, w.verifies[k].q, w.verifies[k].pc);
    VerdictPcs(w.hub, w.verifies[k].q, w.verifies[k].pc, w.now);
  }

  lemma StoryNext(r: Run, i: nat, p: string)
    requires Valid(r) && i < |r.steps|
    ensures RowStory(r, i + 1, p) == RowStory(r, i, p) + RowEffect(r.worlds[i], r.steps[i], p)
    ensures LogStory(r, i + 1, p) == LogStory(r, i, p) + LogEffect(r.worlds[i], r.steps[i], p)
  {
    assert RowEffects(p)(r.worlds[i], r.steps[i]) == RowEffect(r.worlds[i], r.steps[i], p);
    assert LogEffects(p)(r.worlds[i], r.steps[i]) == LogEffect(r.worlds[i], r.steps[i], p);
  }

  lemma WriteEffects(w: World, k: nat, p: string, status: TrustStatus)
    requires Poised(w, k, p, status)
    ensures RowEffect(w, VerifyContinues(k), p) == [Marks(status)] && LogEffect(w, VerifyContinues(k), p) == []
  {
  }

  lemma LogEffectsOnly(w: World, k: nat, p: string, status: TrustStatus)
    requires Written(w, k, p, status)
    ensures RowEffect(w, VerifyContinues(k), p) == [] && LogEffect(w, VerifyContinues(k), p) == [Marks(status)]
  {
  }

  lemma MovesAt(r: Run, i: nat, k: nat)
    requires Valid(r) && i < |r.steps| && r.steps[i] == VerifyContinues(k) && k in r.worlds[i].verifies
    requires r.worlds[i].verifies[k].pc.Judged? || r.worlds[i].verifies[k].pc.Updated?
    ensures AloneMoved(r.worlds[i], r.worlds[i + 1], k)
    ensures var pc := r.worlds[i].verifies[k].pc;
      && (pc.Judged? ==> Written(r.worlds[i + 1], k, pc.held.participantId, pc.status))
      && (pc.Updated? ==> Ended(r.worlds[i + 1], k, pc.status))
  {
    StepBack(r, i + 1);
    VerdictMoves(r.worlds[i], k);
  }

  /** Step `i` is call `k` writing its row. */
  lemma WritesAt(r: Run, i: nat, k: nat, p: string, status: TrustStatus)
    requires Valid(r) && i < |r.steps| && r.steps[i] == VerifyContinues(k) && Poised(r.worlds[i], k, p, status)
    ensures AloneMoved(r.worlds[i], r.worlds[i + 1], k) && Written(r.worlds[i + 1], k, p, status)
    ensures RowStory(r, i + 1, p) == RowStory(r, i, p) + [Marks(status)] && LogStory(r, i + 1, p) == LogStory(r, i, p)
  {
    MovesAt(r, i, k);
    StoryNext(r, i, p);
    WriteEffects(r.worlds[i], k, p, status);
  }

  /** Call `k` is over, with this status. */
  ghost predicate Ended(w: World, k: nat, status: TrustStatus) {
    && k in w.verifies && w.verifies[k].pc.Finished?
    && w.verifies[k].pc.outcome.Verdict? && w.verifies[k].pc.outcome.status == status
  }

  /** Step `i` is call `k` logging its verdict. */
  lemma LogsAt(r: Run, i: nat, k: nat, p: string, status: TrustStatus)
    requires Valid(r) && i < |r.steps| && r.steps[i] == VerifyContinues(k) && Written(r.worlds[i], k, p, status)
    ensures AloneMoved(r.worlds[i], r.worlds[i + 1], k) && Ended(r.worlds[i + 1], k, status)
    ensures RowStory(r, i + 1, p) == RowStory(r, i, p) && LogStory(r, i + 1, p) == LogStory(r, i, p) + [Marks(status)]
  {
    MovesAt(r, i, k);
    StoryNext(r, i, p);
    LogEffectsOnly(r.worlds[i], k, p, status);
  }

  /** From the moment `n` on, `k` writes, `l` writes, `l` logs, `k` logs. */
  ghost predicate CrossAt(r: Run, n: nat, k: nat, l: nat) {
    && n + 4 <= |r.steps| < |r.worlds|
    && r.steps[n] == VerifyContinues(k) && r.steps[n + 1] == VerifyContinues(l)
    && r.steps[n + 2] == VerifyContinues(l) && r.steps[n + 3] == VerifyContinues(k)
  }

  /** Both calls have written. */
  lemma BothWritten(r: Run, n: nat, k: nat, l: nat, p: string, first: TrustStatus, second: TrustStatus)
    requires Valid(r) && CrossAt(r, n, k, l) && k != l
    requires Poised(r.worlds[n], k, p, first) && Poised(r.worlds[n], l, p, second)
    ensures RowStory(r, n + 2, p) == RowStory(r, n, p) + [Marks(first)] + [Marks(second)]
    ensures LogStory(r, n + 2, p) == LogStory(r, n, p)
    ensures Written(r.worlds[n + 2], k, p, first) && Written(r.worlds[n + 2], l, p, second)
    ensures TwoMoved(r.worlds[n], r.worlds[n + 2], k, l)
  {
    WritesAt(r, n, k, p, first);
    WritesAt(r, n + 1, l, p, second);
  }

  /** Only the hub and the calls `k` and `l` have changed. */
  ghost predicate TwoMoved(w: World, w': World, k: nat, l: nat) {
    && w' == w.(hub := w'.hub, verifies := w'.verifies) && w'.verifies.Keys == w.verifies.Keys + {k, l}
    && forall m :: m in w.verifies && m != k && m != l ==> m in w'.verifies && w'.verifies[m] == w.verifies[m]
  }

  /** And both have logged. */
  lemma BothLogged(r: Run, n: nat, k: nat, l: nat, p: string, first: TrustStatus, second: TrustStatus)
    requires Valid(r) && CrossAt(r, n, k, l) && k != l
    requires Written(r.worlds[n + 2], k, p, first) && Written(r.worlds[n + 2], l, p, second)
    ensures RowStory(r, n + 4, p) == RowStory(r, n + 2, p)
    ensures LogStory(r, n + 4, p) == LogStory(r, n + 2, p) + [Marks(second)] + [Marks(first)]
    ensures Ended(r.worlds[n + 4], k, first) && Ended(r.worlds[n + 4], l, second)
    ensures TwoMoved(r.worlds[n + 2], r.worlds[n + 4], k, l)
  {
    LogsAt(r, n + 2, l, p, second);
    LogsAt(r, n + 3, k, p, first);
  }

  /** The two stories, and the two calls, after the crossing. */
  lemma Crossed(r: Run, n: nat, k: nat, l: nat, p: string, first: TrustStatus, second: TrustStatus)
    requires Valid(r) && CrossAt(r, n, k, l) && k != l
    requires Poised(r.worlds[n], k, p, first) && Poised(r.worlds[n], l, p, second)
    ensures RowStory(r, n + 4, p) == RowStory(r, n, p) + [Marks(first)] + [Marks(second)]
    ensures LogStory(r, n + 4, p) == LogStory(r, n, p) + [Marks(second)] + [Marks(first)]
    ensures Ended(r.worlds[n + 4], k, first) && Ended(r.worlds[n + 4], l, second)
    ensures TwoMoved(r.worlds[n], r.worlds[n + 4], k, l)
  {
    BothWritten(r, n, k, l, p, first, second);
    BothLogged(r, n, k, l, p, first, second);
  }

  lemma LastOfTwo(story: seq<Effect>, a: TrustStatus, b: TrustStatus)
    ensures LastStatus(story + [Marks(a)] + [Marks(b)]) == Some(b)
    ensures LastDevice(story + [Marks(a)] + [Marks(b)]) == LastDevice(story)
  {
    assert (story + [Marks(a)])[..|story|] == story;
    assert (story + [Marks(a)] + [Marks(b)])[..|story| + 1] == story + [Marks(a)];
  }

  lemma CrossedRight(r: Run, i: nat, p: string, row: seq<Effect>, logged: seq<Effect>,
                     first: TrustStatus, second: TrustStatus)
    requires Valid(r) && i < |r.worlds|
    requires RowStory(r, i, p) == row + [Marks(first)] + [Marks(second)]
    requires LogStory(r, i, p) == logged + [Marks(second)] + [Marks(first)]
    ensures Replayed(r.worlds[i].hub.audit, p) == Shown(r.worlds[i].hub, p) <==>
      first == second && LastDevice(logged) == LastDevice(row)
  {
    LastOfTwo(row, first, second);
    LastOfTwo(logged, second, first);
    ReplayExact(r, i, p);
  }

  /**
   In every run in which two verdicts on one participant are written in one order
   and logged in the other, the log is right about the participant afterwards
   exactly when the two statuses are the same and the last device was right before.
   */
  lemma CrossedVerdicts(r: Run, n: nat, k: nat, l: nat, p: string, first: TrustStatus, second: TrustStatus)
    requires Valid(r) && CrossAt(r, n, k, l) && k != l
    requires Poised(r.worlds[n], k, p, first) && Poised(r.worlds[n], l, p, second)
    ensures Ended(r.worlds[n + 4], k, first) && Ended(r.worlds[n + 4], l, second)
    ensures Replayed(r.worlds[n + 4].hub.audit, p) == Shown(r.worlds[n + 4].hub, p) <==>
      first == second && LastDevice(LogStory(r, n, p)) == LastDevice(RowStory(r, n, p))
  {
    Crossed(r, n, k, l, p, first, second);
    CrossedRight(r, n + 4, p, RowStory(r, n, p), LogStory(r, n, p), first, second);
  }

  lemma Writes(r: Run, k: nat, p: string, status: TrustStatus) returns (r': Run)
    requires Valid(r) && Poised(Last(r), k, p, status)
    ensures Valid(r') && Extends(r, r') && r'.steps == r.steps + [VerifyContinues(k)]
    ensures AloneMoved(Last(r), Last(r'), k) && Written(Last(r'), k, p, status)
  {
    Reachable(r, |r.steps|);
    ThenValid(r, VerifyContinues(k));
    r' := Then(r, VerifyContinues(k));
    VerdictMoves(Last(r), k);
  }

  lemma Logs(r: Run, k: nat, p: string, status: TrustStatus) returns (r': Run)
    requires Valid(r) && Written(Last(r), k, p, status)
    ensures Valid(r') && Extends(r, r') && r'.steps == r.steps + [VerifyContinues(k)]
    ensures AloneMoved(Last(r), Last(r'), k)
  {
    Reachable(r, |r.steps|);
    ThenValid(r, VerifyContinues(k));
    r' := Then(r, VerifyContinues(k));
    VerdictMoves(Last(r), k);
  }

  /** Two calls about to write can always cross. */
  lemma CanCross(r: Run, k: nat, l: nat, p: string, first: TrustStatus, second: TrustStatus) returns (r': Run)
    requires Valid(r) && k != l && Poised(Last(r), k, p, first) && Poised(Last(r), l, p, second)
    ensures Valid(r') && Extends(r, r') && |r'.steps| == |r.steps| + 4 && CrossAt(r', |r.steps|, k, l)
  {
    var r1 := Writes(r, k, p, first);
    var r2 := Writes(r1, l, p, second);
    var r3 := Logs(r2, l, p, second);
    r' := Logs(r3, k, p, first);
  }

  // ---- Such a state is reachable ----

  /** Call `k` begins and finds its challenge. */
  lemma Fetches(r: Run, k: nat, q: Response) returns (r': Run)
    requires Valid(r) && k !in Last(r).verifies && Finds(Last(r), q) && Deliverable(Last(r), q.signature)
    ensures Valid(r') && Extends(r, r') && AloneMoved(Last(r), Last(r'), k) && Last(r').hub == Last(r).hub
    ensures Last(r').verifies[k] == VerifyCall(q, Fetched(Last(r).hub.challenges[q.challengeId].value))
  {
    ThenValid(r, VerifyBegins(k, q));
    r' := Then(r, VerifyBegins(k, q));
  }

  /** It goes on alone until it has read the device row. */
  lemma Loads(r: Run, k: nat, c: Challenge) returns (r': Run)
    requires Valid(r) && k in Last(r).verifies && Last(r).verifies[k].pc == Fetched(c)
    requires c.deviceId == Last(r).verifies[k].q.deviceId && c.deviceId in Last(r).hub.devices
    ensures Valid(r') && Extends(r, r') && AloneMoved(Last(r), Last(r'), k) && Last(r').hub == Last(r).hub
    ensures var w := Last(r);
      Last(r').verifies[k] == VerifyCall(w.verifies[k].q, Loaded(c, w.now > c.expiresAt, w.hub.devices[c.deviceId]))
  {
    ThenValid(r, VerifyContinues(k));
    var r1 := Then(r, VerifyContinues(k));
    ThenValid(r1, VerifyContinues(k));
    r' := Then(r1, VerifyContinues(k));
  }

  /** From there it goes on alone until it has judged. */
  lemma Evaluates(r: Run, k: nat) returns (r': Run)
    requires Valid(r) && k in Last(r).verifies && Last(r).verifies[k].pc.Loaded?
    ensures Valid(r') && Extends(r, r') && AloneMoved(Last(r), Last(r'), k)
    ensures var (w, call) := (Last(r), Last(r).verifies[k]); var pc := call.pc;
      && Last(r').hub == w.hub.(challenges := Drop(w.hub.challenges, call.q.challengeId))
      && Poised(Last(r'), k, pc.held.participantId, StatusOf(pc.held, pc.expired, pc.device, call.q.signature, w.now))
  {
    ThenValid(r, VerifyContinues(k));
    var r1 := Then(r, VerifyContinues(k));
    ThenValid(r1, VerifyContinues(k));
    r' := Then(r1, VerifyContinues(k));
  }

  /** Challenges of participant `p` wait for answers from an active, fresh device, and nothing else is under way. */
  ghost predicate Open(w: World, ids: set<string>) {
    && w.now == 0 && w.agentKeys == {} && Idle(w)
    && "d" in w.hub.devices && w.hub.devices["d"].publicKey == Pub(1) && w.hub.devices["d"].status == Active
    && w.hub.devices["d"].lastHeartbeat == Some(0)
    && forall id :: id in ids ==> Lookup(w.hub.challenges, id, 0) == Some(IssuedTo(id))
  }

  /** One of them is answered and judged, its row not yet written. */
  lemma Answered(r: Run, ids: set<string>, k: nat, id: string, signature: Signature) returns (r': Run)
    requires Valid(r) && Open(Last(r), ids) && id in ids && k !in Last(r).verifies
    ensures Valid(r') && Extends(r, r') && Open(Last(r'), ids - {id}) && AloneMoved(Last(r), Last(r'), k)
    ensures Poised(Last(r'), k, "p", if signature == Sig(1, ChallengeMaterial(IssuedTo(id))) then Verified else Failed)
  {
    var r1 := Fetches(r, k, Response(id, "d", signature));
    var r2 := Loads(r1, k, IssuedTo(id));
    r' := Evaluates(r2, k);
  }

  lemma BothOpen(w: World)
    requires Waiting(w, {"c", "e"})
    ensures Open(w, {"c", "e"})
  {
  }

  /** Two of them are answered, one wrongly and one rightly. */
  lemma OneOfEach(r: Run, c: string, e: string) returns (r': Run)
    requires Valid(r) && Open(Last(r), {c, e}) && c != e && Last(r).verifies == map[]
    ensures Valid(r') && Poised(Last(r'), 0, "p", Failed) && Poised(Last(r'), 1, "p", Verified)
    ensures Last(r').verifies.Keys == {0, 1} && Idle(Last(r'))
  {
    var signature := Sig(1, ChallengeMaterial(IssuedTo(e)));
    var r1 := Answered(r, {c, e}, 0, c, Noise(""));
    r' := Answered(r1, {c, e} - {c}, 1, e, signature);
  }

  /** A rejected and an accepted answer to two challenges of one participant, both about to be written. */
  lemma FailedAndVerified() returns (r: Run)
    ensures Valid(r) && Poised(Last(r), 0, "p", Failed) && Poised(Last(r), 1, "p", Verified)
    ensures Last(r).verifies.Keys == {0, 1} && Idle(Last(r))
  {
    var r0 := TwoChallenges();
    BothOpen(Last(r0));
    assert "e"[0] != "c"[0];
    r := OneOfEach(r0, "c", "e");
  }

  /** Call `k` found a challenge of participant `p`, and ended in a verdict of this status on it. */
  ghost predicate VerdictOn(r: Run, k: nat, p: string, status: TrustStatus)
    requires Valid(r)
  {
    Ended(Last(r), k, status) && exists g, q, c :: GetsAt(r, g, k, q, c) && c.participantId == p
  }

  /**
   Two calls have each judged participant `p`, nothing about `p` is still to be
   logged, and yet the row says VERIFIED and the log FAILED.
   */
  ghost predicate Lying(r: Run, k: nat, l: nat, p: string) {
    && Valid(r) && k != l && Quiet(Last(r), p)
    && VerdictOn(r, k, p, Failed) && VerdictOn(r, l, p, Verified)
    && (var row := Shown(Last(r).hub, p); row.Some? && row.value.trust == Verified)
    && (var told := Replayed(Last(r).hub.audit, p); told.Some? && told.value.trust == Failed)
  }

  /** The verdict a call is about to write is one on the participant of the challenge it found. */
  lemma PoisedGot(r: Run, r': Run, k: nat, p: string, status: TrustStatus)
    requires Valid(r) && Valid(r') && Extends(r, r') && Poised(Last(r), k, p, status)
    ensures exists g, q, c :: GetsAt(r', g, k, q, c) && c.participantId == p
  {
    var q, c := Last(r).verifies[k].q, Last(r).verifies[k].pc.held;
    CallGot(r, |r.steps|, k);
    var g :| g < |r.steps| && GetsAt(r, g, k, q, c);
    assert GetsAt(r', g, k, q, c);
  }

  /** Such a run exists. */
  lemma LogLies()
    ensures exists r :: Lying(r, 0, 1, "p")
  {
    var r0 := FailedAndVerified();
    var r := CanCross(r0, 0, 1, "p", Failed, Verified);
    CrossingLies(r0, r);
  }

  lemma NothingOwed(w: World, w': World, p: string, first: TrustStatus, second: TrustStatus)
    requires Idle(w) && w.verifies.Keys == {0, 1} && TwoMoved(w, w', 0, 1)
    requires Ended(w', 0, first) && Ended(w', 1, second)
    ensures Quiet(w', p)
  {
  }

  lemma CrossingLies(r0: Run, r: Run)
    requires Valid(r0) && Poised(Last(r0), 0, "p", Failed) && Poised(Last(r0), 1, "p", Verified)
    requires Last(r0).verifies.Keys == {0, 1} && Idle(Last(r0))
    requires Valid(r) && Extends(r0, r) && |r.steps| == |r0.steps| + 4 && CrossAt(r, |r0.steps|, 0, 1)
    ensures Lying(r, 0, 1, "p")
  {
    var n := |r0.steps|;
    assert r.worlds[n] == Last(r0);
    Crossed(r, n, 0, 1, "p", Failed, Verified);
    NothingOwed(r.worlds[n], Last(r), "p", Failed, Verified);
    LastsTold(r, "p", RowStory(r, n, "p"), LogStory(r, n, "p"), Failed, Verified);
    PoisedGot(r0, r, 0, "p", Failed);
    PoisedGot(r0, r, 1, "p", Verified);
  }

  lemma LastsTold(r: Run, p: string, row: seq<Effect>, logged: seq<Effect>, first: TrustStatus, second: TrustStatus)
    requires Valid(r)
    requires RowStory(r, |r.steps|, p) == row + [Marks(first)] + [Marks(second)]
    requires LogStory(r, |r.steps|, p) == logged + [Marks(second)] + [Marks(first)]
    ensures var seen := Shown(Last(r).hub, p); seen.Some? && seen.value.trust == second
    ensures var told := Replayed(Last(r).hub.audit, p); told.Some? && told.value.trust == first
  {
    LastOfTwo(row, first, second);
    LastOfTwo(logged, second, first);
    RowTells(r, |r.steps|, p);
    LogTells(r, |r.steps|, p);
    TellsLast(RowStory(r, |r.steps|, p));
    TellsLast(LogStory(r, |r.steps|, p));
  }
}
