/** Several calls against one challenge: exactly which of them reach a verdict. */
module Races {
  import opened Prelude
  import opened Crypto
  import opened Entities
  import opened Storage
  import opened ChallengeService
  import opened HubLaws
  import opened Interleaved
  import opened CallHistory
  import opened Safety
  import opened Schedules

  // ---- What a GET finds ----

  /** No DEL of challenge `id` between two moments. */
  ghost predicate Undeleted(r: Run, i: int, j: int, id: string) {
    forall d :: i <= d < j ==> !DeletesAt(r, d, id)
  }

  lemma KeptByIssue(h: Hub, meetingId: string, tenantId: string, row: Row, draw: Draw, id: string)
    requires id in h.challenges && id != draw.id
    ensures var m := IssueStart(h, meetingId, tenantId, row, draw).0.challenges;
      id in m && m[id] == h.challenges[id]
  {
  }

  ghost predicate Deletes(w: World, s: Step, id: string) {
    s.VerifyContinues? && s.call in w.verifies
    && w.verifies[s.call].pc.Loaded? && w.verifies[s.call].q.challengeId == id
  }

  lemma ChallengeStays(w: World, s: Step, id: string)
    requires Enabled(w, s) && id in w.hub.challenges && id in w.used && !Deletes(w, s, id)
    ensures id in HubAfter(w, s).challenges && HubAfter(w, s).challenges[id] == w.hub.challenges[id]
  {
    if s.VerifyContinues? {
      KeptByVerify(w.hub, w.verifies[s.call].q, w.verifies[s.call].pc, w.now);
    } else if s.BindContinues? {
      KeptByBind(w.hub, w.binds[s.call].q, w.binds[s.call].pc, w.now);
    } else if s.IssueContinues? {
      var c := w.issues[s.call];
      KeptByIssue(w.hub, c.meetingId, c.tenantId, c.pending[0], s.draw, id);
    } else {
      KeptByRest(w, s);
    }
  }

  lemma KeptByRest(w: World, s: Step)
    requires Enabled(w, s) && !s.VerifyContinues? && !s.BindContinues? && !s.IssueContinues?
    ensures HubAfter(w, s).challenges == w.hub.challenges
  {
  }

  lemma {:induction false} StoredUntilDeleted(r: Run, i: nat, j: nat, id: string)
    requires Valid(r) && i <= j < |r.worlds| && id in r.worlds[i].hub.challenges && Undeleted(r, i, j, id)
    ensures id in r.worlds[j].hub.challenges && r.worlds[j].hub.challenges[id] == r.worlds[i].hub.challenges[id]
    decreases j
  {
    if i < j {
      StoredUntilDeleted(r, i, j - 1, id);
      StepBack(r, j);
      assert !DeletesAt(r, j - 1, id);
      assert !Deletes(r.worlds[j - 1], r.steps[j - 1], id);
      ChallengeStays(r.worlds[j - 1], r.steps[j - 1], id);
    }
  }

  /** A stored challenge is found by a later GET exactly within fifteen seconds and before the first DEL. */
  lemma FoundIff(r: Run, s: int, g: int, c: Challenge)
    requires Valid(r) && StoresAt(r, s, c) && s < g < |r.worlds|
    ensures var w := r.worlds[g];
      Lookup(w.hub.challenges, c.id, w.now) ==
        if w.now <= r.worlds[s].now + 15_000 && Undeleted(r, s, g, c.id) then Some(c) else None
  {
    if Undeleted(r, s, g, c.id) {
      StoredUntilDeleted(r, s + 1, g, c.id);
    } else {
      var d :| s <= d < g && DeletesAt(r, d, c.id);
      DeletedIsGone(r, d, g, c.id);
    }
  }

  // ---- What a call makes of it ----

  /** Step `g` begins call `k` with request `q`. */
  ghost predicate Begins(r: Run, g: int, k: nat, q: Response) {
    Position(r, g) && r.steps[g] == VerifyBegins(k, q)
  }

  ghost predicate Finds(w: World, q: Response) {
    var found := Lookup(w.hub.challenges, q.challengeId, w.now);
    found.Some? && found.value.deviceId == q.deviceId
  }

  /** Call `k` is over at the moment `i`. */
  ghost predicate OverAt(r: Run, i: int, k: nat) {
    0 <= i < |r.worlds| && k in r.worlds[i].verifies && r.worlds[i].verifies[k].pc.Finished?
  }

  ghost predicate Judged(r: Run, i: int, k: nat) {
    OverAt(r, i, k) && r.worlds[i].verifies[k].pc.outcome.Verdict?
  }

  /** What the GET at step `g` fixes about the call it begins, for the rest of the run. */
  ghost predicate Bound(w: World, q: Response, later: VerifyCall) {
    && later.q == q
    && (if later.pc.Finished? then later.pc.outcome.Verdict? <==> Finds(w, q)
        else Lookup(w.hub.challenges, q.challengeId, w.now) == Some(later.pc.held))
  }

  lemma {:induction false} CallFollows(r: Run, g: int, i: nat, k: nat, q: Response)
    requires Valid(r) && Begins(r, g, k, q) && g < i < |r.worlds|
    ensures k in r.worlds[i].verifies && Bound(r.worlds[g], q, r.worlds[i].verifies[k])
  {
    if g == i - 1 {
      BoundFirst(r, g, k, q);
    } else {
      CallFollows(r, g, i - 1, k, q);
      BoundStep(r, g, i, k, q);
    }
  }

  lemma BoundFirst(r: Run, g: nat, k: nat, q: Response)
    requires Valid(r) && Begins(r, g, k, q)
    ensures k in r.worlds[g + 1].verifies && Bound(r.worlds[g], q, r.worlds[g + 1].verifies[k])
  {
    StepBack(r, g + 1);
  }

  lemma BoundStep(r: Run, g: int, i: nat, k: nat, q: Response)
    requires Valid(r) && Begins(r, g, k, q) && g < i - 1 && i < |r.worlds|
    requires k in r.worlds[i - 1].verifies && Bound(r.worlds[g], q, r.worlds[i - 1].verifies[k])
    ensures k in r.worlds[i].verifies && Bound(r.worlds[g], q, r.worlds[i].verifies[k])
  {
    StepBack(r, i);
    var w, s := r.worlds[i - 1], r.steps[i - 1];
    assert VerifyPcOk(w.hub, w.verifies[k].q, w.verifies[k].pc);
    if s == VerifyContinues(k) {
      BoundNext(r.worlds[g], w.hub, q, w.verifies[k].pc, w.now);
    }
  }

  lemma BoundNext(w: World, h: Hub, q: Response, pc: VerifyPc, now: nat)
    requires !pc.Finished? && VerifyPcOk(h, q, pc) && Bound(w, q, VerifyCall(q, pc))
    ensures Bound(w, q, VerifyCall(q, VerifyNext(h, q, pc, now).1))
  {
  }

  /** In any schedule, a call ends in a verdict exactly when its GET found a challenge for its device. */
  lemma VerdictIffFound(r: Run, g: int, i: int, k: nat, q: Response)
    requires Valid(r) && Begins(r, g, k, q) && g < i && OverAt(r, i, k)
    ensures Judged(r, i, k) <==> Finds(r.worlds[g], q)
  {
    CallFollows(r, g, i, k, q);
  }

  /** A call begun at step `g` about challenge `c`, in time and before any DEL of it, from its device. */
  ghost predicate InTime(r: Run, s: int, g: int, q: Response, c: Challenge)
    requires Position(r, s) && Position(r, g)
  {
    c.deviceId == q.deviceId && r.worlds[g].now <= r.worlds[s].now + 15_000 && Undeleted(r, s, g, c.id)
  }

  /**
   Said of the schedule alone: a call about a stored challenge ends in a verdict
   exactly when it is from the challenge's device and its GET came within
   fifteen seconds and before the first DEL, whatever ran in between.
   */
  lemma VerdictIff(r: Run, s: int, g: int, i: int, k: nat, q: Response, c: Challenge)
    requires Valid(r) && StoresAt(r, s, c) && s < g && q.challengeId == c.id
    requires Begins(r, g, k, q) && g < i && OverAt(r, i, k)
    ensures Judged(r, i, k) <==> InTime(r, s, g, q, c)
  {
    VerdictIffFound(r, g, i, k, q);
    FoundIff(r, s, g, c);
  }

  /** A request for an id that was never stored, or not yet, gets no verdict. */
  lemma NoChallengeNoVerdict(r: Run, g: int, i: int, k: nat, q: Response)
    requires Valid(r) && Begins(r, g, k, q) && g < i && Judged(r, i, k)
    ensures exists s, c :: s < g && StoresAt(r, s, c) && c.id == q.challengeId && InTime(r, s, g, q, c)
  {
    VerdictIffFound(r, g, i, k, q);
    Reachable(r, g);
    ChallengeStored(r, g, q.challengeId);
    var c := r.worlds[g].hub.challenges[q.challengeId].value;
    var s :| s < g && StoresAt(r, s, c);
    FoundIff(r, s, g, c);
  }

  /**
   Two calls both judge one challenge exactly when both are from its device and
   both do their GET within fifteen seconds and before the first DEL. So a
   second verdict needs a GET that overtakes the first call's DEL.
   */
  lemma BothJudge(r: Run, s: int, g: int, m: int, i: int, k: nat, l: nat, q: Response, p: Response, c: Challenge)
    requires Valid(r) && StoresAt(r, s, c) && s < g <= m && q.challengeId == p.challengeId == c.id
    requires Begins(r, g, k, q) && Begins(r, m, l, p) && m < i && OverAt(r, i, k) && OverAt(r, i, l)
    ensures Judged(r, i, k) && Judged(r, i, l) <==>
      && c.deviceId == q.deviceId == p.deviceId
      && r.worlds[m].now <= r.worlds[s].now + 15_000
      && Undeleted(r, s, m, c.id)
  {
    VerdictIff(r, s, g, i, k, q, c);
    VerdictIff(r, s, m, i, l, p, c);
    RunGrows(r, g, m);
  }

  // ---- Two verdicts do happen ----

  /**
   The two calls begin one after the other where `r` ends, both GETs find the one
   challenge `c`, and in the end both calls have answered their own request with
   a verdict.
   */
  ghost predicate TwiceJudged(r: Run, r': Run, k: nat, l: nat, q: Response, p: Response, c: Challenge) {
    && Valid(r') && Extends(r, r') && k != l && q.challengeId == p.challengeId == c.id
    && GetsAt(r', |r.steps|, k, q, c) && GetsAt(r', |r.steps| + 1, l, p, c)
    && Judged(r', |r'.worlds| - 1, k) && r'.worlds[|r'.worlds| - 1].verifies[k].q == q
    && Judged(r', |r'.worlds| - 1, l) && r'.worlds[|r'.worlds| - 1].verifies[l].q == p
  }

  lemma BegunStill(r: Run, r': Run, g: int, k: nat, q: Response)
    requires Begins(r, g, k, q) && Extends(r, r') && |r'.worlds| == |r'.steps| + 1
    ensures Begins(r', g, k, q) && r'.worlds[g] == r.worlds[g]
  {
  }

  lemma TwoBegun(r: Run, k: nat, l: nat, q: Response, p: Response) returns (r': Run)
    requires Valid(r) && k !in Last(r).verifies && l !in Last(r).verifies && k != l
    requires Deliverable(Last(r), q.signature) && Deliverable(Last(r), p.signature)
    ensures Valid(r') && Extends(r, r') && k in Last(r').verifies && l in Last(r').verifies
    ensures var g := |r.steps|;
      && Begins(r', g, k, q) && Begins(r', g + 1, l, p)
      && r'.worlds[g].hub == r'.worlds[g + 1].hub == Last(r).hub
      && r'.worlds[g].now == r'.worlds[g + 1].now == Last(r).now
  {
    ThenValid(r, VerifyBegins(k, q));
    var r1 := Then(r, VerifyBegins(k, q));
    ThenValid(r1, VerifyBegins(l, p));
    r' := Then(r1, VerifyBegins(l, p));
  }

  /**
   From any reachable state with a live challenge, any two responses from its
   device that begin before either deletes it are both judged.
   */
  lemma TwoVerdicts(r: Run, k: nat, l: nat, q: Response, p: Response)
    requires Valid(r) && k !in Last(r).verifies && l !in Last(r).verifies && k != l
    requires Finds(Last(r), q) && p.challengeId == q.challengeId && p.deviceId == q.deviceId
    requires Deliverable(Last(r), q.signature) && Deliverable(Last(r), p.signature)
    ensures exists r' :: TwiceJudged(r, r', k, l, q, p, Last(r).hub.challenges[q.challengeId].value)
  {
    var g := |r.steps|;
    var r2 := TwoBegun(r, k, l, q, p);
    var r3 := RunOut(r2, k);
    var r4 := RunOut(r3, l);
    var i := |r4.worlds| - 1;
    BegunStill(r2, r4, g, k, q);
    BegunStill(r2, r4, g + 1, l, p);
    JudgedInTheEnd(r4, g, k, q);
    JudgedInTheEnd(r4, g + 1, l, p);
    Reachable(r, g);
    assert TwiceJudged(r, r4, k, l, q, p, Last(r).hub.challenges[q.challengeId].value);
  }

  lemma JudgedInTheEnd(r: Run, g: int, k: nat, q: Response)
    requires Valid(r) && Begins(r, g, k, q) && Finds(r.worlds[g], q) && OverAt(r, |r.worlds| - 1, k)
    ensures Judged(r, |r.worlds| - 1, k) && r.worlds[|r.worlds| - 1].verifies[k].q == q
  {
    CallFollows(r, g, |r.worlds| - 1, k, q);
  }

  /** And such a state is reachable: one challenge, two verdicts. */
  lemma TwoVerdictsReachable()
    ensures exists r, r', q, p, c: Challenge :: Valid(r) && c.id == "c" && TwiceJudged(r, r', 0, 1, q, p, c)
  {
    var r := TwoChallenges();
    var q := Response("c", "d", Noise(""));
    assert "c" in Last(r).hub.challenges && Last(r).hub.challenges["c"].value == IssuedTo("c");
    TwoVerdicts(r, 0, 1, q, q);
  }
}
