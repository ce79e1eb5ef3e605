/** For a call in progress: when each of its earlier steps was taken, and what it saw. */
module CallHistory {
  import opened Prelude
  import opened Crypto
  import opened Entities
  import opened Storage
  import opened ChallengeService
  import opened AgentSigning
  import opened Interleaved

  ghost predicate Position(r: Run, i: int) {
    |r.worlds| == |r.steps| + 1 && 0 <= i < |r.steps|
  }

  ghost predicate InProgress(r: Run, i: int, k: nat) {
    0 <= i < |r.worlds| && k in r.worlds[i].verifies && !r.worlds[i].verifies[k].pc.Finished?
  }

  /** Step `g` is the GET of call `k`, and it finds `c`. */
  ghost predicate GetsAt(r: Run, g: int, k: nat, q: Response, c: Challenge) {
    && Position(r, g)
    && r.steps[g] == VerifyBegins(k, q)
    && Lookup(r.worlds[g].hub.challenges, q.challengeId, r.worlds[g].now) == Some(c)
  }

  /** Step `g` is call `k` comparing the clock with the expiry. */
  ghost predicate ChecksAt(r: Run, g: int, k: nat, c: Challenge, expired: bool) {
    && Position(r, g)
    && r.steps[g] == VerifyContinues(k)
    && k in r.worlds[g].verifies && r.worlds[g].verifies[k].pc == Fetched(c)
    && (expired <==> r.worlds[g].now > c.expiresAt)
  }

  /** Step `g` is call `k` reading the device row. */
  ghost predicate ReadsAt(r: Run, g: int, k: nat, c: Challenge, device: Device) {
    && Position(r, g)
    && r.steps[g] == VerifyContinues(k)
    && k in r.worlds[g].verifies && r.worlds[g].verifies[k].pc.Checked? && r.worlds[g].verifies[k].pc.held == c
    && c.deviceId in r.worlds[g].hub.devices && r.worlds[g].hub.devices[c.deviceId] == device
  }

  /** Step `d` is a DEL of challenge `id`. */
  ghost predicate DeletesAt(r: Run, d: int, id: string) {
    && Position(r, d)
    && r.steps[d].VerifyContinues?
    && r.steps[d].call in r.worlds[d].verifies
    && r.worlds[d].verifies[r.steps[d].call].pc.Loaded?
    && r.worlds[d].verifies[r.steps[d].call].q.challengeId == id
  }

  /** Step `s` is the turn of an issue loop that stores `c`. */
  ghost predicate StoresAt(r: Run, s: int, c: Challenge) {
    && Position(r, s)
    && r.steps[s].IssueContinues? && r.steps[s].draw.id == c.id
    && c.id !in r.worlds[s].used
    && c.id in r.worlds[s + 1].hub.challenges
    && r.worlds[s + 1].hub.challenges[c.id] == Expiring(c, Some(r.worlds[s].now + 15_000))
  }

  /** The one step back that every history argument takes. */
  lemma StepBack(r: Run, i: nat)
    requires Valid(r) && 0 < i < |r.worlds|
    ensures Enabled(r.worlds[i - 1], r.steps[i - 1]) && r.worlds[i] == Next(r.worlds[i - 1], r.steps[i - 1])
    ensures Inv(r.worlds[i - 1])
  {
    assert StepAt(r, i - 1);
    Reachable(r, i - 1);
  }

  lemma HubAt(r: Run, i: int)
    requires Valid(r) && Position(r, i)
    ensures Enabled(r.worlds[i], r.steps[i]) && r.worlds[i + 1].hub == HubAfter(r.worlds[i], r.steps[i])
  {
    assert StepAt(r, i);
  }

  /** A call is new when it begins, and only what can be delivered begins it. */
  lemma BeginsNew(r: Run, g: int)
    requires Valid(r) && Position(r, g) && r.steps[g].VerifyBegins?
    ensures r.steps[g].call !in r.worlds[g].verifies && Deliverable(r.worlds[g], r.steps[g].response.signature)
  {
    assert StepAt(r, g);
  }

  /** A call that the last step did not begin was there before, with the same request and challenge. */
  lemma CallBefore(r: Run, i: nat, k: nat)
    requires Valid(r) && 0 < i && InProgress(r, i, k)
    requires !(r.steps[i - 1].VerifyBegins? && r.steps[i - 1].call == k)
    ensures InProgress(r, i - 1, k)
    ensures r.worlds[i - 1].verifies[k].q == r.worlds[i].verifies[k].q
    ensures r.worlds[i - 1].verifies[k].pc.held == r.worlds[i].verifies[k].pc.held
    ensures r.steps[i - 1] != VerifyContinues(k) ==> r.worlds[i - 1].verifies[k] == r.worlds[i].verifies[k]
    ensures r.steps[i - 1] == VerifyContinues(k) ==>
      var c := r.worlds[i - 1].verifies[k];
      r.worlds[i].verifies[k].pc == VerifyNext(r.worlds[i - 1].hub, c.q, c.pc, r.worlds[i - 1].now).1
  {
    StepBack(r, i);
  }

  lemma {:induction false} CallGot(r: Run, i: nat, k: nat)
    requires Valid(r) && InProgress(r, i, k)
    ensures var call := r.worlds[i].verifies[k]; exists g :: g < i && GetsAt(r, g, k, call.q, call.pc.held)
  {
    StepBackOrStart(r, i, k);
    if r.steps[i - 1].VerifyBegins? && r.steps[i - 1].call == k {
      StepBack(r, i);
      assert GetsAt(r, i - 1, k, r.worlds[i].verifies[k].q, r.worlds[i].verifies[k].pc.held);
    } else {
      CallBefore(r, i, k);
      CallGot(r, i - 1, k);
    }
  }

  lemma StepBackOrStart(r: Run, i: nat, k: nat)
    requires Valid(r) && InProgress(r, i, k)
    ensures i > 0
  {
  }

  function ExpiredOf(pc: VerifyPc): Option<bool> {
    match pc
    case Checked(_, expired) => Some(expired)
    case Loaded(_, expired, _) => Some(expired)
    case Removed(_, expired, _) => Some(expired)
    case _ => None
  }

  lemma {:induction false} CallChecked(r: Run, i: nat, k: nat)
    requires Valid(r) && InProgress(r, i, k) && ExpiredOf(r.worlds[i].verifies[k].pc).Some?
    ensures var pc := r.worlds[i].verifies[k].pc; exists g :: g < i && ChecksAt(r, g, k, pc.held, ExpiredOf(pc).value)
  {
    StepBackOrStart(r, i, k);
    StepBack(r, i);
    CallBefore(r, i, k);
    var before, after := r.worlds[i - 1].verifies[k].pc, r.worlds[i].verifies[k].pc;
    if before.Fetched? {
      assert ChecksAt(r, i - 1, k, after.held, ExpiredOf(after).value);
    } else {
      assert ExpiredOf(before) == ExpiredOf(after);
      CallChecked(r, i - 1, k);
    }
  }

  lemma {:induction false} CallRead(r: Run, i: nat, k: nat)
    requires Valid(r) && InProgress(r, i, k)
    requires r.worlds[i].verifies[k].pc.Loaded? || r.worlds[i].verifies[k].pc.Removed?
    ensures var pc := r.worlds[i].verifies[k].pc; exists g :: g < i && ReadsAt(r, g, k, pc.held, pc.device)
  {
    StepBackOrStart(r, i, k);
    StepBack(r, i);
    CallBefore(r, i, k);
    var before, after := r.worlds[i - 1].verifies[k].pc, r.worlds[i].verifies[k].pc;
    if before.Checked? {
      assert ReadsAt(r, i - 1, k, after.held, after.device);
    } else {
      assert before.device == after.device;
      CallRead(r, i - 1, k);
    }
  }

  // ---- Challenges ----

  lemma {:induction false} ChallengeStored(r: Run, i: nat, id: string)
    requires Valid(r) && i < |r.worlds| && id in r.worlds[i].hub.challenges
    ensures var e := r.worlds[i].hub.challenges[id];
      exists s :: s < i && StoresAt(r, s, e.value) && e.deadline == Some(r.worlds[s].now + 15_000)
  {
    StepBack(r, i);
    ChallengesStep(r.worlds[i - 1], r.steps[i - 1], id);
    var w := r.worlds[i - 1];
    if id in w.hub.challenges && r.worlds[i].hub.challenges[id] == w.hub.challenges[id] {
      ChallengeStored(r, i - 1, id);
    } else {
      assert StoresAt(r, i - 1, r.worlds[i].hub.challenges[id].value);
    }
  }

  lemma {:induction false} UsedForever(r: Run, i: nat, j: nat, id: string)
    requires Valid(r) && i <= j < |r.worlds| && id in r.worlds[i].used
    ensures id in r.worlds[j].used
    decreases j
  {
    if i < j {
      UsedForever(r, i, j - 1, id);
      StepBack(r, j);
    }
  }

  lemma GoneStep(w: World, s: Step, id: string)
    requires Enabled(w, s) && id in w.used && id !in w.hub.challenges
    ensures id !in HubAfter(w, s).challenges
  {
    if id in HubAfter(w, s).challenges {
      ChallengesStep(w, s, id);
    }
  }

  /** An id that was drawn and is no longer stored never comes back. */
  lemma {:induction false} GoneForever(r: Run, i: nat, j: nat, id: string)
    requires Valid(r) && i <= j < |r.worlds|
    requires id in r.worlds[i].used && id !in r.worlds[i].hub.challenges
    ensures id !in r.worlds[j].hub.challenges
    decreases j
  {
    if i < j {
      GoneForever(r, i, j - 1, id);
      UsedForever(r, i, j - 1, id);
      StepBack(r, j);
      GoneStep(r.worlds[j - 1], r.steps[j - 1], id);
    }
  }

  // ---- Signatures ----

  /** Step `j` is an agent making signature `s`. */
  ghost predicate MakesAt(r: Run, j: int, s: Signature) {
    && Position(r, j)
    && match r.steps[j]
       case AgentSigns(a, p) => SignChallenge(a, p) == Some(s)
       case AgentBinds(a, b) => SignBinding(a, b) == s
       case _ => false
  }

  lemma {:induction false} SignatureMade(r: Run, i: nat, s: Signature)
    requires Valid(r) && i < |r.worlds| && s in r.worlds[i].signatures
    ensures exists j :: j < i && MakesAt(r, j, s)
  {
    StepBack(r, i);
    if s in r.worlds[i - 1].signatures {
      SignatureMade(r, i - 1, s);
    } else {
      assert MakesAt(r, i - 1, s);
    }
  }

  lemma {:induction false} SameAgentKeys(r: Run, i: nat)
    requires Valid(r) && i < |r.worlds|
    ensures r.worlds[i].agentKeys == r.worlds[0].agentKeys
  {
    if i > 0 {
      SameAgentKeys(r, i - 1);
      StepBack(r, i);
    }
  }
}
