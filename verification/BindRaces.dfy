/** Several calls against one join token: exactly which of them bind. */
module BindRaces {
  import opened Prelude
  import opened Entities
  import opened Storage
  import opened MeetingService
  import opened HubLaws
  import opened Interleaved
  import opened CallHistory
  import opened BindHistory
  import opened Schedules

  // ---- What a GET finds ----

  /** No DEL of token `t` between two moments. */
  ghost predicate Undeleted(r: Run, i: int, j: int, t: string) {
    forall d :: i <= d < j ==> !TokenDeletedAt(r, d, t)
  }

  ghost predicate Deletes(w: World, s: Step, t: string) {
    s.BindContinues? && s.call in w.binds && w.binds[s.call].pc.BindAccepted? && w.binds[s.call].q.token == t
  }

  lemma TokenStays(w: World, s: Step, t: string)
    requires Enabled(w, s) && t in w.hub.tokens && t in w.used && !Deletes(w, s, t)
    ensures t in HubAfter(w, s).tokens && HubAfter(w, s).tokens[t] == w.hub.tokens[t]
  {
    if s.VerifyContinues? {
      KeptByVerify(w.hub, w.verifies[s.call].q, w.verifies[s.call].pc, w.now);
    } else if s.BindContinues? {
      KeptByBind(w.hub, w.binds[s.call].q, w.binds[s.call].pc, w.now);
    }
  }

  lemma {:induction false} StoredUntilDeleted(r: Run, i: nat, j: nat, t: string)
    requires Valid(r) && i <= j < |r.worlds| && t in r.worlds[i].hub.tokens && Undeleted(r, i, j, t)
    ensures t in r.worlds[j].hub.tokens && r.worlds[j].hub.tokens[t] == r.worlds[i].hub.tokens[t]
    decreases j
  {
    if i < j {
      StoredUntilDeleted(r, i, j - 1, t);
      StepBack(r, j);
      assert !TokenDeletedAt(r, j - 1, t);
      assert !Deletes(r.worlds[j - 1], r.steps[j - 1], t);
      TokenStays(r.worlds[j - 1], r.steps[j - 1], t);
    }
  }

  /** A token is found by a later GET exactly within thirty seconds and before the first DEL. */
  lemma TokenFoundIff(r: Run, s: int, g: int, t: string, held: JoinToken)
    requires Valid(r) && TokenStoredAt(r, s, t, held) && s < g < |r.worlds|
    ensures var w := r.worlds[g];
      Lookup(w.hub.tokens, t, w.now) ==
        if w.now <= r.worlds[s].now + 30_000 && Undeleted(r, s, g, t) then Some(held) else None
  {
    if Undeleted(r, s, g, t) {
      StoredUntilDeleted(r, s + 1, g, t);
    } else {
      var d :| s <= d < g && TokenDeletedAt(r, d, t);
      TokenDeletedIsGone(r, d, g, t);
    }
  }

  // ---- What a call makes of it ----

  /** Step `g` begins call `k` with request `q`. */
  ghost predicate Begins(r: Run, g: int, k: nat, q: BindRequest) {
    Position(r, g) && r.steps[g] == BindBegins(k, q)
  }

  /** Step `e` is call `k` reading the device row. */
  ghost predicate RowReadAt(r: Run, e: int, k: nat) {
    && Position(r, e) && r.steps[e] == BindContinues(k)
    && k in r.worlds[e].binds && r.worlds[e].binds[k].pc.BindFetched?
  }

  ghost predicate FindsToken(w: World, q: BindRequest) {
    var found := Lookup(w.hub.tokens, q.token, w.now);
    found.Some? && found.value.meetingId == q.meetingId
  }

  /** The device is enrolled, and its key as it now is signed the binding. */
  predicate Recognised(h: Hub, q: BindRequest, held: JoinToken) {
    q.deviceId in h.devices && BindSigned(q, held, h.devices[q.deviceId])
  }

  /** The binding was written, whether or not its meeting was found after it. */
  predicate Wrote(outcome: BindOutcome) {
    outcome.Bound? || outcome.MeetingMissing?
  }

  ghost predicate OverAt(r: Run, i: int, k: nat) {
    0 <= i < |r.worlds| && k in r.worlds[i].binds && r.worlds[i].binds[k].pc.BindFinished?
  }

  ghost predicate Binds(r: Run, i: int, k: nat) {
    OverAt(r, i, k) && Wrote(r.worlds[i].binds[k].pc.outcome)
  }

  /** Call `k`, begun at step `g`, read a row that recognised it, or has not yet, by the moment `i`. */
  ghost predicate RecognisedBy(r: Run, g: int, i: int, k: nat, q: BindRequest, held: JoinToken) {
    exists e :: g < e < i && RowReadAt(r, e, k) && Recognised(r.worlds[e].hub, q, held)
  }

  /** What is fixed about a call by the moment `i`: what its GET found, and what the row it read said. */
  ghost predicate Fixed(r: Run, g: int, i: int, k: nat, q: BindRequest, later: BindCall)
    requires 0 <= g < |r.worlds|
  {
    var w := r.worlds[g];
    var found := Lookup(w.hub.tokens, q.token, w.now);
    && later.q == q
    && match later.pc
       case BindFinished(outcome) =>
         Wrote(outcome) <==> FindsToken(w, q) && RecognisedBy(r, g, i, k, q, found.value)
       case BindFetched(held) =>
         FindsToken(w, q) && found == Some(held) && forall e :: g < e < i ==> !RowReadAt(r, e, k)
       case _ =>
         FindsToken(w, q) && found == Some(later.pc.held) && RecognisedBy(r, g, i, k, q, later.pc.held)
  }

  lemma {:induction false} CallFollows(r: Run, g: int, i: nat, k: nat, q: BindRequest)
    requires Valid(r) && Begins(r, g, k, q) && g < i < |r.worlds|
    ensures k in r.worlds[i].binds && Fixed(r, g, i, k, q, r.worlds[i].binds[k])
  {
    if g == i - 1 {
      StepBack(r, i);
    } else {
      CallFollows(r, g, i - 1, k, q);
      if r.steps[i - 1] == BindContinues(k) {
        OwnStep(r, g, i, k, q);
      } else {
        OtherStep(r, g, i, k, q);
      }
    }
  }

  lemma OtherKept(r: Run, i: nat, k: nat)
    requires Valid(r) && 0 < i < |r.worlds| && k in r.worlds[i - 1].binds && r.steps[i - 1] != BindContinues(k)
    ensures k in r.worlds[i].binds && r.worlds[i].binds[k] == r.worlds[i - 1].binds[k]
  {
    StepBack(r, i);
  }

  lemma OtherStep(r: Run, g: int, i: nat, k: nat, q: BindRequest)
    requires Valid(r) && Begins(r, g, k, q) && g < i - 1 && i < |r.worlds| && r.steps[i - 1] != BindContinues(k)
    requires k in r.worlds[i - 1].binds && Fixed(r, g, i - 1, k, q, r.worlds[i - 1].binds[k])
    ensures k in r.worlds[i].binds && Fixed(r, g, i, k, q, r.worlds[i].binds[k])
  {
    OtherKept(r, i, k);
    var found := Lookup(r.worlds[g].hub.tokens, q.token, r.worlds[g].now);
    if found.Some? {
      NoReadSince(r, g, i, k, q, found.value);
    }
  }

  lemma NoReadSince(r: Run, g: int, i: nat, k: nat, q: BindRequest, held: JoinToken)
    requires i > 0 && Position(r, i - 1) && r.steps[i - 1] != BindContinues(k)
    ensures RecognisedBy(r, g, i, k, q, held) <==> RecognisedBy(r, g, i - 1, k, q, held)
    ensures !RowReadAt(r, i - 1, k)
  {
    if RecognisedBy(r, g, i, k, q, held) {
      var e :| g < e < i && RowReadAt(r, e, k) && Recognised(r.worlds[e].hub, q, held);
      assert e != i - 1;
    }
  }

  lemma OwnStep(r: Run, g: int, i: nat, k: nat, q: BindRequest)
    requires Valid(r) && Begins(r, g, k, q) && g < i - 1 && i < |r.worlds| && r.steps[i - 1] == BindContinues(k)
    requires k in r.worlds[i - 1].binds && Fixed(r, g, i - 1, k, q, r.worlds[i - 1].binds[k])
    ensures k in r.worlds[i].binds && Fixed(r, g, i, k, q, r.worlds[i].binds[k])
  {
    StepBack(r, i);
    var w := r.worlds[i - 1];
    var pc := w.binds[k].pc;
    assert BindPcOk(w.hub, q, pc);
    BindPcs(w.hub, q, pc, w.now);
    if pc.BindFetched? {
      assert RowReadAt(r, i - 1, k);
      assert RecognisedBy(r, g, i, k, q, pc.held) <==> Recognised(w.hub, q, pc.held);
    } else {
      var e :| g < e < i - 1 && RowReadAt(r, e, k) && Recognised(r.worlds[e].hub, q, pc.held);
      assert RecognisedBy(r, g, i, k, q, pc.held);
    }
  }

  lemma BindPcs(h: Hub, q: BindRequest, pc: BindPc, now: nat)
    requires !pc.BindFinished? && BindPcOk(h, q, pc)
    ensures var pc' := BindNext(h, q, pc, now).1;
      && !pc'.BindFetched?
      && (pc.BindFetched? ==>
            if Recognised(h, q, pc.held) then pc'.BindAccepted? else pc'.BindFinished? && !Wrote(pc'.outcome))
      && (!pc.BindFetched? && pc'.BindFinished? ==> Wrote(pc'.outcome))
      && (!pc'.BindFinished? ==> pc'.held == pc.held)
  {
  }

  /**
   In any schedule, a call writes its binding exactly when its GET came within
   thirty seconds of the token's issue and before the first DEL of it, for the
   token's meeting, and the device row it read after that recognised it.
   */
  lemma BindIff(r: Run, s: int, g: int, i: int, k: nat, q: BindRequest, held: JoinToken)
    requires Valid(r) && TokenStoredAt(r, s, q.token, held) && s < g
    requires Begins(r, g, k, q) && g < i && OverAt(r, i, k)
    ensures Binds(r, i, k) <==>
      && held.meetingId == q.meetingId
      && r.worlds[g].now <= r.worlds[s].now + 30_000
      && Undeleted(r, s, g, q.token)
      && RecognisedBy(r, g, i, k, q, held)
  {
    CallFollows(r, g, i, k, q);
    TokenFoundIff(r, s, g, q.token, held);
  }

  // ---- Two bindings do happen ----

  /** Call `k` runs to its end with no other binding moving, and writes if it was accepted. */
  ghost predicate RanOutBind(r: Run, r': Run, k: nat)
    requires Valid(r) && Valid(r') && k in Last(r).binds
  {
    var (c, binds') := (Last(r).binds[k], Last(r').binds);
    && Extends(r, r') && k in binds' && binds'[k].q == c.q && binds'[k].pc.BindFinished?
    && (forall l :: l in Last(r).binds && l != k ==> l in binds' && binds'[l] == Last(r).binds[l])
    && (c.pc.BindFinished? ==> binds'[k].pc == c.pc)
    && (c.pc.BindAccepted? || c.pc.BindConsumed? || c.pc.BindWritten? ==> Wrote(binds'[k].pc.outcome))
  }

  lemma BindStep(r: Run, k: nat) returns (r': Run)
    requires Valid(r) && k in Last(r).binds && !Last(r).binds[k].pc.BindFinished?
    ensures Valid(r') && Extends(r, r') && k in Last(r').binds
    ensures var (c, c') := (Last(r).binds[k], Last(r').binds[k]);
      && Last(r').binds == Last(r).binds[k := c'] && c'.q == c.q
      && BindStepsLeft(c'.pc) < BindStepsLeft(c.pc)
      && (!c.pc.BindFetched? ==> !c'.pc.BindFetched? && (c'.pc.BindFinished? ==> Wrote(c'.pc.outcome)))
  {
    Reachable(r, |r.steps|);
    var c := Last(r).binds[k];
    assert BindPcOk(Last(r).hub, c.q, c.pc);
    BindPcs(Last(r).hub, c.q, c.pc, Last(r).now);
    ThenValid(r, BindContinues(k));
    r' := Then(r, BindContinues(k));
  }

  lemma {:induction false} RunOutBind(r: Run, k: nat) returns (r': Run)
    requires Valid(r) && k in Last(r).binds
    ensures Valid(r') && RanOutBind(r, r', k)
    decreases BindStepsLeft(Last(r).binds[k].pc)
  {
    if Last(r).binds[k].pc.BindFinished? {
      r' := r;
    } else {
      var r1 := BindStep(r, k);
      r' := RunOutBind(r1, k);
    }
  }

  /** A request that would be accepted now begins, and passes its checks. */
  lemma Checks(r: Run, k: nat, q: BindRequest) returns (r': Run)
    requires Valid(r) && k !in Last(r).binds && Deliverable(Last(r), q.signature)
    requires FindsToken(Last(r), q)
    requires Recognised(Last(r).hub, q, Lookup(Last(r).hub.tokens, q.token, Last(r).now).value)
    ensures Valid(r') && Extends(r, r')
    ensures var c := Last(r').binds;
      && k in c && c[k].pc.BindAccepted? && c[k].q == q && Last(r') == Last(r).(binds := Last(r).binds[k := c[k]])
      && |r'.steps| == |r.steps| + 2 && TokenReadAt(r', |r.steps|, k, q, Last(r).hub.tokens[q.token].value)
  {
    ThenValid(r, BindBegins(k, q));
    var r1 := Then(r, BindBegins(k, q));
    ThenValid(r1, BindContinues(k));
    r' := Then(r1, BindContinues(k));
  }

  /**
   The two calls begin one after the other where `r` ends or soon after, both GETs
   find the one token `held`, and in the end both calls have written the binding
   of their own request.
   */
  ghost predicate TwiceBound(r: Run, r': Run, k: nat, l: nat, q: BindRequest, p: BindRequest, held: JoinToken) {
    && Valid(r') && Extends(r, r') && k != l && q.token == p.token
    && (exists g, m :: |r.steps| <= g < m && TokenReadAt(r', g, k, q, held) && TokenReadAt(r', m, l, p, held))
    && Binds(r', |r'.worlds| - 1, k) && r'.worlds[|r'.worlds| - 1].binds[k].q == q
    && Binds(r', |r'.worlds| - 1, l) && r'.worlds[|r'.worlds| - 1].binds[l].q == p
  }

  lemma ReadStill(r: Run, r': Run, g: int, k: nat, q: BindRequest, held: JoinToken)
    requires TokenReadAt(r, g, k, q, held) && Extends(r, r') && |r'.worlds| == |r'.steps| + 1
    ensures TokenReadAt(r', g, k, q, held)
  {
  }

  /**
   From any reachable state with a live token, any two requests that it and its
   device rows would accept are both bound if both read it before either deletes it.
   */
  lemma TwoBindings(r: Run, k: nat, l: nat, q: BindRequest, p: BindRequest)
    requires Valid(r) && k !in Last(r).binds && l !in Last(r).binds && k != l && p.token == q.token
    requires Deliverable(Last(r), q.signature) && Deliverable(Last(r), p.signature)
    requires FindsToken(Last(r), q) && FindsToken(Last(r), p)
    requires var held := Last(r).hub.tokens[q.token].value;
      Recognised(Last(r).hub, q, held) && Recognised(Last(r).hub, p, held)
    ensures exists r' :: TwiceBound(r, r', k, l, q, p, Last(r).hub.tokens[q.token].value)
  {
    var held := Last(r).hub.tokens[q.token].value;
    var r1 := Checks(r, k, q);
    var r2 := Checks(r1, l, p);
    var r3 := RunOutBind(r2, k);
    var r4 := RunOutBind(r3, l);
    ReadStill(r1, r4, |r.steps|, k, q, held);
    ReadStill(r2, r4, |r1.steps|, l, p, held);
    assert TwiceBound(r, r4, k, l, q, p, held);
  }

  /** And such a state is reachable: one token, two bindings. */
  lemma TwoBindingsReachable()
    ensures exists r, r', q: BindRequest, p, held :: Valid(r) && q.token == "t" && TwiceBound(r, r', 0, 1, q, p, held)
  {
    var r := Ticketed();
    assert "t" in Last(r).hub.tokens && Last(r).hub.tokens["t"] == Expiring(TOKEN, Some(30_000));
    TwoBindings(r, 0, 1, BINDING, BINDING);
  }
}
