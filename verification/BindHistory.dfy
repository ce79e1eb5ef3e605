/** For a binding call in progress: when it read its token, and where that token came from and went. */
module BindHistory {
  import opened Prelude
  import opened Entities
  import opened Storage
  import opened MeetingService
  import opened Interleaved
  import opened CallHistory

  ghost predicate BindInProgress(r: Run, i: int, k: nat) {
    0 <= i < |r.worlds| && k in r.worlds[i].binds && !r.worlds[i].binds[k].pc.BindFinished?
  }

  /** Step `g` is the GET of binding call `k`, and it finds `held`. */
  ghost predicate TokenReadAt(r: Run, g: int, k: nat, q: BindRequest, held: JoinToken) {
    && Position(r, g)
    && r.steps[g] == BindBegins(k, q)
    && Lookup(r.worlds[g].hub.tokens, q.token, r.worlds[g].now) == Some(held)
  }

  /** Step `s` issues token `t`, new until then. */
  ghost predicate TokenStoredAt(r: Run, s: int, t: string, held: JoinToken) {
    && Position(r, s)
    && r.steps[s].IssuesToken? && r.steps[s].token == t
    && t !in r.worlds[s].used
    && t in r.worlds[s + 1].hub.tokens
    && r.worlds[s + 1].hub.tokens[t] == Expiring(held, Some(r.worlds[s].now + 30_000))
  }

  /** Step `d` is a DEL of token `t`. */
  ghost predicate TokenDeletedAt(r: Run, d: int, t: string) {
    && Position(r, d)
    && r.steps[d].BindContinues?
    && r.steps[d].call in r.worlds[d].binds
    && r.worlds[d].binds[r.steps[d].call].pc.BindAccepted?
    && r.worlds[d].binds[r.steps[d].call].q.token == t
  }

  lemma {:induction false} BindGot(r: Run, i: nat, k: nat)
    requires Valid(r) && BindInProgress(r, i, k)
    ensures var call := r.worlds[i].binds[k];
      call.pc.held.meetingId == call.q.meetingId && exists g :: g < i && TokenReadAt(r, g, k, call.q, call.pc.held)
  {
    if i > 0 {
      StepBack(r, i);
      if r.steps[i - 1].BindBegins? && r.steps[i - 1].call == k {
        assert TokenReadAt(r, i - 1, k, r.worlds[i].binds[k].q, r.worlds[i].binds[k].pc.held);
      } else {
        BindGot(r, i - 1, k);
      }
    }
  }

  lemma {:induction false} TokenStored(r: Run, i: nat, t: string)
    requires Valid(r) && i < |r.worlds| && t in r.worlds[i].hub.tokens
    ensures var e := r.worlds[i].hub.tokens[t];
      exists s :: s < i && TokenStoredAt(r, s, t, e.value) && e.deadline == Some(r.worlds[s].now + 30_000)
  {
    StepBack(r, i);
    TokensStep(r.worlds[i - 1], r.steps[i - 1], t);
    var w := r.worlds[i - 1];
    if t in w.hub.tokens && r.worlds[i].hub.tokens[t] == w.hub.tokens[t] {
      TokenStored(r, i - 1, t);
    } else {
      assert TokenStoredAt(r, i - 1, t, r.worlds[i].hub.tokens[t].value);
    }
  }

  /** A token that was drawn and is no longer stored never comes back. */
  lemma {:induction false} TokenGone(r: Run, i: nat, j: nat, t: string)
    requires Valid(r) && i <= j < |r.worlds|
    requires t in r.worlds[i].used && t !in r.worlds[i].hub.tokens
    ensures t !in r.worlds[j].hub.tokens
    decreases j
  {
    if i < j {
      TokenGone(r, i, j - 1, t);
      UsedForever(r, i, j - 1, t);
      StepBack(r, j);
      if t in r.worlds[j].hub.tokens {
        TokensStep(r.worlds[j - 1], r.steps[j - 1], t);
      }
    }
  }

  /** After a DEL of a token no later GET finds it. */
  lemma TokenDeletedIsGone(r: Run, d: int, g: int, t: string)
    requires Valid(r) && TokenDeletedAt(r, d, t) && d < g < |r.worlds|
    ensures t !in r.worlds[g].hub.tokens
  {
    var k := r.steps[d].call;
    BindGot(r, d, k);
    var e :| e < d && TokenReadAt(r, e, k, r.worlds[d].binds[k].q, r.worlds[d].binds[k].pc.held);
    Reachable(r, e);
    UsedForever(r, e, d + 1, t);
    HubAt(r, d);
    KeptByBind(r.worlds[d].hub, r.worlds[d].binds[k].q, r.worlds[d].binds[k].pc, r.worlds[d].now);
    TokenGone(r, d + 1, g, t);
  }

  /** Token `t`, issued at step `s`, is found by call `k` at step `g`, within its thirty seconds. */
  ghost predicate TokenFoundAlive(r: Run, s: int, g: int, k: nat, q: BindRequest, held: JoinToken) {
    && 0 <= s < g && TokenStoredAt(r, s, q.token, held) && TokenReadAt(r, g, k, q, held)
    && r.worlds[s].now <= r.worlds[g].now <= r.worlds[s].now + 30_000
  }

  lemma TokenFoundWhileAlive(r: Run, g: int, k: nat, q: BindRequest, held: JoinToken)
    requires Valid(r) && TokenReadAt(r, g, k, q, held)
    ensures exists s :: TokenFoundAlive(r, s, g, k, q, held)
  {
    TokenStored(r, g, q.token);
    var s :| s < g && TokenStoredAt(r, s, q.token, held)
             && r.worlds[g].hub.tokens[q.token].deadline == Some(r.worlds[s].now + 30_000);
    RunGrows(r, s, g);
    assert TokenFoundAlive(r, s, g, k, q, held);
  }

  /**
   Whatever else runs, a binding call that got hold of a token did its GET
   within thirty seconds of the token being issued, for the meeting of its own
   request, and before any DEL of the token.
   */
  lemma TokenRetirement(r: Run, i: nat, k: nat)
    requires Valid(r) && BindInProgress(r, i, k)
    ensures var call := r.worlds[i].binds[k]; var held := call.pc.held;
      && held.meetingId == call.q.meetingId
      && exists s, g :: g < i && TokenFoundAlive(r, s, g, k, call.q, held)
           && forall d :: d < g ==> !TokenDeletedAt(r, d, call.q.token)
  {
    var q, held := r.worlds[i].binds[k].q, r.worlds[i].binds[k].pc.held;
    BindGot(r, i, k);
    var g :| g < i && TokenReadAt(r, g, k, q, held);
    TokenFoundWhileAlive(r, g, k, q, held);
    forall d | d < g
      ensures !TokenDeletedAt(r, d, q.token)
    {
      if TokenDeletedAt(r, d, q.token) {
        TokenDeletedIsGone(r, d, g, q.token);
      }
    }
  }
}
