/** When a binding string can read like a challenge string. */
module Separation {
  import opened Prelude
  import opened Framing
  import opened Entities
  import opened ChallengeService
  import opened AgentSigning
  import opened Safety

  /** The lines of `d` stand in `m`, three lines or more after the start and one or more before the end. */
  predicate StandsAt(m: seq<string>, d: string, i: int) {
    3 <= i && i + |Split(d)| < |m| && m[i..i + |Split(d)|] == Split(d)
  }

  /** Five fields with the text of `m`: the fourth is `d`, the others are made of the lines around it. */
  function Around(m: seq<string>, d: string, i: int): seq<string>
    requires StandsAt(m, d, i)
  {
    [m[0], m[1], Join(m[2..i]), d, Join(m[i + |Split(d)|..])]
  }

  lemma AroundReads(m: seq<string>, d: string, i: int)
    requires AllClean(m) && StandsAt(m, d, i)
    ensures Join(Around(m, d, i)) == Join(m)
  {
    var n := i + |Split(d)|;
    FiveFields(m[0], m[1], Join(m[2..i]), d, Join(m[n..]));
    SplitJoin([m[0]]);
    SplitJoin([m[1]]);
    SplitJoin(m[2..i]);
    SplitJoin(m[n..]);
    SplitJoin(m);
    Pieces(m, i, n);
    SameText(Join(Around(m, d, i)), Join(m));
  }

  lemma Pieces(m: seq<string>, i: int, n: int)
    requires 2 <= i <= n <= |m|
    ensures m == [m[0]] + [m[1]] + m[2..i] + m[i..n] + m[n..]
  {
  }

  /** Five fields with the text of clean lines have the fourth standing among them. */
  lemma ReadsOnlyAround(m: seq<string>, a: string, b: string, c: string, d: string, e: string)
    requires |m| > 0 && AllClean(m) && Join([a, b, c, d, e]) == Join(m)
    ensures exists i :: StandsAt(m, d, i)
  {
    SplitJoin(m);
    FiveFields(a, b, c, d, e);
    OneLineIff(a);
    OneLineIff(b);
    OneLineIff(c);
    OneLineIff(e);
    var before, after := Split(a) + Split(b) + Split(c), Split(e);
    assert m == before + Split(d) + after;
    assert m[|before|..|before| + |Split(d)|] == Split(d);
    assert StandsAt(m, d, |before|);
  }

  /** Some tuple gives the agent's binding string the text of the challenge's. */
  ghost predicate Collides(a: Identity, c: Challenge) {
    exists b :: Join(BindingLines(a, b)) == ChallengeMaterial(c)
  }

  /**
   Exactly when the two framings can be told apart: the agent's binding string
   can have the text of the challenge string exactly when the agent's device id
   stands among the challenge's ten lines with at least three lines before it and
   one after.
   */
  lemma CollidesIff(a: Identity, c: Challenge)
    requires AllClean(ChallengeLines(c))
    ensures Collides(a, c) <==> exists i :: StandsAt(ChallengeLines(c), a.deviceId.GetOr(""), i)
  {
    var m, d := ChallengeLines(c), a.deviceId.GetOr("");
    if i :| StandsAt(m, d, i) {
      AroundReads(m, d, i);
      var f := Around(m, d, i);
      assert BindingLines(a, BindingTuple(f[0], f[1], f[2], f[4])) == f;
    }
    if b :| Join(BindingLines(a, b)) == ChallengeMaterial(c) {
      ReadsOnlyAround(m, b.token, b.meetingId, b.participantId, d, b.expiresAt);
    }
  }

  /** And only by a field that holds a newline. */
  lemma CollidesUnclean(a: Identity, b: BindingTuple, c: Challenge)
    requires AllClean(ChallengeLines(c)) && Join(BindingLines(a, b)) == ChallengeMaterial(c)
    ensures !AllClean(BindingLines(a, b))
  {
    if AllClean(BindingLines(a, b)) {
      BindingIsNoChallenge(a, b, c);
    }
  }

  /** The challenge's own device always stands so, in the fourth line. */
  lemma OwnDeviceCollides(a: Identity, c: Challenge)
    requires AllClean(ChallengeLines(c)) && a.deviceId == Some(c.deviceId)
    ensures StandsAt(ChallengeLines(c), c.deviceId, 3) && Collides(a, c)
  {
    var m := ChallengeLines(c);
    assert m[3] == c.deviceId && m[3..4] == [c.deviceId];
    SplitJoin([c.deviceId]);
    assert Join([c.deviceId]) == c.deviceId;
    assert StandsAt(m, a.deviceId.GetOr(""), 3);
    CollidesIff(a, c);
  }
}
