/** Making runs longer, and one run that reaches a participant with two live challenges. */
module Schedules {
  import opened Prelude
  import opened Crypto
  import opened Entities
  import opened DeviceService
  import opened MeetingService
  import opened ChallengeService
  import opened Interleaved

  function Last(r: Run): World
    requires |r.worlds| > 0
  {
    r.worlds[|r.worlds| - 1]
  }

  ghost predicate Extends(r: Run, r': Run) {
    r.steps <= r'.steps && r.worlds <= r'.worlds
  }

  ghost function Then(r: Run, s: Step): (r': Run)
    requires Valid(r) && Enabled(Last(r), s)
  {
    Run(r.worlds + [Next(Last(r), s)], r.steps + [s])
  }

  lemma ThenValid(r: Run, s: Step)
    requires Valid(r) && Enabled(Last(r), s)
    ensures Valid(Then(r, s)) && Extends(r, Then(r, s)) && Last(Then(r, s)) == Next(Last(r), s)
  {
    var r' := Then(r, s);
    forall i | 0 <= i < |r'.steps|
      ensures StepAt(r', i)
    {
      assert i < |r.steps| ==> StepAt(r, i);
    }
  }

  /** Call `k` runs to its end with no other call moving. */
  ghost predicate RanOut(r: Run, r': Run, k: nat)
    requires Valid(r) && Valid(r')
  {
    && Extends(r, r')
    && k in Last(r').verifies && Last(r').verifies[k].pc.Finished?
    && (forall l :: l in Last(r).verifies && l != k ==>
          l in Last(r').verifies && Last(r').verifies[l] == Last(r).verifies[l])
  }

  lemma {:induction false} RunOut(r: Run, k: nat) returns (r': Run)
    requires Valid(r) && k in Last(r).verifies
    ensures Valid(r') && RanOut(r, r', k)
    decreases StepsLeft(Last(r).verifies[k].pc)
  {
    if Last(r).verifies[k].pc.Finished? {
      r' := r;
    } else {
      ThenValid(r, VerifyContinues(k));
      r' := RunOut(Then(r, VerifyContinues(k)), k);
    }
  }

  // ---- A run, step by step ----

  const NOBODY: World :=
    World(0, Hub({"T"}, map[], map[], map[], map[], map[], [], []), {}, {}, {}, map[], map[], map[], map[])
  const TOKEN: JoinToken := JoinToken("m", "p", 30_000)
  const BINDING: BindRequest := BindRequest("m", "t", "d", Sig(1, BindingMaterial("t", "m", "p", "d", 30_000)))
  const BOUND_ROW: Participant := Participant("m", "u", "", Some("d"), Verified, Some(0), None)

  /** Meeting `m`, device `d` and participant `p` are there, and nothing is under way but what `binds` holds. */
  ghost predicate SetUp(w: World, row: Participant, tokens: map<string, Expiring<JoinToken>>, used: set<string>) {
    && w.now == 0 && w.agentKeys == {} && w.used == used
    && w.verifies == map[] && w.issues == map[] && w.hub.challenges == map[]
    && w.hub.meetings == map["m" := Meeting("T", "")]
    && w.hub.participants == map["p" := row]
    && w.hub.devices.Keys == {"d"} && w.hub.devices["d"].publicKey == Pub(1) && w.hub.devices["d"].status == Active
    && w.hub.devices["d"].lastHeartbeat == Some(0)
    && w.hub.tokens == tokens
    && AllLogged(w)
  }

  predicate AllLogged(w: World) {
    forall k :: k in w.joins ==> w.joins[k].logged
  }

  lemma Opened() returns (r: Run)
    ensures Valid(r) && Last(r) == NOBODY.(hub := Last(r).hub)
    ensures Last(r).hub == NOBODY.hub.(meetings := map["m" := Meeting("T", "")], audit := Last(r).hub.audit)
  {
    r := Run([NOBODY], []);
    ThenValid(r, Creates("m", "T", ""));
    r := Then(r, Creates("m", "T", ""));
  }

  lemma Met() returns (r: Run)
    ensures Valid(r) && Last(r) == NOBODY.(hub := Last(r).hub, joins := Last(r).joins) && AllLogged(Last(r))
    ensures Last(r).hub == NOBODY.hub.(meetings := map["m" := Meeting("T", "")],
                                       participants := map["p" := NewParticipant("m", "u", "")],
                                       audit := Last(r).hub.audit)
  {
    r := Opened();
    ThenValid(r, Joins(0, "p", "m", "u", ""));
    r := Then(r, Joins(0, "p", "m", "u", ""));
    ThenValid(r, JoinLogs(0));
    r := Then(r, JoinLogs(0));
  }

  lemma Peopled() returns (r: Run)
    ensures Valid(r) && SetUp(Last(r), NewParticipant("m", "u", ""), map[], {}) && Last(r).binds == map[]
  {
    r := Met();
    var enrols := Enrolls(EnrollDto("T", "d", "u", "", Pub(1), None, None));
    ThenValid(r, enrols);
    r := Then(r, enrols);
  }

  lemma Ticketed() returns (r: Run)
    ensures Valid(r) && Last(r).binds == map[]
    ensures SetUp(Last(r), NewParticipant("m", "u", ""), map["t" := Expiring(TOKEN, Some(30_000))], {"t"})
  {
    r := Peopled();
    ThenValid(r, IssuesToken("t", "m", "p", 0));
    r := Then(r, IssuesToken("t", "m", "p", 0));
  }

  lemma Accepting() returns (r: Run)
    ensures Valid(r) && SetUp(Last(r), NewParticipant("m", "u", ""), map["t" := Expiring(TOKEN, Some(30_000))], {"t"})
    ensures Last(r).binds.Keys == {0} && Last(r).binds[0].q == BINDING
    ensures Last(r).binds[0].pc.BindAccepted? && Last(r).binds[0].pc.held == TOKEN
  {
    r := Ticketed();
    ThenValid(r, BindBegins(0, BINDING));
    r := Then(r, BindBegins(0, BINDING));
    ThenValid(r, BindContinues(0));
    r := Then(r, BindContinues(0));
  }

  lemma Consumed() returns (r: Run)
    ensures Valid(r) && SetUp(Last(r), NewParticipant("m", "u", ""), map[], {"t"})
    ensures Last(r).binds.Keys == {0} && Last(r).binds[0].q == BINDING
    ensures Last(r).binds[0].pc.BindConsumed? && Last(r).binds[0].pc.held == TOKEN
  {
    r := Accepting();
    ThenValid(r, BindContinues(0));
    r := Then(r, BindContinues(0));
    assert Last(r).hub.tokens == map[];
  }

  lemma Settled() returns (r: Run)
    ensures Valid(r) && SetUp(Last(r), BOUND_ROW, map[], {"t"})
    ensures Last(r).binds.Keys == {0} && Last(r).binds[0].pc.BindFinished?
  {
    r := Consumed();
    ThenValid(r, BindContinues(0));
    r := Then(r, BindContinues(0));
    ThenValid(r, BindContinues(0));
    r := Then(r, BindContinues(0));
  }

  const ROW: Row := Row("p", BOUND_ROW, true)

  function DrawOf(id: string): Draw {
    Draw(id, "", 0, 0, 0)
  }

  function IssuedTo(id: string): Challenge {
    ChallengeFor("m", "T", ROW, DrawOf(id))
  }

  /** No binding is under way, and no turn of an issue loop. */
  ghost predicate Idle(w: World) {
    && (forall k :: k in w.binds ==> w.binds[k].pc.BindFinished?)
    && (forall k :: k in w.issues ==> w.issues[k].pc.AtRow?)
    && AllLogged(w)
  }

  /** The challenges in `ids`, all for participant `p`, can be answered. */
  ghost predicate Waiting(w: World, ids: set<string>) {
    && w.now == 0 && w.agentKeys == {} && w.verifies == map[]
    && w.hub.meetings == map["m" := Meeting("T", "")] && w.hub.participants == map["p" := BOUND_ROW]
    && w.hub.devices.Keys == {"d"} && w.hub.devices["d"].publicKey == Pub(1) && w.hub.devices["d"].status == Active
    && w.hub.devices["d"].lastHeartbeat == Some(0)
    && w.hub.tokens == map[]
    && w.hub.challenges.Keys == ids && (forall id :: id in ids ==>
         w.hub.challenges[id] == Expiring(IssuedTo(id), Some(15_000)))
    && w.used == {"t"} + ids
    && Idle(w)
  }

  lemma RoundBegun(r: Run, ids: set<string>, call: nat) returns (r': Run)
    requires Valid(r) && Waiting(Last(r), ids) && call !in Last(r).issues
    ensures Valid(r') && Extends(r, r')
    ensures Last(r') == Last(r).(issues := Last(r).issues[call := IssueCall("m", "T", [ROW], AtRow)])
  {
    OneRow(Last(r), ids);
    ThenValid(r, IssueBegins(call, "m", [ROW]));
    r' := Then(r, IssueBegins(call, "m", [ROW]));
  }

  lemma TurnStarted(r: Run, ids: set<string>, call: nat, id: string) returns (r': Run)
    requires Valid(r) && Waiting(Last(r), ids) && call !in Last(r).issues && id !in ids && id != "t"
    ensures Valid(r') && Extends(r, r')
    ensures var (w, w') := (Last(r), Last(r'));
      && w' == w.(hub := w'.hub, used := w.used + {id},
                  issues := w.issues[call := IssueCall("m", "T", [ROW], Announcing(IssuedTo(id)))])
      && w'.hub == w.hub.(challenges := w'.hub.challenges)
      && w'.hub.challenges.Keys == ids + {id}
      && forall i :: i in ids + {id} ==> w'.hub.challenges[i] == Expiring(IssuedTo(i), Some(15_000))
  {
    var r1 := RoundBegun(r, ids, call);
    ThenValid(r1, IssueContinues(call, DrawOf(id)));
    r' := Then(r1, IssueContinues(call, DrawOf(id)));
    OneKeyMore(Last(r), Last(r1), ids, id);
  }

  /** One more round of the issue loop over the meeting's one participant. */
  lemma IssueOneMore(r: Run, ids: set<string>, call: nat, id: string) returns (r': Run)
    requires Valid(r) && Waiting(Last(r), ids) && call !in Last(r).issues && id !in ids && id != "t"
    ensures Valid(r') && Extends(r, r') && Waiting(Last(r'), ids + {id})
    ensures Last(r').issues.Keys == Last(r).issues.Keys + {call}
  {
    var r1 := TurnStarted(r, ids, call, id);
    r' := TurnLogged(r1, call);
  }

  lemma TurnLogged(r: Run, call: nat) returns (r': Run)
    requires Valid(r) && call in Last(r).issues && Last(r).issues[call].pending == [ROW]
    requires Last(r).issues[call].pc.Announcing?
    ensures Valid(r') && Extends(r, r')
    ensures var (w, w') := (Last(r), Last(r'));
      && w' == w.(hub := w'.hub, issues := w.issues[call := w.issues[call].(pending := [], pc := AtRow)])
      && w'.hub == w.hub.(audit := w'.hub.audit, notices := w'.hub.notices)
  {
    assert [ROW][1..] == [];
    ThenValid(r, IssueLogs(call));
    r' := Then(r, IssueLogs(call));
  }

  lemma OneRow(w: World, ids: set<string>)
    requires Waiting(w, ids)
    ensures Listing(w.hub, "m", [ROW])
  {
    assert [ROW][0].id == "p";
  }

  lemma OneKeyMore(before: World, w: World, ids: set<string>, id: string)
    requires Waiting(before, ids) && w == before.(issues := w.issues) && id !in ids
    ensures var h' := IssueStart(w.hub, "m", "T", ROW, DrawOf(id)).0;
      h' == w.hub.(challenges := h'.challenges)
      && h'.challenges.Keys == ids + {id}
      && (forall i :: i in ids + {id} ==> h'.challenges[i] == Expiring(IssuedTo(i), Some(15_000)))
  {
  }

  /** A participant with two live challenges is reachable. */
  lemma TwoChallenges() returns (r: Run)
    ensures Valid(r) && Waiting(Last(r), {"c", "e"})
  {
    r := Settled();
    r := IssueOneMore(r, {}, 0, "c");
    assert "e"[0] != "c"[0];
    r := IssueOneMore(r, {"c"}, 1, "e");
    assert {"c"} + {"e"} == {"c", "e"} && {} + {"c"} == {"c"};
  }
}
