/**
 The hub, its agents and its clock, with the three long handlers cut at every
 await, so that any number of calls run against the same challenge or token.
 */
module Interleaved {
  import opened Prelude
  import opened Crypto
  import opened Entities
  import opened Storage
  import opened DeviceService
  import opened MeetingService
  import opened ChallengeService
  import opened AgentSigning
  import opened HubLaws

  datatype VerifyCall = VerifyCall(q: Response, pc: VerifyPc)
  datatype BindCall = BindCall(q: BindRequest, pc: BindPc)
  datatype JoinCall = JoinCall(participantId: string, event: AuditEvent, logged: bool)
  datatype IssueCall = IssueCall(meetingId: string, tenantId: string, pending: seq<Row>, pc: IssuePc)

  /**
   `agentKeys` are the private keys only agents hold, `signatures` what agents
   have signed so far, and `used` the ids that were drawn or seen so far.
   */
  datatype World = World(
    now: nat,
    hub: Hub,
    agentKeys: set<Key>,
    signatures: set<Signature>,
    used: set<string>,
    verifies: map<nat, VerifyCall>,
    binds: map<nat, BindCall>,
    issues: map<nat, IssueCall>,
    joins: map<nat, JoinCall>)

  datatype Step =
    | Tick(ms: nat)
    | Revokes(deviceId: string)
    | AgentSigns(identity: Identity, payload: Payload)
    | AgentBinds(identity: Identity, tuple: BindingTuple)
    | Enrolls(dto: EnrollDto)
    | Beats(deviceId: string)
    | Creates(meetingId: string, tenantId: string, name: string)
    | Joins(call: nat, participantId: string, meetingId: string, userId: string, displayName: string)
    | JoinLogs(call: nat)
    | IssuesToken(token: string, meetingId: string, participantId: string, base: nat)
    | BindBegins(call: nat, bind: BindRequest)
    | BindContinues(call: nat)
    | IssueBegins(call: nat, meetingId: string, rows: seq<Row>)
    | IssueContinues(call: nat, draw: Draw)
    | IssueLogs(call: nat)
    | VerifyBegins(call: nat, response: Response)
    | VerifyContinues(call: nat)

  /** Anybody can send anything, except a signature under an agent's key that no agent made. */
  predicate Deliverable(w: World, s: Signature) {
    s.Sig? && s.key in w.agentKeys ==> s in w.signatures
  }

  ghost predicate Enabled(w: World, s: Step) {
    match s
    case Tick(_) => true
    case Revokes(_) => true
    case AgentSigns(a, _) => a.key in w.agentKeys
    case AgentBinds(a, _) => a.key in w.agentKeys
    case Enrolls(_) => true
    case Beats(_) => true
    case Creates(m, _, _) => m !in w.hub.meetings
    case Joins(call, p, _, _, _) => call !in w.joins && p !in w.hub.participants
    case JoinLogs(call) => call in w.joins && !w.joins[call].logged
    case IssuesToken(t, _, _, base) => t !in w.used && base <= w.now
    case BindBegins(call, q) => call !in w.binds && Deliverable(w, q.signature)
    case BindContinues(call) => call in w.binds && !w.binds[call].pc.BindFinished?
    case IssueBegins(call, m, rows) => call !in w.issues && m in w.hub.meetings && Listing(w.hub, m, rows)
    case IssueContinues(call, draw) =>
      && call in w.issues && w.issues[call].pending != [] && w.issues[call].pc.AtRow?
      && draw.id !in w.used && DrawOk(draw, w.now) && draw.now == w.now
    case IssueLogs(call) => call in w.issues && w.issues[call].pending != [] && !w.issues[call].pc.AtRow?
    case VerifyBegins(call, q) => call !in w.verifies && Deliverable(w, q.signature)
    case VerifyContinues(call) => call in w.verifies && !w.verifies[call].pc.Finished?
  }

  function Released(made: Option<Signature>): set<Signature> {
    if made.Some? then {made.value} else {}
  }

  /** The hub after a step; the steps that do not reach the hub leave it as it is. */
  ghost function HubAfter(w: World, s: Step): Hub
    requires Enabled(w, s)
  {
    match s
    case Revokes(d) => Revoke(w.hub, d)
    case Enrolls(dto) => Enroll(w.hub, dto, w.now).0
    case Beats(d) => Heartbeat(w.hub, d, w.now)
    case Creates(m, tenant, name) => CreateMeeting(w.hub, m, tenant, name).0
    case Joins(_, p, m, user, name) => AddRow(w.hub, p, m, user, name)
    case JoinLogs(call) => Logged(w.hub, w.joins[call].event)
    case IssuesToken(t, m, p, base) => IssueJoinToken(w.hub, t, m, p, base, w.now).0
    case BindContinues(call) => BindNext(w.hub, w.binds[call].q, w.binds[call].pc, w.now).0
    case IssueContinues(call, draw) =>
      var c := w.issues[call];
      IssueStart(w.hub, c.meetingId, c.tenantId, c.pending[0], draw).0
    case IssueLogs(call) =>
      var c := w.issues[call];
      IssueFinish(w.hub, c.meetingId, c.tenantId, c.pending[0], c.pc)
    case VerifyContinues(call) => VerifyNext(w.hub, w.verifies[call].q, w.verifies[call].pc, w.now).0
    case _ => w.hub
  }

  ghost function VerifiesAfter(w: World, s: Step): map<nat, VerifyCall>
    requires Enabled(w, s)
  {
    match s
    case VerifyBegins(call, q) => w.verifies[call := VerifyCall(q, VerifyStart(w.hub, q, w.now))]
    case VerifyContinues(call) =>
      var c := w.verifies[call];
      w.verifies[call := c.(pc := VerifyNext(w.hub, c.q, c.pc, w.now).1)]
    case _ => w.verifies
  }

  ghost function BindsAfter(w: World, s: Step): map<nat, BindCall>
    requires Enabled(w, s)
  {
    match s
    case BindBegins(call, q) => w.binds[call := BindCall(q, BindStart(w.hub, q, w.now))]
    case BindContinues(call) =>
      var c := w.binds[call];
      w.binds[call := c.(pc := BindNext(w.hub, c.q, c.pc, w.now).1)]
    case _ => w.binds
  }

  ghost function IssuesAfter(w: World, s: Step): map<nat, IssueCall>
    requires Enabled(w, s)
  {
    match s
    case IssueBegins(call, m, rows) => w.issues[call := IssueCall(m, w.hub.meetings[m].tenantId, rows, AtRow)]
    case IssueContinues(call, draw) =>
      var c := w.issues[call];
      w.issues[call := c.(pc := IssueStart(w.hub, c.meetingId, c.tenantId, c.pending[0], draw).1)]
    case IssueLogs(call) =>
      w.issues[call := w.issues[call].(pending := w.issues[call].pending[1..], pc := AtRow)]
    case _ => w.issues
  }

  ghost function JoinsAfter(w: World, s: Step): map<nat, JoinCall>
    requires Enabled(w, s)
  {
    match s
    case Joins(call, p, m, user, name) =>
      if m !in w.hub.meetings then w.joins
      else w.joins[call := JoinCall(p, JoinEvent(w.hub.meetings[m].tenantId, p, m, user, name), false)]
    case JoinLogs(call) => w.joins[call := w.joins[call].(logged := true)]
    case _ => w.joins
  }

  function SignaturesAfter(w: World, s: Step): set<Signature> {
    match s
    case AgentSigns(a, p) => w.signatures + Released(SignChallenge(a, p))
    case AgentBinds(a, b) => w.signatures + {SignBinding(a, b)}
    case _ => w.signatures
  }

  function UsedAfter(w: World, s: Step): set<string> {
    match s
    case AgentSigns(_, p) => w.used + {p.challengeId}
    case AgentBinds(_, b) => w.used + {b.token}
    case IssuesToken(t, _, _, _) => w.used + {t}
    case IssueContinues(_, draw) => w.used + {draw.id}
    case _ => w.used
  }

  ghost function Next(w: World, s: Step): World
    requires Enabled(w, s)
  {
    World(if s.Tick? then w.now + s.ms else w.now, HubAfter(w, s), w.agentKeys, SignaturesAfter(w, s), UsedAfter(w, s),
          VerifiesAfter(w, s), BindsAfter(w, s), IssuesAfter(w, s), JoinsAfter(w, s))
  }

  // ---- Runs ----

  datatype Run = Run(worlds: seq<World>, steps: seq<Step>)

  /** An empty hub of any tenants, with any set of agent keys. */
  ghost predicate Initial(w: World) {
    && w.hub == Hub(w.hub.tenants, map[], map[], map[], map[], map[], [], [])
    && w.signatures == {} && w.verifies == map[] && w.binds == map[] && w.issues == map[] && w.joins == map[]
  }

  ghost predicate StepAt(r: Run, i: nat)
    requires i < |r.steps| && |r.worlds| == |r.steps| + 1
  {
    Enabled(r.worlds[i], r.steps[i]) && r.worlds[i + 1] == Next(r.worlds[i], r.steps[i])
  }

  ghost predicate Valid(r: Run) {
    && |r.worlds| == |r.steps| + 1
    && Initial(r.worlds[0])
    && forall i :: 0 <= i < |r.steps| ==> StepAt(r, i)
  }

  // ---- The invariant ----

  predicate IssueCallOk(c: IssueCall) {
    c.pc.AtRow? || (c.pending != [] && IssuePcOk(c.meetingId, c.tenantId, c.pending[0], c.pc))
  }

  predicate JoinCallOk(h: Hub, c: JoinCall) {
    EventOk(h, c.event) && c.event.detail.ParticipantJoined? && c.event.detail.participantId == c.participantId
  }

  ghost predicate CallsOk(w: World) {
    && (forall k :: k in w.verifies ==> VerifyPcOk(w.hub, w.verifies[k].q, w.verifies[k].pc))
    && (forall k :: k in w.binds ==> BindPcOk(w.hub, w.binds[k].q, w.binds[k].pc))
    && (forall k, i :: k in w.issues && 0 <= i < |w.issues[k].pending| ==>
          RowHolds(w.hub, w.issues[k].meetingId, w.issues[k].tenantId, w.issues[k].pending[i]))
    && (forall k :: k in w.issues ==> IssueCallOk(w.issues[k]))
    && (forall k :: k in w.joins ==> JoinCallOk(w.hub, w.joins[k]))
  }

  ghost predicate Inv(w: World) {
    Whole(w.hub, w.now) && CallsOk(w) && KeysUsed(w)
  }

  ghost predicate KeysUsed(w: World) {
    && (forall id :: id in w.hub.challenges ==> id in w.used)
    && (forall t :: t in w.hub.tokens ==> t in w.used)
  }

  lemma HubStep(w: World, s: Step)
    requires Inv(w) && Enabled(w, s)
    ensures Whole(HubAfter(w, s), w.now) && Grows(w.hub, HubAfter(w, s))
  {
    match s
    case Revokes(d) => RevokeKeeps(w.hub, d, w.now);
    case Enrolls(dto) => EnrollKeeps(w.hub, dto, w.now);
    case Beats(d) => HeartbeatKeeps(w.hub, d, w.now);
    case Creates(m, tenant, name) => CreateMeetingKeeps(w.hub, m, tenant, name, w.now);
    case Joins(_, p, m, user, name) => AddRowKeeps(w.hub, p, m, user, name, w.now);
    case JoinLogs(call) => LoggedKeeps(w.hub, w.joins[call].event, w.now);
    case IssuesToken(t, m, p, base) => IssueJoinTokenKeeps(w.hub, t, m, p, base, w.now);
    case BindContinues(call) => BindNextKeeps(w.hub, w.binds[call].q, w.binds[call].pc, w.now);
    case IssueContinues(call, draw) =>
      var c := w.issues[call];
      IssueStartKeeps(w.hub, c.meetingId, c.tenantId, c.pending[0], draw, w.now);
    case IssueLogs(call) =>
      var c := w.issues[call];
      IssueFinishKeeps(w.hub, c.meetingId, c.tenantId, c.pending[0], c.pc, w.now);
    case VerifyContinues(call) => VerifyNextKeeps(w.hub, w.verifies[call].q, w.verifies[call].pc, w.now);
    case _ => Unchanged(w, s);
  }

  lemma Unchanged(w: World, s: Step)
    requires Enabled(w, s)
    requires s.Tick? || s.AgentSigns? || s.AgentBinds? || s.BindBegins? || s.IssueBegins? || s.VerifyBegins?
    ensures HubAfter(w, s) == w.hub && Grows(w.hub, w.hub)
  {
  }

  lemma VerifiesStep(w: World, s: Step, k: nat)
    requires Inv(w) && Enabled(w, s) && k in VerifiesAfter(w, s)
    requires Grows(w.hub, HubAfter(w, s))
    ensures var c := VerifiesAfter(w, s)[k]; VerifyPcOk(HubAfter(w, s), c.q, c.pc)
  {
    if s.VerifyBegins? && s.call == k {
    } else if s.VerifyContinues? && s.call == k {
      VerifyNextKeeps(w.hub, w.verifies[k].q, w.verifies[k].pc, w.now);
    } else {
      VerifyPcGrows(w.hub, HubAfter(w, s), w.verifies[k].q, w.verifies[k].pc);
    }
  }

  lemma BindsStep(w: World, s: Step, k: nat)
    requires Inv(w) && Enabled(w, s) && k in BindsAfter(w, s)
    requires Grows(w.hub, HubAfter(w, s))
    ensures var c := BindsAfter(w, s)[k]; BindPcOk(HubAfter(w, s), c.q, c.pc)
  {
    if s.BindBegins? && s.call == k {
    } else if s.BindContinues? && s.call == k {
      BindNextKeeps(w.hub, w.binds[k].q, w.binds[k].pc, w.now);
    } else {
      BindPcGrows(w.hub, HubAfter(w, s), w.binds[k].q, w.binds[k].pc);
    }
  }

  lemma IssuesStep(w: World, s: Step, k: nat, i: nat)
    requires Inv(w) && Enabled(w, s) && k in IssuesAfter(w, s) && i < |IssuesAfter(w, s)[k].pending|
    requires Grows(w.hub, HubAfter(w, s))
    ensures var c := IssuesAfter(w, s)[k]; RowHolds(HubAfter(w, s), c.meetingId, c.tenantId, c.pending[i])
  {
    var c := IssuesAfter(w, s)[k];
    if s.IssueBegins? && s.call == k {
      ListingHolds(w.hub, s.meetingId, s.rows, i);
    } else if s.IssueLogs? && s.call == k {
      assert c.pending[i] == w.issues[k].pending[i + 1];
    } else {
      assert c.pending[i] == w.issues[k].pending[i];
    }
    RowHoldsGrows(w.hub, HubAfter(w, s), c.meetingId, c.tenantId, c.pending[i]);
  }

  // ---- Where stored challenges and tokens come from and go ----

  /** The row of the issue loop that this step works on. */
  function TurnRow(w: World, s: Step): Row
    requires (s.IssueContinues? || s.IssueLogs?) && s.call in w.issues && w.issues[s.call].pending != []
  {
    w.issues[s.call].pending[0]
  }

  lemma StoredByIssue(h: Hub, meetingId: string, tenantId: string, row: Row, draw: Draw, id: string)
    requires id in IssueStart(h, meetingId, tenantId, row, draw).0.challenges
    ensures var m := IssueStart(h, meetingId, tenantId, row, draw).0.challenges;
      (id in h.challenges && m[id] == h.challenges[id])
      || (id == draw.id && Challengeable(row)
          && m[id] == Expiring(ChallengeFor(meetingId, tenantId, row, draw), Some(draw.now + 15_000)))
  {
  }

  lemma KeptByBind(h: Hub, q: BindRequest, pc: BindPc, now: nat)
    requires !pc.BindFinished?
    ensures var h' := BindNext(h, q, pc, now).0;
      && h'.challenges == h.challenges
      && h'.tokens == if pc.BindAccepted? then Drop(h.tokens, q.token) else h.tokens
  {
  }

  lemma KeptByVerify(h: Hub, q: Response, pc: VerifyPc, now: nat)
    requires !pc.Finished?
    ensures var h' := VerifyNext(h, q, pc, now).0;
      && h'.tokens == h.tokens
      && h'.challenges == if pc.Loaded? then Drop(h.challenges, q.challengeId) else h.challenges
  {
  }

  /** A stored challenge was there before the step, or the step is the turn that drew its id. */
  lemma ChallengesStep(w: World, s: Step, id: string)
    requires Enabled(w, s) && id in HubAfter(w, s).challenges
    ensures (id in w.hub.challenges && HubAfter(w, s).challenges[id] == w.hub.challenges[id])
      || (s.IssueContinues? && id == s.draw.id && Challengeable(TurnRow(w, s))
          && HubAfter(w, s).challenges[id] ==
               Expiring(ChallengeFor(w.issues[s.call].meetingId, w.issues[s.call].tenantId, TurnRow(w, s), s.draw),
                        Some(w.now + 15_000)))
  {
    if s.IssueContinues? {
      StoredByIssue(w.hub, w.issues[s.call].meetingId, w.issues[s.call].tenantId, TurnRow(w, s), s.draw, id);
    } else if s.VerifyContinues? {
      KeptByVerify(w.hub, w.verifies[s.call].q, w.verifies[s.call].pc, w.now);
    } else if s.BindContinues? {
      KeptByBind(w.hub, w.binds[s.call].q, w.binds[s.call].pc, w.now);
    }
  }

  /** A stored token was there before the step, or the step is the one that issued it. */
  lemma TokensStep(w: World, s: Step, t: string)
    requires Enabled(w, s) && t in HubAfter(w, s).tokens
    ensures (t in w.hub.tokens && HubAfter(w, s).tokens[t] == w.hub.tokens[t])
      || (s.IssuesToken? && t == s.token
          && HubAfter(w, s).tokens[t] ==
               Expiring(JoinToken(s.meetingId, s.participantId, s.base + TOKEN_LIFE_MS), Some(w.now + 30_000)))
  {
    if s.VerifyContinues? {
      KeptByVerify(w.hub, w.verifies[s.call].q, w.verifies[s.call].pc, w.now);
    } else if s.BindContinues? {
      KeptByBind(w.hub, w.binds[s.call].q, w.binds[s.call].pc, w.now);
    }
  }

  lemma KeysStep(w: World, s: Step)
    requires Inv(w) && Enabled(w, s)
    ensures KeysUsed(Next(w, s))
  {
    forall t | t in HubAfter(w, s).tokens
      ensures t in UsedAfter(w, s)
    {
      TokensStep(w, s, t);
    }
    forall id | id in HubAfter(w, s).challenges
      ensures id in UsedAfter(w, s)
    {
      ChallengesStep(w, s, id);
    }
  }

  lemma IssueCallsStep(w: World, s: Step, k: nat)
    requires Inv(w) && Enabled(w, s) && k in IssuesAfter(w, s)
    ensures IssueCallOk(IssuesAfter(w, s)[k])
  {
    if s.IssueContinues? && s.call == k {
      var c := w.issues[k];
      IssueStartKeeps(w.hub, c.meetingId, c.tenantId, c.pending[0], s.draw, w.now);
    }
  }

  lemma JoinsStep(w: World, s: Step, k: nat)
    requires Inv(w) && Enabled(w, s) && k in JoinsAfter(w, s)
    requires Grows(w.hub, HubAfter(w, s))
    ensures JoinCallOk(HubAfter(w, s), JoinsAfter(w, s)[k])
  {
    if s.Joins? && s.call == k {
      assert s.meetingId in w.hub.meetings;
    } else {
      assert JoinCallOk(w.hub, w.joins[k]);
    }
  }

  /** Every step, whatever else is under way, keeps the invariant and lets the hub only grow. */
  lemma StepKeeps(w: World, s: Step)
    requires Inv(w) && Enabled(w, s)
    ensures Inv(Next(w, s)) && Grows(w.hub, Next(w, s).hub)
  {
    var w' := Next(w, s);
    HubStep(w, s);
    WholeLater(w'.hub, w.now, w'.now);
    KeysStep(w, s);
    forall k | k in w'.verifies
      ensures VerifyPcOk(w'.hub, w'.verifies[k].q, w'.verifies[k].pc)
    {
      VerifiesStep(w, s, k);
    }
    forall k | k in w'.binds
      ensures BindPcOk(w'.hub, w'.binds[k].q, w'.binds[k].pc)
    {
      BindsStep(w, s, k);
    }
    forall k, i | k in w'.issues && 0 <= i < |w'.issues[k].pending|
      ensures RowHolds(w'.hub, w'.issues[k].meetingId, w'.issues[k].tenantId, w'.issues[k].pending[i])
    {
      IssuesStep(w, s, k, i);
    }
    forall k | k in w'.issues
      ensures IssueCallOk(w'.issues[k])
    {
      IssueCallsStep(w, s, k);
    }
    forall k | k in w'.joins
      ensures JoinCallOk(w'.hub, w'.joins[k])
    {
      JoinsStep(w, s, k);
    }
  }

  lemma {:induction false} Reachable(r: Run, i: nat)
    requires Valid(r) && i < |r.worlds|
    ensures Inv(r.worlds[i])
  {
    if i > 0 {
      Reachable(r, i - 1);
      assert StepAt(r, i - 1);
      StepKeeps(r.worlds[i - 1], r.steps[i - 1]);
    }
  }

  /** Between any two moments of a run the hub only grows and the clock never goes back. */
  lemma {:induction false} RunGrows(r: Run, i: nat, j: nat)
    requires Valid(r) && i <= j < |r.worlds|
    ensures Grows(r.worlds[i].hub, r.worlds[j].hub) && r.worlds[i].now <= r.worlds[j].now
    decreases j
  {
    if i < j {
      RunGrows(r, i, j - 1);
      Reachable(r, j - 1);
      assert StepAt(r, j - 1);
      StepKeeps(r.worlds[j - 1], r.steps[j - 1]);
      GrowsTransitive(r.worlds[i].hub, r.worlds[j - 1].hub, r.worlds[j].hub);
    }
  }
}
