/** What a schedule writes to a participant's row, what it logs, and when the two tell the same. */
module Stories {
  import opened Prelude
  import opened Entities
  import opened AuditReplay
  import opened MeetingService
  import opened ChallengeService
  import opened HubLaws
  import opened Interleaved
  import opened CallHistory

  // ---- The effect of one step ----

  predicate VerifyAt(w: World, s: Step, p: string) {
    s.VerifyContinues? && s.call in w.verifies && !w.verifies[s.call].pc.Finished?
    && w.verifies[s.call].pc.held.participantId == p
  }

  predicate BindAt(w: World, s: Step, p: string) {
    s.BindContinues? && s.call in w.binds && !w.binds[s.call].pc.BindFinished?
    && w.binds[s.call].pc.held.participantId == p
  }

  predicate IssueAt(w: World, s: Step, p: string) {
    (s.IssueContinues? || s.IssueLogs?) && s.call in w.issues && w.issues[s.call].pending != []
    && TurnRow(w, s).id == p && !Challengeable(TurnRow(w, s))
  }

  /** What the step writes to the row of `p`. */
  function RowEffect(w: World, s: Step, p: string): seq<Effect> {
    if VerifyAt(w, s, p) && w.verifies[s.call].pc.Judged? then [Marks(w.verifies[s.call].pc.status)]
    else if BindAt(w, s, p) && w.binds[s.call].pc.BindConsumed? then [Binds(w.binds[s.call].q.deviceId)]
    else if s.IssueContinues? && IssueAt(w, s, p) then [Marks(Failed)]
    else if s.Joins? && s.participantId == p && s.meetingId in w.hub.meetings then [Enters]
    else []
  }

  /** What the step logs about `p`. */
  function LogEffect(w: World, s: Step, p: string): seq<Effect> {
    if VerifyAt(w, s, p) && w.verifies[s.call].pc.Updated? then [Marks(w.verifies[s.call].pc.status)]
    else if BindAt(w, s, p) && w.binds[s.call].pc.BindWritten? && w.binds[s.call].q.meetingId in w.hub.meetings
    then [Binds(w.binds[s.call].q.deviceId)]
    else if s.IssueLogs? && IssueAt(w, s, p) then [Marks(Failed)]
    else if s.JoinLogs? && s.call in w.joins && w.joins[s.call].participantId == p then [Enters]
    else []
  }

  /** A binding of `p` whose meeting does not exist throws here, before its audit event. */
  function LostEffect(w: World, s: Step, p: string): seq<Effect> {
    if BindAt(w, s, p) && w.binds[s.call].pc.BindWritten? && w.binds[s.call].q.meetingId !in w.hub.meetings
    then [Binds(w.binds[s.call].q.deviceId)]
    else []
  }

  lemma ShownByVerify(h: Hub, q: Response, pc: VerifyPc, now: nat, p: string)
    requires !pc.Finished? && pc.held.participantId in h.participants
    ensures Shown(VerifyNext(h, q, pc, now).0, p) ==
      if pc.Judged? && pc.held.participantId == p then Apply(Shown(h, p), Marks(pc.status)) else Shown(h, p)
  {
  }

  lemma ShownByBind(h: Hub, q: BindRequest, pc: BindPc, now: nat, p: string)
    requires !pc.BindFinished? && (pc.BindConsumed? ==> pc.held.participantId in h.participants)
    ensures Shown(BindNext(h, q, pc, now).0, p) ==
      if pc.BindConsumed? && pc.held.participantId == p then Apply(Shown(h, p), Binds(q.deviceId)) else Shown(h, p)
  {
  }

  lemma ShownByIssue(h: Hub, meetingId: string, tenantId: string, row: Row, draw: Draw, p: string)
    requires row.id in h.participants
    ensures Shown(IssueStart(h, meetingId, tenantId, row, draw).0, p) ==
      if row.id == p && !Challengeable(row) then Apply(Shown(h, p), Marks(Failed)) else Shown(h, p)
  {
  }

  lemma ShownByRest(w: World, s: Step, p: string)
    requires Enabled(w, s) && !s.VerifyContinues? && !s.BindContinues? && !s.IssueContinues?
    ensures Shown(HubAfter(w, s), p) ==
      if s.Joins? && s.participantId == p && s.meetingId in w.hub.meetings then Some(Seen(Unknown, None))
      else Shown(w.hub, p)
  {
  }

  /** The table follows the row effects. */
  lemma ShownStep(w: World, s: Step, p: string)
    requires Inv(w) && Enabled(w, s)
    ensures Shown(HubAfter(w, s), p) == ApplyAll(Shown(w.hub, p), RowEffect(w, s, p))
  {
    if RowEffect(w, s, p) != [] {
      ApplyOne(Shown(w.hub, p), RowEffect(w, s, p)[0]);
    }
    if s.VerifyContinues? {
      ShownByVerify(w.hub, w.verifies[s.call].q, w.verifies[s.call].pc, w.now, p);
    } else if s.BindContinues? {
      ShownByBind(w.hub, w.binds[s.call].q, w.binds[s.call].pc, w.now, p);
    } else if s.IssueContinues? {
      var c := w.issues[s.call];
      ShownByIssue(w.hub, c.meetingId, c.tenantId, c.pending[0], s.draw, p);
    } else {
      ShownByRest(w, s, p);
    }
  }

  /** The step's audit event, if any, has this effect on `p`. */
  ghost predicate Appends(h: Hub, h': Hub, p: string, effect: seq<Effect>) {
    (h'.audit == h.audit && effect == [])
    || (exists e :: h'.audit == h.audit + [e] && EventEffect(e.detail, p) == effect)
  }

  lemma AppendsVerify(h: Hub, q: Response, pc: VerifyPc, now: nat, p: string)
    requires !pc.Finished?
    ensures Appends(h, VerifyNext(h, q, pc, now).0, p,
                    if pc.Updated? && pc.held.participantId == p then [Marks(pc.status)] else [])
  {
  }

  lemma AppendsBind(h: Hub, q: BindRequest, pc: BindPc, now: nat, p: string)
    requires !pc.BindFinished?
    ensures Appends(h, BindNext(h, q, pc, now).0, p,
                    if pc.BindWritten? && pc.held.participantId == p && q.meetingId in h.meetings
                    then [Binds(q.deviceId)] else [])
  {
  }

  lemma AppendsIssue(h: Hub, meetingId: string, tenantId: string, row: Row, pc: IssuePc, p: string)
    requires !pc.AtRow? && IssuePcOk(meetingId, tenantId, row, pc)
    ensures Appends(h, IssueFinish(h, meetingId, tenantId, row, pc), p,
                    if row.id == p && !Challengeable(row) then [Marks(Failed)] else [])
  {
    var h' := IssueFinish(h, meetingId, tenantId, row, pc);
    assert h'.audit == h.audit + [h'.audit[|h.audit|]];
  }

  lemma AppendsRest(w: World, s: Step, p: string)
    requires Enabled(w, s) && !s.VerifyContinues? && !s.BindContinues? && !s.IssueLogs? && !s.JoinLogs?
    ensures Appends(w.hub, HubAfter(w, s), p, [])
  {
    var h, h' := w.hub, HubAfter(w, s);
    if h'.audit != h.audit {
      assert h'.audit == h.audit + [h'.audit[|h.audit|]];
    }
  }

  lemma AppendsJoin(h: Hub, c: JoinCall, p: string)
    requires JoinCallOk(h, c)
    ensures Appends(h, Logged(h, c.event), p, if c.participantId == p then [Enters] else [])
  {
    assert Logged(h, c.event).audit == h.audit + [c.event];
  }

  lemma Appended(h: Hub, h': Hub, p: string, effects: seq<Effect>)
    requires Appends(h, h', p, effects)
    ensures EffectsOf(h'.audit, p) == EffectsOf(h.audit, p) + effects
  {
    if h'.audit != h.audit {
      var e :| h'.audit == h.audit + [e] && EventEffect(e.detail, p) == effects;
      EffectsMore(h.audit, e, p);
    }
  }

  lemma AppendsStep(w: World, s: Step, p: string)
    requires Inv(w) && Enabled(w, s)
    ensures Appends(w.hub, HubAfter(w, s), p, LogEffect(w, s, p))
  {
    var h := w.hub;
    if s.VerifyContinues? {
      AppendsVerify(h, w.verifies[s.call].q, w.verifies[s.call].pc, w.now, p);
    } else if s.BindContinues? {
      AppendsBind(h, w.binds[s.call].q, w.binds[s.call].pc, w.now, p);
    } else if s.IssueLogs? {
      var c := w.issues[s.call];
      assert IssueCallOk(c);
      AppendsIssue(h, c.meetingId, c.tenantId, c.pending[0], c.pc, p);
    } else if s.JoinLogs? {
      AppendsJoin(h, w.joins[s.call], p);
    } else {
      AppendsRest(w, s, p);
    }
  }

  /** The log follows the log effects. */
  lemma LoggedStep(w: World, s: Step, p: string)
    requires Inv(w) && Enabled(w, s)
    ensures EffectsOf(HubAfter(w, s).audit, p) == EffectsOf(w.hub.audit, p) + LogEffect(w, s, p)
  {
    AppendsStep(w, s, p);
    Appended(w.hub, HubAfter(w, s), p, LogEffect(w, s, p));
  }

  // ---- Whole runs ----

  /** What the steps up to the moment `i` did, one after the other. */
  ghost function Story(r: Run, i: nat, e: (World, Step) -> seq<Effect>): seq<Effect>
    requires i <= |r.steps| < |r.worlds|
  {
    if i == 0 then [] else Story(r, i - 1, e) + e(r.worlds[i - 1], r.steps[i - 1])
  }

  function RowEffects(p: string): (World, Step) -> seq<Effect> {
    (w: World, s: Step) => RowEffect(w, s, p)
  }

  function LogEffects(p: string): (World, Step) -> seq<Effect> {
    (w: World, s: Step) => LogEffect(w, s, p)
  }

  function LostEffects(p: string): (World, Step) -> seq<Effect> {
    (w: World, s: Step) => LostEffect(w, s, p)
  }

  /** Everything written to the row of `p` by the moment `i`, in order. */
  ghost function RowStory(r: Run, i: nat, p: string): seq<Effect>
    requires i <= |r.steps| < |r.worlds|
  {
    Story(r, i, RowEffects(p))
  }

  /** Everything logged about `p`, in order. */
  ghost function LogStory(r: Run, i: nat, p: string): seq<Effect>
    requires i <= |r.steps| < |r.worlds|
  {
    Story(r, i, LogEffects(p))
  }

  /** The bindings of `p` that were written and never logged. */
  ghost function LostStory(r: Run, i: nat, p: string): seq<Effect>
    requires i <= |r.steps| < |r.worlds|
  {
    Story(r, i, LostEffects(p))
  }

  /** What changes at every step by what the step does is in the end what the story makes of nothing. */
  lemma {:induction false} StoryFolds(r: Run, i: nat, e: (World, Step) -> seq<Effect>, shows: World -> Option<Seen>)
    requires i <= |r.steps| < |r.worlds| && shows(r.worlds[0]) == None
    requires forall j :: 0 <= j < i ==>
      shows(r.worlds[j + 1]) == ApplyAll(shows(r.worlds[j]), e(r.worlds[j], r.steps[j]))
    ensures shows(r.worlds[i]) == ApplyAll(None, Story(r, i, e))
  {
    if i > 0 {
      StoryFolds(r, i - 1, e, shows);
      assert shows(r.worlds[(i - 1) + 1]) == ApplyAll(shows(r.worlds[i - 1]), e(r.worlds[i - 1], r.steps[i - 1]));
      ApplyMore(None, Story(r, i - 1, e), e(r.worlds[i - 1], r.steps[i - 1]));
    }
  }

  /** What grows at every step by what the step does is in the end the story. */
  lemma {:induction false} StoryGrows(r: Run, i: nat, e: (World, Step) -> seq<Effect>, tells: World -> seq<Effect>)
    requires i <= |r.steps| < |r.worlds| && tells(r.worlds[0]) == []
    requires forall j :: 0 <= j < i ==> tells(r.worlds[j + 1]) == tells(r.worlds[j]) + e(r.worlds[j], r.steps[j])
    ensures tells(r.worlds[i]) == Story(r, i, e)
  {
    if i > 0 {
      StoryGrows(r, i - 1, e, tells);
      assert tells(r.worlds[(i - 1) + 1]) == tells(r.worlds[i - 1]) + e(r.worlds[i - 1], r.steps[i - 1]);
    }
  }

  lemma RowStep(r: Run, i: nat, p: string)
    requires Valid(r) && i < |r.steps|
    ensures Shown(r.worlds[i + 1].hub, p) == ApplyAll(Shown(r.worlds[i].hub, p), RowEffect(r.worlds[i], r.steps[i], p))
  {
    StepBack(r, i + 1);
    ShownStep(r.worlds[i], r.steps[i], p);
  }

  lemma LogStep(r: Run, i: nat, p: string)
    requires Valid(r) && i < |r.steps|
    ensures EffectsOf(r.worlds[i + 1].hub.audit, p) ==
      EffectsOf(r.worlds[i].hub.audit, p) + LogEffect(r.worlds[i], r.steps[i], p)
  {
    HubAt(r, i);
    Reachable(r, i);
    LoggedStep(r.worlds[i], r.steps[i], p);
  }

  /** The table is what its own story says. */
  lemma RowTells(r: Run, i: nat, p: string)
    requires Valid(r) && i < |r.worlds|
    ensures Shown(r.worlds[i].hub, p) == ApplyAll(None, RowStory(r, i, p))
  {
    var shows := (w: World) => Shown(w.hub, p);
    forall j | 0 <= j < i
      ensures shows(r.worlds[j + 1]) == ApplyAll(shows(r.worlds[j]), RowEffects(p)(r.worlds[j], r.steps[j]))
    {
      RowStep(r, j, p);
    }
    StoryFolds(r, i, RowEffects(p), shows);
  }

  /** The log is its own story, event by event. */
  lemma LogTells(r: Run, i: nat, p: string)
    requires Valid(r) && i < |r.worlds|
    ensures EffectsOf(r.worlds[i].hub.audit, p) == LogStory(r, i, p)
  {
    var tells := (w: World) => EffectsOf(w.hub.audit, p);
    forall j | 0 <= j < i
      ensures tells(r.worlds[j + 1]) == tells(r.worlds[j]) + LogEffects(p)(r.worlds[j], r.steps[j])
    {
      LogStep(r, j, p);
    }
    StoryGrows(r, i, LogEffects(p), tells);
  }

  /** The status a story ends with. */
  function LastStatus(story: seq<Effect>): Option<TrustStatus> {
    if story == [] then None
    else match story[|story| - 1]
      case Enters => Some(Unknown)
      case Marks(status) => Some(status)
      case Binds(_) => Some(Verified)
  }

  /** The device a story bound last. */
  function LastDevice(story: seq<Effect>): Option<string> {
    if story == [] then None
    else match story[|story| - 1]
      case Enters => None
      case Marks(_) => LastDevice(story[..|story| - 1])
      case Binds(d) => Some(d)
  }

  lemma {:induction false} TellsLast(story: seq<Effect>)
    ensures ApplyAll(None, story) ==
      if story == [] then None else Some(Seen(LastStatus(story).value, LastDevice(story)))
  {
    if story != [] {
      TellsLast(story[..|story| - 1]);
    }
  }

  /**
   In any schedule and at any moment, the log tells the truth about a
   participant exactly when the last write logged carries the status of the last
   write made, and the last binding logged the device of the last binding made.
   */
  lemma ReplayExact(r: Run, i: nat, p: string)
    requires Valid(r) && i < |r.worlds|
    ensures Replayed(r.worlds[i].hub.audit, p) == Shown(r.worlds[i].hub, p) <==>
      && LastStatus(LogStory(r, i, p)) == LastStatus(RowStory(r, i, p))
      && LastDevice(LogStory(r, i, p)) == LastDevice(RowStory(r, i, p))
  {
    RowTells(r, i, p);
    LogTells(r, i, p);
    TellsLast(RowStory(r, i, p));
    TellsLast(LogStory(r, i, p));
  }
}
