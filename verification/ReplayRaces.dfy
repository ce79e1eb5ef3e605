/** What the audit log still tells when verdicts and bindings overlap, participant by participant. */
module ReplayRaces {
  import opened Entities
  import opened AuditReplay
  import opened MeetingService
  import opened ChallengeService
  import opened Interleaved
  import opened CallHistory
  import opened Stories
  import opened Sums

  // ---- Writes made and not yet logged ----

  predicate OwesVerdict(c: VerifyCall, p: string) {
    c.pc.Updated? && c.pc.held.participantId == p
  }

  predicate OwesBinding(c: BindCall, p: string) {
    c.pc.BindWritten? && c.pc.held.participantId == p
  }

  predicate OwesFailure(c: IssueCall, p: string) {
    c.pc.Failing? && c.pending != [] && c.pending[0].id == p
  }

  predicate OwesEntry(c: JoinCall, p: string) {
    !c.logged && c.participantId == p
  }

  /** No call of any kind stands between writing the row of `p` and logging it. */
  predicate Quiet(w: World, p: string) {
    && (forall k :: k in w.verifies ==> !OwesVerdict(w.verifies[k], p))
    && (forall k :: k in w.binds ==> !OwesBinding(w.binds[k], p))
    && (forall k :: k in w.issues ==> !OwesFailure(w.issues[k], p))
    && (forall k :: k in w.joins ==> !OwesEntry(w.joins[k], p))
  }

  function VerdictOwed(c: VerifyCall, p: string): seq<Effect> {
    if OwesVerdict(c, p) then [Marks(c.pc.status)] else []
  }

  function VerdictDebt(p: string): VerifyCall -> multiset<Effect> {
    (c: VerifyCall) => multiset(VerdictOwed(c, p))
  }

  function BindingOwed(c: BindCall, p: string): seq<Effect> {
    if OwesBinding(c, p) then [Binds(c.q.deviceId)] else []
  }

  function BindingDebt(p: string): BindCall -> multiset<Effect> {
    (c: BindCall) => multiset(BindingOwed(c, p))
  }

  function FailureOwed(c: IssueCall, p: string): seq<Effect> {
    if OwesFailure(c, p) then [Marks(Failed)] else []
  }

  function FailureDebt(p: string): IssueCall -> multiset<Effect> {
    (c: IssueCall) => multiset(FailureOwed(c, p))
  }

  function EntryOwed(c: JoinCall, p: string): seq<Effect> {
    if OwesEntry(c, p) then [Enters] else []
  }

  function EntryDebt(p: string): JoinCall -> multiset<Effect> {
    (c: JoinCall) => multiset(EntryOwed(c, p))
  }

  /** What calls have written to the row of `p` and not yet logged, with its multiplicity. */
  ghost function Owed(w: World, p: string): multiset<Effect> {
    Sum(w.verifies, VerdictDebt(p)) + Sum(w.binds, BindingDebt(p))
    + Sum(w.issues, FailureDebt(p)) + Sum(w.joins, EntryDebt(p))
  }

  lemma QuietOwesNothing(w: World, p: string)
    requires Quiet(w, p)
    ensures Owed(w, p) == multiset{}
  {
    SumOfNothing(w.verifies, VerdictDebt(p));
    SumOfNothing(w.binds, BindingDebt(p));
    SumOfNothing(w.issues, FailureDebt(p));
    SumOfNothing(w.joins, EntryDebt(p));
  }

  // ---- One step of a call ----

  lemma VerdictSettles(w: World, s: Step, p: string)
    requires Inv(w) && Enabled(w, s) && s.VerifyContinues?
    ensures var c := w.verifies[s.call]; var c' := c.(pc := VerifyNext(w.hub, c.q, c.pc, w.now).1);
      && VerifiesAfter(w, s) == w.verifies[s.call := c']
      && VerdictOwed(c, p) + RowEffect(w, s, p) == VerdictOwed(c', p) + (LogEffect(w, s, p) + LostEffect(w, s, p))
  {
    VerdictPcs(w.hub, w.verifies[s.call].q, w.verifies[s.call].pc, w.now);
    JustLogged(w, s, p);
  }

  /** Only a binding loses its event. */
  lemma JustLogged(w: World, s: Step, p: string)
    requires !s.BindContinues?
    ensures LogEffect(w, s, p) + LostEffect(w, s, p) == LogEffect(w, s, p)
  {
  }

  lemma VerdictPcs(h: Hub, q: Response, pc: VerifyPc, now: nat)
    requires !pc.Finished? && pc.held.participantId in h.participants
    ensures var pc' := VerifyNext(h, q, pc, now).1;
      && (pc'.Updated? <==> pc.Judged?) && (pc.Updated? ==> pc'.Finished?)
      && (pc.Judged? ==> pc'.held == pc.held && pc'.status == pc.status)
  {
  }

  lemma BindingSettles(w: World, s: Step, p: string)
    requires Inv(w) && Enabled(w, s) && s.BindContinues?
    ensures var c := w.binds[s.call]; var c' := c.(pc := BindNext(w.hub, c.q, c.pc, w.now).1);
      && BindsAfter(w, s) == w.binds[s.call := c']
      && BindingOwed(c, p) + RowEffect(w, s, p) == BindingOwed(c', p) + (LogEffect(w, s, p) + LostEffect(w, s, p))
  {
    var c := w.binds[s.call];
    BindingPcs(w.hub, c.q, c.pc, w.now);
    BindingLogged(w, s, p);
  }

  /** At the last step the event is logged or lost, exactly once. */
  lemma BindingLogged(w: World, s: Step, p: string)
    requires s.BindContinues?
    ensures LogEffect(w, s, p) + LostEffect(w, s, p) ==
      if BindAt(w, s, p) && w.binds[s.call].pc.BindWritten? then [Binds(w.binds[s.call].q.deviceId)] else []
  {
  }

  lemma BindingPcs(h: Hub, q: BindRequest, pc: BindPc, now: nat)
    requires !pc.BindFinished? && (pc.BindConsumed? ==> pc.held.participantId in h.participants)
    ensures var pc' := BindNext(h, q, pc, now).1;
      && (pc'.BindWritten? <==> pc.BindConsumed?) && (pc.BindWritten? ==> pc'.BindFinished?)
      && (pc.BindConsumed? ==> pc'.held == pc.held)
  {
  }

  lemma FailureWritten(w: World, s: Step, p: string)
    requires Inv(w) && Enabled(w, s) && s.IssueContinues?
    ensures var c := w.issues[s.call];
      var c' := c.(pc := IssueStart(w.hub, c.meetingId, c.tenantId, c.pending[0], s.draw).1);
      && IssuesAfter(w, s) == w.issues[s.call := c']
      && FailureOwed(c, p) + RowEffect(w, s, p) == FailureOwed(c', p) + (LogEffect(w, s, p) + LostEffect(w, s, p))
  {
    JustLogged(w, s, p);
    var c := w.issues[s.call];
    IssuePcs(w.hub, c.meetingId, c.tenantId, c.pending[0], s.draw);
  }

  lemma IssuePcs(h: Hub, meetingId: string, tenantId: string, row: Row, draw: Draw)
    ensures IssueStart(h, meetingId, tenantId, row, draw).1.Failing? <==> !Challengeable(row)
  {
  }

  lemma FailureLogged(w: World, s: Step, p: string)
    requires Inv(w) && Enabled(w, s) && s.IssueLogs?
    ensures var c := w.issues[s.call]; var c' := c.(pending := c.pending[1..], pc := AtRow);
      && IssuesAfter(w, s) == w.issues[s.call := c']
      && FailureOwed(c, p) + RowEffect(w, s, p) == FailureOwed(c', p) + (LogEffect(w, s, p) + LostEffect(w, s, p))
  {
    JustLogged(w, s, p);
    var c := w.issues[s.call];
    assert IssueCallOk(c);
    assert c.pc.Failing? <==> !Challengeable(c.pending[0]);
  }

  lemma EntrySettles(w: World, s: Step, p: string)
    requires Inv(w) && Enabled(w, s) && s.JoinLogs?
    ensures var c := w.joins[s.call]; var c' := c.(logged := true);
      && JoinsAfter(w, s) == w.joins[s.call := c']
      && EntryOwed(c, p) + RowEffect(w, s, p) == EntryOwed(c', p) + (LogEffect(w, s, p) + LostEffect(w, s, p))
  {
    JustLogged(w, s, p);
  }

  // ---- The tables a step leaves alone, or only adds a new call to ----

  lemma OtherVerdicts(w: World, s: Step, p: string)
    requires Enabled(w, s) && !s.VerifyContinues?
    ensures Sum(VerifiesAfter(w, s), VerdictDebt(p)) == Sum(w.verifies, VerdictDebt(p))
  {
    if s.VerifyBegins? {
      SumAdd(w.verifies, VerdictDebt(p), s.call, VerifyCall(s.response, VerifyStart(w.hub, s.response, w.now)));
    }
  }

  lemma OtherBindings(w: World, s: Step, p: string)
    requires Enabled(w, s) && !s.BindContinues?
    ensures Sum(BindsAfter(w, s), BindingDebt(p)) == Sum(w.binds, BindingDebt(p))
  {
    if s.BindBegins? {
      SumAdd(w.binds, BindingDebt(p), s.call, BindCall(s.bind, BindStart(w.hub, s.bind, w.now)));
    }
  }

  lemma OtherFailures(w: World, s: Step, p: string)
    requires Enabled(w, s) && !s.IssueContinues? && !s.IssueLogs?
    ensures Sum(IssuesAfter(w, s), FailureDebt(p)) == Sum(w.issues, FailureDebt(p))
  {
    if s.IssueBegins? {
      SumAdd(w.issues, FailureDebt(p), s.call,
             IssueCall(s.meetingId, w.hub.meetings[s.meetingId].tenantId, s.rows, AtRow));
    }
  }

  lemma OtherEntries(w: World, s: Step, p: string)
    requires Enabled(w, s) && !s.Joins? && !s.JoinLogs?
    ensures Sum(JoinsAfter(w, s), EntryDebt(p)) == Sum(w.joins, EntryDebt(p))
  {
  }

  /** A new participant's row is written, and its event owed. */
  lemma EntryAdded(w: World, s: Step, p: string)
    requires Enabled(w, s) && s.Joins?
    ensures Moves(Sum(w.joins, EntryDebt(p)), Sum(JoinsAfter(w, s), EntryDebt(p)), w, s, p)
  {
    JustLogged(w, s, p);
    if s.meetingId in w.hub.meetings {
      SumAdd(w.joins, EntryDebt(p), s.call, JoinsAfter(w, s)[s.call]);
      EntryWritten(w, s, p);
    }
  }

  lemma EntryWritten(w: World, s: Step, p: string)
    requires Enabled(w, s) && s.Joins? && s.meetingId in w.hub.meetings
    ensures JoinsAfter(w, s) == w.joins[s.call := JoinsAfter(w, s)[s.call]]
    ensures RowEffect(w, s, p) == EntryOwed(JoinsAfter(w, s)[s.call], p) && LogEffect(w, s, p) == []
  {
  }

  // ---- One step of the whole ----

  lemma Shift(x: multiset<Effect>, x': multiset<Effect>, y: multiset<Effect>,
              row: multiset<Effect>, logged: multiset<Effect>)
    requires x + row == x' + logged
    ensures (x + y) + row == (x' + y) + logged
    ensures (y + x) + row == (y + x') + logged
  {
    assert (x + y) + row == (x + row) + y;
    assert (y + x) + row == (x + row) + y;
  }

  ghost predicate OneOf(v: multiset<Effect>, b: multiset<Effect>, i: multiset<Effect>, j: multiset<Effect>,
                        v': multiset<Effect>, b': multiset<Effect>, i': multiset<Effect>, j': multiset<Effect>,
                        row: multiset<Effect>, logged: multiset<Effect>)
  {
    || (v + row == v' + logged && b' == b && i' == i && j' == j)
    || (b + row == b' + logged && v' == v && i' == i && j' == j)
    || (i + row == i' + logged && v' == v && b' == b && j' == j)
    || (j + row == j' + logged && v' == v && b' == b && i' == i)
  }

  /** One of the four sums changes by what is written and what is logged, and so does their total. */
  lemma Total(v: multiset<Effect>, b: multiset<Effect>, i: multiset<Effect>, j: multiset<Effect>,
              v': multiset<Effect>, b': multiset<Effect>, i': multiset<Effect>, j': multiset<Effect>,
              row: multiset<Effect>, logged: multiset<Effect>)
    requires OneOf(v, b, i, j, v', b', i', j', row, logged)
    ensures v + b + i + j + row == v' + b' + i' + j' + logged
  {
    if v + row == v' + logged && b' == b && i' == i && j' == j {
      Shift(v, v', b, row, logged);
      Shift(v + b, v' + b, i, row, logged);
      Shift(v + b + i, v' + b + i, j, row, logged);
    } else if b + row == b' + logged && v' == v && i' == i && j' == j {
      Shift(b, b', v, row, logged);
      Shift(v + b, v + b', i, row, logged);
      Shift(v + b + i, v + b' + i, j, row, logged);
    } else if i + row == i' + logged && v' == v && b' == b && j' == j {
      Shift(i, i', v + b, row, logged);
      Shift(v + b + i, v + b + i', j, row, logged);
    } else {
      Shift(j, j', v + b + i, row, logged);
    }
  }

  ghost predicate Moves(x: multiset<Effect>, x': multiset<Effect>, w: World, s: Step, p: string) {
    x + multiset(RowEffect(w, s, p)) == x' + multiset(LogEffect(w, s, p) + LostEffect(w, s, p))
  }

  /** One table of calls moves by what is written, logged and lost; the others owe what they owed. */
  ghost predicate OneMoves(w: World, s: Step, p: string)
    requires Enabled(w, s)
  {
    OneOf(Sum(w.verifies, VerdictDebt(p)), Sum(w.binds, BindingDebt(p)),
          Sum(w.issues, FailureDebt(p)), Sum(w.joins, EntryDebt(p)),
          Sum(VerifiesAfter(w, s), VerdictDebt(p)), Sum(BindsAfter(w, s), BindingDebt(p)),
          Sum(IssuesAfter(w, s), FailureDebt(p)), Sum(JoinsAfter(w, s), EntryDebt(p)),
          multiset(RowEffect(w, s, p)), multiset(LogEffect(w, s, p) + LostEffect(w, s, p)))
  }

  lemma Counted(before: seq<Effect>, after: seq<Effect>, row: seq<Effect>, logged: seq<Effect>)
    requires before + row == after + logged
    ensures multiset(before) + multiset(row) == multiset(after) + multiset(logged)
  {
    assert multiset(before + row) == multiset(before) + multiset(row);
    assert multiset(after + logged) == multiset(after) + multiset(logged);
  }

  lemma VerdictMoves(w: World, s: Step, p: string)
    requires Inv(w) && Enabled(w, s) && s.VerifyContinues?
    ensures Moves(Sum(w.verifies, VerdictDebt(p)), Sum(VerifiesAfter(w, s), VerdictDebt(p)), w, s, p)
  {
    VerdictSettles(w, s, p);
    Counted(VerdictOwed(w.verifies[s.call], p), VerdictOwed(VerifiesAfter(w, s)[s.call], p),
            RowEffect(w, s, p), LogEffect(w, s, p) + LostEffect(w, s, p));
    SumChange(w.verifies, VerdictDebt(p), s.call, VerifiesAfter(w, s)[s.call],
              multiset(RowEffect(w, s, p)), multiset(LogEffect(w, s, p) + LostEffect(w, s, p)));
  }

  lemma BindingMoves(w: World, s: Step, p: string)
    requires Inv(w) && Enabled(w, s) && s.BindContinues?
    ensures Moves(Sum(w.binds, BindingDebt(p)), Sum(BindsAfter(w, s), BindingDebt(p)), w, s, p)
  {
    BindingSettles(w, s, p);
    Counted(BindingOwed(w.binds[s.call], p), BindingOwed(BindsAfter(w, s)[s.call], p),
            RowEffect(w, s, p), LogEffect(w, s, p) + LostEffect(w, s, p));
    SumChange(w.binds, BindingDebt(p), s.call, BindsAfter(w, s)[s.call],
              multiset(RowEffect(w, s, p)), multiset(LogEffect(w, s, p) + LostEffect(w, s, p)));
  }

  lemma FailureMoves(w: World, s: Step, p: string)
    requires Inv(w) && Enabled(w, s) && (s.IssueContinues? || s.IssueLogs?)
    ensures Moves(Sum(w.issues, FailureDebt(p)), Sum(IssuesAfter(w, s), FailureDebt(p)), w, s, p)
  {
    if s.IssueContinues? {
      FailureWritten(w, s, p);
    } else {
      FailureLogged(w, s, p);
    }
    Counted(FailureOwed(w.issues[s.call], p), FailureOwed(IssuesAfter(w, s)[s.call], p),
            RowEffect(w, s, p), LogEffect(w, s, p) + LostEffect(w, s, p));
    SumChange(w.issues, FailureDebt(p), s.call, IssuesAfter(w, s)[s.call],
              multiset(RowEffect(w, s, p)), multiset(LogEffect(w, s, p) + LostEffect(w, s, p)));
  }

  lemma EntryMoves(w: World, s: Step, p: string)
    requires Inv(w) && Enabled(w, s) && s.JoinLogs?
    ensures Moves(Sum(w.joins, EntryDebt(p)), Sum(JoinsAfter(w, s), EntryDebt(p)), w, s, p)
  {
    EntrySettles(w, s, p);
    Counted(EntryOwed(w.joins[s.call], p), EntryOwed(JoinsAfter(w, s)[s.call], p),
            RowEffect(w, s, p), LogEffect(w, s, p) + LostEffect(w, s, p));
    SumChange(w.joins, EntryDebt(p), s.call, JoinsAfter(w, s)[s.call],
              multiset(RowEffect(w, s, p)), multiset(LogEffect(w, s, p) + LostEffect(w, s, p)));
  }

  lemma Settlement(w: World, s: Step, p: string)
    requires Inv(w) && Enabled(w, s)
    ensures OneMoves(w, s, p)
  {
    if !s.VerifyContinues? {
      OtherVerdicts(w, s, p);
    }
    if !s.BindContinues? {
      OtherBindings(w, s, p);
    }
    if !s.IssueContinues? && !s.IssueLogs? {
      OtherFailures(w, s, p);
    }
    if !s.Joins? && !s.JoinLogs? {
      OtherEntries(w, s, p);
    }
    ItMoves(w, s, p);
  }

  /** The table the step works on, or, if it works on none, any. */
  lemma ItMoves(w: World, s: Step, p: string)
    requires Inv(w) && Enabled(w, s)
    ensures s.VerifyContinues? ==>
      Moves(Sum(w.verifies, VerdictDebt(p)), Sum(VerifiesAfter(w, s), VerdictDebt(p)), w, s, p)
    ensures s.BindContinues? ==> Moves(Sum(w.binds, BindingDebt(p)), Sum(BindsAfter(w, s), BindingDebt(p)), w, s, p)
    ensures s.IssueContinues? || s.IssueLogs? ==>
      Moves(Sum(w.issues, FailureDebt(p)), Sum(IssuesAfter(w, s), FailureDebt(p)), w, s, p)
    ensures !s.VerifyContinues? && !s.BindContinues? && !s.IssueContinues? && !s.IssueLogs? ==>
      Moves(Sum(w.joins, EntryDebt(p)), Sum(JoinsAfter(w, s), EntryDebt(p)), w, s, p)
  {
    if s.VerifyContinues? {
      VerdictMoves(w, s, p);
    } else if s.BindContinues? {
      BindingMoves(w, s, p);
    } else if s.IssueContinues? || s.IssueLogs? {
      FailureMoves(w, s, p);
    } else if s.JoinLogs? {
      EntryMoves(w, s, p);
    } else if s.Joins? {
      EntryAdded(w, s, p);
    } else {
      OtherEntries(w, s, p);
      JustLogged(w, s, p);
    }
  }

  lemma OwedAfter(w: World, s: Step, w': World, p: string)
    requires Enabled(w, s) && w' == Next(w, s)
    ensures Owed(w', p) ==
      Sum(VerifiesAfter(w, s), VerdictDebt(p)) + Sum(BindsAfter(w, s), BindingDebt(p))
      + Sum(IssuesAfter(w, s), FailureDebt(p)) + Sum(JoinsAfter(w, s), EntryDebt(p))
  {
  }

  lemma TotalMoves(w: World, s: Step, p: string)
    requires Enabled(w, s) && OneMoves(w, s, p)
    ensures Owed(w, p) + multiset(RowEffect(w, s, p)) ==
      Sum(VerifiesAfter(w, s), VerdictDebt(p)) + Sum(BindsAfter(w, s), BindingDebt(p))
      + Sum(IssuesAfter(w, s), FailureDebt(p)) + Sum(JoinsAfter(w, s), EntryDebt(p))
      + multiset(LogEffect(w, s, p) + LostEffect(w, s, p))
  {
    Total(Sum(w.verifies, VerdictDebt(p)), Sum(w.binds, BindingDebt(p)),
          Sum(w.issues, FailureDebt(p)), Sum(w.joins, EntryDebt(p)),
          Sum(VerifiesAfter(w, s), VerdictDebt(p)), Sum(BindsAfter(w, s), BindingDebt(p)),
          Sum(IssuesAfter(w, s), FailureDebt(p)), Sum(JoinsAfter(w, s), EntryDebt(p)),
          multiset(RowEffect(w, s, p)), multiset(LogEffect(w, s, p) + LostEffect(w, s, p)));
  }

  lemma OwedStep(w: World, s: Step, w': World, p: string)
    requires Inv(w) && Enabled(w, s) && w' == Next(w, s)
    ensures Owed(w, p) + multiset(RowEffect(w, s, p)) ==
      Owed(w', p) + multiset(LogEffect(w, s, p) + LostEffect(w, s, p))
  {
    Settlement(w, s, p);
    TotalMoves(w, s, p);
    OwedAfter(w, s, w', p);
  }

  /** The writes are those logged, those lost and those owed, each as often as it was made. */
  ghost predicate Accounted(row: seq<Effect>, logged: seq<Effect>, lost: seq<Effect>, owed: multiset<Effect>) {
    forall e: Effect :: multiset(row)[e] == multiset(logged)[e] + multiset(lost)[e] + owed[e]
  }

  lemma Balance(row: seq<Effect>, logged: seq<Effect>, lost: seq<Effect>, owed: multiset<Effect>,
                dr: seq<Effect>, dl: seq<Effect>, dx: seq<Effect>, owed': multiset<Effect>)
    requires Accounted(row, logged, lost, owed)
    requires owed + multiset(dr) == owed' + multiset(dl + dx)
    ensures Accounted(row + dr, logged + dl, lost + dx, owed')
  {
    assert multiset(row + dr) == multiset(row) + multiset(dr);
    assert multiset(dl + dx) == multiset(dl) + multiset(dx);
    assert multiset(logged + dl) == multiset(logged) + multiset(dl);
    assert multiset(lost + dx) == multiset(lost) + multiset(dx);
    forall e: Effect
      ensures multiset(row + dr)[e] == multiset(logged + dl)[e] + multiset(lost + dx)[e] + owed'[e]
    {
      assert multiset(row)[e] == multiset(logged)[e] + multiset(lost)[e] + owed[e];
      assert (owed + multiset(dr))[e] == (owed' + multiset(dl + dx))[e];
    }
  }

  /** What step `j` adds to what was owed is what it logs, loses, or leaves owed. */
  ghost predicate Balanced(r: Run, j: nat, row: (World, Step) -> seq<Effect>, logged: (World, Step) -> seq<Effect>,
                           lost: (World, Step) -> seq<Effect>, owed: World -> multiset<Effect>)
    requires j < |r.steps| < |r.worlds|
  {
    owed(r.worlds[j]) + multiset(row(r.worlds[j], r.steps[j])) ==
      owed(r.worlds[j + 1]) + multiset(logged(r.worlds[j], r.steps[j]) + lost(r.worlds[j], r.steps[j]))
  }

  /** Where every step balances, so does the whole run. */
  lemma {:induction false} StoriesBalance(r: Run, i: nat, row: (World, Step) -> seq<Effect>,
                                          logged: (World, Step) -> seq<Effect>,
                                          lost: (World, Step) -> seq<Effect>, owed: World -> multiset<Effect>)
    requires i <= |r.steps| < |r.worlds| && owed(r.worlds[0]) == multiset{}
    requires forall j :: 0 <= j < i ==> Balanced(r, j, row, logged, lost, owed)
    ensures Accounted(Story(r, i, row), Story(r, i, logged), Story(r, i, lost), owed(r.worlds[i]))
  {
    if i > 0 {
      StoriesBalance(r, i - 1, row, logged, lost, owed);
      var w, s := r.worlds[i - 1], r.steps[i - 1];
      assert Balanced(r, i - 1, row, logged, lost, owed);
      Balance(Story(r, i - 1, row), Story(r, i - 1, logged), Story(r, i - 1, lost), owed(w),
              row(w, s), logged(w, s), lost(w, s), owed(r.worlds[i]));
    }
  }

  ghost function Owes(p: string): World -> multiset<Effect> {
    (w: World) => Owed(w, p)
  }

  lemma StepBalances(r: Run, j: nat, p: string)
    requires Valid(r) && j < |r.steps|
    ensures Balanced(r, j, RowEffects(p), LogEffects(p), LostEffects(p), Owes(p))
  {
    StepBack(r, j + 1);
    OwedStep(r.worlds[j], r.steps[j], r.worlds[j + 1], p);
  }

  /**
   No write is forgotten: in any schedule the writes to a row are, as a multiset,
   the ones logged, the bindings lost to a meeting that does not exist, and the
   ones some call still owes.
   */
  lemma WritesAccounted(r: Run, i: nat, p: string)
    requires Valid(r) && i < |r.worlds|
    ensures Accounted(RowStory(r, i, p), LogStory(r, i, p), LostStory(r, i, p), Owed(r.worlds[i], p))
  {
    QuietOwesNothing(r.worlds[0], p);
    forall j | 0 <= j < i
      ensures Balanced(r, j, RowEffects(p), LogEffects(p), LostEffects(p), Owes(p))
    {
      StepBalances(r, j, p);
    }
    StoriesBalance(r, i, RowEffects(p), LogEffects(p), LostEffects(p), Owes(p));
  }

  // ---- Tokens that name existing meetings ----

  /** Every token issued in the run names a meeting that exists when it is issued. */
  ghost predicate TokensNameMeetings(r: Run)
    requires Valid(r)
  {
    forall i :: 0 <= i < |r.steps| && r.steps[i].IssuesToken? ==> r.steps[i].meetingId in r.worlds[i].hub.meetings
  }

  /** Every stored token, and every call that holds one, is for a meeting that exists. */
  ghost predicate MeetingsFound(w: World) {
    && (forall t :: t in w.hub.tokens ==> w.hub.tokens[t].value.meetingId in w.hub.meetings)
    && (forall k :: k in w.binds && !w.binds[k].pc.BindFinished? ==> w.binds[k].q.meetingId in w.hub.meetings)
  }

  lemma MeetingsFoundStep(w: World, s: Step)
    requires Inv(w) && Enabled(w, s) && MeetingsFound(w)
    requires s.IssuesToken? ==> s.meetingId in w.hub.meetings
    ensures MeetingsFound(Next(w, s))
  {
    HubStep(w, s);
    forall t | t in HubAfter(w, s).tokens
      ensures HubAfter(w, s).tokens[t].value.meetingId in HubAfter(w, s).meetings
    {
      TokensStep(w, s, t);
    }
    forall k | k in BindsAfter(w, s) && !BindsAfter(w, s)[k].pc.BindFinished?
      ensures BindsAfter(w, s)[k].q.meetingId in w.hub.meetings
    {
      BindFound(w, s, k);
    }
  }

  lemma BindFound(w: World, s: Step, k: nat)
    requires Enabled(w, s) && MeetingsFound(w) && k in BindsAfter(w, s) && !BindsAfter(w, s)[k].pc.BindFinished?
    ensures BindsAfter(w, s)[k].q.meetingId in w.hub.meetings
  {
  }

  lemma {:induction false} NothingLost(r: Run, i: nat, p: string)
    requires Valid(r) && TokensNameMeetings(r) && i < |r.worlds|
    ensures MeetingsFound(r.worlds[i]) && LostStory(r, i, p) == []
  {
    if i > 0 {
      NothingLost(r, i - 1, p);
      StepBack(r, i);
      MeetingsFoundStep(r.worlds[i - 1], r.steps[i - 1]);
    }
  }

  /** So once the calls about a participant are over, log and table tell the same writes, if not in the same order. */
  lemma SameWrites(r: Run, i: nat, p: string)
    requires Valid(r) && TokensNameMeetings(r) && i < |r.worlds| && Quiet(r.worlds[i], p)
    ensures multiset(RowStory(r, i, p)) == multiset(LogStory(r, i, p))
  {
    WritesAccounted(r, i, p);
    NothingLost(r, i, p);
    QuietOwesNothing(r.worlds[i], p);
  }

  // ---- Schedules in which the order is kept too ----

  /** No step writes the row of `p` while a call stands between its own write and its own log. */
  ghost predicate Tidy(r: Run, i: int, p: string) {
    forall j :: 0 <= j < i && j < |r.steps| && j < |r.worlds| && RowEffect(r.worlds[j], r.steps[j], p) != [] ==>
      Quiet(r.worlds[j], p)
  }

  /** At most one write is owed, and it is the last one made. */
  ghost predicate Ordered(owed: multiset<Effect>, row: seq<Effect>, logged: seq<Effect>) {
    (owed == multiset{} && row == logged) || (exists e :: owed == multiset{e} && row == logged + [e])
  }

  lemma OrderedStep(owed: multiset<Effect>, owed': multiset<Effect>, row: seq<Effect>, logged: seq<Effect>,
                    dr: seq<Effect>, dl: seq<Effect>)
    requires Ordered(owed, row, logged) && owed + multiset(dr) == owed' + multiset(dl)
    requires |dr| <= 1 && |dl| <= 1 && (dr != [] ==> owed == multiset{})
    ensures Ordered(owed', row + dr, logged + dl)
  {
    assert |dr| == 1 ==> dr == [dr[0]];
    assert |dl| == 1 ==> dl == [dl[0]];
    if dr == [] {
      assert row + dr == row && multiset(dr) == multiset{};
    }
    if dl == [] {
      assert logged + dl == logged && multiset(dl) == multiset{};
      assert owed' + multiset(dl) == owed';
    } else {
      OneLess(owed + multiset(dr), owed', dl[0]);
    }
  }

  /** What is left when one of at most one is taken. */
  lemma OneLess(before: multiset<Effect>, after: multiset<Effect>, e: Effect)
    requires before == after + multiset{e} && |before| <= 1
    ensures before == multiset{e} && after == multiset{}
  {
    assert |before| == |after| + 1;
  }

  /** Step `j` does at most one thing of a kind, loses nothing, and writes only where nothing is owed. */
  ghost predicate Careful(r: Run, j: nat, row: (World, Step) -> seq<Effect>, logged: (World, Step) -> seq<Effect>,
                          lost: (World, Step) -> seq<Effect>, owed: World -> multiset<Effect>)
    requires j < |r.steps| < |r.worlds|
  {
    && Balanced(r, j, row, logged, lost, owed)
    && |row(r.worlds[j], r.steps[j])| <= 1 && |logged(r.worlds[j], r.steps[j])| <= 1
    && lost(r.worlds[j], r.steps[j]) == []
    && (row(r.worlds[j], r.steps[j]) != [] ==> owed(r.worlds[j]) == multiset{})
  }

  /** Where every step is careful, the log lags by at most one write. */
  lemma {:induction false} StoriesOrdered(r: Run, i: nat, row: (World, Step) -> seq<Effect>,
                                          logged: (World, Step) -> seq<Effect>,
                                          lost: (World, Step) -> seq<Effect>, owed: World -> multiset<Effect>)
    requires i <= |r.steps| < |r.worlds| && owed(r.worlds[0]) == multiset{}
    requires forall j :: 0 <= j < i ==> Careful(r, j, row, logged, lost, owed)
    ensures Ordered(owed(r.worlds[i]), Story(r, i, row), Story(r, i, logged))
  {
    if i > 0 {
      StoriesOrdered(r, i - 1, row, logged, lost, owed);
      var w, s := r.worlds[i - 1], r.steps[i - 1];
      assert Careful(r, i - 1, row, logged, lost, owed);
      assert logged(w, s) + lost(w, s) == logged(w, s);
      OrderedStep(owed(w), owed(r.worlds[i]), Story(r, i - 1, row), Story(r, i - 1, logged), row(w, s), logged(w, s));
    }
  }

  lemma {:induction false} NoneInStory(r: Run, i: nat, e: (World, Step) -> seq<Effect>, j: nat)
    requires j < i <= |r.steps| < |r.worlds| && Story(r, i, e) == []
    ensures e(r.worlds[j], r.steps[j]) == []
  {
    if j < i - 1 {
      NoneInStory(r, i - 1, e, j);
    }
  }

  lemma AtMostOne(w: World, s: Step, p: string)
    ensures |RowEffect(w, s, p)| <= 1 && |LogEffect(w, s, p)| <= 1
  {
  }

  lemma TidyStep(r: Run, i: nat, j: nat, p: string)
    requires Valid(r) && j < i < |r.worlds| && Tidy(r, i, p) && LostStory(r, i, p) == []
    ensures Careful(r, j, RowEffects(p), LogEffects(p), LostEffects(p), Owes(p))
  {
    StepBalances(r, j, p);
    NoneInStory(r, i, LostEffects(p), j);
    var w, s := r.worlds[j], r.steps[j];
    AtMostOne(w, s, p);
    assert RowEffects(p)(w, s) == RowEffect(w, s, p) && LogEffects(p)(w, s) == LogEffect(w, s, p);
    if RowEffect(w, s, p) != [] {
      QuietOwesNothing(w, p);
      assert Owes(p)(w) == multiset{};
    }
  }

  lemma TidyIsOrdered(r: Run, i: nat, p: string)
    requires Valid(r) && i < |r.worlds| && Tidy(r, i, p) && LostStory(r, i, p) == []
    ensures Ordered(Owed(r.worlds[i], p), RowStory(r, i, p), LogStory(r, i, p))
  {
    QuietOwesNothing(r.worlds[0], p);
    forall j | 0 <= j < i
      ensures Careful(r, j, RowEffects(p), LogEffects(p), LostEffects(p), Owes(p))
    {
      TidyStep(r, i, j, p);
    }
    StoriesOrdered(r, i, RowEffects(p), LogEffects(p), LostEffects(p), Owes(p));
  }

  /**
   If no step writes the row of `p` while another call stands between its write
   and its log, and tokens name existing meetings, then the log tells the status
   and the device of `p` at every moment at which no call stands there, with any
   number of calls about other participants, or about `p` elsewhere, under way.
   */
  lemma TidyReplay(r: Run, i: nat, p: string)
    requires Valid(r) && TokensNameMeetings(r) && i < |r.worlds| && Tidy(r, i, p) && Quiet(r.worlds[i], p)
    ensures Replayed(r.worlds[i].hub.audit, p) == Shown(r.worlds[i].hub, p)
  {
    NothingLost(r, i, p);
    TidyIsOrdered(r, i, p);
    QuietOwesNothing(r.worlds[i], p);
    RowTells(r, i, p);
    LogTells(r, i, p);
  }
}
