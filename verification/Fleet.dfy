/**
 What holds of the keys, the device ids and the verdicts of running agents,
 through any starts and stops, and whatever anybody else enrols.
 */
module Fleet {
  import opened Prelude
  import opened Framing
  import opened Crypto
  import opened Entities
  import opened ChallengeService
  import opened AgentSigning
  import opened HubLaws
  import opened Verdicts
  import opened KeyService
  import opened EnrollmentService
  import opened Processes

  // ---- Key agreement ----

  ghost predicate Running(r: Run, i: nat, p: nat) {
    i < |r.fleets| && p in r.fleets[i].processes && r.fleets[i].processes[p].stage.Enrolled?
  }

  function IdOf(q: Process): string {
    q.deviceId.GetOr("")
  }

  /** The hub checks the signatures of process `p` with the key `p` signs with. */
  ghost predicate Agreed(r: Run, i: nat, p: nat)
    requires Running(r, i, p)
  {
    var q := r.fleets[i].processes[p];
    HubKey(r.fleets[i].site.hub, IdOf(q)) == Some(Pub(q.loaded.key))
  }

  /** Step `e` is the hub taking the enrolment of process `p` as it now is. */
  ghost predicate EnrolsAt(r: Run, e: int, p: nat, q: Process) {
    && 0 <= e < |r.steps| < |r.fleets|
    && r.steps[e] == Arrives(p)
    && q.deviceId.Some? && KeyWritten(r.fleets[e], r.steps[e], q.deviceId.value) == Some(Pub(q.loaded.key))
  }

  predicate Accepted(q: Process) {
    q.stage.Enrolled? || (q.stage.Replied? && q.stage.ok)
  }

  /** A process the hub has accepted was accepted before the step, or the step is the hub taking its request. */
  lemma AcceptedStep(f: Fleet, s: Step, p: nat)
    requires Inv(f) && Enabled(f, s) && p in Next(f, s).processes && Accepted(Next(f, s).processes[p])
    ensures p in f.processes
    ensures var (q, q') := (f.processes[p], Next(f, s).processes[p]);
      && q'.deviceId == q.deviceId && q'.loaded == q.loaded && q.deviceId.Some?
      && (if s == Arrives(p) then KeyWritten(f, s, q.deviceId.value) == Some(Pub(q.loaded.key)) else Accepted(q))
  {
  }

  lemma {:induction false} EnrolledBefore(r: Run, i: nat, p: nat)
    requires Valid(r) && i < |r.fleets| && p in r.fleets[i].processes && Accepted(r.fleets[i].processes[p])
    ensures exists e :: e < i && EnrolsAt(r, e, p, r.fleets[i].processes[p])
  {
    if i > 0 {
      StepBack(r, i);
      AcceptedStep(r.fleets[i - 1], r.steps[i - 1], p);
      if r.steps[i - 1] == Arrives(p) {
        assert EnrolsAt(r, i - 1, p, r.fleets[i].processes[p]);
      } else {
        EnrolledBefore(r, i - 1, p);
        var e :| e < i - 1 && EnrolsAt(r, e, p, r.fleets[i - 1].processes[p]);
        assert EnrolsAt(r, e, p, r.fleets[i].processes[p]);
      }
    }
  }

  /**
   Key agreement, whoever enrols what: the hub holds the key a running process
   signs with exactly when the last enrolment that rewrote its device's row
   carried that key, and one that did is the process's own.
   */
  lemma KeyAgreement(r: Run, i: nat, p: nat)
    requires Valid(r) && Running(r, i, p)
    ensures var q := r.fleets[i].processes[p];
      && (exists e :: e < i && EnrolsAt(r, e, p, q))
      && (Agreed(r, i, p) <==> LastKey(r, i, IdOf(q)) == Some(Pub(q.loaded.key)))
  {
    EnrolledBefore(r, i, p);
    HubHoldsLast(r, i, IdOf(r.fleets[i].processes[p]));
  }

  /** Since process `p` enrolled, nobody has rewritten its device's row with another key. */
  ghost predicate Undisputed(r: Run, i: nat, p: nat)
    requires Running(r, i, p)
  {
    var q := r.fleets[i].processes[p];
    forall e, j :: EnrolsAt(r, e, p, q) && e < j < i && j < |r.steps| ==>
      KeyWritten(r.fleets[j], r.steps[j], IdOf(q)) in {None, Some(Pub(q.loaded.key))}
  }

  lemma {:induction false} LastKeyStays(r: Run, e: int, i: nat, d: string, key: PublicKey)
    requires |r.steps| < |r.fleets| && 0 <= e < i <= |r.steps| && KeyWritten(r.fleets[e], r.steps[e], d) == Some(key)
    requires forall j :: e < j < i ==> KeyWritten(r.fleets[j], r.steps[j], d) in {None, Some(key)}
    ensures LastKey(r, i, d) == Some(key)
  {
    if e < i - 1 {
      LastKeyStays(r, e, i - 1, d, key);
    }
  }

  /** So an undisputed process is agreed with, through any restarts and losses of anybody else. */
  lemma UndisputedAgrees(r: Run, i: nat, p: nat)
    requires Valid(r) && Running(r, i, p) && Undisputed(r, i, p)
    ensures Agreed(r, i, p)
  {
    KeyAgreement(r, i, p);
    var q := r.fleets[i].processes[p];
    var e :| e < i && EnrolsAt(r, e, p, q);
    LastKeyStays(r, e, i, IdOf(q), Pub(q.loaded.key));
  }

  function Last(r: Run): Fleet
    requires |r.fleets| > 0
  {
    r.fleets[|r.fleets| - 1]
  }

  ghost function Then(r: Run, s: Step): Run
    requires Valid(r) && Enabled(Last(r), s)
  {
    Run(r.fleets + [Next(Last(r), s)], r.steps + [s])
  }

  lemma ThenValid(r: Run, s: Step)
    requires Valid(r) && Enabled(Last(r), s)
    ensures Valid(Then(r, s)) && Last(Then(r, s)) == Next(Last(r), s)
  {
    var r' := Then(r, s);
    forall i | 0 <= i < |r'.steps|
      ensures StepAt(r', i)
    {
      assert i < |r.steps| ==> StepAt(r, i);
    }
  }

  /**
   Any enrolment that reaches the hub under the device id of a running process,
   be it a stranger's, a second copy's or a late one, decides the agreement
   afresh: it holds after it exactly when the request carries the same key.
   */
  lemma NextEnrolmentDecides(r: Run, s: Step, p: nat)
    requires Valid(r) && Running(r, |r.steps|, p) && Enabled(Last(r), s)
    requires var dto := EnrolmentOf(Last(r), s); dto.Some? && dto.value.deviceId == IdOf(Last(r).processes[p])
    ensures Valid(Then(r, s)) && Running(Then(r, s), |r.steps| + 1, p)
    ensures Agreed(Then(r, s), |r.steps| + 1, p) <==>
      EnrolmentOf(Last(r), s).value.publicKey == Pub(Last(r).processes[p].loaded.key)
  {
    ThenValid(r, s);
    var d := IdOf(Last(r).processes[p]);
    Reachable(r, |r.steps|);
    KeyAgreement(r, |r.steps|, p);
    EnrolledRow(r, |r.steps|, p);
    KeyStep(Last(r), s, d);
  }

  lemma {:induction false} LastKeyKnown(r: Run, e: int, i: nat, d: string)
    requires |r.steps| < |r.fleets| && 0 <= e < i <= |r.steps| && KeyWritten(r.fleets[e], r.steps[e], d).Some?
    ensures LastKey(r, i, d).Some?
  {
    if e < i - 1 {
      LastKeyKnown(r, e, i - 1, d);
    }
  }

  /** A running process has a row at the hub. */
  lemma EnrolledRow(r: Run, i: nat, p: nat)
    requires Valid(r) && Running(r, i, p)
    ensures IdOf(r.fleets[i].processes[p]) in r.fleets[i].site.hub.devices
  {
    var q := r.fleets[i].processes[p];
    EnrolledBefore(r, i, p);
    var e :| e < i && EnrolsAt(r, e, p, q);
    LastKeyKnown(r, e, i, IdOf(q));
    HubHoldsLast(r, i, IdOf(q));
  }

  // ---- Keys across starts ----

  ghost predicate Initialises(s: Step) {
    s.Starts? || s.Prepares?
  }

  function PlatformOf(s: Step): Platform
    requires s.Starts? || s.Prepares?
  {
    if s.Starts? then s.platform else s.attempt.platform
  }

  /** The installation whose key store the step reads. */
  function HomeOf(f: Fleet, s: Step): nat
    requires s.Starts? || s.Prepares?
  {
    if s.Starts? then s.home else if s.process in f.processes then f.processes[s.process].home else 0
  }

  /**
   Every initialisation, at a start or at an enrolment: the process goes on with
   a key that existed before exactly when the platform opens a stored one, with
   the TPM's if it opens that, and otherwise with one that no process ever had.
   */
  lemma KeyRemadeIff(r: Run, j: nat)
    requires Valid(r) && j < |r.steps| && Initialises(r.steps[j])
    ensures var (f, s) := (r.fleets[j], r.steps[j]);
      && HomeOf(f, s) in f.disks && s.process in r.fleets[j + 1].processes
      && var store := f.disks[HomeOf(f, s)].keys; var key := r.fleets[j + 1].processes[s.process].loaded.key;
         && (key in f.keysMade <==> Existing(store, PlatformOf(s)).Some?)
         && (store.tpm.Some? && PlatformOf(s).tpmOpens ==> key == store.tpm.value)
         && (Existing(store, PlatformOf(s)).None? ==>
              forall i, p :: 0 <= i <= j && p in r.fleets[i].processes ==> r.fleets[i].processes[p].loaded.key != key)
  {
    StepBack(r, j + 1);
    var (f, s) := (r.fleets[j], r.steps[j]);
    var key := r.fleets[j + 1].processes[s.process].loaded.key;
    assert DiskKeysMade(f.disks[HomeOf(f, s)], f.keysMade);
    forall i, p | 0 <= i <= j && p in r.fleets[i].processes && r.fleets[i].processes[p].loaded.key == key
      ensures key in f.keysMade
    {
      Reachable(r, i);
      KeysForever(r, i, j, key);
    }
  }

  lemma {:induction false} KeysForever(r: Run, i: nat, j: nat, key: Key)
    requires Valid(r) && i <= j < |r.fleets| && key in r.fleets[i].keysMade
    ensures key in r.fleets[j].keysMade
    decreases j
  {
    if i < j {
      KeysForever(r, i, j - 1, key);
      StepBack(r, j);
    }
  }

  /** A TPM key, once made, stays the key under that name. */
  lemma {:induction false} TpmKeyKept(r: Run, i: nat, j: nat, a: nat)
    requires Valid(r) && i <= j < |r.fleets| && a in r.fleets[i].disks && r.fleets[i].disks[a].keys.tpm.Some?
    ensures a in r.fleets[j].disks && r.fleets[j].disks[a].keys.tpm == r.fleets[i].disks[a].keys.tpm
    decreases j
  {
    if i < j {
      TpmKeyKept(r, i, j - 1, a);
      StepBack(r, j);
    }
  }

  /** Installation `a` holds no named software key and its TPM always works. */
  ghost predicate TpmWorks(r: Run, a: nat)
    requires Valid(r)
  {
    && (a in r.fleets[0].disks ==> r.fleets[0].disks[a].keys.named.None?)
    && forall j :: 0 <= j < |r.steps| && Initialises(r.steps[j]) && HomeOf(r.fleets[j], r.steps[j]) == a ==>
         PlatformOf(r.steps[j]).tpmOpens && PlatformOf(r.steps[j]).tpmCreates
  }

  /** Then every process of the installation signs with the one key in the TPM. */
  ghost predicate OneTpmKey(f: Fleet, a: nat) {
    && (a in f.disks ==> f.disks[a].keys.named.None?)
    && forall p :: p in f.processes && f.processes[p].home == a ==>
         a in f.disks && f.disks[a].keys.tpm == Some(f.processes[p].loaded.key)
  }

  lemma {:induction false} TpmShared(r: Run, i: nat, a: nat)
    requires Valid(r) && TpmWorks(r, a) && i < |r.fleets|
    ensures OneTpmKey(r.fleets[i], a)
  {
    if i > 0 {
      TpmShared(r, i - 1, a);
      StepBack(r, i);
      TpmSharedStep(r.fleets[i - 1], r.steps[i - 1], a);
    }
  }

  lemma TpmSharedStep(f: Fleet, s: Step, a: nat)
    requires Enabled(f, s) && OneTpmKey(f, a)
    requires Initialises(s) && HomeOf(f, s) == a ==> PlatformOf(s).tpmOpens && PlatformOf(s).tpmCreates
    ensures OneTpmKey(Next(f, s), a)
  {
  }

  /** Nobody but the installations' own processes enrols device id `d`. */
  ghost predicate NoStranger(r: Run, d: string)
    requires Valid(r)
  {
    forall j :: 0 <= j < |r.steps| && r.steps[j].Elsewhere? && r.steps[j].call.DoEnroll? ==>
      r.steps[j].call.dto.deviceId != d
  }

  /** Once a process has an id, its installation, id and key are fixed. */
  lemma {:induction false} ProcessKept(r: Run, i: nat, j: nat, p: nat)
    requires Valid(r) && i <= j < |r.fleets| && p in r.fleets[i].processes && r.fleets[i].processes[p].deviceId.Some?
    ensures p in r.fleets[j].processes
    ensures var (q, q') := (r.fleets[i].processes[p], r.fleets[j].processes[p]);
      q'.home == q.home && q'.deviceId == q.deviceId && q'.loaded == q.loaded
    decreases j
  {
    if i < j {
      ProcessKept(r, i, j - 1, p);
      StepBack(r, j);
    }
  }

  lemma TpmKeyWritten(r: Run, i: nat, j: nat, p: nat)
    requires Valid(r) && j < i < |r.fleets| && Running(r, i, p)
    requires TpmWorks(r, r.fleets[i].processes[p].home) && NoStranger(r, IdOf(r.fleets[i].processes[p]))
    ensures var q := r.fleets[i].processes[p];
      KeyWritten(r.fleets[j], r.steps[j], IdOf(q)) in {None, Some(Pub(q.loaded.key))}
  {
    var q := r.fleets[i].processes[p];
    var dto := EnrolmentOf(r.fleets[j], r.steps[j]);
    if dto.Some? && dto.value.deviceId == IdOf(q) {
      var other := r.steps[j].process;
      Reachable(r, j);
      Reachable(r, i);
      ProcessKept(r, j, i, other);
      assert UsesId(r.fleets[i], r.fleets[i].processes[other].home, IdOf(q)) && UsesId(r.fleets[i], q.home, IdOf(q));
      TpmShared(r, i, q.home);
    }
  }

  /**
   With a working TPM and no stranger at its device id, every running process is
   agreed with, however many copies of it run and whenever their requests arrive.
   */
  lemma TpmAgrees(r: Run, i: nat, p: nat)
    requires Valid(r) && Running(r, i, p)
    requires TpmWorks(r, r.fleets[i].processes[p].home) && NoStranger(r, IdOf(r.fleets[i].processes[p]))
    ensures Agreed(r, i, p)
  {
    forall e, j | EnrolsAt(r, e, p, r.fleets[i].processes[p]) && e < j < i && j < |r.steps|
      ensures KeyWritten(r.fleets[j], r.steps[j], IdOf(r.fleets[i].processes[p])) in
        {None, Some(Pub(r.fleets[i].processes[p].loaded.key))}
    {
      TpmKeyWritten(r, i, j, p);
    }
    UndisputedAgrees(r, i, p);
  }

  // ---- Device ids across starts ----

  predicate Live(q: Process) {
    q.stage.Waiting? || q.stage.Replied? || q.stage.Enrolled?
  }

  ghost predicate FileHolds(f: Fleet, a: nat, d: string) {
    a in f.disks && f.disks[a].config.Some? && f.disks[a].config.value.deviceId == d
  }

  /** The file of installation `a` holds `d`, and no process of it goes by another id. */
  ghost predicate OneId(f: Fleet, a: nat, d: string) {
    && FileHolds(f, a, d)
    && forall p :: p in f.processes && f.processes[p].home == a && Live(f.processes[p]) ==>
         f.processes[p].deviceId == Some(d)
  }

  /** From then on the installation has that device id for ever, through any further processes. */
  lemma {:induction false} DeviceIdStable(r: Run, i: nat, j: nat, a: nat, d: string)
    requires Valid(r) && i <= j < |r.fleets| && OneId(r.fleets[i], a, d)
    ensures OneId(r.fleets[j], a, d)
    decreases j
  {
    if i < j {
      DeviceIdStable(r, i, j - 1, a, d);
      StepBack(r, j);
    }
  }

  /** The process is on its way to a success under another id than `d`. */
  predicate Threatens(f: Fleet, q: Process, d: string) {
    && q.deviceId != Some(d)
    && ((q.stage.Replied? && q.stage.ok) || (q.stage.Waiting? && q.stage.request.tenantId in f.site.hub.tenants))
  }

  ghost predicate Unthreatened(f: Fleet, a: nat, d: string) {
    forall o :: o in f.processes && f.processes[o].home == a ==> !Threatens(f, f.processes[o], d)
  }

  ghost predicate Continues(r: Run, r': Run) {
    Valid(r') && r.fleets <= r'.fleets && r.steps <= r'.steps
  }

  /** Whatever happens from the end of `r` on, the file of installation `a` keeps device id `d`. */
  ghost predicate AlwaysHolds(r: Run, a: nat, d: string) {
    forall r', i :: Continues(r, r') && |r.steps| <= i < |r'.fleets| ==> FileHolds(r'.fleets[i], a, d)
  }

  lemma TenantsKept(f: Fleet, s: Step)
    requires Inv(f) && Enabled(f, s)
    ensures Next(f, s).site.hub.tenants == f.site.hub.tenants
  {
    if s.Elsewhere? {
      S.HubStep(f.site, s.call);
    }
  }

  lemma UnthreatenedStep(f: Fleet, s: Step, a: nat, d: string)
    requires Inv(f) && Enabled(f, s) && FileHolds(f, a, d) && Unthreatened(f, a, d)
    ensures FileHolds(Next(f, s), a, d) && Unthreatened(Next(f, s), a, d)
  {
    TenantsKept(f, s);
    var f' := Next(f, s);
    forall o | o in f'.processes && f'.processes[o].home == a
      ensures !Threatens(f', f'.processes[o], d)
    {
      assert o in f.processes ==> f'.processes[o].home == f.processes[o].home;
    }
  }

  lemma {:induction false} HeldThroughout(r: Run, i: nat, j: nat, a: nat, d: string)
    requires Valid(r) && i <= j < |r.fleets| && FileHolds(r.fleets[i], a, d) && Unthreatened(r.fleets[i], a, d)
    ensures FileHolds(r.fleets[j], a, d) && Unthreatened(r.fleets[j], a, d)
    decreases j
  {
    if i < j {
      HeldThroughout(r, i, j - 1, a, d);
      StepBack(r, j);
      UnthreatenedStep(r.fleets[j - 1], r.steps[j - 1], a, d);
    }
  }

  /** A waiting process is answered with success. */
  lemma Enrols(r: Run, p: nat) returns (r': Run)
    requires Valid(r) && p in Last(r).processes && Last(r).processes[p].stage.Waiting?
    requires Last(r).processes[p].stage.request.tenantId in Last(r).site.hub.tenants
    ensures Continues(r, r')
    ensures p in Last(r').processes && Last(r').processes == Last(r).processes[p := Last(r').processes[p]]
    ensures Last(r').processes[p] == Last(r).processes[p].(stage := Enrolled) && Last(r').processes[p].deviceId.Some?
    ensures FileHolds(Last(r'), Last(r).processes[p].home, IdOf(Last(r).processes[p]))
    ensures Last(r').site.hub.tenants == Last(r).site.hub.tenants
  {
    Reachable(r, |r.steps|);
    ThenValid(r, Arrives(p));
    var r1 := Then(r, Arrives(p));
    ThenValid(r1, Learns(p));
    r' := Then(r1, Learns(p));
  }

  /** A process that can still succeed does, if it is let. */
  lemma Overwrites(r: Run, o: nat, d: string) returns (r': Run)
    requires Valid(r) && o in Last(r).processes && Threatens(Last(r), Last(r).processes[o], d)
    ensures Continues(r, r') && !FileHolds(Last(r'), Last(r).processes[o].home, d)
  {
    Reachable(r, |r.steps|);
    if Last(r).processes[o].stage.Waiting? {
      r' := Enrols(r, o);
    } else {
      ThenValid(r, Learns(o));
      r' := Then(r, Learns(o));
    }
  }

  /**
   Over all continuations: an installation's file keeps the device id it holds
   exactly when no process of it is on its way to a success under another one. A
   process already running under another id, or not yet prepared, does no harm.
   */
  lemma FileKeptIff(r: Run, a: nat, d: string)
    requires Valid(r) && FileHolds(Last(r), a, d)
    ensures AlwaysHolds(r, a, d) <==> Unthreatened(Last(r), a, d)
  {
    if Unthreatened(Last(r), a, d) {
      forall r', i | Continues(r, r') && |r.steps| <= i < |r'.fleets|
        ensures FileHolds(r'.fleets[i], a, d)
      {
        assert r'.fleets[|r.steps|] == Last(r);
        HeldThroughout(r', |r.steps|, i, a, d);
      }
    } else {
      var o :| o in Last(r).processes && Last(r).processes[o].home == a && Threatens(Last(r), Last(r).processes[o], d);
      var r' := Overwrites(r, o, d);
      assert r'.fleets[|r'.fleets| - 1] == Last(r');
    }
  }

  /** So a success settles the id for ever exactly when no other process of the installation can still succeed. */
  lemma FirstSuccessFixes(r: Run, p: nat)
    requires Valid(r) && Enabled(Last(r), Learns(p)) && Last(r).processes[p].stage.ok
    ensures Valid(Then(r, Learns(p)))
    ensures var (f, q) := (Last(r), Last(r).processes[p]);
      AlwaysHolds(Then(r, Learns(p)), q.home, IdOf(q)) <==>
        forall o :: o in f.processes && o != p && f.processes[o].home == q.home ==>
          !Threatens(f, f.processes[o], IdOf(q))
  {
    var (f, q) := (Last(r), Last(r).processes[p]);
    ThenValid(r, Learns(p));
    var r' := Then(r, Learns(p));
    FileKeptIff(r', q.home, IdOf(q));
    forall o | o in f.processes && o != p
      ensures Last(r').processes[o] == f.processes[o]
    {
    }
  }

  // ---- Two copies ----

  /** Both are running, under different ids; the file held the first one's at the moment `m` and holds the second's. */
  ghost predicate Rivals(r: Run, m: nat, p: nat, q: nat) {
    && Valid(r) && m < |r.fleets| && p in Last(r).processes && q in Last(r).processes
    && var (first, second) := (Last(r).processes[p], Last(r).processes[q]);
       && first.stage.Enrolled? && second.stage.Enrolled? && first.home == second.home
       && IdOf(first) != IdOf(second)
       && FileHolds(r.fleets[m], first.home, IdOf(first)) && FileHolds(Last(r), first.home, IdOf(second))
  }

  lemma PreparesBoth(r: Run, p: nat, q: nat, t: Attempt, u: Attempt) returns (r': Run)
    requires Valid(r) && p != q && Enabled(Last(r), Prepares(p, t)) && Enabled(Last(r), Prepares(q, u))
    requires Last(r).processes[p].home == Last(r).processes[q].home && t.guid != u.guid && t.drawn != u.drawn
    requires Last(r).disks[Last(r).processes[p].home].config == None
    ensures Continues(r, r') && p in Last(r').processes && q in Last(r').processes
    ensures Last(r').processes[p].home == Last(r').processes[q].home == Last(r).processes[p].home
    ensures Last(r').processes[p].deviceId == Some(t.guid) && Last(r').processes[q].deviceId == Some(u.guid)
    ensures Last(r').processes[p].stage.Waiting? && Last(r').processes[p].stage.request.tenantId == t.tenantId
    ensures Last(r').processes[q].stage.Waiting? && Last(r').processes[q].stage.request.tenantId == u.tenantId
    ensures Last(r').site == Last(r).site
  {
    ThenValid(r, Prepares(p, t));
    var r1 := Then(r, Prepares(p, t));
    ThenValid(r1, Prepares(q, u));
    r' := Then(r1, Prepares(q, u));
  }

  /**
   Two copies started before the first success can both succeed: from any state
   with two processes of an installation that has no file yet, a run goes on to
   one where both are enrolled under different ids and the second has overwritten
   the file.
   */
  lemma RivalCopies(r: Run, p: nat, q: nat, t: Attempt, u: Attempt)
    requires Valid(r) && p != q && Enabled(Last(r), Prepares(p, t)) && Enabled(Last(r), Prepares(q, u))
    requires Last(r).processes[p].home == Last(r).processes[q].home && t.guid != u.guid && t.drawn != u.drawn
    requires Last(r).disks[Last(r).processes[p].home].config == None
    requires t.tenantId in Last(r).site.hub.tenants && u.tenantId in Last(r).site.hub.tenants
    ensures exists r', m :: Continues(r, r') && Rivals(r', m, p, q)
  {
    var r1 := PreparesBoth(r, p, q, t, u);
    var r2 := Enrols(r1, p);
    var r3 := Enrols(r2, q);
    assert r3.fleets[|r2.steps|] == Last(r2);
    assert Rivals(r3, |r2.steps|, p, q);
  }

  const BARE: Platform := Platform(false, false, false)
  const NEW_MACHINE: Fleet :=
    Fleet(S.Site(0, Hub({"T"}, map[], map[], map[], map[], map[], [], []), {}),
          map[0 := Disk(KeyStore(None, None), None)], map[], {}, {})

  lemma BothStarted() returns (r: Run)
    ensures Valid(r) && Last(r).disks == NEW_MACHINE.disks && Last(r).site == NEW_MACHINE.site
    ensures Last(r).idsMade == {} && Last(r).keysMade == {1, 2} && Last(r).processes.Keys == {0, 1}
    ensures forall p :: p in {0, 1} ==> Last(r).processes[p].stage.Started? && Last(r).processes[p].home == 0
  {
    r := Run([NEW_MACHINE], []);
    ThenValid(r, Starts(0, 0, BARE, 1));
    r := Then(r, Starts(0, 0, BARE, 1));
    ThenValid(r, Starts(1, 0, BARE, 2));
    r := Then(r, Starts(1, 0, BARE, 2));
  }

  /** And it happens: a new machine, two copies of the program, two device ids. */
  lemma RivalCopiesReachable()
    ensures exists r, m :: Rivals(r, m, 0, 1)
  {
    var r := BothStarted();
    assert "d"[0] != "e"[0];
    RivalCopies(r, 0, 1, Attempt("T", "u", "", "d", BARE, 3), Attempt("T", "u", "", "e", BARE, 4));
  }

  // ---- End to end ----

  function IdentityOf(q: Process): Identity {
    Identity(q.loaded.key, q.tenantId, q.deviceId, q.userId)
  }

  /**
   In any reachable state, the answer of a running enrolled agent to a challenge
   stored for its device has a valid signature exactly when the last enrolment
   that rewrote the device's row carried the agent's key and it runs as the
   meeting's tenant and the participant's user; it is judged VERIFIED exactly
   when also the device is active, the answer in time and the heartbeat fresh,
   STALE exactly when only the heartbeat is not, and else FAILED.
   */
  lemma RunningAgentVerdict(r: Run, i: nat, p: nat, id: string, t: Readings)
    requires Valid(r) && Running(r, i, p)
    requires var h := r.fleets[i].site.hub; var q := r.fleets[i].processes[p];
      && t.got == r.fleets[i].site.now && InOrder(t) && Storage.Live(h.challenges, id, t.got)
      && Some(h.challenges[id].value.deviceId) == q.deviceId
      && AllClean(ChallengeLines(h.challenges[id].value)) && Clean(q.tenantId.GetOr("")) && Clean(q.userId.GetOr(""))
      && Printable(PayloadOf(h.challenges[id].value))
    ensures Whole(r.fleets[i].site.hub, t.got)
    ensures var h := r.fleets[i].site.hub; var q := r.fleets[i].processes[p];
      var c := h.challenges[id].value;
      var device := h.devices[c.deviceId];
      var answer := SignChallenge(IdentityOf(q), PayloadOf(c)).value;
      var own := LastKey(r, i, c.deviceId) == Some(Pub(q.loaded.key))
                 && q.tenantId.GetOr("") == h.meetings[c.meetingId].tenantId
                 && q.userId.GetOr("") == h.participants[c.participantId].userId;
      var outcome := Judge(h, Response(id, c.deviceId, answer), t).1;
      RightVerdict(outcome, own, device.status == Active, t.checked <= c.expiresAt,
                   t.judged - device.lastHeartbeat.value)
  {
    HubHoldsLast(r, i, IdOf(r.fleets[i].processes[p]));
    Reachable(r, i);
    ExactVerdict(r.fleets[i].site.hub, IdentityOf(r.fleets[i].processes[p]), id, t);
  }
}
