/**
 Any number of installations of the agent, any number of processes of each, and
 anybody else, against one hub.
 */
module Processes {
  import opened Prelude
  import opened Crypto
  import opened Entities
  import opened DeviceService
  import opened MeetingService
  import opened ChallengeService
  import opened HubLaws
  import opened IssueLaws
  import opened KeyService
  import opened EnrollmentService
  import S = Sequential

  /** Where a process stands: it enrols once, and goes on only if that succeeds. */
  datatype Stage =
    | Started
    | Waiting(request: EnrollDto)
    | Replied(answered: EnrollDto, ok: bool)
    | Enrolled
    | Gone

  datatype Process = Process(home: nat, loaded: Loaded, deviceId: Option<string>, tenantId: Option<string>,
                             userId: Option<string>, stage: Stage)

  /** `disks` holds what each installation keeps; `keysMade` and `idsMade` what was drawn so far. */
  datatype Fleet = Fleet(site: S.Site, disks: map<nat, Disk>, processes: map<nat, Process>,
                         keysMade: set<Key>, idsMade: set<string>)

  /**
   Enrolling is cut where the agent waits: it prepares its request, the hub
   handles it, the agent learns the answer. A request whose sender has stopped,
   a repeated one, and one made up by anybody, are calls of the hub elsewhere.
   */
  datatype Step =
    | Starts(process: nat, home: nat, platform: Platform, drawn: Key)
    | Prepares(process: nat, attempt: Attempt)
    | Arrives(process: nat)
    | Learns(process: nat)
    | Stops(process: nat)
    | Elsewhere(call: S.Call)

  ghost predicate Enabled(f: Fleet, s: Step) {
    match s
    case Starts(p, a, _, drawn) => p !in f.processes && a in f.disks && drawn !in f.keysMade
    case Prepares(p, t) =>
      && p in f.processes && f.processes[p].stage.Started? && f.processes[p].home in f.disks
      && t.drawn !in f.keysMade && t.guid !in f.idsMade && t.guid !in f.site.hub.devices
    case Arrives(p) => p in f.processes && f.processes[p].stage.Waiting?
    case Learns(p) =>
      p in f.processes && f.processes[p].stage.Replied? && f.processes[p].deviceId.Some?
        && f.processes[p].home in f.disks
    case Stops(p) => p in f.processes
    case Elsewhere(c) => S.Enabled(f.site, c)
  }

  function StartsIn(f: Fleet, p: nat, a: nat, platform: Platform, drawn: Key): Fleet
    requires a in f.disks
  {
    var (keys, loaded) := InitializeKey(f.disks[a].keys, platform, drawn);
    f.(disks := f.disks[a := f.disks[a].(keys := keys)], keysMade := f.keysMade + {drawn},
       processes := f.processes[p := Process(a, loaded, None, None, None, Started)])
  }

  function PreparesIn(f: Fleet, p: nat, t: Attempt): Fleet
    requires p in f.processes && f.processes[p].home in f.disks
  {
    var a := f.processes[p].home;
    var d := f.disks[a];
    var (keys, loaded) := InitializeKey(d.keys, t.platform, t.drawn);
    f.(disks := f.disks[a := d.(keys := keys)], keysMade := f.keysMade + {t.drawn}, idsMade := f.idsMade + {t.guid},
       processes := f.processes[p := Process(a, loaded, Some(DeviceIdFor(d, t)), Some(t.tenantId), Some(t.userId),
                                             Waiting(RequestOf(d, t)))])
  }

  function ArrivesIn(f: Fleet, p: nat): Fleet
    requires p in f.processes && f.processes[p].stage.Waiting?
  {
    var request := f.processes[p].stage.request;
    var (h, answer) := Enroll(f.site.hub, request, f.site.now);
    f.(site := f.site.(hub := h), processes := f.processes[p := f.processes[p].(stage := Replied(request, answer.Ok?))])
  }

  /** The file is written after a success; otherwise the program ends. */
  function LearnsIn(f: Fleet, p: nat): Fleet
    requires p in f.processes && f.processes[p].stage.Replied? && f.processes[p].deviceId.Some?
    requires f.processes[p].home in f.disks
  {
    var q := f.processes[p];
    if q.stage.ok then
      var saved := DeviceConfig(q.deviceId.value, q.tenantId.GetOr(""), q.userId.GetOr(""));
      f.(disks := f.disks[q.home := f.disks[q.home].(config := Some(saved))],
         processes := f.processes[p := q.(stage := Enrolled)])
    else
      f.(processes := f.processes[p := q.(stage := Gone)])
  }

  ghost function Next(f: Fleet, s: Step): Fleet
    requires Enabled(f, s)
  {
    match s
    case Starts(p, a, platform, drawn) => StartsIn(f, p, a, platform, drawn)
    case Prepares(p, t) => PreparesIn(f, p, t)
    case Arrives(p) => ArrivesIn(f, p)
    case Learns(p) => LearnsIn(f, p)
    case Stops(p) => f.(processes := f.processes[p := f.processes[p].(stage := Gone)])
    case Elsewhere(c) => f.(site := S.Next(f.site, c))
  }

  /** The steps of an undisturbed process are one call of `EnrollAsync`, wherever it ends. */
  lemma EnrolStepsCompose(f: Fleet, p: nat, t: Attempt)
    requires Enabled(f, Prepares(p, t))
    ensures var a := f.processes[p].home; var (h, d, now) := (f.site.hub, f.disks[a], f.site.now);
      var f1 := PreparesIn(f, p, t);
      var f2 := ArrivesIn(f1, p);
      var f3 := LearnsIn(f2, p);
      && f1.site.hub == HubHears(h, d, t, NeverSent, now) && f1.disks[a] == DiskAfter(h, d, t, NeverSent, now)
      && f2.site.hub == HubHears(h, d, t, AnswerLost, now) && f2.disks[a] == DiskAfter(h, d, t, AnswerLost, now)
      && f3.site.hub == HubHears(h, d, t, Answered, now) && f3.disks[a] == DiskAfter(h, d, t, Answered, now)
      && (f3.processes[p].stage.Enrolled? <==> Succeeds(h, d, t, Answered, now))
  {
  }

  datatype Run = Run(fleets: seq<Fleet>, steps: seq<Step>)

  /** New installations: no file, no process, an empty hub, and whatever keys the machines hold. */
  ghost predicate Initial(f: Fleet) {
    && S.Initial(f.site) && f.processes == map[]
    && forall a :: a in f.disks ==> f.disks[a].config == None && DiskKeysMade(f.disks[a], f.keysMade)
  }

  ghost predicate StepAt(r: Run, i: nat)
    requires i < |r.steps| && |r.fleets| == |r.steps| + 1
  {
    Enabled(r.fleets[i], r.steps[i]) && r.fleets[i + 1] == Next(r.fleets[i], r.steps[i])
  }

  ghost predicate Valid(r: Run) {
    && |r.fleets| == |r.steps| + 1
    && Initial(r.fleets[0])
    && forall i :: 0 <= i < |r.steps| ==> StepAt(r, i)
  }

  // ---- The invariant ----

  predicate DiskKeysMade(d: Disk, made: set<Key>) {
    (d.keys.tpm.Some? ==> d.keys.tpm.value in made) && (d.keys.named.Some? ==> d.keys.named.value in made)
  }

  /** The request on its way carries the process's own id and key, and says where the key is. */
  predicate OwnRequest(q: Process, dto: EnrollDto) {
    && q.deviceId == Some(dto.deviceId)
    && dto.publicKey == Pub(q.loaded.key) && dto.hardwareBound == Some(q.loaded.hardwareBound)
  }

  predicate ProcessOk(q: Process) {
    match q.stage
    case Waiting(request) => OwnRequest(q, request)
    case Replied(request, _) => OwnRequest(q, request)
    case Enrolled => q.deviceId.Some?
    case Started => q.deviceId.None?
    case Gone => true
  }

  /** Installation `a` has device id `d` in its file or in one of its processes. */
  ghost predicate UsesId(f: Fleet, a: nat, d: string) {
    || (a in f.disks && f.disks[a].config.Some? && f.disks[a].config.value.deviceId == d)
    || (exists p :: p in f.processes && f.processes[p].home == a && f.processes[p].deviceId == Some(d))
  }

  ghost predicate IdsOk(f: Fleet) {
    && (forall a, d :: UsesId(f, a, d) ==> d in f.idsMade)
    && (forall a, b, d :: UsesId(f, a, d) && UsesId(f, b, d) ==> a == b)
  }

  ghost predicate ProcessesOk(f: Fleet) {
    forall p :: p in f.processes ==>
      f.processes[p].home in f.disks && ProcessOk(f.processes[p]) && f.processes[p].loaded.key in f.keysMade
  }

  ghost predicate Inv(f: Fleet) {
    && S.Inv(f.site) && IdsOk(f) && ProcessesOk(f)
    && forall a :: a in f.disks ==> DiskKeysMade(f.disks[a], f.keysMade)
  }

  lemma EnrollSetsKey(h: Hub, dto: EnrollDto, now: nat)
    ensures var h' := Enroll(h, dto, now).0;
      && h'.challenges == h.challenges && h'.tokens == h.tokens
      && (forall d :: d != dto.deviceId || !Rewrites(h, dto) ==>
            (d in h'.devices <==> d in h.devices) && (d in h.devices ==> h'.devices[d] == h.devices[d]))
      && (Rewrites(h, dto) ==> dto.deviceId in h'.devices && h'.devices[dto.deviceId].publicKey == dto.publicKey)
  {
  }

  lemma SiteStep(f: Fleet, s: Step)
    requires Inv(f) && Enabled(f, s)
    ensures S.Inv(Next(f, s).site)
  {
    if s.Elsewhere? {
      S.HubStep(f.site, s.call);
      S.KeysStep(f.site, s.call);
    } else if s.Arrives? {
      var request := f.processes[s.process].stage.request;
      EnrollKeeps(f.site.hub, request, f.site.now);
      EnrollSetsKey(f.site.hub, request, f.site.now);
    }
  }

  /** An id in use after a step was in use before, or is the one just drawn, by the same installation. */
  lemma UsedBefore(f: Fleet, s: Step, a: nat, d: string)
    requires Inv(f) && Enabled(f, s) && UsesId(Next(f, s), a, d)
    ensures UsesId(f, a, d) || (s.Prepares? && d == s.attempt.guid && a == f.processes[s.process].home)
  {
    var f' := Next(f, s);
    if a in f'.disks && f'.disks[a].config.Some? && f'.disks[a].config.value.deviceId == d {
      if s.Learns? && f.processes[s.process].home == a && f.processes[s.process].stage.ok {
        assert f.processes[s.process].deviceId == Some(d);
      } else {
        assert f'.disks[a].config == f.disks[a].config;
      }
    } else {
      var p :| p in f'.processes && f'.processes[p].home == a && f'.processes[p].deviceId == Some(d);
      if s.Prepares? && s.process == p {
      } else {
        assert p in f.processes && f.processes[p].deviceId == Some(d) && f.processes[p].home == a;
      }
    }
  }

  lemma IdsStep(f: Fleet, s: Step)
    requires Inv(f) && Enabled(f, s)
    ensures IdsOk(Next(f, s))
  {
    var f' := Next(f, s);
    forall a, d | UsesId(f', a, d)
      ensures d in f'.idsMade
    {
      UsedBefore(f, s, a, d);
    }
    forall a, b, d | UsesId(f', a, d) && UsesId(f', b, d)
      ensures a == b
    {
      UsedBefore(f, s, a, d);
      UsedBefore(f, s, b, d);
    }
  }

  lemma ProcessesStep(f: Fleet, s: Step)
    requires Inv(f) && Enabled(f, s)
    ensures var f' := Next(f, s);
      ProcessesOk(f') && forall a :: a in f'.disks ==> DiskKeysMade(f'.disks[a], f'.keysMade)
  {
  }

  lemma {:induction false} Reachable(r: Run, i: nat)
    requires Valid(r) && i < |r.fleets|
    ensures Inv(r.fleets[i])
  {
    if i > 0 {
      Reachable(r, i - 1);
      assert StepAt(r, i - 1);
      SiteStep(r.fleets[i - 1], r.steps[i - 1]);
      IdsStep(r.fleets[i - 1], r.steps[i - 1]);
      ProcessesStep(r.fleets[i - 1], r.steps[i - 1]);
    }
  }

  lemma StepBack(r: Run, i: nat)
    requires Valid(r) && 0 < i < |r.fleets|
    ensures Enabled(r.fleets[i - 1], r.steps[i - 1]) && r.fleets[i] == Next(r.fleets[i - 1], r.steps[i - 1])
    ensures Inv(r.fleets[i - 1])
  {
    assert StepAt(r, i - 1);
    Reachable(r, i - 1);
  }

  // ---- Which key the hub holds ----

  /** The enrolment request a step delivers, whoever sent it. */
  function EnrolmentOf(f: Fleet, s: Step): Option<EnrollDto> {
    if s.Arrives? && s.process in f.processes && f.processes[s.process].stage.Waiting?
    then Some(f.processes[s.process].stage.request)
    else if s.Elsewhere? && s.call.DoEnroll? then Some(s.call.dto)
    else None
  }

  /** The key a step writes to the row of device `d`. */
  function KeyWritten(f: Fleet, s: Step, d: string): Option<PublicKey> {
    var dto := EnrolmentOf(f, s);
    if dto.Some? && dto.value.deviceId == d && Rewrites(f.site.hub, dto.value) then Some(dto.value.publicKey) else None
  }

  /** The key of the last enrolment by the moment `i` that rewrote the row of `d`. */
  ghost function LastKey(r: Run, i: nat, d: string): Option<PublicKey>
    requires i <= |r.steps| < |r.fleets|
  {
    if i == 0 then None
    else
      var written := KeyWritten(r.fleets[i - 1], r.steps[i - 1], d);
      if written.Some? then written else LastKey(r, i - 1, d)
  }

  function HubKey(h: Hub, d: string): Option<PublicKey> {
    if d in h.devices then Some(h.devices[d].publicKey) else None
  }

  lemma BriefKeyKept(s: S.Site, c: S.Call, d: string)
    requires S.Brief(c) && !c.DoEnroll?
    ensures HubKey(S.BriefAfter(s, c), d) == HubKey(s.hub, d)
  {
  }

  lemma DevicesKept(s: S.Site, c: S.Call)
    requires S.Enabled(s, c) && !S.Brief(c)
    ensures S.HubAfter(s, c).devices == s.hub.devices
  {
    if c.DoIssue? {
      ResultsOfLoop(s.hub, c.round, |c.round.rows|);
    } else if c.DoBind? {
      DevicesKeptByBind(s.hub, c.bind, s.now, c.wrote);
    } else if c.DoVerify? {
      DevicesKeptByJudge(s.hub, c.response, c.readings);
    }
  }

  lemma DevicesKeptByBind(h: Hub, q: BindRequest, got: nat, wrote: nat)
    ensures Bind(h, q, got, wrote).0.devices == h.devices
  {
  }

  lemma DevicesKeptByJudge(h: Hub, q: Response, t: Readings)
    ensures Judge(h, q, t).0.devices == h.devices
  {
  }

  lemma KeyStep(f: Fleet, s: Step, d: string)
    requires Enabled(f, s)
    ensures HubKey(Next(f, s).site.hub, d) ==
      if KeyWritten(f, s, d).Some? then KeyWritten(f, s, d) else HubKey(f.site.hub, d)
  {
    var dto := EnrolmentOf(f, s);
    if dto.Some? {
      EnrollSetsKey(f.site.hub, dto.value, f.site.now);
    } else if s.Elsewhere? {
      if S.Brief(s.call) {
        BriefKeyKept(f.site, s.call, d);
      } else {
        DevicesKept(f.site, s.call);
      }
    }
  }

  /** The hub's key for a device is that of the last enrolment that rewrote its row. */
  lemma {:induction false} HubHoldsLast(r: Run, i: nat, d: string)
    requires Valid(r) && i < |r.fleets|
    ensures HubKey(r.fleets[i].site.hub, d) == LastKey(r, i, d)
  {
    if i > 0 {
      HubHoldsLast(r, i - 1, d);
      StepBack(r, i);
      KeyStep(r.fleets[i - 1], r.steps[i - 1], d);
    }
  }
}
