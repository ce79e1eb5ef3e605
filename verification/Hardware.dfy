/** What it is worth when a device's row says that its key is held in hardware. */
module Hardware {
  import opened Prelude
  import opened Crypto
  import opened Entities
  import opened DeviceService
  import opened Processes
  import opened Fleet

  /** Every process that calls its key hardware-bound has the key in the TPM of its machine. */
  ghost predicate KeysInTpm(f: Processes.Fleet) {
    forall p :: p in f.processes && f.processes[p].loaded.hardwareBound ==>
      f.processes[p].home in f.disks
      && f.disks[f.processes[p].home].keys.tpm == Some(f.processes[p].loaded.key)
  }

  lemma KeysInTpmStep(f: Processes.Fleet, s: Step)
    requires Enabled(f, s) && KeysInTpm(f)
    ensures KeysInTpm(Next(f, s))
  {
  }

  lemma {:induction false} HardwareIsTpm(r: Run, i: nat)
    requires Valid(r) && i < |r.fleets|
    ensures KeysInTpm(r.fleets[i])
  {
    if i > 0 {
      HardwareIsTpm(r, i - 1);
      StepBack(r, i);
      KeysInTpmStep(r.fleets[i - 1], r.steps[i - 1]);
    }
  }

  /** The hardware flag a step writes to the row of device `d`. */
  function ClaimWritten(f: Processes.Fleet, s: Step, d: string): Option<bool> {
    var dto := EnrolmentOf(f, s);
    if dto.Some? && dto.value.deviceId == d && Rewrites(f.site.hub, dto.value)
    then Some(dto.value.hardwareBound == Some(true))
    else None
  }

  function HubClaim(h: Hub, d: string): Option<bool> {
    if d in h.devices then Some(h.devices[d].hardwareBound) else None
  }

  lemma EnrollSetsClaim(h: Hub, dto: EnrollDto, now: nat, d: string)
    ensures HubClaim(Enroll(h, dto, now).0, d) ==
      if dto.deviceId == d && Rewrites(h, dto) then Some(dto.hardwareBound == Some(true)) else HubClaim(h, d)
  {
  }

  lemma BriefClaimKept(s: S.Site, c: S.Call, d: string)
    requires S.Brief(c) && !c.DoEnroll?
    ensures HubClaim(S.BriefAfter(s, c), d) == HubClaim(s.hub, d)
  {
  }

  lemma ClaimStep(f: Processes.Fleet, s: Step, d: string)
    requires Enabled(f, s)
    ensures HubClaim(Next(f, s).site.hub, d) ==
      if ClaimWritten(f, s, d).Some? then ClaimWritten(f, s, d) else HubClaim(f.site.hub, d)
  {
    var dto := EnrolmentOf(f, s);
    if dto.Some? {
      EnrollSetsClaim(f.site.hub, dto.value, f.site.now, d);
    } else if s.Elsewhere? {
      if S.Brief(s.call) {
        BriefClaimKept(f.site, s.call, d);
      } else {
        DevicesKept(f.site, s.call);
      }
    }
  }

  /** Step `e` is the last enrolment by the moment `i` that wrote the row of `d`, and it wrote what the row shows. */
  ghost predicate FromLast(r: Run, e: int, i: nat, d: string) {
    && 0 <= e < i <= |r.steps| < |r.fleets| && ClaimWritten(r.fleets[e], r.steps[e], d).Some?
    && (forall j :: e < j < i ==> ClaimWritten(r.fleets[j], r.steps[j], d).None?)
    && HubClaim(r.fleets[i].site.hub, d) == ClaimWritten(r.fleets[e], r.steps[e], d)
    && HubKey(r.fleets[i].site.hub, d) == KeyWritten(r.fleets[e], r.steps[e], d)
  }

  /** A device's row has the key and the hardware flag of the last enrolment that wrote it. */
  lemma {:induction false} ClaimIsLast(r: Run, i: nat, d: string)
    requires Valid(r) && i < |r.fleets| && d in r.fleets[i].site.hub.devices
    ensures exists e :: FromLast(r, e, i, d)
  {
    if i > 0 {
      StepBack(r, i);
      ClaimStep(r.fleets[i - 1], r.steps[i - 1], d);
      KeyStep(r.fleets[i - 1], r.steps[i - 1], d);
      if ClaimWritten(r.fleets[i - 1], r.steps[i - 1], d).Some? {
        assert FromLast(r, i - 1, i, d);
      } else {
        ClaimIsLast(r, i - 1, d);
        var e :| FromLast(r, e, i - 1, d);
        assert FromLast(r, e, i, d);
      }
    }
  }

  /** The row's key is the one in the TPM of the installation that goes by its device id. */
  ghost predicate HeldInTpm(f: Processes.Fleet, d: string) {
    && d in f.site.hub.devices
    && exists a :: UsesId(f, a, d) && a in f.disks && f.disks[a].keys.tpm.Some?
                   && f.site.hub.devices[d].publicKey == Pub(f.disks[a].keys.tpm.value)
  }

  /**
   Where only the installations' own processes enrol a device id, a row that says
   hardware-bound has a key that is in a machine's TPM, through any starts, losses
   and second copies.
   */
  lemma HardwareClaimTrue(r: Run, i: nat, d: string)
    requires Valid(r) && i < |r.fleets| && NoStranger(r, d)
    requires d in r.fleets[i].site.hub.devices && r.fleets[i].site.hub.devices[d].hardwareBound
    ensures HeldInTpm(r.fleets[i], d)
  {
    ClaimIsLast(r, i, d);
    var e :| FromLast(r, e, i, d);
    var q := r.fleets[e].processes[r.steps[e].process];
    Reachable(r, e);
    HardwareIsTpm(r, e);
    assert OwnRequest(q, q.stage.request);
    TpmKeyKept(r, e, i, q.home);
    ProcessKept(r, e, i, r.steps[e].process);
    assert UsesId(r.fleets[i], q.home, d);
  }
}
