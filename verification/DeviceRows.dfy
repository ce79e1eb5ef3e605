/** Where each column of a device's row comes from, in any run, and what a revocation is worth. */
module DeviceRows {
  import opened Prelude
  import opened Entities
  import opened DeviceService
  import opened Interleaved
  import opened CallHistory
  import opened Safety

  // ---- The steps that write the row of device `d` ----

  /** Step `e` is an enrolment that creates the row or rewrites it. */
  ghost predicate EnrolsAt(r: Run, e: int, d: string, dto: EnrollDto) {
    && Position(r, e) && r.steps[e] == Enrolls(dto) && dto.deviceId == d
    && (d in r.worlds[e].hub.devices || dto.tenantId in r.worlds[e].hub.tenants)
  }

  ghost predicate RevokedAt(r: Run, e: int, d: string) {
    Position(r, e) && r.steps[e] == Revokes(d) && d in r.worlds[e].hub.devices
  }

  ghost predicate BeatenAt(r: Run, e: int, d: string) {
    Position(r, e) && r.steps[e] == Beats(d) && d in r.worlds[e].hub.devices
  }

  /** No enrolment writes the row between two moments. */
  ghost predicate Unenrolled(r: Run, i: int, j: int, d: string) {
    forall e, dto :: i <= e < j ==> !EnrolsAt(r, e, d, dto)
  }

  ghost predicate Unbeaten(r: Run, i: int, j: int, d: string) {
    forall e :: i <= e < j ==> !BeatenAt(r, e, d)
  }

  /** One step and one row: who changes what. */
  lemma RowStep(r: Run, i: int, d: string)
    requires Valid(r) && Position(r, i)
    ensures var (h, h', s) := (r.worlds[i].hub, r.worlds[i + 1].hub, r.steps[i]);
      && (d in h'.devices <==> d in h.devices || (s.Enrolls? && EnrolsAt(r, i, d, s.dto)))
      && (d in h.devices && !(s.Enrolls? && EnrolsAt(r, i, d, s.dto)) ==>
            && (RevokedAt(r, i, d) ==> h'.devices[d] == h.devices[d].(status := Revoked))
            && (BeatenAt(r, i, d) ==> h'.devices[d] == h.devices[d].(lastHeartbeat := Some(r.worlds[i].now)))
            && (!RevokedAt(r, i, d) && !BeatenAt(r, i, d) ==> h'.devices[d] == h.devices[d]))
      && (s.Enrolls? && EnrolsAt(r, i, d, s.dto) ==>
            && Shows(h'.devices[d], s.dto) && h'.devices[d].status == Active
            && h'.devices[d].lastHeartbeat == Some(r.worlds[i].now)
            && Belongs(h'.devices[d], if d in h.devices then h.devices[d] else h'.devices[d])
            && (d !in h.devices ==> Names(h'.devices[d], s.dto)))
  {
    HubAt(r, i);
    var w, s := r.worlds[i], r.steps[i];
    if s.BindContinues? {
      DevicesKeptByBind(w, s);
    } else if s.VerifyContinues? {
      DevicesKeptByVerify(w, s);
    } else if s.IssueContinues? || s.IssueLogs? || s.Joins? || s.JoinLogs? || s.Creates? || s.IssuesToken? {
      DevicesKeptByRest(w, s);
    }
  }

  lemma DevicesKeptByBind(w: World, s: Step)
    requires Enabled(w, s) && s.BindContinues?
    ensures HubAfter(w, s).devices == w.hub.devices
  {
  }

  lemma DevicesKeptByVerify(w: World, s: Step)
    requires Enabled(w, s) && s.VerifyContinues?
    ensures HubAfter(w, s).devices == w.hub.devices
  {
  }

  lemma DevicesKeptByRest(w: World, s: Step)
    requires Enabled(w, s)
    requires s.IssueContinues? || s.IssueLogs? || s.Joins? || s.JoinLogs? || s.Creates? || s.IssuesToken?
    ensures HubAfter(w, s).devices == w.hub.devices
  {
  }

  /** The key, its algorithm and where it is kept are those of the request; what is missing has its default. */
  predicate Shows(row: Device, dto: EnrollDto) {
    && row.publicKey == dto.publicKey
    && row.keyAlgorithm == (match dto.keyAlgorithm
                            case None => "RSA-2048"
                            case Some(named) => if named == "" then "RSA-2048" else named)
    && (row.hardwareBound <==> dto.hardwareBound == Some(true))
  }

  predicate Names(row: Device, dto: EnrollDto) {
    row.tenantId == dto.tenantId && row.userId == dto.userId && row.displayName == dto.displayName
  }

  predicate Belongs(row: Device, before: Device) {
    row.tenantId == before.tenantId && row.userId == before.userId && row.displayName == before.displayName
  }

  /**
   An enrolment succeeds exactly when its tenant is known, and only then is it
   logged; under an unknown tenant a new device gets no row, a known one does.
   */
  lemma EnrollOutcome(h: Hub, dto: EnrollDto, now: nat)
    ensures var (h', answer) := Enroll(h, dto, now);
      && h' == h.(devices := h'.devices, audit := h'.audit)
      && (answer.Ok? <==> dto.tenantId in h.tenants)
      && (answer.Ok? ==> dto.deviceId in h'.devices && h'.devices[dto.deviceId] == answer.value)
      && |h'.audit| == |h.audit| + (if answer.Ok? then 1 else 0)
      && (answer.Err? && dto.deviceId !in h.devices ==> h' == h)
      && (answer.Err? && dto.deviceId in h.devices ==>
            && h'.devices == h.devices[dto.deviceId := h'.devices[dto.deviceId]]
            && Shows(h'.devices[dto.deviceId], dto))
  {
  }

  // ---- Columns ----

  /** The status is the work of the last step that set it. */
  ghost predicate RevokedLast(r: Run, i: int, d: string) {
    exists e :: e < i && RevokedAt(r, e, d) && Unenrolled(r, e, i, d)
  }

  lemma RevokedStays(r: Run, i: int, d: string)
    requires Valid(r) && Position(r, i) && !(r.steps[i].Enrolls? && EnrolsAt(r, i, d, r.steps[i].dto))
    ensures RevokedLast(r, i + 1, d) <==> RevokedLast(r, i, d) || RevokedAt(r, i, d)
  {
    assert forall dto :: !EnrolsAt(r, i, d, dto);
    if e :| e < i && RevokedAt(r, e, d) && Unenrolled(r, e, i, d) {
      assert Unenrolled(r, e, i + 1, d);
    }
    if RevokedAt(r, i, d) {
      assert Unenrolled(r, i, i + 1, d);
    }
    if e :| e < i + 1 && RevokedAt(r, e, d) && Unenrolled(r, e, i + 1, d) {
      assert Unenrolled(r, e, i, d);
    }
  }

  lemma EnrolledLast(r: Run, i: int, d: string, dto: EnrollDto)
    requires EnrolsAt(r, i, d, dto)
    ensures !RevokedLast(r, i + 1, d)
  {
    forall e | e < i + 1 && RevokedAt(r, e, d)
      ensures !Unenrolled(r, e, i + 1, d)
    {
      assert EnrolsAt(r, i, d, dto);
    }
  }

  /**
   In every reachable state a device is revoked exactly when it has been revoked
   with no enrolment since that wrote its row, and active otherwise: no heartbeat,
   binding or verdict changes that.
   */
  lemma {:induction false} RevokedIff(r: Run, i: nat, d: string)
    requires Valid(r) && i < |r.worlds| && d in r.worlds[i].hub.devices
    ensures r.worlds[i].hub.devices[d].status == if RevokedLast(r, i, d) then Revoked else Active
  {
    if i > 0 {
      RowStep(r, i - 1, d);
      if r.steps[i - 1].Enrolls? && EnrolsAt(r, i - 1, d, r.steps[i - 1].dto) {
        EnrolledLast(r, i - 1, d, r.steps[i - 1].dto);
      } else {
        RevokedIff(r, i - 1, d);
        RevokedStays(r, i - 1, d);
      }
    }
  }

  /**
   A call that reads the row of a revoked device ends FAILED, whatever beats,
   answers and re-enrolments come after its read.
   */
  lemma RevokedNeverVerified(r: Run, g: int, i: int, k: nat, c: Challenge, device: Device, status: TrustStatus)
    requires Valid(r) && ReadsAt(r, g, k, c, device) && JudgesAt(r, i, k, c, device, status)
    requires RevokedLast(r, g, c.deviceId)
    ensures status == Failed
  {
    RevokedIff(r, g, c.deviceId);
    JudgedBy(r, i, k, c, device, status);
  }

  /** Enrolment `first` created the row, `last` is the last to have written it, and step `beat` set its heartbeat. */
  ghost predicate RowFrom(r: Run, i: nat, d: string, first: int, last: int, beat: int)
    requires Valid(r) && i < |r.worlds|
  {
    && 0 <= first <= last <= beat < i && d in r.worlds[i].hub.devices
    && r.steps[first].Enrolls? && EnrolsAt(r, first, d, r.steps[first].dto) && d !in r.worlds[first].hub.devices
    && r.steps[last].Enrolls? && EnrolsAt(r, last, d, r.steps[last].dto) && Unenrolled(r, last + 1, i, d)
    && (beat == last || BeatenAt(r, beat, d)) && Unbeaten(r, beat + 1, i, d)
    && var row := r.worlds[i].hub.devices[d];
       && Names(row, r.steps[first].dto)
       && Shows(row, r.steps[last].dto)
       && row.lastHeartbeat == Some(r.worlds[beat].now)
  }

  lemma RowFromStep(r: Run, i: nat, d: string, first: int, last: int, beat: int)
    requires Valid(r) && 0 < i < |r.worlds| && RowFrom(r, i - 1, d, first, last, beat)
    ensures exists f, l, b :: RowFrom(r, i, d, f, l, b)
  {
    RowStep(r, i - 1, d);
    if r.steps[i - 1].Enrolls? && EnrolsAt(r, i - 1, d, r.steps[i - 1].dto) {
      assert RowFrom(r, i, d, first, i - 1, i - 1);
    } else if BeatenAt(r, i - 1, d) {
      assert RowFrom(r, i, d, first, last, i - 1);
    } else {
      assert RowFrom(r, i, d, first, last, beat);
    }
  }

  /**
   In every reachable state: the device's tenant, user and name are those of the
   enrolment that created its row, its key, algorithm and hardware flag those of
   the last enrolment that wrote it, and its heartbeat the instant of the last
   beat or, if later, of that enrolment.
   */
  lemma {:induction false} RowHistory(r: Run, i: nat, d: string)
    requires Valid(r) && i < |r.worlds| && d in r.worlds[i].hub.devices
    ensures exists first, last, beat :: RowFrom(r, i, d, first, last, beat)
  {
    if i > 0 {
      if d in r.worlds[i - 1].hub.devices {
        RowHistory(r, i - 1, d);
        var first, last, beat :| RowFrom(r, i - 1, d, first, last, beat);
        RowFromStep(r, i, d, first, last, beat);
      } else {
        RowStep(r, i - 1, d);
        assert RowFrom(r, i, d, i - 1, i - 1, i - 1);
      }
    }
  }
}
