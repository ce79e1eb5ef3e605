/** What one run of the issue loop adds to the hub, and what it leaves alone. */
module IssueLaws {
  import opened Prelude
  import opened Framing
  import opened Entities
  import opened ChallengeService

  predicate DistinctRows(rows: seq<Row>) {
    forall i, j :: 0 <= i < j < |rows| ==> rows[i].id != rows[j].id
  }

  /** The random ids of the loop are new and all different. */
  predicate FreshDraws(h: Hub, r: Round, n: nat)
    requires Fits(r, n)
  {
    && (forall i :: 0 <= i < n ==> r.draws[i].id !in h.challenges)
    && (forall i, j :: 0 <= i < j < n ==> r.draws[i].id != r.draws[j].id)
  }

  ghost predicate ResultsRight(results: seq<IssueResult>, r: Round, n: nat) {
    && Fits(r, n) && |results| == n
    && forall i :: 0 <= i < n ==>
         && results[i].participantId == r.rows[i].id
         && results[i].displayName == r.rows[i].participant.displayName
         && (results[i].Sent? <==> Challengeable(r.rows[i]))
         && (results[i].Sent? ==> results[i].challengeId == r.draws[i].id)
  }

  /** Only participants, challenges, the audit log and the notices can have changed. */
  predicate SameElsewhere(h: Hub, h': Hub) {
    h' == h.(participants := h'.participants, challenges := h'.challenges, audit := h'.audit, notices := h'.notices)
  }

  predicate KeysKept(h: Hub, h': Hub) {
    forall id :: id in h.challenges ==> id in h'.challenges && h'.challenges[id] == h.challenges[id]
  }

  predicate KeysIssued(h': Hub, r: Round, n: nat)
    requires Fits(r, n)
  {
    forall i :: 0 <= i < n && Challengeable(r.rows[i]) ==>
      && r.draws[i].id in h'.challenges
      && h'.challenges[r.draws[i].id] ==
           Expiring(ChallengeFor(r.meetingId, r.tenantId, r.rows[i], r.draws[i]), Some(r.draws[i].now + 15_000))
  }

  predicate DrawnFor(r: Round, n: nat, id: string)
    requires Fits(r, n)
  {
    exists i :: 0 <= i < n && Challengeable(r.rows[i]) && id == r.draws[i].id
  }

  ghost predicate NoOtherKeys(h: Hub, h': Hub, r: Round, n: nat)
    requires Fits(r, n)
  {
    forall id :: id in h'.challenges && id !in h.challenges ==> DrawnFor(r, n, id)
  }

  /** The stored challenges are the old ones and one for each row with a usable device. */
  ghost predicate KeysRight(h: Hub, h': Hub, r: Round, n: nat)
    requires Fits(r, n)
  {
    KeysKept(h, h') && KeysIssued(h', r, n) && NoOtherKeys(h, h', r, n)
  }

  /** Exactly the rows without a usable device turn FAILED; every other participant is untouched. */
  ghost predicate RowsRight(h: Hub, h': Hub, r: Round, n: nat)
    requires Fits(r, n) && Known(h, r.rows)
  {
    && h'.participants.Keys == h.participants.Keys
    && (forall i :: 0 <= i < n && !Challengeable(r.rows[i]) ==>
          h'.participants[r.rows[i].id] == FailedRow(h.participants[r.rows[i].id], r.draws[i].now))
    && (forall p ::
          p in h.participants && (forall i :: 0 <= i < n && r.rows[i].id == p ==> Challengeable(r.rows[i])) ==>
          h'.participants[p] == h.participants[p])
  }

  function EventOf(meetingId: string, tenantId: string, row: Row, draw: Draw): AuditEvent {
    if Challengeable(row) then IssuedEvent(ChallengeFor(meetingId, tenantId, row, draw), row.participant.displayName)
    else NoDeviceEvent(meetingId, tenantId, row)
  }

  function NoticeOf(meetingId: string, tenantId: string, row: Row, draw: Draw): Notice {
    if Challengeable(row) then
      ChallengeToDevice(row.participant.deviceId.value, PayloadOf(ChallengeFor(meetingId, tenantId, row, draw)))
    else MeetingUpdate(meetingId, row.id, Failed)
  }

  /** One audit event a row, in the order of the rows. */
  function Events(r: Round, n: nat): seq<AuditEvent>
    requires Fits(r, n)
  {
    if n == 0 then []
    else Events(r, n - 1) + [EventOf(r.meetingId, r.tenantId, r.rows[n - 1], r.draws[n - 1])]
  }

  /** One gateway call a row, in the order of the rows. */
  function Notices(r: Round, n: nat): seq<Notice>
    requires Fits(r, n)
  {
    if n == 0 then []
    else Notices(r, n - 1) + [NoticeOf(r.meetingId, r.tenantId, r.rows[n - 1], r.draws[n - 1])]
  }

  /** The `i`-th event and the `i`-th call are those of row `i`. */
  lemma {:induction false} LogOfRow(r: Round, n: nat, i: nat)
    requires Fits(r, n) && i < n
    ensures |Events(r, n)| == n && Events(r, n)[i] == EventOf(r.meetingId, r.tenantId, r.rows[i], r.draws[i])
    ensures |Notices(r, n)| == n && Notices(r, n)[i] == NoticeOf(r.meetingId, r.tenantId, r.rows[i], r.draws[i])
  {
    if i < n - 1 {
      LogOfRow(r, n - 1, i);
    } else if n > 1 {
      LogOfRow(r, n - 1, 0);
    }
  }

  // ---- One more turn ----

  function Turn(h1: Hub, r: Round, n: nat): (Hub, IssueResult)
    requires 0 < n && Fits(r, n)
  {
    IssueOne(h1, r.meetingId, r.tenantId, r.rows[n - 1], r.draws[n - 1])
  }

  lemma OneMoreLog(h: Hub, h1: Hub, r: Round, n: nat)
    requires 0 < n && Fits(r, n)
    requires h1.audit == h.audit + Events(r, n - 1) && h1.notices == h.notices + Notices(r, n - 1)
    ensures var h2 := Turn(h1, r, n).0; h2.audit == h.audit + Events(r, n) && h2.notices == h.notices + Notices(r, n)
  {
    var h2 := Turn(h1, r, n).0;
    assert h2.audit == h1.audit + [EventOf(r.meetingId, r.tenantId, r.rows[n - 1], r.draws[n - 1])];
    assert h2.notices == h1.notices + [NoticeOf(r.meetingId, r.tenantId, r.rows[n - 1], r.draws[n - 1])];
  }

  lemma KeyAdded(h: Hub, h1: Hub, h2: Hub, r: Round, n: nat)
    requires 0 < n && Fits(r, n) && FreshDraws(h, r, n) && Challengeable(r.rows[n - 1])
    requires KeysRight(h, h1, r, n - 1)
    requires h2.challenges == h1.challenges[r.draws[n - 1].id :=
      Expiring(ChallengeFor(r.meetingId, r.tenantId, r.rows[n - 1], r.draws[n - 1]), Some(r.draws[n - 1].now + 15_000))]
    ensures KeysRight(h, h2, r, n)
  {
    assert KeysKept(h, h2);
    assert KeysIssued(h2, r, n);
    forall id | id in h2.challenges && id !in h.challenges
      ensures DrawnFor(r, n, id)
    {
      if id != r.draws[n - 1].id {
        DrawnMore(r, n, id);
      }
    }
  }

  lemma DrawnMore(r: Round, n: nat, id: string)
    requires 0 < n && Fits(r, n) && DrawnFor(r, n - 1, id)
    ensures DrawnFor(r, n, id)
  {
  }

  lemma KeysSame(h: Hub, h1: Hub, h2: Hub, r: Round, n: nat)
    requires 0 < n && Fits(r, n) && !Challengeable(r.rows[n - 1])
    requires KeysRight(h, h1, r, n - 1) && h2.challenges == h1.challenges
    ensures KeysRight(h, h2, r, n)
  {
    forall id | id in h2.challenges && id !in h.challenges
      ensures DrawnFor(r, n, id)
    {
      DrawnMore(r, n, id);
    }
  }

  lemma OneMoreKey(h: Hub, h1: Hub, r: Round, n: nat)
    requires 0 < n && Fits(r, n) && FreshDraws(h, r, n)
    requires KeysRight(h, h1, r, n - 1)
    ensures KeysRight(h, Turn(h1, r, n).0, r, n)
  {
    if Challengeable(r.rows[n - 1]) {
      KeyAdded(h, h1, Turn(h1, r, n).0, r, n);
    } else {
      KeysSame(h, h1, Turn(h1, r, n).0, r, n);
    }
  }

  lemma RowFailed(h: Hub, h1: Hub, h2: Hub, r: Round, n: nat)
    requires 0 < n && Fits(r, n) && Known(h, r.rows) && DistinctRows(r.rows) && !Challengeable(r.rows[n - 1])
    requires RowsRight(h, h1, r, n - 1)
    requires h2.participants ==
      h1.participants[r.rows[n - 1].id := FailedRow(h1.participants[r.rows[n - 1].id], r.draws[n - 1].now)]
    ensures RowsRight(h, h2, r, n)
  {
    var id := r.rows[n - 1].id;
    assert h1.participants[id] == h.participants[id] by {
      assert forall i :: 0 <= i < n - 1 && r.rows[i].id == id ==> Challengeable(r.rows[i]);
    }
  }

  lemma OneMoreRow(h: Hub, h1: Hub, r: Round, n: nat)
    requires 0 < n && Fits(r, n) && Known(h, r.rows) && DistinctRows(r.rows)
    requires RowsRight(h, h1, r, n - 1)
    ensures RowsRight(h, Turn(h1, r, n).0, r, n)
  {
    if Challengeable(r.rows[n - 1]) {
      assert Turn(h1, r, n).0.participants == h1.participants;
    } else {
      RowFailed(h, h1, Turn(h1, r, n).0, r, n);
    }
  }

  // ---- The loop ----

  lemma {:induction false} ResultsOfLoop(h: Hub, r: Round, n: nat)
    requires Fits(r, n)
    ensures var (h', results) := IssueUpTo(h, r, n); ResultsRight(results, r, n) && SameElsewhere(h, h')
  {
    if n > 0 {
      ResultsOfLoop(h, r, n - 1);
    }
  }

  lemma {:induction false} LogsOfLoop(h: Hub, r: Round, n: nat)
    requires Fits(r, n)
    ensures var h' := IssueUpTo(h, r, n).0;
      h'.audit == h.audit + Events(r, n) && h'.notices == h.notices + Notices(r, n)
  {
    if n > 0 {
      LogsOfLoop(h, r, n - 1);
      OneMoreLog(h, IssueUpTo(h, r, n - 1).0, r, n);
    }
  }

  lemma {:induction false} KeysOfLoop(h: Hub, r: Round, n: nat)
    requires Fits(r, n) && FreshDraws(h, r, n)
    ensures KeysRight(h, IssueUpTo(h, r, n).0, r, n)
  {
    if n > 0 {
      KeysOfLoop(h, r, n - 1);
      OneMoreKey(h, IssueUpTo(h, r, n - 1).0, r, n);
    }
  }

  lemma {:induction false} RowsOfLoop(h: Hub, r: Round, n: nat)
    requires Fits(r, n) && Known(h, r.rows) && DistinctRows(r.rows)
    ensures RowsRight(h, IssueUpTo(h, r, n).0, r, n)
  {
    if n > 0 {
      RowsOfLoop(h, r, n - 1);
      var h1 := IssueUpTo(h, r, n - 1).0;
      OneMoreRow(h, h1, r, n);
      assert IssueUpTo(h, r, n).0 == Turn(h1, r, n).0;
    }
  }

  /** The whole loop, for any answer of the participant query. */
  lemma IssueConservation(h: Hub, r: Round)
    requires Listing(h, r.meetingId, r.rows) && |r.draws| == |r.rows| && FreshDraws(h, r, |r.rows|)
    ensures var n := |r.rows|;
      var (h', results) := IssueUpTo(h, r, n);
      && ResultsRight(results, r, n)
      && SameElsewhere(h, h')
      && h'.audit == h.audit + Events(r, n)
      && h'.notices == h.notices + Notices(r, n)
      && KeysRight(h, h', r, n)
      && RowsRight(h, h', r, n)
  {
    var n := |r.rows|;
    ResultsOfLoop(h, r, n);
    LogsOfLoop(h, r, n);
    KeysOfLoop(h, r, n);
    RowsOfLoop(h, r, n);
  }

  // ---- Field by field ----

  /** A participant bound to a device that exists and whose id is not the empty text. */
  predicate Usable(h: Hub, p: Participant) {
    p.deviceId.Some? && p.deviceId.value != "" && p.deviceId.value in h.devices
  }

  /** The challenge as drawn: its id, nonce and clock readings, with ten seconds to answer. */
  predicate AsDrawn(c: Challenge, draw: Draw) {
    && c.id == draw.id && c.nonce == draw.nonce
    && c.issuedAt == draw.issuedAt && c.expiresAt == draw.expiryBase + 10_000
  }

  /** The challenge is for this participant of this meeting, on the device and for the user of its row. */
  predicate IsFor(c: Challenge, meetingId: string, tenantId: string, id: string, row: Participant) {
    && c.meetingId == meetingId && c.tenantId == tenantId && c.participantId == id
    && row.deviceId == Some(c.deviceId) && c.userId == row.userId
  }

  /** The text of a challenge as it travels: the ids, the nonce and the two instants, and nothing else. */
  predicate Conveys(p: Payload, c: Challenge) {
    && p.challengeId == c.id && p.nonce == c.nonce && p.meetingId == c.meetingId && p.participantId == c.participantId
    && p.issuedAt == TimeText(c.issuedAt) && p.expiresAt == TimeText(c.expiresAt)
  }

  predicate IssueEntry(e: AuditEvent, c: Challenge, displayName: string) {
    && e.detail == ChallengeIssued(c.id, c.participantId, displayName, c.deviceId)
    && e.actor == "system" && e.tenantId == c.tenantId && e.meetingId == Some(c.meetingId)
  }

  predicate FailureEntry(e: AuditEvent, meetingId: string, tenantId: string, id: string, row: Participant) {
    && e.detail == ChallengeNoDevice(id, row.displayName)
    && e.actor == row.userId && e.tenantId == tenantId && e.meetingId == Some(meetingId)
  }

  /** With a usable device: a record as drawn, kept for fifteen seconds, told to that device and logged. */
  predicate Served(h': Hub, r: Round, id: string, row: Participant, draw: Draw, e: AuditEvent, notice: Notice) {
    && draw.id in h'.challenges && h'.challenges[draw.id].deadline == Some(draw.now + 15_000)
    && var c := h'.challenges[draw.id].value;
       && AsDrawn(c, draw) && IsFor(c, r.meetingId, r.tenantId, id, row)
       && notice.ChallengeToDevice? && Some(notice.deviceId) == row.deviceId && Conveys(notice.payload, c)
       && IssueEntry(e, c, row.displayName)
       && id in h'.participants && h'.participants[id] == row
  }

  /** Without: FAILED at this instant, told to the meeting and logged. */
  predicate Refused(h': Hub, r: Round, id: string, row: Participant, draw: Draw, e: AuditEvent, notice: Notice) {
    && id in h'.participants && h'.participants[id] == row.(trust := Failed, lastChallengeAt := Some(draw.now))
    && notice == MeetingUpdate(r.meetingId, id, Failed)
    && FailureEntry(e, r.meetingId, r.tenantId, id, row)
  }

  lemma TurnServes(h: Hub, h': Hub, r: Round, i: nat)
    requires Fits(r, |r.rows|) && i < |r.rows| && Known(h, r.rows) && Challengeable(r.rows[i])
    requires r.rows[i].participant == h.participants[r.rows[i].id]
    requires KeysIssued(h', r, |r.rows|)
    requires r.rows[i].id in h'.participants && h'.participants[r.rows[i].id] == h.participants[r.rows[i].id]
    ensures Served(h', r, r.rows[i].id, h.participants[r.rows[i].id], r.draws[i],
                   EventOf(r.meetingId, r.tenantId, r.rows[i], r.draws[i]),
                   NoticeOf(r.meetingId, r.tenantId, r.rows[i], r.draws[i]))
  {
  }

  lemma RowUntouched(h: Hub, h': Hub, r: Round, i: nat)
    requires Fits(r, |r.rows|) && i < |r.rows| && Known(h, r.rows) && DistinctRows(r.rows) && Challengeable(r.rows[i])
    requires RowsRight(h, h', r, |r.rows|)
    ensures h'.participants[r.rows[i].id] == h.participants[r.rows[i].id]
  {
    var p := r.rows[i].id;
    forall j | 0 <= j < |r.rows| && r.rows[j].id == p
      ensures Challengeable(r.rows[j])
    {
      assert i == j;
    }
  }

  lemma RowDone(h: Hub, h': Hub, r: Round, i: nat)
    requires Listing(h, r.meetingId, r.rows) && Fits(r, |r.rows|) && i < |r.rows|
    requires KeysIssued(h', r, |r.rows|) && RowsRight(h, h', r, |r.rows|)
    ensures var (id, e, notice) := (r.rows[i].id, EventOf(r.meetingId, r.tenantId, r.rows[i], r.draws[i]),
                                    NoticeOf(r.meetingId, r.tenantId, r.rows[i], r.draws[i]));
      if Usable(h, h.participants[id]) then Served(h', r, id, h.participants[id], r.draws[i], e, notice)
      else Refused(h', r, id, h.participants[id], r.draws[i], e, notice)
  {
    if Challengeable(r.rows[i]) {
      RowUntouched(h, h', r, i);
      TurnServes(h, h', r, i);
    }
  }

  lemma RowRecorded(h: Hub, h': Hub, r: Round, i: nat)
    requires Listing(h, r.meetingId, r.rows) && Fits(r, |r.rows|) && i < |r.rows|
    requires KeysIssued(h', r, |r.rows|) && RowsRight(h, h', r, |r.rows|)
    requires h'.audit == h.audit + Events(r, |r.rows|) && h'.notices == h.notices + Notices(r, |r.rows|)
    ensures RowTurned(h, h', r, i)
  {
    LogOfRow(r, |r.rows|, i);
    RowDone(h, h', r, i);
  }

  /** The `i`-th new entry, the `i`-th new gateway call and the row are right for the participant's device. */
  ghost predicate RowTurned(h: Hub, h': Hub, r: Round, i: nat) {
    && i < |r.rows| && i < |r.draws| && r.rows[i].id in h.participants
    && |h'.audit| == |h.audit| + |r.rows| && |h'.notices| == |h.notices| + |r.rows|
    && var (e, notice) := (h'.audit[|h.audit| + i], h'.notices[|h.notices| + i]);
       var row := h.participants[r.rows[i].id];
       if Usable(h, row) then Served(h', r, r.rows[i].id, row, r.draws[i], e, notice)
       else Refused(h', r, r.rows[i].id, row, r.draws[i], e, notice)
  }

  /** What the loop does for the participant of its `i`-th row, whatever the rows before and after it. */
  lemma RowServed(h: Hub, r: Round, i: nat)
    requires Listing(h, r.meetingId, r.rows) && |r.draws| == |r.rows| && FreshDraws(h, r, |r.rows|) && i < |r.rows|
    ensures RowTurned(h, IssueUpTo(h, r, |r.rows|).0, r, i)
  {
    IssueConservation(h, r);
    RowRecorded(h, IssueUpTo(h, r, |r.rows|).0, r, i);
  }

  /** Said of the tables alone: FAILED falls on exactly the meeting's participants without a usable device. */
  lemma FailedExactlyUnusable(h: Hub, r: Round, p: string)
    requires Listing(h, r.meetingId, r.rows) && |r.draws| == |r.rows|
    requires p in h.participants
    ensures var h' := IssueUpTo(h, r, |r.rows|).0;
      && p in h'.participants
      && (if h.participants[p].meetingId == r.meetingId && !Usable(h, h.participants[p])
          then h'.participants[p].trust == Failed && h'.participants[p].lastChallengeAt.Some?
          else h'.participants[p] == h.participants[p])
  {
    var n := |r.rows|;
    RowsOfLoop(h, r, n);
    if h.participants[p].meetingId == r.meetingId {
      var i :| 0 <= i < n && r.rows[i].id == p;
      assert Challengeable(r.rows[i]) <==> Usable(h, h.participants[p]);
    }
  }
}
