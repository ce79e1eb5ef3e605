/**
 How a device whose beats all keep to the schedule is judged STALE after all, and
 so the exact condition under which none is.
 */
module StaleGap {
  import opened Prelude
  import opened Crypto
  import opened Entities
  import opened Storage
  import opened Policy
  import opened DeviceService
  import opened ChallengeService
  import opened Interleaved
  import opened CallHistory
  import opened Safety
  import opened Schedules
  import opened Heartbeats

  /** Device `d`'s beats keep to the schedule right up to the verdict that calls it STALE. */
  ghost predicate StaleAnyway(r: Run, g: nat, i: nat, call: nat, c: Challenge, device: Device, start: nat,
                              arrival: nat -> Option<nat>, losses: nat, delay: nat, gap: nat, n: nat) {
    && Observed(r, g, i, call, c, device, Stale, gap)
    && Beating(r, g, c.deviceId, start, arrival, losses, delay, n)
    && Beating(r, i, c.deviceId, start, arrival, losses, delay, n)
    && FewLosses(arrival, losses)
  }

  ghost predicate SomeStale(losses: nat, delay: nat, gap: nat) {
    exists r, g, i, call, c, device, start, arrival, n ::
      StaleAnyway(r, g, i, call, c, device, start, arrival, losses, delay, gap, n)
  }

  // ---- The run that fails ----

  /** At the instant `t`: the one device has last beaten at 30 s, and nothing is under way. */
  ghost predicate Resting(w: World, t: nat) {
    && w.now == t && w.agentKeys == {} && w.verifies == map[] && w.issues == map[]
    && w.hub.challenges == map[] && w.used == {"t"}
    && w.hub.meetings == map["m" := Meeting("T", "")] && w.hub.participants == map["p" := BOUND_ROW]
    && w.hub.devices.Keys == {"d"} && Beaten(w.hub.devices["d"])
  }

  predicate Beaten(device: Device) {
    device.publicKey == Pub(1) && device.status == Active && device.lastHeartbeat == Some(FIRST_BEAT_MS)
  }

  lemma Waits(r: Run, ms: nat) returns (r': Run)
    requires Valid(r)
    ensures Valid(r') && Extends(r, r') && Last(r') == Last(r).(now := Last(r).now + ms)
  {
    ThenValid(r, Tick(ms));
    r' := Then(r, Tick(ms));
  }

  lemma BeatsOnce(r: Run, d: string) returns (r': Run)
    requires Valid(r) && d in Last(r).hub.devices
    ensures Valid(r') && Extends(r, r') && BeatenBy(r', |r'.worlds| - 1, d, Last(r).now)
    ensures Last(r') == Last(r).(hub := Heartbeat(Last(r).hub, d, Last(r).now))
  {
    ThenValid(r, Beats(d));
    r' := Then(r, Beats(d));
    assert r'.steps[|r.steps|] == Beats(d) && r'.worlds[|r.steps|] == Last(r);
  }

  lemma BeatenLater(r: Run, r': Run, i: nat, j: nat, d: string, at: nat)
    requires Valid(r) && Valid(r') && Extends(r, r') && i <= j && i < |r.worlds| && j < |r'.worlds|
    requires BeatenBy(r, i, d, at)
    ensures BeatenBy(r', j, d, at)
  {
    var m: nat :| m < i && r.steps[m] == Beats(d) && r.worlds[m].now == at && d in r.worlds[m].hub.devices;
    assert r'.steps[m] == Beats(d) && r'.worlds[m] == r.worlds[m];
  }

  lemma FirstBeat() returns (r: Run)
    ensures Valid(r) && Resting(Last(r), FIRST_BEAT_MS) && BeatenBy(r, |r.worlds| - 1, "d", FIRST_BEAT_MS)
  {
    var r0 := Settled();
    var r1 := Waits(r0, FIRST_BEAT_MS);
    r := BeatsOnce(r1, "d");
  }

  function DrawAt(t: nat): Draw {
    Draw("c", "", t, t, t)
  }

  function Asked(t: nat): Challenge {
    ChallengeFor("m", "T", ROW, DrawAt(t))
  }

  function Answer(t: nat): Response {
    Response("c", "d", Sig(1, ChallengeMaterial(Asked(t))))
  }

  /** As `Resting`, but call 0 stands at `pc`. */
  ghost predicate Answering(w: World, t: nat, pc: VerifyPc) {
    && w.now == t && w.verifies == map[0 := VerifyCall(Answer(t), pc)]
    && w.hub.devices.Keys == {"d"} && Beaten(w.hub.devices["d"])
  }

  lemma Issued(r: Run, t: nat) returns (r': Run)
    requires Valid(r) && Resting(Last(r), t)
    ensures Valid(r') && Extends(r, r')
    ensures Last(r').verifies == map[] && Last(r').now == t && Last(r').agentKeys == {}
    ensures Last(r').hub.devices == Last(r).hub.devices
    ensures Lookup(Last(r').hub.challenges, "c", t) == Some(Asked(t))
  {
    assert [ROW][0].id == "p";
    assert Listing(Last(r).hub, "m", [ROW]);
    ThenValid(r, IssueBegins(0, "m", [ROW]));
    var r1 := Then(r, IssueBegins(0, "m", [ROW]));
    assert "c"[0] != "t"[0];
    ThenValid(r1, IssueContinues(0, DrawAt(t)));
    r' := Then(r1, IssueContinues(0, DrawAt(t)));
  }

  lemma Answered(r: Run, t: nat) returns (r': Run)
    requires Valid(r) && Resting(Last(r), t)
    ensures Valid(r') && Extends(r, r') && Answering(Last(r'), t, Checked(Asked(t), false))
  {
    var r1 := Issued(r, t);
    ThenValid(r1, VerifyBegins(0, Answer(t)));
    var r2 := Then(r1, VerifyBegins(0, Answer(t)));
    ThenValid(r2, VerifyContinues(0));
    r' := Then(r2, VerifyContinues(0));
  }

  /** The call reads the row where `r` ends, and deletes the challenge. */
  lemma ReadAndDeleted(r: Run, t: nat) returns (r': Run, device: Device)
    requires Valid(r) && Answering(Last(r), t, Checked(Asked(t), false))
    ensures Valid(r') && Extends(r, r') && Beaten(device) && ReadsAt(r', |r.steps|, 0, Asked(t), device)
    ensures Answering(Last(r'), t, Removed(Asked(t), false, device))
  {
    device := Last(r).hub.devices["d"];
    ThenValid(r, VerifyContinues(0));
    var r1 := Then(r, VerifyContinues(0));
    ThenValid(r1, VerifyContinues(0));
    r' := Then(r1, VerifyContinues(0));
    assert r'.worlds[|r.steps|] == Last(r) && r'.steps[|r.steps|] == VerifyContinues(0);
  }

  /** Of the beats of `Worst` up to number `n`, those not lost have arrived. */
  ghost predicate DeliveredUpTo(r: Run, k: nat, delay: nat, n: nat)
    requires Valid(r)
  {
    forall i: nat :: i < n && Worst(k, delay)(i).Some? ==>
      BeatenBy(r, |r.worlds| - 1, "d", Worst(k, delay)(i).value)
  }

  /** The remaining beats arrive on time, up to the instant `until`, while the call stands still. */
  lemma {:induction false} Delivers(r: Run, k: nat, delay: nat, n: nat, until: nat) returns (r': Run)
    requires Valid(r) && "d" in Last(r).hub.devices && n > k
    requires Last(r).now <= until && Last(r).now <= BeatAt(0, n) + delay
    requires DeliveredUpTo(r, k, delay, n)
    ensures Valid(r') && Extends(r, r') && Last(r').now == until && Last(r').verifies == Last(r).verifies
    ensures Carries(r', |r'.worlds| - 1, "d", Worst(k, delay))
    decreases until + PERIOD_MS - (BeatAt(0, n) + delay)
  {
    if BeatAt(0, n) + delay > until {
      r' := Waits(r, until - Last(r).now);
      AllDelivered(r, r', k, delay, n);
    } else {
      var r1 := DeliversOne(r, k, delay, n);
      PeriodApart(0, n, n + 1);
      r' := Delivers(r1, k, delay, n + 1, until);
    }
  }

  lemma DeliversOne(r: Run, k: nat, delay: nat, n: nat) returns (r': Run)
    requires Valid(r) && "d" in Last(r).hub.devices && n > k
    requires Last(r).now <= BeatAt(0, n) + delay && DeliveredUpTo(r, k, delay, n)
    ensures Valid(r') && Extends(r, r') && DeliveredUpTo(r', k, delay, n + 1)
    ensures Last(r').now == BeatAt(0, n) + delay && Last(r').verifies == Last(r).verifies
    ensures "d" in Last(r').hub.devices
  {
    var r1 := Waits(r, BeatAt(0, n) + delay - Last(r).now);
    r' := BeatsOnce(r1, "d");
    OneMoreDelivered(r, r', k, delay, n);
  }

  lemma AllDelivered(r: Run, r': Run, k: nat, delay: nat, n: nat)
    requires Valid(r) && Valid(r') && Extends(r, r') && n > k && DeliveredUpTo(r, k, delay, n)
    requires Last(r').now < BeatAt(0, n) + delay
    ensures Carries(r', |r'.worlds| - 1, "d", Worst(k, delay))
  {
    forall i: nat | Arrived(Worst(k, delay), i, Last(r').now)
      ensures BeatenBy(r', |r'.worlds| - 1, "d", Worst(k, delay)(i).value)
    {
      if i >= n {
        PeriodApart(0, n, i);
      }
      BeatenLater(r, r', |r.worlds| - 1, |r'.worlds| - 1, "d", Worst(k, delay)(i).value);
    }
  }

  lemma OneMoreDelivered(r: Run, r': Run, k: nat, delay: nat, n: nat)
    requires Valid(r) && Valid(r') && Extends(r, r') && n > k && DeliveredUpTo(r, k, delay, n)
    requires BeatenBy(r', |r'.worlds| - 1, "d", BeatAt(0, n) + delay)
    ensures DeliveredUpTo(r', k, delay, n + 1)
  {
    forall i: nat | i < n + 1 && Worst(k, delay)(i).Some?
      ensures BeatenBy(r', |r'.worlds| - 1, "d", Worst(k, delay)(i).value)
    {
      if i < n {
        BeatenLater(r, r', |r.worlds| - 1, |r'.worlds| - 1, "d", Worst(k, delay)(i).value);
      }
    }
  }

  lemma JudgedLate(r: Run, t: nat, device: Device) returns (r': Run)
    requires Valid(r) && Beaten(device) && Last(r).now > FIRST_BEAT_MS + HEARTBEAT_STALE_MS
    requires Last(r).verifies == map[0 := VerifyCall(Answer(t), Removed(Asked(t), false, device))]
    ensures Valid(r') && Extends(r, r') && JudgesAt(r', |r.steps|, 0, Asked(t), device, Stale)
  {
    ThenValid(r, VerifyContinues(0));
    r' := Then(r, VerifyContinues(0));
    assert r'.worlds[|r.steps|] == Last(r) && r'.steps[|r.steps|] == VerifyContinues(0);
  }

  lemma CarriesLater(r: Run, r': Run, j: nat, k: nat, delay: nat)
    requires Valid(r) && Valid(r') && Extends(r, r') && j < |r.worlds| && Carries(r, j, "d", Worst(k, delay))
    ensures Carries(r', j, "d", Worst(k, delay))
  {
    forall i: nat | Arrived(Worst(k, delay), i, r'.worlds[j].now)
      ensures BeatenBy(r', j, "d", Worst(k, delay)(i).value)
    {
      assert r'.worlds[j] == r.worlds[j];
      BeatenLater(r, r', j, j, "d", Worst(k, delay)(i).value);
    }
  }

  lemma OnlyTheFirst(r: Run, k: nat, delay: nat)
    requires Valid(r) && Last(r).now == WorstInstant(k, delay) && BeatenBy(r, |r.worlds| - 1, "d", FIRST_BEAT_MS)
    ensures DeliveredUpTo(r, k, delay, k + 1) && Carries(r, |r.worlds| - 1, "d", Worst(k, delay))
  {
    AllDelivered(r, r, k, delay, k + 1);
  }

  lemma KeepsBeating(r: Run, j: nat, k: nat, delay: nat)
    requires Valid(r) && j < |r.worlds| && Carries(r, j, "d", Worst(k, delay)) && r.worlds[j].now >= FIRST_BEAT_MS
    ensures Beating(r, j, "d", 0, Worst(k, delay), k, delay, 0)
  {
    WorstIsAllowed(k, delay);
  }

  /** At the instant before the late beat arrives, the call is about to read the row. */
  lemma AboutToRead(k: nat, delay: nat) returns (r: Run)
    ensures Valid(r) && BeatenBy(r, |r.worlds| - 1, "d", FIRST_BEAT_MS)
    ensures Answering(Last(r), WorstInstant(k, delay), Checked(Asked(WorstInstant(k, delay)), false))
  {
    var t := WorstInstant(k, delay);
    var r0 := FirstBeat();
    var r1 := Waits(r0, t - FIRST_BEAT_MS);
    r := Answered(r1, t);
    BeatenLater(r0, r, |r0.worlds| - 1, |r.worlds| - 1, "d", FIRST_BEAT_MS);
  }

  /** And now it has read it and deleted the challenge. */
  lemma ReadStale(k: nat, delay: nat) returns (r: Run, g: nat, device: Device)
    ensures var t := WorstInstant(k, delay);
      && Valid(r) && g < |r.steps| && r.worlds[g].now == Last(r).now == t
      && ReadsAt(r, g, 0, Asked(t), device) && Beaten(device)
      && Carries(r, g, "d", Worst(k, delay)) && DeliveredUpTo(r, k, delay, k + 1)
      && "d" in Last(r).hub.devices
      && Last(r).verifies == map[0 := VerifyCall(Answer(t), Removed(Asked(t), false, device))]
  {
    var r0 := AboutToRead(k, delay);
    OnlyTheFirst(r0, k, delay);
    g := |r0.steps|;
    r, device := ReadAndDeleted(r0, WorstInstant(k, delay));
    CarriesLater(r0, r, g, k, delay);
    BeatenLater(r0, r, g, |r.worlds| - 1, "d", FIRST_BEAT_MS);
    OnlyTheFirst(r, k, delay);
    assert r.worlds[g] == Last(r0);
  }

  /**
   Whatever losses, delay and gap do not fit in the five minutes: a run in which
   the device beats no worse than that, and a call that waits no longer than the
   gap between its read and its decision judges it STALE.
   */
  lemma StaleReachable(losses: nat, delay: nat, gap: nat)
    requires PERIOD_MS * (losses + 1) + delay + gap > HEARTBEAT_STALE_MS + 1
    ensures SomeStale(losses, delay, gap)
  {
    var t := WorstInstant(losses, delay);
    var r1, g, device := ReadStale(losses, delay);
    var r2 := Delivers(r1, losses, delay, losses + 1, t + gap);
    var i := |r2.steps|;
    var r := JudgedLate(r2, t, device);
    assert r.worlds[g] == r1.worlds[g] && r.worlds[i] == Last(r2);
    CarriesLater(r1, r, g, losses, delay);
    CarriesLater(r2, r, i, losses, delay);
    KeepsBeating(r, g, losses, delay);
    KeepsBeating(r, i, losses, delay);
    WorstIsAllowed(losses, delay);
    assert ReadsAt(r, g, 0, Asked(t), device);
    assert StaleAnyway(r, g, i, 0, Asked(t), device, 0, Worst(losses, delay), losses, delay, gap, 0);
  }

  /**
   Over all runs: some device that beats with at most so many losses in a row and
   so much delay, up to its verdict, is judged STALE within the gap, exactly when
   one period more than the losses, the delay and the gap exceed the five minutes.
   */
  lemma StaleIff(losses: nat, delay: nat, gap: nat)
    ensures SomeStale(losses, delay, gap) <==> PERIOD_MS * (losses + 1) + delay + gap > HEARTBEAT_STALE_MS + 1
  {
    if PERIOD_MS * (losses + 1) + delay + gap > HEARTBEAT_STALE_MS + 1 {
      StaleReachable(losses, delay, gap);
    } else if SomeStale(losses, delay, gap) {
      var r, g, i, call, c, device, start, arrival, n :|
        StaleAnyway(r, g, i, call, c, device, start, arrival, losses, delay, gap, n);
      ConnectedNeverStale(r, g, i, call, c, device, Stale, start, arrival, losses, delay, gap, n);
      assert false;
    }
  }
}
