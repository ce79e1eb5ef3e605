/** The agent's heartbeat timer against the five-minute rule. */
module Heartbeats {
  import opened Prelude
  import opened Entities
  import opened Policy
  import opened Interleaved
  import opened CallHistory
  import opened Safety

  const FIRST_BEAT_MS: nat := 30_000
  const PERIOD_MS: nat := 60_000

  /** When the timer started at `start` fires for the `i`-th time. */
  function BeatAt(start: nat, i: nat): nat {
    start + FIRST_BEAT_MS + PERIOD_MS * i
  }

  /** Beat `i` arrives at the hub at `arrival(i)`, if it arrives, at most `delay` after it was sent. */
  ghost predicate Timely(start: nat, arrival: nat -> Option<nat>, delay: nat) {
    forall i: nat :: arrival(i).Some? ==> BeatAt(start, i) <= arrival(i).value <= BeatAt(start, i) + delay
  }

  ghost predicate ArrivesWithin(arrival: nat -> Option<nat>, i: nat, k: nat) {
    exists j: nat :: i <= j <= i + k && arrival(j).Some?
  }

  /** Never more than `k` beats in a row are lost. */
  ghost predicate FewLosses(arrival: nat -> Option<nat>, k: nat) {
    forall i: nat :: ArrivesWithin(arrival, i, k)
  }

  /** The same of the beats sent so long before `t` that they have arrived by then if at all. */
  ghost predicate FewLossesBy(start: nat, arrival: nat -> Option<nat>, k: nat, delay: nat, t: nat) {
    forall i: nat :: BeatAt(start, i + k) + delay <= t ==> ArrivesWithin(arrival, i, k)
  }

  predicate Arrived(arrival: nat -> Option<nat>, i: nat, t: nat) {
    arrival(i).Some? && arrival(i).value <= t
  }

  /** Some beat that has arrived by `t` is still fresh `gap` later. */
  ghost predicate Fresh(arrival: nat -> Option<nat>, t: nat, gap: nat) {
    exists i: nat :: Arrived(arrival, i, t) && t + gap - arrival(i).value <= HEARTBEAT_STALE_MS
  }

  /** From the first arrival on, what has arrived by any instant is fresh for the next `gap`. */
  ghost predicate AlwaysFresh(k: nat, delay: nat, gap: nat) {
    forall start: nat, arrival: nat -> Option<nat>, t: nat, i: nat ::
      Timely(start, arrival, delay) && FewLosses(arrival, k) && Arrived(arrival, i, t) ==> Fresh(arrival, t, gap)
  }

  lemma PeriodApart(start: nat, i: nat, j: nat)
    requires i <= j
    ensures BeatAt(start, j) - BeatAt(start, i) == PERIOD_MS * (j - i)
  {
  }

  /** The last beat that must have arrived by `t` if it was not lost. */
  lemma LastDue(start: nat, delay: nat, t: nat) returns (n: nat)
    requires t >= BeatAt(start, 0) + delay
    ensures BeatAt(start, n) + delay <= t < BeatAt(start, n + 1) + delay
  {
    n := (t - start - FIRST_BEAT_MS - delay) / PERIOD_MS;
  }

  lemma FreshIfSlack(start: nat, arrival: nat -> Option<nat>, k: nat, delay: nat, gap: nat, t: nat, i: nat)
    requires PERIOD_MS * (k + 1) + delay + gap <= HEARTBEAT_STALE_MS + 1
    requires Timely(start, arrival, delay) && FewLossesBy(start, arrival, k, delay, t) && Arrived(arrival, i, t)
    ensures Fresh(arrival, t, gap)
  {
    PeriodApart(start, 0, i);
    if t < BeatAt(start, 0) + delay {
      assert t + gap - arrival(i).value <= HEARTBEAT_STALE_MS;
    } else {
      var n := LastDue(start, delay, t);
      PeriodApart(start, 0, n + 1);
      if n < k {
        assert t + gap - arrival(i).value <= HEARTBEAT_STALE_MS;
      } else {
        assert BeatAt(start, (n - k) + k) + delay <= t;
        assert ArrivesWithin(arrival, n - k, k);
        var j: nat :| n - k <= j <= n - k + k && arrival(j).Some?;
        PeriodApart(start, j, n + 1);
        PeriodApart(start, j, n);
        assert Arrived(arrival, j, t);
      }
    }
  }

  /** Beat 0 at once, then `k` beats lost, then every beat as late as allowed. */
  function Worst(k: nat, delay: nat): nat -> Option<nat> {
    (i: nat) => if i == 0 then Some(BeatAt(0, 0)) else if i <= k then None else Some(BeatAt(0, i) + delay)
  }

  lemma WorstIsAllowed(k: nat, delay: nat)
    ensures Timely(0, Worst(k, delay), delay) && FewLosses(Worst(k, delay), k)
  {
    var arrival := Worst(k, delay);
    forall i: nat
      ensures ArrivesWithin(arrival, i, k)
    {
      if 0 < i <= k {
        assert arrival(k + 1).Some?;
      } else {
        assert arrival(i).Some?;
      }
    }
  }

  /** The instant before the first beat after the losses arrives. */
  function WorstInstant(k: nat, delay: nat): nat {
    BeatAt(0, k + 1) + delay - 1
  }

  lemma WorstGoesStale(k: nat, delay: nat, gap: nat)
    requires PERIOD_MS * (k + 1) + delay + gap > HEARTBEAT_STALE_MS + 1
    ensures !AlwaysFresh(k, delay, gap)
  {
    var arrival := Worst(k, delay);
    WorstIsAllowed(k, delay);
    var t := WorstInstant(k, delay);
    assert Arrived(arrival, 0, t);
    forall i: nat | i > k
      ensures BeatAt(0, i) + delay > t
    {
      PeriodApart(0, k + 1, i);
    }
    assert !Fresh(arrival, t, gap);
  }

  /**
   Exactly when one period more than the losses, plus the delay, plus the gap
   between looking and judging, fits in the five minutes is a connected agent's
   latest beat always fresh enough. Ages are whole milliseconds and the rule is a
   strict comparison, hence the one.
   */
  lemma NeverStaleIff(k: nat, delay: nat, gap: nat)
    ensures AlwaysFresh(k, delay, gap) <==> PERIOD_MS * (k + 1) + delay + gap <= HEARTBEAT_STALE_MS + 1
  {
    if PERIOD_MS * (k + 1) + delay + gap <= HEARTBEAT_STALE_MS + 1 {
      forall start: nat, arrival: nat -> Option<nat>, t: nat, i: nat |
        Timely(start, arrival, delay) && FewLosses(arrival, k) && Arrived(arrival, i, t)
        ensures Fresh(arrival, t, gap)
      {
        FreshIfSlack(start, arrival, k, delay, gap, t, i);
      }
    } else {
      WorstGoesStale(k, delay, gap);
    }
  }

  // ---- On the hub ----

  /** In the run, every beat that has arrived by the world `j` was a heartbeat step for the enrolled device `d`. */
  ghost predicate Carries(r: Run, j: nat, d: string, arrival: nat -> Option<nat>)
    requires Valid(r) && j < |r.worlds|
  {
    forall i: nat :: Arrived(arrival, i, r.worlds[j].now) ==> BeatenBy(r, j, d, arrival(i).value)
  }

  ghost predicate BeatenBy(r: Run, j: nat, d: string, at: nat)
    requires Valid(r) && j < |r.worlds|
  {
    exists m: nat :: m < j && r.steps[m] == Beats(d) && r.worlds[m].now == at && d in r.worlds[m].hub.devices
  }

  /** Whatever happens after a heartbeat, the device's row stays at least that recent. */
  lemma BeatRemembered(r: Run, j: nat, d: string, at: nat)
    requires Valid(r) && j < |r.worlds| && BeatenBy(r, j, d, at)
    ensures d in r.worlds[j].hub.devices
    ensures var beat := r.worlds[j].hub.devices[d].lastHeartbeat; beat.Some? && at <= beat.value <= r.worlds[j].now
  {
    var m: nat :| m < j && r.steps[m] == Beats(d) && r.worlds[m].now == at && d in r.worlds[m].hub.devices;
    HubAt(r, m);
    HeartbeatsForward(r, m + 1, j, d);
  }

  /** What a verdict rests on: a call reads the device row at step `g` and decides at step `i`, at most `gap` later. */
  ghost predicate Observed(r: Run, g: nat, i: nat, call: nat, c: Challenge, device: Device,
                           status: TrustStatus, gap: nat) {
    && Valid(r) && g < i && ReadsAt(r, g, call, c, device) && JudgesAt(r, i, call, c, device, status)
    && r.worlds[i].now <= r.worlds[g].now + gap
  }

  /** How the device has beaten by the moment `g`: on schedule, few losses, and at least one arrival. */
  ghost predicate Beating(r: Run, g: nat, d: string, start: nat, arrival: nat -> Option<nat>,
                          losses: nat, delay: nat, n: nat)
    requires Valid(r) && g < |r.worlds|
  {
    && Carries(r, g, d, arrival) && Timely(start, arrival, delay)
    && FewLossesBy(start, arrival, losses, delay, r.worlds[g].now) && Arrived(arrival, n, r.worlds[g].now)
  }

  /**
   A device whose connected agent beats like this up to the moment a call reads
   its row is not judged STALE by that call, whatever else runs in between, if the
   gap between reading and judging fits as well.
   */
  lemma ConnectedNeverStale(r: Run, g: nat, i: nat, call: nat, c: Challenge, device: Device, status: TrustStatus,
                            start: nat, arrival: nat -> Option<nat>, losses: nat, delay: nat, gap: nat, n: nat)
    requires Observed(r, g, i, call, c, device, status, gap)
    requires Beating(r, g, c.deviceId, start, arrival, losses, delay, n)
    requires PERIOD_MS * (losses + 1) + delay + gap <= HEARTBEAT_STALE_MS + 1
    ensures status != Stale
  {
    var t := r.worlds[g].now;
    FreshIfSlack(start, arrival, losses, delay, gap, t, n);
    var m: nat :| Arrived(arrival, m, t) && t + gap - arrival(m).value <= HEARTBEAT_STALE_MS;
    BeatRemembered(r, g, c.deviceId, arrival(m).value);
    JudgedBy(r, i, call, c, device, status);
  }
}
