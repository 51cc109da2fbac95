/**
  The worker's heartbeat: when it stops trusting its lease, against when the database
  lets another worker claim the run. All times are in one unit on one clock.
*/
module Heartbeat {
  import opened Options
  import opened RunStatus
  import Lease

  /** `job_lease_seconds` and `job_heartbeat_seconds`; nothing relates the two. */
  datatype Config = Config(lease: nat, beat: nat)

  /** `max(0, lease - heartbeat)`. */
  function Tolerance(cfg: Config): nat {
    if cfg.lease > cfg.beat then cfg.lease - cfg.beat else 0
  }

  /**
    One renewal attempt, made after one sleep: what the run itself wrote in the meantime,
    how long the attempt took before and after its statement, and whether it ended in a
    transient error, with the statement applied or not.
  */
  datatype Beat = Beat(mark: Option<Status>, before: nat, after: nat, error: bool, applied: bool) {
    function Took(): nat {
      before + after
    }
  }

  datatype Phase = Beating | Lost | GaveUp

  /** `renewedAt` is the database time of the last confirmed renewal, `took` the last latency. */
  datatype Watch = Watch(row: Lease.Row, now: int, confirmedAt: int, renewedAt: int, took: nat, phase: Phase)

  /** The graph's own final write ends RUNNING; it writes neither PENDING nor RUNNING. */
  function Marked(row: Lease.Row, mark: Option<Status>): Lease.Row {
    if mark.Some? && mark.value !in {Pending, Running}
    then Lease.MarkRow(row, mark.value, mark.value in TERMINAL) else row
  }

  /** A claim made at `claimed`, whose heartbeat starts at `started`. */
  function Claimed(cfg: Config, row: Lease.Row, worker: Lease.WorkerId, claimed: int, started: int): Watch {
    Watch(Lease.ClaimRow(row, worker, claimed, cfg.lease), started, started, claimed, 0, Beating)
  }

  function Beaten(cfg: Config, claim: Lease.Claim, s: Watch, b: Beat): Watch {
    if s.phase != Beating then s
    else
      var moment := s.now + cfg.beat + b.before;
      var end := moment + b.after;
      var row := Marked(s.row, b.mark);
      var owned := Lease.Names(row, claim.worker, Some(claim.attempt)) && Lease.Leased(row, moment);
      var row' := if owned && (!b.error || b.applied) then Lease.RenewRow(row, moment, cfg.lease) else row;
      if b.error then
        Watch(row', end, s.confirmedAt, s.renewedAt, b.Took(),
              if end - s.confirmedAt < Tolerance(cfg) then Beating else GaveUp)
      else if owned then Watch(row', end, end, moment, b.Took(), Beating)
      else Watch(row', end, s.confirmedAt, s.renewedAt, b.Took(), Lost)
  }

  function Beats(cfg: Config, claim: Lease.Claim, s: Watch, beats: seq<Beat>): Watch {
    if beats == [] then s
    else Beaten(cfg, claim, Beats(cfg, claim, s, beats[..|beats| - 1]), beats[|beats| - 1])
  }

  lemma {:induction false} StoppedStays(cfg: Config, claim: Lease.Claim, s: Watch, beats: seq<Beat>, i: nat)
    requires i <= |beats| && Beats(cfg, claim, s, beats[..i]).phase != Beating
    ensures Beats(cfg, claim, s, beats) == Beats(cfg, claim, s, beats[..i])
    decreases |beats| - i
  {
    if i < |beats| {
      assert beats[..i + 1][..i] == beats[..i];
      StoppedStays(cfg, claim, s, beats, i + 1);
    } else {
      assert beats[..i] == beats;
    }
  }

  /** `_heartbeat`: the loop and its one local variable that matters, `confirmed_at`. */
  method Run(cfg: Config, claim: Lease.Claim, s: Watch, beats: seq<Beat>)
    returns (phase: Phase, stoppedAt: int, row: Lease.Row)
    requires s.phase == Beating && s.now == s.confirmedAt
    ensures var end := Beats(cfg, claim, s, beats); phase == end.phase && stoppedAt == end.now && row == end.row
  {
    var tolerance := if cfg.lease > cfg.beat then cfg.lease - cfg.beat else 0;
    var confirmedAt := s.confirmedAt;
    phase, stoppedAt, row := Beating, s.now, s.row;
    var i := 0;
    while i < |beats|
      invariant 0 <= i <= |beats| && phase == Beating
      invariant var w := Beats(cfg, claim, s, beats[..i]);
                w.phase == Beating && w.now == stoppedAt && w.confirmedAt == confirmedAt && w.row == row
    {
      var b := beats[i];
      assert beats[..i + 1][..i] == beats[..i];
      stoppedAt := stoppedAt + cfg.beat + b.before;
      row := Marked(row, b.mark);
      var owned := Lease.Names(row, claim.worker, Some(claim.attempt)) && Lease.Leased(row, stoppedAt);
      if owned && (!b.error || b.applied) {
        row := Lease.RenewRow(row, stoppedAt, cfg.lease);
      }
      stoppedAt := stoppedAt + b.after;
      i := i + 1;
      if b.error {
        if !(stoppedAt - confirmedAt < tolerance) {
          StoppedStays(cfg, claim, s, beats, i);
          return GaveUp, stoppedAt, row;
        }
      } else if !owned {
        StoppedStays(cfg, claim, s, beats, i);
        return Lost, stoppedAt, row;
      } else {
        confirmedAt := stoppedAt;
      }
    }
    assert beats[..|beats|] == beats;
  }

  // ------------------------------------------------------------------- the bound

  /** While the row is RUNNING its lease covers the last confirmation, and time has not run far past it. */
  ghost predicate WatchOk(cfg: Config, claim: Lease.Claim, s: Watch) {
    && s.renewedAt <= s.confirmedAt <= s.now
    && (s.row.status == Running ==>
          && Lease.Names(s.row, claim.worker, Some(claim.attempt))
          && s.row.lease.Some? && s.row.lease.value >= s.renewedAt + cfg.lease)
    && s.row.status != Pending
    && (s.phase == Beating ==> s.now == s.confirmedAt || s.now - s.confirmedAt < Tolerance(cfg))
    && (s.phase == GaveUp ==> s.now - s.confirmedAt >= Tolerance(cfg))
    && s.now - s.confirmedAt < cfg.lease + s.took
  }

  lemma BeatenOk(cfg: Config, claim: Lease.Claim, s: Watch, b: Beat)
    requires cfg.beat < cfg.lease && WatchOk(cfg, claim, s)
    ensures WatchOk(cfg, claim, Beaten(cfg, claim, s, b))
  {
  }

  lemma {:induction false} BeatsOk(cfg: Config, claim: Lease.Claim, s: Watch, beats: seq<Beat>)
    requires cfg.beat < cfg.lease && WatchOk(cfg, claim, s)
    ensures WatchOk(cfg, claim, Beats(cfg, claim, s, beats))
  {
    if beats != [] {
      BeatsOk(cfg, claim, s, beats[..|beats| - 1]);
      BeatenOk(cfg, claim, Beats(cfg, claim, s, beats[..|beats| - 1]), beats[|beats| - 1]);
    }
  }

  /**
    Whatever the renewals do, at every moment up to and including the one at which the
    heartbeat stops, less than a lease and the latency of the last attempt have passed
    since the last confirmation; and while the run goes on, its row's lease has run out by
    less than the lag of that confirmation plus that latency.
  */
  lemma StopsNearTheDeadline(cfg: Config, row: Lease.Row, claim: Lease.Claim, claimed: int, started: int,
                             beats: seq<Beat>)
    requires cfg.beat < cfg.lease && claimed <= started && claim.attempt == row.attempts + 1
    ensures var s := Beats(cfg, claim, Claimed(cfg, row, claim.worker, claimed, started), beats);
            && (s.row.status == Running ==>
                  s.row.lease.Some? && s.now < s.row.lease.value + (s.confirmedAt - s.renewedAt) + s.took)
            && s.now < s.confirmedAt + cfg.lease + s.took
            && (s.phase == GaveUp ==> s.now - s.confirmedAt >= Tolerance(cfg))
  {
    BeatsOk(cfg, claim, Claimed(cfg, row, claim.worker, claimed, started), beats);
  }

  // --------------------------------------------------------- instantaneous attempts

  predicate Instant(beats: seq<Beat>) {
    forall i :: 0 <= i < |beats| ==> beats[i].Took() == 0
  }

  lemma {:induction false} InstantBeats(cfg: Config, claim: Lease.Claim, s: Watch, beats: seq<Beat>)
    requires Instant(beats) && s.renewedAt == s.confirmedAt && s.took == 0
    ensures var w := Beats(cfg, claim, s, beats); w.renewedAt == w.confirmedAt && w.took == 0
  {
    if beats != [] {
      InstantBeats(cfg, claim, s, beats[..|beats| - 1]);
    }
  }

  /** No other worker can claim the run at any moment at which this one still works on it. */
  ghost predicate SafeUntilItStops(cfg: Config, row: Lease.Row, claim: Lease.Claim, claimed: int) {
    forall beats: seq<Beat>, maxAttempts: nat :: Instant(beats) ==>
      var s := Beats(cfg, claim, Claimed(cfg, row, claim.worker, claimed, claimed), beats);
      !Lease.Eligible(s.row, s.now, maxAttempts)
  }

  /**
    With instantaneous attempts the worker stops before any other claim is enabled, for
    every sequence of renewals and errors, if and only if the heartbeat interval is
    shorter than the lease. The settings allow both.
  */
  lemma SafeExactlyWhenBeatIsShorter(cfg: Config, row: Lease.Row, claim: Lease.Claim, claimed: int)
    requires claim.attempt == row.attempts + 1
    ensures SafeUntilItStops(cfg, row, claim, claimed) <==> cfg.beat < cfg.lease
  {
    var start := Claimed(cfg, row, claim.worker, claimed, claimed);
    if cfg.beat < cfg.lease {
      forall beats: seq<Beat>, maxAttempts: nat | Instant(beats)
        ensures !Lease.Eligible(Beats(cfg, claim, start, beats).row, Beats(cfg, claim, start, beats).now, maxAttempts)
      {
        BeatsOk(cfg, claim, start, beats);
        InstantBeats(cfg, claim, start, beats);
      }
    } else {
      var late := [Beat(None, 0, 0, true, false)];
      assert late[..0] == [] && Beats(cfg, claim, start, []) == start;
      var s := Beats(cfg, claim, start, late);
      assert Instant(late) && Lease.Eligible(s.row, s.now, claim.attempt + 1);
    }
  }

  /** A healthy run is never aborted: while the run itself is not over, an answered renewal is confirmed. */
  lemma {:induction false} NeverLostByWaiting(cfg: Config, row: Lease.Row, claim: Lease.Claim, claimed: int,
                                              beats: seq<Beat>)
    requires cfg.beat < cfg.lease && claim.attempt == row.attempts + 1
    requires Instant(beats) && forall i :: 0 <= i < |beats| ==> beats[i].mark.None?
    ensures var s := Beats(cfg, claim, Claimed(cfg, row, claim.worker, claimed, claimed), beats);
            s.row.status == Running && s.phase != Lost
  {
    if beats != [] {
      var start, earlier := Claimed(cfg, row, claim.worker, claimed, claimed), beats[..|beats| - 1];
      NeverLostByWaiting(cfg, row, claim, claimed, earlier);
      BeatsOk(cfg, claim, start, earlier);
      InstantBeats(cfg, claim, start, earlier);
    }
  }

  /** Without a single error the heartbeat beats for ever; with errors it stops only once the tolerance is used up. */
  lemma {:induction false} AllAnsweredNeverStops(cfg: Config, row: Lease.Row, claim: Lease.Claim, claimed: int,
                                                 beats: seq<Beat>)
    requires cfg.beat < cfg.lease && claim.attempt == row.attempts + 1
    requires Instant(beats) && forall i :: 0 <= i < |beats| ==> beats[i].mark.None? && !beats[i].error
    ensures var s := Beats(cfg, claim, Claimed(cfg, row, claim.worker, claimed, claimed), beats);
            s.phase == Beating && s.now == claimed + |beats| * cfg.beat
  {
    if beats != [] {
      AllAnsweredNeverStops(cfg, row, claim, claimed, beats[..|beats| - 1]);
      NeverLostByWaiting(cfg, row, claim, claimed, beats);
    }
  }

  /** How long the database has been ahead of the worker when the i-th sleep begins. */
  function Lag(first: int, beats: seq<Beat>, i: nat): int
    requires i <= |beats|
  {
    if i == 0 then first else beats[i - 1].after
  }

  /** The i-th renewal reaches the database before the lease of the one before has run out. */
  predicate InTime(cfg: Config, first: int, beats: seq<Beat>, i: nat)
    requires i < |beats|
  {
    Lag(first, beats, i) + cfg.beat + beats[i].before < cfg.lease
  }

  ghost predicate Confirmed(cfg: Config, claim: Lease.Claim, s: Watch, lag: int) {
    && s.phase == Beating && s.now == s.renewedAt + lag
    && s.row.status == Running && s.row.lease == Some(s.renewedAt + cfg.lease)
    && Lease.Names(s.row, claim.worker, Some(claim.attempt))
  }

  predicate AllInTime(cfg: Config, first: int, beats: seq<Beat>) {
    forall i :: 0 <= i < |beats| ==> InTime(cfg, first, beats, i)
  }

  lemma InTimeSoFar(cfg: Config, first: int, beats: seq<Beat>)
    requires beats != []
    ensures AllInTime(cfg, first, beats)
            <==> AllInTime(cfg, first, beats[..|beats| - 1]) && InTime(cfg, first, beats, |beats| - 1)
  {
    var earlier := beats[..|beats| - 1];
    assert forall i :: 0 <= i < |earlier| ==> (InTime(cfg, first, earlier, i) <==> InTime(cfg, first, beats, i));
  }

  lemma AnsweredBeat(cfg: Config, claim: Lease.Claim, s: Watch, b: Beat, lag: int)
    requires Confirmed(cfg, claim, s, lag) && b.mark.None? && !b.error
    ensures if lag + cfg.beat + b.before < cfg.lease
            then Confirmed(cfg, claim, Beaten(cfg, claim, s, b), b.after)
            else Beaten(cfg, claim, s, b).phase == Lost
  {
  }

  /**
    With whatever latencies and settings: a run that is not over and whose renewals are all
    answered keeps its heartbeat if and only if every renewal is in time.
  */
  lemma {:induction false} AnsweredKeepsExactlyInTime(
    cfg: Config, row: Lease.Row, claim: Lease.Claim, claimed: int, started: int, beats: seq<Beat>)
    requires claim.attempt == row.attempts + 1
    requires forall i :: 0 <= i < |beats| ==> beats[i].mark.None? && !beats[i].error
    ensures var s := Beats(cfg, claim, Claimed(cfg, row, claim.worker, claimed, started), beats);
            if AllInTime(cfg, started - claimed, beats)
            then Confirmed(cfg, claim, s, Lag(started - claimed, beats, |beats|))
            else s.phase == Lost
  {
    if beats != [] {
      var earlier := beats[..|beats| - 1];
      AnsweredKeepsExactlyInTime(cfg, row, claim, claimed, started, earlier);
      InTimeSoFar(cfg, started - claimed, beats);
      var s := Beats(cfg, claim, Claimed(cfg, row, claim.worker, claimed, started), earlier);
      if AllInTime(cfg, started - claimed, earlier) {
        assert Lag(started - claimed, earlier, |earlier|) == Lag(started - claimed, beats, |earlier|);
        AnsweredBeat(cfg, claim, s, beats[|beats| - 1], Lag(started - claimed, beats, |earlier|));
      }
    }
  }
}
