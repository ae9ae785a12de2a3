/** Reconnect backoff (src/client/recovery.rs) and the timing of `run_loop`
    (src/client/mod.rs): the exact rate at which a client can reconnect. */
module Backoff {
  import opened Protocol

  /** Durations count nanoseconds. */
  const SECOND := 1_000_000_000
  const INITIAL_RECONNECT_DELAY := 1 * SECOND
  const MAX_RECONNECT_DELAY := 120 * SECOND
  const HEALTHY_CONNECTION_INTERVAL := 60 * SECOND

  function Min(a: int, b: int): int {
    if a < b then a else b
  }

  function Pow2(k: nat): nat {
    if k == 0 then 1 else 2 * Pow2(k - 1)
  }

  /** The closed form: the delay after k calls since the last reset. */
  function DelayAfter(k: nat): nat {
    Min(Pow2(k), 120) * SECOND
  }

  lemma {:induction false} Pow2Monotone(j: nat, k: nat)
    requires j <= k
    ensures 1 <= Pow2(j) <= Pow2(k)
  {
    if j < k {
      Pow2Monotone(j, k - 1);
    } else if j > 0 {
      Pow2Monotone(j - 1, j - 1);
    }
  }

  /** Between resets the delays never shrink, and from the eighth on they are 120 seconds. */
  lemma DelaysGrowToTheCap(j: nat, k: nat)
    requires j <= k
    ensures INITIAL_RECONNECT_DELAY <= DelayAfter(j) <= DelayAfter(k) <= MAX_RECONNECT_DELAY
    ensures DelayAfter(k) == MAX_RECONNECT_DELAY <==> k >= 7
  {
    Pow2Monotone(j, k);
    assert Pow2(6) == 64 && Pow2(7) == 128;
    if k >= 7 {
      Pow2Monotone(7, k);
    } else {
      Pow2Monotone(k, 6);
    }
  }

  class Backoff {
    var delay: nat
    ghost var calls: nat  // since the last reset

    ghost predicate Valid()
      reads this
    {
      delay == DelayAfter(calls)
    }

    constructor ()
      ensures Valid() && calls == 0
    {
      delay := INITIAL_RECONNECT_DELAY;
      calls := 0;
    }

    /** `saturating_mul` cannot saturate below the cap of 120 seconds. */
    method NextDelay() returns (d: nat)
      requires Valid()
      modifies this
      ensures Valid() && calls == old(calls) + 1
      ensures d == DelayAfter(old(calls))
    {
      d := delay;
      delay := Min(delay * 2, MAX_RECONNECT_DELAY);
      calls := calls + 1;
    }

    method Reset()
      modifies this
      ensures Valid() && calls == 0
    {
      delay := INITIAL_RECONNECT_DELAY;
      calls := 0;
    }

    method ResetIfHealthy(connectedFor: nat)
      requires Valid()
      modifies this
      ensures Valid()
      ensures calls == if connectedFor >= HEALTHY_CONNECTION_INTERVAL then 0 else old(calls)
    {
      if connectedFor >= HEALTHY_CONNECTION_INTERVAL {
        Reset();
      }
    }
  }

  // ---- run_loop on a clock ----

  /** What the environment does in one iteration. `online` is the time from
      `connected_at` to the read of its `elapsed()`, if the session got that far. */
  datatype Iteration = Iteration(
    shutdownAtTop: bool,
    before: nat,
    online: Option<nat>,
    closing: nat,
    shutdownAfter: bool,
    failure: Option<Error>,
    interrupted: Option<nat>,  // shutdown cancels the sleep after this long
    oversleep: nat)

  /** `sleeps` counts completed backoff sleeps. */
  datatype Timing = Timing(clock: nat, calls: nat, sleeps: nat, running: bool)

  const BEGIN := Timing(0, 0, 0, true)

  function OnlineTime(it: Iteration): nat {
    if it.online.Some? then it.online.value else 0
  }

  predicate Healthy(it: Iteration) {
    it.online.Some? && it.online.value >= HEALTHY_CONNECTION_INTERVAL
  }

  predicate GivesUp(it: Iteration) {
    it.shutdownAfter || (it.failure.Some? && !ShouldRetryConnection(it.failure.value))
  }

  function After(s: Timing, it: Iteration): Timing {
    if !s.running then s
    else if it.shutdownAtTop then s.(running := false)
    else
      var calls := if Healthy(it) then 0 else s.calls;
      var clock := s.clock + it.before + OnlineTime(it) + it.closing;
      if GivesUp(it) then Timing(clock, calls, s.sleeps, false)
      else if it.interrupted.Some? then Timing(clock + it.interrupted.value, calls + 1, s.sleeps, false)
      else Timing(clock + DelayAfter(calls) + it.oversleep, calls + 1, s.sleeps + 1, true)
  }

  /** The timing of the loop after these iterations. */
  function AfterAll(its: seq<Iteration>): Timing {
    if its == [] then BEGIN else After(AfterAll(its[..|its| - 1]), its[|its| - 1])
  }

  method RunLoop(its: seq<Iteration>) returns (clock: nat, sleeps: nat, running: bool)
    ensures clock == AfterAll(its).clock && sleeps == AfterAll(its).sleeps && running == AfterAll(its).running
  {
    var backoff := new Backoff();
    clock, sleeps, running := 0, 0, true;
    var i := 0;
    while i < |its| && running
      invariant i <= |its| && backoff.Valid() && fresh(backoff)
      invariant AfterAll(its[..i]) == Timing(clock, backoff.calls, sleeps, running)
      decreases |its| - i, running
    {
      var it := its[i];
      assert its[..i + 1][..i] == its[..i];
      i := i + 1;
      if it.shutdownAtTop {
        running := false;
      } else {
        clock := clock + it.before;
        if it.online.Some? {
          clock := clock + it.online.value;
          backoff.ResetIfHealthy(it.online.value);
        }
        clock := clock + it.closing;
        if it.shutdownAfter {
          running := false;
        } else if it.failure.Some? && !ShouldRetryConnection(it.failure.value) {
          running := false;
        } else {
          var delay := backoff.NextDelay();
          if it.interrupted.Some? {
            clock := clock + it.interrupted.value;
            running := false;
          } else {
            clock := clock + delay + it.oversleep;
            sleeps := sleeps + 1;
          }
        }
      }
    }
    if i < |its| {
      StaysStopped(its, i);
    }
    assert its[..|its|] == its;
  }

  lemma {:induction false} StaysStopped(its: seq<Iteration>, i: nat)
    requires i <= |its| && !AfterAll(its[..i]).running
    ensures AfterAll(its) == AfterAll(its[..i])
  {
    if i < |its| {
      assert its[..|its| - 1][..i] == its[..i];
      StaysStopped(its[..|its| - 1], i);
    } else {
      assert its[..i] == its;
    }
  }

  // ---- The reconnect rate ----

  /** A potential on the calls since the last reset, and a slope, in fifths of a second:
      each sleep is paid for by its delay and the potential it uses up, and a healthy
      session refills the potential. */
  predicate Pays(table: seq<nat>, slope: nat) {
    && |table| == 8
    && (forall i | 0 <= i < 8 ::
          table[i] + 5 * [1, 2, 4, 8, 16, 32, 64, 120][i] >= table[if i < 7 then i + 1 else 7] + slope)
    && (forall i | 0 <= i < 8 :: table[i] + 300 >= table[0])
  }

  function Potential(table: seq<nat>, calls: nat): nat
    requires |table| == 8
  {
    table[if calls < 7 then calls else 7]
  }

  lemma PotentialPays(table: seq<nat>, slope: nat, calls: nat)
    requires Pays(table, slope)
    ensures Potential(table, calls) * SECOND + 5 * DelayAfter(calls) >=
              Potential(table, calls + 1) * SECOND + slope * SECOND
  {
    var i := if calls < 7 then calls else 7;
    assert table[i] + 5 * [1, 2, 4, 8, 16, 32, 64, 120][i] >= table[if i < 7 then i + 1 else 7] + slope;
    assert Pow2(2) == 4 && Pow2(3) == 8 && Pow2(4) == 16 && Pow2(5) == 32 && Pow2(6) == 64;
    DelaysGrowToTheCap(calls, calls);
  }

  lemma {:induction false} RateInvariant(table: seq<nat>, slope: nat, its: seq<Iteration>)
    requires Pays(table, slope)
    ensures var s := AfterAll(its);
      5 * s.clock + table[0] * SECOND >= slope * s.sleeps * SECOND +
          (if s.running then Potential(table, s.calls) * SECOND else 0)
  {
    if its != [] {
      RateInvariant(table, slope, its[..|its| - 1]);
      var s, it := AfterAll(its[..|its| - 1]), its[|its| - 1];
      PotentialPays(table, slope, if Healthy(it) then 0 else s.calls);
      assert table[if s.calls < 7 then s.calls else 7] + 300 >= table[0];
      assert slope * (s.sleeps + 1) * SECOND == slope * s.sleeps * SECOND + slope * SECOND;
    }
  }

  lemma SharpRate(its: seq<Iteration>)
    ensures 5 * AfterAll(its).clock >= 91 * AfterAll(its).sleeps * SECOND - 300 * SECOND
  {
    RateInvariant([300, 214, 133, 62, 11, 0, 69, 298], 91, its);
  }

  lemma PlainRate(its: seq<Iteration>)
    ensures AfterAll(its).clock >= 18 * AfterAll(its).sleeps * SECOND - 59 * SECOND
  {
    RateInvariant([295, 210, 130, 60, 10, 0, 70, 300], 90, its);
  }

  /** However failures, short and healthy sessions are mixed, N completed sleeps take
      at least 18.2 N - 60 seconds, and at least 18 N - 59. */
  lemma ReconnectRate(its: seq<Iteration>)
    ensures 5 * AfterAll(its).clock >= 91 * AfterAll(its).sleeps * SECOND - 300 * SECOND
    ensures AfterAll(its).clock >= 18 * AfterAll(its).sleeps * SECOND - 59 * SECOND
  {
    SharpRate(its);
    PlainRate(its);
  }

  const FAILS := Iteration(false, 0, None, 0, false, Some(ConnectionClosed), None, 0)
  const JUST_HEALTHY := FAILS.(online := Some(HEALTHY_CONNECTION_INTERVAL))

  /** Five reconnects in a row, then a session that is healthy by the skin of its teeth. */
  function Storm(rounds: nat): seq<Iteration> {
    if rounds == 0 then []
    else Storm(rounds - 1) + [if rounds == 1 then FAILS else JUST_HEALTHY] + [FAILS, FAILS, FAILS, FAILS]
  }

  /** While it runs, the loop sleeps exactly after an attempt whose result is recoverable,
      unless shutdown is found cancelled before it, after it or during the sleep. */
  lemma SleepsExactly(its: seq<Iteration>, it: Iteration)
    requires AfterAll(its).running
    ensures var sleeps := !it.shutdownAtTop && !it.shutdownAfter && Recoverable(it.failure) && it.interrupted.None?;
      AfterAll(its + [it]).sleeps == AfterAll(its).sleeps + (if sleeps then 1 else 0) &&
      AfterAll(its + [it]).running == sleeps
  {
    assert (its + [it])[..|its|] == its;
  }

  lemma AfterOneMore(its: seq<Iteration>, it: Iteration)
    ensures AfterAll(its + [it]) == After(AfterAll(its), it)
  {
    assert (its + [it])[..|its|] == its;
  }

  /** What one round of five does to the clock and to the delay. */
  function AfterRound(s: Timing, first: Iteration): Timing {
    After(After(After(After(After(s, first), FAILS), FAILS), FAILS), FAILS)
  }

  lemma StormIsRounds(rounds: nat)
    requires rounds >= 1
    ensures AfterAll(Storm(rounds)) ==
              AfterRound(AfterAll(Storm(rounds - 1)), if rounds == 1 then FAILS else JUST_HEALTHY)
  {
    var before := Storm(rounds - 1);
    var first := if rounds == 1 then FAILS else JUST_HEALTHY;
    AfterOneMore(before, first);
    AfterOneMore(before + [first], FAILS);
    AfterOneMore(before + [first] + [FAILS], FAILS);
    AfterOneMore(before + [first] + [FAILS] + [FAILS], FAILS);
    AfterOneMore(before + [first] + [FAILS] + [FAILS] + [FAILS], FAILS);
    assert Storm(rounds) == before + [first] + [FAILS] + [FAILS] + [FAILS] + [FAILS];
  }

  lemma RoundCosts(s: Timing, first: Iteration)
    requires s.running && (first == JUST_HEALTHY || (first == FAILS && s.calls == 0))
    ensures AfterRound(s, first) ==
              s.(clock := s.clock + (if first == FAILS then 31 else 91) * SECOND, calls := 5, sleeps := s.sleeps + 5)
  {
    assert Pow2(2) == 4 && Pow2(3) == 8 && Pow2(4) == 16;
  }

  /** The rate is exact: for every multiple of five there is a run that attains it. */
  lemma {:induction false} RateIsTight(rounds: nat)
    requires rounds >= 1
    ensures AfterAll(Storm(rounds)) == Timing((91 * rounds - 60) * SECOND, 5, 5 * rounds, true)
    ensures 5 * AfterAll(Storm(rounds)).clock == 91 * AfterAll(Storm(rounds)).sleeps * SECOND - 300 * SECOND
  {
    if rounds > 1 {
      RateIsTight(rounds - 1);
    }
    StormIsRounds(rounds);
    RoundCosts(AfterAll(Storm(rounds - 1)), if rounds == 1 then FAILS else JUST_HEALTHY);
  }
}
