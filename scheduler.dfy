/** The battle budget loop: `runNumberOfBattles` launches battles in waves of at most
    `simultaneousBattles`, counting down `battlesToRun`, until the budget is spent or
    `stopRunningBattles` has raised the stop flag. A battle itself is abstract here:
    launching one is counted, and what it does is the `RunBattle` of the prompter. */
module Scheduler {
  import opened Wrappers
  import opened Settings

  /** The number of battles a wave launches: `min(simultaneousBattles, battlesToRun)`,
      and none when that is not positive (an array of non-positive length is empty). */
  function WaveSize(simultaneous: nat, battlesToRun: int): (k: nat)
    ensures k <= simultaneous
    ensures k == 0 || k as int <= battlesToRun
    ensures battlesToRun > 0 && simultaneous > 0 ==> k > 0
  {
    if battlesToRun <= 0 then 0
    else if simultaneous < battlesToRun then simultaneous
    else battlesToRun as nat
  }

  /** The battles launched by the first `waves` waves of an uninterrupted run of `amount`. */
  function Launched(amount: nat, simultaneous: nat, waves: nat): nat
  {
    if waves == 0 then 0
    else
      var before := Launched(amount, simultaneous, waves - 1);
      before + WaveSize(simultaneous, amount - before)
  }

  function Min(x: int, y: int): int
  {
    if x < y then x else y
  }

  /** Waves fill up the budget at full width until it runs out: `w` waves launch
      `min(amount, simultaneousBattles * w)` battles. */
  lemma {:induction false} LaunchedClosedForm(amount: nat, simultaneous: nat, waves: nat)
    ensures Launched(amount, simultaneous, waves) == Min(amount, simultaneous * waves)
  {
    if waves > 0 {
      LaunchedClosedForm(amount, simultaneous, waves - 1);
      assert simultaneous * waves == simultaneous * (waves - 1) + simultaneous;
    }
  }

  /** With a width of at least one, `amount` waves launch exactly `amount` battles, and
      no run ever launches more than its budget. */
  lemma LaunchedWholeBudget(amount: nat, simultaneous: nat, waves: nat)
    ensures Launched(amount, simultaneous, waves) <= amount
    ensures simultaneous >= 1 ==> Launched(amount, simultaneous, amount) == amount
  {
    LaunchedClosedForm(amount, simultaneous, waves);
    LaunchedClosedForm(amount, simultaneous, amount);
    if simultaneous >= 1 {
      assert simultaneous * amount >= amount;
    }
  }

  /** With the default width of one battle per wave, an uninterrupted run launches
      its whole budget, one battle per wave. */
  lemma DefaultWidthLaunchesAll(amount: nat, waves: nat)
    ensures Launched(amount, SimultaneousBattles, waves) == if waves < amount then waves else amount
  {
    LaunchedClosedForm(amount, SimultaneousBattles, waves);
  }

  /** The wave after which a run stops early, if any: the first wave when the flag was
      already set on entry, else the wave during which `stopRunningBattles` runs. */
  function StopWave(stopOnEntry: bool, stopDuring: Option<nat>, amount: nat): (w: Option<nat>)
    ensures w.Some? ==> w.value < amount
  {
    if amount == 0 then None
    else if stopOnEntry then Some(0)
    else if stopDuring.Some? && stopDuring.value < amount then stopDuring
    else None
  }

  class BattleLoop {
    var battlesToRun: int
    var stopBattle: bool
    /** The number of `runBattle` calls made so far. */
    var launched: nat

    constructor ()
      ensures battlesToRun == 0 && !stopBattle && launched == 0
    {
      battlesToRun, stopBattle, launched := 0, false, 0;
    }

    /** `stopRunningBattles`: raises the stop flag and zeroes the counter. */
    method StopRunningBattles()
      modifies this
      ensures stopBattle && battlesToRun == 0 && launched == old(launched)
    {
      stopBattle := true;
      battlesToRun := 0;
    }

    /** `runNumberOfBattles(amount)`, with `stopRunningBattles` arriving while wave
        `stopDuring` is in flight (never, for `None`). The flag is looked at only after a
        wave; when it is set it is lowered and the run ends. The stop aborts the calls
        of the wave in flight; `abortRejects` says whether that makes the (non-empty)
        wave reject. A rejecting wave ends the run at its `await`, with `rejected` set:
        the decrement and the lowering of the flag after it are skipped. */
    method RunNumberOfBattles(amount: nat, simultaneous: nat, stopDuring: Option<nat>, abortRejects: bool)
      returns (rejected: bool)
      modifies this
      ensures var w := StopWave(old(stopBattle), stopDuring, amount);
              && (w.None? ==>
                    && !rejected
                    && stopBattle == (old(stopBattle) && amount == 0)
                    && launched == old(launched) + Launched(amount, simultaneous, amount)
                    && battlesToRun == amount - Launched(amount, simultaneous, amount))
              && (w.Some? ==>
                    var before := Launched(amount, simultaneous, w.value);
                    var last := Launched(amount, simultaneous, w.value + 1) - before;
                    && rejected == (stopDuring == w && abortRejects && last > 0)
                    && stopBattle == rejected
                    && launched == old(launched) + before + last
                    && battlesToRun == (if stopDuring == w then 0 else amount - before) - (if rejected then 0 else last))
    {
      rejected := false;
      battlesToRun := amount;
      var i := 0;
      while i < amount
        invariant i <= amount && !rejected
        invariant i == 0 ==> stopBattle == old(stopBattle)
        invariant i > 0 ==> !stopBattle && !old(stopBattle) && (stopDuring.None? || stopDuring.value >= i)
        invariant launched == old(launched) + Launched(amount, simultaneous, i)
        invariant battlesToRun == amount - Launched(amount, simultaneous, i)
      {
        var wave := WaveSize(simultaneous, battlesToRun);
        launched := launched + wave;
        if stopDuring == Some(i) {
          StopRunningBattles();
          if abortRejects && wave > 0 {
            rejected := true;
            return;
          }
        }
        battlesToRun := battlesToRun - wave;
        if stopBattle {
          stopBattle := false;
          return;
        }
        i := i + 1;
      }
    }
  }

  /** Without a stop, the counter ends at zero after launching exactly `amount`
      battles (for a width of at least one), and it never goes negative on the way. */
  lemma UninterruptedRun(amount: nat, simultaneous: nat, waves: nat)
    requires simultaneous >= 1
    ensures amount - Launched(amount, simultaneous, waves) >= 0
    ensures amount - Launched(amount, simultaneous, amount) == 0
  {
    LaunchedWholeBudget(amount, simultaneous, waves);
    LaunchedWholeBudget(amount, simultaneous, amount);
  }
}
