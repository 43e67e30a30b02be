/** The epoch loop of `_fit_data`: early stopping on the validation loss,
    the distributed agreement on when to stop, and where the loss
    statistics come from. Training batches and validation losses are
    outside the model: the validation loss of each epoch is an input. */
module EarlyStopping {

  /** `last_val_loss`, which starts at `float('inf')`. */
  datatype Bound = PosInf | At(v: real)

  /** `curr_val_loss > last_val_loss`: nothing exceeds infinity. */
  predicate Exceeds(x: real, b: Bound) {
    b.At? && x > b.v
  }

  /** `count_es`, `last_val_loss` and `should_early_stop`. */
  datatype EsState = EsState(count: int, last: Bound, stop: bool)

  const Start := EsState(0, PosInf, false)

  /** One validated epoch: a falsy patience (0 or None) leaves the state
      alone; otherwise a strict rise counts and may trigger the stop, and
      anything else (a fall or a tie) resets the count. */
  function EsStep(s: EsState, curr: real, patience: int): EsState {
    if patience == 0 then s
    else if Exceeds(curr, s.last) then
      EsState(s.count + 1, At(curr), s.stop || s.count + 1 >= patience)
    else
      EsState(0, At(curr), s.stop)
  }

  /** The state after validating the epochs whose losses are `losses`. */
  function EsRun(losses: seq<real>, patience: int): EsState {
    if losses == [] then Start
    else EsStep(EsRun(losses[..|losses| - 1], patience), losses[|losses| - 1], patience)
  }

  /** Reference definition: the number of strict rises ending at the last epoch. */
  function RunLength(losses: seq<real>): nat {
    if |losses| <= 1 then 0
    else if losses[|losses| - 1] > losses[|losses| - 2] then RunLength(losses[..|losses| - 1]) + 1
    else 0
  }

  /** The count the stop is compared with is at least one when it is compared. */
  function Threshold(patience: int): int {
    if patience >= 1 then patience else 1
  }

  /** With early stopping enabled, the counter is the length of the current
      run of strict rises, and the remembered loss is the last one. */
  lemma {:induction false} EsRunTracksRises(losses: seq<real>, patience: int)
    requires patience != 0
    ensures EsRun(losses, patience).count == RunLength(losses)
    ensures EsRun(losses, patience).last == if losses == [] then PosInf else At(losses[|losses| - 1])
  {
    if losses != [] {
      var init := losses[..|losses| - 1];
      EsRunTracksRises(init, patience);
      if |losses| >= 2 {
        assert init[|init| - 1] == losses[|losses| - 2];
      }
    }
  }

  /** The stop flag is raised exactly when some prefix ends in a run of at
      least `Threshold(patience)` strict rises, and it is never lowered. */
  lemma {:induction false} EsRunStopsIff(losses: seq<real>, patience: int)
    requires patience != 0
    ensures EsRun(losses, patience).stop <==>
      exists k :: 1 <= k <= |losses| && RunLength(losses[..k]) >= Threshold(patience)
  {
    if losses != [] {
      var n := |losses|;
      var init := losses[..n - 1];
      EsRunStopsIff(init, patience);
      EsRunTracksRises(losses, patience);
      EsRunTracksRises(init, patience);
      assert losses[..n] == losses;
      forall k | 1 <= k <= n - 1
        ensures init[..k] == losses[..k]
      {
      }
      if EsRun(losses, patience).stop && !EsRun(init, patience).stop {
        assert RunLength(losses[..n]) >= Threshold(patience);
      }
    }
  }

  /** A falsy patience never changes the state. */
  lemma {:induction false} FalsyPatienceNeverStops(losses: seq<real>)
    ensures EsRun(losses, 0) == Start
  {
    if losses != [] {
      FalsyPatienceNeverStops(losses[..|losses| - 1]);
    }
  }

  /** A negative patience stops at the first strict rise. */
  lemma NegativePatienceStopsAtFirstRise(losses: seq<real>, patience: int)
    requires patience < 0
    ensures EsRun(losses, patience).stop <==> exists k :: 1 <= k < |losses| && losses[k] > losses[k - 1]
  {
    EsRunStopsIff(losses, patience);
    if exists k :: 1 <= k < |losses| && losses[k] > losses[k - 1] {
      var k :| 1 <= k < |losses| && losses[k] > losses[k - 1];
      var p := losses[..k + 1];
      assert p[..k] == losses[..k];
      assert RunLength(p) >= 1;
    }
    if exists k :: 1 <= k <= |losses| && RunLength(losses[..k]) >= Threshold(patience) {
      var k :| 1 <= k <= |losses| && RunLength(losses[..k]) >= Threshold(patience);
      assert losses[..k][k - 1] > losses[..k][k - 2];
    }
  }

  /** A run of equal losses is never a rise: ties reset the counter. */
  lemma ConstantLossesNeverStop(losses: seq<real>, patience: int)
    requires forall i :: 0 <= i < |losses| ==> losses[i] == losses[0]
    ensures !EsRun(losses, patience).stop
  {
    if patience == 0 {
      FalsyPatienceNeverStops(losses);
    } else {
      EsRunStopsIff(losses, patience);
      forall k | 1 <= k <= |losses|
        ensures RunLength(losses[..k]) == 0
      {
        if k >= 2 {
          assert losses[..k][k - 1] == losses[..k][k - 2];
        }
      }
    }
  }

  /** Strictly rising losses: the run at epoch k (counted from 1) is k - 1 rises long. */
  lemma {:induction false} RisingRunLength(losses: seq<real>, k: nat)
    requires forall i :: 1 <= i < |losses| ==> losses[i] > losses[i - 1]
    requires 1 <= k <= |losses|
    ensures RunLength(losses[..k]) == k - 1
  {
    if k >= 2 {
      RisingRunLength(losses, k - 1);
      assert losses[..k][..k - 1] == losses[..k - 1];
    }
  }

  /** Index of the first raised flag, or the length when none is raised. */
  function FirstTrue(flags: seq<bool>): (r: nat)
    ensures r <= |flags|
    ensures r < |flags| ==> flags[r]
    ensures forall i :: 0 <= i < r ==> !flags[i]
  {
    if flags == [] then 0
    else if flags[0] then 0
    else 1 + FirstTrue(flags[1..])
  }

  /** The number of epochs run when the loop breaks after the first epoch
      whose synchronised flag is raised. */
  function EpochsRun(flags: seq<bool>): nat {
    if FirstTrue(flags) < |flags| then FirstTrue(flags) + 1 else |flags|
  }

  /** The flags the main process raises epoch by epoch: only it validates,
      and only when validation runs. */
  function LocalFlags(validating: bool, valLosses: seq<real>, patience: int, n: nat): (f: seq<bool>)
    requires n <= |valLosses|
    ensures |f| == n
  {
    seq(n, e requires 0 <= e < n => validating && EsRun(valLosses[..e + 1], patience).stop)
  }

  /** Strictly rising validation losses stop training after epoch patience + 1. */
  lemma RisingLossesStopAfterPatience(valLosses: seq<real>, patience: int, epochs: nat)
    requires patience >= 1 && patience + 1 <= epochs <= |valLosses|
    requires forall i :: 1 <= i < |valLosses| ==> valLosses[i] > valLosses[i - 1]
    ensures EpochsRun(LocalFlags(true, valLosses, patience, epochs)) == patience + 1
  {
    var f := LocalFlags(true, valLosses, patience, epochs);
    forall e | 0 <= e < epochs
      ensures f[e] <==> e >= patience
    {
      var p := valLosses[..e + 1];
      EsRunStopsIff(p, patience);
      forall k | 1 <= k <= e + 1
        ensures RunLength(p[..k]) == k - 1
      {
        assert p[..k] == valLosses[..k];
        RisingRunLength(valLosses, k);
      }
      if e >= patience {
        assert RunLength(p[..e + 1]) >= patience;
      }
    }
    assert f[patience];
  }

  /** The flag each epoch's `should_early_stop_synced` takes on a process:
      its own flag in centralised training and on the main process, the
      main process's shared flag on every other rank. `range(epochs)` is
      empty for a negative count. */
  function SyncedFlags(epochs: int, patience: int, validating: bool, rank: int, distributed: bool,
                       valLosses: seq<real>, leaderFlags: seq<bool>): (f: seq<bool>)
    requires epochs <= |valLosses| && epochs <= |leaderFlags|
    ensures |f| == if epochs > 0 then epochs else 0
  {
    var n: nat := if epochs > 0 then epochs as nat else 0;
    if distributed && rank != 0 then leaderFlags[..n]
    else LocalFlags(rank == 0 && validating, valLosses, patience, n)
  }

  /** With early stopping disabled (a falsy patience) or validation off, the
      main process never raises its flag and every one of the epochs runs. */
  lemma AllEpochsRunWithoutEarlyStopping(epochs: int, patience: int, validating: bool, rank: int, distributed: bool,
                                         valLosses: seq<real>, leaderFlags: seq<bool>)
    requires epochs <= |valLosses| && epochs <= |leaderFlags|
    requires patience == 0 || !validating
    requires !distributed || rank == 0
    ensures EpochsRun(SyncedFlags(epochs, patience, validating, rank, distributed, valLosses, leaderFlags)) ==
      if epochs > 0 then epochs else 0
  {
    var f := SyncedFlags(epochs, patience, validating, rank, distributed, valLosses, leaderFlags);
    forall e | 0 <= e < |f|
      ensures !f[e]
    {
      if validating && rank == 0 {
        FalsyPatienceNeverStops(valLosses[..e + 1]);
      }
    }
  }

  /** Where `_populate_loss_stats_from_dataset` reads from. */
  datatype StatsSource = NoStats | FromValidation | FromTraining

  /** `_fit_data` on one process. `valLosses[e]` is the validation loss the
      main process measures after epoch e; `leaderFlags[e]` is the flag the
      main process shares through `all_gather_object` after epoch e. Returns
      how many epochs ran, whether the loop broke early, and where the loss
      statistics are collected from. */
  method FitData(epochs: int, patience: int, runValidation: bool, hasValData: bool, useValForLossStats: bool,
                 rank: int, distributed: bool, valLosses: seq<real>, leaderFlags: seq<bool>)
    returns (epochsRun: nat, earlyStopped: bool, stats: StatsSource)
    requires epochs <= |valLosses| && epochs <= |leaderFlags|
    ensures var flags := SyncedFlags(epochs, patience, runValidation && hasValData, rank, distributed, valLosses, leaderFlags);
      epochsRun == EpochsRun(flags) && (earlyStopped <==> FirstTrue(flags) < |flags|)
    ensures stats == (if rank != 0 then NoStats else if useValForLossStats then FromValidation else FromTraining)
  {
    var isMain := rank == 0;
    var validating := runValidation && hasValData;
    var n: nat := if epochs > 0 then epochs as nat else 0;
    ghost var flags := SyncedFlags(epochs, patience, validating, rank, distributed, valLosses, leaderFlags);
    var countEs := 0;
    var lastValLoss := PosInf;
    var shouldEarlyStop := false;
    epochsRun, earlyStopped := 0, false;
    var epoch := 0;
    while epoch < n
      invariant 0 <= epoch <= n && epochsRun == epoch && !earlyStopped
      invariant EsState(countEs, lastValLoss, shouldEarlyStop) ==
        if isMain && validating then EsRun(valLosses[..epoch], patience) else Start
      invariant forall e :: 0 <= e < epoch ==> !flags[e]
    {
      if isMain && validating {
        var curr := valLosses[epoch];
        assert valLosses[..epoch + 1][..epoch] == valLosses[..epoch];
        if patience != 0 {
          if Exceeds(curr, lastValLoss) {
            countEs := countEs + 1;
            if countEs >= patience {
              shouldEarlyStop := true;
            }
          } else {
            countEs := 0;
          }
          lastValLoss := At(curr);
        }
      }
      var synced := if distributed && !isMain then leaderFlags[epoch] else shouldEarlyStop;
      assert synced == flags[epoch];
      epochsRun := epoch + 1;
      if synced {
        earlyStopped := true;
        break;
      }
      epoch := epoch + 1;
    }
    stats := if !isMain then NoStats else if useValForLossStats then FromValidation else FromTraining;
  }
}
