/**
  The step scan of the vault check (the loop of ACharacterCore::CheckVault): after a wall has been
  found in front of a falling character, the engine samples the ground ahead VaultTraceAmount + 1
  times, each sample a little further forward. A sample is accepted as a vault target when the
  ground there is clearly higher than at the first sample, lower than the maximum mantle height,
  level with the previous sample, and has room for the capsule. The engine's traces are given as
  one StepProbe per sample.
*/
module VaultScan {
  import opened Common

  /**
    The engine's answers for one sample: whether the downward trace hit ground, the height of the
    drop from the sample's start point to that ground, whether the headroom trace above the start
    point hit something, and whether the capsule sweep at the landing point is blocked.
  */
  datatype StepProbe = StepProbe(downHit: bool, height: real, headroomHit: bool, landingBlocked: bool)

  /** FMath::IsNearlyEqual: the two values differ by at most the tolerance. */
  predicate NearlyEqual(a: real, b: real, tolerance: real)
  {
    (if a >= b then a - b else b - a) <= tolerance
  }

  /** The number of samples taken for a VaultTraceAmount (the loop runs from 0 to the amount inclusive). */
  function StepCount(vaultTraceAmount: int): nat
  {
    if vaultTraceAmount < 0 then 0 else vaultTraceAmount + 1
  }

  /** A sample that yields a height: ground below and no obstacle above. */
  predicate Measured(p: StepProbe)
  {
    p.downHit && !p.headroomHit
  }

  /** A sample that ends the scan: ground below but an obstacle above. */
  predicate Stops(p: StepProbe)
  {
    p.downHit && p.headroomHit
  }

  /** The height of the first measured sample, if any. */
  function FirstHeight(s: seq<StepProbe>): Option<real>
  {
    if s == [] then None
    else if FirstHeight(s[..|s| - 1]).None? && Measured(s[|s| - 1]) then Some(s[|s| - 1].height)
    else FirstHeight(s[..|s| - 1])
  }

  /** The height of the last measured sample, 0 before any. */
  function LastHeight(s: seq<StepProbe>): real
  {
    if s == [] then 0.0
    else if Measured(s[|s| - 1]) then s[|s| - 1].height
    else LastHeight(s[..|s| - 1])
  }

  /** The number of measured samples. */
  function MeasuredCount(s: seq<StepProbe>): nat
  {
    if s == [] then 0 else MeasuredCount(s[..|s| - 1]) + (if Measured(s[|s| - 1]) then 1 else 0)
  }

  /**
    The acceptance rule for sample k, stated on the samples alone: it is measured; its height is more
    than 20 units away from the first measured height (its own, when it is the first) and below the
    maximum mantle height; it is within 3 units of the previous measured height (0 when there is
    none); and the landing point is free.
  */
  predicate Accepts(probes: seq<StepProbe>, k: nat, maxMantle: real)
    requires k < |probes|
  {
    var p := probes[k];
    var initial := match FirstHeight(probes[..k]) { case None => p.height case Some(h) => h };
    Measured(p) && !NearlyEqual(p.height, initial, 20.0) && p.height < maxMantle
    && NearlyEqual(LastHeight(probes[..k]), p.height, 3.0) && !p.landingBlocked
  }

  /** No sample before k stops the scan or is accepted. */
  predicate Undecided(probes: seq<StepProbe>, k: nat, maxMantle: real)
    requires k <= |probes|
  {
    forall j :: 0 <= j < k ==> !Stops(probes[j]) && !Accepts(probes, j, maxMantle)
  }

  /**
    The loop's variables between samples: still scanning (with the first height once one was
    measured, and the previous and current heights), accepted at a sample, or stopped by an
    obstacle above.
  */
  datatype Scan = Scanning(initial: Option<real>, previous: real, current: real) | Accepted(index: nat) | Stopped

  /** One iteration of the loop on sample k. */
  function ScanStep(sc: Scan, p: StepProbe, k: nat, maxMantle: real): Scan
  {
    match sc
    case Scanning(initial, _, current) =>
      if !p.downHit then sc
      else if p.headroomHit then Stopped
      else
        var first := if initial.None? then p.height else initial.value;
        if !NearlyEqual(p.height, first, 20.0) && p.height < maxMantle && NearlyEqual(current, p.height, 3.0)
           && !p.landingBlocked
        then Accepted(k)
        else Scanning(Some(first), current, p.height)
    case _ => sc
  }

  /** The loop's state after the first n samples. */
  function ScanPrefix(probes: seq<StepProbe>, n: nat, maxMantle: real): Scan
    requires n <= |probes|
  {
    if n == 0 then Scanning(None, 0.0, 0.0)
    else ScanStep(ScanPrefix(probes, n - 1, maxMantle), probes[n - 1], n - 1, maxMantle)
  }

  /** The scan's verdict: the accepted sample, or None when the vault fails and the mantle is tried. */
  function ScanOutcome(probes: seq<StepProbe>, maxMantle: real): Option<nat>
  {
    match ScanPrefix(probes, |probes|, maxMantle)
    case Accepted(k) => Some(k)
    case _ => None
  }

  /** The loop's state after n samples agrees with the acceptance rule. */
  lemma {:induction false} ScanPrefixMeans(probes: seq<StepProbe>, n: nat, maxMantle: real)
    requires n <= |probes|
    ensures match ScanPrefix(probes, n, maxMantle)
            case Scanning(initial, _, current) =>
              Undecided(probes, n, maxMantle) && initial == FirstHeight(probes[..n]) && current == LastHeight(probes[..n])
            case Accepted(k) => k < n && Accepts(probes, k, maxMantle) && Undecided(probes, k, maxMantle)
            case Stopped => exists j :: 0 <= j < n && Stops(probes[j]) && Undecided(probes, j, maxMantle)
  {
    if n > 0 {
      ScanPrefixMeans(probes, n - 1, maxMantle);
      var before := ScanPrefix(probes, n - 1, maxMantle);
      if before.Scanning? {
        var p := probes[n - 1];
        assert probes[..n][..n - 1] == probes[..n - 1];
        assert probes[..n][n - 1] == p;
        var after := ScanPrefix(probes, n, maxMantle);
        if after.Stopped? {
          assert Stops(probes[n - 1]) && Undecided(probes, n - 1, maxMantle);
        } else if after.Scanning? {
          assert !Accepts(probes, n - 1, maxMantle);
          assert Undecided(probes, n, maxMantle);
        }
      }
    }
  }

  /**
    ScanOutcome, stated without the loop: it is Some(k) exactly when sample k is accepted and no
    earlier sample stops the scan or is accepted; it is None exactly when no sample is accepted
    before the scan is stopped.
  */
  lemma ScanOutcomeMeans(probes: seq<StepProbe>, maxMantle: real)
    ensures ScanOutcome(probes, maxMantle).Some? ==>
              var k := ScanOutcome(probes, maxMantle).value;
              k < |probes| && Accepts(probes, k, maxMantle) && Undecided(probes, k, maxMantle)
    ensures ScanOutcome(probes, maxMantle).None? <==>
              forall k :: 0 <= k < |probes| ==> !(Accepts(probes, k, maxMantle) && Undecided(probes, k, maxMantle))
  {
    ScanPrefixMeans(probes, |probes|, maxMantle);
    var sc := ScanPrefix(probes, |probes|, maxMantle);
    if sc.Stopped? {
      var j :| 0 <= j < |probes| && Stops(probes[j]) && Undecided(probes, j, maxMantle);
      forall k | 0 <= k < |probes|
        ensures !(Accepts(probes, k, maxMantle) && Undecided(probes, k, maxMantle))
      {
        if Undecided(probes, k, maxMantle) {
          assert k <= j;
        }
      }
    }
  }

  lemma {:induction false} FirstHeightAtMostOne(s: seq<StepProbe>)
    requires MeasuredCount(s) <= 1
    ensures MeasuredCount(s) == 0 ==> FirstHeight(s) == None && LastHeight(s) == 0.0
    ensures MeasuredCount(s) == 1 ==> FirstHeight(s) == Some(LastHeight(s))
  {
    if s != [] {
      FirstHeightAtMostOne(s[..|s| - 1]);
    }
  }

  /**
    An accepted sample is preceded by at least two measured samples: the rise must be seen on two
    consecutive samples, and the first measured sample is the reference height. Neither the first
    nor the second measured sample can ever be a vault target.
  */
  lemma AcceptedAfterTwoMeasured(probes: seq<StepProbe>, k: nat, maxMantle: real)
    requires k < |probes| && Accepts(probes, k, maxMantle)
    ensures MeasuredCount(probes[..k]) >= 2
  {
    if MeasuredCount(probes[..k]) <= 1 {
      FirstHeightAtMostOne(probes[..k]);
    }
  }

  /**
    The loop of CheckVault over the samples (one per iteration, i from 0 to VaultTraceAmount): a
    miss below skips the sample, an obstacle above ends the loop, and the first accepted sample ends
    it with the vault. Returns the accepted sample, or None when the vault failed.
  */
  method ScanSteps(probes: seq<StepProbe>, vaultTraceAmount: int, maxMantle: real) returns (accepted: Option<nat>)
    requires |probes| == StepCount(vaultTraceAmount)
    ensures accepted == ScanOutcome(probes, maxMantle)
  {
    var initialHeight, previousHeight, currentHeight := 0.0, 0.0, 0.0;
    var initialSwitch := false;
    var vaultFailed := true;
    var target := 0;
    var i := 0;
    while i <= vaultTraceAmount
      invariant 0 <= i <= |probes| && vaultFailed
      invariant ScanPrefix(probes, i, maxMantle) ==
                  Scanning(if initialSwitch then Some(initialHeight) else None, previousHeight, currentHeight)
    {
      var p := probes[i];
      vaultFailed := true;
      if !p.downHit {
        i := i + 1;
        continue;
      }
      if p.headroomHit {
        DecisionStays(probes, i + 1, maxMantle);
        break;
      }
      var traceLength := p.height;
      if !initialSwitch {
        initialHeight := traceLength;
        initialSwitch := true;
      }
      previousHeight := currentHeight;
      currentHeight := traceLength;
      if !(!NearlyEqual(currentHeight, initialHeight, 20.0) && currentHeight < maxMantle) {
        i := i + 1;
        continue;
      }
      if !NearlyEqual(previousHeight, currentHeight, 3.0) {
        i := i + 1;
        continue;
      }
      if p.landingBlocked {
        i := i + 1;
        continue;
      }
      vaultFailed := false;
      target := i;
      DecisionStays(probes, i + 1, maxMantle);
      break;
    }
    accepted := if !vaultFailed then Some(target) else None;
  }

  /** Once the loop has stopped or accepted, later samples change nothing. */
  lemma {:induction false} DecisionStays(probes: seq<StepProbe>, n: nat, maxMantle: real)
    requires n <= |probes| && !ScanPrefix(probes, n, maxMantle).Scanning?
    ensures ScanOutcome(probes, maxMantle) == match ScanPrefix(probes, n, maxMantle) { case Accepted(k) => Some(k) case _ => None }
    decreases |probes| - n
  {
    if n < |probes| {
      assert ScanPrefix(probes, n + 1, maxMantle) == ScanPrefix(probes, n, maxMantle);
      DecisionStays(probes, n + 1, maxMantle);
    }
  }
}
