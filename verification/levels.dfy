/**
 Severity levels of the PX4 logging facade, their fixed integer ranks, the
 process-wide runtime threshold and the runtime gate every non-omitted call
 passes through before anything is formatted.
 */
module Levels {
  import opened Wrappers

  /** The five severity levels, most severe first. */
  datatype Level = Always | Panic | Error | Warn | Debug

  /** Declared size of the level-to-label table `__px4_log_level_str`. */
  const LevelCount: nat := 5

  /** The integer rank `_PX4_LOG_LEVEL_*` of each level; it is also the
      index of the level's label in the label table. */
  function Rank(l: Level): (r: nat)
    ensures r < LevelCount
  {
    match l
    case Always => 0
    case Panic => 1
    case Error => 2
    case Warn => 3
    case Debug => 4
  }

  /** The level a rank denotes, if any: the inverse of `Rank`. */
  function LevelOfRank(r: int): (l: Option<Level>)
    ensures l.Some? <==> 0 <= r < LevelCount
    ensures l.Some? ==> Rank(l.value) == r
  {
    if r == 0 then Some(Always)
    else if r == 1 then Some(Panic)
    else if r == 2 then Some(Error)
    else if r == 3 then Some(Warn)
    else if r == 4 then Some(Debug)
    else None
  }

  /** Ranks are exactly 0..4 and strictly increase from ALWAYS to DEBUG. */
  lemma RanksStrictlyIncreasing()
    ensures Rank(Always) == 0
    ensures Rank(Always) < Rank(Panic) < Rank(Error) < Rank(Warn) < Rank(Debug)
    ensures Rank(Debug) == LevelCount - 1
  {
  }

  /** Distinct levels have distinct ranks, and ranks round-trip. */
  lemma RankRoundTrip(a: Level, b: Level)
    ensures Rank(a) == Rank(b) <==> a == b
    ensures LevelOfRank(Rank(a)) == Some(a)
  {
  }

  /** `__px4_log_level_current` is initialised to `PX4_LOG_LEVEL_AT_RUN_TIME`,
      the WARN rank. */
  const DefaultThreshold: int := Rank(Warn)

  /** The runtime gate `level <= __px4_log_level_current`. */
  predicate Passes(l: Level, threshold: int)
  {
    Rank(l) <= threshold
  }

  /** ALWAYS passes the gate exactly when the threshold is not negative. */
  lemma AlwaysPassesIffNonNegative(threshold: int)
    ensures Passes(Always, threshold) <==> threshold >= 0
  {
  }

  /** Raising the threshold, or lowering the rank, never closes the gate. */
  lemma PassesMonotone(l: Level, k: Level, threshold: int, threshold': int)
    requires Passes(l, threshold)
    requires threshold <= threshold'
    requires Rank(k) <= Rank(l)
    ensures Passes(k, threshold')
  {
  }

  /** With the default threshold every level but DEBUG passes the gate. */
  lemma DefaultThresholdAdmits(l: Level)
    ensures Passes(l, DefaultThreshold) <==> l != Debug
  {
  }
}
