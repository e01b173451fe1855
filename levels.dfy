/**
 * The severity scale of the logger (`LogLevel` in src/logger/mod.rs) and the
 * threshold rule every backend applies before it emits a message.
 */
module Levels {
  import opened Wrappers

  /** The unsigned byte the source casts ranks and numeric arguments to (`as u8`). */
  type u8 = x: int | 0 <= x < 256

  datatype LogLevel = Verbose | Info | Debug | Warn | Error

  /** The scale in ascending order of severity. */
  const SCALE: seq<LogLevel> := [Verbose, Info, Debug, Warn, Error]

  /** The discriminant of a level, `level as u8`: its one-based position on the scale. */
  function Rank(level: LogLevel): (r: u8)
    ensures 1 <= r <= |SCALE| && SCALE[r - 1] == level
  {
    match level
    case Verbose => 1
    case Info => 2
    case Debug => 3
    case Warn => 4
    case Error => 5
  }

  /** The canonical name of a level (`LogLevel::to_string`). */
  function Name(level: LogLevel): (s: string)
    ensures |s| > 0
    ensures forall i :: 0 <= i < |s| ==> 'A' <= s[i] <= 'Z'
  {
    match level
    case Verbose => "VERBOSE"
    case Info => "INFO"
    case Debug => "DEBUG"
    case Warn => "WARN"
    case Error => "ERROR"
  }

  /** The level whose canonical name is `s`, if any: the inverse of Name. */
  function LevelNamed(s: string): (r: Option<LogLevel>)
    ensures r.Some? ==> Name(r.value) == s
  {
    if s == "VERBOSE" then Some(Verbose)
    else if s == "INFO" then Some(Info)
    else if s == "DEBUG" then Some(Debug)
    else if s == "WARN" then Some(Warn)
    else if s == "ERROR" then Some(Error)
    else None
  }

  /** Ranks grow strictly along the scale. */
  lemma RankStrictlyIncreasing(i: nat, j: nat)
    requires i < j < |SCALE|
    ensures Rank(SCALE[i]) < Rank(SCALE[j])
  {
  }

  /** No two levels share a rank. */
  lemma RankInjective(a: LogLevel, b: LogLevel)
    ensures Rank(a) == Rank(b) <==> a == b
  {
  }

  /** Every name is recognised as the level it names. */
  lemma NameRoundTrip(level: LogLevel)
    ensures LevelNamed(Name(level)) == Some(level)
  {
  }

  /** The five names are pairwise distinct. */
  lemma NamesDistinct(a: LogLevel, b: LogLevel)
    ensures Name(a) == Name(b) <==> a == b
  {
    NameRoundTrip(a);
    NameRoundTrip(b);
  }

  /**
   * The threshold rule shared by the console and file backends: a message is
   * emitted iff the configured byte does not exceed the level's rank. A byte
   * of at most 1 lets every level through, and one above 5 lets none through.
   */
  function Passes(threshold: int, level: LogLevel): (pass: bool)
    ensures threshold <= 1 ==> pass
    ensures threshold > |SCALE| ==> !pass
  {
    threshold <= Rank(level)
  }

  /**
   * The rule as the console backend applies it, to a configured level:
   * Verbose lets everything through, and Error is never held back.
   */
  function Emits(verbosity: LogLevel, level: LogLevel): (emitted: bool)
    ensures verbosity == Verbose ==> emitted
    ensures level == Error ==> emitted
  {
    Passes(Rank(verbosity), level)
  }

  /** Raising a message's severity never makes it filtered out. */
  lemma EmitsMonotone(verbosity: LogLevel, a: LogLevel, b: LogLevel)
    requires Emits(verbosity, a) && Rank(a) <= Rank(b)
    ensures Emits(verbosity, b)
  {
  }

  /** The boundary is inclusive: a message at exactly the configured level is emitted. */
  lemma EmitsAtThreshold(verbosity: LogLevel)
    ensures Emits(verbosity, verbosity)
  {
  }

  /** An Error message passes every configured level, since 5 is the top rank. */
  lemma ErrorAlwaysEmitted(verbosity: LogLevel)
    ensures Emits(verbosity, Error)
  {
  }

  /** Configured at Error, a backend lets through Error messages and nothing else. */
  lemma OnlyErrorAtError(level: LogLevel)
    ensures Emits(Error, level) <==> level == Error
  {
  }

  /**
   * The levels a configured level lets through are exactly the suffix of the
   * scale that starts at that level.
   */
  lemma EmittedSuffix(verbosity: LogLevel, level: LogLevel)
    ensures Emits(verbosity, level) <==> level in SCALE[Rank(verbosity) - 1..]
  {
    var k := Rank(verbosity) - 1;
    var j := Rank(level) - 1;
    if Emits(verbosity, level) {
      assert SCALE[k..][j - k] == level;
    }
  }
}
