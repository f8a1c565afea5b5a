/**
 * The checkpoint save policy of `LoadSaveModel`: a relative-improvement gate
 * on a validation metric, a time-driven rotation of the file-name suffix that
 * wraps at `max_files`, and the name of the file a checkpoint is written to.
 *
 * The clock is the parameter `now`; the folder creation, `torch.save` and the
 * log line are left to the caller.
 */
module ModelIo {
  import opened Wrappers
  import Decimal

  /** What `max_files` can hold: an integer, `None`, or `float('inf')`. */
  datatype FileLimit = Count(n: int) | Missing | Unlimited

  /** The best metric so far; it starts at `math.inf`. */
  datatype Best = Infinity | Finite(value: real)

  /** Extended-real order on `Best`. */
  predicate AtMost(a: Best, b: Best) {
    b == Infinity || (a.Finite? && a.value <= b.value)
  }

  /** A best value from which the improvement test cannot divide by zero or flip sign. */
  predicate PositiveBest(b: Best) {
    b == Infinity || b.value > 0.0
  }

  /**
   * The value stored in `max_files`:
   * `max_files if (max_files is not None) or (max_files != -1) else inf`.
   * The condition holds for every argument, so the value is stored as passed:
   * `None` and -1 are never replaced by infinity.
   */
  function MaxFilesGuard(maxFiles: FileLimit): (limit: FileLimit)
    ensures limit == maxFiles
    ensures limit == Unlimited <==> maxFiles == Unlimited
  {
    if maxFiles != Missing || maxFiles != Count(-1) then maxFiles else Unlimited
  }

  datatype Verdict = Accept | Reject | DivisionByZero

  /**
   * The improvement test `metric / best <= 1 - better_th`. A finite metric
   * divided by infinity is zero; a division by a best value of zero raises.
   */
  function Gate(best: Best, metric: real, betterTh: real): (v: Verdict)
    ensures v == DivisionByZero <==> best == Finite(0.0)
    ensures best == Infinity ==> (v == Accept <==> betterTh <= 1.0)
    ensures best.Finite? && best.value > 0.0 ==>
              (v == Accept <==> metric <= best.value * (1.0 - betterTh))
    ensures best.Finite? && best.value < 0.0 ==>
              (v == Accept <==> metric >= best.value * (1.0 - betterTh))
  {
    match best
    case Infinity => if 0.0 <= 1.0 - betterTh then Accept else Reject
    case Finite(b) =>
      if b == 0.0 then DivisionByZero
      else
        var relDiff := metric / b;
        DivisionTest(metric, b, 1.0 - betterTh);
        if relDiff <= 1.0 - betterTh then Accept else Reject
  }

  /**
   * `output_file_suffix += 1` followed by the wrap test against `max_files - 1`;
   * None when `max_files` is `None` and the subtraction raises a TypeError.
   */
  function NextSuffix(limit: FileLimit, suffix: int): (r: Option<int>)
    ensures r == None <==> limit == Missing
    ensures limit.Count? && limit.n >= 1 && -1 <= suffix < limit.n ==>
              r == Some((suffix + 1) % limit.n) && 0 <= r.value < limit.n
    ensures limit.Count? && limit.n <= 0 && suffix >= -1 ==> r == Some(0)
    ensures limit == Unlimited ==> r == Some(suffix + 1)
  {
    var next := suffix + 1;
    match limit
    case Missing => None
    case Unlimited => Some(next)
    case Count(n) => if next > n - 1 then Some(0) else Some(next)
  }

  /** `m / b <= k` as a product, with the direction flipped by a negative divisor. */
  lemma DivisionTest(m: real, b: real, k: real)
    requires b != 0.0
    ensures b > 0.0 ==> (m / b <= k <==> m <= b * k)
    ensures b < 0.0 ==> (m / b <= k <==> m >= b * k)
  {
    var q := m / b;
    assert m == q * b;
    assert b * k - m == b * (k - q);
    if b > 0.0 {
      assert q <= k <==> b * (k - q) >= 0.0;
    } else {
      assert q <= k <==> b * (k - q) <= 0.0;
    }
  }

  /** The target file `<output file without suffix>_<suffix>.pt`. */
  function FileName(stem: string, suffix: int): string {
    stem + "_" + Decimal.IntToString(suffix) + ".pt"
  }

  /** Different suffixes never name the same file. */
  lemma FileNameInjective(stem: string, a: int, b: int)
    requires FileName(stem, a) == FileName(stem, b)
    ensures a == b
  {
    var sa, sb := Decimal.IntToString(a), Decimal.IntToString(b);
    var na, nb := FileName(stem, a), FileName(stem, b);
    assert |sa| == |sb|;
    assert sa == na[|stem| + 1..|na| - 3];
    assert sb == nb[|stem| + 1..|nb| - 3];
    Decimal.IntToStringInjective(a, b);
  }

  /** The fields `save` never changes. */
  datatype Config = Config(stem: string, nameTimeInterval: real, betterTh: real, maxFiles: FileLimit)

  /** The fields `save` updates. */
  datatype SaverState = SaverState(suffix: int, newNameTime: real, lastSaved: real, best: Best)

  /** Suffix -1, both timestamps 0, best metric infinity. */
  const InitialState := SaverState(-1, 0.0, 0.0, Infinity)

  datatype SaveError = ZeroDivisionError | TypeError

  /** What one call of `save` does: return early, write a file, or raise. */
  datatype Outcome = NotSaved | SavedTo(file: string) | Raised(error: SaveError)

  datatype Step = Step(state: SaverState, outcome: Outcome)

  predicate Improves(c: Config, s: SaverState, metric: Option<real>) {
    metric == None || Gate(s.best, metric.value, c.betterTh) == Accept
  }

  /** The suffix changes after the name interval has elapsed, and on every save without a metric. */
  predicate Rotates(c: Config, s: SaverState, metric: Option<real>, now: real) {
    now > s.newNameTime + c.nameTimeInterval || metric == None
  }

  /** One call of `save(model, metric)` at clock value `now`, as a state transition. */
  function SaveStep(c: Config, s: SaverState, metric: Option<real>, now: real): (r: Step)
    // the improvement gate: a failed test or a division by zero changes nothing
    ensures r.outcome == NotSaved <==> metric.Some? && Gate(s.best, metric.value, c.betterTh) == Reject
    ensures r.outcome == Raised(ZeroDivisionError) <==> metric.Some? && s.best == Finite(0.0)
    ensures r.outcome == NotSaved || r.outcome == Raised(ZeroDivisionError) ==> r.state == s
    // the first save that carries a metric always passes the gate
    ensures s.best == Infinity && metric.Some? && c.betterTh <= 1.0 ==>
              r.outcome != NotSaved && r.state.best == Finite(metric.value)
    // a save past the gate records the metric, or keeps the best value without one
    ensures r.outcome.SavedTo? || r.outcome == Raised(TypeError) ==>
              r.state.best == (if metric.Some? then Finite(metric.value) else s.best)
    // a rotation that meets `max_files = None` raises after incrementing the suffix
    ensures r.outcome == Raised(TypeError) <==>
              Improves(c, s, metric) && Rotates(c, s, metric, now) && c.maxFiles == Missing
    ensures r.outcome == Raised(TypeError) ==>
              r.state.suffix == s.suffix + 1 && r.state.newNameTime == s.newNameTime &&
              r.state.lastSaved == s.lastSaved
    // rotation, time stamps and the file written
    ensures r.outcome.SavedTo? <==> Improves(c, s, metric) && !(Rotates(c, s, metric, now) && c.maxFiles == Missing)
    ensures r.outcome.SavedTo? && Rotates(c, s, metric, now) ==>
              Some(r.state.suffix) == NextSuffix(c.maxFiles, s.suffix) && r.state.newNameTime == now
    ensures r.outcome.SavedTo? && !Rotates(c, s, metric, now) ==>
              r.state.suffix == s.suffix && r.state.newNameTime == s.newNameTime
    ensures r.outcome.SavedTo? ==>
              r.state.lastSaved == now && r.outcome.file == FileName(c.stem, r.state.suffix)
  {
    if metric.Some? && Gate(s.best, metric.value, c.betterTh) == DivisionByZero then
      Step(s, Raised(ZeroDivisionError))
    else if !Improves(c, s, metric) then
      Step(s, NotSaved)
    else
      var best := if metric.Some? then Finite(metric.value) else s.best;
      if !Rotates(c, s, metric, now) then
        Step(s.(best := best, lastSaved := now), SavedTo(FileName(c.stem, s.suffix)))
      else
        match NextSuffix(c.maxFiles, s.suffix)
        case None => Step(s.(best := best, suffix := s.suffix + 1), Raised(TypeError))
        case Some(k) => Step(SaverState(k, now, now, best), SavedTo(FileName(c.stem, k)))
  }

  /** A sequence of `save` calls: each pairs the metric (or None) with the clock value. */
  type Call = (Option<real>, real)

  /** The state after a sequence of calls; a call that raised leaves the state it reached. */
  function Run(c: Config, s: SaverState, calls: seq<Call>): SaverState
    decreases |calls|
  {
    if calls == [] then s else Run(c, SaveStep(c, s, calls[0].0, calls[0].1).state, calls[1..])
  }

  predicate SuffixInRange(n: int, s: SaverState) {
    -1 <= s.suffix < n
  }

  /** With `max_files = n >= 1`, the suffix stays in [-1, n-1] whatever is saved, and when. */
  lemma {:induction false} RunKeepsSuffixInRange(c: Config, s: SaverState, calls: seq<Call>)
    requires c.maxFiles.Count? && c.maxFiles.n >= 1
    requires SuffixInRange(c.maxFiles.n, s)
    ensures SuffixInRange(c.maxFiles.n, Run(c, s, calls))
    decreases |calls|
  {
    if calls != [] {
      var next := SaveStep(c, s, calls[0].0, calls[0].1).state;
      assert SuffixInRange(c.maxFiles.n, next);
      RunKeepsSuffixInRange(c, next, calls[1..]);
    }
  }

  predicate PositiveMetrics(calls: seq<Call>) {
    forall i :: 0 <= i < |calls| ==> calls[i].0 == None || calls[i].0.value > 0.0
  }

  /**
   * With positive metrics and `0 <= better_th < 1`, the best value never
   * increases and stays positive, so no call divides by zero.
   */
  lemma {:induction false} RunBestNonIncreasing(c: Config, s: SaverState, calls: seq<Call>)
    requires 0.0 <= c.betterTh < 1.0
    requires PositiveBest(s.best) && PositiveMetrics(calls)
    ensures PositiveBest(Run(c, s, calls).best)
    ensures AtMost(Run(c, s, calls).best, s.best)
    decreases |calls|
  {
    if calls != [] {
      var step := SaveStep(c, s, calls[0].0, calls[0].1);
      var next := step.state;
      if calls[0].0.Some? && s.best.Finite? && step.outcome != NotSaved {
        var m, b := calls[0].0.value, s.best.value;
        assert m <= b * (1.0 - c.betterTh);
        assert b * (1.0 - c.betterTh) <= b;
      }
      assert PositiveBest(next.best) && AtMost(next.best, s.best);
      assert PositiveMetrics(calls[1..]) by {
        forall i | 0 <= i < |calls[1..]| ensures calls[1..][i].0 == None || calls[1..][i].0.value > 0.0 {
          assert calls[1..][i] == calls[i + 1];
        }
      }
      RunBestNonIncreasing(c, next, calls[1..]);
    }
  }

  /** With the as-written guard, `max_files = -1` keeps the suffix at -1 or 0: one file is overwritten. */
  lemma {:induction false} MinusOneUsesOneFile(c: Config, s: SaverState, calls: seq<Call>)
    requires c.maxFiles == MaxFilesGuard(Count(-1))
    requires s.suffix == -1 || s.suffix == 0
    ensures Run(c, s, calls).suffix == -1 || Run(c, s, calls).suffix == 0
    decreases |calls|
  {
    if calls != [] {
      MinusOneUsesOneFile(c, SaveStep(c, s, calls[0].0, calls[0].1).state, calls[1..]);
    }
  }

  /** The suffix after `k` rotations. */
  function Rotations(limit: FileLimit, suffix: int, k: nat): Option<int>
    decreases k
  {
    if k == 0 then Some(suffix)
    else match Rotations(limit, suffix, k - 1)
      case None => None
      case Some(p) => NextSuffix(limit, p)
  }

  /** Euclidean division is determined by quotient and remainder. */
  lemma ModUnique(x: int, n: int, q: int, r: int)
    requires n >= 1 && 0 <= r < n && x == q * n + r
    ensures x % n == r
  {
    var q', r' := x / n, x % n;
    assert x == q' * n + r';
    assert (q - q') * n == r' - r;
    if q - q' >= 1 {
      assert false;
    } else if q - q' <= -1 {
      assert false;
    }
  }

  lemma ModStep(x: int, n: int)
    requires n >= 1
    ensures ((x % n) + 1) % n == (x + 1) % n
  {
    var q, r := x / n, x % n;
    assert x == q * n + r;
    if r + 1 < n {
      ModUnique(x + 1, n, q, r + 1);
      ModUnique(r + 1, n, 0, r + 1);
    } else {
      ModUnique(x + 1, n, q + 1, 0);
      ModUnique(r + 1, n, 1, 0);
    }
  }

  /** Successive rotations from suffix `s` visit `(s + k) mod n`: 0, 1, ..., n-1, 0, ... from -1. */
  lemma {:induction false} RotationsCycle(n: int, suffix: int, k: nat)
    requires n >= 1 && -1 <= suffix < n && k >= 1
    ensures Rotations(Count(n), suffix, k) == Some((suffix + k) % n)
    decreases k
  {
    if k > 1 {
      RotationsCycle(n, suffix, k - 1);
      var p := (suffix + k - 1) % n;
      assert NextSuffix(Count(n), p) == Some((p + 1) % n);
      ModStep(suffix + k - 1, n);
    }
  }

  /** With `max_files = float('inf')` the suffix never wraps: `k` rotations from `s` give `s + k`. */
  lemma {:induction false} UnlimitedRotationsCount(suffix: int, k: nat)
    ensures Rotations(Unlimited, suffix, k) == Some(suffix + k)
    decreases k
  {
    if k > 0 {
      UnlimitedRotationsCount(suffix, k - 1);
    }
  }

  /** The checkpoint policy object; `save` is `Save` with the clock passed in. */
  class LoadSaveModel {
    const stem: string
    const nameTimeInterval: real
    const betterTh: real
    const maxFiles: FileLimit

    var outputFileSuffix: int
    var newNameTime: real
    var lastSaved: real
    var bestMetricVal: Best

    function Cfg(): Config {
      Config(stem, nameTimeInterval, betterTh, maxFiles)
    }

    function State(): SaverState
      reads this
    {
      SaverState(outputFileSuffix, newNameTime, lastSaved, bestMetricVal)
    }

    /** `outputStem` is the output file with its suffix removed (`with_suffix('')`). */
    constructor (outputStem: string, nameTimeInterval: real := 3600.0,
                 betterTh: real := 0.000001, maxFiles: FileLimit := Count(3))
      ensures Cfg() == Config(outputStem, nameTimeInterval, betterTh, MaxFilesGuard(maxFiles))
      ensures State() == InitialState
    {
      stem := outputStem;
      this.nameTimeInterval := nameTimeInterval;
      this.betterTh := betterTh;
      this.maxFiles := MaxFilesGuard(maxFiles);
      outputFileSuffix := -1;
      lastSaved := 0.0;
      newNameTime := 0.0;
      bestMetricVal := Infinity;
    }

    method Save(metric: Option<real>, now: real) returns (outcome: Outcome)
      modifies this
      ensures Step(State(), outcome) == SaveStep(Cfg(), old(State()), metric, now)
    {
      if metric.Some? {
        var relDiff: real;
        match bestMetricVal {
          case Infinity =>
            relDiff := 0.0;
          case Finite(b) =>
            if b == 0.0 {
              return Raised(ZeroDivisionError);
            }
            relDiff := metric.value / b;
        }
        if relDiff <= 1.0 - betterTh {
          bestMetricVal := Finite(metric.value);
        } else {
          return NotSaved;
        }
      }

      if now > newNameTime + nameTimeInterval || metric == None {
        outputFileSuffix := outputFileSuffix + 1;
        match maxFiles {
          case Missing =>
            return Raised(TypeError);
          case Unlimited =>
          case Count(n) =>
            if outputFileSuffix > n - 1 {
              outputFileSuffix := 0;
            }
        }
        newNameTime := now;
      }

      outcome := SavedTo(FileName(stem, outputFileSuffix));
      lastSaved := now;
    }
  }
}
