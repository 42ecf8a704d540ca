/**
  The benchmark driver (perf_test.py): the command line for one run
  (`build_args`), and the sweep of `test_release` / `test_debug`, which runs
  the measured program `Repetitions` times per size, reads each run with
  `parse_result`, and reports one `(size, custom average, whole average)`
  tuple per size, in order.

  Launching the process is an oracle: `env.stderr(args, i, j)` is what the
  child started with `args` wrote to its error stream on the `j`-th trial of
  the `i`-th size. The half-second pause between trials and the progress
  lines printed after each size have no effect on the result and are not
  modelled.
 */
module Harness {
  import opened Results
  import opened Text
  import opened Wire

  /* ---------------- command line ---------------- */

  const DebugBin: string := "./target/debug/json_faster"
  const ReleaseBin: string := "./target/release/json_faster"
  const SizeFlagPrefix: string := "--json-size="

  /** The argument tuple handed to `subprocess.run`: program path and the
      size flag. */
  datatype Args = Args(path: string, flag: string)

  /** One past the largest `usize` of a 64-bit target. */
  const UsizeLimit: nat := 0x1_0000_0000_0000_0000

  /** What Rust's `usize::from_str` accepts: an optional `+`, then one or more
      decimal digits whose value fits in a `usize`. */
  function ReadUsize(s: string): (r: Option<nat>)
    ensures r.Some? ==> r.value < UsizeLimit
  {
    var digits := if |s| > 0 && s[0] == '+' then s[1..] else s;
    if |digits| > 0 && AllDigits(digits) && DigitsValue(digits) < UsizeLimit
    then Some(DigitsValue(digits)) else None
  }

  /** The size the measured program reads from a `--json-size=<N>` argument,
      if it reads one. */
  function SizeFlagValue(flag: string): (r: Option<nat>)
    ensures r.Some? ==> |flag| > |SizeFlagPrefix| && flag[..|SizeFlagPrefix|] == SizeFlagPrefix
    ensures r.Some? ==> r.value < UsizeLimit
  {
    if |flag| >= |SizeFlagPrefix| && flag[..|SizeFlagPrefix|] == SizeFlagPrefix
    then ReadUsize(flag[|SizeFlagPrefix|..]) else None
  }

  /** `build_args(debug, json_size)`: the debug binary when `debug` holds,
      the release binary otherwise, and in both cases a size flag from which
      the measured program reads back exactly `jsonSize` when that is a valid
      `usize`, and nothing otherwise (a negative Python int renders with a
      minus sign). */
  function BuildArgs(debug: bool, jsonSize: int): (a: Args)
    ensures a.path == (if debug then DebugBin else ReleaseBin)
    ensures SizeFlagValue(a.flag) == (if 0 <= jsonSize < UsizeLimit then Some(jsonSize) else None)
  {
    var flag := SizeFlagPrefix + IntDecimal(jsonSize);
    assert flag[..|SizeFlagPrefix|] == SizeFlagPrefix;
    assert flag[|SizeFlagPrefix|..] == IntDecimal(jsonSize);
    Args(if debug then DebugBin else ReleaseBin, flag)
  }

  /* ---------------- arithmetic means ---------------- */

  /** Python's `sum` of a list of numbers, left to right from 0. */
  function Sum(xs: seq<real>): real
  {
    if |xs| == 0 then 0.0 else Sum(xs[..|xs| - 1]) + xs[|xs| - 1]
  }


  /** The smallest element. */
  function SeqMin(xs: seq<real>): (m: real)
    requires |xs| > 0
    ensures m in xs
    ensures forall k :: 0 <= k < |xs| ==> m <= xs[k]
  {
    if |xs| == 1 then xs[0]
    else
      var m := SeqMin(xs[1..]);
      if xs[0] <= m then xs[0] else m
  }

  /** The largest element. */
  function SeqMax(xs: seq<real>): (m: real)
    requires |xs| > 0
    ensures m in xs
    ensures forall k :: 0 <= k < |xs| ==> xs[k] <= m
  {
    if |xs| == 1 then xs[0]
    else
      var m := SeqMax(xs[1..]);
      if xs[0] >= m then xs[0] else m
  }

  /** Bounds on the elements give bounds on the sum. */
  lemma {:induction false} SumBounds(xs: seq<real>, lo: real, hi: real)
    requires forall k :: 0 <= k < |xs| ==> lo <= xs[k] <= hi
    ensures (|xs| as real) * lo <= Sum(xs) <= (|xs| as real) * hi
  {
    if |xs| > 0 {
      var init := xs[..|xs| - 1];
      assert forall k :: 0 <= k < |init| ==> init[k] == xs[k];
      SumBounds(init, lo, hi);
      assert (|xs| as real) * lo == (|init| as real) * lo + lo;
      assert (|xs| as real) * hi == (|init| as real) * hi + hi;
    }
  }

  /** Bounds on the samples bound their mean. */
  lemma MeanBetween(xs: seq<real>, lo: real, hi: real)
    requires |xs| > 0
    requires forall k :: 0 <= k < |xs| ==> lo <= xs[k] <= hi
    ensures lo <= Mean(xs) <= hi
  {
    SumBounds(xs, lo, hi);
    DivideBetween(Sum(xs), |xs| as real, lo, hi);
  }

  /** Dividing by a positive count undoes multiplying by it, and keeps a
      sum between count times the bounds of its terms within those bounds. */
  lemma DivideBetween(s: real, n: real, lo: real, hi: real)
    requires n > 0.0 && n * lo <= s <= n * hi
    ensures (s / n) * n == s
    ensures lo <= s / n <= hi
  {
  }

  /** `sum(xs) / len(xs)` over the reals: the value that, taken `len(xs)`
      times, makes up the sum. */
  function Mean(xs: seq<real>): (m: real)
    requires |xs| > 0
    ensures m * (|xs| as real) == Sum(xs)
  {
    Sum(xs) / (|xs| as real)
  }

  /** The mean lies between the smallest and the largest sample. */
  lemma MeanWithinSamples(xs: seq<real>)
    requires |xs| > 0
    ensures SeqMin(xs) <= Mean(xs) <= SeqMax(xs)
  {
    MeanBetween(xs, SeqMin(xs), SeqMax(xs));
  }

  /** When every sample is `x`, the mean is `x`. */
  lemma MeanOfConstant(xs: seq<real>, x: real)
    requires |xs| > 0
    requires forall k :: 0 <= k < |xs| ==> xs[k] == x
    ensures Mean(xs) == x
  {
    MeanBetween(xs, x, x);
  }

  /* ---------------- the sweep ---------------- */

  /** Trials per size (`for _ in range(10)`). */
  const Repetitions: nat := 10

  /** The sizes `test_release` and `test_debug` sweep, in order. */
  const JsonSizes: seq<int> := [10, 100, 1000, 5000]

  /** One entry of the sweep's result: `(size, custom_avg, whole_avg)`. */
  datatype Aggregate = Aggregate(size: int, customAvg: real, wholeAvg: real)

  /** The outside world the sweep sees: the child's error-stream bytes per
      run, `bytes.decode()`, and `float()`. */
  datatype Env = Env(
    stderr: (Args, nat, nat) -> seq<byte>,
    decode: seq<byte> -> Option<string>,
    toFloat: string -> Option<real>)

  /** One trial of the sweep, given the size, the size's position in the
      sweep and the trial number. */
  type TrialFn = (int, nat, nat) -> Result<Sample, ParseError>

  /** The body of the inner loop of `test_release` (`debug` false) and
      `test_debug` (`debug` true): build the arguments, run the measured
      program, parse what it wrote to its error stream. */
  function HarnessTrial(env: Env, debug: bool): (t: TrialFn)
    ensures forall size: int, i: nat, j: nat ::
              env.decode(env.stderr(BuildArgs(debug, size), i, j)).None? ==> t(size, i, j) == Err(DecodeError)
    ensures forall size: int, i: nat, j: nat :: t(size, i, j).Ok? ==>
              env.decode(env.stderr(BuildArgs(debug, size), i, j)).Some?
  {
    (size: int, i: nat, j: nat) =>
      ParseResult(Bytes(env.stderr(BuildArgs(debug, size), i, j)), env.decode, env.toFloat)
  }

  /** All trials of the `i`-th size parse. */
  predicate GroupOk(trial: TrialFn, size: int, i: nat)
  {
    forall j :: 0 <= j < Repetitions ==> trial(size, i, j).Ok?
  }

  /** The custom timings of the `i`-th size, in trial order (`c_times`). */
  function CustomTimes(trial: TrialFn, size: int, i: nat): (ts: seq<real>)
    requires GroupOk(trial, size, i)
    ensures |ts| == Repetitions
  {
    seq(Repetitions, j requires 0 <= j < Repetitions => trial(size, i, j).value.custom)
  }

  /** The whole-document timings of the `i`-th size, in trial order (`w_times`). */
  function WholeTimes(trial: TrialFn, size: int, i: nat): (ts: seq<real>)
    requires GroupOk(trial, size, i)
    ensures |ts| == Repetitions
  {
    seq(Repetitions, j requires 0 <= j < Repetitions => trial(size, i, j).value.whole)
  }

  /** The aggregate the sweep reports for the `i`-th size. */
  function GroupAggregate(trial: TrialFn, size: int, i: nat): Aggregate
    requires GroupOk(trial, size, i)
  {
    Aggregate(size, Mean(CustomTimes(trial, size, i)), Mean(WholeTimes(trial, size, i)))
  }

  /** Trial `j` of the `i`-th size is the first one, in sweep order, that fails. */
  predicate FirstFailure(trial: TrialFn, sizes: seq<int>, i: nat, j: nat)
  {
    && i < |sizes| && j < Repetitions
    && trial(sizes[i], i, j).Err?
    && (forall i' :: 0 <= i' < i ==> GroupOk(trial, sizes[i'], i'))
    && (forall j' :: 0 <= j' < j ==> trial(sizes[i], i, j').Ok?)
  }

  /** The inner loop of the sweep for the `i`-th size: `Repetitions` trials
      in order, collecting `c_times` and `w_times`. It succeeds exactly when
      every trial parses, with the timings in trial order; otherwise the
      error is that of the first trial that failed. */
  method RunTrials(trial: TrialFn, size: int, i: nat)
    returns (r: Result<(seq<real>, seq<real>), ParseError>)
    ensures r.Ok? <==> GroupOk(trial, size, i)
    ensures r.Ok? ==> r.value.0 == CustomTimes(trial, size, i)
                      && r.value.1 == WholeTimes(trial, size, i)
    ensures r.Err? ==> exists j: nat :: j < Repetitions && trial(size, i, j) == Err(r.error)
                                        && forall j' :: 0 <= j' < j ==> trial(size, i, j').Ok?
  {
    var cTimes: seq<real> := [];
    var wTimes: seq<real> := [];
    var j := 0;
    while j < Repetitions
      invariant 0 <= j <= Repetitions
      invariant |cTimes| == j && |wTimes| == j
      invariant forall j' :: 0 <= j' < j ==> trial(size, i, j').Ok?
      invariant forall j' :: 0 <= j' < j ==> cTimes[j'] == trial(size, i, j').value.custom
      invariant forall j' :: 0 <= j' < j ==> wTimes[j'] == trial(size, i, j').value.whole
    {
      var t := trial(size, i, j);
      if t.Err? {
        return Err(t.error);
      }
      cTimes := cTimes + [t.value.custom];
      wTimes := wTimes + [t.value.whole];
      j := j + 1;
    }
    return Ok((cTimes, wTimes));
  }

  /** What the sweep over `sizes` returns: success exactly when every
      trial parses, and then one entry per size, in the order of `sizes`,
      carrying that size and the means of its custom and whole timings;
      otherwise the error of the first trial that failed, and nothing for
      any size. */
  ghost predicate SweepOutcome(trial: TrialFn, sizes: seq<int>, r: Result<seq<Aggregate>, ParseError>)
  {
    && (r.Ok? <==> forall i :: 0 <= i < |sizes| ==> GroupOk(trial, sizes[i], i))
    && (r.Ok? ==> |r.value| == |sizes|
                  && forall i :: 0 <= i < |sizes| ==> r.value[i] == GroupAggregate(trial, sizes[i], i))
    && (r.Err? ==> exists i: nat, j: nat :: FirstFailure(trial, sizes, i, j)
                                            && trial(sizes[i], i, j) == Err(r.error))
  }

  /** The outer loop of `test_release` and `test_debug` over `sizes`: the
      aggregates of every size in order, or the first failure. */
  method Sweep(trial: TrialFn, sizes: seq<int>) returns (r: Result<seq<Aggregate>, ParseError>)
    ensures SweepOutcome(trial, sizes, r)
  {
    var result: seq<Aggregate> := [];
    var i := 0;
    while i < |sizes|
      invariant 0 <= i <= |sizes|
      invariant |result| == i
      invariant forall i' :: 0 <= i' < i ==> GroupOk(trial, sizes[i'], i')
      invariant forall i' :: 0 <= i' < i ==> result[i'] == GroupAggregate(trial, sizes[i'], i')
    {
      var size := sizes[i];
      var group := RunTrials(trial, size, i);
      if group.Err? {
        ghost var j: nat :| j < Repetitions && trial(size, i, j) == Err(group.error)
                            && forall j' :: 0 <= j' < j ==> trial(size, i, j').Ok?;
        assert FirstFailure(trial, sizes, i, j);
        return Err(group.error);
      }
      var (cTimes, wTimes) := group.value;
      var customAvg := Sum(cTimes) / (|cTimes| as real);
      var wholeAvg := Sum(wTimes) / (|wTimes| as real);
      result := result + [Aggregate(size, customAvg, wholeAvg)];
      i := i + 1;
    }
    return Ok(result);
  }

  /** A trial whose run wrote what `bench_for_size` writes gives back the
      two timings written, or fails at the first one `float()` refuses;
      which binary ran and with which flag follow `debug` and `size`. */
  lemma TrialOfBenchOutput(env: Env, debug: bool, size: int, i: nat, j: nat,
                           printed: nat, custom: string, whole: string)
    requires IsField(custom) && IsField(whole)
    requires env.decode(env.stderr(BuildArgs(debug, size), i, j)) == Some(BenchOutput(printed, custom, whole))
    ensures env.toFloat(custom).None? ==> HarnessTrial(env, debug)(size, i, j) == Err(NotAFloat(custom))
    ensures env.toFloat(custom).Some? && env.toFloat(whole).None? ==>
              HarnessTrial(env, debug)(size, i, j) == Err(NotAFloat(whole))
    ensures env.toFloat(custom).Some? && env.toFloat(whole).Some? ==>
              HarnessTrial(env, debug)(size, i, j) == Ok(Sample(env.toFloat(custom).value, env.toFloat(whole).value))
  {
    ParseBenchOutput(printed, custom, whole, Bytes(env.stderr(BuildArgs(debug, size), i, j)), env.decode, env.toFloat);
  }

  /** `test_release()`: the sweep over the release binary and the four
      default sizes. On success, four entries for 10, 100, 1000 and 5000 in
      that order, each holding the means of that size's custom and whole
      timings; on failure, the error of the first trial that failed. */
  method TestRelease(env: Env) returns (r: Result<seq<Aggregate>, ParseError>)
    ensures SweepOutcome(HarnessTrial(env, false), JsonSizes, r)
    ensures r.Ok? ==> |r.value| == 4
    ensures r.Ok? ==> r.value[0].size == 10 && r.value[1].size == 100
                      && r.value[2].size == 1000 && r.value[3].size == 5000
  {
    r := Sweep(HarnessTrial(env, false), JsonSizes);
  }

  /** `test_debug()`: the same sweep over the debug binary. */
  method TestDebug(env: Env) returns (r: Result<seq<Aggregate>, ParseError>)
    ensures SweepOutcome(HarnessTrial(env, true), JsonSizes, r)
    ensures r.Ok? ==> |r.value| == 4
    ensures r.Ok? ==> r.value[0].size == 10 && r.value[1].size == 100
                      && r.value[2].size == 1000 && r.value[3].size == 5000
  {
    r := Sweep(HarnessTrial(env, true), JsonSizes);
  }

  /** A measured program that reports the same two timings on every trial of
      a size: every trial parses, and the averages are exactly those
      timings. */
  lemma SteadyProgramMeans(env: Env, debug: bool, size: int, i: nat,
                           printed: nat, custom: string, whole: string)
    requires IsField(custom) && IsField(whole)
    requires env.toFloat(custom).Some? && env.toFloat(whole).Some?
    requires forall j :: 0 <= j < Repetitions ==>
               env.decode(env.stderr(BuildArgs(debug, size), i, j)) == Some(BenchOutput(printed, custom, whole))
    ensures GroupOk(HarnessTrial(env, debug), size, i)
    ensures GroupAggregate(HarnessTrial(env, debug), size, i)
            == Aggregate(size, env.toFloat(custom).value, env.toFloat(whole).value)
  {
    var trial := HarnessTrial(env, debug);
    forall j | 0 <= j < Repetitions
      ensures trial(size, i, j) == Ok(Sample(env.toFloat(custom).value, env.toFloat(whole).value))
    {
      var res := Bytes(env.stderr(BuildArgs(debug, size), i, j));
      ParseBenchOutput(printed, custom, whole, res, env.decode, env.toFloat);
    }
    MeanOfConstant(CustomTimes(trial, size, i), env.toFloat(custom).value);
    MeanOfConstant(WholeTimes(trial, size, i), env.toFloat(whole).value);
  }
}
