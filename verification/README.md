# json_faster, modelled in Dafny

json_faster times two ways of finding the largest number in the `values`
array of a JSON document:

- a streaming serde visitor (`deser_max`) that never builds the array;
- a whole-document parse (`whole_parsing`).

`src/main.rs` is the measured program. For `--json-size=N` it builds a
document whose array holds one random `u64` value for each element of the
range `1..N`: `N - 1` values, none for N = 0 or 1 (`make_json`). It then
times both strategies, and writes a header line and one
`size,custom,whole` line to its error stream (`bench_for_size`). For N = 0
or 1 the array is empty and `deser_max` fails. The timed call unwraps that
failure (src/main.rs:56), so the program panics before writing either
line.

`perf_test.py` is the driver. It builds the command line (`build_args`),
runs the program ten times for each size 10, 100, 1000 and 5000, reads
each run's error stream (`parse_result`) and averages the two timings per
size (`test_release`, `test_debug`). `parse_result` splits the whole output
on whitespace and needs exactly two pieces, so the header must contain no
whitespace, and `Header` has none. It then splits the second piece on
commas into exactly three fields, drops the size field without parsing it,
and returns the other two as floats.

Modules:

- `Results`: `Option` and `Result`.
- `Text`: Rust's `join`, Python's `str.split(',')` and `str.split()`, JSON
  whitespace trimming, and decimal rendering.
- `Reductions`: the two strategies, over the `values` array as a `seq<nat>`.
- `Payload`: `make_json`, and a JSON reader of its array body.
- `Wire`: the two lines `bench_for_size` writes, and `parse_result`.
- `Harness`: `build_args`, the per-size sweep and its means.

The outside world is passed in as function parameters:

- the random generator, as `draw`;
- the child process's captured error stream, as `Env.stderr`;
- `bytes.decode()`, as `decode`;
- `float()`, as `toFloat`.

## Model

| member | source | states |
|---|---|---|
| Reductions.DeserMax | src/main.rs:35-48 | `deser_max` fails if and only if the array is empty, and then with the custom error "no values in seq"; otherwise it returns an element of the array that no element exceeds |
| Reductions.MaxFold | src/main.rs:43-45 | the `std::cmp::max` loop returns a value at least its seed and every remaining element, and equal to the seed or to one of them |
| Reductions.WholeParsing | src/main.rs:60-72 | `whole_parsing` returns 0 for an empty array and otherwise the largest element, which occurs in the array |
| Reductions.GreaterFold | src/main.rs:64-69 | the strict-`>` update loop bounds its seed and every element, and returns one of them |
| Reductions.FoldsAgree | src/main.rs:43-45 | the `max` fold and the strict-`>` fold give the same result from every seed over every sequence |
| Reductions.StrategiesAgree | src/main.rs:39-41 | the two strategies return the same number exactly when the array is non-empty; on the empty array `deser_max` errors where `whole_parsing` answers 0 |
| Payload.MakeValues | src/main.rs:91-92 | `(1..values_len)` generates `values_len - 1` values (none for 0 or 1), the k-th being the k-th number drawn |
| Payload.ArrayBodyRoundTrip | src/main.rs:93-103 | the decimal renderings joined with `",\n"` read back as a JSON array body giving exactly the values in order; no values give a blank body that reads as `[]` |
| Payload.MakeJson | src/main.rs:89-105 | the document is the template's head, then the array body, then its tail, and the body reads back as the generated values |
| Payload.SizeDecidesCase | src/main.rs:108-110 | `--json-size` 0 or 1 makes `deser_max` fail while `whole_parsing` answers 0; every larger size makes both return the same maximum |
| Text.SplitWhitespace | perf_test.py:22 | `str.split()` returns only non-empty runs of non-whitespace, and a text starting with a non-whitespace character yields a first piece starting with that character |
| Text.SplitWhitespaceRuns | perf_test.py:22 | `str.split()` returns exactly the maximal non-whitespace runs in order: leading, trailing and repeated whitespace of any length produce no pieces |
| Text.Split | perf_test.py:23 | `str.split(',')` gives one more piece than there are commas, no piece holds a comma, and joining the pieces with commas gives back the input |
| Text.SplitJoin | perf_test.py:23 | splitting on a character undoes joining with it, for pieces free of that character |
| Text.SplitWhitespaceJoin | perf_test.py:22 | `str.split()` of tokens joined by one whitespace character gives back the tokens |
| Text.SplitWhitespaceTrailing | perf_test.py:22 | trailing whitespace adds no pieces to `str.split()` |
| Text.Decimal | src/main.rs:93 | `{}` of an unsigned number is non-empty, all digits, has no leading zero unless the number is 0, and reads back as the number |
| Wire.BenchOutput | src/main.rs:112-113 | the output starts with the header line and then the size in decimal followed by a comma, and ends in a newline |
| Wire.BenchForSize | src/main.rs:107-114 | a run panics before writing anything exactly when the size is 0 or 1, where `deser_max` rejects the empty array and its result is unwrapped; every other size writes the two lines of `bench_for_size` |
| Wire.BenchOutputShape | src/main.rs:112-113 | the program writes exactly the header line and a data row, each ending in a newline, and the row splits on commas into size, custom time and whole time |
| Wire.FieldsRoundTrip | perf_test.py:22-23 | `res.split()` of what `bench_for_size` wrote is the header and the row, and `parse_result`'s unpacking returns the custom and whole fields in that order |
| Wire.AsText | perf_test.py:18-21 | bytes are decoded and a decoding failure is an error, text passes unchanged, and any other value raises "result to be parsed must be of type str" |
| Wire.ParseFields | perf_test.py:22-23 | the unpacking succeeds if and only if there are exactly two whitespace tokens and the second holds exactly two commas; otherwise it fails, naming the count that did not match |
| Wire.ParseResult | perf_test.py:17-24 | `parse_result` succeeds if and only if decoding, both unpackings and both `float()` calls succeed, and then returns the two floats of the custom and whole fields |
| Wire.ParseBenchOutput | perf_test.py:17-24 | the output of `bench_for_size`, as bytes or text, parses to its two timings, or fails at the first field `float()` refuses |
| Harness.ReadUsize | src/main.rs:116-124 | the size flag's value is read as `usize::from_str` reads it: an optional `+`, then one or more digits whose value is below 2^64, read as that value; anything else is refused |
| Harness.SizeFlagValue | src/main.rs:116-124 | a size is read only from an argument that starts with `--json-size=` and has text after it, and it is always a valid `usize` |
| Text.IntDecimal | perf_test.py:12 | `f'{json_size}'` of an int is the plain decimal of a non-negative int, and a minus sign before the decimal of the magnitude otherwise |
| Harness.BuildArgs | perf_test.py:10-14 | the debug binary when `debug` holds and the release binary otherwise; the measured program reads the size back from the flag exactly when it is a valid `usize`, and reads nothing otherwise |
| Harness.Mean | perf_test.py:68-69 | `sum(xs) / len(xs)` over the reals: taken `len(xs)` times, the mean makes up the sum |
| Harness.MeanWithinSamples | perf_test.py:68-69 | each average lies between the smallest and the largest of its samples |
| Harness.MeanOfConstant | perf_test.py:68-69 | an average of equal samples is that sample |
| Harness.HarnessTrial | perf_test.py:61-63 | one pass of the inner loop body of `test_release` (`debug` false), and of the same body of `test_debug` at perf_test.py:34-36 (`debug` true): a trial fails with a decoding error when the captured error stream does not decode, and succeeds only when it does |
| Harness.TrialOfBenchOutput | perf_test.py:61-63 | a trial whose run wrote what `bench_for_size` writes returns the two timings written, or fails at the first one `float()` refuses |
| Harness.RunTrials | perf_test.py:60-66 | the ten trials of one size succeed together or not at all; on success they yield the custom and the whole timings in trial order; on failure the error is that of the first failing trial |
| Harness.Sweep | perf_test.py:57-78 | the sweep succeeds if and only if every trial parses; it then returns one entry per size, in the order given, holding the size and the means of that size's custom and whole timings; otherwise it returns the first failing trial's error |
| Harness.TestRelease | perf_test.py:54-78 | the release sweep succeeds exactly when every trial of the release binary parses; it then returns four entries for sizes 10, 100, 1000 and 5000 in that order, each holding the means of that size's custom and whole timings; otherwise it returns the error of the first failing trial |
| Harness.TestDebug | perf_test.py:27-51 | the same for the debug binary: success exactly when every trial parses, four entries for 10, 100, 1000 and 5000 holding the means of each size's timings, otherwise the first failing trial's error |
| Harness.SteadyProgramMeans | perf_test.py:57-71 | a measured program that writes the same two timings on every trial of a size gives that size exactly those two timings as its averages |

## Left out

- Process launching (`subprocess.run`), the half-second `time.sleep`, the progress `print` calls and the `__main__` block. They are I/O or have no effect on the result. Each run's captured error stream is a parameter, and every run is assumed to start: a `subprocess.run` that raises, say on a missing binary, is not modelled. "Success exactly when every trial parses" for `Harness.Sweep`, `Harness.TestRelease` and `Harness.TestDebug` holds under that assumption only.
- `plot_test_result` and the rest of `perf_test.py` after `test_release`. This is matplotlib rendering.
- `measure_avg_duration` (src/main.rs:74-87). It reads the clock and does `f64` arithmetic, so the two timings are opaque comma-free, whitespace-free tokens.
- `mem_effc_parsing` and serde's deserialization of `Outer`. The JSON document is abstracted to its `values` array, and `deser_max` to its visitor loop.
- The random generator of `make_json`. It is a parameter `draw`.
- Payload.MakeValues: values are `nat`, and the 64-bit bound of `u64` is not enforced.
- The `"id"` field is kept only as template text.
- Wire.ParseResult: `float()` and `bytes.decode()` are parameters. Python's float syntax, `inf`/`nan` and UTF-8 decoding are not modelled.
- Harness.BuildArgs: clap's argument parsing is modelled only as `usize::from_str` after the `--json-size=` prefix. Calls that rely on the keyword defaults are covered by giving both arguments. CPython's limit on int-to-str conversion is not modelled: `f'{json_size}'` of an int with more than 4300 digits raises `ValueError`, so `build_args` returns no tuple. `BuildArgs` describes ints of at most 4300 digits only.
- Text.IntDecimal: CPython's int-to-str digit limit (`sys.int_info.default_max_str_digits`, 4300) and the `ValueError` it raises are not modelled. `IntDecimal` renders every int, so it matches Python only for ints of at most 4300 digits.
- The two assignments to `release_bin` (perf_test.py:6-7). Nothing reads them.
- The `expecting` message of the visitor (src/main.rs:31-33). It appears only in serde's own type errors.
- Wire.BenchOutput: describes the output of sizes 2 and above only. For sizes 0 and 1 the run panics in `mem_effc_parsing` (src/main.rs:56) before writing anything. `Wire.BenchForSize` records this as `Panicked`, and the panic message's text is not modelled. `parse_result` would then see that text and most likely fail on the token count.
- Harness.Mean: the means are computed over `real`, and IEEE-754 rounding of `sum` and `/` is not modelled. `Mean`, `MeanBetween`, `MeanWithinSamples`, `MeanOfConstant` and `SteadyProgramMeans` hold for the real-number mean only. With doubles, a mean can fall just outside its samples, and ten equal samples need not average to that sample.
