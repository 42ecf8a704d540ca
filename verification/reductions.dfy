/**
  The two "largest value of the `values` array" strategies that the measured
  program (src/main.rs) times against each other.

  The JSON document is abstracted to its `values` array, a `seq<nat>` of
  unsigned 64-bit numbers; serde's "next element" protocol becomes iteration
  over that sequence, front to back.

  - `DeserMax` is the streaming visitor (`deser_max` / `MaxVisitor::visit_seq`):
    seeded with the first element, folded with `std::cmp::max`, failing when
    there is no first element.
  - `WholeParsing` is the whole-document strategy (`whole_parsing`): seeded
    with 0, folded with a strict `>` comparison.
 */
module Reductions {
  import opened Results

  /** serde's `de::Error::custom(msg)`. */
  datatype DeError = Custom(msg: string)

  /** The message `visit_seq` reports for an empty sequence. */
  const NoValuesInSeq: string := "no values in seq"

  /** `m` is the largest element of `xs`: it occurs in `xs` and nothing in
      `xs` exceeds it. */
  predicate IsMaxOf(m: nat, xs: seq<nat>)
  {
    m in xs && forall k :: 0 <= k < |xs| ==> xs[k] <= m
  }

  /** `std::cmp::max(a, b)`: `b` when the two compare equal. */
  function RustMax(a: nat, b: nat): nat
  {
    if a <= b then b else a
  }

  /** The `while let Some(v) = seq.next_element()` loop of `visit_seq`: fold
      the remaining elements into the running maximum `acc`. The result is
      at least the seed and every remaining element, and is one of them. */
  function MaxFold(acc: nat, rest: seq<nat>): (m: nat)
    ensures acc <= m
    ensures forall k :: 0 <= k < |rest| ==> rest[k] <= m
    ensures m == acc || m in rest
    decreases |rest|
  {
    if |rest| == 0 then acc
    else MaxFold(RustMax(acc, rest[0]), rest[1..])
  }

  /** `deser_max` over the `values` array. An empty array is the error
      "no values in seq" and nothing else; otherwise the result is the
      largest element. */
  function DeserMax(values: seq<nat>): (r: Result<nat, DeError>)
    ensures r.Err? <==> |values| == 0
    ensures r.Err? ==> r.error == Custom(NoValuesInSeq)
    ensures r.Ok? ==> IsMaxOf(r.value, values)
  {
    if |values| == 0 then Err(Custom(NoValuesInSeq))
    else Ok(MaxFold(values[0], values[1..]))
  }

  /** The `for v in values` loop of `whole_parsing`: the accumulator is
      replaced only by a strictly greater element. */
  function GreaterFold(acc: nat, rest: seq<nat>): (m: nat)
    ensures acc <= m
    ensures forall k :: 0 <= k < |rest| ==> rest[k] <= m
    ensures m == acc || m in rest
    decreases |rest|
  {
    if |rest| == 0 then acc
    else GreaterFold(if rest[0] > acc then rest[0] else acc, rest[1..])
  }

  /** `whole_parsing` over the `values` array: 0 for an empty array (the
      loop never runs), otherwise the largest element. */
  function WholeParsing(values: seq<nat>): (r: nat)
    ensures forall k :: 0 <= k < |values| ==> values[k] <= r
    ensures |values| == 0 ==> r == 0
    ensures |values| > 0 ==> IsMaxOf(r, values)
  {
    var r := GreaterFold(0, values);
    assert |values| > 0 && r == 0 ==> values[0] == r;
    r
  }

  /** The two folds compute the same value from every seed. No induction is
      needed: the contracts of `MaxFold` and `GreaterFold` each pin their
      result as the largest of the seed and the rest, which is unique. */
  lemma FoldsAgree(acc: nat, rest: seq<nat>)
    ensures GreaterFold(acc, rest) == MaxFold(acc, rest)
  {
  }

  /** The benchmark compares two strategies that agree exactly on the
      non-empty arrays: `deser_max` succeeds with `whole_parsing`'s answer if
      and only if the array is non-empty, and on the empty array it fails
      where `whole_parsing` answers 0. This too follows from the contracts
      of `DeserMax` and `WholeParsing`, which both state `IsMaxOf`. */
  lemma StrategiesAgree(values: seq<nat>)
    ensures DeserMax(values) == Ok(WholeParsing(values)) <==> |values| > 0
    ensures |values| == 0 ==> DeserMax(values) == Err(Custom(NoValuesInSeq)) && WholeParsing(values) == 0
  {
  }
}
