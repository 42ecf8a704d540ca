/**
  The synthetic document the measured program builds for one run
  (`make_json` in src/main.rs), and which case of the two strategies a given
  `--json-size` puts it in.

  The random generator is an oracle `draw`: `draw(k)` is the `k`-th number
  `rng.gen::<u64>()` yields. Only the number of values and the way their
  decimal renderings are joined into the array body matter to the model.
 */
module Payload {
  import opened Results
  import opened Text
  import opened Reductions

  /** Number of elements of Rust's half-open range `lo..hi`. */
  function RangeLen(lo: nat, hi: nat): nat
  {
    if lo < hi then hi - lo else 0
  }

  /** The values `make_json(valuesLen)` generates, one per element of
      `1..valuesLen`: `valuesLen - 1` of them, none for 0 or 1. */
  function MakeValues(valuesLen: nat, draw: nat -> nat): (vs: seq<nat>)
    ensures valuesLen >= 1 ==> |vs| == valuesLen - 1
    ensures valuesLen == 0 ==> |vs| == 0
    ensures forall k :: 0 <= k < |vs| ==> vs[k] == draw(k)
  {
    seq(RangeLen(1, valuesLen), k requires 0 <= k => draw(k))
  }

  /** `format!("{}", n)` of every value, in order. */
  function Decimals(vs: seq<nat>): (ds: seq<string>)
    ensures |ds| == |vs|
  {
    seq(|vs|, k requires 0 <= k < |vs| => Decimal(vs[k]))
  }

  /** The separator `values.join(",\n")` puts between the renderings. */
  const ElementSeparator: string := ",\n"

  /** The text between `[` and `]` of the generated `values` array. */
  function ArrayBody(vs: seq<nat>): string
  {
    Join(Decimals(vs), ElementSeparator)
  }

  /** The document template before the array body ... */
  const JsonHead: string := "{\n        \"id\": \"demo-deserialize-max\",\n        \"values\": [\n            "
  /** ... and after it. */
  const JsonTail: string := "\n        ]\n    }"

  /** A JSON unsigned integer literal: `0`, or digits without a leading zero
      (RFC 8259, section 6). */
  function JsonUint(tok: string): (r: Option<nat>)
    ensures r.Some? <==> |tok| > 0 && AllDigits(tok) && (tok[0] == '0' ==> |tok| == 1)
  {
    if |tok| > 0 && AllDigits(tok) && (tok[0] != '0' || |tok| == 1)
    then Some(DigitsValue(tok)) else None
  }

  /** Reads the comma-separated pieces of an array body as unsigned
      integers, each surrounded by optional JSON whitespace. */
  function ReadElements(pieces: seq<string>): (r: Option<seq<nat>>)
    ensures r.Some? ==> |r.value| == |pieces|
  {
    if |pieces| == 0 then Some([])
    else
      var head := JsonUint(Trim(pieces[0]));
      var tail := ReadElements(pieces[1..]);
      if head.Some? && tail.Some? then Some([head.value] + tail.value) else None
  }

  /** How a JSON reader sees an array body of unsigned integers: blank means
      the empty array, otherwise comma-separated numbers. */
  function ReadArrayBody(body: string): Option<seq<nat>>
  {
    if Trim(body) == "" then Some([]) else ReadElements(Split(body, ','))
  }

  /** A decimal rendering reads back as a JSON number with the same value. */
  lemma DecimalIsJsonUint(n: nat)
    ensures JsonUint(Decimal(n)) == Some(n)
  {
  }

  /** A decimal rendering has no JSON whitespace and no comma. */
  lemma DecimalIsPlain(n: nat)
    ensures !IsJsonSpace(Decimal(n)[0]) && !IsJsonSpace(Decimal(n)[|Decimal(n)| - 1])
    ensures ',' !in Decimal(n)
  {
    var d := Decimal(n);
    assert IsDigit(d[|d| - 1]);
  }

  /** JSON whitespace brings no comma with it. */
  lemma NoCommaAfterPad(pad: string, t: string)
    requires forall k :: 0 <= k < |pad| ==> IsJsonSpace(pad[k])
    requires ',' !in t
    ensures ',' !in pad + t
  {
    forall k | 0 <= k < |pad + t|
      ensures (pad + t)[k] != ','
    {
      if k < |pad| {
        assert IsJsonSpace(pad[k]);
      } else {
        assert (pad + t)[k] == t[k - |pad|];
      }
    }
  }

  /** The array body of two or more values is the first rendering, the
      separator, and the body of the rest; `pad` is any text in front. */
  lemma ArrayBodyCons(pad: string, vs: seq<nat>)
    requires |vs| > 1
    ensures pad + ArrayBody(vs) == (pad + Decimal(vs[0])) + [','] + ("\n" + ArrayBody(vs[1..]))
  {
    assert Decimals(vs)[1..] == Decimals(vs[1..]);
    assert ArrayBody(vs) == Decimal(vs[0]) + ElementSeparator + ArrayBody(vs[1..]);
  }

  /** One padded rendering reads as one value. */
  lemma ReadPaddedDecimal(pad: string, v: nat)
    requires forall k :: 0 <= k < |pad| ==> IsJsonSpace(pad[k])
    ensures ',' !in pad + Decimal(v)
    ensures JsonUint(Trim(pad + Decimal(v))) == Some(v)
  {
    DecimalIsPlain(v);
    DecimalIsJsonUint(v);
    NoCommaAfterPad(pad, Decimal(v));
    TrimPadded(pad, Decimal(v));
  }

  /** Reading pieces one at a time: a readable first piece followed by
      readable pieces. */
  lemma ReadElementsCons(p: string, ps: seq<string>, vs: seq<nat>)
    requires |vs| > 0
    requires JsonUint(Trim(p)) == Some(vs[0])
    requires ReadElements(ps) == Some(vs[1..])
    ensures ReadElements([p] + ps) == Some(vs)
  {
    assert ([p] + ps)[1..] == ps;
    assert [vs[0]] + vs[1..] == vs;
  }

  /** A single padded rendering is the whole body of a one-value array. */
  lemma ReadPaddedSingle(pad: string, vs: seq<nat>)
    requires |vs| == 1
    requires forall k :: 0 <= k < |pad| ==> IsJsonSpace(pad[k])
    ensures ReadElements(Split(pad + ArrayBody(vs), ',')) == Some(vs)
  {
    var first := pad + Decimal(vs[0]);
    ReadPaddedDecimal(pad, vs[0]);
    assert pad + ArrayBody(vs) == first;
    SplitWithoutSeparator(first, ',');
    assert vs[1..] == [];
    ReadElementsCons(first, [], vs);
    assert [first] + [] == [first];
  }

  /** A readable piece, a comma, then text whose pieces are readable. */
  lemma ReadAfterComma(first: string, tail: string, vs: seq<nat>)
    requires |vs| > 0 && ',' !in first
    requires JsonUint(Trim(first)) == Some(vs[0])
    requires ReadElements(Split(tail, ',')) == Some(vs[1..])
    ensures ReadElements(Split(first + [','] + tail, ',')) == Some(vs)
  {
    SplitAfterPiece(first, ',', tail);
    ReadElementsCons(first, Split(tail, ','), vs);
  }

  /** One more value in front: its padded rendering is cut off at the first
      comma and the rest of the body is read as before, after its newline. */
  lemma ReadPaddedStep(pad: string, vs: seq<nat>)
    requires |vs| > 1
    requires forall k :: 0 <= k < |pad| ==> IsJsonSpace(pad[k])
    requires ReadElements(Split("\n" + ArrayBody(vs[1..]), ',')) == Some(vs[1..])
    ensures ReadElements(Split(pad + ArrayBody(vs), ',')) == Some(vs)
  {
    var first := pad + Decimal(vs[0]);
    var tail := "\n" + ArrayBody(vs[1..]);
    ReadPaddedDecimal(pad, vs[0]);
    ArrayBodyCons(pad, vs);
    ReadAfterComma(first, tail, vs);
  }

  /** The joined renderings, after any JSON whitespace, read back as the
      values. */
  lemma {:induction false} ReadPaddedBody(pad: string, vs: seq<nat>)
    requires |vs| > 0
    requires forall k :: 0 <= k < |pad| ==> IsJsonSpace(pad[k])
    ensures ReadElements(Split(pad + ArrayBody(vs), ',')) == Some(vs)
    decreases |vs|
  {
    if |vs| == 1 {
      ReadPaddedSingle(pad, vs);
    } else {
      ReadPaddedBody("\n", vs[1..]);
      ReadPaddedStep(pad, vs);
    }
  }

  /** Reading the generated array body gives back exactly the generated
      values, in order; for no values the body is blank and reads as `[]`. */
  lemma ArrayBodyRoundTrip(vs: seq<nat>)
    ensures ReadArrayBody(ArrayBody(vs)) == Some(vs)
  {
    var body := ArrayBody(vs);
    if |vs| > 0 {
      var d0 := Decimal(vs[0]);
      if |vs| == 1 {
        assert body == d0;
      } else {
        ArrayBodyCons("", vs);
        assert "" + body == body;
      }
      assert body[0] == d0[0];
      DecimalIsPlain(vs[0]);
      assert TrimStart(body) == body;
      assert Trim(body) != "";
      ReadPaddedBody("", vs);
      assert "" + body == body;
    }
  }

  /** `make_json(valuesLen)`: the template with the joined renderings in
      place of the array body. The document starts with the template's head,
      ends with its tail, and the text between them reads back as the
      generated values. */
  function MakeJson(valuesLen: nat, draw: nat -> nat): (doc: string)
    ensures |doc| >= |JsonHead| + |JsonTail|
    ensures doc[..|JsonHead|] == JsonHead
    ensures doc[|doc| - |JsonTail|..] == JsonTail
    ensures ReadArrayBody(doc[|JsonHead|..|doc| - |JsonTail|]) == Some(MakeValues(valuesLen, draw))
  {
    var body := ArrayBody(MakeValues(valuesLen, draw));
    var doc := JsonHead + body + JsonTail;
    ArrayBodyRoundTrip(MakeValues(valuesLen, draw));
    assert doc[|JsonHead|..|doc| - |JsonTail|] == body;
    doc
  }

  /** Which case a `--json-size` puts the two strategies in: sizes 0 and 1
      generate an empty array, on which `deser_max` fails with "no values in
      seq" and `whole_parsing` answers 0; every larger size generates a
      non-empty array, on which both return its largest value. */
  lemma SizeDecidesCase(size: nat, draw: nat -> nat)
    ensures DeserMax(MakeValues(size, draw)).Err? <==> size <= 1
    ensures size <= 1 ==> WholeParsing(MakeValues(size, draw)) == 0
    ensures size > 1 ==> DeserMax(MakeValues(size, draw)) == Ok(WholeParsing(MakeValues(size, draw)))
  {
    StrategiesAgree(MakeValues(size, draw));
  }
}
