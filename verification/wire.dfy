/**
  The text the measured program writes to its error stream after one run
  (`bench_for_size`, src/main.rs) and the harness's reader for it
  (`parse_result`, perf_test.py).

  The two timing fields are `{}` renderings of `f64` values. They are kept
  as opaque tokens with no comma and no whitespace; turning them into
  numbers is Python's `float()`, passed in as `toFloat` over `real`.
  Decoding captured bytes is Python's `bytes.decode()`, passed in as
  `decode`.
 */
module Wire {
  import opened Results
  import opened Text
  import opened Reductions
  import opened Payload

  /* ---------------- writer (src/main.rs) ---------------- */

  /** The header line `bench_for_size` prints first. */
  const Header: string := "Size,Custom,Whole"

  /** A timing field as `{}` of an `f64` prints it: no comma, no whitespace. */
  predicate IsField(t: string)
  {
    ',' !in t && forall k :: 0 <= k < |t| ==> !IsPySpace(t[k])
  }

  /** The second line: size, custom time and whole time, comma-separated. */
  function DataRow(size: nat, custom: string, whole: string): string
  {
    Decimal(size) + "," + custom + "," + whole
  }

  /** Everything `bench_for_size(size)` writes once both timings are taken:
      the header line, then a line starting with the size in decimal and a
      comma, each line ending in a newline and nothing after the second. */
  function BenchOutput(size: nat, custom: string, whole: string): (r: string)
    ensures |r| > |Header| + 1 + |Decimal(size)| + 1
    ensures r[..|Header| + 1] == Header + "\n"
    ensures r[|Header| + 1..|Header| + 1 + |Decimal(size)| + 1] == Decimal(size) + ","
    ensures r[|r| - 1] == '\n'
  {
    var d := Decimal(size);
    var r := Header + "\n" + DataRow(size, custom, whole) + "\n";
    assert r[|Header| + 1..|Header| + 1 + |d| + 1] == d + ",";
    r
  }

  /** How one run of the measured program ends. */
  datatype RunOutcome =
    | Panicked            // `unwrap()` of a failed parse, before anything is written
    | Wrote(text: string) // the two lines of `bench_for_size`

  /** `main` with `--json-size=<size>`: the document is built from `draw`,
      `custom` and `whole` are the renderings of the two measured averages.
      The streaming strategy runs first and is unwrapped, so an array it
      rejects ends the run before the output lines; that happens exactly for
      sizes 0 and 1. Every larger size writes `BenchOutput`. */
  function BenchForSize(size: nat, draw: nat -> nat, custom: string, whole: string): (o: RunOutcome)
    ensures o.Panicked? <==> size <= 1
    ensures o.Wrote? ==> o.text == BenchOutput(size, custom, whole)
  {
    SizeDecidesCase(size, draw);
    if DeserMax(MakeValues(size, draw)).Err? then Panicked
    else Wrote(BenchOutput(size, custom, whole))
  }

  /** The header has no whitespace and the data row is one token too. */
  lemma LinesAreTokens(size: nat, custom: string, whole: string)
    requires IsField(custom) && IsField(whole)
    ensures IsToken(Header)
    ensures IsToken(DataRow(size, custom, whole))
  {
    var d := Decimal(size);
    var row := DataRow(size, custom, whole);
    forall k | 0 <= k < |row|
      ensures !IsPySpace(row[k])
    {
      if k < |d| {
        assert row[k] == d[k] && IsDigit(d[k]);
      } else if k == |d| {
        assert row[k] == ',';
      } else if k < |d| + 1 + |custom| {
        assert row[k] == custom[k - |d| - 1];
      } else if k == |d| + 1 + |custom| {
        assert row[k] == ',';
      } else {
        assert row[k] == whole[k - |d| - 2 - |custom|];
      }
    }
  }

  /** The data row is the three fields joined by commas, none of which
      contains a comma. */
  lemma DataRowFields(size: nat, custom: string, whole: string)
    requires IsField(custom) && IsField(whole)
    ensures DataRow(size, custom, whole) == Join([Decimal(size), custom, whole], [','])
    ensures forall k :: 0 <= k < 3 ==> ',' !in [Decimal(size), custom, whole][k]
  {
    var d := Decimal(size);
    assert ',' !in d by {
      forall k | 0 <= k < |d| ensures d[k] != ',' {
        assert IsDigit(d[k]);
      }
    }
    assert [d, custom, whole][1..] == [custom, whole];
    assert [custom, whole][1..] == [whole];
    assert Join([custom, whole], [',']) == custom + [','] + whole;
    assert Join([d, custom, whole], [',']) == d + [','] + (custom + [','] + whole);
  }

  /** `bench_for_size` writes exactly two lines, the header and then three
      comma-separated fields whose first is the size. */
  lemma BenchOutputShape(size: nat, custom: string, whole: string)
    requires IsField(custom) && IsField(whole)
    ensures Split(BenchOutput(size, custom, whole), '\n') == [Header, DataRow(size, custom, whole), ""]
    ensures Split(DataRow(size, custom, whole), ',') == [Decimal(size), custom, whole]
  {
    var row := DataRow(size, custom, whole);
    LinesAreTokens(size, custom, whole);
    assert IsPySpace('\n');
    assert '\n' !in Header;
    assert '\n' !in row;
    assert BenchOutput(size, custom, whole) == Header + ['\n'] + (row + ['\n'] + "");
    SplitAfterPiece(Header, '\n', row + ['\n'] + "");
    SplitAfterPiece(row, '\n', "");
    DataRowFields(size, custom, whole);
    SplitJoin([Decimal(size), custom, whole], ',');
  }

  /* ---------------- reader (perf_test.py) ---------------- */

  newtype byte = x: int | 0 <= x < 256

  /** The Python values `parse_result` may be handed. */
  datatype PyValue = Bytes(data: seq<byte>) | Str(text: string) | Other

  /** The exceptions `parse_result` can raise. */
  datatype ParseError =
    | DecodeError              // UnicodeDecodeError from `bytes.decode()`
    | NotText(msg: string)     // ValueError raised for a value that is neither bytes nor str
    | TokenCount(found: nat)   // ValueError from unpacking `res.split()` into two names
    | FieldCount(found: nat)   // ValueError from unpacking `row.split(',')` into three names
    | NotAFloat(token: string) // ValueError from `float(token)`

  /** The message of the `NotText` error. */
  const NotTextMessage: string := "result to be parsed must be of type str"

  /** The two timings of one run, as `parse_result` returns them. */
  datatype Sample = Sample(custom: real, whole: real)

  /** The type dispatch at the top of `parse_result`: bytes are decoded,
      text is taken as it is, anything else is refused. */
  function AsText(res: PyValue, decode: seq<byte> -> Option<string>): (r: Result<string, ParseError>)
    ensures res.Str? ==> r == Ok(res.text)
    ensures res.Bytes? ==> (r.Ok? <==> decode(res.data).Some?)
    ensures res.Bytes? && r.Ok? ==> r.value == decode(res.data).value
    ensures res.Bytes? && r.Err? ==> r.error == DecodeError
    ensures res.Other? ==> r == Err(NotText(NotTextMessage))
  {
    match res
    case Bytes(data) =>
      (match decode(data)
       case Some(text) => Ok(text)
       case None => Err(DecodeError))
    case Str(text) => Ok(text)
    case Other => Err(NotText(NotTextMessage))
  }

  /** `hdr, row = res.split()` then `size, custom, whole = row.split(',')`:
      the text must be exactly two whitespace-separated tokens, the second of
      them exactly three comma-separated fields; the last two fields are
      returned and the size field is dropped. */
  function ParseFields(text: string): (r: Result<(string, string), ParseError>)
    ensures r.Ok? <==> |SplitWhitespace(text)| == 2 && Count(SplitWhitespace(text)[1], ',') == 2
    ensures |SplitWhitespace(text)| != 2 ==> r == Err(TokenCount(|SplitWhitespace(text)|))
    ensures |SplitWhitespace(text)| == 2 && r.Err? ==>
              r == Err(FieldCount(Count(SplitWhitespace(text)[1], ',') + 1))
    ensures r.Ok? ==> [r.value.0, r.value.1] == Split(SplitWhitespace(text)[1], ',')[1..]
    ensures r.Ok? ==> ',' !in r.value.0 && ',' !in r.value.1
  {
    var tokens := SplitWhitespace(text);
    if |tokens| != 2 then Err(TokenCount(|tokens|))
    else
      var fields := Split(tokens[1], ',');
      if |fields| != 3 then Err(FieldCount(|fields|))
      else
        assert fields[1..] == [fields[1], fields[2]];
        Ok((fields[1], fields[2]))
  }

  /** `parse_result(res)`: text, then the two fields, then `float()` of the
      custom field and then of the whole field. The first failure is the
      result; a success carries both numbers. */
  function ParseResult(res: PyValue, decode: seq<byte> -> Option<string>, toFloat: string -> Option<real>)
    : (r: Result<Sample, ParseError>)
    ensures res.Other? ==> r == Err(NotText(NotTextMessage))
    ensures r.Ok? <==> AsText(res, decode).Ok? && ParseFields(AsText(res, decode).value).Ok?
                       && toFloat(ParseFields(AsText(res, decode).value).value.0).Some?
                       && toFloat(ParseFields(AsText(res, decode).value).value.1).Some?
    ensures r.Ok? ==>
              var fields := ParseFields(AsText(res, decode).value).value;
              r.value == Sample(toFloat(fields.0).value, toFloat(fields.1).value)
  {
    match AsText(res, decode)
    case Err(e) => Err(e)
    case Ok(text) =>
      match ParseFields(text)
      case Err(e) => Err(e)
      case Ok((customField, wholeField)) =>
        match toFloat(customField)
        case None => Err(NotAFloat(customField))
        case Some(custom) =>
          match toFloat(wholeField)
          case None => Err(NotAFloat(wholeField))
          case Some(whole) => Ok(Sample(custom, whole))
  }

  /* ---------------- round trip ---------------- */

  /** The reader recovers exactly the two timing fields the writer wrote,
      in order, whatever size was written; the trailing newline of the
      second line does not disturb it. */
  lemma {:induction false} FieldsRoundTrip(size: nat, custom: string, whole: string)
    requires IsField(custom) && IsField(whole)
    ensures SplitWhitespace(BenchOutput(size, custom, whole)) == [Header, DataRow(size, custom, whole)]
    ensures ParseFields(BenchOutput(size, custom, whole)) == Ok((custom, whole))
  {
    var row := DataRow(size, custom, whole);
    LinesAreTokens(size, custom, whole);
    assert IsPySpace('\n');
    assert BenchOutput(size, custom, whole) == Join([Header, row], ['\n']) + ['\n'];
    SplitWhitespaceTrailing(Join([Header, row], ['\n']), ['\n']);
    SplitWhitespaceJoin([Header, row], '\n');
    BenchOutputShape(size, custom, whole);
    Split2Count(row);
  }

  /** Three comma-separated fields mean two commas. */
  lemma Split2Count(row: string)
    ensures |Split(row, ',')| == 3 ==> Count(row, ',') == 2
  {
  }

  /** End to end: bytes that decode to what `bench_for_size` wrote parse to
      the two timings written, or fail at the first field `float()` refuses;
      the same holds when the text is handed over as `str`. */
  lemma ParseBenchOutput(size: nat, custom: string, whole: string, res: PyValue,
                         decode: seq<byte> -> Option<string>, toFloat: string -> Option<real>)
    requires IsField(custom) && IsField(whole)
    requires res == Str(BenchOutput(size, custom, whole))
          || (res.Bytes? && decode(res.data) == Some(BenchOutput(size, custom, whole)))
    ensures toFloat(custom).None? ==> ParseResult(res, decode, toFloat) == Err(NotAFloat(custom))
    ensures toFloat(custom).Some? && toFloat(whole).None? ==>
              ParseResult(res, decode, toFloat) == Err(NotAFloat(whole))
    ensures toFloat(custom).Some? && toFloat(whole).Some? ==>
              ParseResult(res, decode, toFloat) == Ok(Sample(toFloat(custom).value, toFloat(whole).value))
  {
    FieldsRoundTrip(size, custom, whole);
  }
}
