/** The line driver of `src/nem12.rs`: the record kinds, the alternation of
    the six record parsers over one line, and `Parser`, which walks the lines
    of a file and reports each line's record or error with its 1-based line
    number, then signals the end of the input once. */
module Nem12 {
  import opened Nom
  import opened Record
  import opened RoundTrip

  /** `record::Kind`: the record a line holds. */
  datatype Kind =
    | HeaderRecord(header: Header)
    | NmiDataDetailsRecord(details: NmiDataDetails)
    | IntervalDataRecord(data: IntervalData)
    | IntervalEventRecord(event: IntervalEvent)
    | B2BDetailsRecord(b2b: B2BDetails)
    | EndOfDataRecord(endOfData: EndOfData)

  function HeaderLine(line: string): IResult<Kind> { HeaderKind(ParseHeader(line)) }
  function NmiDataDetailsLine(line: string): IResult<Kind> { NmiDataDetailsKind(ParseNmiDataDetails(line)) }
  function IntervalDataLine(line: string): IResult<Kind> { IntervalDataKind(ParseIntervalData(line)) }
  function IntervalEventLine(line: string): IResult<Kind> { Map(ParseIntervalEvent(line), v => IntervalEventRecord(v)) }
  function B2BDetailsLine(line: string): IResult<Kind> { B2BDetailsKind(ParseB2BDetails(line)) }

  /** A record parser's outcome as a `Kind`. */
  function HeaderKind(r: IResult<Header>): IResult<Kind> { Map(r, h => HeaderRecord(h)) }
  function NmiDataDetailsKind(r: IResult<NmiDataDetails>): IResult<Kind> { Map(r, d => NmiDataDetailsRecord(d)) }
  function IntervalDataKind(r: IResult<IntervalData>): IResult<Kind> { Map(r, x => IntervalDataRecord(x)) }
  function B2BDetailsKind(r: IResult<B2BDetails>): IResult<Kind> { Map(r, b => B2BDetailsRecord(b)) }
  function EndOfDataLine(line: string): IResult<Kind> { Map(ParseEndOfData(line), e => EndOfDataRecord(e)) }

  /** Two branches of `alt`: the second is tried only when the first fails
      with an error, and then its outcome, error included, is the outcome. */
  function OrElse(first: IResult<Kind>, second: IResult<Kind>): (r: IResult<Kind>)
    ensures r.Error? <==> first.Error? && second.Error?
    ensures first.Error? ==> r == second
    ensures !first.Error? ==> r == first
  {
    if first.Error? then second else first
  }

  /** The `alt` of the six record parsers that `parse_line` applies to a
      line.  Every date and time is read with a complete `take`, so no
      outcome is incomplete. */
  function ParseRecord(line: string): (r: IResult<Kind>)
    ensures r.Error? ==> r == Error(line, Tag)
  {
    OrElse(HeaderLine(line),
    OrElse(NmiDataDetailsLine(line),
    OrElse(IntervalDataLine(line),
    OrElse(IntervalEventLine(line),
    OrElse(B2BDetailsLine(line),
           EndOfDataLine(line))))))
  }

  // ---------------------------------------------------------------------
  // The alternation as written

  function HeaderLineAsWritten(line: string): IResult<Kind> { HeaderKind(ParseHeaderAsWritten(line)) }
  function NmiDataDetailsLineAsWritten(line: string): IResult<Kind> { NmiDataDetailsKind(ParseNmiDataDetailsAsWritten(line)) }
  function IntervalDataLineAsWritten(line: string): IResult<Kind> { IntervalDataKind(ParseIntervalDataAsWritten(line)) }
  function B2BDetailsLineAsWritten(line: string): IResult<Kind> { B2BDetailsKind(ParseB2BDetailsAsWritten(line)) }

  /** The alternation of `parse_line` over the record parsers as written,
      whose dates and times use the streaming `take`. */
  function ParseRecordAsWritten(line: string): (r: IResult<Kind>)
    ensures r.Error? ==> r == Error(line, Tag)
  {
    OrElse(HeaderLineAsWritten(line),
    OrElse(NmiDataDetailsLineAsWritten(line),
    OrElse(IntervalDataLineAsWritten(line),
    OrElse(IntervalEventLine(line),
    OrElse(B2BDetailsLineAsWritten(line),
           EndOfDataLine(line))))))
  }

  /** The alternation as written reads and rejects lines as the corrected one
      does.  It departs from it only by stopping early: a date or time cut
      short is incomplete, needing 8, 12 or 14 characters, and a 200 record
      without a following read date or a 300 record without an MSATS load
      time panics. */
  lemma ParseRecordAsWrittenAgrees(line: string)
    ensures StopsEarly(ParseRecordAsWritten(line), ParseRecord(line))
  {
    BranchesStopEarly(line);
    var event, end := IntervalEventLine(line), EndOfDataLine(line);
    assert !ParseIntervalEvent(line).Incomplete? && !ParseEndOfData(line).Incomplete?;
    assert StopsEarly(event, event) && StopsEarly(end, end);
    var e5 := OrElse(B2BDetailsLineAsWritten(line), end);
    var c5 := OrElse(B2BDetailsLine(line), end);
    OrElseStopsEarly(B2BDetailsLineAsWritten(line), B2BDetailsLine(line), end, end);
    var e4, c4 := OrElse(event, e5), OrElse(event, c5);
    OrElseStopsEarly(event, event, e5, c5);
    var e3, c3 := OrElse(IntervalDataLineAsWritten(line), e4), OrElse(IntervalDataLine(line), c4);
    OrElseStopsEarly(IntervalDataLineAsWritten(line), IntervalDataLine(line), e4, c4);
    var e2, c2 := OrElse(NmiDataDetailsLineAsWritten(line), e3), OrElse(NmiDataDetailsLine(line), c3);
    OrElseStopsEarly(NmiDataDetailsLineAsWritten(line), NmiDataDetailsLine(line), e3, c3);
    OrElseStopsEarly(HeaderLineAsWritten(line), HeaderLine(line), e2, c2);
  }

  /** An early stop in either branch of `alt` is an early stop of the `alt`. */
  lemma OrElseStopsEarly(a1: IResult<Kind>, c1: IResult<Kind>, a2: IResult<Kind>, c2: IResult<Kind>)
    requires StopsEarly(a1, c1) && StopsEarly(a2, c2)
    ensures StopsEarly(OrElse(a1, a2), OrElse(c1, c2))
  {
  }

  lemma BranchesStopEarly(line: string)
    ensures StopsEarly(HeaderLineAsWritten(line), HeaderLine(line))
    ensures StopsEarly(NmiDataDetailsLineAsWritten(line), NmiDataDetailsLine(line))
    ensures StopsEarly(IntervalDataLineAsWritten(line), IntervalDataLine(line))
    ensures StopsEarly(B2BDetailsLineAsWritten(line), B2BDetailsLine(line))
  {
    HeaderStopsEarly(line);
    NmiStopsEarly(line);
    IntervalStopsEarly(line);
    B2BStopsEarly(line);
  }

  lemma HeaderStopsEarly(line: string)
    ensures StopsEarly(HeaderLineAsWritten(line), HeaderLine(line))
  {
    ParseHeaderAsWrittenAgrees(line);
  }

  lemma NmiStopsEarly(line: string)
    ensures StopsEarly(NmiDataDetailsLineAsWritten(line), NmiDataDetailsLine(line))
  {
    var r, c := ParseNmiDataDetailsAsWritten(line), ParseNmiDataDetails(line);
    ParseNmiDataDetailsAsWrittenAgrees(line);
    if r != c {
      assert r == Panic;
      assert NmiDataDetailsKind(r) == Panic;
    }
  }

  lemma IntervalStopsEarly(line: string)
    ensures StopsEarly(IntervalDataLineAsWritten(line), IntervalDataLine(line))
  {
    ParseIntervalDataAsWrittenAgrees(line);
  }

  lemma B2BStopsEarly(line: string)
    ensures StopsEarly(B2BDetailsLineAsWritten(line), B2BDetailsLine(line))
  {
    ParseB2BDetailsAsWrittenAgrees(line);
  }

  /** `r` is the outcome `c` or an earlier stop: an outcome that reads or
      rejects the input is `c`, and an incomplete one needs the 8, 12 or 14
      characters of a date or time. */
  predicate StopsEarly(r: IResult<Kind>, c: IResult<Kind>) {
    && (r.Ok? || r.Error? ==> r == c)
    && (r.Incomplete? ==> r == Incomplete(8) || r == Incomplete(12) || r == Incomplete(14))
  }

  /** A line the corrected alternation reads is read alike as written, or
      reaches a `panic!`. */
  lemma ParseRecordAsWrittenReads(line: string)
    requires ParseRecord(line).Ok?
    ensures ParseRecordAsWritten(line) == ParseRecord(line) || ParseRecordAsWritten(line).Panic?
  {
    AltDispatchesByTag(line);
    LeadingDigit(line);
    if "100," <= line {
      ParseHeaderAsWrittenAgrees(line);
      assert HeaderLineAsWritten(line) == HeaderLine(line);
    } else if "200," <= line {
      assert HeaderLineAsWritten(line) == Error(line, Tag);
      ParseNmiDataDetailsAsWrittenAgrees(line);
      assert NmiDataDetailsLineAsWritten(line) == NmiDataDetailsLine(line) || NmiDataDetailsLineAsWritten(line) == Panic;
    } else {
      assert HeaderLineAsWritten(line) == Error(line, Tag);
      assert NmiDataDetailsLineAsWritten(line) == Error(line, Tag);
      LaterBranchesRead(line);
    }
  }

  /** The last four branches of the alternation as written, on a line they read. */
  lemma LaterBranchesRead(line: string)
    requires !("100," <= line) && !("200," <= line)
    requires Dispatch(line).Ok?
    ensures var r := OrElse(IntervalDataLineAsWritten(line), OrElse(IntervalEventLine(line),
                     OrElse(B2BDetailsLineAsWritten(line), EndOfDataLine(line))));
      r == Dispatch(line) || r.Panic?
  {
    LeadingDigit(line);
    if "300," <= line {
      ParseIntervalDataAsWrittenAgrees(line);
      assert IntervalDataLineAsWritten(line) == IntervalDataLine(line) || IntervalDataLineAsWritten(line) == Panic;
    } else {
      assert IntervalDataLineAsWritten(line) == Error(line, Tag);
      if !("400," <= line) {
        assert IntervalEventLine(line) == Error(line, Tag);
        ParseB2BDetailsAsWrittenAgrees(line);
        assert B2BDetailsLineAsWritten(line) == B2BDetailsLine(line);
      }
    }
  }

  // ---------------------------------------------------------------------
  // Dispatch by tag

  /** The leading tag of each record, in the driver's order. */
  const RecordTags: seq<string> := ["100,", "200,", "300,", "400,", "500,", "900"]

  /** No line starts with two different record tags. */
  lemma TagsExclusive(line: string)
    ensures forall i, j ::
      (0 <= i < |RecordTags| && 0 <= j < |RecordTags| && RecordTags[i] <= line && RecordTags[j] <= line)
      ==> i == j
  {
    forall i, j | 0 <= i < |RecordTags| && 0 <= j < |RecordTags| && RecordTags[i] <= line && RecordTags[j] <= line
      ensures i == j
    {
      assert RecordTags[i][0] == line[0] == RecordTags[j][0];
    }
  }

  /** The parser a line's tag selects, or an error at the line start. */
  function Dispatch(line: string): IResult<Kind> {
    if "100," <= line then HeaderLine(line)
    else if "200," <= line then NmiDataDetailsLine(line)
    else if "300," <= line then IntervalDataLine(line)
    else if "400," <= line then IntervalEventLine(line)
    else if "500," <= line then B2BDetailsLine(line)
    else if "900" <= line then EndOfDataLine(line)
    else Error(line, Tag)
  }

  /** The alternation is dispatch by tag: every parser but the one whose tag
      starts the line fails with an error, so only that one can decide the
      line and the order of the branches does not matter.  A failing `alt`
      reports its last branch's error, so when the selected parser fails
      with an error the error is still positioned at the line start. */
  lemma AltDispatchesByTag(line: string)
    ensures ParseRecord(line) == (if Dispatch(line).Error? then Error(line, Tag) else Dispatch(line))
  {
    LeadingDigit(line);
  }

  /** Each tag fixes the first character of the line. */
  lemma LeadingDigit(line: string)
    ensures "100," <= line ==> line[0] == '1'
    ensures "200," <= line ==> line[0] == '2'
    ensures "300," <= line ==> line[0] == '3'
    ensures "400," <= line ==> line[0] == '4'
    ensures "500," <= line ==> line[0] == '5'
    ensures "900" <= line ==> line[0] == '9'
  {
  }

  // ---------------------------------------------------------------------
  // What a record line is

  /** `line` is record `x` written out with its field rules holding, followed
      by `k`, which does not continue the record's last field. */
  predicate Written(x: Kind, k: string, line: string) {
    match x
    case HeaderRecord(h) =>
      line == WriteHeader(h, k) && HeaderFields(h) && StopsRun(k, Alphanumerics)
    case NmiDataDetailsRecord(d) =>
      line == WriteNmiDataDetails(d, k) && NmiDataDetailsFields(d) && NmiDataDetailsEnds(d, k)
    case IntervalDataRecord(v) =>
      line == WriteIntervalData(v, k) && IntervalDataFields(v) && IntervalDataEnds(v, k)
    case IntervalEventRecord(v) =>
      line == WriteIntervalEvent(v, k) && IntervalEventFields(v) && IntervalEventEnds(v, k)
    case B2BDetailsRecord(b) =>
      line == WriteB2BDetails(b, k) && B2BDetailsFields(b) && EndsIndexRead(b.indexRead, k)
    case EndOfDataRecord(_) =>
      "900" <= line && IsSuffix(k, line[3..]) && AllIn(line[3..|line| - |k|], Whitespace)
      && StopsRun(k, Whitespace)
  }

  /** Every record the driver reads is a written record followed by the rest. */
  lemma ParseRecordSound(line: string)
    requires ParseRecord(line).Ok?
    ensures Written(ParseRecord(line).value, ParseRecord(line).rest, line)
  {
    AltDispatchesByTag(line);
    if "100," <= line {
      HeaderLineSound(line);
    } else if "200," <= line {
      NmiDataDetailsLineSound(line);
    } else if "300," <= line {
      IntervalDataLineSound(line);
    } else if "400," <= line {
      IntervalEventLineSound(line);
    } else if "500," <= line {
      B2BDetailsLineSound(line);
    } else {
      EndOfDataLineSound(line);
    }
  }

  lemma HeaderLineSound(line: string)
    requires "100," <= line && ParseRecord(line).Ok?
    ensures Written(ParseRecord(line).value, ParseRecord(line).rest, line)
  {
    LeadingDigit(line);
    AltDispatchesByTag(line);
  }

  lemma NmiDataDetailsLineSound(line: string)
    requires "200," <= line && ParseRecord(line).Ok?
    ensures Written(ParseRecord(line).value, ParseRecord(line).rest, line)
  {
    LeadingDigit(line);
    AltDispatchesByTag(line);
  }

  lemma IntervalDataLineSound(line: string)
    requires "300," <= line && ParseRecord(line).Ok?
    ensures Written(ParseRecord(line).value, ParseRecord(line).rest, line)
  {
    LeadingDigit(line);
    AltDispatchesByTag(line);
  }

  lemma IntervalEventLineSound(line: string)
    requires "400," <= line && ParseRecord(line).Ok?
    ensures Written(ParseRecord(line).value, ParseRecord(line).rest, line)
  {
    LeadingDigit(line);
    AltDispatchesByTag(line);
  }

  lemma B2BDetailsLineSound(line: string)
    requires "500," <= line && ParseRecord(line).Ok?
    ensures Written(ParseRecord(line).value, ParseRecord(line).rest, line)
  {
    LeadingDigit(line);
    AltDispatchesByTag(line);
  }

  lemma EndOfDataLineSound(line: string)
    requires "900" <= line && ParseRecord(line).Ok?
    ensures Written(ParseRecord(line).value, ParseRecord(line).rest, line)
  {
    LeadingDigit(line);
    AltDispatchesByTag(line);
  }

  /** A written header line is read back as that header. */
  lemma HeaderLineComplete(x: Kind, k: string, line: string)
    requires x.HeaderRecord? && Written(x, k, line)
    ensures ParseRecord(line) == Ok(k, x)
  {
    HeaderRoundTrip(x.header, k);
    AltDispatchesByTag(line);
  }

  lemma NmiDataDetailsLineComplete(x: Kind, k: string, line: string)
    requires x.NmiDataDetailsRecord? && Written(x, k, line)
    ensures ParseRecord(line) == Ok(k, x)
  {
    NmiDataDetailsRoundTrip(x.details, k);
    AltDispatchesByTag(line);
  }

  lemma IntervalDataLineComplete(x: Kind, k: string, line: string)
    requires x.IntervalDataRecord? && Written(x, k, line) && AllDecimal(x.data.intervalValue)
    ensures ParseRecord(line) == Ok(k, x)
  {
    IntervalDataRoundTrip(x.data, k);
    AltDispatchesByTag(line);
  }

  lemma IntervalEventLineComplete(x: Kind, k: string, line: string)
    requires x.IntervalEventRecord? && Written(x, k, line)
    ensures ParseRecord(line) == Ok(k, x)
  {
    IntervalEventRoundTrip(x.event, k);
    AltDispatchesByTag(line);
  }

  lemma B2BDetailsLineComplete(x: Kind, k: string, line: string)
    requires x.B2BDetailsRecord? && Written(x, k, line)
    ensures ParseRecord(line) == Ok(k, x)
  {
    B2BDetailsRoundTrip(x.b2b, k);
    AltDispatchesByTag(line);
  }

  lemma EndOfDataLineComplete(x: Kind, k: string, line: string)
    requires x.EndOfDataRecord? && Written(x, k, line)
    ensures ParseRecord(line) == Ok(k, x)
  {
    var ws := line[3..|line| - |k|];
    assert line == "900" + (ws + k);
    EndOfDataRoundTrip(ws, k);
    assert x == EndOfDataRecord(EndOfData);
    LeadingDigit(line);
    AltDispatchesByTag(line);
  }

  /** Every written record is read back, with exactly what follows it left
      over; a 300 record when its values are plain decimals. */
  lemma ParseRecordComplete(x: Kind, k: string, line: string)
    requires Written(x, k, line)
    requires x.IntervalDataRecord? ==> AllDecimal(x.data.intervalValue)
    ensures ParseRecord(line) == Ok(k, x)
  {
    if x.HeaderRecord? {
      HeaderLineComplete(x, k, line);
    } else if x.NmiDataDetailsRecord? {
      NmiDataDetailsLineComplete(x, k, line);
    } else if x.IntervalDataRecord? {
      IntervalDataLineComplete(x, k, line);
    } else if x.IntervalEventRecord? {
      IntervalEventLineComplete(x, k, line);
    } else if x.B2BDetailsRecord? {
      B2BDetailsLineComplete(x, k, line);
    } else {
      EndOfDataLineComplete(x, k, line);
    }
  }

  // ---------------------------------------------------------------------
  // The driver

  /** The error triple of `parse_line`: message, line number, sentinel. */
  datatype LineError = LineError(message: string, lineNo: nat, sentinel: string)

  /** What one call of `parse_line` returns: `Ok(Some(kind))` or `Ok(None)`,
      the error triple, or a `panic!` reached inside a record parser. */
  datatype LineResult = Parsed(record: Option<Kind>) | Failed(error: LineError) | Panicked

  const ConsumedAll: LineError := LineError("Error: parser consumed all input", 0, "lines")

  /** The `map_err` of `parse_line`: the outcome of the record parsers on the
      line numbered `lineNo` as the driver reports it.  The record is
      returned and what the parser left of the line is dropped. */
  function Report(lineNo: nat, res: IResult<Kind>): (r: LineResult)
    ensures r.Parsed? <==> res.Ok?
    ensures res.Ok? ==> r.record == Some(res.value)
    ensures res.Error? ==> r == Failed(LineError("Error parsing line: ", lineNo, res.at))
    ensures r == Panicked <==> res.Panic?
    ensures res.Incomplete? ==> r == Failed(LineError("Failed to parse line: ", res.needed, "Needed::Size"))
    ensures r != Parsed(None) && r != Failed(ConsumedAll)
  {
    match res
    case Ok(_, record) => Parsed(Some(record))
    case Error(sentinel, _) => Failed(LineError("Error parsing line: ", lineNo, sentinel))
    case Incomplete(n) => Failed(LineError("Failed to parse line: ", n, "Needed::Size"))
    case Panic => Panicked
  }

  /** A line the record parsers reject is reported with its number and the
      whole line as the sentinel. */
  lemma RejectedLineReport(lineNo: nat, line: string)
    requires ParseRecord(line).Error?
    ensures Report(lineNo, ParseRecord(line)) == Failed(LineError("Error parsing line: ", lineNo, line))
  {
  }

  /** Where the driver stands: the number of lines handed out, and whether
      the end of the input has been reported. */
  datatype Cursor = Cursor(index: nat, finished: bool)

  /** One call of `parse_line` from cursor `c`, with `parse` as the record
      parser applied to each line: the result and the new cursor. */
  function Next(parse: string -> IResult<Kind>, lines: seq<string>, c: Cursor): (r: (LineResult, Cursor))
    requires c.index <= |lines|
    ensures r.1.index <= |lines|
    ensures r.0 == Parsed(None) <==> c.index == |lines| && !c.finished
    ensures r.0 == Failed(ConsumedAll) <==> c.index == |lines| && c.finished
    ensures r.1.finished <==> c.finished || c.index == |lines|
    ensures c.index < |lines| ==> r.1.index == c.index + 1 && r.0 == Report(c.index + 1, parse(lines[c.index]))
  {
    if c.index < |lines| then
      (Report(c.index + 1, parse(lines[c.index])), Cursor(c.index + 1, c.finished))
    else if !c.finished then
      (Parsed(None), Cursor(c.index, true))
    else
      (Failed(ConsumedAll), c)
  }

  /** A step taken the way `parse_line` takes it is the step `Next` describes. */
  lemma StepIsNext(parse: string -> IResult<Kind>, lines: seq<string>, c: Cursor, r: LineResult, c': Cursor)
    requires c.index <= |lines|
    requires c.index < |lines| ==> c' == Cursor(c.index + 1, c.finished) && r == Report(c.index + 1, parse(lines[c.index]))
    requires c.index == |lines| && !c.finished ==> c' == Cursor(c.index, true) && r == Parsed(None)
    requires c.index == |lines| && c.finished ==> c' == c && r == Failed(ConsumedAll)
    ensures (r, c') == Next(parse, lines, c)
  {
  }

  /** The results of `n` successive calls from cursor `c`. */
  function Calls(parse: string -> IResult<Kind>, lines: seq<string>, c: Cursor, n: nat): (rs: seq<LineResult>)
    requires c.index <= |lines|
    ensures |rs| == n
    decreases n
  {
    if n == 0 then []
    else
      var step := Next(parse, lines, c);
      [step.0] + Calls(parse, lines, step.1, n - 1)
  }

  /** What each line yields, numbered from 1. */
  function Outcomes(parse: string -> IResult<Kind>, lines: seq<string>): (rs: seq<LineResult>)
    ensures |rs| == |lines|
  {
    seq(|lines|, i requires 0 <= i < |lines| => Report(i + 1, parse(lines[i])))
  }

  function Repeat(r: LineResult, n: nat): (rs: seq<LineResult>)
    ensures |rs| == n
  {
    seq(n, _ => r)
  }

  /** Once the end has been reported, every call reports the input consumed. */
  lemma {:induction false} CallsAfterFinish(parse: string -> IResult<Kind>, lines: seq<string>, n: nat)
    ensures Calls(parse, lines, Cursor(|lines|, true), n) == Repeat(Failed(ConsumedAll), n)
  {
    if n > 0 {
      CallsAfterFinish(parse, lines, n - 1);
      assert Calls(parse, lines, Cursor(|lines|, true), n)
          == [Failed(ConsumedAll)] + Repeat(Failed(ConsumedAll), n - 1);
    }
  }

  /** From line `i` on, `calls` calls report the remaining lines, the end,
      and then the input consumed. */
  lemma {:induction false} CallsFrom(parse: string -> IResult<Kind>, lines: seq<string>, i: nat, n: nat, calls: nat)
    requires i <= |lines| && calls == |lines| - i + 1 + n
    ensures Calls(parse, lines, Cursor(i, false), calls)
         == Outcomes(parse, lines)[i..] + [Parsed(None)] + Repeat(Failed(ConsumedAll), n)
    decreases |lines| - i
  {
    if i == |lines| {
      CallsAfterFinish(parse, lines, n);
      assert Outcomes(parse, lines)[i..] == [];
    } else {
      CallsFrom(parse, lines, i + 1, n, calls - 1);
      assert Outcomes(parse, lines)[i..] == [Report(i + 1, parse(lines[i]))] + Outcomes(parse, lines)[i + 1..];
    }
  }

  /** The protocol of `parse_line` over a whole input: each line's outcome in
      order, numbered from 1, then `Ok(None)` once, then the "consumed all
      input" error on every later call. */
  lemma Protocol(parse: string -> IResult<Kind>, lines: seq<string>, n: nat)
    ensures Calls(parse, lines, Cursor(0, false), |lines| + 1 + n)
         == Outcomes(parse, lines) + [Parsed(None)] + Repeat(Failed(ConsumedAll), n)
  {
    CallsFrom(parse, lines, 0, n, |lines| + 1 + n);
    WholeSuffix(Outcomes(parse, lines), [Parsed(None)], Repeat(Failed(ConsumedAll), n));
  }

  lemma WholeSuffix(rs: seq<LineResult>, more: seq<LineResult>, rest: seq<LineResult>)
    ensures rs[0..] + more + rest == rs + more + rest
  {
    assert rs[0..] == rs;
  }

  /** `Parser`: the input's lines, a cursor into them, and the flag that
      records that the end of the input has been reported. */
  class Parser {
    const lines: seq<string>
    var index: nat
    var finished: bool

    /** The cursor stays within the lines, and the end is reported only
        once every line has been handed out. */
    ghost predicate Valid()
      reads this
    {
      index <= |lines| && (finished ==> index == |lines|)
    }

    function State(): Cursor
      reads this
    {
      Cursor(index, finished)
    }

    /** `Parser::new`, which always succeeds. */
    constructor(lines: seq<string>)
      ensures this.lines == lines && index == 0 && !finished
      ensures Valid()
    {
      this.lines := lines;
      index := 0;
      finished := false;
    }

    /** `parse_line`: the next line through the record parsers, or the end
        of the input. */
    method ParseLine() returns (r: LineResult)
      requires Valid()
      modifies this
      ensures Valid()
      ensures (r, State()) == Next(ParseRecord, lines, old(State()))
    {
      ghost var before := State();
      if index < |lines| {
        var lineNo := index + 1;
        var line := lines[index];
        index := index + 1;
        r := Report(lineNo, ParseRecord(line));
      } else if !finished {
        finished := true;
        r := Parsed(None);
      } else {
        r := Failed(ConsumedAll);
      }
      StepIsNext(ParseRecord, lines, before, r, State());
    }
  }
}
