/** The NEM12 record parsers of `src/nem12.rs` (module `record`): one parser
    per record indicator, each a straight sequence of tag, field and comma
    steps.  Next to each parser is the record's written form (`WriteX(x, k)`:
    the record followed by the text `k` after it) and its field rules
    (`XFields`); every parser promises that what it accepts is a record
    obeying its field rules written out, followed by the rest of the line. */
module Record {
  import opened Nom
  import opened Calendar
  import opened Common

  // ---------------------------------------------------------------------
  // Shared pieces

  /** An optional field as written: the value, or nothing. */
  function OrEmpty(o: Option<string>): string {
    if o.Some? then o.value else ""
  }

  /** `section_of_max_length(alphanumeric1, length)` */
  function AlnumField(length: nat, s: string): (r: IResult<string>)
    ensures r.Ok? ==> RunField(r.value, Alphanumerics, length) && r.value + r.rest == s
    ensures r.Ok? ==> StopsRun(r.rest, Alphanumerics)
    ensures !r.Incomplete?
  {
    SectionOfMaxLength(AlphaNumeric1, length, s)
  }

  /** `section_of_max_length(digit1, length)` */
  function DigitField(length: nat, s: string): (r: IResult<string>)
    ensures r.Ok? ==> RunField(r.value, Digits, length) && r.value + r.rest == s
    ensures r.Ok? ==> StopsRun(r.rest, Digits)
    ensures !r.Incomplete?
  {
    SectionOfMaxLength(Digit1, length, s)
  }

  /** `section_of_max_length(alpha1, length)` */
  function AlphaField(length: nat, s: string): (r: IResult<string>)
    ensures r.Ok? ==> RunField(r.value, Letters, length) && r.value + r.rest == s
    ensures r.Ok? ==> StopsRun(r.rest, Letters)
    ensures !r.Incomplete?
  {
    SectionOfMaxLength(Alpha1, length, s)
  }

  /** `section_of_exact_length(alphanumeric1, length)` */
  function AlnumExact(length: nat, s: string): (r: IResult<string>)
    ensures r.Ok? ==> |r.value| == length && AllIn(r.value, Alphanumerics) && r.value + r.rest == s
    ensures r.Ok? ==> StopsRun(r.rest, Alphanumerics)
    ensures !r.Incomplete?
  {
    SectionOfExactLength(AlphaNumeric1, length, s)
  }

  /** `section_of_exact_length(digit1, length)` */
  function DigitExact(length: nat, s: string): (r: IResult<string>)
    ensures r.Ok? ==> |r.value| == length && AllIn(r.value, Digits) && r.value + r.rest == s
    ensures r.Ok? ==> StopsRun(r.rest, Digits)
    ensures !r.Incomplete?
  {
    SectionOfExactLength(Digit1, length, s)
  }

  /** `section_of_exact_length(alpha1, length)` */
  function AlphaExact(length: nat, s: string): (r: IResult<string>)
    ensures r.Ok? ==> |r.value| == length && AllIn(r.value, Letters) && r.value + r.rest == s
    ensures r.Ok? ==> StopsRun(r.rest, Letters)
    ensures !r.Incomplete?
  {
    SectionOfExactLength(Alpha1, length, s)
  }

  /** `peek(alt((eof, tag("\n"))))`: succeeds without consuming at the end of
      the input or before a line feed; otherwise the error of the last
      alternative, the `tag`. */
  function PeekLineEnd(s: string): (r: IResult<string>)
    ensures r.Ok? <==> s == [] || "\n" <= s
    ensures r.Ok? ==> r.rest == s
    ensures !r.Ok? ==> r == Error(s, Tag)
  {
    var e := EofParser(s);
    if e.Ok? then Ok(s, e.value)
    else
      var t := MatchTag(s, "\n");
      if t.Ok? then Ok(s, t.value) else t
  }

  // ---------------------------------------------------------------------
  // Header record (100)

  datatype Header = Header(created: DateTime, fromParticipant: string, toParticipant: string)

  predicate HeaderFields(h: Header) {
    && ValidDateTime(h.created) && h.created.second == 0
    && RunField(h.fromParticipant, Alphanumerics, 10)
    && RunField(h.toParticipant, Alphanumerics, 10)
  }

  function WriteHeader(h: Header, k: string): string {
    "100," + ("NEM12," + (EncodeDateTime12(h.created) + ("," + (h.fromParticipant + ("," + (h.toParticipant + k))))))
  }

  function ParseHeader(s: string): (r: IResult<Header>)
    ensures r.Ok? ==> HeaderFields(r.value) && StopsRun(r.rest, Alphanumerics)
    ensures r.Ok? ==> s == WriteHeader(r.value, r.rest)
    ensures !("100," <= s) ==> r == Error(s, Tag)
    ensures !r.Incomplete?
  {
    var a :- MatchTag(s, "100,");
    var b :- MatchTag(a.0, "NEM12,");
    HeaderOf(DateTime12(b.0))
  }

  /** The header from its creation time on, given what `datetime_12` made
      of the input: the two participants follow the time, each after a
      comma. */
  function HeaderOf(created: IResult<DateTime>): (r: IResult<Header>)
    ensures !created.Ok? ==> r == created.PropagateFailure()
    ensures created.Ok? ==> !r.Incomplete?
    ensures r.Ok? ==> created.Ok? && r.value.created == created.value
    ensures r.Ok? ==> RunField(r.value.fromParticipant, Alphanumerics, 10)
    ensures r.Ok? ==> RunField(r.value.toParticipant, Alphanumerics, 10) && StopsRun(r.rest, Alphanumerics)
    ensures r.Ok? ==> created.rest == "," + (r.value.fromParticipant + ("," + (r.value.toParticipant + r.rest)))
  {
    var t :- created;
    var c :- MatchTag(t.0, ",");
    var from :- AlnumField(10, c.0);
    var d :- MatchTag(from.0, ",");
    var to :- AlnumField(10, d.0);
    Ok(to.0, Header(t.1, from.1, to.1))
  }

  // ---------------------------------------------------------------------
  // NMI data details record (200)

  datatype NmiDataDetails = NmiDataDetails(
    nmi: string,
    nmiConfiguration: string,
    registerId: string,
    nmiSuffix: string,
    mdmDataStreamId: Option<string>,
    meterSerialNumber: string,
    uom: string,
    intervalLength: nat,
    nextScheduledReadDate: Option<Date>)

  predicate NmiDataDetailsFields(d: NmiDataDetails) {
    && |d.nmi| == 10 && AllIn(d.nmi, Alphanumerics)
    && RunField(d.nmiConfiguration, Alphanumerics, 240)
    && RunField(d.registerId, Alphanumerics, 10)
    && |d.nmiSuffix| == 2 && AllIn(d.nmiSuffix, Alphanumerics)
    && NmiDataDetailsTailFields(d)
  }

  /** What may follow a 200 record: anything after a read date, and the end
      of the line or of the input when there is none. */
  predicate NmiDataDetailsEnds(d: NmiDataDetails, k: string) {
    d.nextScheduledReadDate.None? ==> k == [] || k[0] == '\n'
  }

  function WriteNextReadDate(o: Option<Date>): string {
    if o.Some? then EncodeDate(o.value) else ""
  }

  function WriteNmiDataDetails(d: NmiDataDetails, k: string): string {
    "200," + (d.nmi + ("," + (d.nmiConfiguration + ("," + (d.registerId + ("," + (d.nmiSuffix
    + ("," + WriteNmiDataDetailsTail(d, k)))))))))
  }

  /** The 200 record from its MDM data stream identifier on. */
  function WriteNmiDataDetailsTail(d: NmiDataDetails, k: string): string {
    OrEmpty(d.mdmDataStreamId) + ("," + (d.meterSerialNumber + ("," + (d.uom
    + ("," + (Padded(d.intervalLength, 2) + ("," + (WriteNextReadDate(d.nextScheduledReadDate) + k))))))))
  }

  /** The MDM data stream identifier: 2 alphanumerics. */
  function MdmDataStreamId(s: string): IResult<string> {
    AlnumExact(2, s)
  }

  /** The optional MDM data stream identifier, ended by a comma. */
  function MdmDataStreamIdField(s: string): (r: IResult<Option<string>>)
    ensures r.Ok? ==> s == OrEmpty(r.value) + r.rest
    ensures r.Ok? && r.value.Some? ==> |r.value.value| == 2 && AllIn(r.value.value, Alphanumerics)
    ensures r.Ok? && r.value.Some? ==> StopsRun(r.rest, Alphanumerics)
    ensures r.Ok? && r.value.None? ==> "," <= r.rest
    ensures !r.Incomplete?
  {
    var r := OptionalField(MdmDataStreamId, ",", s);
    if r.Ok? && r.value.None? then assert "" + r.rest == r.rest; r else r
  }

  /** The next scheduled read date, given what `date_8` made of `s`: the date,
      or `None` when the line or the input ends here. */
  function NextReadDateOf(s: string, date: IResult<Date>): (r: IResult<Option<Date>>)
  {
    match date
    case Ok(rest, d) => Ok(rest, Some(d))
    case Error(_, _) =>
      var p := PeekLineEnd(s);
      if p.Ok? then Ok(p.rest, None) else Error(p.at, p.kind)
    case _ => Panic
  }

  function NextReadDate(s: string): (r: IResult<Option<Date>>)
    ensures r.Ok? ==> s == WriteNextReadDate(r.value) + r.rest
    ensures r.Ok? && r.value.Some? ==> ValidDate(r.value.value)
    ensures r.Ok? && r.value.None? <==> !Date8(s).Ok? && (s == [] || s[0] == '\n')
    ensures r.Ok? && r.value.None? ==> r.rest == s
    ensures !r.Ok? ==> r == Error(s, Tag)
  {
    var r := NextReadDateOf(s, Date8(s));
    if r.Ok? && r.value.None? then assert "" + r.rest == r.rest; r else r
  }

  /** The next scheduled read date as written, with the streaming `take`
      inside `date_8`: a line that ends before 8 characters is incomplete,
      which reaches the `panic!` arm instead of the `None` arm. */
  function NextReadDateAsWritten(s: string): (r: IResult<Option<Date>>)
    ensures |s| < 8 ==> r == Panic
    ensures |s| >= 8 ==> r == NextReadDate(s)
  {
    NextReadDateOf(s, Date8AsWritten(s))
  }

  function ParseNmiDataDetails(s: string): (r: IResult<NmiDataDetails>)
    ensures r.Ok? ==> NmiDataDetailsFields(r.value) && NmiDataDetailsEnds(r.value, r.rest)
    ensures r.Ok? ==> s == WriteNmiDataDetails(r.value, r.rest)
    ensures !("200," <= s) ==> r == Error(s, Tag)
    ensures !r.Incomplete?
  {
    var a :- MatchTag(s, "200,");
    var ids :- NmiAndConfiguration(a.0);
    var meter :- RegisterAndSuffix(ids.0);
    var r := NmiDataDetailsTail(ids.1.0, ids.1.1, meter.1.0, meter.1.1, meter.0);
    if r.Ok? then
      assert a.0 == r.value.nmi + ("," + (r.value.nmiConfiguration + ("," + (r.value.registerId
        + ("," + (r.value.nmiSuffix + ("," + WriteNmiDataDetailsTail(r.value, r.rest))))))));
      r
    else r
  }

  /** The NMI (10 alphanumerics) and the NMI configuration (1 to 240), each
      followed by a comma. */
  function NmiAndConfiguration(s: string): (r: IResult<(string, string)>)
    ensures r.Ok? ==> |r.value.0| == 10 && AllIn(r.value.0, Alphanumerics)
    ensures r.Ok? ==> RunField(r.value.1, Alphanumerics, 240)
    ensures r.Ok? ==> s == r.value.0 + ("," + (r.value.1 + ("," + r.rest)))
    ensures !r.Incomplete?
  {
    var nmi :- AlnumExact(10, s);
    var b :- MatchTag(nmi.0, ",");
    var config :- AlnumField(240, b.0);
    var c :- MatchTag(config.0, ",");
    Ok(c.0, (nmi.1, config.1))
  }

  /** The register identifier (1 to 10 alphanumerics) and the NMI suffix
      (2), each followed by a comma. */
  function RegisterAndSuffix(s: string): (r: IResult<(string, string)>)
    ensures r.Ok? ==> RunField(r.value.0, Alphanumerics, 10)
    ensures r.Ok? ==> |r.value.1| == 2 && AllIn(r.value.1, Alphanumerics)
    ensures r.Ok? ==> s == r.value.0 + ("," + (r.value.1 + ("," + r.rest)))
    ensures !r.Incomplete?
  {
    var register :- AlnumField(10, s);
    var d :- MatchTag(register.0, ",");
    var suffix :- AlnumExact(2, d.0);
    var e :- MatchTag(suffix.0, ",");
    Ok(e.0, (register.1, suffix.1))
  }

  /** The field rules of the 200 record from its MDM data stream identifier on. */
  predicate NmiDataDetailsTailFields(d: NmiDataDetails) {
    && (d.mdmDataStreamId.Some? ==> |d.mdmDataStreamId.value| == 2 && AllIn(d.mdmDataStreamId.value, Alphanumerics))
    && RunField(d.meterSerialNumber, Alphanumerics, 12)
    && RunField(d.uom, Alphanumerics, 5)
    && d.intervalLength < 100
    && (d.nextScheduledReadDate.Some? ==> ValidDate(d.nextScheduledReadDate.value))
  }

  /** The 200 record after its NMI suffix, completing the record whose
      leading fields are given. */
  function NmiDataDetailsTail(nmi: string, config: string, register: string, suffix: string, s: string)
    : (r: IResult<NmiDataDetails>)
    ensures r.Ok? ==> r.value.nmi == nmi && r.value.nmiConfiguration == config
    ensures r.Ok? ==> r.value.registerId == register && r.value.nmiSuffix == suffix
    ensures r.Ok? ==> NmiDataDetailsTailFields(r.value) && NmiDataDetailsEnds(r.value, r.rest)
    ensures r.Ok? ==> s == WriteNmiDataDetailsTail(r.value, r.rest)
    ensures !r.Incomplete?
  {
    var meter :- StreamSerialAndUom(s);
    var reading := IntervalAndNextRead(meter.0);
    if reading.Ok? then
      Ok(reading.rest, NmiDataDetails(nmi, config, register, suffix, meter.1.0, meter.1.1, meter.1.2,
                                      reading.value.0, reading.value.1))
    else
      reading.PropagateFailure()
  }

  /** The optional MDM data stream identifier, the meter serial number and
      the unit of measure, each followed by a comma. */
  function StreamSerialAndUom(s: string): (r: IResult<(Option<string>, string, string)>)
    ensures r.Ok? && r.value.0.Some? ==> |r.value.0.value| == 2 && AllIn(r.value.0.value, Alphanumerics)
    ensures r.Ok? ==> RunField(r.value.1, Alphanumerics, 12) && RunField(r.value.2, Alphanumerics, 5)
    ensures r.Ok? ==> s == OrEmpty(r.value.0) + ("," + (r.value.1 + ("," + (r.value.2 + ("," + r.rest)))))
    ensures !r.Incomplete?
  {
    var stream :- MdmDataStreamIdField(s);
    var f :- MatchTag(stream.0, ",");
    var meter :- SerialAndUom(f.0);
    Ok(meter.0, (stream.1, meter.1.0, meter.1.1))
  }

  /** The meter serial number (1 to 12 alphanumerics) and the unit of
      measure (1 to 5), each followed by a comma. */
  function SerialAndUom(s: string): (r: IResult<(string, string)>)
    ensures r.Ok? ==> RunField(r.value.0, Alphanumerics, 12) && RunField(r.value.1, Alphanumerics, 5)
    ensures r.Ok? ==> s == r.value.0 + ("," + (r.value.1 + ("," + r.rest)))
    ensures !r.Incomplete?
  {
    var serial :- AlnumField(12, s);
    var g :- MatchTag(serial.0, ",");
    var uom :- AlnumField(5, g.0);
    var h :- MatchTag(uom.0, ",");
    Ok(h.0, (serial.1, uom.1))
  }

  /** The interval length (2 digits, read as their decimal value) and the
      optional next scheduled read date that close the 200 record. */
  function IntervalAndNextRead(s: string): (r: IResult<(nat, Option<Date>)>)
    ensures r.Ok? ==> r.value.0 < 100
    ensures r.Ok? && r.value.1.Some? ==> ValidDate(r.value.1.value)
    ensures r.Ok? && r.value.1.None? ==> r.rest == [] || r.rest[0] == '\n'
    ensures r.Ok? ==> s == Padded(r.value.0, 2) + ("," + (WriteNextReadDate(r.value.1) + r.rest))
    ensures !r.Incomplete?
  {
    var length :- DigitExact(2, s);
    var i :- MatchTag(length.0, ",");
    var next :- NextReadDate(i.0);
    PaddedOfValue(length.1);
    Ok(next.0, (Value(length.1), next.1))
  }

  // ---------------------------------------------------------------------
  // Interval data record (300)

  /** An interval value is kept as the numeric token `double` accepted. */
  datatype IntervalData = IntervalData(
    intervalDate: Date,
    intervalValue: seq<string>,
    qualityMethod: string,
    reasonCode: Option<string>,
    reasonDescription: Option<string>,
    updateDatetime: DateTime,
    msatsLoadDatetime: Option<DateTime>)

  predicate IntervalDataFields(x: IntervalData) {
    && ValidDate(x.intervalDate)
    && RunField(x.qualityMethod, Letters, 3)
    && (x.reasonCode.Some? ==> RunField(x.reasonCode.value, Digits, 3))
    && (x.reasonDescription.Some? ==> RunField(x.reasonDescription.value, Alphanumerics, 240))
    && ValidDateTime(x.updateDatetime)
    && (x.msatsLoadDatetime.Some? ==> ValidDateTime(x.msatsLoadDatetime.value))
  }

  /** What may follow a 300 record: anything after an MSATS load time, and
      fewer than 14 characters when there is none. */
  predicate IntervalDataEnds(x: IntervalData, k: string) {
    x.msatsLoadDatetime.None? ==> |k| < 14
  }

  function WriteDateTime14(o: Option<DateTime>): string {
    if o.Some? then EncodeDateTime14(o.value) else ""
  }

  function WriteIntervalData(x: IntervalData, k: string): string {
    "300," + (EncodeDate(x.intervalDate) + ("," + JoinThen(x.intervalValue, WriteIntervalDataTail(x, k))))
  }

  /** The 300 record from the comma after its interval values on. */
  function WriteIntervalDataTail(x: IntervalData, k: string): string {
    "," + (x.qualityMethod + ("," + (OrEmpty(x.reasonCode) + ("," + (OrEmpty(x.reasonDescription)
    + ("," + (EncodeDateTime14(x.updateDatetime) + ("," + (WriteDateTime14(x.msatsLoadDatetime) + k)))))))))
  }

  /** The reason code: 1 to 3 digits. */
  function ReasonCode(s: string): IResult<string> {
    DigitField(3, s)
  }

  /** The optional reason code, ended by a comma. */
  function ReasonCodeField(s: string): (r: IResult<Option<string>>)
    ensures r.Ok? ==> s == OrEmpty(r.value) + r.rest
    ensures r.Ok? && r.value.Some? ==> RunField(r.value.value, Digits, 3)
    ensures !r.Incomplete?
  {
    var r := OptionalField(ReasonCode, ",", s);
    if r.Ok? && r.value.None? then assert "" + r.rest == r.rest; r else r
  }

  /** The reason description of an interval data record: 1 to 240 alphanumerics. */
  function DataReasonDescription(s: string): IResult<string> {
    AlnumField(240, s)
  }

  /** The optional reason description, ended by a comma. */
  function DataReasonDescriptionField(s: string): (r: IResult<Option<string>>)
    ensures r.Ok? ==> s == OrEmpty(r.value) + r.rest
    ensures r.Ok? && r.value.Some? ==> RunField(r.value.value, Alphanumerics, 240)
    ensures !r.Incomplete?
  {
    var r := OptionalField(DataReasonDescription, ",", s);
    if r.Ok? && r.value.None? then assert "" + r.rest == r.rest; r else r
  }

  /** The MSATS load time, given what `datetime_14` made of the input: the
      time; `None`, consuming nothing, when the input is too short (an `Eof`
      error); the error when the 14 characters are not a valid time. */
  function MsatsLoadDateTimeOf(dt: IResult<DateTime>): (r: IResult<Option<DateTime>>)
  {
    match dt
    case Ok(rest, t) => Ok(rest, Some(t))
    case Error(at, Eof) => Ok(at, None)
    case Error(at, ParseTo) => Error(at, ParseTo)
    case _ => Panic
  }

  function MsatsLoadDateTime(s: string): (r: IResult<Option<DateTime>>)
    ensures r.Ok? ==> s == WriteDateTime14(r.value) + r.rest
    ensures r.Ok? && r.value.Some? ==> ValidDateTime(r.value.value)
    ensures r.Ok? && r.value.None? <==> |s| < 14
    ensures !r.Ok? ==> r == Error(s[14..], ParseTo)
  {
    var r := MsatsLoadDateTimeOf(DateTime14(s));
    if r.Ok? && r.value.None? then assert "" + r.rest == r.rest; r else r
  }

  /** The MSATS load time as written, with the streaming `take` inside
      `datetime_14`: a short field is incomplete, not an `Eof` error, so the
      `None` arm is never reached and the `panic!` arm is. */
  function MsatsLoadDateTimeAsWritten(s: string): (r: IResult<Option<DateTime>>)
    ensures |s| < 14 ==> r == Panic
    ensures |s| >= 14 ==> r == MsatsLoadDateTime(s)
  {
    MsatsLoadDateTimeOf(DateTime14AsWritten(s))
  }

  /** `300,`, the interval date and the run of interval values. */
  function IntervalValues(s: string): (r: IResult<(Date, seq<string>)>)
    ensures r.Ok? ==> ValidDate(r.value.0)
    ensures r.Ok? ==> s == "300," + (EncodeDate(r.value.0) + ("," + JoinThen(r.value.1, r.rest)))
    ensures r.Ok? ==> NumberTokens(r.value.1) && (r.value.1 != [] ==> ListEnds(r.rest))
    ensures r.Ok? && r.value.1 == [] ==> !NumberStart(r.rest)
    ensures !("300," <= s) ==> r == Error(s, Tag)
    ensures !r.Incomplete?
  {
    var a :- MatchTag(s, "300,");
    var date :- Date8(a.0);
    var b :- MatchTag(date.0, ",");
    var values := SeparatedDoubles(b.0);
    Ok(values.rest, (date.1, values.value))
  }

  function ParseIntervalData(s: string): (r: IResult<IntervalData>)
    ensures r.Ok? ==> IntervalDataFields(r.value) && IntervalDataEnds(r.value, r.rest)
    ensures r.Ok? ==> s == WriteIntervalData(r.value, r.rest)
    ensures r.Ok? ==> NumberTokens(r.value.intervalValue)
    ensures !("300," <= s) ==> r == Error(s, Tag)
    ensures !r.Incomplete?
  {
    var head :- IntervalValues(s);
    IntervalDataTail(head.1.0, head.1.1, head.0)
  }

  /** The 300 record after its interval values, completing the record whose
      date and values are given. */
  function IntervalDataTail(date: Date, values: seq<string>, s: string): (r: IResult<IntervalData>)
    requires ValidDate(date)
    ensures r.Ok? ==> r.value.intervalDate == date && r.value.intervalValue == values
    ensures r.Ok? ==> IntervalDataFields(r.value) && IntervalDataEnds(r.value, r.rest)
    ensures r.Ok? ==> s == WriteIntervalDataTail(r.value, r.rest)
    ensures !r.Incomplete?
  {
    var fields :- QualityReasonAndDescription(s);
    var times :- UpdateAndMsatsLoad(fields.0);
    Ok(times.0, IntervalData(date, values, fields.1.0, fields.1.1, fields.1.2, times.1.0, times.1.1))
  }

  /** The comma after the values, then the quality method, the optional
      reason code and the optional reason description, each followed by a
      comma. */
  function QualityReasonAndDescription(s: string): (r: IResult<(string, Option<string>, Option<string>)>)
    ensures r.Ok? ==> RunField(r.value.0, Letters, 3)
    ensures r.Ok? && r.value.1.Some? ==> RunField(r.value.1.value, Digits, 3)
    ensures r.Ok? && r.value.2.Some? ==> RunField(r.value.2.value, Alphanumerics, 240)
    ensures r.Ok? ==> s == "," + (r.value.0 + ("," + (OrEmpty(r.value.1) + ("," + (OrEmpty(r.value.2) + ("," + r.rest))))))
    ensures !r.Incomplete?
  {
    var c :- MatchTag(s, ",");
    var quality :- QualityAndReason(c.0);
    var description :- DataReasonDescriptionField(quality.0);
    var f :- MatchTag(description.0, ",");
    Ok(f.0, (quality.1.0, quality.1.1, description.1))
  }

  /** The quality method (1 to 3 letters) and the optional reason code, each
      followed by a comma. */
  function QualityAndReason(s: string): (r: IResult<(string, Option<string>)>)
    ensures r.Ok? ==> RunField(r.value.0, Letters, 3)
    ensures r.Ok? && r.value.1.Some? ==> RunField(r.value.1.value, Digits, 3)
    ensures r.Ok? ==> s == r.value.0 + ("," + (OrEmpty(r.value.1) + ("," + r.rest)))
    ensures !r.Incomplete?
  {
    var quality :- AlphaField(3, s);
    var d :- MatchTag(quality.0, ",");
    var reason :- ReasonCodeField(d.0);
    var e :- MatchTag(reason.0, ",");
    Ok(e.0, (quality.1, reason.1))
  }

  /** The update time and the optional MSATS load time that close the 300 record. */
  function UpdateAndMsatsLoad(s: string): (r: IResult<(DateTime, Option<DateTime>)>)
    ensures r.Ok? ==> ValidDateTime(r.value.0)
    ensures r.Ok? && r.value.1.Some? ==> ValidDateTime(r.value.1.value)
    ensures r.Ok? && r.value.1.None? ==> |r.rest| < 14
    ensures r.Ok? ==> s == EncodeDateTime14(r.value.0) + ("," + (WriteDateTime14(r.value.1) + r.rest))
    ensures !r.Incomplete?
  {
    var update :- DateTime14(s);
    var g :- MatchTag(update.0, ",");
    var msats :- MsatsLoadDateTime(g.0);
    Ok(msats.0, (update.1, msats.1))
  }

  /** The sample-count check left commented out in the source: with the
      governing 200 record at hand, a day holds `1440 / interval_length`
      values (integer division); a zero length divides by zero. */
  function SampleCountCheck(s: string, details: Option<NmiDataDetails>, count: nat): (r: IResult<()>)
    ensures r.Ok? ==> r.rest == s
    ensures details.None? ==> r.Ok?
    ensures details.Some? && details.value.intervalLength == 0 ==> r == Panic
    ensures details.Some? && details.value.intervalLength > 0 ==>
      (r.Ok? <==> count * details.value.intervalLength <= 1440 < (count + 1) * details.value.intervalLength)
    ensures details.Some? && details.value.intervalLength > 0 && !r.Ok? ==> r == Error(s, SeparatedList)
  {
    match details
    case None => Ok(s, ())
    case Some(d) =>
      if d.intervalLength == 0 then Panic
      else
        QuotientBounds(1440, d.intervalLength, count);
        if 1440 / d.intervalLength != count then Error(s, SeparatedList)
        else Ok(s, ())
  }

  /** `q` is the quotient of `n` by `m` exactly when `q * m <= n < (q + 1) * m`. */
  lemma QuotientBounds(n: nat, m: nat, q: nat)
    requires m > 0
    ensures n / m == q <==> q * m <= n < (q + 1) * m
  {
    var d := n / m;
    assert d * m <= n < (d + 1) * m;
  }

  /** The 300 parser with the sample-count check in place, after the values. */
  function ParseIntervalDataChecked(s: string, details: Option<NmiDataDetails>): (r: IResult<IntervalData>)
    ensures details.None? ==> r == ParseIntervalData(s)
    ensures r.Ok? ==> r == ParseIntervalData(s)
    ensures details.Some? && details.value.intervalLength > 0 ==>
      (r.Ok? <==> ParseIntervalData(s).Ok?
                  && |ParseIntervalData(s).value.intervalValue| == 1440 / details.value.intervalLength)
    ensures details.Some? && details.value.intervalLength > 0 && IntervalValues(s).Ok?
            && |IntervalValues(s).value.1| != 1440 / details.value.intervalLength
            ==> r == Error(IntervalValues(s).rest, SeparatedList)
    ensures details.Some? && details.value.intervalLength == 0 && IntervalValues(s).Ok? ==> r == Panic
  {
    var head :- IntervalValues(s);
    var counted :- SampleCountCheck(head.0, details, |head.1.1|);
    IntervalDataTail(head.1.0, head.1.1, counted.0)
  }

  // ---------------------------------------------------------------------
  // Interval event record (400)

  datatype IntervalEvent = IntervalEvent(
    startInterval: string,
    endInterval: string,
    qualityMethod: string,
    reasonCode: string,
    reasonDescription: Option<string>)

  predicate IntervalEventFields(v: IntervalEvent) {
    && RunField(v.startInterval, Digits, 4)
    && RunField(v.endInterval, Digits, 4)
    && RunField(v.qualityMethod, Alphanumerics, 3)
    && RunField(v.reasonCode, Digits, 3)
    && (v.reasonDescription.Some? ==> RunField(v.reasonDescription.value, Alphanumerics, 24))
  }

  /** What may follow a 400 record: a line feed when there is no description,
      and no further alphanumeric after one. */
  predicate IntervalEventEnds(v: IntervalEvent, k: string) {
    if v.reasonDescription.None? then "\n" <= k else StopsRun(k, Alphanumerics)
  }

  function WriteIntervalEvent(v: IntervalEvent, k: string): string {
    "400," + (v.startInterval + ("," + (v.endInterval + ("," + WriteIntervalEventTail(v, k)))))
  }

  /** The 400 record from its quality method on. */
  function WriteIntervalEventTail(v: IntervalEvent, k: string): string {
    v.qualityMethod + ("," + (v.reasonCode + ("," + (OrEmpty(v.reasonDescription) + k))))
  }

  /** The reason description of an interval event: 1 to 24 alphanumerics. */
  function EventReasonDescription(s: string): IResult<string> {
    AlnumField(24, s)
  }

  /** The optional reason description, ended by a line feed. */
  function EventReasonDescriptionField(s: string): (r: IResult<Option<string>>)
    ensures r.Ok? ==> s == OrEmpty(r.value) + r.rest
    ensures r.Ok? && r.value.Some? ==> RunField(r.value.value, Alphanumerics, 24) && StopsRun(r.rest, Alphanumerics)
    ensures r.Ok? && r.value.None? ==> "\n" <= r.rest
    ensures !r.Incomplete?
  {
    var r := OptionalField(EventReasonDescription, "\n", s);
    if r.Ok? && r.value.None? then assert "" + r.rest == r.rest; r else r
  }

  function ParseIntervalEvent(s: string): (r: IResult<IntervalEvent>)
    ensures r.Ok? ==> IntervalEventFields(r.value) && IntervalEventEnds(r.value, r.rest)
    ensures r.Ok? ==> s == WriteIntervalEvent(r.value, r.rest)
    ensures !("400," <= s) ==> r == Error(s, Tag)
    ensures !r.Incomplete?
  {
    var a :- MatchTag(s, "400,");
    var start :- DigitField(4, a.0);
    var b :- MatchTag(start.0, ",");
    var end :- DigitField(4, b.0);
    var c :- MatchTag(end.0, ",");
    IntervalEventTail(start.1, end.1, c.0)
  }

  /** The 400 record after its end interval, completing the event whose
      interval bounds are given. */
  function IntervalEventTail(start: string, end: string, s: string): (r: IResult<IntervalEvent>)
    requires RunField(start, Digits, 4) && RunField(end, Digits, 4)
    ensures r.Ok? ==> r.value.startInterval == start && r.value.endInterval == end
    ensures r.Ok? ==> IntervalEventFields(r.value) && IntervalEventEnds(r.value, r.rest)
    ensures r.Ok? ==> s == WriteIntervalEventTail(r.value, r.rest)
    ensures !r.Incomplete?
  {
    var quality :- AlnumField(3, s);
    var d :- MatchTag(quality.0, ",");
    var reason :- DigitField(3, d.0);
    var e :- MatchTag(reason.0, ",");
    var description :- EventReasonDescriptionField(e.0);
    Ok(description.0, IntervalEvent(start, end, quality.1, reason.1, description.1))
  }

  // ---------------------------------------------------------------------
  // B2B details record (500)

  datatype B2BDetails = B2BDetails(
    transCode: string,
    retServiceOrder: string,
    readDatetime: DateTime,
    indexRead: string)

  predicate B2BDetailsFields(b: B2BDetails) {
    && |b.transCode| == 1 && AllIn(b.transCode, Letters)
    && RunField(b.retServiceOrder, Alphanumerics, 15)
    && ValidDateTime(b.readDatetime)
    && IsDecimal(b.indexRead) && |b.indexRead| <= 15
  }

  function WriteB2BDetails(b: B2BDetails, k: string): string {
    "500," + (b.transCode + ("," + (b.retServiceOrder + ("," + WriteB2BDetailsTail(b, k)))))
  }

  /** The 500 record from its read time on. */
  function WriteB2BDetailsTail(b: B2BDetails, k: string): string {
    EncodeDateTime14(b.readDatetime) + ("," + (b.indexRead + k))
  }

  /** `rest` does not continue the index read `t`: no further digit, and no
      fractional part when `t` has none. */
  predicate EndsIndexRead(t: string, rest: string) {
    && StopsRun(rest, Digits)
    && (AllIn(t, Digits) ==> !(|rest| >= 2 && rest[0] == '.' && IsDigit(rest[1])))
  }

  /** The input after `opt(pair(tag("."), digit1))`. */
  function OptFraction(s: string): (rest: string)
    ensures IsSuffix(rest, s)
    ensures rest != s <==> |s| >= 2 && s[0] == '.' && InClass(s[1], Digits)
    ensures rest != s ==> s == "." + Span(s[1..], Digits) + rest
  {
    match MatchTag(s, ".")
    case Ok(s1, _) =>
      var d := Digit1(s1);
      if d.Ok? then d.rest else s
    case _ => s
  }

  /** `permutation((digit1, opt(pair(tag("."), digit1))))`, as the input it
      leaves: the permutation first tries `digit1`; when that fails it runs
      the optional fraction and then `digit1` again, whose outcome ends it. */
  function IndexReadParts(s: string): (r: IResult<string>)
    ensures r.Ok? ==> IsSuffix(r.rest, s)
    ensures r.Ok? <==> s != [] && InClass(s[0], Digits)
    ensures r.Ok? ==> r.value == Span(s, Digits) && r.rest == OptFraction(s[|r.value|..])
    ensures !r.Ok? ==> r == Error(OptFraction(s), Digit)
    ensures !r.Incomplete?
  {
    var first := Digit1(s);
    if first.Ok? then
      assert first.rest == s[|first.value|..];
      Ok(OptFraction(first.rest), first.value)
    else
      OptFractionStops(s);
      Digit1(OptFraction(s))
  }

  /** `recognize(...)` around the permutation: the text it consumed. */
  function IndexRead(s: string): (r: IResult<string>)
    ensures r.Ok? ==> r.value + r.rest == s
    ensures !r.Incomplete?
  {
    var p := IndexReadParts(s);
    if p.Ok? then SplitAt(s, |s| - |p.rest|); Ok(p.rest, s[..|s| - |p.rest|]) else p
  }

  function ParseB2BDetails(s: string): (r: IResult<B2BDetails>)
    ensures r.Ok? ==> B2BDetailsFields(r.value) && EndsIndexRead(r.value.indexRead, r.rest)
    ensures r.Ok? ==> s == WriteB2BDetails(r.value, r.rest)
    ensures !("500," <= s) ==> r == Error(s, Tag)
    ensures !r.Incomplete?
  {
    var a :- MatchTag(s, "500,");
    var code :- AlphaExact(1, a.0);
    var b :- MatchTag(code.0, ",");
    var order :- AlnumField(15, b.0);
    var c :- MatchTag(order.0, ",");
    B2BDetailsTail(code.1, order.1, c.0)
  }

  /** The 500 record after its retailer service order. */
  function B2BDetailsTail(code: string, order: string, s: string): (r: IResult<B2BDetails>)
    ensures r.Ok? ==> r.value.transCode == code && r.value.retServiceOrder == order
    ensures r.Ok? ==> ValidDateTime(r.value.readDatetime)
    ensures r.Ok? ==> IsDecimal(r.value.indexRead) && |r.value.indexRead| <= 15
    ensures r.Ok? ==> EndsIndexRead(r.value.indexRead, r.rest)
    ensures r.Ok? ==> s == WriteB2BDetailsTail(r.value, r.rest)
    ensures |s| < 14 ==> r == Error(s, Eof)
    ensures !r.Incomplete?
  {
    var read :- DateTime14(s);
    var d :- MatchTag(read.0, ",");
    var index :- IndexReadField(d.0);
    Ok(index.0, B2BDetails(code, order, read.1, index.1))
  }

  /** `section_of_max_length(index read, 15)` */
  function IndexReadField(s: string): (r: IResult<string>)
    ensures r.Ok? ==> IsDecimal(r.value) && |r.value| <= 15 && EndsIndexRead(r.value, r.rest)
    ensures r.Ok? ==> r.value + r.rest == s
    ensures !r.Incomplete?
  {
    IndexReadShape(s);
    SectionOfMaxLength(IndexRead, 15, s)
  }

  /** The index read accepts exactly the inputs that start with a digit; it
      reads a decimal that what follows does not continue, and otherwise
      fails with a `Digit` error. */
  lemma IndexReadShape(s: string)
    ensures IndexRead(s).Ok? <==> s != [] && IsDigit(s[0])
    ensures IndexRead(s).Ok? ==> IsDecimal(IndexRead(s).value) && EndsIndexRead(IndexRead(s).value, IndexRead(s).rest)
    ensures !IndexRead(s).Ok? ==> IndexRead(s).Error? && IndexRead(s).kind == Digit
  {
    var first := Digit1(s);
    if first.Ok? {
      IndexReadFromDigits(s);
    } else {
      var s1 := OptFraction(s);
      assert StopsRun(s1, Digits) by { OptFractionStops(s); }
    }
  }

  /** After the optional fraction no digit follows, unless nothing was consumed. */
  lemma OptFractionStops(s: string)
    requires StopsRun(s, Digits)
    ensures StopsRun(OptFraction(s), Digits)
  {
  }

  lemma IndexReadFromDigits(s: string)
    requires s != [] && IsDigit(s[0])
    ensures IndexRead(s).Ok?
    ensures IsDecimal(IndexRead(s).value) && EndsIndexRead(IndexRead(s).value, IndexRead(s).rest)
  {
    var w := Span(s, Digits);
    var u := s[|w|..];
    SplitAt(s, |w|);
    assert Digit1(s) == Ok(u, w);
    if |u| >= 2 && u[0] == '.' && IsDigit(u[1]) {
      OptFractionTaken(u);
      var f := Span(u[1..], Digits);
      var n := |w| + 1 + |f|;
      assert u[1..] == s[|w| + 1..];
      FractionInPlace(s, w, f);
      DecimalWithFraction(w, f, u[1..][|f|..]);
      assert IndexRead(s).rest == s[n..];
      assert IndexRead(s).value == s[..n];
    } else {
      OptFractionSkipped(u);
      DecimalWithoutFraction(s, w, u);
    }
  }

  lemma OptFractionTaken(u: string)
    requires |u| >= 2 && u[0] == '.' && IsDigit(u[1])
    ensures OptFraction(u) == u[1 + |Span(u[1..], Digits)|..]
  {
    assert MatchTag(u, ".") == Ok(u[1..], ".");
    assert u[1..][|Span(u[1..], Digits)|..] == u[1 + |Span(u[1..], Digits)|..];
  }

  lemma OptFractionSkipped(u: string)
    requires !(|u| >= 2 && u[0] == '.' && IsDigit(u[1]))
    ensures OptFraction(u) == u
  {
    if MatchTag(u, ".").Ok? {
      assert u[1..] == [] || !IsDigit(u[1..][0]);
    }
  }

  /** Digits, a point and more digits form a decimal, and a rest that does
      not continue with a digit ends it. */
  lemma DecimalWithFraction(w: string, f: string, rest: string)
    requires w != [] && AllIn(w, Digits) && f != [] && AllIn(f, Digits) && StopsRun(rest, Digits)
    ensures IsDecimal(w + ("." + f)) && EndsIndexRead(w + ("." + f), rest)
  {
    var t := w + ("." + f);
    FractionDecimal(w, f);
    assert !IsDigit(t[|w|]);
  }

  /** A prefix, a point and a prefix of what follows the point, in place. */
  lemma FractionInPlace(s: string, w: string, f: string)
    requires w <= s && |w| < |s| && s[|w|] == '.' && f <= s[|w| + 1..]
    ensures |w| + 1 + |f| <= |s| && s[..|w| + 1 + |f|] == w + ("." + f)
  {
    var n := |w| + 1 + |f|;
    assert s[|w| + 1..n] == f;
    PieceAround(s, |w|, n);
    assert s[..|w|] == w;
  }

  /** Digits not followed by a fraction are a decimal on their own. */
  lemma DecimalWithoutFraction(s: string, w: string, u: string)
    requires w == Span(s, Digits) && w != [] && u == s[|w|..]
    requires !(|u| >= 2 && u[0] == '.' && IsDigit(u[1]))
    ensures |w| <= |s| && s[..|w|] == w
    ensures IsDecimal(w) && EndsIndexRead(w, u)
  {
    SpanAppend(w, [], Digits);
    assert w + [] == w;
  }

  lemma PieceAround(s: string, i: nat, n: nat)
    requires i < n <= |s|
    ensures s[..n] == s[..i] + ([s[i]] + s[i + 1..n])
  {
  }

  /** `digits.digits` is a decimal. */
  lemma FractionDecimal(w: string, f: string)
    requires w != [] && AllIn(w, Digits) && f != [] && AllIn(f, Digits)
    ensures IsDecimal(w + ("." + f))
  {
    var t := w + ("." + f);
    SpanAppend(w, "." + f, Digits);
    assert t[|w| + 1..] == f;
  }

  // ---------------------------------------------------------------------
  // End of data record (900)

  datatype EndOfData = EndOfData

  function ParseEndOfData(s: string): (r: IResult<EndOfData>)
    ensures r.Ok? <==> "900" <= s
    ensures r.Ok? ==> IsSuffix(r.rest, s[3..]) && AllIn(s[3..|s| - |r.rest|], Whitespace)
    ensures r.Ok? ==> StopsRun(r.rest, Whitespace)
    ensures !r.Ok? ==> r == Error(s, Tag)
  {
    var a :- MatchTag(s, "900");
    var b := Multispace0(a.0);
    assert a.0 == s[3..];
    assert s[3..|s| - |b.rest|] == b.value;
    Ok(b.rest, EndOfData)
  }

  // ---------------------------------------------------------------------
  // As written: the date readers with the streaming `take`
  //
  // `src/common.rs` imports the streaming `take`, so a date or time field cut
  // short by the end of the line is `Incomplete`, which `alt` does not
  // retry and the driver reports with the needed size as the line number,
  // or which reaches a `panic!` arm where the parser expects an error.  The
  // parsers below are the record parsers exactly as written; each differs
  // from the corrected parser above only in that way.

  /** A complete `take` that ran out of input: an `Eof` error. */
  predicate ShortField<T>(r: IResult<T>) {
    r.Error? && r.kind == Eof
  }

  /** `header` as written: a creation time cut short is `Incomplete(12)`. */
  function ParseHeaderAsWritten(s: string): (r: IResult<Header>)
    ensures !("100," <= s) ==> r == Error(s, Tag)
    ensures "100,NEM12," <= s && |s| < 22 ==> r == Incomplete(12)
  {
    var a :- MatchTag(s, "100,");
    var b :- MatchTag(a.0, "NEM12,");
    HeaderOf(DateTime12AsWritten(b.0))
  }

  /** The header as written is the corrected header, except that a creation
      time cut short is `Incomplete(12)` where the corrected one has an
      `Eof` error. */
  lemma ParseHeaderAsWrittenAgrees(s: string)
    ensures var r, c := ParseHeaderAsWritten(s), ParseHeader(s);
      r == c || (r == Incomplete(12) && ShortField(c))
  {
    if "100,NEM12," <= s && |s| >= 22 {
      assert DateTime12AsWritten(s[10..]) == DateTime12(s[10..]);
    }
  }

  /** The interval length and next read date as written: a read date field
      of fewer than 8 characters panics, the `None` arm included. */
  function IntervalAndNextReadAsWritten(s: string): (r: IResult<(nat, Option<Date>)>)
  {
    var length :- DigitExact(2, s);
    var i :- MatchTag(length.0, ",");
    var next :- NextReadDateAsWritten(i.0);
    Ok(next.0, (Value(length.1), next.1))
  }

  lemma IntervalAndNextReadAsWrittenAgrees(s: string)
    ensures var r, c := IntervalAndNextReadAsWritten(s), IntervalAndNextRead(s);
      && (r == c || r == Panic)
      && (c.Ok? ==> (r.Ok? <==> c.value.1.Some? || |c.rest| >= 8))
  {
    var length := DigitExact(2, s);
    if length.Ok? {
      var i := MatchTag(length.rest, ",");
      if i.Ok? {
        var m := i.rest;
        if |m| >= 8 {
          assert NextReadDateAsWritten(m) == NextReadDate(m);
        } else {
          assert NextReadDateAsWritten(m) == Panic;
        }
      }
    }
  }

  function NmiDataDetailsTailAsWritten(nmi: string, config: string, register: string, suffix: string, s: string)
    : (r: IResult<NmiDataDetails>)
  {
    var meter :- StreamSerialAndUom(s);
    var reading := IntervalAndNextReadAsWritten(meter.0);
    if reading.Ok? then
      Ok(reading.rest, NmiDataDetails(nmi, config, register, suffix, meter.1.0, meter.1.1, meter.1.2,
                                      reading.value.0, reading.value.1))
    else
      reading.PropagateFailure()
  }

  lemma NmiDataDetailsTailAsWrittenAgrees(nmi: string, config: string, register: string, suffix: string, s: string)
    ensures var r, c := NmiDataDetailsTailAsWritten(nmi, config, register, suffix, s),
                        NmiDataDetailsTail(nmi, config, register, suffix, s);
      && (r == c || r == Panic)
      && (c.Ok? ==> (r.Ok? <==> c.value.nextScheduledReadDate.Some? || |c.rest| >= 8))
  {
    var meter := StreamSerialAndUom(s);
    if meter.Ok? {
      IntervalAndNextReadAsWrittenAgrees(meter.rest);
    }
  }

  /** `nmi_data_details` as written. */
  function ParseNmiDataDetailsAsWritten(s: string): (r: IResult<NmiDataDetails>)
    ensures !("200," <= s) ==> r == Error(s, Tag)
  {
    var a :- MatchTag(s, "200,");
    var ids :- NmiAndConfiguration(a.0);
    var meter :- RegisterAndSuffix(ids.0);
    NmiDataDetailsTailAsWritten(ids.1.0, ids.1.1, meter.1.0, meter.1.1, meter.0)
  }

  /** The 200 parser as written is the corrected one, except that it panics
      where the read date field has fewer than 8 characters: a record read
      without a read date is kept only when at least 8 characters follow. */
  lemma ParseNmiDataDetailsAsWrittenAgrees(s: string)
    ensures var r, c := ParseNmiDataDetailsAsWritten(s), ParseNmiDataDetails(s);
      && (r == c || r == Panic)
      && (c.Ok? ==> (r.Ok? <==> c.value.nextScheduledReadDate.Some? || |c.rest| >= 8))
  {
    if "200," <= s {
      var ids := NmiAndConfiguration(s[4..]);
      if ids.Ok? {
        var meter := RegisterAndSuffix(ids.rest);
        if meter.Ok? {
          NmiDataDetailsTailAsWrittenAgrees(ids.value.0, ids.value.1, meter.value.0, meter.value.1, meter.rest);
        }
      }
    }
  }

  /** `300,`, the interval date and the values as written: a date cut short
      is `Incomplete(8)`. */
  function IntervalValuesAsWritten(s: string): (r: IResult<(Date, seq<string>)>)
    ensures "300," <= s && |s| < 12 ==> r == Incomplete(8)
    ensures !("300," <= s && |s| < 12) ==> r == IntervalValues(s)
  {
    var a :- MatchTag(s, "300,");
    var date :- Date8AsWritten(a.0);
    var b :- MatchTag(date.0, ",");
    var values := SeparatedDoubles(b.0);
    Ok(values.rest, (date.1, values.value))
  }

  /** The update and MSATS load times as written: an update time cut short
      is `Incomplete(14)`, and a missing MSATS load time panics. */
  function UpdateAndMsatsLoadAsWritten(s: string): (r: IResult<(DateTime, Option<DateTime>)>)
    ensures |s| < 14 ==> r == Incomplete(14)
  {
    var update :- DateTime14AsWritten(s);
    var g :- MatchTag(update.0, ",");
    var msats :- MsatsLoadDateTimeAsWritten(g.0);
    Ok(msats.0, (update.1, msats.1))
  }

  /** The as-written times differ from the corrected ones only where a field
      is cut short: the update time (`Incomplete(14)` for an `Eof` error) and
      the MSATS load time (a panic for `None`). */
  lemma UpdateAndMsatsLoadAsWrittenAgrees(s: string)
    ensures UpdateAndMsatsLoadAsWritten(s).Incomplete? <==> |s| < 14
    ensures UpdateAndMsatsLoadAsWritten(s).Incomplete? ==> ShortField(UpdateAndMsatsLoad(s))
    ensures UpdateAndMsatsLoadAsWritten(s).Ok? || UpdateAndMsatsLoadAsWritten(s).Error?
            ==> UpdateAndMsatsLoadAsWritten(s) == UpdateAndMsatsLoad(s)
    ensures UpdateAndMsatsLoadAsWritten(s).Panic?
            ==> UpdateAndMsatsLoad(s).Ok? && UpdateAndMsatsLoad(s).value.1.None?
    ensures UpdateAndMsatsLoad(s).Ok?
            ==> (UpdateAndMsatsLoadAsWritten(s).Ok? <==> UpdateAndMsatsLoad(s).value.1.Some?)
  {
    if |s| >= 14 {
      var u := DateTime14(s);
      assert DateTime14AsWritten(s) == u;
      if u.Ok? {
        var g := MatchTag(u.rest, ",");
        if g.Ok? {
          var m := g.rest;
          if |m| < 14 {
            assert MsatsLoadDateTimeAsWritten(m) == Panic;
            assert MsatsLoadDateTime(m) == Ok(m, None);
          } else {
            assert MsatsLoadDateTimeAsWritten(m) == MsatsLoadDateTime(m);
          }
        }
      }
    }
  }

  function IntervalDataTailAsWritten(date: Date, values: seq<string>, s: string): (r: IResult<IntervalData>)
    requires ValidDate(date)
  {
    var fields :- QualityReasonAndDescription(s);
    var times :- UpdateAndMsatsLoadAsWritten(fields.0);
    Ok(times.0, IntervalData(date, values, fields.1.0, fields.1.1, fields.1.2, times.1.0, times.1.1))
  }

  lemma IntervalDataTailAsWrittenAgrees(date: Date, values: seq<string>, s: string)
    requires ValidDate(date)
    ensures var r, c := IntervalDataTailAsWritten(date, values, s), IntervalDataTail(date, values, s);
      && (r.Ok? || r.Error? ==> r == c)
      && (r.Incomplete? ==> r == Incomplete(14) && ShortField(c))
      && (r.Panic? ==> c.Panic? || (c.Ok? && c.value.msatsLoadDatetime.None?))
      && (c.Ok? ==> (r.Ok? <==> c.value.msatsLoadDatetime.Some?))
  {
    var fields := QualityReasonAndDescription(s);
    if fields.Ok? {
      var c, w := UpdateAndMsatsLoad(fields.rest), UpdateAndMsatsLoadAsWritten(fields.rest);
      UpdateAndMsatsLoadAsWrittenAgrees(fields.rest);
      var f := fields.value;
      if c.Ok? {
        assert IntervalDataTail(date, values, s)
          == Ok(c.rest, IntervalData(date, values, f.0, f.1, f.2, c.value.0, c.value.1));
      } else {
        assert IntervalDataTail(date, values, s) == c.PropagateFailure();
      }
    }
  }

  /** `interval_data` as written: a date cut short is `Incomplete(8)`. */
  function ParseIntervalDataAsWritten(s: string): (r: IResult<IntervalData>)
    ensures !("300," <= s) ==> r == Error(s, Tag)
    ensures "300," <= s && |s| < 12 ==> r == Incomplete(8)
  {
    var head :- IntervalValuesAsWritten(s);
    IntervalDataTailAsWritten(head.1.0, head.1.1, head.0)
  }

  /** The 300 parser as written agrees with the corrected one except where a
      field is cut short: a short date or update time is incomplete (8 or 14)
      where the corrected parser has an `Eof` error, and a record without an
      MSATS load time panics; no other outcome differs. */
  lemma ParseIntervalDataAsWrittenAgrees(s: string)
    ensures var r, c := ParseIntervalDataAsWritten(s), ParseIntervalData(s);
      && (r.Ok? || r.Error? ==> r == c)
      && (r.Incomplete? ==> (r == Incomplete(8) || r == Incomplete(14)) && ShortField(c))
      && (r.Panic? ==> c.Panic? || (c.Ok? && c.value.msatsLoadDatetime.None?))
      && (c.Ok? ==> (r.Ok? <==> c.value.msatsLoadDatetime.Some?))
  {
    if !("300," <= s && |s| < 12) {
      var head := IntervalValues(s);
      if head.Ok? {
        IntervalDataTailAsWrittenAgrees(head.value.0, head.value.1, head.rest);
      }
    }
  }

  function B2BDetailsTailAsWritten(code: string, order: string, s: string): (r: IResult<B2BDetails>)
    ensures |s| < 14 ==> r == Incomplete(14)
    ensures |s| >= 14 ==> r == B2BDetailsTail(code, order, s)
  {
    var read :- DateTime14AsWritten(s);
    var d :- MatchTag(read.0, ",");
    var index :- IndexReadField(d.0);
    Ok(index.0, B2BDetails(code, order, read.1, index.1))
  }

  /** `b2b_details` as written. */
  function ParseB2BDetailsAsWritten(s: string): (r: IResult<B2BDetails>)
    ensures !("500," <= s) ==> r == Error(s, Tag)
  {
    var a :- MatchTag(s, "500,");
    var code :- AlphaExact(1, a.0);
    var b :- MatchTag(code.0, ",");
    var order :- AlnumField(15, b.0);
    var c :- MatchTag(order.0, ",");
    B2BDetailsTailAsWritten(code.1, order.1, c.0)
  }

  /** The 500 parser as written is the corrected one, except that a read
      time cut short is `Incomplete(14)` where the corrected one has an
      `Eof` error. */
  lemma ParseB2BDetailsAsWrittenAgrees(s: string)
    ensures var r, c := ParseB2BDetailsAsWritten(s), ParseB2BDetails(s);
      r == c || (r == Incomplete(14) && ShortField(c))
  {
    if "500," <= s {
      var code := AlphaExact(1, s[4..]);
      if code.Ok? && "," <= code.rest {
        var order := AlnumField(15, code.rest[1..]);
        if order.Ok? && "," <= order.rest {
          var rest := order.rest[1..];
          if |rest| < 14 {
            assert DateTime14(rest) == Error(rest, Eof);
          }
        }
      }
    }
  }
}
