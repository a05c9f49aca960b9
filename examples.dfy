/** Worked examples: the records of the unit tests of `src/nem12.rs`, read
    through the model, and the inputs that separate the date fields as
    written from the fields the tests expect. */
module Examples {
  import opened Nom
  import opened Calendar
  import opened Common
  import opened Record
  import opened RoundTrip
  import opened Nem12

  // ---------------------------------------------------------------------
  // Header record (100)

  /** 11:35 on 1 May 2004, the creation time of the `header_100` test. */
  const Created: DateTime := DateTime(Date(2004, 5, 1), 11, 35, 0)

  lemma CreatedEncoding()
    ensures EncodeDateTime12(Created) == "200405011135"
  {
  }

  /** The header of the `header_100` test, from MDA1 to Ret1. */
  lemma HeaderExample()
    ensures ParseHeader("100,NEM12,200405011135,MDA1,Ret1\n") == Ok("\n", Header(Created, "MDA1", "Ret1"))
  {
    HeaderLine("MDA1", "100,NEM12,200405011135,MDA1,Ret1\n");
    HeaderRoundTrip(Header(Created, "MDA1", "Ret1"), "\n");
  }

  /** A participant of the full ten characters is accepted. */
  lemma HeaderTenCharacterParticipant()
    ensures ParseHeader("100,NEM12,200405011135,0123456789,Ret1\n")
         == Ok("\n", Header(Created, "0123456789", "Ret1"))
  {
    HeaderLine("0123456789", "100,NEM12,200405011135,0123456789,Ret1\n");
    Alphanumeric10();
    HeaderRoundTrip(Header(Created, "0123456789", "Ret1"), "\n");
  }

  /** An eleven-character participant is a `Verify` error at the start of the field. */
  lemma HeaderParticipantTooLong()
    ensures ParseHeader("100,NEM12,200405011135,12345678910,Ret1\n") == Error("12345678910,Ret1\n", Verify)
  {
    HeaderLine("12345678910", "100,NEM12,200405011135,12345678910,Ret1\n");
    Alphanumeric11();
    ParticipantTooLong(Created, "12345678910", ",Ret1\n");
  }

  /** A sending participant longer than ten characters is rejected where it starts. */
  lemma ParticipantTooLong(t: DateTime, from: string, k: string)
    requires ValidDateTime(t) && t.second == 0
    requires AllIn(from, Alphanumerics) && |from| > 10 && StopsRun(k, Alphanumerics)
    ensures ParseHeader("100," + ("NEM12," + (EncodeDateTime12(t) + ("," + (from + k)))))
         == Error(from + k, Verify)
  {
    DateTime12RoundTrip(t, "," + (from + k));
    MaxRunFieldTooLong(AlphaNumeric1, from, k, Alphanumerics, AlphaNumeric, 10);
  }

  /** A test line is a header created at `Created`, sent by `from` to Ret1. */
  lemma HeaderLine(from: string, line: string)
    requires line == "100,NEM12,200405011135," + from + ",Ret1\n"
    ensures line == WriteHeader(Header(Created, from, "Ret1"), "\n")
    ensures line == "100," + ("NEM12," + (EncodeDateTime12(Created) + ("," + (from + ",Ret1\n"))))
  {
    CreatedEncoding();
    HeaderLinePieces(from);
  }

  lemma Alphanumeric10()
    ensures HeaderFields(Header(Created, "0123456789", "Ret1"))
  {
  }

  lemma Alphanumeric11()
    ensures AllIn("12345678910", Alphanumerics) && |"12345678910"| == 11
    ensures "12345678910" + ",Ret1\n" == "12345678910,Ret1\n"
  {
  }

  lemma HeaderLinePieces(from: string)
    ensures "100,NEM12,200405011135," + from + ",Ret1\n"
         == "100," + ("NEM12," + ("200405011135" + ("," + (from + ("," + ("Ret1" + "\n"))))))
  {
  }

  // ---------------------------------------------------------------------
  // NMI data details record (200)

  /** The meter of the `nmi_data_details_200` test: half-hourly kWh, data
      stream N1, no next scheduled read date. */
  const Meter: NmiDataDetails :=
    NmiDataDetails("VABD000163", "E1Q1", "1", "E1", Some("N1"), "METSER123", "KWH", 30, None)

  /** The first half of that test: the line ends after the interval length
      and its comma, and the record is read with no read date.  As written,
      the short read date field panics instead. */
  lemma NmiDataDetailsExample()
    ensures ParseNmiDataDetails("200,VABD000163,E1Q1,1,E1,N1,METSER123,KWH,30,\n") == Ok("\n", Meter)
    ensures ParseNmiDataDetailsAsWritten("200,VABD000163,E1Q1,1,E1,N1,METSER123,KWH,30,\n") == Panic
  {
    MeterLine();
    MeterFields();
    NmiDataDetailsRoundTrip(Meter, "\n");
    ParseNmiDataDetailsAsWrittenAgrees("200,VABD000163,E1Q1,1,E1,N1,METSER123,KWH,30,\n");
  }

  /** The second half: four digits where the read date belongs are a `Tag`
      error at the field; as written they panic. */
  lemma NmiDataDetailsStrayDigits()
    ensures ParseNmiDataDetails("200,VABD000163,E1Q1,1,E1,N1,METSER123,kWh,30,1234\n") == Error("1234\n", Tag)
    ensures ParseNmiDataDetailsAsWritten("200,VABD000163,E1Q1,1,E1,N1,METSER123,kWh,30,1234\n") == Panic
  {
    var m := Meter.(uom := "kWh");
    MeterLowerCase();
    assert NextReadDate("1234\n") == Error("1234\n", Tag);
    ReadDateRejected(m, "1234\n");
  }

  /** A 200 record whose read date field is neither a date nor empty is
      rejected where that field starts; as written, one shorter than 8
      characters panics. */
  lemma ReadDateRejected(d: NmiDataDetails, k: string)
    requires NmiDataDetailsFields(d) && d.nextScheduledReadDate.None? && !NextReadDate(k).Ok?
    ensures ParseNmiDataDetails(WriteNmiDataDetails(d, k)) == Error(k, Tag)
    ensures |k| < 8 ==> ParseNmiDataDetailsAsWritten(WriteNmiDataDetails(d, k)) == Panic
  {
    var t := WriteNmiDataDetailsTail(d, k);
    var r1 := d.registerId + ("," + (d.nmiSuffix + ("," + t)));
    TagReads("200,", d.nmi + ("," + (d.nmiConfiguration + ("," + r1))));
    NmiAndConfigurationRoundTrip(d.nmi, d.nmiConfiguration, r1);
    RegisterAndSuffixRoundTrip(d.registerId, d.nmiSuffix, t);
    TailReadDateRejected(d, k);
  }

  lemma TailReadDateRejected(d: NmiDataDetails, k: string)
    requires NmiDataDetailsFields(d) && d.nextScheduledReadDate.None? && !NextReadDate(k).Ok?
    ensures NmiDataDetailsTail(d.nmi, d.nmiConfiguration, d.registerId, d.nmiSuffix, WriteNmiDataDetailsTail(d, k))
         == Error(k, Tag)
    ensures |k| < 8 ==> NmiDataDetailsTailAsWritten(d.nmi, d.nmiConfiguration, d.registerId, d.nmiSuffix,
                                                     WriteNmiDataDetailsTail(d, k)) == Panic
  {
    var r2 := Padded(d.intervalLength, 2) + ("," + k);
    assert WriteNmiDataDetailsTail(d, k)
        == OrEmpty(d.mdmDataStreamId) + ("," + (d.meterSerialNumber + ("," + (d.uom + ("," + r2)))));
    StreamSerialAndUomRoundTrip(d.mdmDataStreamId, d.meterSerialNumber, d.uom, r2);
    LengthThenRejected(d.intervalLength, k);
  }

  lemma LengthThenRejected(length: nat, k: string)
    requires length < 100 && !NextReadDate(k).Ok?
    ensures IntervalAndNextRead(Padded(length, 2) + ("," + k)) == Error(k, Tag)
    ensures |k| < 8 ==> IntervalAndNextReadAsWritten(Padded(length, 2) + ("," + k)) == Panic
  {
    CommaStopsRuns(k);
    DigitExactReads(Padded(length, 2), "," + k, 2);
    TagReads(",", k);
  }

  lemma MeterLine()
    ensures "200,VABD000163,E1Q1,1,E1,N1,METSER123,KWH,30,\n" == WriteNmiDataDetails(Meter, "\n")
  {
    assert Padded(30, 2) == "30";
    MeterLinePieces();
  }

  lemma MeterLinePieces()
    ensures "200,VABD000163,E1Q1,1,E1,N1,METSER123,KWH,30,\n"
         == "200," + ("VABD000163" + ("," + ("E1Q1" + ("," + ("1" + ("," + ("E1" + ("," + ("N1" + ("," + ("METSER123"
            + ("," + ("KWH" + ("," + ("30" + ("," + ("" + "\n")))))))))))))))))
  {
  }

  lemma MeterLowerCase()
    ensures "200,VABD000163,E1Q1,1,E1,N1,METSER123,kWh,30,1234\n"
         == WriteNmiDataDetails(Meter.(uom := "kWh"), "1234\n")
    ensures NmiDataDetailsFields(Meter.(uom := "kWh"))
  {
    assert Padded(30, 2) == "30";
    MeterLowerCasePieces();
  }

  lemma MeterLowerCasePieces()
    ensures "200,VABD000163,E1Q1,1,E1,N1,METSER123,kWh,30,1234\n"
         == "200," + ("VABD000163" + ("," + ("E1Q1" + ("," + ("1" + ("," + ("E1" + ("," + ("N1" + ("," + ("METSER123"
            + ("," + ("kWh" + ("," + ("30" + ("," + ("" + "1234\n")))))))))))))))))
  {
    assert "200,VABD000163,E1Q1,1,E1,N1,METSER123,kWh,30,1234\n"
        == "200,VABD000163,E1Q1,1,E1,N1,METSER123,kWh,30," + "1234\n";
    MeterHeadPieces("1234\n");
  }

  lemma MeterHeadPieces(x: string)
    ensures "200,VABD000163,E1Q1,1,E1,N1,METSER123,kWh,30," + x
         == "200," + ("VABD000163" + ("," + ("E1Q1" + ("," + ("1" + ("," + ("E1" + ("," + ("N1" + ("," + ("METSER123"
            + ("," + ("kWh" + ("," + ("30" + ("," + ("" + x)))))))))))))))))
  {
  }

  lemma MeterFields()
    ensures NmiDataDetailsFields(Meter) && NmiDataDetailsEnds(Meter, "\n")
  {
  }

  // ---------------------------------------------------------------------
  // Interval data record (300)

  /** The 48 half-hourly readings of the `interval_data_300` test. */
  const Readings: seq<string> := seq(48, _ => "1.111")

  /** The day of 1 February 2004 of that test, actual data, loaded into MSATS
      at 14:25:16 the next day. */
  const Day: IntervalData := IntervalData(
    Date(2004, 2, 1), Readings, "A", None, None,
    DateTime(Date(2004, 2, 2), 12, 0, 25), Some(DateTime(Date(2004, 2, 2), 14, 25, 16)))

  lemma IntervalDataExample()
    ensures ParseIntervalData("300,20040201," + JoinThen(Readings, ",A,,,20040202120025,20040202142516\n"))
         == Ok("\n", Day)
  {
    DayLine();
    DayFields();
    IntervalDataRoundTrip(Day, "\n");
  }

  lemma DayLine()
    ensures "300,20040201," + JoinThen(Readings, ",A,,,20040202120025,20040202142516\n") == WriteIntervalData(Day, "\n")
  {
    DayTail();
    DayEncoding();
    DayHeadPieces(JoinThen(Readings, ",A,,,20040202120025,20040202142516\n"));
  }

  lemma DayHeadPieces(x: string)
    ensures "300,20040201," + x == "300," + ("20040201" + ("," + x))
  {
  }

  lemma DayEncoding()
    ensures EncodeDate(Date(2004, 2, 1)) == "20040201"
  {
  }

  lemma DayTail()
    ensures WriteIntervalDataTail(Day, "\n") == ",A,,,20040202120025,20040202142516\n"
  {
    DayTimes();
    DayTailPieces();
    var times := "20040202120025" + ("," + ("20040202142516" + "\n"));
    assert ",A,,," + times == "," + ("A" + ("," + ("" + ("," + ("" + ("," + times))))));
  }

  lemma DayTimes()
    ensures EncodeDateTime14(DateTime(Date(2004, 2, 2), 12, 0, 25)) == "20040202120025"
    ensures EncodeDateTime14(DateTime(Date(2004, 2, 2), 14, 25, 16)) == "20040202142516"
  {
    UpdateEncoding();
    LoadEncoding();
  }

  lemma UpdateEncoding()
    ensures EncodeDateTime14(DateTime(Date(2004, 2, 2), 12, 0, 25)) == "20040202120025"
  {
  }

  lemma LoadEncoding()
    ensures EncodeDateTime14(DateTime(Date(2004, 2, 2), 14, 25, 16)) == "20040202142516"
  {
  }

  lemma DayTailPieces()
    ensures ",A,,,20040202120025,20040202142516\n" == ",A,,," + ("20040202120025" + ("," + ("20040202142516" + "\n")))
  {
  }

  lemma DayFields()
    ensures IntervalDataFields(Day) && IntervalDataEnds(Day, "\n") && AllDecimal(Day.intervalValue)
  {
    ReadingDecimal();
  }

  lemma ReadingDecimal()
    ensures IsDecimal("1.111")
  {
    SpanAppend("1", ".111", Digits);
    assert "1.111" == "1" + ".111";
  }

  // ---------------------------------------------------------------------
  // Interval event record (400)

  /** The event of the `interval_event_400` test: intervals 1 to 20, quality
      F14, reason 76, no description. */
  const Event: IntervalEvent := IntervalEvent("1", "20", "F14", "76", None)

  lemma IntervalEventExample()
    ensures ParseIntervalEvent("400,1,20,F14,76,\n") == Ok("\n", Event)
  {
    EventLine();
    EventFields();
    IntervalEventRoundTrip(Event, "\n");
  }

  lemma EventLine()
    ensures "400,1,20,F14,76,\n" == WriteIntervalEvent(Event, "\n")
  {
    assert OrEmpty(Event.reasonDescription) + "\n" == "\n";
  }

  lemma EventFields()
    ensures IntervalEventFields(Event) && IntervalEventEnds(Event, "\n")
  {
  }

  // ---------------------------------------------------------------------
  // B2B details record (500)

  /** The details of the `b2b_details_500` test, read at 15:45 on 20 December 2003. */
  const B2B: B2BDetails := B2BDetails("S", "RETNSRVCEORD1", DateTime(Date(2003, 12, 20), 15, 45, 0), "001123.5")

  lemma B2BDetailsExample()
    ensures ParseB2BDetails("500,S,RETNSRVCEORD1,20031220154500,001123.5\n") == Ok("\n", B2B)
  {
    B2BLine();
    B2BFields();
    B2BDetailsRoundTrip(B2B, "\n");
  }

  lemma B2BReadEncoding()
    ensures EncodeDateTime14(B2B.readDatetime) == "20031220154500"
  {
  }

  lemma B2BLine()
    ensures "500,S,RETNSRVCEORD1,20031220154500,001123.5\n" == WriteB2BDetails(B2B, "\n")
  {
    B2BReadEncoding();
    B2BLinePieces();
  }

  lemma B2BLinePieces()
    ensures "500,S,RETNSRVCEORD1,20031220154500,001123.5\n"
         == "500," + ("S" + ("," + ("RETNSRVCEORD1" + ("," + ("20031220154500" + ("," + ("001123.5" + "\n")))))))
  {
    B2BLineSplit();
    B2BTailPieces();
    B2BHeadPieces("20031220154500,001123.5\n");
  }

  lemma B2BLineSplit()
    ensures "500,S,RETNSRVCEORD1,20031220154500,001123.5\n" == "500,S,RETNSRVCEORD1," + "20031220154500,001123.5\n"
  {
  }

  lemma B2BHeadPieces(x: string)
    ensures "500,S,RETNSRVCEORD1," + x == "500," + ("S" + ("," + ("RETNSRVCEORD1" + ("," + x))))
  {
  }

  lemma B2BTailPieces()
    ensures "20031220154500,001123.5\n" == "20031220154500" + ("," + ("001123.5" + "\n"))
  {
  }

  lemma B2BFields()
    ensures B2BDetailsFields(B2B) && EndsIndexRead(B2B.indexRead, "\n")
  {
    B2BIndexRead();
    B2BDateTime();
    B2BOrder();
    assert !AllIn("001123.5", Digits) by { assert "001123.5"[6] == '.'; }
  }

  lemma B2BOrder()
    ensures RunField("RETNSRVCEORD1", Alphanumerics, 15) && AllIn("S", Letters)
  {
  }

  lemma B2BIndexRead()
    ensures IsDecimal("001123.5")
  {
    SpanAppend("001123", ".5", Digits);
    assert "001123.5" == "001123" + ".5";
  }

  lemma B2BDateTime()
    ensures ValidDateTime(B2B.readDatetime)
  {
  }

  // ---------------------------------------------------------------------
  // End of data record (900)

  /** The `end_of_data_900` test: the line feed is whitespace and is consumed. */
  lemma EndOfDataExample()
    ensures ParseEndOfData("900\n") == Ok("", EndOfData)
  {
    EndOfDataRoundTrip("\n", "");
    assert "900" + ("\n" + "") == "900\n";
  }

  /** Nothing after the whitespace is checked: `900junk` is an end of data
      record that leaves `junk`, and so is a line the driver reads. */
  lemma EndOfDataIgnoresTrailingText()
    ensures ParseEndOfData("900junk") == Ok("junk", EndOfData)
    ensures ParseRecord("900junk") == Ok("junk", EndOfDataRecord(EndOfData))
  {
    EndOfDataRoundTrip("", "junk");
    assert "900" + ("" + "junk") == "900junk";
    EndOfDataLineComplete(EndOfDataRecord(EndOfData), "junk", "900junk");
  }

  // ---------------------------------------------------------------------
  // The short date fields

  /** The `nmi_data_details_200` test ends its 200 line right after the
      interval length.  With the complete `take` the missing date is `None`;
      with the streaming `take` as written the field never reaches the
      `None` arm and panics. */
  lemma NextReadDateAtLineEnd()
    ensures NextReadDate("\n") == Ok("\n", None)
    ensures NextReadDateAsWritten("\n") == Panic
    ensures NextReadDate("") == Ok("", None)
    ensures NextReadDateAsWritten("") == Panic
  {
  }

  /** The second half of that test expects four stray digits to be an error
      at the field; as written they panic. */
  lemma NextReadDateStrayDigits()
    ensures NextReadDate("1234\n") == Error("1234\n", Tag)
    ensures NextReadDateAsWritten("1234\n") == Panic
  {
  }

  /** The 300 lines of the `multiple_meters` test that end with an empty
      MSATS load time: the complete `take` reads `None`, the streaming one
      panics. */
  lemma MsatsLoadDateTimeEmpty()
    ensures MsatsLoadDateTime("") == Ok("", None)
    ensures MsatsLoadDateTimeAsWritten("") == Panic
  {
  }

  /** A header cut short inside its creation time: as written the line is
      reported as incomplete, needing 12 characters, where the corrected
      reader rejects the line. */
  lemma ShortCreatedTime()
    ensures ParseRecordAsWritten("100,NEM12,2004") == Incomplete(12)
    ensures Report(1, ParseRecordAsWritten("100,NEM12,2004"))
         == Failed(LineError("Failed to parse line: ", 12, "Needed::Size"))
    ensures Report(1, ParseRecord("100,NEM12,2004")) == Failed(LineError("Error parsing line: ", 1, "100,NEM12,2004"))
  {
    ShortCreatedTimeRecord();
    assert HeaderLineAsWritten("100,NEM12,2004") == Incomplete(12);
    AltDispatchesByTag("100,NEM12,2004");
    RejectedLineReport(1, "100,NEM12,2004");
  }

  lemma ShortCreatedTimeRecord()
    ensures ParseHeaderAsWritten("100,NEM12,2004") == Incomplete(12)
    ensures ParseHeader("100,NEM12,2004") == Error("2004", Eof)
  {
    ShortCreatedLine();
    TagReads("100,", "NEM12,2004");
    TagReads("NEM12,", "2004");
  }

  lemma ShortCreatedLine()
    ensures "100,NEM12,2004" == "100," + ("NEM12," + "2004")
  {
  }

  /** A 300 record cut short inside its interval date: needing 8 characters. */
  lemma ShortIntervalDate()
    ensures ParseRecordAsWritten("300,2004") == Incomplete(8)
    ensures Report(1, ParseRecordAsWritten("300,2004")) == Failed(LineError("Failed to parse line: ", 8, "Needed::Size"))
    ensures Report(1, ParseRecord("300,2004")) == Failed(LineError("Error parsing line: ", 1, "300,2004"))
  {
    ShortIntervalDateRecord();
    assert IntervalDataLineAsWritten("300,2004") == Incomplete(8);
    AltDispatchesByTag("300,2004");
    RejectedLineReport(1, "300,2004");
  }

  lemma ShortIntervalDateRecord()
    ensures ParseIntervalDataAsWritten("300,2004") == Incomplete(8)
    ensures ParseIntervalData("300,2004").Error?
  {
    assert "300,2004" == "300," + "2004";
    TagReads("300,", "2004");
  }

  /** A 500 record cut short inside its read time: needing 14 characters. */
  lemma ShortReadTime()
    ensures ParseRecordAsWritten("500,S,RETNSRVCEORD1,2003") == Incomplete(14)
    ensures Report(1, ParseRecordAsWritten("500,S,RETNSRVCEORD1,2003"))
         == Failed(LineError("Failed to parse line: ", 14, "Needed::Size"))
    ensures Report(1, ParseRecord("500,S,RETNSRVCEORD1,2003"))
         == Failed(LineError("Error parsing line: ", 1, "500,S,RETNSRVCEORD1,2003"))
  {
    ShortReadTimeRecord();
    var line := "500,S,RETNSRVCEORD1,2003";
    assert B2BDetailsLineAsWritten(line) == Incomplete(14);
    AltDispatchesByTag(line);
    RejectedLineReport(1, line);
  }

  lemma ShortReadTimeRecord()
    ensures ParseB2BDetailsAsWritten("500,S,RETNSRVCEORD1,2003") == Incomplete(14)
    ensures ParseB2BDetails("500,S,RETNSRVCEORD1,2003").Error?
  {
    ShortReadLine();
    B2BHead("2003");
    ShortReadTail();
  }

  lemma ShortReadLine()
    ensures "500,S,RETNSRVCEORD1,2003" == "500,S,RETNSRVCEORD1," + "2003"
  {
  }

  lemma ShortReadTail()
    ensures B2BDetailsTailAsWritten("S", "RETNSRVCEORD1", "2003") == Incomplete(14)
    ensures B2BDetailsTail("S", "RETNSRVCEORD1", "2003") == Error("2003", Eof)
  {
  }

  /** The order fields of the `b2b_details_500` test, followed by anything. */
  lemma B2BHead(x: string)
    ensures ParseB2BDetails("500,S,RETNSRVCEORD1," + x) == B2BDetailsTail("S", "RETNSRVCEORD1", x)
    ensures ParseB2BDetailsAsWritten("500,S,RETNSRVCEORD1," + x) == B2BDetailsTailAsWritten("S", "RETNSRVCEORD1", x)
  {
    B2BHeadPieces(x);
    var r1 := "RETNSRVCEORD1" + ("," + x);
    TagReads("500,", "S" + ("," + r1));
    CommaStopsRuns(r1);
    B2BOrder();
    AlphaExactReads("S", "," + r1, 1);
    TagReads(",", r1);
    CommaStopsRuns(x);
    AlnumFieldReads("RETNSRVCEORD1", "," + x, 15);
    TagReads(",", x);
  }

  // ---------------------------------------------------------------------
  // The driver

  /** The last three calls of the `multiple_meters` test: once only the
      closing `900` line is left, the parser yields the end of data record,
      then `Ok(None)`, then the "consumed all input" error. */
  method FinishAtEndOfData(p: Parser) returns (r1: LineResult, r2: LineResult, r3: LineResult)
    requires p.Valid() && p.index + 1 == |p.lines| && p.lines[p.index] == "900"
    modifies p
    ensures r1 == Parsed(Some(EndOfDataRecord(EndOfData)))
    ensures r2 == Parsed(None)
    ensures r3 == Failed(ConsumedAll)
  {
    EndOfDataLineComplete(EndOfDataRecord(EndOfData), "", "900");
    r1 := p.ParseLine();
    r2 := p.ParseLine();
    r3 := p.ParseLine();
  }
}
