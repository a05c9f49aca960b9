/** Each record parser reads back what the record's written form says: for a
    record obeying its field rules, followed by text that does not continue
    its last field, the parser returns that record and exactly that text.
    With the soundness each parser promises, this pins down the accepted
    lines exactly. */
module RoundTrip {
  import opened Nom
  import opened Calendar
  import opened Common
  import opened Record

  // ---------------------------------------------------------------------
  // Single steps

  lemma TagReads(t: string, r: string)
    ensures MatchTag(t + r, t) == Ok(r, t)
  {
    assert (t + r)[|t|..] == r;
  }

  lemma AlnumFieldReads(t: string, r: string, length: nat)
    requires RunField(t, Alphanumerics, length) && StopsRun(r, Alphanumerics)
    ensures AlnumField(length, t + r) == Ok(r, t)
  {
    MaxRunFieldRoundTrip(AlphaNumeric1, t, r, Alphanumerics, AlphaNumeric, length);
  }

  lemma DigitFieldReads(t: string, r: string, length: nat)
    requires RunField(t, Digits, length) && StopsRun(r, Digits)
    ensures DigitField(length, t + r) == Ok(r, t)
  {
    MaxRunFieldRoundTrip(Digit1, t, r, Digits, Digit, length);
  }

  lemma AlphaFieldReads(t: string, r: string, length: nat)
    requires RunField(t, Letters, length) && StopsRun(r, Letters)
    ensures AlphaField(length, t + r) == Ok(r, t)
  {
    MaxRunFieldRoundTrip(Alpha1, t, r, Letters, Alpha, length);
  }

  lemma AlnumExactReads(t: string, r: string, length: nat)
    requires |t| == length > 0 && AllIn(t, Alphanumerics) && StopsRun(r, Alphanumerics)
    ensures AlnumExact(length, t + r) == Ok(r, t)
  {
    ExactRunFieldRoundTrip(AlphaNumeric1, t, r, Alphanumerics, AlphaNumeric, length);
  }

  lemma DigitExactReads(t: string, r: string, length: nat)
    requires |t| == length > 0 && AllIn(t, Digits) && StopsRun(r, Digits)
    ensures DigitExact(length, t + r) == Ok(r, t)
  {
    ExactRunFieldRoundTrip(Digit1, t, r, Digits, Digit, length);
  }

  lemma AlphaExactReads(t: string, r: string, length: nat)
    requires |t| == length > 0 && AllIn(t, Letters) && StopsRun(r, Letters)
    ensures AlphaExact(length, t + r) == Ok(r, t)
  {
    ExactRunFieldRoundTrip(Alpha1, t, r, Letters, Alpha, length);
  }

  /** A field that is empty before a comma is read as absent. */
  lemma CommaStopsRuns(r: string)
    ensures StopsRun("," + r, Alphanumerics) && StopsRun("," + r, Digits) && StopsRun("," + r, Letters)
  {
  }

  // ---------------------------------------------------------------------
  // Header record (100)

  lemma HeaderRoundTrip(h: Header, k: string)
    requires HeaderFields(h) && StopsRun(k, Alphanumerics)
    ensures ParseHeader(WriteHeader(h, k)) == Ok(k, h)
  {
    var r3 := "," + (h.toParticipant + k);
    var r2 := h.fromParticipant + r3;
    var r1 := "," + r2;
    var r0 := EncodeDateTime12(h.created) + r1;
    TagReads("100,", "NEM12," + r0);
    TagReads("NEM12,", r0);
    DateTime12RoundTrip(h.created, r1);
    TagReads(",", r2);
    CommaStopsRuns(h.toParticipant + k);
    AlnumFieldReads(h.fromParticipant, r3, 10);
    TagReads(",", h.toParticipant + k);
    AlnumFieldReads(h.toParticipant, k, 10);
  }

  // ---------------------------------------------------------------------
  // NMI data details record (200)

  lemma NextReadDateRoundTrip(o: Option<Date>, k: string)
    requires o.Some? ==> ValidDate(o.value)
    requires o.None? ==> k == [] || k[0] == '\n'
    ensures NextReadDate(WriteNextReadDate(o) + k) == Ok(k, o)
  {
    if o.Some? {
      Date8RoundTrip(o.value, k);
    } else {
      assert WriteNextReadDate(o) + k == k;
      if |k| >= 8 {
        assert !IsDigit(k[..8][0]);
      }
    }
  }

  lemma IntervalAndNextReadRoundTrip(length: nat, o: Option<Date>, k: string)
    requires length < 100
    requires o.Some? ==> ValidDate(o.value)
    requires o.None? ==> k == [] || k[0] == '\n'
    ensures IntervalAndNextRead(Padded(length, 2) + ("," + (WriteNextReadDate(o) + k))) == Ok(k, (length, o))
  {
    var r := WriteNextReadDate(o) + k;
    CommaStopsRuns(r);
    DigitExactReads(Padded(length, 2), "," + r, 2);
    TagReads(",", r);
    NextReadDateRoundTrip(o, k);
    ValueOfPadded(length, 2);
  }

  lemma MdmDataStreamIdRoundTrip(o: Option<string>, r: string)
    requires o.Some? ==> |o.value| == 2 && AllIn(o.value, Alphanumerics)
    ensures MdmDataStreamIdField(OrEmpty(o) + ("," + r)) == Ok("," + r, o)
  {
    CommaStopsRuns(r);
    if o.Some? {
      AlnumExactReads(o.value, "," + r, 2);
    } else {
      assert OrEmpty(o) + ("," + r) == "," + r;
      assert MatchTagStreaming("," + r, ",").Ok?;
    }
  }

  lemma SerialAndUomRoundTrip(serial: string, uom: string, r: string)
    requires RunField(serial, Alphanumerics, 12) && RunField(uom, Alphanumerics, 5)
    ensures SerialAndUom(serial + ("," + (uom + ("," + r)))) == Ok(r, (serial, uom))
  {
    var r1 := uom + ("," + r);
    CommaStopsRuns(r1);
    AlnumFieldReads(serial, "," + r1, 12);
    TagReads(",", r1);
    CommaStopsRuns(r);
    AlnumFieldReads(uom, "," + r, 5);
    TagReads(",", r);
  }

  lemma NmiDataDetailsTailRoundTrip(d: NmiDataDetails, k: string)
    requires NmiDataDetailsTailFields(d) && NmiDataDetailsEnds(d, k)
    ensures NmiDataDetailsTail(d.nmi, d.nmiConfiguration, d.registerId, d.nmiSuffix,
                               WriteNmiDataDetailsTail(d, k)) == Ok(k, d)
  {
    var r2 := Padded(d.intervalLength, 2) + ("," + (WriteNextReadDate(d.nextScheduledReadDate) + k));
    StreamSerialAndUomRoundTrip(d.mdmDataStreamId, d.meterSerialNumber, d.uom, r2);
    IntervalAndNextReadRoundTrip(d.intervalLength, d.nextScheduledReadDate, k);
  }

  lemma StreamSerialAndUomRoundTrip(stream: Option<string>, serial: string, uom: string, r: string)
    requires stream.Some? ==> |stream.value| == 2 && AllIn(stream.value, Alphanumerics)
    requires RunField(serial, Alphanumerics, 12) && RunField(uom, Alphanumerics, 5)
    ensures StreamSerialAndUom(OrEmpty(stream) + ("," + (serial + ("," + (uom + ("," + r))))))
            == Ok(r, (stream, serial, uom))
  {
    var r1 := serial + ("," + (uom + ("," + r)));
    MdmDataStreamIdRoundTrip(stream, r1);
    TagReads(",", r1);
    SerialAndUomRoundTrip(serial, uom, r);
  }

  lemma NmiAndConfigurationRoundTrip(nmi: string, config: string, r: string)
    requires |nmi| == 10 && AllIn(nmi, Alphanumerics) && RunField(config, Alphanumerics, 240)
    ensures NmiAndConfiguration(nmi + ("," + (config + ("," + r)))) == Ok(r, (nmi, config))
  {
    var r1 := config + ("," + r);
    CommaStopsRuns(r1);
    AlnumExactReads(nmi, "," + r1, 10);
    TagReads(",", r1);
    CommaStopsRuns(r);
    AlnumFieldReads(config, "," + r, 240);
    TagReads(",", r);
  }

  lemma RegisterAndSuffixRoundTrip(register: string, suffix: string, r: string)
    requires RunField(register, Alphanumerics, 10) && |suffix| == 2 && AllIn(suffix, Alphanumerics)
    ensures RegisterAndSuffix(register + ("," + (suffix + ("," + r)))) == Ok(r, (register, suffix))
  {
    var r1 := suffix + ("," + r);
    CommaStopsRuns(r1);
    AlnumFieldReads(register, "," + r1, 10);
    TagReads(",", r1);
    CommaStopsRuns(r);
    AlnumExactReads(suffix, "," + r, 2);
    TagReads(",", r);
  }

  lemma NmiDataDetailsRoundTrip(d: NmiDataDetails, k: string)
    requires NmiDataDetailsFields(d) && NmiDataDetailsEnds(d, k)
    ensures ParseNmiDataDetails(WriteNmiDataDetails(d, k)) == Ok(k, d)
  {
    var t := WriteNmiDataDetailsTail(d, k);
    var r1 := d.registerId + ("," + (d.nmiSuffix + ("," + t)));
    TagReads("200,", d.nmi + ("," + (d.nmiConfiguration + ("," + r1))));
    NmiAndConfigurationRoundTrip(d.nmi, d.nmiConfiguration, r1);
    RegisterAndSuffixRoundTrip(d.registerId, d.nmiSuffix, t);
    NmiDataDetailsTailRoundTrip(d, k);
  }

  // ---------------------------------------------------------------------
  // Interval data record (300)

  lemma ReasonCodeRoundTrip(o: Option<string>, r: string)
    requires o.Some? ==> RunField(o.value, Digits, 3)
    ensures ReasonCodeField(OrEmpty(o) + ("," + r)) == Ok("," + r, o)
  {
    CommaStopsRuns(r);
    if o.Some? {
      DigitFieldReads(o.value, "," + r, 3);
    } else {
      assert OrEmpty(o) + ("," + r) == "," + r;
      assert MatchTagStreaming("," + r, ",").Ok?;
    }
  }

  lemma DataReasonDescriptionRoundTrip(o: Option<string>, r: string)
    requires o.Some? ==> RunField(o.value, Alphanumerics, 240)
    ensures DataReasonDescriptionField(OrEmpty(o) + ("," + r)) == Ok("," + r, o)
  {
    CommaStopsRuns(r);
    if o.Some? {
      AlnumFieldReads(o.value, "," + r, 240);
    } else {
      assert OrEmpty(o) + ("," + r) == "," + r;
      assert MatchTagStreaming("," + r, ",").Ok?;
    }
  }

  lemma MsatsLoadDateTimeRoundTrip(o: Option<DateTime>, k: string)
    requires o.Some? ==> ValidDateTime(o.value)
    requires o.None? ==> |k| < 14
    ensures MsatsLoadDateTime(WriteDateTime14(o) + k) == Ok(k, o)
  {
    if o.Some? {
      DateTime14RoundTrip(o.value, k);
    } else {
      assert WriteDateTime14(o) + k == k;
    }
  }

  lemma UpdateAndMsatsLoadRoundTrip(update: DateTime, o: Option<DateTime>, k: string)
    requires ValidDateTime(update)
    requires o.Some? ==> ValidDateTime(o.value)
    requires o.None? ==> |k| < 14
    ensures UpdateAndMsatsLoad(EncodeDateTime14(update) + ("," + (WriteDateTime14(o) + k))) == Ok(k, (update, o))
  {
    var r := WriteDateTime14(o) + k;
    DateTime14RoundTrip(update, "," + r);
    TagReads(",", r);
    MsatsLoadDateTimeRoundTrip(o, k);
  }

  lemma QualityAndReasonRoundTrip(quality: string, reason: Option<string>, r: string)
    requires RunField(quality, Letters, 3)
    requires reason.Some? ==> RunField(reason.value, Digits, 3)
    ensures QualityAndReason(quality + ("," + (OrEmpty(reason) + ("," + r)))) == Ok(r, (quality, reason))
  {
    var r1 := OrEmpty(reason) + ("," + r);
    CommaStopsRuns(r1);
    AlphaFieldReads(quality, "," + r1, 3);
    TagReads(",", r1);
    ReasonCodeRoundTrip(reason, r);
    TagReads(",", r);
  }

  lemma IntervalDataTailRoundTrip(x: IntervalData, k: string)
    requires IntervalDataFields(x) && IntervalDataEnds(x, k)
    ensures IntervalDataTail(x.intervalDate, x.intervalValue, WriteIntervalDataTail(x, k)) == Ok(k, x)
  {
    var r2 := EncodeDateTime14(x.updateDatetime) + ("," + (WriteDateTime14(x.msatsLoadDatetime) + k));
    QualityReasonAndDescriptionRoundTrip(x.qualityMethod, x.reasonCode, x.reasonDescription, r2);
    UpdateAndMsatsLoadRoundTrip(x.updateDatetime, x.msatsLoadDatetime, k);
  }

  lemma QualityReasonAndDescriptionRoundTrip(quality: string, reason: Option<string>, description: Option<string>,
                                             r: string)
    requires RunField(quality, Letters, 3)
    requires reason.Some? ==> RunField(reason.value, Digits, 3)
    requires description.Some? ==> RunField(description.value, Alphanumerics, 240)
    ensures QualityReasonAndDescription(
              "," + (quality + ("," + (OrEmpty(reason) + ("," + (OrEmpty(description) + ("," + r)))))))
            == Ok(r, (quality, reason, description))
  {
    var r1 := OrEmpty(description) + ("," + r);
    TagReads(",", quality + ("," + (OrEmpty(reason) + ("," + r1))));
    QualityAndReasonRoundTrip(quality, reason, r1);
    DataReasonDescriptionRoundTrip(description, r);
    TagReads(",", r);
  }

  /** The run of values ends where the quality method (letters) begins. */
  lemma IntervalValuesRoundTrip(date: Date, values: seq<string>, r: string)
    requires ValidDate(date) && AllDecimal(values)
    requires |r| >= 2 && r[0] == ',' && IsLetter(r[1])
    ensures IntervalValues("300," + (EncodeDate(date) + ("," + JoinThen(values, r)))) == Ok(r, (date, values))
  {
    var j := JoinThen(values, r);
    TagReads("300,", EncodeDate(date) + ("," + j));
    Date8RoundTrip(date, "," + j);
    TagReads(",", j);
    DoubleRejects(r[1..]);
    DoubleRejects(r);
    SeparatedDoublesJoin(values, r);
  }

  /** A 300 record whose values are written as plain decimals reads back. */
  lemma IntervalDataRoundTrip(x: IntervalData, k: string)
    requires IntervalDataFields(x) && IntervalDataEnds(x, k) && AllDecimal(x.intervalValue)
    ensures ParseIntervalData(WriteIntervalData(x, k)) == Ok(k, x)
  {
    var t := WriteIntervalDataTail(x, k);
    assert t[0] == ',' && t[1] == x.qualityMethod[0];
    IntervalValuesRoundTrip(x.intervalDate, x.intervalValue, t);
    IntervalDataTailRoundTrip(x, k);
  }

  // ---------------------------------------------------------------------
  // Interval event record (400)

  lemma EventReasonDescriptionRoundTrip(o: Option<string>, k: string)
    requires o.Some? ==> RunField(o.value, Alphanumerics, 24) && StopsRun(k, Alphanumerics)
    requires o.None? ==> "\n" <= k
    ensures EventReasonDescriptionField(OrEmpty(o) + k) == Ok(k, o)
  {
    if o.Some? {
      AlnumFieldReads(o.value, k, 24);
    } else {
      assert OrEmpty(o) + k == k;
      assert MatchTagStreaming(k, "\n").Ok?;
    }
  }

  lemma IntervalEventTailRoundTrip(v: IntervalEvent, k: string)
    requires IntervalEventFields(v) && IntervalEventEnds(v, k)
    ensures IntervalEventTail(v.startInterval, v.endInterval, WriteIntervalEventTail(v, k)) == Ok(k, v)
  {
    var r2 := OrEmpty(v.reasonDescription) + k;
    var r1 := v.reasonCode + ("," + r2);
    CommaStopsRuns(r1);
    AlnumFieldReads(v.qualityMethod, "," + r1, 3);
    TagReads(",", r1);
    CommaStopsRuns(r2);
    DigitFieldReads(v.reasonCode, "," + r2, 3);
    TagReads(",", r2);
    EventReasonDescriptionRoundTrip(v.reasonDescription, k);
  }

  lemma IntervalEventRoundTrip(v: IntervalEvent, k: string)
    requires IntervalEventFields(v) && IntervalEventEnds(v, k)
    ensures ParseIntervalEvent(WriteIntervalEvent(v, k)) == Ok(k, v)
  {
    var t := WriteIntervalEventTail(v, k);
    var r1 := v.endInterval + ("," + t);
    TagReads("400,", v.startInterval + ("," + r1));
    CommaStopsRuns(r1);
    DigitFieldReads(v.startInterval, "," + r1, 4);
    TagReads(",", r1);
    CommaStopsRuns(t);
    DigitFieldReads(v.endInterval, "," + t, 4);
    TagReads(",", t);
    IntervalEventTailRoundTrip(v, k);
  }

  // ---------------------------------------------------------------------
  // B2B details record (500)

  /** A decimal followed by text that does not continue it is read as exactly that decimal. */
  lemma IndexReadRoundTrip(t: string, k: string)
    requires IsDecimal(t) && EndsIndexRead(t, k)
    ensures IndexRead(t + k) == Ok(k, t)
  {
    var w := Span(t, Digits);
    if w == t {
      WholeIndexReadRoundTrip(t, k);
    } else {
      var f := t[|w| + 1..];
      SplitAt(t, |w|);
      assert t == w + ("." + f);
      FractionIndexReadRoundTrip(w, f, k);
    }
  }

  /** Digits alone, not followed by a digit or by a point and a digit. */
  lemma WholeIndexReadRoundTrip(w: string, k: string)
    requires w != [] && AllIn(w, Digits) && EndsIndexRead(w, k)
    ensures IndexRead(w + k) == Ok(k, w)
  {
    var s := w + k;
    SpanAppend(w, k, Digits);
    assert s[|w|..] == k;
    OptFractionSkipped(k);
    assert Digit1(s) == Ok(k, w);
    assert IndexReadParts(s) == Ok(k, w);
    assert s[..|s| - |k|] == w;
  }

  /** Digits, a point and digits, not followed by a digit. */
  lemma FractionIndexReadRoundTrip(w: string, f: string, k: string)
    requires w != [] && AllIn(w, Digits) && f != [] && AllIn(f, Digits) && StopsRun(k, Digits)
    ensures IndexRead(w + ("." + f) + k) == Ok(k, w + ("." + f))
  {
    var t := w + ("." + f);
    FractionParts(w, f, k);
    assert (t + k)[..|t + k| - |k|] == t;
  }

  lemma FractionParts(w: string, f: string, k: string)
    requires w != [] && AllIn(w, Digits) && f != [] && AllIn(f, Digits) && StopsRun(k, Digits)
    ensures IndexReadParts(w + ("." + f) + k) == Ok(k, w)
  {
    var u := "." + (f + k);
    assert w + ("." + f) + k == w + u;
    DigitsBeforePoint(w, u);
    FractionThen(f, k);
  }

  /** `digit1` stops at a point. */
  lemma DigitsBeforePoint(w: string, u: string)
    requires w != [] && AllIn(w, Digits) && u != [] && u[0] == '.'
    ensures Digit1(w + u) == Ok(u, w)
  {
    SpanAppend(w, u, Digits);
    assert (w + u)[|w|..] == u;
  }

  /** The optional fraction consumes a point and its digits, up to `k`. */
  lemma FractionThen(f: string, k: string)
    requires f != [] && AllIn(f, Digits) && StopsRun(k, Digits)
    ensures OptFraction("." + (f + k)) == k
  {
    var u := "." + (f + k);
    assert u[1..] == f + k;
    SpanAppend(f, k, Digits);
    OptFractionTaken(u);
    assert u[1 + |f|..] == k;
  }

  lemma IndexReadFieldRoundTrip(t: string, k: string)
    requires IsDecimal(t) && |t| <= 15 && EndsIndexRead(t, k)
    ensures IndexReadField(t + k) == Ok(k, t)
  {
    IndexReadRoundTrip(t, k);
  }

  lemma B2BDetailsRoundTrip(b: B2BDetails, k: string)
    requires B2BDetailsFields(b) && EndsIndexRead(b.indexRead, k)
    ensures ParseB2BDetails(WriteB2BDetails(b, k)) == Ok(k, b)
  {
    var t := WriteB2BDetailsTail(b, k);
    var r1 := b.retServiceOrder + ("," + t);
    TagReads("500,", b.transCode + ("," + r1));
    CommaStopsRuns(r1);
    AlphaExactReads(b.transCode, "," + r1, 1);
    TagReads(",", r1);
    CommaStopsRuns(t);
    AlnumFieldReads(b.retServiceOrder, "," + t, 15);
    TagReads(",", t);
    var r2 := b.indexRead + k;
    DateTime14RoundTrip(b.readDatetime, "," + r2);
    TagReads(",", r2);
    IndexReadFieldRoundTrip(b.indexRead, k);
  }

  // ---------------------------------------------------------------------
  // End of data record (900)

  lemma EndOfDataRoundTrip(ws: string, k: string)
    requires AllIn(ws, Whitespace) && StopsRun(k, Whitespace)
    ensures ParseEndOfData("900" + (ws + k)) == Ok(k, EndOfData)
  {
    TagReads("900", ws + k);
    SpanAppend(ws, k, Whitespace);
    assert (ws + k)[|ws|..] == k;
  }
}
