# NEM12 line parser, modelled in Dafny

NEM12 is the Australian metering data file format. It is a CSV-like text
with one record per line, and the first field of each line is the record
indicator:

| indicator | record |
|---|---|
| 100 | header |
| 200 | NMI data details |
| 300 | interval data |
| 400 | interval event |
| 500 | B2B details |
| 900 | end of data |

This project models the parser core of the repository:

- the field combinators of `src/common.rs`:
  - `section_of_max_length` and `section_of_exact_length`;
  - `optional_field`;
  - the date readers `date_8`, `datetime_12` and `datetime_14`;
- the six record parsers of `src/nem12.rs` and `record::Kind`;
- the line driver `Parser` (`new`, `parse_line`) of `src/nem12.rs`.

The modules are:

- `Nom`: the parser-combinator primitives the source calls (`tag`, `take`,
  `digit1`/`alpha1`/`alphanumeric1`, `multispace0`, `eof`, `double`,
  `separated_list`). Each one returns
  `Ok(rest, value) | Error(at, kind) | Incomplete(n) | Panic`. `Panic` stands
  for the `panic!` arms of the source and is never a success.
- `Calendar`: the stand-in for chrono's `parse_from_str` with the `%Y%m%d…`
  formats. It covers digit-only tokens and calendar validity, leap years
  included.
- `Common`: `src/common.rs`.
- `Record`: the record parsers. Each record has:
  - a datatype;
  - its field rules (`XFields`);
  - its written form (`WriteX(x, k)`: the record followed by the text `k`);
  - its parser.

  Every parser promises soundness: what it accepts is a record obeying the
  field rules, written out, followed by the rest of the line. A line that
  does not start with the record's tag is a `Tag` error at the line start.
- `RoundTrip`: completeness. A record obeying its field rules, written out
  and followed by text that does not continue its last field, reads back as
  exactly that record and that text.
- `Nem12`:
  - the alternation over the six parsers, proved to be dispatch by the
    leading tag;
  - soundness and completeness of a whole line;
  - the driver as a class (`lines`, `index`, `finished`), whose
    `ParseLine` is proved against a step function `Next`;
  - the protocol of repeated calls.
- `Examples`: the records of the source's unit tests, read through the
  model.

The date and time readers of `src/common.rs` use the streaming `take`,
which the unit tests do not expect (see "## Findings"). The model has both
readings. The corrected parsers read with the complete `take`, and the
driver uses them. The parsers as written (`…AsWritten`) read with the
streaming `take`, and lemmas (`…AsWrittenAgrees`) say exactly where the two
differ.

Interval values are kept as the text of the numeric token that `double`
accepted, not as `f64`. The lines of a file are given to `Parser` as a
sequence of strings.

## Model

| member | source | states |
|---|---|---|
| Common.SectionOfMaxLength | src/common.rs:15-23 | succeeds exactly when the inner parser succeeds with 1 to `length` characters, and then returns the inner result; a match that is too long is a `Verify` error at the field start; an inner error passes through unchanged |
| Common.SectionOfExactLength | src/common.rs:25-33 | succeeds exactly when the inner parser matches exactly `length` characters; otherwise a `Verify` error at the field start, or the inner error |
| Common.MaxRunFieldRoundTrip | src/common.rs:15-23 | a maximal run `t` followed by text that does not continue it is read back as `t` if and only if it has 1 to `length` characters |
| Common.MaxRunFieldTooLong | src/common.rs:15-23 | a run longer than `length` is a `Verify` error positioned at the start of the run |
| Common.ExactRunFieldRoundTrip | src/common.rs:25-33 | a maximal run of exactly `length` characters is read back as itself, leaving exactly what follows |
| Common.OptionalField | src/common.rs:35-64 | `Some` with the inner result when the inner parser succeeds; `None`, consuming nothing, exactly when the inner parser errs and the end marker follows; a `Tag` error at the field exactly when the inner parser errs and the text is neither the marker nor a prefix of it; never `Incomplete` (a streaming peek that needs more input reaches the `panic!`) |
| Common.Date8 | src/common.rs:96-109 | with the complete `take`: fewer than 8 characters is an `Eof` error at the field; otherwise success exactly when the 8 characters are a valid date, the consumed text is that date's encoding, and a bad date is a `ParseTo` error after the 8 characters |
| Common.DateTime12 | src/common.rs:81-94 | as `Date8` for 12 characters `%Y%m%d%H%M`; the seconds of the result are 0 |
| Common.DateTime14 | src/common.rs:66-79 | as `Date8` for 14 characters `%Y%m%d%H%M%S` |
| Common.Date8AsWritten | src/common.rs:96-109 | with the streaming `take` imported at common.rs line 3: fewer than 8 characters is `Incomplete(8)`, otherwise the same as `Date8` |
| Common.DateTime12AsWritten | src/common.rs:81-94 | with the streaming `take` imported at common.rs line 3 and called at line 82: fewer than 12 characters is `Incomplete(12)`, otherwise the same as `DateTime12` |
| Common.DateTime14AsWritten | src/common.rs:66-79 | with the streaming `take`: fewer than 14 characters is `Incomplete(14)`, otherwise the same as `DateTime14` |
| Common.Date8RoundTrip | src/common.rs:96-109 | the encoding of a valid date, followed by any text, is read back as that date with exactly that text left |
| Common.DateTime12RoundTrip | src/common.rs:81-94 | the same for a valid date-time with zero seconds |
| Common.DateTime14RoundTrip | src/common.rs:66-79 | the same for any valid date-time |
| Calendar.DecodeEncodeDate | src/common.rs:103-106 | a valid date, encoded as `%Y%m%d`, decodes to itself |
| Calendar.EncodeDecodeDate | src/common.rs:103-106 | an 8-character token that decodes gives a valid date whose encoding is the token |
| Calendar.DecodeEncodeDateTime12 | src/common.rs:88-91 | a valid date-time with zero seconds, encoded as `%Y%m%d%H%M`, decodes to itself |
| Calendar.EncodeDecodeDateTime12 | src/common.rs:88-91 | a 12-character token that decodes gives a valid date-time with zero seconds whose encoding is the token |
| Calendar.DecodeEncodeDateTime14 | src/common.rs:73-76 | a valid date-time, encoded as `%Y%m%d%H%M%S`, decodes to itself |
| Calendar.EncodeDecodeDateTime14 | src/common.rs:73-76 | a 14-character token that decodes gives a valid date-time whose encoding is the token |
| Calendar.ValueOfPadded | src/nem12.rs:248 | reading back the zero-padded digits of a number below `10^n` gives the number |
| Calendar.PaddedOfValue | src/nem12.rs:248 | an all-digit token is the zero-padded rendering of its decimal value |
| Nom.MatchTag | src/nem12.rs:171 | `tag` succeeds exactly when the input starts with the tag and leaves what follows it; otherwise a `Tag` error at the input |
| Nom.MatchTagStreaming | src/common.rs:53 | the streaming `tag`: `Incomplete` exactly when the input is a proper prefix of the tag; otherwise as the complete `tag` |
| Nom.Take | src/common.rs:97 | the corrected reading of the streaming call at this line, the complete `take(n)`: success exactly when at least `n` characters remain, splitting off `n`; otherwise an `Eof` error at the input |
| Nom.TakeStreaming | src/common.rs:97 | the streaming `take(n)`: `Incomplete(n)` when fewer than `n` characters remain |
| Nom.Run1 | src/nem12.rs:175 | `digit1`/`alpha1`/`alphanumeric1`: succeeds exactly when the first character is in the class; then the value is the maximal leading run |
| Nom.SpanAppend | src/nem12.rs:175 | the maximal run at the head of `t + r` is `t` when `t` is in the class and `r` does not continue it |
| Nom.Multispace0 | src/nem12.rs:408 | `multispace0` consumes exactly the maximal leading run of whitespace |
| Nom.EofParser | src/nem12.rs:229 | `eof` succeeds, consuming nothing, exactly on the empty input; otherwise an `Eof` error at the input |
| Nom.Double | src/nem12.rs:277 | `double` succeeds exactly when the input starts a number (an optional sign, then a digit, or a point and a digit); it then takes exactly the longest numeric prefix, a non-empty run of sign, digit, point and exponent characters, and leaves what follows; otherwise a `Float` error at the input |
| Nom.NumberTokenChar | src/nem12.rs:277 | every character inside the numeric prefix `double` takes is a sign, a digit, a point or an exponent mark |
| Nom.DoubleDecimal | src/nem12.rs:277 | a decimal token followed by a comma or by nothing is read as exactly that token |
| Nom.DoubleRejects | src/nem12.rs:277 | an input that is empty or starts with a comma, a line feed or a letter is a `Float` error |
| Nom.SeparatedDoubles | src/nem12.rs:277 | `separated_list(tag(","), double)` never fails; the list is empty exactly when the input starts no number; otherwise its first value is what `double` reads there; every value is a non-empty run of number characters, so holds no comma; the input is the values joined by commas followed by the rest, and the rest is not a comma followed by a number |
| Nom.SeparatedDoublesJoin | src/nem12.rs:277 | comma-joined decimals followed by a comma that starts no number are read back as exactly that list, leaving the comma |
| Record.PeekLineEnd | src/nem12.rs:229 | `peek(alt((eof, tag("\n"))))` succeeds, consuming nothing, exactly at the end of the input or before a line feed; otherwise a `Tag` error at the input |
| Record.ParseHeader | src/nem12.rs:170-186 | an accepted 100 record obeys the field rules (valid creation time with zero seconds, participants of 1 to 10 alphanumerics); the line is the record written out, followed by text that does not continue the last participant; a line not starting `100,` is a `Tag` error at its start |
| Record.HeaderOf | src/nem12.rs:173-185 | after the creation time: a failure of the time reader is the header's outcome; after a read time the outcome is never incomplete; an accepted header keeps that time, its participants are 1 to 10 alphanumerics, and the text after the time is the two participants written out, followed by the rest |
| Record.ParseHeaderAsWritten | src/nem12.rs:170-186 | with `datetime_12` as written: a line not starting `100,` is a `Tag` error at its start; a `100,NEM12,` line cut short inside the creation time is `Incomplete(12)` |
| Record.ParseHeaderAsWrittenAgrees | src/nem12.rs:170-186 | the header as written gives the corrected outcome, except that it is `Incomplete(12)` exactly where the corrected header has an `Eof` error at a short creation time |
| Record.MdmDataStreamIdField | src/nem12.rs:218 | the optional stream identifier is 2 alphanumerics, or absent right before a comma |
| Record.NextReadDate | src/nem12.rs:226-238 | (corrected) a valid date; `None`, consuming nothing, exactly when no date can be read and the line or the input ends here; any other text is a `Tag` error at the field |
| Record.NextReadDateAsWritten | src/nem12.rs:226-238 | with the streaming `take`, a field shorter than 8 characters is `Panic`; otherwise the same as `NextReadDate` |
| Record.ParseNmiDataDetails | src/nem12.rs:208-253 | an accepted 200 record obeys the field rules, including the NMI of 10 and the suffix of 2 alphanumerics, and an interval length below 100; the line is the record written out followed by the rest, which is the line end when there is no read date; a line not starting `200,` is a `Tag` error at its start |
| Record.NmiAndConfiguration | src/nem12.rs:210-213 | reads an NMI of exactly 10 alphanumerics and a configuration of 1 to 240, each written before a comma |
| Record.RegisterAndSuffix | src/nem12.rs:214-217 | reads a register of 1 to 10 alphanumerics and a suffix of exactly 2, each written before a comma |
| Record.NmiDataDetailsTail | src/nem12.rs:218-252 | reads the fields from the stream identifier on, keeping the leading fields it is given, and the input is their written form followed by the rest |
| Record.StreamSerialAndUom | src/nem12.rs:218-223 | reads the optional stream identifier (2 alphanumerics), a serial number of 1 to 12 and a unit of 1 to 5 alphanumerics; the input is their written form, each followed by a comma, then the rest |
| Record.SerialAndUom | src/nem12.rs:220-223 | reads a serial number of 1 to 12 alphanumerics and a unit of 1 to 5, each written before a comma |
| Record.IntervalAndNextRead | src/nem12.rs:224-248 | reads two digits as their decimal value (below 100) and then the optional read date; the input is the zero-padded length, a comma and the date, then the rest |
| Record.IntervalAndNextReadAsWrittenAgrees | src/nem12.rs:224-248 | with `date_8` as written, the interval length and read date give the corrected outcome or panic; where the corrected reader succeeds, the one as written succeeds exactly when a date was read or at least 8 characters follow |
| Record.NmiDataDetailsTailAsWrittenAgrees | src/nem12.rs:218-252 | the same for the fields from the stream identifier on: the corrected outcome or a panic, and a record without a read date is kept only when at least 8 characters follow |
| Record.ParseNmiDataDetailsAsWritten | src/nem12.rs:208-253 | as written, a line not starting `200,` is a `Tag` error at its start |
| Record.ParseNmiDataDetailsAsWrittenAgrees | src/nem12.rs:208-253 | the 200 parser as written gives the corrected outcome or panics; where the corrected parser reads a record, the one as written reads it exactly when it has a read date or at least 8 characters follow it |
| Record.ReasonCodeField | src/nem12.rs:288 | the optional reason code is 1 to 3 digits, and its written form is a prefix of the input |
| Record.DataReasonDescriptionField | src/nem12.rs:291 | the optional description is 1 to 240 alphanumerics, and its written form is a prefix of the input |
| Record.MsatsLoadDateTime | src/nem12.rs:296-305 | (corrected) a valid time; `None`, consuming nothing, exactly when fewer than 14 characters remain; otherwise a `ParseTo` error after the 14 characters |
| Record.MsatsLoadDateTimeAsWritten | src/nem12.rs:296-305 | with the streaming `take`, fewer than 14 characters is `Panic`; otherwise the same as `MsatsLoadDateTime` |
| Record.IntervalValues | src/nem12.rs:274-277 | reads `300,`, a valid interval date and the comma-joined values; the input is their written form followed by the rest; every value is a non-empty run of number characters; a non-empty list stops where no comma and number follow, and an empty list means no number follows the date |
| Record.IntervalValuesAsWritten | src/nem12.rs:274-277 | with `date_8` as written: a `300,` line cut short inside the interval date is `Incomplete(8)`; any other input gives the corrected outcome |
| Record.ParseIntervalData | src/nem12.rs:273-318 | an accepted 300 record obeys the field rules (valid date and update time, quality of 1 to 3 letters, reason and description within their lengths); the line is the record written out followed by the rest, which is shorter than 14 characters when there is no MSATS time; every interval value is a non-empty run of number characters; a line not starting `300,` is a `Tag` error at its start |
| Record.IntervalDataTail | src/nem12.rs:285-317 | reads the fields after the values, keeping the date and values it is given; the input is their written form followed by the rest |
| Record.QualityReasonAndDescription | src/nem12.rs:284-292 | reads a quality of 1 to 3 letters, an optional reason of 1 to 3 digits and an optional description of 1 to 240 alphanumerics; the input is a comma, each field written out and followed by a comma, then the rest |
| Record.IntervalDataTailAsWrittenAgrees | src/nem12.rs:285-317 | with `datetime_14` as written, the fields after the values give the corrected record or error; an incomplete outcome is `Incomplete(14)` where the corrected one has an `Eof` error at a short update time; a panic stands where the corrected reader panics or reads no MSATS time; where the corrected reader succeeds, the one as written succeeds exactly when an MSATS time was read |
| Record.ParseIntervalDataAsWritten | src/nem12.rs:273-318 | as written, a line not starting `300,` is a `Tag` error at its start, and a `300,` line cut short inside the interval date is `Incomplete(8)` |
| Record.ParseIntervalDataAsWrittenAgrees | src/nem12.rs:273-318 | the 300 parser as written gives the corrected record or error; it is incomplete (8 or 14) only where the corrected parser has an `Eof` error at a short date field; it panics where the corrected parser panics or reads no MSATS time; where the corrected parser reads a record, the one as written reads it exactly when it has an MSATS time |
| Record.QualityAndReason | src/nem12.rs:285-288 | reads a quality of 1 to 3 letters and an optional reason of 1 to 3 digits, each written before a comma |
| Record.UpdateAndMsatsLoad | src/nem12.rs:294-305 | reads a valid update time, a comma and the optional MSATS time; the input is their written form followed by the rest |
| Record.UpdateAndMsatsLoadAsWritten | src/nem12.rs:294-305 | with `datetime_14` as written, fewer than 14 characters is `Incomplete(14)` |
| Record.UpdateAndMsatsLoadAsWrittenAgrees | src/nem12.rs:294-305 | the update and MSATS times as written are incomplete exactly when fewer than 14 characters remain, where the corrected reader has an `Eof` error; a success or an error is the corrected outcome; a panic stands where the corrected reader reads no MSATS time; where the corrected reader succeeds, the one as written succeeds exactly when an MSATS time was read |
| Record.ParseIntervalDataChecked | src/nem12.rs:279-283 | with the commented-out count check in place: with no 200 record it is `ParseIntervalData`; with an interval length above zero it succeeds exactly when `ParseIntervalData` does with `1440 / length` values; a wrong count is a `SeparatedList` error after the values; a zero length panics |
| Record.SampleCountCheck | src/nem12.rs:279-283 | the commented-out count check consumes nothing; with no 200 record it passes; with a zero interval length it panics; otherwise it passes exactly when `count * length <= 1440 < (count + 1) * length`, that is when `count` is `1440 / length` in integer division, and fails with a `SeparatedList` error at the input |
| Record.EventReasonDescriptionField | src/nem12.rs:346 | the optional description is 1 to 24 alphanumerics, or absent right before a line feed |
| Record.ParseIntervalEvent | src/nem12.rs:336-357 | an accepted 400 record obeys the field rules (interval bounds of 1 to 4 digits, quality of 1 to 3 alphanumerics, reason of 1 to 3 digits, optional description of 1 to 24); the line is the record written out followed by the rest, which starts with a line feed when there is no description; a line not starting `400,` is a `Tag` error |
| Record.IntervalEventTail | src/nem12.rs:338-356 | reads the fields after the start interval, keeping the bounds it is given; the input is their written form followed by the rest |
| Record.IndexRead | src/nem12.rs:383 | `recognize(permutation((digit1, opt(pair(tag("."), digit1)))))` returns a prefix of the input |
| Record.OptFraction | src/nem12.rs:383 | `opt(pair(tag("."), digit1))`, as the input it leaves: it consumes something exactly when the input is a point followed by a digit, and then exactly the point and the maximal run of digits after it |
| Record.IndexReadParts | src/nem12.rs:383 | the permutation succeeds exactly when the input starts with a digit; the digits are the maximal leading run and the rest is what the optional fraction leaves after them; otherwise it is a `Digit` error positioned after any fraction it skipped, so `.5` is an error at the text after `.5` |
| Record.IndexReadShape | src/nem12.rs:383 | the index read succeeds exactly when the input starts with a digit; its value is then a decimal (digits, or digits, a point and digits) that the rest does not continue; otherwise a `Digit` error |
| Record.IndexReadField | src/nem12.rs:382-384 | the index read of the 500 record is a decimal of at most 15 characters, a prefix of the input |
| Record.ParseB2BDetails | src/nem12.rs:374-394 | an accepted 500 record obeys the field rules (a one-letter transaction code, an order of 1 to 15 alphanumerics, a valid read time, an index read); the line is the record written out followed by the rest; a line not starting `500,` is a `Tag` error |
| Record.B2BDetailsTail | src/nem12.rs:378-393 | reads the fields after the transaction code, keeping the code and order; the input is their written form followed by the rest; fewer than 14 characters is an `Eof` error at the read time |
| Record.B2BDetailsTailAsWritten | src/nem12.rs:378-393 | with `datetime_14` as written, fewer than 14 characters is `Incomplete(14)`; otherwise the corrected outcome |
| Record.ParseB2BDetailsAsWritten | src/nem12.rs:374-394 | as written, a line not starting `500,` is a `Tag` error at its start |
| Record.ParseB2BDetailsAsWrittenAgrees | src/nem12.rs:374-394 | the 500 parser as written gives the corrected outcome, except that it is `Incomplete(14)` where the corrected parser has an `Eof` error at a short read time |
| Record.ParseEndOfData | src/nem12.rs:406-410 | succeeds exactly when the line starts `900`; it then consumes the whitespace after the tag and leaves text that starts with no whitespace; otherwise a `Tag` error at the line start |
| RoundTrip.HeaderRoundTrip | src/nem12.rs:170-186 | a header obeying its field rules, written out and followed by text that does not continue the last participant, reads back as itself with exactly that text left |
| RoundTrip.NextReadDateRoundTrip | src/nem12.rs:226-238 | a read date, or its absence at a line end, reads back as itself |
| RoundTrip.IntervalAndNextReadRoundTrip | src/nem12.rs:224-248 | an interval length below 100, padded to two digits, and the read date read back as themselves |
| RoundTrip.MdmDataStreamIdRoundTrip | src/nem12.rs:218 | a stream identifier, or its absence, before a comma reads back as itself |
| RoundTrip.NmiAndConfigurationRoundTrip | src/nem12.rs:210-213 | an NMI and a configuration obeying their rules read back as themselves |
| RoundTrip.RegisterAndSuffixRoundTrip | src/nem12.rs:214-217 | a register and a suffix obeying their rules read back as themselves |
| RoundTrip.SerialAndUomRoundTrip | src/nem12.rs:220-223 | a serial number and a unit obeying their rules read back as themselves |
| RoundTrip.NmiDataDetailsTailRoundTrip | src/nem12.rs:218-252 | the fields of a 200 record from the stream identifier on read back as the record |
| RoundTrip.StreamSerialAndUomRoundTrip | src/nem12.rs:218-223 | an optional stream identifier, a serial number and a unit obeying their rules, each followed by a comma, read back as themselves with exactly the rest left |
| RoundTrip.NmiDataDetailsRoundTrip | src/nem12.rs:208-253 | a 200 record obeying its field rules, written out, reads back as itself with exactly the rest left |
| RoundTrip.ReasonCodeRoundTrip | src/nem12.rs:288 | a reason code, or its absence, before a comma reads back as itself |
| RoundTrip.DataReasonDescriptionRoundTrip | src/nem12.rs:291 | a description, or its absence, before a comma reads back as itself |
| RoundTrip.MsatsLoadDateTimeRoundTrip | src/nem12.rs:296-305 | an MSATS time, or its absence before fewer than 14 characters, reads back as itself |
| RoundTrip.UpdateAndMsatsLoadRoundTrip | src/nem12.rs:294-305 | an update time and an optional MSATS time read back as themselves |
| RoundTrip.QualityAndReasonRoundTrip | src/nem12.rs:285-288 | a quality method and an optional reason code read back as themselves |
| RoundTrip.IntervalDataTailRoundTrip | src/nem12.rs:285-317 | the fields of a 300 record after its values read back as the record |
| RoundTrip.QualityReasonAndDescriptionRoundTrip | src/nem12.rs:284-292 | a quality method, an optional reason code and an optional description obeying their rules, each followed by a comma, read back as themselves with exactly the rest left |
| RoundTrip.IntervalValuesRoundTrip | src/nem12.rs:274-277 | the tag, a valid date and plain decimal values, followed by the quality field, read back as the date and exactly those values |
| RoundTrip.IntervalDataRoundTrip | src/nem12.rs:273-318 | a 300 record obeying its field rules, with its values written as plain decimals, reads back as itself with exactly the rest left |
| RoundTrip.EventReasonDescriptionRoundTrip | src/nem12.rs:346 | a description, or its absence before a line feed, reads back as itself |
| RoundTrip.IntervalEventTailRoundTrip | src/nem12.rs:338-356 | the fields of a 400 record after its start interval read back as the record |
| RoundTrip.IntervalEventRoundTrip | src/nem12.rs:336-357 | a 400 record obeying its field rules, written out, reads back as itself with exactly the rest left |
| RoundTrip.IndexReadRoundTrip | src/nem12.rs:383 | a decimal followed by text that does not continue it is read as exactly that decimal |
| RoundTrip.IndexReadFieldRoundTrip | src/nem12.rs:382-384 | the same, for a decimal of at most 15 characters, through the length check |
| RoundTrip.B2BDetailsRoundTrip | src/nem12.rs:374-394 | a 500 record obeying its field rules, written out, reads back as itself with exactly the rest left |
| RoundTrip.EndOfDataRoundTrip | src/nem12.rs:406-410 | `900`, then whitespace, then text that starts with no whitespace, is an end of data record leaving that text |
| Nem12.TagsExclusive | src/nem12.rs:48-55 | no line starts with two different record tags |
| Nem12.OrElse | src/nem12.rs:48-55 | two branches of `alt`: the outcome is an error exactly when both branches err; the second branch is tried only when the first errs; a record, an incomplete outcome or a panic of the first branch is the outcome |
| Nem12.ParseRecord | src/nem12.rs:48-55 | every error of the alternation is a `Tag` error positioned at the start of the line |
| Nem12.AltDispatchesByTag | src/nem12.rs:48-55 | the `alt` of the six parsers is the parser selected by the line's leading tag; when that parser errs, or no tag matches, the outcome is a `Tag` error at the line start (the error of the last branch) |
| Nem12.ParseRecordSound | src/nem12.rs:48-55 | a record the driver reads is the line's record, obeying its field rules and written out, followed by what is left |
| Nem12.ParseRecordComplete | src/nem12.rs:48-55 | every record obeying its field rules, written out, is read by the alternation as that record with exactly the rest left (a 300 record when its values are plain decimals) |
| Nem12.HeaderLineSound | src/nem12.rs:49 | the soundness of a line that starts with `100,` |
| Nem12.NmiDataDetailsLineSound | src/nem12.rs:50 | the soundness of a line that starts with `200,` |
| Nem12.IntervalDataLineSound | src/nem12.rs:51 | the soundness of a line that starts with `300,` |
| Nem12.IntervalEventLineSound | src/nem12.rs:52 | the soundness of a line that starts with `400,` |
| Nem12.B2BDetailsLineSound | src/nem12.rs:53 | the soundness of a line that starts with `500,` |
| Nem12.EndOfDataLineSound | src/nem12.rs:54 | the soundness of a line that starts with none of the other tags |
| Nem12.HeaderLineComplete | src/nem12.rs:49 | a written header line is read by the alternation as that header |
| Nem12.NmiDataDetailsLineComplete | src/nem12.rs:50 | a written 200 line is read by the alternation as that record |
| Nem12.IntervalDataLineComplete | src/nem12.rs:51 | a written 300 line with plain decimal values is read by the alternation as that record |
| Nem12.IntervalEventLineComplete | src/nem12.rs:52 | a written 400 line is read by the alternation as that record |
| Nem12.B2BDetailsLineComplete | src/nem12.rs:53 | a written 500 line is read by the alternation as that record |
| Nem12.EndOfDataLineComplete | src/nem12.rs:54 | a written 900 line is read by the alternation as the end of data record |
| Nem12.ParseRecordAsWritten | src/nem12.rs:48-55 | the alternation with the date fields as written: every error is a `Tag` error at the start of the line |
| Nem12.ParseRecordAsWrittenAgrees | src/nem12.rs:48-55 | the alternation with the date fields as written gives the corrected outcome whenever it gives a record or an error; when it is incomplete, the needed size is 8, 12 or 14 |
| Nem12.ParseRecordAsWrittenReads | src/nem12.rs:48-55 | on every line the corrected alternation reads as a record, the alternation as written reads the same record or panics |
| Nem12.Report | src/nem12.rs:56-67 | the `map_err` of `parse_line`: a record becomes `Ok(Some(record))`; an error becomes "Error parsing line: " with the line number and the sentinel; an incomplete outcome becomes "Failed to parse line: " with the needed size in place of the line number and "Needed::Size" as the sentinel; a panic stays a panic; no line's report is ever `Ok(None)` or the "consumed all input" error |
| Nem12.RejectedLineReport | src/nem12.rs:56-58 | a line that the record parsers reject is reported with its number and the whole line as the sentinel |
| Nem12.Next | src/nem12.rs:45-77 | one call from a cursor: while lines remain, the next line's report, numbered from 1, and the cursor moves on by one; at the end, `Ok(None)` exactly when the end has not yet been reported, then the "consumed all input" error exactly when it has; the finished flag is set exactly when the end is reached |
| Nem12.CallsAfterFinish | src/nem12.rs:68-75 | once the end has been reported, every further call is the "consumed all input" error |
| Nem12.CallsFrom | src/nem12.rs:45-77 | from any line on, successive calls report the remaining lines in order, then `Ok(None)` once, then the "consumed all input" error forever |
| Nem12.Protocol | src/nem12.rs:45-77 | over a whole file, successive calls report every line in order, numbered from 1, then `Ok(None)` once, then the "consumed all input" error on every later call |
| Nem12.Parser.constructor | src/nem12.rs:34-43 | `Parser::new` always succeeds, at the first line, with the end not yet reported |
| Nem12.Parser.ParseLine | src/nem12.rs:45-77 | `parse_line` returns exactly what `Next` gives for the old cursor, and leaves the parser at `Next`'s new cursor; it keeps the cursor within the lines, and the end is reported only after the last line |
| Examples.HeaderExample | src/nem12.rs:418-433 | the test header from MDA1 to Ret1, created at 11:35 on 1 May 2004, is read leaving the line feed |
| Examples.HeaderTenCharacterParticipant | src/nem12.rs:435-448 | a ten-character participant is accepted |
| Examples.HeaderParticipantTooLong | src/nem12.rs:450-459 | an eleven-character participant is a `Verify` error at the start of that field |
| Examples.ParticipantTooLong | src/nem12.rs:175 | for any valid creation time, a sending participant longer than ten characters is a `Verify` error where the participant starts |
| Examples.NmiDataDetailsExample | src/nem12.rs:462-483 | the test's 200 record, ending after the interval length, is read with no read date, leaving the line feed; the parser as written panics on it |
| Examples.NmiDataDetailsStrayDigits | src/nem12.rs:485-492 | the test's 200 line with `1234` where the read date belongs is a `Tag` error at `1234\n`; the parser as written panics on it |
| Examples.ReadDateRejected | src/nem12.rs:224-238 | any 200 record obeying its field rules and followed by text that is neither a date nor a line end is a `Tag` error at that text; as written, such text shorter than 8 characters panics |
| Examples.IntervalDataExample | src/nem12.rs:496-514 | the test's 300 record, 48 values of 1.111 with quality A, no reason and both times, is read leaving the line feed |
| Examples.IntervalEventExample | src/nem12.rs:517-529 | the test's 400 record, intervals 1 to 20, quality F14, reason 76, no description, is read leaving the line feed |
| Examples.B2BDetailsExample | src/nem12.rs:532-543 | the test's 500 record with index read 001123.5 is read leaving the line feed |
| Examples.EndOfDataExample | src/nem12.rs:546-552 | `900\n` is an end of data record that leaves nothing |
| Examples.EndOfDataIgnoresTrailingText | src/nem12.rs:406-410 | `900junk` is accepted as an end of data record, by the record parser and by the driver's alternation |
| Examples.NextReadDateAtLineEnd | src/nem12.rs:476-483 | at the end of a 200 line the corrected field reads no date, while the field as written panics |
| Examples.NextReadDateStrayDigits | src/nem12.rs:485-492 | four stray digits are a `Tag` error at the field, as the test expects, while the field as written panics |
| Examples.MsatsLoadDateTimeEmpty | src/nem12.rs:106-107 | an empty MSATS load time reads as absent in the corrected field, and panics as written |
| Examples.ShortCreatedTime | src/nem12.rs:173 | `100,NEM12,2004`: the alternation as written is `Incomplete(12)`, reported as "Failed to parse line: " with 12 and "Needed::Size"; the corrected alternation reports line 1 with the whole line |
| Examples.ShortIntervalDate | src/nem12.rs:275 | `300,2004`: as written `Incomplete(8)`, reported with 8 and "Needed::Size"; corrected, line 1 with the whole line |
| Examples.ShortReadTime | src/nem12.rs:380 | `500,S,RETNSRVCEORD1,2003`: as written `Incomplete(14)`, reported with 14 and "Needed::Size"; corrected, line 1 with the whole line |
| Examples.FinishAtEndOfData | src/nem12.rs:124-130 | with only the closing `900` line left, three calls give the end of data record, then `Ok(None)`, then the "consumed all input" error |

## Left out

- `src/codes.rs` is not part of this model. The parsers do not use it.
- Interval values are the text of the token `double` accepted, not its `f64` value. Floating-point conversion, rounding and the exponent form's precision are not modelled.
- Nom.Double: recognises `[+-]? (digits ('.' digits?)? | '.' digits)` with an optional exponent. This is an approximation of nom's float grammar; `inf`/`nan` spellings are not recognised.
- RoundTrip.IntervalDataRoundTrip: completeness is proved only for values written as plain decimals, not for every spelling `double` accepts.
- Calendar: stands in for chrono's `parse_from_str`. It accepts digit-only fields. It does not model chrono's whitespace skipping, signs, or the leap second 60.
- UTF-8 validation of the taken bytes (common.rs lines 69-72 and the like) is left out. Inputs are sequences of characters, so the `TakeUntil` error arm never arises.
- The `println!` calls in the `panic!` arms are left out; the arms become the `Panic` result.
- nom's `Failure` (cut) outcome is not modelled. No combinator in the core produces it, so the "Failed to parse line" arm for `Failure` is unreachable.
- nom's `Needed::Unknown` is not modelled: every incomplete outcome in the core carries a size.
- `str::lines` is not modelled: `Parser` receives the file already split into lines, without their line feeds.
- The `src` and `data` fields of `Parser` are not modelled. Neither is `NEM12`, `NMIDetails` or `DataDetails`. The driver never reads or builds them.
- Nem12.Next, Nem12.Calls and Nem12.Protocol take the record parser as a parameter. `ParseLine` instantiates it with the corrected alternation `ParseRecord`. The alternation as written, `ParseRecordAsWritten`, is related to it by `ParseRecordAsWrittenAgrees` and `ParseRecordAsWrittenReads`.
- Common.OptionalField: the peek at the end marker is the streaming `tag` the source imports, and it stays so in the model. An optional field that is empty at the very end of the input gives `Incomplete`, which is a panic in the source. So a 400 record without a description, handed over by the driver without its line feed, panics; see the row below.
- Record.EventReasonDescriptionField: a 400 line without a description must be followed by a line feed. At the end of the input it reaches the `panic!` of `optional_field`, as in the source.

## Findings

| source | as written | input that shows it | evidently intended | confidence | as-written member | corrected member |
|---|---|---|---|---|---|---|
| src/common.rs:3 | `date_8`, `datetime_12` and `datetime_14` (common.rs lines 97, 82 and 67) use the streaming `take` imported at line 3. A field shorter than 8, 12 or 14 characters is then `Incomplete`, never an error. After `date_8` at nem12.rs line 237 and after `datetime_14` at line 304, that reaches a `panic!` arm. At the other call sites it is the record's outcome: `datetime_12` at nem12.rs line 173, `date_8` at line 275, and `datetime_14` at lines 294 and 380. `alt` stops at it, and `parse_line` reports it as "Failed to parse line: " with the needed size (8, 12 or 14) where the line number belongs | the 200 line of the `nmi_data_details_200` test ends `…,30,\n`, so the date field is `\n`; its second input leaves `1234\n`; the 300 lines of `multiple_meters` end with an empty MSATS load time; the lines `100,NEM12,2004`, `300,2004` and `500,S,RETNSRVCEORD1,2003` | the complete `take`: a short field is an `Eof` error. So the read date is `None` at a line end, `1234\n` is a `Tag` error at the field, and the MSATS load time is `None` (the `Eof` arm at nem12.rs line 298), as the tests expect. A record cut short in a date is an error, reported as "Error parsing line: " with its line number and the line | not executed | Common.Date8AsWritten, Common.DateTime12AsWritten, Common.DateTime14AsWritten, Record.NextReadDateAsWritten, Record.MsatsLoadDateTimeAsWritten, Record.ParseHeaderAsWritten, Record.ParseNmiDataDetailsAsWritten, Record.ParseIntervalDataAsWritten, Record.ParseB2BDetailsAsWritten, Nem12.ParseRecordAsWritten, Examples.NmiDataDetailsExample, Examples.NmiDataDetailsStrayDigits, Examples.NextReadDateStrayDigits, Examples.MsatsLoadDateTimeEmpty, Examples.ShortCreatedTime, Examples.ShortIntervalDate, Examples.ShortReadTime | Common.Date8, Common.DateTime12, Common.DateTime14, Record.NextReadDate, Record.MsatsLoadDateTime, Record.ParseHeader, Record.ParseNmiDataDetails, Record.ParseIntervalData, Record.ParseB2BDetails, Nem12.ParseRecord |
