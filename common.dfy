/** The token combinators of `src/common.rs`: length-checked fields, the
    optional field decided by peeking at its end marker, and the fixed-width
    date and time fields. */
module Common {
  import opened Nom
  import opened Calendar

  // ---------------------------------------------------------------------
  // Length-checked fields (`verify` around a token parser)

  /** `section_of_max_length(test, length)`: the token `test` matches, kept
      only when it has between 1 and `length` characters; any other match is
      a `Verify` error at the start of the field. */
  function SectionOfMaxLength(test: string -> IResult<string>, length: nat, s: string): (r: IResult<string>)
    ensures r.Ok? <==> test(s).Ok? && 0 < |test(s).value| <= length
    ensures r.Ok? ==> r == test(s)
    ensures test(s).Ok? && !r.Ok? ==> r == Error(s, Verify)
    ensures !test(s).Ok? ==> r == test(s)
  {
    match test(s)
    case Ok(rest, v) => if 0 < |v| <= length then Ok(rest, v) else Error(s, Verify)
    case _ => test(s)
  }

  /** `section_of_exact_length(test, length)`: as above with exactly `length` characters. */
  function SectionOfExactLength(test: string -> IResult<string>, length: nat, s: string): (r: IResult<string>)
    ensures r.Ok? <==> test(s).Ok? && |test(s).value| == length
    ensures r.Ok? ==> r == test(s)
    ensures test(s).Ok? && !r.Ok? ==> r == Error(s, Verify)
    ensures !test(s).Ok? ==> r == test(s)
  {
    match test(s)
    case Ok(rest, v) => if |v| == length then Ok(rest, v) else Error(s, Verify)
    case _ => test(s)
  }

  /** A field that is a maximal run of `cls` of 1 to `length` characters,
      the shape every `section_of_max_length` over `digit1`, `alpha1` or
      `alphanumeric1` in the record parsers takes. */
  predicate RunField(t: string, cls: CharClass, length: nat) {
    0 < |t| <= length && AllIn(t, cls)
  }

  /** Bounded field over a run: it succeeds exactly on a run of 1 to `length`
      characters that the next character does not continue, and leaves what
      follows the run. */
  lemma MaxRunFieldRoundTrip(test: string -> IResult<string>, t: string, r: string, cls: CharClass,
                              kind: ErrorKind, length: nat)
    requires test(t + r) == Run1(t + r, cls, kind) && StopsRun(r, cls)
    ensures SectionOfMaxLength(test, length, t + r) == Ok(r, t) <==> RunField(t, cls, length)
  {
    var s := t + r;
    if RunField(t, cls, length) {
      SpanAppend(t, r, cls);
      assert s[..|t|] == t;
    }
    if SectionOfMaxLength(test, length, s) == Ok(r, t) {
      assert Run1(s, cls, kind) == Ok(r, t);
    }
  }

  /** A maximal run longer than the bound is rejected at the field start, never truncated. */
  lemma MaxRunFieldTooLong(test: string -> IResult<string>, t: string, r: string, cls: CharClass,
                           kind: ErrorKind, length: nat)
    requires test(t + r) == Run1(t + r, cls, kind)
    requires AllIn(t, cls) && StopsRun(r, cls) && |t| > length
    ensures SectionOfMaxLength(test, length, t + r) == Error(t + r, Verify)
  {
    SpanAppend(t, r, cls);
  }

  /** Exact-length field over a run: a run of exactly `length` characters, and nothing else. */
  lemma ExactRunFieldRoundTrip(test: string -> IResult<string>, t: string, r: string, cls: CharClass,
                               kind: ErrorKind, length: nat)
    requires test(t + r) == Run1(t + r, cls, kind) && StopsRun(r, cls) && 0 < length
    ensures SectionOfExactLength(test, length, t + r) == Ok(r, t)
      <==> |t| == length && AllIn(t, cls)
  {
    var s := t + r;
    if |t| == length && AllIn(t, cls) {
      SpanAppend(t, r, cls);
    }
    if SectionOfExactLength(test, length, s) == Ok(r, t) {
      assert Run1(s, cls, kind) == Ok(r, t);
    }
  }

  // ---------------------------------------------------------------------
  // optional_field

  /** `optional_field(test, end_marker)`: the value `test` reads, or `None`
      when `test` fails with an error and the end marker is next (nothing is
      consumed).  The peek uses the streaming `tag`, so an input that is a
      proper prefix of the marker (the empty input included) is incomplete;
      that and any non-error failure of `test` reach a `panic!`. */
  function OptionalField<T>(test: string -> IResult<T>, endMarker: string, s: string): (r: IResult<Option<T>>)
    ensures test(s).Ok? ==> r == Ok(test(s).rest, Some(test(s).value))
    ensures r.Ok? && r.value.Some? ==> test(s).Ok?
    ensures r.Ok? && r.value.None? <==> test(s).Error? && endMarker <= s
    ensures r.Ok? && r.value.None? ==> r.rest == s
    ensures r.Error? <==> test(s).Error? && !(endMarker <= s) && !(|s| < |endMarker| && s <= endMarker)
    ensures r.Error? ==> r == Error(s, Tag)
    ensures r.Incomplete? == false
  {
    match test(s)
    case Ok(rest, v) => Ok(rest, Some(v))
    case Error(_, _) =>
      (match MatchTagStreaming(s, endMarker)
       case Ok(_, _) => Ok(s, None)
       case Error(at, kind) => Error(at, kind)
       case _ => Panic)
    case _ => Panic
  }

  // ---------------------------------------------------------------------
  // Fixed-width dates and times

  /** The value a taken token decodes to: a `ParseTo` error just after the
      token when it is not a real date. */
  function DateOfToken(taken: (string, string)): (r: IResult<Date>)
    requires |taken.1| == 8
  {
    match DecodeDate(taken.1)
    case Some(d) => Ok(taken.0, d)
    case None => Error(taken.0, ParseTo)
  }

  function DateTime12OfToken(taken: (string, string)): (r: IResult<DateTime>)
    requires |taken.1| == 12
  {
    match DecodeDateTime12(taken.1)
    case Some(t) => Ok(taken.0, t)
    case None => Error(taken.0, ParseTo)
  }

  function DateTime14OfToken(taken: (string, string)): (r: IResult<DateTime>)
    requires |taken.1| == 14
  {
    match DecodeDateTime14(taken.1)
    case Some(t) => Ok(taken.0, t)
    case None => Error(taken.0, ParseTo)
  }

  /** `date_8` reading its 8 characters with a complete `take`: a short input
      is an `Eof` error at the field. */
  function Date8(s: string): (r: IResult<Date>)
    ensures |s| < 8 <==> r == Error(s, Eof)
    ensures r.Ok? <==> |s| >= 8 && DecodeDate(s[..8]).Some?
    ensures r.Ok? ==> ValidDate(r.value) && s == EncodeDate(r.value) + r.rest
    ensures |s| >= 8 && !r.Ok? ==> r == Error(s[8..], ParseTo)
  {
    var taken :- Take(s, 8);
    assert taken.1 == s[..8] && taken.0 == s[8..];
    if DecodeDate(taken.1).Some? then EncodeDecodeDate(taken.1); DateOfToken(taken)
    else DateOfToken(taken)
  }

  /** `datetime_12`: `YYYYMMDDHHMM`, seconds zero. */
  function DateTime12(s: string): (r: IResult<DateTime>)
    ensures |s| < 12 <==> r == Error(s, Eof)
    ensures r.Ok? <==> |s| >= 12 && DecodeDateTime12(s[..12]).Some?
    ensures r.Ok? ==> ValidDateTime(r.value) && r.value.second == 0 && s == EncodeDateTime12(r.value) + r.rest
    ensures |s| >= 12 && !r.Ok? ==> r == Error(s[12..], ParseTo)
  {
    var taken :- Take(s, 12);
    assert taken.1 == s[..12] && taken.0 == s[12..];
    if DecodeDateTime12(taken.1).Some? then EncodeDecodeDateTime12(taken.1); DateTime12OfToken(taken)
    else DateTime12OfToken(taken)
  }

  /** `datetime_14`: `YYYYMMDDHHMMSS`. */
  function DateTime14(s: string): (r: IResult<DateTime>)
    ensures |s| < 14 <==> r == Error(s, Eof)
    ensures r.Ok? <==> |s| >= 14 && DecodeDateTime14(s[..14]).Some?
    ensures r.Ok? ==> ValidDateTime(r.value) && s == EncodeDateTime14(r.value) + r.rest
    ensures |s| >= 14 && !r.Ok? ==> r == Error(s[14..], ParseTo)
  {
    var taken :- Take(s, 14);
    assert taken.1 == s[..14] && taken.0 == s[14..];
    if DecodeDateTime14(taken.1).Some? then EncodeDecodeDateTime14(taken.1); DateTime14OfToken(taken)
    else DateTime14OfToken(taken)
  }

  /** `date_8` exactly as written, with the streaming `take` it imports: a
      short input is `Incomplete(8)` rather than an error. */
  function Date8AsWritten(s: string): (r: IResult<Date>)
    ensures |s| < 8 <==> r == Incomplete(8)
    ensures |s| >= 8 ==> r == Date8(s)
  {
    var taken :- TakeStreaming(s, 8);
    DateOfToken(taken)
  }

  /** `datetime_12` exactly as written, with the streaming `take`. */
  function DateTime12AsWritten(s: string): (r: IResult<DateTime>)
    ensures |s| < 12 <==> r == Incomplete(12)
    ensures |s| >= 12 ==> r == DateTime12(s)
  {
    var taken :- TakeStreaming(s, 12);
    DateTime12OfToken(taken)
  }

  /** `datetime_14` exactly as written, with the streaming `take`. */
  function DateTime14AsWritten(s: string): (r: IResult<DateTime>)
    ensures |s| < 14 <==> r == Incomplete(14)
    ensures |s| >= 14 ==> r == DateTime14(s)
  {
    var taken :- TakeStreaming(s, 14);
    DateTime14OfToken(taken)
  }

  // ---------------------------------------------------------------------
  // Round trips: a rendered date is read back whatever follows it

  lemma Date8RoundTrip(d: Date, k: string)
    requires ValidDate(d)
    ensures Date8(EncodeDate(d) + k) == Ok(k, d)
  {
    var s := EncodeDate(d) + k;
    assert s[..8] == EncodeDate(d) && s[8..] == k;
    DecodeEncodeDate(d);
  }

  lemma DateTime12RoundTrip(t: DateTime, k: string)
    requires ValidDateTime(t) && t.second == 0
    ensures DateTime12(EncodeDateTime12(t) + k) == Ok(k, t)
  {
    var s := EncodeDateTime12(t) + k;
    assert s[..12] == EncodeDateTime12(t) && s[12..] == k;
    DecodeEncodeDateTime12(t);
  }

  lemma DateTime14RoundTrip(t: DateTime, k: string)
    requires ValidDateTime(t)
    ensures DateTime14(EncodeDateTime14(t) + k) == Ok(k, t)
  {
    var s := EncodeDateTime14(t) + k;
    assert s[..14] == EncodeDateTime14(t) && s[14..] == k;
    DecodeEncodeDateTime14(t);
  }
}
