/** The parts of the nom 5 parser-combinator library that the NEM12 parser
    calls, over text modelled as `seq<char>`.  Each primitive is a function
    from the remaining input to an `IResult`. */
module Nom {

  datatype Option<+T> = None | Some(value: T)

  /** The error kinds the modelled parsers can report. */
  datatype ErrorKind = Tag | Verify | AlphaNumeric | Digit | Alpha | Eof | ParseTo | Float | SeparatedList

  /** nom's `IResult<&str, T>`.  `Ok` carries the unconsumed input and the
      output; `Error(at, kind)` is `nom::Err::Error((at, kind))`, positioned at
      the unconsumed input `at`; `Incomplete(n)` is
      `nom::Err::Incomplete(Needed::Size(n))` from a streaming primitive;
      `Panic` stands for reaching one of the source's `panic!` arms. */
  datatype IResult<+T> =
    | Ok(rest: string, value: T)
    | Error(at: string, kind: ErrorKind)
    | Incomplete(needed: nat)
    | Panic
  {
    predicate IsFailure() { !Ok? }

    function PropagateFailure<U>(): (r: IResult<U>)
      requires !Ok?
      ensures !r.Ok?
    {
      match this
      case Error(at, kind) => Error(at, kind)
      case Incomplete(n) => Incomplete(n)
      case Panic => Panic
    }

    function Extract(): (string, T)
      requires Ok?
    {
      (rest, value)
    }
  }

  /** `a` is what is left of `s` after some prefix has been consumed. */
  predicate IsSuffix(a: string, s: string) {
    |a| <= |s| && s[|s| - |a|..] == a
  }

  lemma SuffixTransitive(a: string, b: string, c: string)
    requires IsSuffix(a, b) && IsSuffix(b, c)
    ensures IsSuffix(a, c)
  {
    assert c[|c| - |a|..] == c[|c| - |b|..][|b| - |a|..];
  }

  lemma SplitAt(s: string, n: nat)
    requires n <= |s|
    ensures s[..n] + s[n..] == s
  {
  }

  /** The result leaves a suffix of `s`, whether it succeeds or fails. */
  predicate Positioned<T>(r: IResult<T>, s: string) {
    (r.Ok? ==> IsSuffix(r.rest, s)) && (r.Error? ==> IsSuffix(r.at, s))
  }

  // ---------------------------------------------------------------------
  // Character classes (nom's AsChar on ASCII)

  datatype CharClass = Digits | Letters | Alphanumerics | Whitespace | NumberChars

  predicate IsDigit(c: char) { '0' <= c <= '9' }
  predicate IsLetter(c: char) { 'a' <= c <= 'z' || 'A' <= c <= 'Z' }

  predicate InClass(c: char, cls: CharClass) {
    match cls
    case Digits => IsDigit(c)
    case Letters => IsLetter(c)
    case Alphanumerics => IsDigit(c) || IsLetter(c)
    case Whitespace => c == ' ' || c == '\t' || c == '\r' || c == '\n'
    case NumberChars => IsDigit(c) || IsSign(c) || c == '.' || c == 'e' || c == 'E'
  }

  predicate AllIn(s: string, cls: CharClass) {
    forall i :: 0 <= i < |s| ==> InClass(s[i], cls)
  }

  /** `s` does not continue a run of `cls`: it is empty or starts outside it. */
  predicate StopsRun(s: string, cls: CharClass) {
    s == [] || !InClass(s[0], cls)
  }

  /** The longest prefix of `s` made of characters of `cls`. */
  function Span(s: string, cls: CharClass): (t: string)
    ensures t <= s && AllIn(t, cls) && StopsRun(s[|t|..], cls)
  {
    if s == [] || !InClass(s[0], cls) then [] else [s[0]] + Span(s[1..], cls)
  }

  /** The run of `cls` at the head of `t + r` is `t` when `r` does not continue it. */
  lemma {:induction false} SpanAppend(t: string, r: string, cls: CharClass)
    requires AllIn(t, cls) && StopsRun(r, cls)
    ensures Span(t + r, cls) == t
  {
    if t != [] {
      assert (t + r)[1..] == t[1..] + r;
      SpanAppend(t[1..], r, cls);
    } else {
      assert t + r == r;
    }
  }

  /** A maximal run is the only prefix that is all of `cls` and stops the run. */
  lemma SpanUnique(s: string, t: string, cls: CharClass)
    requires t <= s && AllIn(t, cls) && StopsRun(s[|t|..], cls)
    ensures Span(s, cls) == t
  {
    assert s == t + s[|t|..];
    SpanAppend(t, s[|t|..], cls);
  }

  // ---------------------------------------------------------------------
  // character::complete::{digit1, alpha1, alphanumeric1}, multispace0

  /** A non-empty maximal run of `cls`; an empty run is an error at `s`. */
  function Run1(s: string, cls: CharClass, kind: ErrorKind): (r: IResult<string>)
    ensures r.Ok? <==> s != [] && InClass(s[0], cls)
    ensures r.Ok? ==> r.value == Span(s, cls) && r.value + r.rest == s
    ensures !r.Ok? ==> r == Error(s, kind)
  {
    var t := Span(s, cls);
    if t == [] then Error(s, kind) else assert s == t + s[|t|..]; Ok(s[|t|..], t)
  }

  function Digit1(s: string): IResult<string> { Run1(s, Digits, Digit) }
  function Alpha1(s: string): IResult<string> { Run1(s, Letters, Alpha) }
  function AlphaNumeric1(s: string): IResult<string> { Run1(s, Alphanumerics, AlphaNumeric) }

  /** Consumes every leading space, tab, carriage return and line feed. */
  function Multispace0(s: string): (r: IResult<string>)
    ensures r.Ok? && r.value + r.rest == s && AllIn(r.value, Whitespace)
    ensures StopsRun(r.rest, Whitespace)
  {
    var t := Span(s, Whitespace);
    assert s == t + s[|t|..];
    Ok(s[|t|..], t)
  }

  // ---------------------------------------------------------------------
  // bytes::{complete, streaming}::{tag, take}, combinator::eof

  /** bytes::complete::tag */
  function MatchTag(s: string, t: string): (r: IResult<string>)
    ensures r.Ok? <==> t <= s
    ensures r.Ok? ==> r.value == t && t + r.rest == s
    ensures !r.Ok? ==> r == Error(s, Tag)
  {
    if t <= s then assert s == t + s[|t|..]; Ok(s[|t|..], t) else Error(s, Tag)
  }

  /** bytes::streaming::tag: an input that could still grow into `t` is incomplete. */
  function MatchTagStreaming(s: string, t: string): (r: IResult<string>)
    ensures r.Ok? <==> t <= s
    ensures r.Ok? ==> t + r.rest == s
    ensures r.Incomplete? <==> |s| < |t| && s <= t
    ensures r.Error? ==> r == Error(s, Tag)
  {
    if t <= s then assert s == t + s[|t|..]; Ok(s[|t|..], t)
    else if |s| < |t| && s <= t then Incomplete(|t|)
    else Error(s, Tag)
  }

  /** bytes::complete::take: fewer than `n` characters is an `Eof` error at `s`. */
  function Take(s: string, n: nat): (r: IResult<string>)
    ensures r.Ok? <==> n <= |s|
    ensures r.Ok? ==> |r.value| == n && r.value + r.rest == s
    ensures !r.Ok? ==> r == Error(s, Eof)
  {
    if |s| < n then Error(s, Eof) else SplitAt(s, n); Ok(s[n..], s[..n])
  }

  /** bytes::streaming::take: fewer than `n` characters is `Incomplete(n)`. */
  function TakeStreaming(s: string, n: nat): (r: IResult<string>)
    ensures r.Ok? <==> n <= |s|
    ensures r.Ok? ==> |r.value| == n && r.value + r.rest == s
    ensures !r.Ok? ==> r == Incomplete(n)
  {
    if |s| < n then Incomplete(n) else SplitAt(s, n); Ok(s[n..], s[..n])
  }

  /** combinator::eof */
  function EofParser(s: string): (r: IResult<string>)
    ensures r.Ok? <==> s == []
    ensures r.Ok? ==> r.rest == s
    ensures !r.Ok? ==> r == Error(s, Eof)
  {
    if s == [] then Ok(s, s) else Error(s, Eof)
  }

  // ---------------------------------------------------------------------
  // map

  /** `map(p, f)`, given the outcome of `p`. */
  function Map<T, U>(r: IResult<T>, f: T -> U): (m: IResult<U>)
    ensures m.Ok? <==> r.Ok?
    ensures r.Ok? ==> m == Ok(r.rest, f(r.value))
    ensures !r.Ok? ==> m == r.PropagateFailure()
  {
    if r.Ok? then Ok(r.rest, f(r.value)) else r.PropagateFailure()
  }


  // ---------------------------------------------------------------------
  // number::complete::double, as the shape of the text it accepts

  predicate IsSign(c: char) { c == '+' || c == '-' }

  /** The length of a complete exponent `e[+-]digits` at the head of `u`, or 0. */
  function ExponentLength(u: string): (n: nat)
    ensures n <= |u|
  {
    if u != [] && (u[0] == 'e' || u[0] == 'E') then
      var k := if |u| > 1 && IsSign(u[1]) then 2 else 1;
      var e := |Span(u[k..], Digits)|;
      if e > 0 then k + e else 0
    else 0
  }

  /** The length of `digits ('.' digits?)?` or `'.' digits` at the head of `t`, or 0. */
  function MantissaLength(t: string): (n: nat)
    ensures n <= |t|
  {
    var w := |Span(t, Digits)|;
    if w > 0 then
      if w < |t| && t[w] == '.' then w + 1 + |Span(t[w + 1..], Digits)| else w
    else if t != [] && t[0] == '.' && Span(t[1..], Digits) != [] then 1 + |Span(t[1..], Digits)|
    else 0
  }

  /** The length of the numeric token at the head of `s`, or 0 when there is none. */
  function NumberLength(s: string): (n: nat)
    ensures n <= |s|
  {
    var i := if s != [] && IsSign(s[0]) then 1 else 0;
    var m := MantissaLength(s[i..]);
    if m == 0 then 0 else i + m + ExponentLength(s[i + m..])
  }

  /** `s` starts a number: after an optional sign, a digit, or a point and a digit. */
  predicate NumberStart(s: string) {
    var i := if s != [] && IsSign(s[0]) then 1 else 0;
    i < |s| && (IsDigit(s[i]) || (s[i] == '.' && i + 1 < |s| && IsDigit(s[i + 1])))
  }

  /** The numeric token `double` consumes: `[+-]? (digits ('.' digits?)? | '.' digits)`
      followed by an optional exponent.  The token text stands for the f64 value. */
  function Double(s: string): (r: IResult<string>)
    ensures r.Ok? <==> NumberStart(s)
    ensures r.Ok? ==> |r.value| == NumberLength(s) && r.value + r.rest == s
    ensures r.Ok? ==> r.value != [] && AllIn(r.value, NumberChars)
    ensures !r.Ok? ==> r == Error(s, Float)
  {
    var n := NumberLength(s);
    NumberLengthStart(s);
    if n == 0 then Error(s, Float)
    else
      SplitAt(s, n);
      NumberTokenChars(s);
      Ok(s[n..], s[..n])
  }

  /** A digit run is non-empty exactly when its first character is a digit. */
  lemma SpanStart(t: string)
    ensures Span(t, Digits) != [] <==> t != [] && IsDigit(t[0])
  {
  }

  lemma MantissaStart(t: string)
    ensures MantissaLength(t) > 0 <==> t != [] && (IsDigit(t[0]) || (t[0] == '.' && |t| > 1 && IsDigit(t[1])))
  {
    SpanStart(t);
    if t != [] {
      SpanStart(t[1..]);
    }
  }

  lemma NumberLengthStart(s: string)
    ensures NumberLength(s) > 0 <==> NumberStart(s)
  {
    var i := if s != [] && IsSign(s[0]) then 1 else 0;
    MantissaStart(s[i..]);
    if i < |s| {
      assert s[i..][0] == s[i];
      if i + 1 < |s| {
        assert s[i..][1] == s[i + 1];
      }
    }
  }

  /** Every character of a digit run is a number character. */
  lemma SpanNumberChars(t: string, k: nat)
    requires k < |Span(t, Digits)|
    ensures k < |t| && InClass(t[k], NumberChars)
  {
    var w := Span(t, Digits);
    assert t[k] == w[k];
  }

  lemma MantissaChars(t: string, k: nat)
    requires k < MantissaLength(t)
    ensures k < |t| && InClass(t[k], NumberChars)
  {
    var w := |Span(t, Digits)|;
    if k < w {
      SpanNumberChars(t, k);
    } else if w > 0 {
      if k > w {
        SpanNumberChars(t[w + 1..], k - w - 1);
      }
    } else if k > 0 {
      SpanNumberChars(t[1..], k - 1);
    }
  }

  lemma ExponentChars(u: string, k: nat)
    requires k < ExponentLength(u)
    ensures k < |u| && InClass(u[k], NumberChars)
  {
    var j := if |u| > 1 && IsSign(u[1]) then 2 else 1;
    if k >= j {
      SpanNumberChars(u[j..], k - j);
    }
  }

  /** The token `double` consumes is made of number characters only. */
  lemma NumberTokenChars(s: string)
    ensures AllIn(s[..NumberLength(s)], NumberChars)
  {
    var n := NumberLength(s);
    forall k | 0 <= k < n
      ensures InClass(s[..n][k], NumberChars)
    {
      NumberTokenChar(s, k);
    }
  }

  lemma NumberTokenChar(s: string, k: nat)
    requires k < NumberLength(s)
    ensures InClass(s[k], NumberChars)
  {
    var i := if s != [] && IsSign(s[0]) then 1 else 0;
    var m := MantissaLength(s[i..]);
    assert k < i + m + ExponentLength(s[i + m..]);
    if k < i {
      assert IsSign(s[k]);
    } else if k < i + m {
      MantissaChars(s[i..], k - i);
      assert s[i..][k - i] == s[k];
    } else {
      ExponentChars(s[i + m..], k - i - m);
      assert s[i + m..][k - i - m] == s[k];
    }
  }

  /** A plain decimal reading such as `10` or `1.111`: digits with an optional
      fractional part of at least one digit. */
  predicate IsDecimal(t: string) {
    var w := Span(t, Digits);
    w != [] && (w == t || (t[|w|] == '.' && |t| > |w| + 1 && AllIn(t[|w| + 1..], Digits)))
  }

  /** A decimal token followed by a comma (or nothing) is read as exactly that token. */
  lemma DoubleDecimal(t: string, r: string)
    requires IsDecimal(t)
    requires r == [] || r[0] == ','
    ensures Double(t + r) == Ok(r, t)
  {
    var s := t + r;
    MantissaOfDecimal(t, r);
    assert !IsSign(s[0]) by { assert s[0] == t[0] == Span(t, Digits)[0]; }
    assert s[0..] == s;
    assert s[|t|..] == r;
    assert ExponentLength(r) == 0;
    assert NumberLength(s) == |t|;
    assert s[..|t|] == t;
  }

  lemma MantissaOfDecimal(t: string, r: string)
    requires IsDecimal(t)
    requires r == [] || r[0] == ','
    ensures MantissaLength(t + r) == |t|
  {
    var s := t + r;
    var w := Span(t, Digits);
    var u := t[|w|..] + r;
    SplitAt(t, |w|);
    assert t == w + t[|w|..];
    assert s == w + u;
    assert StopsRun(u, Digits) by {
      if t[|w|..] == [] { assert u == r; } else { assert u[0] == t[|w|] == '.'; }
    }
    SpanAppend(w, u, Digits);
    if w == t {
      assert u == r;
      assert s[|w|..] == r;
    } else {
      var f := t[|w| + 1..];
      assert s[|w|] == '.';
      assert s[|w| + 1..] == f + r;
      SpanAppend(f, r, Digits);
      assert |t| == |w| + 1 + |f|;
    }
  }

  /** A number cannot start with a letter, a comma or a line end. */
  lemma DoubleRejects(s: string)
    requires s == [] || s[0] == ',' || s[0] == '\n' || IsLetter(s[0])
    ensures Double(s) == Error(s, Float)
  {
    if s != [] {
      assert !IsSign(s[0]) && !IsDigit(s[0]) && s[0] != '.';
      assert s[0..] == s;
      assert Span(s, Digits) == [];
      assert MantissaLength(s) == 0;
    }
  }

  // ---------------------------------------------------------------------
  // multi::separated_list(tag(","), double)

  /** nom's `separated_list(tag(","), double)`: zero or more numbers separated by
      commas.  When a comma is not followed by a number the list ends before that
      comma.  (nom's no-progress guard never fires here: a comma and a number
      each consume at least one character.) */
  function SeparatedDoubles(s: string): (r: IResult<seq<string>>)
    ensures r.Ok? && IsSuffix(r.rest, s)
    ensures s == JoinThen(r.value, r.rest)
    ensures NumberTokens(r.value)
    ensures r.value == [] <==> !NumberStart(s)
    ensures r.value != [] ==> Double(s).Ok? && Double(s).value == r.value[0]
    ensures r.value != [] ==> ListEnds(r.rest)
  {
    var first := Double(s);
    if first.Ok? then
      var more := MoreDoubles(first.rest);
      JoinCons(first.value, more.1, more.0);
      SuffixTransitive(more.0, first.rest, s);
      NumberTokensCons(first.value, more.1);
      Ok(more.0, [first.value] + more.1)
    else
      Ok(s, [])
  }

  /** Every value is a non-empty run of number characters (so holds no comma). */
  predicate NumberTokens(vs: seq<string>) {
    forall i :: 0 <= i < |vs| ==> vs[i] != [] && AllIn(vs[i], NumberChars)
  }

  /** Where a list of numbers stops: the text is not a comma followed by a number. */
  predicate ListEnds(r: string) {
    r == [] || r[0] != ',' || !NumberStart(r[1..])
  }

  lemma NumberTokensCons(v: string, ws: seq<string>)
    requires v != [] && AllIn(v, NumberChars) && NumberTokens(ws)
    ensures NumberTokens([v] + ws)
  {
    forall i | 0 <= i < |[v] + ws|
      ensures ([v] + ws)[i] != [] && AllIn(([v] + ws)[i], NumberChars)
    {
      if i > 0 {
        assert ([v] + ws)[i] == ws[i - 1];
      }
    }
  }

  /** The `(, number)*` tail of a separated list, as (rest, numbers). */
  function MoreDoubles(s: string): (r: (string, seq<string>))
    ensures IsSuffix(r.0, s)
    ensures s == CommaEachThen(r.1, r.0)
    ensures NumberTokens(r.1) && ListEnds(r.0)
    decreases |s|
  {
    var comma := MatchTag(s, ",");
    var number := if comma.Ok? then Double(comma.rest) else comma;
    if number.Ok? then
      var more := MoreDoubles(number.rest);
      MoreDoublesLink(s, number.value, number.rest, more.0, more.1);
      NumberTokensCons(number.value, more.1);
      (more.0, [number.value] + more.1)
    else
      assert comma.Ok? ==> comma.rest == s[1..];
      (s, [])
  }

  /** One more `, number` in front of a tail already read. */
  lemma MoreDoublesLink(s: string, v: string, s2: string, r: string, ws: seq<string>)
    requires s == "," + (v + s2)
    requires IsSuffix(r, s2) && s2 == CommaEachThen(ws, r)
    ensures IsSuffix(r, s) && s == CommaEachThen([v] + ws, r)
  {
    assert s[|s| - |s2|..] == s2;
    SuffixTransitive(r, s2, s);
    CommaEachCons(v, ws, r);
  }

  /** `vs` written out with a comma between neighbours, followed by `k`. */
  function JoinThen(vs: seq<string>, k: string): string {
    if vs == [] then k else vs[0] + CommaEachThen(vs[1..], k)
  }

  /** Each of `ws` preceded by a comma, followed by `k`. */
  function CommaEachThen(ws: seq<string>, k: string): string {
    if ws == [] then k else "," + (ws[0] + CommaEachThen(ws[1..], k))
  }

  lemma JoinCons(v: string, ws: seq<string>, k: string)
    ensures JoinThen([v] + ws, k) == v + CommaEachThen(ws, k)
  {
    assert ([v] + ws)[1..] == ws;
  }

  lemma CommaEachCons(v: string, ws: seq<string>, k: string)
    ensures CommaEachThen([v] + ws, k) == "," + (v + CommaEachThen(ws, k))
  {
    assert ([v] + ws)[1..] == ws;
  }

  predicate AllDecimal(vs: seq<string>) {
    forall i :: 0 <= i < |vs| ==> IsDecimal(vs[i])
  }

  /** Reading back a comma-joined list of decimals yields the list and leaves
      exactly what follows it, provided no number follows. */
  lemma SeparatedDoublesJoin(vs: seq<string>, r: string)
    requires AllDecimal(vs)
    requires r == [] || r[0] == ','
    requires r != [] ==> Double(r[1..]).Error?
    requires vs == [] ==> Double(r).Error?
    ensures SeparatedDoubles(JoinThen(vs, r)) == Ok(r, vs)
  {
    if vs != [] {
      var tail := CommaEachThen(vs[1..], r);
      CommaEachStarts(vs[1..], r);
      AllDecimalSplit(vs);
      DoubleDecimal(vs[0], tail);
      MoreDoublesCommaEach(vs[1..], r);
      assert vs == [vs[0]] + vs[1..];
    }
  }

  lemma {:induction false} MoreDoublesCommaEach(ws: seq<string>, r: string)
    requires AllDecimal(ws)
    requires r == [] || r[0] == ','
    requires r != [] ==> Double(r[1..]).Error?
    ensures MoreDoubles(CommaEachThen(ws, r)) == (r, ws)
  {
    if ws == [] {
      MoreDoublesEnd(r);
    } else {
      var tail := CommaEachThen(ws[1..], r);
      CommaEachStarts(ws[1..], r);
      AllDecimalSplit(ws);
      MoreDoublesCommaEach(ws[1..], r);
      MoreDoublesStep(ws[0], tail);
      assert ws == [ws[0]] + ws[1..];
    }
  }

  lemma CommaEachStarts(ws: seq<string>, r: string)
    requires r == [] || r[0] == ','
    ensures CommaEachThen(ws, r) == [] || CommaEachThen(ws, r)[0] == ','
  {
  }

  lemma AllDecimalSplit(ws: seq<string>)
    requires ws != [] && AllDecimal(ws)
    ensures IsDecimal(ws[0]) && AllDecimal(ws[1..])
  {
    forall i | 0 <= i < |ws[1..]|
      ensures IsDecimal(ws[1..][i])
    {
      assert ws[1..][i] == ws[i + 1];
    }
  }

  lemma MoreDoublesEnd(r: string)
    requires r == [] || r[0] == ','
    requires r != [] ==> Double(r[1..]).Error?
    ensures MoreDoubles(r) == (r, [])
  {
    if r != [] {
      assert MatchTag(r, ",") == Ok(r[1..], ",");
    }
  }

  lemma MoreDoublesStep(w: string, tail: string)
    requires IsDecimal(w)
    requires tail == [] || tail[0] == ','
    ensures MoreDoubles("," + (w + tail)) == (MoreDoubles(tail).0, [w] + MoreDoubles(tail).1)
    ensures forall ws, r :: MoreDoubles(tail) == (r, ws) ==> MoreDoubles("," + (w + tail)) == (r, [w] + ws)
  {
    var s := "," + (w + tail);
    assert MatchTag(s, ",") == Ok(w + tail, ",");
    DoubleDecimal(w, tail);
  }
}
