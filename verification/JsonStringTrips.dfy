/**
 Escaping a string and reading it back: which strings survive.
 */
module JsonStringTrips {
  import opened Wrappers
  import opened Utf8
  import opened JsonStrings
  import opened JsonEscape

  // A Unicode scalar value.
  predicate Scalar(point: nat) {
    point <= 0x10ffff && !Surrogate(point)
  }

  predicate Scalars(points: seq<nat>) {
    forall i :: 0 <= i < |points| ==> Scalar(points[i])
  }

  // The UTF-8 of a sequence of points, and its escaped form.
  function TextOf(points: seq<nat>): string
    requires Scalars(points)
  {
    if points == [] then "" else Utf8Bytes(points[0]) + TextOf(points[1..])
  }

  function EscapePoint(point: nat): (s: string)
    requires Scalar(point)
    ensures s != ""
  {
    if point < 0x80 && ShortEscape(point as char).Some? then ShortEscape(point as char).value
    else if 0x20 <= point < 0x80 then [point as char]
    else UnicodeEscape(point)
  }

  function EscapeText(points: seq<nat>): string
    requires Scalars(points)
  {
    if points == [] then "" else EscapePoint(points[0]) + EscapeText(points[1..])
  }

  lemma Sliced(s: string, p: nat, a: string, b: string, q: nat)
    requires p <= q <= |s| && s[p..q] == a + b
    ensures p + |a| <= q && s[p..p + |a|] == a && s[p + |a|..q] == b
  {
    assert (a + b)[..|a|] == a && (a + b)[|a|..] == b;
    assert s[p..q][..|a|] == s[p..p + |a|] && s[p..q][|a|..] == s[p + |a|..q];
  }

  lemma EscapesPoint(s: string, p: nat, point: nat)
    requires Scalar(point) && p + PointLength(point) <= |s| && s[p..p + PointLength(point)] == Utf8Bytes(point)
    ensures 1 <= PointLength(point)
    ensures EscapeFrom(s, p) == Before(EscapePoint(point), EscapeFrom(s, p + PointLength(point)))
  {
    var n := PointLength(point);
    LengthIsShortest(point);
    assert s[p] == s[p..p + n][0];
    PointRoundTrip(s, p, point);
    if point >= 0x80 {
      LeadIsSmall(point, n);
    }
  }

  lemma TextSplits(s: string, p: nat, points: seq<nat>)
    requires Scalars(points) && points != [] && p <= |s| && s[p..] == TextOf(points)
    ensures var end := p + PointLength(points[0]);
            p <= end <= |s| && s[p..end] == Utf8Bytes(points[0]) && s[end..] == TextOf(points[1..])
  {
    hide Utf8Bytes, PointLength;
    assert s[p..] == s[p..|s|];
    Sliced(s, p, Utf8Bytes(points[0]), TextOf(points[1..]), |s|);
  }

  lemma Joined(points: seq<nat>, whole: Escaped, rest: Escaped)
    requires Scalars(points) && points != []
    requires whole == Before(EscapePoint(points[0]), rest) && rest == Escaped(EscapeText(points[1..]))
    ensures whole == Escaped(EscapeText(points))
  {
  }

  // The escaper turns the UTF-8 of a sequence of points into its escaped form.
  lemma {:induction false} EscapesText(s: string, p: nat, points: seq<nat>)
    requires Scalars(points) && p <= |s| && s[p..] == TextOf(points)
    ensures EscapeFrom(s, p) == Escaped(EscapeText(points))
    decreases |points|
  {
    hide EscapePoint, Utf8Bytes, PointLength;
    if points == [] {
      assert |s[p..]| == 0;
    } else {
      TextSplits(s, p, points);
      EscapesPoint(s, p, points[0]);
      var end := p + PointLength(points[0]);
      EscapesText(s, end, points[1..]);
      Joined(points, EscapeFrom(s, p), EscapeFrom(s, end));
    }
  }

  lemma HexCharDigit(d: nat)
    requires d < 16
    ensures HexDigit(HexChar(d)) == Some(d)
  {
  }

  // Four digits at a position of a text.
  predicate FourAt(b: string, p: int, d3: nat, d2: nat, d1: nat, d0: nat) {
    && d3 < 16 && d2 < 16 && d1 < 16 && d0 < 16
    && HexDigit(At(b, p)) == Some(d3) && HexDigit(At(b, p + 1)) == Some(d2)
    && HexDigit(At(b, p + 2)) == Some(d1) && HexDigit(At(b, p + 3)) == Some(d0)
  }

  lemma HexAt(b: string, p: nat, v: nat) returns (d3: nat, d2: nat, d1: nat, d0: nat)
    requires v < 0x1_0000 && p + 4 <= |b| && b[p..p + 4] == Hex4(v)
    ensures FourAt(b, p, d3, d2, d1, d0) && v == ((d3 * 16 + d2) * 16 + d1) * 16 + d0
  {
    d3, d2, d1, d0 := v / 0x1000, v / 0x100 % 16, v / 16 % 16, v % 16;
    HexValue(v);
    var h := b[p..p + 4];
    assert b[p] == h[0] && b[p + 1] == h[1] && b[p + 2] == h[2] && b[p + 3] == h[3];
    HexCharDigit(d3);
    HexCharDigit(d2);
    HexCharDigit(d1);
    HexCharDigit(d0);
    assert h == [HexChar(d3), HexChar(d2), HexChar(d1), HexChar(d0)];
  }

  lemma HexValue(v: nat)
    ensures v == ((v / 0x1000 * 16 + v / 0x100 % 16) * 16 + v / 16 % 16) * 16 + v % 16
  {
    assert v / 16 / 16 == v / 0x100 && v / 0x100 / 16 == v / 0x1000;
  }

  lemma DigitsOfFour(b: string, p: int, d3: nat, d2: nat, d1: nat, d0: nat)
    requires FourAt(b, p, d3, d2, d1, d0)
    ensures Digits(b, p, 4, 0) == Scan(((d3 * 16 + d2) * 16 + d1) * 16 + d0, p + 4)
  {
    assert MostOf(0) == 0 && MostOf(1) == 16 && MostOf(2) == 272 && MostOf(3) == 4368 && MostOf(4) == 69904;
    var v2 := d3 * 16 + d2;
    var v1 := v2 * 16 + d1;
    assert Digits(b, p, 4, 0) == Digits(b, p + 1, 3, d3);
    assert Digits(b, p + 1, 3, d3) == Digits(b, p + 2, 2, v2);
    assert Digits(b, p + 2, 2, v2) == Digits(b, p + 3, 1, v1);
    assert Digits(b, p + 3, 1, v1) == Digits(b, p + 4, 0, v1 * 16 + d0);
  }

  // Four hexadecimal digits are read as the number they were printed from.
  lemma DigitsOfHex4(b: string, p: nat, v: nat)
    requires v < 0x1_0000 && p + 4 <= |b| && b[p..p + 4] == Hex4(v)
    ensures Digits(b, p, 4, 0) == Scan(v, p + 4)
  {
    var d3, d2, d1, d0 := HexAt(b, p, v);
    DigitsOfFour(b, p, d3, d2, d1, d0);
  }

  lemma LowDigitsOfFour(b: string, p: int, d3: nat, d2: nat, d1: nat, d0: nat, limit: int)
    requires FourAt(b, p, d3, d2, d1, d0) && p + 8 < limit
    ensures LowDigits(b, p, limit, 0, 0) == Scan(((d3 * 16 + d2) * 16 + d1) * 16 + d0, p + 4)
  {
    assert MostOf(0) == 0 && MostOf(1) == 16 && MostOf(2) == 272 && MostOf(3) == 4368 && MostOf(4) == 69904;
    var v2 := d3 * 16 + d2;
    var v1 := v2 * 16 + d1;
    assert LowDigits(b, p, limit, 0, 0) == LowDigits(b, p + 1, limit, 1, d3);
    assert LowDigits(b, p + 1, limit, 1, d3) == LowDigits(b, p + 2, limit, 2, v2);
    assert LowDigits(b, p + 2, limit, 2, v2) == LowDigits(b, p + 3, limit, 3, v1);
    assert LowDigits(b, p + 3, limit, 3, v1) == LowDigits(b, p + 4, limit, 4, v1 * 16 + d0);
  }

  // A low half is read whole only if five more bytes follow it before the limit.
  lemma LowDigitsOfHex4(b: string, p: nat, v: nat, limit: int)
    requires v < 0x1_0000 && p + 4 <= |b| && b[p..p + 4] == Hex4(v)
    ensures if p + 8 < limit then LowDigits(b, p, limit, 0, 0) == Scan(v, p + 4)
            else !LowHalf(LowDigits(b, p, limit, 0, 0).point)
  {
    if p + 8 < limit {
      var d3, d2, d1, d0 := HexAt(b, p, v);
      LowDigitsOfFour(b, p, d3, d2, d1, d0, limit);
    } else {
      NotWhole(b, p, limit, 0, 0);
      if LowHalf(LowDigits(b, p, limit, 0, 0).point) {
        LowHalfIsWhole(b, p, limit);
      }
    }
  }

  lemma {:induction false} NotWhole(b: string, p: int, limit: int, i: nat, point: nat)
    requires i <= 4 && point <= MostOf(i) && p + 8 - i >= limit
    ensures i < 4 ==> LowDigits(b, p, limit, i, point).next < p + 4 - i
    decreases 4 - i
  {
    var d := HexDigit(At(b, p));
    if i < 3 && p + 2 + i < limit && d != None {
      NotWhole(b, p + 1, limit, i + 1, WithDigit(point, d.value));
    }
  }

  // What is read of the escape of a point below 0x10000.
  lemma ReadsUnicode(b: string, p: nat, point: nat, limit: int, top: nat)
    requires Scalar(point) && point < 0x1_0000 && p + 6 <= |b| && b[p..p + 6] == UnicodeEscape(point)
    requires top == FIRST_TOP || top == SECOND_TOP
    ensures At(b, p) == '\\' && At(b, p + 1) == 'u'
    ensures var u := ReadUnicode(b, p, p + 2, limit, top); u.point == point && u.next == p + 6
  {
    Sliced(b, p, "\\u", Hex4(point), p + 6);
    assert b[p] == b[p..p + 2][0] && b[p + 1] == b[p..p + 2][1];
    DigitsOfHex4(b, p + 2, point);
  }

  // A pair of halves is only put together if the low half is at most 0xdcff, and
  // five more bytes follow it before the limit.
  predicate PairIsRead(point: nat, end: int, limit: int) {
    point % 0x400 <= 0xff && end + 4 < limit
  }

  lemma PairValue(point: nat)
    requires 0x1_0000 <= point <= 0x10ffff
    ensures var rest := point - 0x1_0000;
            && 0xd800 <= 0xd800 + rest / 0x400 < 0xdc00
            && (LowHalf(0xdc00 + rest % 0x400) <==> point % 0x400 <= 0xff)
            && Paired(0xd800 + rest / 0x400, 0xdc00 + rest % 0x400) == point
  {
  }

  lemma ReadsPair(b: string, p: nat, point: nat, limit: int, top: nat)
    requires Scalar(point) && 0x1_0000 <= point && p + 12 <= |b| && b[p..p + 12] == UnicodeEscape(point) && p + 12 <= limit
    requires top == FIRST_TOP || top == SECOND_TOP
    ensures At(b, p) == '\\' && At(b, p + 1) == 'u'
    ensures var u := ReadUnicode(b, p, p + 2, limit, top);
            if PairIsRead(point, p + 12, limit) then u.point == point && u.next == p + 12 else Surrogate(u.point)
  {
    var high, low := PairIsThere(b, p, point);
    DigitsOfHex4(b, p + 2, high);
    LowDigitsOfHex4(b, p + 8, low, limit);
  }

  // The parts of the escape of a pair.
  lemma PairIsThere(b: string, p: nat, point: nat) returns (high: nat, low: nat)
    requires Scalar(point) && 0x1_0000 <= point && p + 12 <= |b| && b[p..p + 12] == UnicodeEscape(point)
    ensures 0xd800 <= high < 0xdc00 <= low < 0xe000 && Paired(high, low) == point
    ensures LowHalf(low) <==> point % 0x400 <= 0xff
    ensures At(b, p) == '\\' && At(b, p + 1) == 'u' && b[p + 2..p + 6] == Hex4(high)
    ensures At(b, p + 6) == '\\' && At(b, p + 7) == 'u' && b[p + 8..p + 12] == Hex4(low)
  {
    var rest := point - 0x1_0000;
    high, low := 0xd800 + rest / 0x400, 0xdc00 + rest % 0x400;
    PairValue(point);
    var back := "\\u" + Hex4(low);
    assert UnicodeEscape(point) == "\\u" + (Hex4(high) + back);
    Sliced(b, p, "\\u", Hex4(high) + back, p + 12);
    Sliced(b, p + 2, Hex4(high), back, p + 12);
    Sliced(b, p + 6, "\\u", Hex4(low), p + 12);
    assert b[p] == b[p..p + 2][0] && b[p + 1] == b[p..p + 2][1];
    assert b[p + 6] == b[p + 6..p + 8][0] && b[p + 7] == b[p + 6..p + 8][1];
  }

  // The strings which survive: every point beyond 0xffff has a low half of at most
  // 0xdcff, and at least five bytes of escaped text follow it.
  predicate Survives(points: seq<nat>)
    requires Scalars(points)
  {
    points == [] ||
    (&& (points[0] >= 0x1_0000 ==> points[0] % 0x400 <= 0xff && |EscapeText(points[1..])| >= 5)
     && Survives(points[1..]))
  }

  // What the walks do with one escaped point, which ends at a position.
  predicate SecondReads(b: string, p: int, point: nat, end: int, quote: int)
    requires Scalar(point)
  {
    if point < 0x1_0000 || PairIsRead(point, end, quote)
    then Unescape(b, p, quote) == Prepend(Utf8Bytes(point), Unescape(b, end, quote))
    else Unescape(b, p, quote).Broken?
  }

  predicate FirstReads(b: string, p: int, point: nat, end: int, limit: int)
    requires Scalar(point)
  {
    LengthIsShortest(point);
    if point < 0x1_0000 || PairIsRead(point, end, limit)
    then Measure(b, p, limit) == More(PointLength(point), Measure(b, end, limit))
    else Measure(b, p, limit).Unclosed?
  }

  lemma PairIsReadBack(b: string, p: nat, point: nat, quote: nat, limit: int)
    requires Scalar(point) && 0x1_0000 <= point && quote < |b| && quote < limit
    requires p + 12 <= quote && b[p..p + 12] == UnicodeEscape(point)
    ensures SecondReads(b, p, point, p + 12, quote) && FirstReads(b, p, point, p + 12, limit)
  {
    LengthIsShortest(point);
    ReadsPair(b, p, point, quote, SECOND_TOP);
    ReadsPair(b, p, point, limit, FIRST_TOP);
  }

  lemma UnicodeIsReadBack(b: string, p: nat, point: nat, quote: nat, limit: int)
    requires Scalar(point) && point < 0x1_0000 && quote < |b| && quote < limit
    requires p + 6 <= quote && b[p..p + 6] == UnicodeEscape(point)
    ensures SecondReads(b, p, point, p + 6, quote) && FirstReads(b, p, point, p + 6, limit)
  {
    LengthIsShortest(point);
    ReadsUnicode(b, p, point, quote, SECOND_TOP);
    ReadsUnicode(b, p, point, limit, FIRST_TOP);
  }

  lemma ShortIsReadBack(b: string, p: nat, point: nat, quote: nat, limit: int)
    requires point < 0x80 && ShortEscape(point as char).Some? && quote < |b| && quote < limit
    requires p + 2 <= quote && b[p..p + 2] == ShortEscape(point as char).value
    ensures SecondReads(b, p, point, p + 2, quote) && FirstReads(b, p, point, p + 2, limit)
  {
    assert b[p] == b[p..p + 2][0] && b[p + 1] == b[p..p + 2][1];
    assert Utf8Bytes(point) == [point as char];
    assert Unescaped(b[p + 1]) == point as char;
  }

  lemma PlainIsReadBack(b: string, p: nat, point: nat, quote: nat, limit: int)
    requires 0x20 <= point < 0x80 && ShortEscape(point as char) == None && quote < |b| && quote < limit
    requires p + 1 <= quote && b[p] == point as char
    ensures SecondReads(b, p, point, p + 1, quote) && FirstReads(b, p, point, p + 1, limit)
  {
    assert Utf8Bytes(point) == [point as char];
  }

  // Both walks take one escaped point at a time.
  lemma PointIsRead(b: string, p: nat, point: nat, quote: nat, limit: int)
    requires Scalar(point) && quote < |b| && quote < limit
    requires p + |EscapePoint(point)| <= quote && b[p..p + |EscapePoint(point)|] == EscapePoint(point)
    ensures SecondReads(b, p, point, p + |EscapePoint(point)|, quote)
    ensures FirstReads(b, p, point, p + |EscapePoint(point)|, limit)
  {
    if point >= 0x1_0000 {
      PairIsReadBack(b, p, point, quote, limit);
    } else if point < 0x80 && ShortEscape(point as char).Some? {
      ShortIsReadBack(b, p, point, quote, limit);
    } else if 0x20 <= point < 0x80 {
      assert b[p] == b[p..p + 1][0];
      PlainIsReadBack(b, p, point, quote, limit);
    } else {
      UnicodeIsReadBack(b, p, point, quote, limit);
    }
  }

  // What the walks do with escaped text, which ends at its closing quote.
  predicate TextReads(b: string, p: int, points: seq<nat>, quote: int, limit: int)
    requires Scalars(points)
  {
    && (if Survives(points)
        then Unescape(b, p, quote) == Text(TextOf(points)) && Measure(b, p, limit) == Closed(quote, |TextOf(points)|)
        else Unescape(b, p, quote).Broken?)
    && (Measure(b, p, limit).Closed? ==> Measure(b, p, limit).quote == quote)
  }

  lemma PrependPoint(b: string, p: int, points: seq<nat>, end: int, quote: int, limit: int)
    requires Scalars(points) && points != [] && end + |EscapeText(points[1..])| == quote < limit
    requires SecondReads(b, p, points[0], end, quote) && FirstReads(b, p, points[0], end, limit)
    requires TextReads(b, end, points[1..], quote, limit)
    ensures TextReads(b, p, points, quote, limit)
  {
    var point := points[0];
    LengthIsShortest(point);
    if point < 0x1_0000 || PairIsRead(point, end, quote) {
      assert Survives(points) <==> Survives(points[1..]);
      assert TextOf(points) == Utf8Bytes(point) + TextOf(points[1..]);
    } else {
      assert !Survives(points);
    }
  }

  // The second walk over escaped text gives the text back exactly if it survives.
  lemma {:induction false} TextIsRead(b: string, p: nat, points: seq<nat>, quote: nat, limit: int)
    requires Scalars(points) && p <= quote < |b| && quote < limit && b[quote] == '"' && b[p..quote] == EscapeText(points)
    ensures TextReads(b, p, points, quote, limit)
    decreases |points|
  {
    if points != [] {
      var end := p + |EscapePoint(points[0])|;
      Sliced(b, p, EscapePoint(points[0]), EscapeText(points[1..]), quote);
      PointIsRead(b, p, points[0], quote, limit);
      TextIsRead(b, end, points[1..], quote, limit);
      PrependPoint(b, p, points, end, quote, limit);
    }
  }

  // The escaper never refuses valid text.
  lemma ValidTextIsQuoted(points: seq<nat>)
    requires Scalars(points)
    ensures Quoted(TextOf(points)) == Escaped("\"" + (EscapeText(points) + "\""))
  {
    var s := TextOf(points);
    assert s[0..] == s;
    EscapesText(s, 0, points);
  }

  // The parts of a quoted text.
  lemma QuotedStands(b: string, start: nat, end: nat, inner: string)
    requires start < end <= |b| && b[start..end] == "\"" + (inner + "\"")
    ensures start + 1 <= end - 1 && b[start] == '"' && b[end - 1] == '"' && b[start + 1..end - 1] == inner
  {
    Sliced(b, start, "\"", inner + "\"", end);
    Sliced(b, start + 1, inner, "\"", end);
    assert b[start] == b[start..start + 1][0] && b[end - 1] == b[end - 1..end][0];
  }

  // Reading an escaped string back: it gives the string and the position after its
  // closing quote exactly if the string survives, and otherwise nothing.
  lemma StringRoundTrip(b: string, start: nat, end: nat, limit: int, points: seq<nat>)
    requires Scalars(points) && start < end <= |b| && end <= limit
    requires Quoted(TextOf(points)).Escaped? && b[start..end] == Quoted(TextOf(points)).text
    ensures if Survives(points) then ReadString(b, start, limit) == Got(TextOf(points), end)
            else ReadString(b, start, limit).Lost?
  {
    ValidTextIsQuoted(points);
    QuotedStands(b, start, end, EscapeText(points));
    TextIsRead(b, start + 1, points, end - 1, limit);
  }

  // Both exceptions happen: a low half which is too high, and a short rest.
  lemma SomeStringsDoNotSurvive()
    ensures Scalars([0x1_03ff]) && !Survives([0x1_03ff])
    ensures Scalars([0x1_0000]) && !Survives([0x1_0000])
  {
    assert [0x1_0000][1..] == [];
  }
}
