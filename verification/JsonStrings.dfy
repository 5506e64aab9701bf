/**
 JSON strings: the escaper, and the unescaper, which walks the text twice: once to
 find the closing quote and count the bytes it will write, and once to write them.
 Both walks are given as functions of the text and a position in it.
 */
module JsonStrings {
  import opened Wrappers
  import opened Utf8

  const HEX_CHARS := "00112233445566778899AaBbCcDdEeFf"

  // Half the position strchr() finds in HEX_CHARS: looking for NUL finds the one
  // which ends it.
  function HexDigit(c: char): Option<nat> {
    if '0' <= c <= '9' then Some(c as nat - '0' as nat)
    else if 'A' <= c <= 'F' then Some(10 + c as nat - 'A' as nat)
    else if 'a' <= c <= 'f' then Some(10 + c as nat - 'a' as nat)
    else if c == '\0' then Some(16)
    else None
  }

  lemma HexDigitIsPosition(i: nat)
    requires i < 32
    ensures HexDigit(HEX_CHARS[i]) == Some(i / 2)
  {
    hide HexDigit;
    if i < 20 {
      DecimalPosition(i);
    } else {
      LetterPosition(i);
    }
  }

  lemma DecimalPosition(i: nat)
    requires i < 20
    ensures HexDigit(HEX_CHARS[i]) == Some(i / 2)
  {
    assert HEX_CHARS[i] as nat - '0' as nat == i / 2;
  }

  lemma LetterPosition(i: nat)
    requires 20 <= i < 32
    ensures HexDigit(HEX_CHARS[i]) == Some(i / 2)
  {
    assert HEX_CHARS[i] as nat == (if i % 2 == 0 then 'A' as nat else 'a' as nat) + i / 2 - 10;
  }

  // (point << 4) | d, where d may be 16.
  function WithDigit(point: nat, d: nat): nat {
    if d < 16 || point % 2 == 0 then point * 16 + d else point * 16
  }

  datatype Scan = Scan(point: nat, next: int)

  // The largest point k digits can make.
  function MostOf(k: nat): nat {
    if k == 0 then 0 else 16 * MostOf(k - 1) + 16
  }

  // Up to n more digits from position p on.
  function Digits(b: string, p: int, n: nat, point: nat): (r: Scan)
    requires n <= 4 && point <= MostOf(4 - n)
    ensures p <= r.next <= p + n && r.point <= MostOf(4)
    decreases n
  {
    var d := HexDigit(At(b, p));
    if n == 0 || d == None then
      assert MostOf(4) == 16 * MostOf(3) + 16 && MostOf(3) == 16 * MostOf(2) + 16 && MostOf(2) == 16 * MostOf(1) + 16;
      Scan(point, p)
    else Digits(b, p + 1, n - 1, WithDigit(point, d.value))
  }

  // The digits of a low half: each is only read with as many bytes again, and two
  // more, between it and the limit.
  function LowDigits(b: string, p: int, limit: int, i: nat, point: nat): (r: Scan)
    requires i <= 4 && point <= MostOf(i)
    ensures p <= r.next <= p + 4 - i && r.point <= MostOf(i + (r.next - p))
    decreases 4 - i
  {
    var d := HexDigit(At(b, p));
    if i == 4 || p + 2 + i >= limit || d == None then Scan(point, p)
    else LowDigits(b, p + 1, limit, i + 1, WithDigit(point, d.value))
  }

  function Paired(high: nat, low: nat): nat {
    (high % 0x400) * 0x400 + low % 0x400 + 0x1_0000
  }

  predicate LowHalf(point: nat) {
    0xdc00 <= point <= 0xdcff
  }

  // A \u escape whose digits start at p: its point, where it ends, and where the
  // reader goes back to if the point is no good.
  datatype Unicode = Unicode(point: nat, next: int, back: int)

  // The first walk asks for a low half after anything below 0xdc000, the second
  // only after anything below 0xdc00.
  const FIRST_TOP := 0xdc000
  const SECOND_TOP := 0xdc00

  predicate AnotherEscape(b: string, p: int, limit: int) {
    p + 2 < limit && At(b, p) == '\\' && At(b, p + 1) == 'u'
  }

  function ReadUnicode(b: string, start: int, p: int, limit: int, top: nat): (r: Unicode)
    ensures r.next >= p && r.point < 0x11_0000 && (start <= p ==> start <= r.back)
  {
    assert MostOf(4) == 16 * MostOf(3) + 16 && MostOf(3) == 16 * MostOf(2) + 16 && MostOf(2) == 16 * MostOf(1) + 16;
    var high := Digits(b, p, 4, 0);
    if 0xd800 <= high.point < top && AnotherEscape(b, high.next, limit) then
      var low := LowDigits(b, high.next + 2, limit, 0, 0);
      if high.point < 0xdc00 && LowHalf(low.point) then Unicode(Paired(high.point, low.point), low.next, high.next)
      else Unicode(high.point, high.next, high.next)
    else Unicode(high.point, high.next, start)
  }

  // The first walk: the closing quote and the number of bytes before it, or where
  // the text went wrong.
  datatype Measured = Closed(quote: int, room: nat) | Unclosed(next: int)

  function More(n: nat, m: Measured): Measured {
    match m
    case Closed(q, room) => Closed(q, n + room)
    case Unclosed(_) => m
  }

  function Measure(b: string, p: int, limit: int): (r: Measured)
    ensures if r.Closed? then p <= r.quote < limit && At(b, r.quote) == '"' else p <= r.next
    decreases limit - p
  {
    if p >= limit then Unclosed(p)
    else if At(b, p) == '"' then Closed(p, 0)
    else if At(b, p) == '\\' then
      if At(b, p + 1) == 'u' then
        var u := ReadUnicode(b, p, p + 2, limit, FIRST_TOP);
        if PointLength(u.point) < 0 then Unclosed(u.back)
        else More(PointLength(u.point), Measure(b, u.next, limit))
      else More(1, Measure(b, p + 2, limit))
    else More(1, Measure(b, p + 1, limit))
  }

  // What an escaped character other than u stands for.
  function Unescaped(c: char): char {
    match c
    case 'b' => 8 as char
    case 'f' => 12 as char
    case 'n' => '\n'
    case 'r' => '\r'
    case 't' => '\t'
    case _ => c
  }

  // The second walk: the text it writes, or where it went wrong.
  datatype Written = Text(s: string) | Broken(next: int)

  function Prepend(s: string, w: Written): Written {
    match w
    case Text(t) => Text(s + t)
    case Broken(_) => w
  }

  function Unescape(b: string, p: int, limit: int): (r: Written)
    ensures r.Broken? ==> p <= r.next
    decreases limit - p
  {
    if p >= limit then Text("")
    else if At(b, p) == '\\' then
      if At(b, p + 1) == 'u' then
        var u := ReadUnicode(b, p, p + 2, limit, SECOND_TOP);
        if !Encodable(u.point) then Broken(u.back)
        else Prepend(Utf8Bytes(u.point), Unescape(b, u.next, limit))
      else Prepend([Unescaped(At(b, p + 1))], Unescape(b, p + 2, limit))
    else Prepend([At(b, p)], Unescape(b, p + 1, limit))
  }

  // A quoted string read from its opening quote on: the string and the position
  // after its closing quote, or NULL and where to go on.
  datatype StringRead = Got(s: string, next: int) | Lost(next: int)

  function ReadString(b: string, start: int, limit: int): (r: StringRead)
    ensures r.next >= start && (r.Got? ==> start < r.next <= limit)
  {
    if At(b, start) != '"' then Lost(start)
    else
      match Measure(b, start + 1, limit)
      case Unclosed(next) => Lost(next)
      case Closed(quote, _) =>
        match Unescape(b, start + 1, quote)
        case Text(s) => Got(s, quote + 1)
        case Broken(next) => Lost(next)
  }

  lemma WithinMost(c: char, i: nat, point: nat)
    requires point <= MostOf(i) && HexDigit(c).Some?
    ensures WithDigit(point, HexDigit(c).value) <= MostOf(i + 1)
  {
  }

  // With a nearer limit fewer digits of a low half may be read; if all four are,
  // the limit made no difference.
  lemma {:induction false} LimitsAgree(b: string, p: int, near: int, far: int, i: nat, point: nat)
    requires i <= 4 && point <= MostOf(i) && near <= far
    ensures LowDigits(b, p, near, i, point).next == p + 4 - i ==>
              LowDigits(b, p, far, i, point) == LowDigits(b, p, near, i, point)
    decreases 4 - i
  {
    hide HexDigit, WithDigit, MostOf;
    var d := HexDigit(At(b, p));
    if i < 4 && p + 2 + i < near && d != None {
      WithinMost(At(b, p), i, point);
      LimitsAgree(b, p + 1, near, far, i + 1, WithDigit(point, d.value));
    }
  }

  // A low half has four digits.
  lemma LowHalfIsWhole(b: string, p: int, limit: int)
    requires LowHalf(LowDigits(b, p, limit, 0, 0).point)
    ensures LowDigits(b, p, limit, 0, 0).next == p + 4
  {
    assert MostOf(3) == 16 * MostOf(2) + 16 && MostOf(2) == 16 * MostOf(1) + 16 && MostOf(1) == 16;
  }

  lemma PairsAgree(b: string, p: int, near: int, far: int)
    requires near <= far && LowHalf(LowDigits(b, p, near, 0, 0).point)
    ensures LowDigits(b, p, far, 0, 0) == LowDigits(b, p, near, 0, 0)
  {
    LowHalfIsWhole(b, p, near);
    LimitsAgree(b, p, near, far, 0, 0);
  }

  // If the second walk accepts an escape, the first walk read the same.
  lemma WalksAgree(b: string, start: int, p: int, near: int, far: int)
    requires near <= far
    requires PointLength(ReadUnicode(b, start, p, far, FIRST_TOP).point) >= 0
    requires Encodable(ReadUnicode(b, start, p, near, SECOND_TOP).point)
    ensures ReadUnicode(b, start, p, far, FIRST_TOP).point == ReadUnicode(b, start, p, near, SECOND_TOP).point
    ensures ReadUnicode(b, start, p, far, FIRST_TOP).next == ReadUnicode(b, start, p, near, SECOND_TOP).next
  {
    var high := Digits(b, p, 4, 0);
    if Surrogate(high.point) {
      PairsAgree(b, high.next + 2, near, far);
    }
  }

  // The second walk, if it succeeds, writes exactly the bytes the first counted.
  lemma {:induction false} TwoWalks(b: string, p: int, limit: int)
    requires Measure(b, p, limit).Closed?
    requires Unescape(b, p, Measure(b, p, limit).quote).Text?
    ensures |Unescape(b, p, Measure(b, p, limit).quote).s| == Measure(b, p, limit).room
    decreases limit - p
  {
    var quote := Measure(b, p, limit).quote;
    if At(b, p) == '"' {
    } else if At(b, p) == '\\' {
      if At(b, p + 1) == 'u' {
        WalksAgree(b, p, p + 2, quote, limit);
        TwoWalks(b, ReadUnicode(b, p, p + 2, limit, FIRST_TOP).next, limit);
      } else {
        TwoWalks(b, p + 2, limit);
      }
    } else {
      TwoWalks(b, p + 1, limit);
    }
  }

  // What may be read: a byte after the limit, and four bytes after every \u.
  predicate Readable(b: string, limit: int) {
    && limit < |b|
    && forall i :: 0 <= i < limit && b[i] == '\\' && b[i + 1] == 'u' ==> i + 6 <= |b|
  }

  method ReadDigits(b: string, p: nat) returns (point: nat, next: nat)
    requires p + 4 <= |b|
    ensures Scan(point, next) == Digits(b, p, 4, 0)
  {
    next, point := p, 0;
    for i := 0 to 4
      invariant p <= next <= p + i && 0 <= point <= MostOf(i)
      invariant Digits(b, next, 4 - i, point) == Digits(b, p, 4, 0)
    {
      var hex := HexDigit(b[next]);
      if hex == None {
        break;
      }
      point := WithDigit(point, hex.value);
      next := next + 1;
    }
  }

  method ReadLowDigits(b: string, p: nat, limit: nat) returns (point: nat, next: nat)
    requires limit < |b|
    ensures Scan(point, next) == LowDigits(b, p, limit, 0, 0)
  {
    next, point := p, 0;
    for i := 0 to 4
      invariant p <= next <= p + i && 0 <= point <= MostOf(i)
      invariant LowDigits(b, next, limit, i, point) == LowDigits(b, p, limit, 0, 0)
    {
      if next + 2 + i >= limit {
        break;
      }
      var hex := HexDigit(b[next]);
      if hex == None {
        break;
      }
      point := WithDigit(point, hex.value);
      next := next + 1;
    }
  }

  method ReadUnicodeAt(b: string, start: nat, p: nat, limit: nat, top: nat) returns (point: nat, next: nat, back: nat)
    requires limit < |b| && p + 4 <= |b|
    ensures Unicode(point, next, back) == ReadUnicode(b, start, p, limit, top)
  {
    hide Digits, LowDigits, ReadUnicode, Paired, AnotherEscape;
    back := start;
    point, next := ReadDigits(b, p);
    ghost var high, after := point, next;
    AnotherEscapeAt(b, next, limit);
    if point >= 0xd800 && point < top && next + 2 < limit && b[next] == '\\' && b[next + 1] == 'u' {
      back := next;
      var low;
      low, next := ReadLowDigits(b, next + 2, limit);
      if point >= 0xd800 && point < 0xdc00 && low >= 0xdc00 && low <= 0xdcff {
        point := Paired(point, low);
      } else {
        next := back;
      }
      LowHalfStep(b, start, p, limit, top, high, after);
    } else {
      HighHalfStep(b, start, p, limit, top, high, after);
    }
  }

  lemma AnotherEscapeAt(b: string, p: nat, limit: nat)
    requires limit < |b|
    ensures AnotherEscape(b, p, limit) <==> p + 2 < limit && b[p] == '\\' && b[p + 1] == 'u'
  {
  }

  // What is made of one escape.
  lemma HighHalfStep(b: string, start: nat, p: nat, limit: nat, top: nat, high: nat, after: nat)
    requires Digits(b, p, 4, 0) == Scan(high, after) && !(0xd800 <= high < top && AnotherEscape(b, after, limit))
    ensures ReadUnicode(b, start, p, limit, top) == Unicode(high, after, start)
  {
    hide Digits, LowDigits;
  }

  // What is made of two escapes in a row.
  lemma LowHalfStep(b: string, start: nat, p: nat, limit: nat, top: nat, high: nat, after: nat)
    requires Digits(b, p, 4, 0) == Scan(high, after) && 0xd800 <= high < top && AnotherEscape(b, after, limit)
    ensures var low := LowDigits(b, after + 2, limit, 0, 0);
            ReadUnicode(b, start, p, limit, top) ==
              if high < 0xdc00 && LowHalf(low.point) then Unicode(Paired(high, low.point), low.next, after)
              else Unicode(high, after, after)
  {
    hide Digits, LowDigits;
  }

  lemma MoreTwice(n: nat, m: nat, x: Measured)
    ensures More(n, More(m, x)) == More(n + m, x)
  {
  }

  lemma MeasureStep(b: string, p: nat, limit: nat)
    requires p < limit < |b|
    ensures Measure(b, p, limit) ==
              if b[p] == '"' then Closed(p, 0)
              else if b[p] != '\\' then More(1, Measure(b, p + 1, limit))
              else if b[p + 1] != 'u' then More(1, Measure(b, p + 2, limit))
              else
                var u := ReadUnicode(b, p, p + 2, limit, FIRST_TOP);
                if PointLength(u.point) < 0 then Unclosed(u.back)
                else More(PointLength(u.point), Measure(b, u.next, limit))
  {
    hide ReadUnicode, PointLength;
  }

  // The first walk over one \u escape: the bytes it stands for and where it ends, or
  // nothing and where the walk goes back to.
  method MeasureUnicode(b: string, p: nat, limit: nat) returns (i: int, next: nat)
    requires Readable(b, limit) && p < limit && b[p] == '\\' && b[p + 1] == 'u'
    ensures next >= p && (i >= 0 ==> next > p)
    ensures Measure(b, p, limit) == if i < 0 then Unclosed(next) else More(i, Measure(b, next, limit))
  {
    hide ReadUnicode, Measure;
    MeasureStep(b, p, limit);
    var point, after, back := ReadUnicodeAt(b, p, p + 2, limit, FIRST_TOP);
    i := PointToUtf8Length(point);
    next := if i < 0 then back else after;
  }

  // The first walk over a string, from after its opening quote on.
  method FindClosingQuote(b: string, s: nat, limit: nat) returns (closed: bool, quote: nat, room: nat, next: nat)
    requires Readable(b, limit) && s <= limit
    ensures match Measure(b, s, limit)
            case Closed(q, n) => closed && quote == q && room == n && next == q + 1
            case Unclosed(n) => !closed && next == n
  {
    hide ReadUnicode, PointLength;
    var p := s;
    closed, quote, room, next := false, 0, 0, s;
    while p < limit
      invariant s <= p
      invariant More(room, Measure(b, p, limit)) == Measure(b, s, limit)
    {
      var i, after := 1, p + 1;
      if b[p] == '"' {
        MeasureStep(b, p, limit);
        return true, p, room, p + 1;
      } else if b[p] == '\\' {
        if b[p + 1] == 'u' {
          i, after := MeasureUnicode(b, p, limit);
          if i < 0 {
            return false, 0, 0, after;
          }
        } else {
          MeasureStep(b, p, limit);
          after := p + 2;
        }
      } else {
        MeasureStep(b, p, limit);
      }
      MoreTwice(room, i, Measure(b, after, limit));
      room, p := room + i, after;
    }
    next := p;
  }

  lemma PrependTwice(s: string, t: string, w: Written)
    ensures Prepend(s, Prepend(t, w)) == Prepend(s + t, w)
  {
    if w.Text? {
      assert s + (t + w.s) == s + t + w.s;
    }
  }

  // Where the second walk is in step with the first, there is room in the buffer
  // for the next byte, or for the bytes of the next point.
  lemma RoomIsLeft(b: string, p: int, limit: int, quote: int, room: nat)
    requires Measure(b, p, limit) == Closed(quote, room) && p < quote
    ensures At(b, p) != '\\' || At(b, p + 1) != 'u' ==> room >= 1
    ensures At(b, p) != '\\' ==> Measure(b, p + 1, limit) == Closed(quote, room - 1)
    ensures At(b, p) == '\\' && At(b, p + 1) != 'u' ==> Measure(b, p + 2, limit) == Closed(quote, room - 1)
    ensures At(b, p) == '\\' && At(b, p + 1) == 'u' ==>
              var u := ReadUnicode(b, p, p + 2, quote, SECOND_TOP);
              Encodable(u.point) ==>
                PointLength(u.point) <= room && Measure(b, u.next, limit) == Closed(quote, room - PointLength(u.point))
  {
    if At(b, p) == '\\' && At(b, p + 1) == 'u' {
      UnicodeRoomIsLeft(b, p, limit, quote, room);
    }
  }

  lemma MeasureUnicodeStep(b: string, p: int, limit: int)
    requires p < limit && At(b, p) == '\\' && At(b, p + 1) == 'u'
    ensures var u := ReadUnicode(b, p, p + 2, limit, FIRST_TOP);
            Measure(b, p, limit) ==
              if PointLength(u.point) < 0 then Unclosed(u.back) else More(PointLength(u.point), Measure(b, u.next, limit))
  {
    hide ReadUnicode, PointLength;
  }

  lemma UnicodeRoomIsLeft(b: string, p: int, limit: int, quote: int, room: nat)
    requires Measure(b, p, limit) == Closed(quote, room) && p < quote && At(b, p) == '\\' && At(b, p + 1) == 'u'
    ensures var u := ReadUnicode(b, p, p + 2, quote, SECOND_TOP);
            Encodable(u.point) ==>
              PointLength(u.point) <= room && Measure(b, u.next, limit) == Closed(quote, room - PointLength(u.point))
  {
    hide ReadUnicode, PointLength, Encodable;
    MeasureUnicodeStep(b, p, limit);
    if Encodable(ReadUnicode(b, p, p + 2, quote, SECOND_TOP).point) {
      WalksAgree(b, p, p + 2, quote, limit);
    }
  }

  // Append the bytes of a point, or one byte, to the first q bytes of a buffer.
  method PutPoint(point: nat, buffer: array<char>, q: nat) returns (i: int)
    requires q <= buffer.Length && point < 0x11_0000
    requires Encodable(point) ==> q + PointLength(point) <= buffer.Length
    modifies buffer
    ensures i >= 0 <==> Encodable(point)
    ensures i >= 0 ==> i == PointLength(point) && buffer[..q + i] == old(buffer[..q]) + Utf8Bytes(point)
  {
    i := PointToUtf8(point, buffer, q, buffer.Length - q);
    if i >= 0 {
      assert buffer[..q] == old(buffer[..q]);
      assert buffer[..q + i] == buffer[..q] + buffer[q..q + i];
    }
  }

  method PutByte(c: char, buffer: array<char>, q: nat)
    requires q < buffer.Length
    modifies buffer
    ensures buffer[..q + 1] == old(buffer[..q]) + [c]
  {
    buffer[q] := c;
  }

  // The second walk, in step with the first, with q of the room bytes written.
  predicate InStep(b: string, p: int, limit: int, quote: int, room: nat, q: int) {
    0 <= q <= room && Measure(b, p, limit) == Closed(quote, room - q)
  }

  method WriteUnicode(b: string, p: nat, quote: nat, room: nat, ghost limit: nat, buffer: array<char>, q: nat)
    returns (ok: bool, p1: nat, q1: nat, back: int)
    requires Readable(b, limit) && InStep(b, p, limit, quote, room, q) && p < quote
    requires b[p] == '\\' && b[p + 1] == 'u' && buffer.Length == room + 1
    modifies buffer
    ensures !ok ==> Unescape(b, p, quote) == Broken(back)
    ensures ok ==> p < p1 && InStep(b, p1, limit, quote, room, q1)
                   && Prepend(buffer[..q1], Unescape(b, p1, quote)) == Prepend(old(buffer[..q]), Unescape(b, p, quote))
  {
    hide Measure, ReadUnicode, PointLength, Utf8Bytes;
    RoomIsLeft(b, p, limit, quote, room - q);
    var point;
    point, p1, back := ReadUnicodeAt(b, p, p + 2, quote, SECOND_TOP);
    var i := PutPoint(point, buffer, q);
    if i < 0 {
      return false, p, q, back;
    }
    q1 := q + i;
    ok := true;
    PrependTwice(old(buffer[..q]), Utf8Bytes(point), Unescape(b, p1, quote));
  }

  method WritePlain(b: string, p: nat, quote: nat, room: nat, ghost limit: nat, buffer: array<char>, q: nat)
    returns (p1: nat, q1: nat)
    requires Readable(b, limit) && InStep(b, p, limit, quote, room, q) && p < quote
    requires b[p] != '\\' || b[p + 1] != 'u'
    requires buffer.Length == room + 1
    modifies buffer
    ensures p < p1 && InStep(b, p1, limit, quote, room, q1)
    ensures Prepend(buffer[..q1], Unescape(b, p1, quote)) == Prepend(old(buffer[..q]), Unescape(b, p, quote))
  {
    RoomIsLeft(b, p, limit, quote, room - q);
    var c := b[p];
    p1 := p;
    if c == '\\' {
      c := Unescaped(b[p + 1]);
      p1 := p + 1;
    }
    PutByte(c, buffer, q);
    q1 := q + 1;
    p1 := p1 + 1;
    PrependTwice(old(buffer[..q]), [c], Unescape(b, p1, quote));
  }

  // The second walk: the bytes go into a buffer with room for exactly those the
  // first walk counted, and for a NUL; every write stays inside.
  method WriteString(b: string, s: nat, quote: nat, room: nat, ghost limit: nat) returns (ret: Option<string>, next: int)
    requires Readable(b, limit) && Measure(b, s, limit) == Closed(quote, room) && s <= quote
    ensures match Unescape(b, s, quote)
            case Text(t) => ret == Some(t) && next == quote + 1
            case Broken(n) => ret == None && next == n
  {
    var buffer := new char[room + 1];
    next := quote + 1;
    var p: nat, q: nat := s, 0;
    assert Prepend(buffer[..0], Unescape(b, s, quote)) == Unescape(b, s, quote);
    while p < quote
      invariant InStep(b, p, limit, quote, room, q)
      invariant Prepend(buffer[..q], Unescape(b, p, quote)) == Unescape(b, s, quote)
      decreases quote - p
    {
      if b[p] == '\\' && b[p + 1] == 'u' {
        var ok, back;
        ok, p, q, back := WriteUnicode(b, p, quote, room, limit, buffer, q);
        if !ok {
          return None, back;
        }
      } else {
        p, q := WritePlain(b, p, quote, room, limit, buffer, q);
      }
    }
    ret := Some(buffer[..q]);
    assert buffer[..q] + "" == buffer[..q];
    PutByte('\0', buffer, q);
  }

  method DecodeString(b: string, start: nat, limit: nat) returns (ret: Option<string>, next: int)
    requires Readable(b, limit) && start < limit
    ensures match ReadString(b, start, limit)
            case Got(t, n) => ret == Some(t) && next == n
            case Lost(n) => ret == None && next == n
  {
    if b[start] != '"' {
      return None, start;
    }
    var closed, quote, room;
    closed, quote, room, next := FindClosingQuote(b, start + 1, limit);
    if !closed {
      return None, next;
    }
    ret, next := WriteString(b, start + 1, quote, room, limit);
  }
}
