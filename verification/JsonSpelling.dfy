/**
 What every way of spelling a JSON string means, the printer's own and the others:
 plain bytes, escaped characters, escaped points and pairs of halves.
 */
module JsonSpelling {
  import opened Wrappers
  import opened Utf8
  import opened JsonStrings
  import opened JsonStringTrips

  // One piece of a string: a byte as it is, a backslash and a byte other than u, or one or
  // two escapes of four digits.
  datatype Piece =
    | Plain(c: char)
    | Escaped(c: char)
    | OnePoint(digits: string)
    | TwoHalves(high: string, low: string)

  function Spelled(x: Piece): string {
    match x
    case Plain(c) => [c]
    case Escaped(c) => ['\\', c]
    case OnePoint(digits) => "\\u" + digits
    case TwoHalves(high, low) => "\\u" + high + "\\u" + low
  }

  predicate FourDigits(d: string) {
    |d| == 4 && forall i :: 0 <= i < 4 ==> '0' <= d[i] <= '9' || 'A' <= d[i] <= 'F' || 'a' <= d[i] <= 'f'
  }

  function DigitValue(c: char): nat
    requires '0' <= c <= '9' || 'A' <= c <= 'F' || 'a' <= c <= 'f'
  {
    if c <= '9' then c as nat - 48 else if c <= 'F' then c as nat - 55 else c as nat - 87
  }

  function ValueOf(d: string): nat
    requires FourDigits(d)
  {
    DigitValue(d[0]) * 4096 + DigitValue(d[1]) * 256 + DigitValue(d[2]) * 16 + DigitValue(d[3])
  }

  // A piece which means something with that many bytes between it and the closing quote.
  // A pair needs five of them, and its low half may not be above dcff.
  predicate Proper(x: Piece, after: int) {
    match x
    case Plain(c) => c != '"' && c != '\\'
    case Escaped(c) => c != 'u'
    case OnePoint(d) => FourDigits(d) && !(0xd800 <= ValueOf(d) <= 0xdfff)
    case TwoHalves(high, low) =>
      && FourDigits(high) && FourDigits(low)
      && 0xd800 <= ValueOf(high) <= 0xdbff && 0xdc00 <= ValueOf(low) <= 0xdcff && after >= 5
  }

  // What it means.
  function Meaning(x: Piece, after: int): string
    requires Proper(x, after)
  {
    match x
    case Plain(c) => [c]
    case Escaped(c) =>
      [if c == 'b' then 8 as char else if c == 't' then 9 as char else if c == 'n' then 10 as char
       else if c == 'f' then 12 as char else if c == 'r' then 13 as char else c]
    case OnePoint(d) => Utf8Bytes(ValueOf(d))
    case TwoHalves(high, low) =>
      PairInRange(ValueOf(high), ValueOf(low));
      Utf8Bytes(0x1_0000 + (ValueOf(high) - 0xd800) * 1024 + (ValueOf(low) - 0xdc00))
  }

  lemma PairInRange(high: int, low: int)
    requires 0xd800 <= high <= 0xdbff && 0xdc00 <= low <= 0xdcff
    ensures 0x1_0000 <= 0x1_0000 + (high - 0xd800) * 1024 + (low - 0xdc00) <= 0x10_ffff
  {
  }

  function SpellAll(xs: seq<Piece>): string {
    if xs == [] then "" else Spelled(xs[0]) + SpellAll(xs[1..])
  }

  predicate AllProper(xs: seq<Piece>) {
    xs == [] || (Proper(xs[0], |SpellAll(xs[1..])|) && AllProper(xs[1..]))
  }

  function MeaningOfAll(xs: seq<Piece>): string
    requires AllProper(xs)
  {
    if xs == [] then "" else Meaning(xs[0], |SpellAll(xs[1..])|) + MeaningOfAll(xs[1..])
  }

  // Both walks read what is spelled from p on, and go on behind it.
  predicate IsRead(b: string, p: int, s: string, end: int, quote: int, limit: int) {
    && Unescape(b, p, quote) == Prepend(s, Unescape(b, end, quote))
    && Measure(b, p, limit) == More(|s|, Measure(b, end, limit))
  }

  lemma DigitsAreThere(b: string, p: nat, d: string)
    requires FourDigits(d) && p + 4 <= |b| && b[p..p + 4] == d
    ensures FourAt(b, p, DigitValue(d[0]), DigitValue(d[1]), DigitValue(d[2]), DigitValue(d[3]))
  {
    assert b[p] == d[0] && b[p + 1] == d[1] && b[p + 2] == d[2] && b[p + 3] == d[3];
  }

  lemma DigitsAreRead(b: string, p: nat, d: string)
    requires FourDigits(d) && p + 4 <= |b| && b[p..p + 4] == d
    ensures Digits(b, p, 4, 0) == Scan(ValueOf(d), p + 4)
  {
    hide Digits, FourAt, DigitValue;
    DigitsAreThere(b, p, d);
    DigitsOfFour(b, p, DigitValue(d[0]), DigitValue(d[1]), DigitValue(d[2]), DigitValue(d[3]));
  }

  lemma LowDigitsAreRead(b: string, p: nat, d: string, limit: int)
    requires FourDigits(d) && p + 4 <= |b| && b[p..p + 4] == d && p + 8 < limit
    ensures LowDigits(b, p, limit, 0, 0) == Scan(ValueOf(d), p + 4)
  {
    hide LowDigits, FourAt, DigitValue;
    DigitsAreThere(b, p, d);
    LowDigitsOfFour(b, p, DigitValue(d[0]), DigitValue(d[1]), DigitValue(d[2]), DigitValue(d[3]), limit);
  }

  lemma OnePointIsUnicode(b: string, p: nat, d: string, limit: int, top: nat)
    requires FourDigits(d) && !(0xd800 <= ValueOf(d) <= 0xdfff) && p + 6 <= |b| && b[p + 2..p + 6] == d
    requires top == FIRST_TOP || top == SECOND_TOP
    ensures var u := ReadUnicode(b, p, p + 2, limit, top); u.point == ValueOf(d) && u.next == p + 6
  {
    hide Digits, LowDigits, ValueOf, FourDigits, AnotherEscape;
    DigitsAreRead(b, p + 2, d);
  }

  lemma TwoHalvesAreUnicode(b: string, p: nat, high: string, low: string, limit: int, top: nat)
    requires FourDigits(high) && FourDigits(low) && 0xd800 <= ValueOf(high) <= 0xdbff && 0xdc00 <= ValueOf(low) <= 0xdcff
    requires p + 12 <= |b| && p + 16 < limit && b[p + 2..p + 6] == high && b[p + 6] == '\\' && b[p + 7] == 'u' && b[p + 8..p + 12] == low
    requires top == FIRST_TOP || top == SECOND_TOP
    ensures var u := ReadUnicode(b, p, p + 2, limit, top);
            u.point == 0x1_0000 + (ValueOf(high) - 0xd800) * 1024 + (ValueOf(low) - 0xdc00) && u.next == p + 12
  {
    hide Digits, LowDigits, ValueOf, FourDigits;
    DigitsAreRead(b, p + 2, high);
    LowDigitsAreRead(b, p + 8, low, limit);
  }

  // A \u escape which both walks read as the same point.
  lemma UnicodeIsRead(b: string, p: nat, point: nat, end: nat, quote: nat, limit: int)
    requires Encodable(point) && p < quote < |b| && quote < limit && At(b, p) == '\\' && At(b, p + 1) == 'u'
    requires var u := ReadUnicode(b, p, p + 2, quote, SECOND_TOP); u.point == point && u.next == end
    requires var u := ReadUnicode(b, p, p + 2, limit, FIRST_TOP); u.point == point && u.next == end
    ensures IsRead(b, p, Utf8Bytes(point), end, quote, limit)
  {
    hide ReadUnicode, PointLength, Utf8Bytes;
  }

  lemma PieceIsRead(b: string, p: nat, x: Piece, quote: nat, limit: int)
    requires var end := p + |Spelled(x)|;
             Proper(x, quote - end) && end <= quote < |b| && quote < limit && b[p..end] == Spelled(x)
    ensures IsRead(b, p, Meaning(x, quote - (p + |Spelled(x)|)), p + |Spelled(x)|, quote, limit)
  {
    hide ReadUnicode, Utf8Bytes, PointLength, ValueOf;
    match x
    case Plain(c) => assert b[p] == b[p..p + 1][0];
    case Escaped(c) => assert b[p] == b[p..p + 2][0] && b[p + 1] == b[p..p + 2][1];
    case OnePoint(d) => OnePointIsRead(b, p, d, quote, limit);
    case TwoHalves(high, low) => TwoHalvesAreRead(b, p, high, low, quote, limit);
  }

  lemma OnePointIsRead(b: string, p: nat, d: string, quote: nat, limit: int)
    requires FourDigits(d) && !(0xd800 <= ValueOf(d) <= 0xdfff)
    requires p + 6 <= quote < |b| && quote < limit && b[p..p + 6] == "\\u" + d
    ensures IsRead(b, p, Utf8Bytes(ValueOf(d)), p + 6, quote, limit)
  {
    hide ReadUnicode, Utf8Bytes, ValueOf, IsRead;
    Sliced(b, p, "\\u", d, p + 6);
    assert b[p] == b[p..p + 2][0] && b[p + 1] == b[p..p + 2][1];
    OnePointIsUnicode(b, p, d, quote, SECOND_TOP);
    OnePointIsUnicode(b, p, d, limit, FIRST_TOP);
    UnicodeIsRead(b, p, ValueOf(d), p + 6, quote, limit);
  }

  lemma TwoHalvesAreRead(b: string, p: nat, high: string, low: string, quote: nat, limit: int)
    requires Proper(TwoHalves(high, low), quote - (p + 12))
    requires p + 12 <= quote < |b| && quote < limit && b[p..p + 12] == "\\u" + high + "\\u" + low
    ensures IsRead(b, p, Meaning(TwoHalves(high, low), quote - (p + 12)), p + 12, quote, limit)
  {
    hide ReadUnicode, Utf8Bytes, ValueOf, IsRead;
    Sliced(b, p, "\\u" + high + "\\u", low, p + 12);
    Sliced(b, p, "\\u" + high, "\\u", p + 8);
    Sliced(b, p, "\\u", high, p + 6);
    assert b[p] == b[p..p + 2][0] && b[p + 1] == b[p..p + 2][1];
    assert b[p + 6] == b[p + 6..p + 8][0] && b[p + 7] == b[p + 6..p + 8][1];
    TwoHalvesAreUnicode(b, p, high, low, quote, SECOND_TOP);
    TwoHalvesAreUnicode(b, p, high, low, limit, FIRST_TOP);
    PairInRange(ValueOf(high), ValueOf(low));
    UnicodeIsRead(b, p, 0x1_0000 + (ValueOf(high) - 0xd800) * 1024 + (ValueOf(low) - 0xdc00), p + 12, quote, limit);
  }

  // Where the string is read up to its closing quote both walks end.
  lemma NothingIsLeft(b: string, quote: nat, limit: int)
    requires quote < |b| && quote < limit && b[quote] == '"'
    ensures Unescape(b, quote, quote) == Text("") && Measure(b, quote, limit) == Closed(quote, 0)
  {
  }

  lemma ReadOn(b: string, p: int, s: string, t: string, end: int, quote: nat, limit: int)
    requires IsRead(b, p, s, end, quote, limit)
    requires Unescape(b, end, quote) == Text(t) && Measure(b, end, limit) == Closed(quote, |t|)
    ensures Unescape(b, p, quote) == Text(s + t) && Measure(b, p, limit) == Closed(quote, |s + t|)
  {
    hide Unescape, Measure;
  }

  lemma {:induction false} PiecesAreRead(b: string, p: nat, xs: seq<Piece>, quote: nat, limit: int)
    requires AllProper(xs) && p <= quote < |b| && quote < limit && b[quote] == '"' && b[p..quote] == SpellAll(xs)
    ensures Unescape(b, p, quote) == Text(MeaningOfAll(xs))
    ensures Measure(b, p, limit) == Closed(quote, |MeaningOfAll(xs)|)
    decreases |xs|
  {
    hide Meaning, Spelled, Proper, Unescape, Measure, IsRead;
    if xs == [] {
      NothingIsLeft(b, quote, limit);
    } else {
      var end := p + |Spelled(xs[0])|;
      Sliced(b, p, Spelled(xs[0]), SpellAll(xs[1..]), quote);
      assert |SpellAll(xs[1..])| == quote - end;
      PieceIsRead(b, p, xs[0], quote, limit);
      PiecesAreRead(b, end, xs[1..], quote, limit);
      ReadOn(b, p, Meaning(xs[0], quote - end), MeaningOfAll(xs[1..]), end, quote, limit);
    }
  }

  // A quoted string is read as what its pieces mean, wherever it stands and whatever
  // follows it.
  lemma SpellingIsRead(b: string, start: nat, end: nat, limit: int, xs: seq<Piece>)
    requires AllProper(xs) && start < end <= |b| && end <= limit
    requires b[start..end] == "\"" + (SpellAll(xs) + "\"")
    ensures ReadString(b, start, limit) == Got(MeaningOfAll(xs), end)
  {
    hide Measure, Unescape, MeaningOfAll, AllProper;
    QuotedStands(b, start, end, SpellAll(xs));
    PiecesAreRead(b, start + 1, xs, end - 1, limit);
  }
}
