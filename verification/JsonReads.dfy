/**
 What the decoder makes of any JSON text, however it is spelled: with spaces where they
 may be, with any escapes in its strings, and with any numbers.
 */
module JsonReads {
  import opened Wrappers
  import opened Decimals
  import opened Utf8
  import opened JsonStrings
  import opened JsonStringTrips
  import opened JsonSpelling
  import opened JsonValues
  import opened JsonDecoder
  import opened JsonTrips

  // A value as it is written down.
  datatype Doc =
    | Nothing
    | Truth(b: bool)
    | Whole(sign: string, digits: string)
    | Fraction(token: string)
    | Text(pieces: seq<Piece>)
    | List(items: seq<Item>, close: string)       // spaces before the closing bracket
    | Dict(members: seq<Pair>, close: string)

  // With the spaces around it.
  datatype Item = Item(before: string, doc: Doc, after: string)

  datatype Pair = Pair(before: string, key: seq<Piece>, colon: string, item: Item)

  function InQuotes(xs: seq<Piece>): string {
    "\"" + (SpellAll(xs) + "\"")
  }

  function Spelled(d: Doc): string
    decreases d
  {
    match d
    case Nothing => "null"
    case Truth(b) => if b then "true" else "false"
    case Whole(sign, digits) => sign + digits
    case Fraction(token) => token
    case Text(pieces) => InQuotes(pieces)
    case List(items, close) => "[" + (SpelledItems(items, true) + (close + "]"))
    case Dict(members, close) => "{" + (SpelledPairs(members, true) + (close + "}"))
  }

  function SpelledItem(i: Item): string
    decreases i
  {
    i.before + (Spelled(i.doc) + i.after)
  }

  function SpelledItems(items: seq<Item>, first: bool): string
    decreases items
  {
    if items == [] then ""
    else (if first then "" else ",") + (SpelledItem(items[0]) + SpelledItems(items[1..], false))
  }

  function SpelledPair(m: Pair): string
    decreases m
  {
    m.before + (InQuotes(m.key) + (m.colon + (":" + SpelledItem(m.item))))
  }

  function SpelledPairs(members: seq<Pair>, first: bool): string
    decreases members
  {
    if members == [] then ""
    else (if first then "" else ",") + (SpelledPair(members[0]) + SpelledPairs(members[1..], false))
  }

  predicate IsSpace(c: char) {
    c == ' ' || c == '\t' || c == '\r' || c == '\n'
  }

  predicate Spaces(s: string) {
    forall i :: 0 <= i < |s| ==> IsSpace(s[i])
  }

  predicate IsToken(s: string) {
    && s != "" && (IsDigit(s[0]) || s[0] == '+' || s[0] == '-')
    && forall i :: 0 <= i < |s| ==> IsDigit(s[i]) || s[i] == '+' || s[i] == '-' || s[i] == 'E' || s[i] == 'e' || s[i] == '.'
  }

  // What is written down as it should be.
  predicate Proper(d: Doc)
    decreases d
  {
    match d
    case Nothing => true
    case Truth(_) => true
    case Whole(sign, digits) =>
      (sign == "" || sign == "-" || sign == "+") && digits != "" && forall i :: 0 <= i < |digits| ==> IsDigit(digits[i])
    case Fraction(token) => IsToken(token) && ('E' in token || 'e' in token || '.' in token)
    case Text(pieces) => AllProper(pieces)
    case List(items, close) => Spaces(close) && forall i :: 0 <= i < |items| ==> ProperItem(items[i])
    case Dict(members, close) => Spaces(close) && forall i :: 0 <= i < |members| ==> ProperPair(members[i])
  }

  predicate ProperItem(i: Item)
    decreases i
  {
    Spaces(i.before) && Spaces(i.after) && Proper(i.doc)
  }

  predicate ProperPair(m: Pair)
    decreases m
  {
    Spaces(m.before) && AllProper(m.key) && Spaces(m.colon) && ProperItem(m.item)
  }

  lemma ItemIsProper(i: Item)
    requires ProperItem(i)
    ensures Proper(i.doc)
  {
  }

  lemma PairIsProper(m: Pair)
    requires ProperPair(m)
    ensures AllProper(m.key) && Proper(m.item.doc)
  {
    ItemIsProper(m.item);
  }

  function ValueOfDigits(s: string): nat
    requires forall i :: 0 <= i < |s| ==> IsDigit(s[i])
  {
    if s == "" then 0
    else
      assert IsDigit(s[|s| - 1]);
      ValueOfDigits(s[..|s| - 1]) * 10 + (s[|s| - 1] as int - '0' as int)
  }

  // The value it stands for: whole numbers are held in 64 bits, and a key which comes
  // again replaces the value it had.
  function Meaning(d: Doc): Value
    requires Proper(d)
    decreases d
  {
    match d
    case Nothing => Null
    case Truth(b) => Boolean(b)
    case Whole(sign, digits) =>
      var v: int := ValueOfDigits(digits);
      var n := if sign == "-" then -v else v;
      Number(if n > 0x7fff_ffff_ffff_ffff then 0x7fff_ffff_ffff_ffff
             else if n < -0x8000_0000_0000_0000 then -0x8000_0000_0000_0000 else n)
    case Fraction(token) => Real(token)
    case Text(pieces) => Str(MeaningOfAll(pieces))
    case List(items, _) => Array(MeaningOfItems(items))
    case Dict(members, _) => Object(MeaningOfPairs([], members))
  }

  function MeaningOfItems(items: seq<Item>): seq<Value>
    requires forall i :: 0 <= i < |items| ==> ProperItem(items[i])
    decreases items
  {
    if items == [] then []
    else
      ItemIsProper(items[0]);
      [Meaning(items[0].doc)] + MeaningOfItems(items[1..])
  }

  function MeaningOfPairs(done: seq<Member>, members: seq<Pair>): seq<Member>
    requires forall i :: 0 <= i < |members| ==> ProperPair(members[i])
    decreases members
  {
    if members == [] then done
    else
      PairIsProper(members[0]);
      MeaningOfPairs(SetMember(done, CString(MeaningOfAll(members[0].key)), Meaning(members[0].item.doc)), members[1..])
  }

  // Spaces.

  predicate SpacesAt(b: string, p: int, e: int) {
    0 <= p <= e <= |b| && forall i :: p <= i < e ==> IsSpace(b[i])
  }

  lemma SpacesStand(b: string, p: int, e: int, s: string)
    requires Stands(b, p, e, s) && Spaces(s)
    ensures SpacesAt(b, p, e)
  {
    forall i | p <= i < e ensures IsSpace(b[i]) {
      assert b[i] == b[p..e][i - p];
    }
  }

  lemma {:induction false} SpacesAreRun(b: string, p: int, e: int, limit: int, lv: Level)
    requires SpacesAt(b, p, e) && e <= limit
    ensures Run(b, p, limit, lv) == Run(b, e, limit, lv)
    decreases e - p
  {
    hide Run;
    if p < e {
      assert Step(b, p, limit, lv) == Continue(p + 1, lv);
      Goes(b, p, limit, lv, p + 1, lv);
      SpacesAreRun(b, p + 1, e, limit, lv);
    }
  }

  lemma {:induction false} SpacesAreSkipped(b: string, p: int, e: int, limit: int)
    requires SpacesAt(b, p, e) && e <= limit && (e < limit ==> !Trailing(At(b, e)))
    ensures SkipTrailing(b, p, limit) == e
    decreases e - p
  {
    if p < e {
      SpacesAreSkipped(b, p + 1, e, limit);
    }
  }

  // Scalars.

  predicate IsScalarDoc(d: Doc) {
    !d.List? && !d.Dict?
  }

  lemma NothingIsTaken(b: string, p: int, e: int, limit: int, lv: Level)
    requires Ready(lv) && e <= limit && Stands(b, p, e, "null")
    ensures p < limit && Step(b, p, limit, lv) == Take(Null, e, lv)
  {
    StandsChar(b, p, e, "null", 0);
    StandsMatches(b, p, e, "null");
  }

  lemma TrueIsTaken(b: string, p: int, e: int, limit: int, lv: Level)
    requires Ready(lv) && e <= limit && Stands(b, p, e, "true")
    ensures p < limit && Step(b, p, limit, lv) == Take(Boolean(true), e, lv)
  {
    StandsChar(b, p, e, "true", 0);
    StandsMatches(b, p, e, "true");
    assert !Matches(b, p, "null") by { assert At(b, p + 0) != "null"[0]; }
  }

  lemma FalseIsTaken(b: string, p: int, e: int, limit: int, lv: Level)
    requires Ready(lv) && e <= limit && Stands(b, p, e, "false")
    ensures p < limit && Step(b, p, limit, lv) == Take(Boolean(false), e, lv)
  {
    StandsChar(b, p, e, "false", 0);
    StandsMatches(b, p, e, "false");
    assert Matches(b, p, "fals") by {
      forall i | 0 <= i < 4 ensures At(b, p + i) == "fals"[i] {
        assert At(b, p + i) == "false"[i];
      }
    }
    assert !Matches(b, p, "null") by { assert At(b, p + 0) != "null"[0]; }
    assert !Matches(b, p, "true") by { assert At(b, p + 0) != "true"[0]; }
  }

  lemma {:induction false} TokenEndsThere(b: string, q: int, e: int, limit: int)
    requires 0 <= q <= e <= limit && Ended(b, e, limit)
    requires forall i :: q <= i < e ==> InNumber(At(b, i))
    ensures NumberEnd(b, q, limit) == e
    decreases e - q
  {
    if q < e {
      TokenEndsThere(b, q + 1, e, limit);
    }
  }

  lemma TokenIsTaken(b: string, p: int, e: int, limit: int, lv: Level, token: string)
    requires Ready(lv) && e <= limit && Ended(b, e, limit) && IsToken(token) && Stands(b, p, e, token)
    ensures p < limit && Step(b, p, limit, lv) == Take(NumberOf(token), e, lv)
  {
    StandsChar(b, p, e, token, 0);
    forall i | p + 1 <= i < e ensures InNumber(At(b, i)) {
      StandsChar(b, p, e, token, i - p);
    }
    TokenEndsThere(b, p + 1, e, limit);
    SliceIs(b, p, e);
    assert '\0' !in token;
    TokenStep(b, p, limit, lv);
    assert !Matches(b, p, "null") && !Matches(b, p, "true") && !Matches(b, p, "fals") by {
      assert At(b, p + 0) != "null"[0] && At(b, p + 0) != "true"[0] && At(b, p + 0) != "fals"[0];
    }
  }

  lemma TokenStep(b: string, p: int, limit: int, lv: Level)
    requires p < limit && (IsDigit(At(b, p)) || At(b, p) == '-' || At(b, p) == '+')
    ensures Step(b, p, limit, lv) == Word(b, p, limit, lv)
  {
  }

  lemma {:induction false} DigitsHaveValue(s: string, acc: nat)
    requires forall i :: 0 <= i < |s| ==> IsDigit(s[i])
    ensures DigitsValue(s, acc) == ValueOfDigits(s) + acc * Ten(|s|)
    decreases |s|
  {
    if s != "" {
      DigitsHaveValue(s[1..], acc * 10 + (s[0] as int - '0' as int));
      FirstDigit(s);
    }
  }

  function Ten(n: nat): nat {
    if n == 0 then 1 else 10 * Ten(n - 1)
  }

  lemma {:induction false} FirstDigit(s: string)
    requires s != "" && forall i :: 0 <= i < |s| ==> IsDigit(s[i])
    ensures ValueOfDigits(s) == (s[0] as int - '0' as int) * Ten(|s| - 1) + ValueOfDigits(s[1..])
    decreases |s|
  {
    hide IsDigit;
    if |s| == 1 {
      assert s[..0] == "" && s[1..] == "";
    } else {
      var n := |s|;
      FirstDigit(s[..n - 1]);
      assert s[1..][..n - 2] == s[..n - 1][1..];
      LastDigit(s[0] as int - '0' as int, Ten(n - 2), ValueOfDigits(s[1..][..n - 2]), s[n - 1] as int - '0' as int);
    }
  }

  lemma LastDigit(d: int, ten: int, v: int, last: int)
    ensures (d * ten + v) * 10 + last == d * (10 * ten) + (v * 10 + last)
  {
  }

  lemma WholeIsSigned(sign: string, digits: string)
    requires Proper(Whole(sign, digits))
    ensures Signed(sign + digits) == if sign == "-" then 0 - DigitsValue(digits, 0) else DigitsValue(digits, 0)
  {
    var token := sign + digits;
    if sign == "" {
      assert token == digits;
    } else {
      assert token[1..] == digits;
    }
  }

  lemma WholeIsToken(sign: string, digits: string)
    requires Proper(Whole(sign, digits))
    ensures IsToken(sign + digits) && NumberOf(sign + digits) == Number(Strtoll(sign + digits))
  {
    hide Strtoll;
  }

  lemma WholeMeans(sign: string, digits: string)
    requires Proper(Whole(sign, digits))
    ensures NumberOf(sign + digits) == Meaning(Whole(sign, digits)) && IsToken(sign + digits)
  {
    hide NumberOf, IsToken, Signed, ValueOfDigits, DigitsValue;
    WholeIsToken(sign, digits);
    WholeIsSigned(sign, digits);
    DigitsHaveValue(digits, 0);
  }

  lemma QuotedIsRead(b: string, p: int, e: int, limit: int, xs: seq<Piece>)
    requires AllProper(xs) && e <= limit && Stands(b, p, e, InQuotes(xs))
    ensures p < e && At(b, p) == '"' && ReadString(b, p, limit) == Got(MeaningOfAll(xs), e)
  {
    hide ReadString, SpellAll, MeaningOfAll, AllProper;
    StandsChar(b, p, e, InQuotes(xs), 0);
    SpellingIsRead(b, p, e, limit, xs);
  }

  lemma QuotedIsTaken(b: string, p: int, e: int, limit: int, lv: Level, xs: seq<Piece>)
    requires Ready(lv) && e <= limit && AllProper(xs) && Stands(b, p, e, InQuotes(xs))
    ensures p < limit && Step(b, p, limit, lv) == Take(Str(MeaningOfAll(xs)), e, lv)
  {
    hide ReadString, SpellAll, MeaningOfAll, AllProper, Step;
    QuotedIsRead(b, p, e, limit, xs);
    QuoteStep(b, p, limit, lv);
  }

  lemma ScalarDocIsTaken(b: string, p: int, e: int, limit: int, lv: Level, d: Doc)
    requires Ready(lv) && e <= limit && Ended(b, e, limit) && Proper(d) && IsScalarDoc(d) && Stands(b, p, e, Spelled(d))
    ensures p < limit && Step(b, p, limit, lv) == Take(Meaning(d), e, lv)
  {
    hide Step, Take, NumberOf, InQuotes, AllProper, MeaningOfAll, ValueOfDigits;
    match d
    case Nothing => NothingIsTaken(b, p, e, limit, lv);
    case Truth(v) =>
      if v {
        TrueIsTaken(b, p, e, limit, lv);
      } else {
        FalseIsTaken(b, p, e, limit, lv);
      }
    case Whole(sign, digits) =>
      WholeMeans(sign, digits);
      TokenIsTaken(b, p, e, limit, lv, sign + digits);
    case Fraction(token) =>
      TokenIsTaken(b, p, e, limit, lv, token);
      assert NumberOf(token) == Real(token) by { FractionMeans(token); }
    case Text(pieces) => QuotedIsTaken(b, p, e, limit, lv, pieces);
  }

  lemma FractionMeans(token: string)
    requires 'E' in token || 'e' in token || '.' in token
    ensures NumberOf(token) == Real(token)
  {
  }

  // A value, wherever one is expected.

  predicate IsDelimiter(c: char) {
    c == ',' || c == ']' || c == '}'
  }

  // The value up to e, the spaces after it up to f, and what follows them.
  predicate Enclosed(b: string, e: int, f: int, limit: int) {
    SpacesAt(b, e, f) && f < limit && IsDelimiter(At(b, f))
  }

  lemma EnclosedIsEnded(b: string, e: int, f: int, limit: int)
    requires Enclosed(b, e, f, limit)
    ensures Ended(b, e, limit) && SkipTrailing(b, e, limit) == f
  {
    SpacesAreSkipped(b, e, f, limit);
    if e < f {
      assert At(b, e) == b[e] && IsSpace(b[e]);
    }
  }

  lemma {:induction false} ItemIsTaken(b: string, p: int, e: int, f: int, limit: int, lv: Level, d: Doc)
    requires Ready(lv) && lv.kind != Undefined && Enclosed(b, e, f, limit) && Proper(d) && Stands(b, p, e, Spelled(d))
    ensures Run(b, p, limit, lv) == Run(b, f, limit, lv.(sub := Some(Meaning(d)), wants := CommaOrClose))
    decreases d, 3
  {
    hide Run, Step, Spelled, Proper, Meaning, Decode;
    EnclosedIsEnded(b, e, f, limit);
    var lv1 := lv.(sub := Some(Meaning(d)), wants := CommaOrClose);
    if IsScalarDoc(d) {
      ScalarDocIsTaken(b, p, e, limit, lv, d);
      Goes(b, p, limit, lv, e, lv1);
      SpacesAreRun(b, e, f, limit, lv1);
    } else {
      DocIsDecoded(b, p, e, limit, d);
      AggregateOpens(b, p, e, d);
      AggregateIsTaken(b, p, f, limit, lv, Meaning(d));
      Goes(b, p, limit, lv, f, lv1);
    }
  }

  lemma AggregateOpens(b: string, p: int, e: int, d: Doc)
    requires !IsScalarDoc(d) && Stands(b, p, e, Spelled(d))
    ensures p < e && At(b, p) == if d.List? then '[' else '{'
  {
    hide SpelledItems, SpelledPairs;
    StandsChar(b, p, e, Spelled(d), 0);
  }

  lemma {:induction false} DocIsDecoded(b: string, p: int, e: int, limit: int, d: Doc)
    requires e <= limit && Ended(b, e, limit) && Proper(d) && Stands(b, p, e, Spelled(d))
    ensures Decode(b, p, limit) == Decoded(Meaning(d), SkipTrailing(b, e, limit))
    decreases d, 2
  {
    hide Run, Step, SkipTrailing, Decode;
    match d
    case List(items, close) => ListIsDecoded(b, p, e, limit, items, close);
    case Dict(members, close) => DictIsDecoded(b, p, e, limit, members, close);
    case _ =>
      hide Spelled, Proper, Meaning;
      ScalarDocIsTaken(b, p, e, limit, FRESH_LEVEL, d);
      Ends(b, p, limit, FRESH_LEVEL, Meaning(d), e);
      DecodeIsRun(b, p, limit);
  }

  lemma DecodeIsRun(b: string, p: int, limit: int)
    ensures Decode(b, p, limit) == Run(b, p, limit, FRESH_LEVEL)
  {
  }

  // Arrays.

  lemma {:induction false} ListIsDecoded(b: string, p: int, e: int, limit: int, items: seq<Item>, close: string)
    requires e <= limit && Proper(List(items, close)) && Stands(b, p, e, Spelled(List(items, close)))
    ensures Decode(b, p, limit) == Decoded(Array(MeaningOfItems(items)), SkipTrailing(b, e, limit))
    decreases items, 1
  {
    hide Run, Step, SkipTrailing, Decode, SpelledItems, ProperItem;
    var rest := SpelledItems(items, true) + (close + "]");
    StandsSplit(b, p, e, "[", rest);
    StandsChar(b, p, p + 1, "[", 0);
    Opens(b, p, limit);
    var lv := FRESH_LEVEL.(kind := IsArray, wants := ExprOrClose);
    ItemsAreRun(b, p + 1, e, limit, lv, [], items, close, true);
    assert [] + MeaningOfItems(items) == MeaningOfItems(items);
  }

  lemma ListCloses(b: string, p: int, e: int, limit: int, lv: Level, close: string)
    requires lv.kind == IsArray && (lv.wants == ExprOrClose || lv.wants == CommaOrClose)
    requires e <= limit && Spaces(close) && Stands(b, p, e, close + "]")
    ensures Run(b, p, limit, lv) == Decoded(Array(Items(lv)), SkipTrailing(b, e, limit))
  {
    hide Run, SkipTrailing;
    StandsSplit(b, p, e, close, "]");
    SpacesStand(b, p, p + |close|, close);
    StandsChar(b, p + |close|, e, "]", 0);
    SpacesAreRun(b, p, p + |close|, limit, lv);
    BracketIsRun(b, p + |close|, limit, lv);
  }

  // What comes after an item: a comma, or the spaces of the end and the bracket.
  lemma ItemsFollow(b: string, q: int, e: int, items: seq<Item>, close: string) returns (f: int)
    requires Spaces(close) && Stands(b, q, e, SpelledItems(items, false) + (close + "]"))
    ensures q <= f < e && SpacesAt(b, q, f) && IsDelimiter(At(b, f))
    ensures if items == [] then f == e - 1 && Stands(b, f, e, "]") else f == q && At(b, q) == ','
  {
    if items == [] {
      assert SpelledItems(items, false) + (close + "]") == close + "]";
      f := q + |close|;
      StandsSplit(b, q, e, close, "]");
      SpacesStand(b, q, f, close);
      StandsChar(b, f, e, "]", 0);
    } else {
      f := q;
      StandsChar(b, q, e, SpelledItems(items, false) + (close + "]"), 0);
    }
  }

  // The parts of the next item, up to q its spaces, up to r its value, up to t the spaces
  // after it.
  lemma ItemParts(b: string, p: int, e: int, i: Item, rest: string) returns (q: int, r: int, t: int)
    requires ProperItem(i) && Stands(b, p, e, SpelledItem(i) + rest)
    ensures SpacesAt(b, p, q) && Stands(b, q, r, Spelled(i.doc)) && SpacesAt(b, r, t) && Stands(b, t, e, rest)
  {
    hide Spelled, Proper;
    q := p + |i.before|;
    r := q + |Spelled(i.doc)|;
    t := r + |i.after|;
    StandsSplit(b, p, e, SpelledItem(i), rest);
    StandsSplit(b, p, t, i.before, Spelled(i.doc) + i.after);
    StandsSplit(b, q, t, Spelled(i.doc), i.after);
    SpacesStand(b, p, q, i.before);
    SpacesStand(b, r, t, i.after);
  }

  lemma MoreSpaces(b: string, p: int, q: int, r: int)
    requires SpacesAt(b, p, q) && SpacesAt(b, q, r)
    ensures SpacesAt(b, p, r)
  {
  }

  lemma NoItems(done: seq<Value>, close: string, first: bool)
    ensures SpelledItems([], first) + (close + "]") == close + "]" && done + MeaningOfItems([]) == done
  {
  }

  lemma ItemsMean(done: seq<Value>, items: seq<Item>)
    requires items != [] && forall i :: 0 <= i < |items| ==> ProperItem(items[i])
    ensures Proper(items[0].doc)
    ensures done + MeaningOfItems(items) == done + [Meaning(items[0].doc)] + MeaningOfItems(items[1..])
    ensures items[1..] == [] ==> done + MeaningOfItems(items) == done + [Meaning(items[0].doc)]
  {
    hide Meaning, Proper, ProperItem;
    ItemIsProper(items[0]);
    OneMoreItem(items);
    OneMoreDone(done, [Meaning(items[0].doc)] + MeaningOfItems(items[1..]),
                done + ([Meaning(items[0].doc)] + MeaningOfItems(items[1..])));
    NoItems(done + [Meaning(items[0].doc)], "", true);
  }

  lemma OneMoreItem(items: seq<Item>)
    requires items != [] && forall i :: 0 <= i < |items| ==> ProperItem(items[i])
    ensures Proper(items[0].doc) && MeaningOfItems(items) == [Meaning(items[0].doc)] + MeaningOfItems(items[1..])
  {
    hide Meaning, Proper;
    ItemIsProper(items[0]);
  }

  // One item, with the comma before it and the spaces after it, and after those of the
  // closing bracket if it is the last.
  lemma {:induction false} ItemsAreRun(b: string, p: int, e: int, limit: int, lv: Level, done: seq<Value>,
                                       items: seq<Item>, close: string, first: bool)
    requires e <= limit && Spaces(close) && forall i :: 0 <= i < |items| ==> ProperItem(items[i])
    requires BetweenItems(lv, done, first) && lv.kind == IsArray && (first ==> lv.wants == ExprOrClose)
    requires Stands(b, p, e, SpelledItems(items, first) + (close + "]"))
    ensures Run(b, p, limit, lv) == Decoded(Array(done + MeaningOfItems(items)), SkipTrailing(b, e, limit))
    decreases items, 0
  {
    hide Run, SkipTrailing, Meaning, Spelled, Proper, ProperItem, Step, SpelledItems, MeaningOfItems, SpelledItem;
    if items == [] {
      NoItems(done, close, first);
      ListCloses(b, p, e, limit, lv, close);
    } else {
      ItemIsProper(items[0]);
      var p1, lv1 := ItemStarts(b, p, e, limit, lv, done, items, close, first);
      ItemsMean(done, items);
      var f, lv2 := OneItemIsRead(b, p1, e, limit, lv1, done, items[0], items[1..], close);
      if items[1..] == [] {
        BracketIsRun(b, f, limit, lv2);
      } else {
        ItemsAreRun(b, f, e, limit, lv2, done + [Meaning(items[0].doc)], items[1..], close, false);
      }
    }
  }

  // Past the comma, if there is one.
  lemma ItemStarts(b: string, p: int, e: int, limit: int, lv: Level, done: seq<Value>, items: seq<Item>, close: string, first: bool)
    returns (p1: int, lv1: Level)
    requires e <= limit && items != [] && BetweenItems(lv, done, first)
    requires Stands(b, p, e, SpelledItems(items, first) + (close + "]"))
    ensures Run(b, p, limit, lv) == Run(b, p1, limit, lv1)
    ensures BetweenItems(lv1, done, true)
    ensures Stands(b, p1, e, SpelledItem(items[0]) + (SpelledItems(items[1..], false) + (close + "]")))
  {
    hide Run, SpelledItem;
    var one, more := SpelledItem(items[0]), SpelledItems(items[1..], false);
    var rest := one + (more + (close + "]"));
    p1, lv1 := p, lv;
    if first {
      assert SpelledItems(items, first) + (close + "]") == rest;
    } else {
      assert SpelledItems(items, first) + (close + "]") == "," + rest;
      StandsSplit(b, p, e, ",", rest);
      StandsChar(b, p, p + 1, ",", 0);
      ItemCommaIsRun(b, p, limit, lv);
      p1, lv1 := p + 1, lv.(items := Items(lv), sub := None, wants := Expr);
    }
  }

  lemma {:induction false} OneItemIsRead(b: string, p: int, e: int, limit: int, lv: Level, done: seq<Value>,
                                         i: Item, items: seq<Item>, close: string)
    returns (f: int, lv1: Level)
    requires e <= limit && Spaces(close) && ProperItem(i) && BetweenItems(lv, done, true)
    requires Stands(b, p, e, SpelledItem(i) + (SpelledItems(items, false) + (close + "]")))
    ensures Proper(i.doc)
    ensures Run(b, p, limit, lv) == Run(b, f, limit, lv1) && BetweenItems(lv1, done + [Meaning(i.doc)], false)
    ensures if items == [] then f < limit && f == e - 1 && At(b, f) == ']'
            else Stands(b, f, e, SpelledItems(items, false) + (close + "]"))
    decreases i, 0
  {
    hide Run, Meaning, Spelled, Proper, SpelledItem, SpelledItems, ProperItem;
    ItemIsProper(i);
    var rest := SpelledItems(items, false) + (close + "]");
    var q, r, t := ItemParts(b, p, e, i, rest);
    f := ItemsFollow(b, t, e, items, close);
    MoreSpaces(b, r, t, f);
    SpacesAreRun(b, p, q, limit, lv);
    ItemIsTaken(b, q, r, f, limit, lv, i.doc);
    lv1 := lv.(sub := Some(Meaning(i.doc)), wants := CommaOrClose);
  }

  // Objects.

  // The level of an object between two members: those before it are done, but for the
  // last, which is only noted.
  predicate BetweenPairs(lv: Level, done: seq<Member>, first: bool) {
    && lv.kind == IsObject
    && if first then (lv.wants == KeyOrClose || lv.wants == Key) && lv.key == None && lv.sub == None && lv.members == done
       else
         && lv.wants == CommaOrClose && lv.key.Some? && lv.sub.Some?
         && SetMember(lv.members, CString(lv.key.value), lv.sub.value) == done
  }

  lemma {:induction false} DictIsDecoded(b: string, p: int, e: int, limit: int, members: seq<Pair>, close: string)
    requires e <= limit && Proper(Dict(members, close)) && Stands(b, p, e, Spelled(Dict(members, close)))
    ensures Decode(b, p, limit) == Decoded(Object(MeaningOfPairs([], members)), SkipTrailing(b, e, limit))
    decreases members, 1
  {
    hide Run, Step, SkipTrailing, Decode, SpelledPairs, ProperPair;
    var rest := SpelledPairs(members, true) + (close + "}");
    StandsSplit(b, p, e, "{", rest);
    StandsChar(b, p, p + 1, "{", 0);
    Opens(b, p, limit);
    var lv := FRESH_LEVEL.(kind := IsObject, wants := KeyOrClose);
    PairsAreRun(b, p + 1, e, limit, lv, [], members, close, true);
  }

  lemma BraceCloses(b: string, p: int, limit: int, lv: Level, done: seq<Member>, first: bool)
    requires BetweenPairs(lv, done, first) && (first ==> lv.wants == KeyOrClose) && p < limit && At(b, p) == '}'
    ensures Run(b, p, limit, lv) == Decoded(Object(done), SkipTrailing(b, p + 1, limit))
  {
    hide Run, SkipTrailing, SetMember, CString;
    Ends(b, p, limit, lv, Object(done), p + 1);
  }

  lemma DictCloses(b: string, p: int, e: int, limit: int, lv: Level, done: seq<Member>, first: bool, close: string)
    requires BetweenPairs(lv, done, first) && (first ==> lv.wants == KeyOrClose)
    requires e <= limit && Spaces(close) && Stands(b, p, e, close + "}")
    ensures Run(b, p, limit, lv) == Decoded(Object(done), SkipTrailing(b, e, limit))
  {
    hide Run, SkipTrailing, BetweenPairs;
    StandsSplit(b, p, e, close, "}");
    SpacesStand(b, p, p + |close|, close);
    StandsChar(b, p + |close|, e, "}", 0);
    SpacesAreRun(b, p, p + |close|, limit, lv);
    BraceCloses(b, p + |close|, limit, lv, done, first);
  }

  // What comes after a member: a comma, or the spaces of the end and the brace.
  lemma PairsFollow(b: string, q: int, e: int, members: seq<Pair>, close: string) returns (f: int)
    requires Spaces(close) && Stands(b, q, e, SpelledPairs(members, false) + (close + "}"))
    ensures q <= f < e && SpacesAt(b, q, f) && IsDelimiter(At(b, f))
    ensures if members == [] then f == e - 1 && At(b, f) == '}' else f == q && At(b, q) == ','
  {
    if members == [] {
      assert SpelledPairs(members, false) + (close + "}") == close + "}";
      f := q + |close|;
      StandsSplit(b, q, e, close, "}");
      SpacesStand(b, q, f, close);
      StandsChar(b, f, e, "}", 0);
    } else {
      f := q;
      StandsChar(b, q, e, SpelledPairs(members, false) + (close + "}"), 0);
    }
  }

  function Put(done: seq<Member>, m: Pair): seq<Member>
    requires ProperPair(m)
  {
    PairIsProper(m);
    SetMember(done, CString(MeaningOfAll(m.key)), Meaning(m.item.doc))
  }

  lemma {:induction false} PairsAreRun(b: string, p: int, e: int, limit: int, lv: Level, done: seq<Member>,
                                       members: seq<Pair>, close: string, first: bool)
    requires e <= limit && Spaces(close) && forall i :: 0 <= i < |members| ==> ProperPair(members[i])
    requires BetweenPairs(lv, done, first) && (first ==> lv.wants == KeyOrClose)
    requires Stands(b, p, e, SpelledPairs(members, first) + (close + "}"))
    ensures Run(b, p, limit, lv) == Decoded(Object(MeaningOfPairs(done, members)), SkipTrailing(b, e, limit))
    decreases members, 0
  {
    hide Run, SkipTrailing, Meaning, Spelled, Proper, ProperPair, Step, BetweenPairs, SetMember, MeaningOfAll, CString;
    if members == [] {
      assert SpelledPairs(members, first) + (close + "}") == close + "}";
      DictCloses(b, p, e, limit, lv, done, first, close);
    } else {
      var p1, lv1 := PairStarts(b, p, e, limit, lv, done, members, close, first);
      var f, lv2 := OnePairIsRead(b, p1, e, limit, lv1, done, members[0], members[1..], close);
      if members[1..] == [] {
        BraceCloses(b, f, limit, lv2, Put(done, members[0]), false);
      } else {
        PairsAreRun(b, f, e, limit, lv2, Put(done, members[0]), members[1..], close, false);
      }
    }
  }

  lemma CommaGoesOn(b: string, p: int, limit: int, lv: Level, done: seq<Member>)
    requires BetweenPairs(lv, done, false) && p < limit && At(b, p) == ','
    ensures Run(b, p, limit, lv) == Run(b, p + 1, limit, lv.(members := done, key := None, sub := None, wants := Key))
  {
    hide Run, SetMember, CString;
    Goes(b, p, limit, lv, p + 1, lv.(members := done, key := None, sub := None, wants := Key));
  }

  // Past the comma, if there is one.
  lemma PairStarts(b: string, p: int, e: int, limit: int, lv: Level, done: seq<Member>, members: seq<Pair>, close: string, first: bool)
    returns (p1: int, lv1: Level)
    requires e <= limit && members != [] && BetweenPairs(lv, done, first)
    requires Stands(b, p, e, SpelledPairs(members, first) + (close + "}"))
    ensures Run(b, p, limit, lv) == Run(b, p1, limit, lv1)
    ensures BetweenPairs(lv1, done, true)
    ensures Stands(b, p1, e, SpelledPair(members[0]) + (SpelledPairs(members[1..], false) + (close + "}")))
  {
    hide Run, SpelledPair, SetMember, CString;
    var one, more := SpelledPair(members[0]), SpelledPairs(members[1..], false);
    var rest := one + (more + (close + "}"));
    p1, lv1 := p, lv;
    if first {
      assert SpelledPairs(members, first) + (close + "}") == rest;
    } else {
      assert SpelledPairs(members, first) + (close + "}") == "," + rest;
      StandsSplit(b, p, e, ",", rest);
      StandsChar(b, p, p + 1, ",", 0);
      CommaGoesOn(b, p, limit, lv, done);
      p1, lv1 := p + 1, lv.(members := done, key := None, sub := None, wants := Key);
    }
  }

  lemma TextsAssociate(a: string, k: string, c: string, d: string, rest: string)
    ensures a + (k + (c + (":" + d))) + rest == a + (k + (c + (":" + (d + rest))))
  {
    assert ":" + d + rest == ":" + (d + rest);
    assert c + (":" + d) + rest == c + (":" + (d + rest));
    assert k + (c + (":" + d)) + rest == k + (c + (":" + (d + rest)));
  }

  lemma PairText(m: Pair, rest: string)
    ensures SpelledPair(m) + rest == m.before + (InQuotes(m.key) + (m.colon + (":" + (SpelledItem(m.item) + rest))))
  {
    hide InQuotes, SpelledItem;
    TextsAssociate(m.before, InQuotes(m.key), m.colon, SpelledItem(m.item), rest);
  }

  // The parts of a member up to its item: the spaces up to q, the key up to k, the spaces
  // before the colon, which is at c.
  lemma PairParts(b: string, p: int, e: int, m: Pair, rest: string) returns (q: int, k: int, c: int)
    requires ProperPair(m) && Stands(b, p, e, SpelledPair(m) + rest)
    ensures SpacesAt(b, p, q) && Stands(b, q, k, InQuotes(m.key)) && SpacesAt(b, k, c)
    ensures c < e && At(b, c) == ':' && Stands(b, c + 1, e, SpelledItem(m.item) + rest)
  {
    hide SpelledItem, InQuotes, AllProper, ProperItem, Stands, SpacesAt, SpelledPair;
    PairText(m, rest);
    var t4 := SpelledItem(m.item) + rest;
    var t3 := ":" + t4;
    var t2 := m.colon + t3;
    var t1 := InQuotes(m.key) + t2;
    q := p + |m.before|;
    k := q + |InQuotes(m.key)|;
    c := k + |m.colon|;
    StandsSplit(b, p, e, m.before, t1);
    StandsSplit(b, q, e, InQuotes(m.key), t2);
    StandsSplit(b, k, e, m.colon, t3);
    StandsSplit(b, c, e, ":", t4);
    StandsChar(b, c, c + 1, ":", 0);
    SpacesStand(b, p, q, m.before);
    SpacesStand(b, k, c, m.colon);
  }

  lemma KeyIsThere(b: string, p: int, q: int, k: int, c: int, limit: int, lv: Level, xs: seq<Piece>)
    requires lv.kind == IsObject && (lv.wants == Key || lv.wants == KeyOrClose) && AllProper(xs) && c < limit
    requires SpacesAt(b, p, q) && Stands(b, q, k, InQuotes(xs)) && SpacesAt(b, k, c) && At(b, c) == ':'
    ensures Run(b, p, limit, lv) == Run(b, c + 1, limit, lv.(key := Some(MeaningOfAll(xs)), wants := Expr))
  {
    hide Run, Step, InQuotes, MeaningOfAll, AllProper, ReadString;
    var key := MeaningOfAll(xs);
    var lv1 := lv.(key := Some(key), wants := Colon);
    SpacesAreRun(b, p, q, limit, lv);
    QuotedIsRead(b, q, k, limit, xs);
    KeyIsTaken(b, q, k, limit, lv, key);
    Goes(b, q, limit, lv, k, lv1);
    SpacesAreRun(b, k, c, limit, lv1);
    ColonIsTaken(b, c, limit, lv1);
    Goes(b, c, limit, lv1, c + 1, lv1.(wants := Expr));
  }

  lemma {:induction false} OnePairIsRead(b: string, p: int, e: int, limit: int, lv: Level, done: seq<Member>,
                                         m: Pair, members: seq<Pair>, close: string)
    returns (f: int, lv1: Level)
    requires e <= limit && Spaces(close) && ProperPair(m) && BetweenPairs(lv, done, true)
    requires Stands(b, p, e, SpelledPair(m) + (SpelledPairs(members, false) + (close + "}")))
    ensures Run(b, p, limit, lv) == Run(b, f, limit, lv1) && BetweenPairs(lv1, Put(done, m), false)
    ensures if members == [] then f < limit && f == e - 1 && At(b, f) == '}'
            else Stands(b, f, e, SpelledPairs(members, false) + (close + "}"))
    decreases m, 0
  {
    hide Run, Meaning, Spelled, Proper, SpelledPair, SpelledItem, SpelledPairs, MeaningOfAll, SetMember, CString, InQuotes, AllProper;
    PairIsProper(m);
    var rest := SpelledPairs(members, false) + (close + "}");
    var q, k, c := PairParts(b, p, e, m, rest);
    KeyIsThere(b, p, q, k, c, limit, lv, m.key);
    var lv0 := lv.(key := Some(MeaningOfAll(m.key)), wants := Expr);
    var v, r, t := ItemParts(b, c + 1, e, m.item, rest);
    f := PairsFollow(b, t, e, members, close);
    MoreSpaces(b, r, t, f);
    SpacesAreRun(b, c + 1, v, limit, lv0);
    ItemIsTaken(b, v, r, f, limit, lv0, m.item.doc);
    lv1 := lv0.(sub := Some(Meaning(m.item.doc)), wants := CommaOrClose);
  }

  // Decoding any proper text, with spaces before and after it, gives what it means and
  // consumes all of it.
  lemma TextIsDecoded(before: string, d: Doc, after: string)
    requires Proper(d) && Spaces(before) && Spaces(after)
    ensures var s := before + (Spelled(d) + after); Decode(s, 0, |s|) == Decoded(Meaning(d), |s|)
  {
    hide Run, Spelled, Proper, Meaning, SkipTrailing;
    var t := Spelled(d);
    var s := before + (t + after);
    var p, e := |before|, |before| + |t|;
    assert s[0..|s|] == s;
    StandsSplit(s, 0, |s|, before, t + after);
    StandsSplit(s, p, |s|, t, after);
    SpacesStand(s, 0, p, before);
    SpacesStand(s, e, |s|, after);
    SpacesAreRun(s, 0, p, |s|, FRESH_LEVEL);
    if e < |s| {
      assert At(s, e) == s[e] && IsSpace(s[e]);
    }
    DocIsDecoded(s, p, e, |s|, d);
    SpacesAreSkipped(s, e, |s|, |s|);
  }

  // A text which ends too early is refused with a number which says what was missing.

  lemma EndsTooEarly(b: string, p: int, limit: int, lv: Level)
    requires SpacesAt(b, p, limit)
    ensures Run(b, p, limit, lv).Failed? && Run(b, p, limit, lv).error == ErrorFor(lv.wants)
  {
    SpacesAreRun(b, p, limit, limit, lv);
  }

  // A value, where there is none at all, and the first item or the first key, after an
  // opening bracket or brace.
  lemma MissingFirst(b: string, p: int, q: int, limit: int)
    requires SpacesAt(b, p, q) && q <= limit <= |b|
    ensures q == limit ==> Decode(b, p, limit).Failed? && Decode(b, p, limit).error == -7
    ensures q < limit && SpacesAt(b, q + 1, limit) && b[q] == '[' ==> Decode(b, p, limit).Failed? && Decode(b, p, limit).error == -6
    ensures q < limit && SpacesAt(b, q + 1, limit) && b[q] == '{' ==> Decode(b, p, limit).Failed? && Decode(b, p, limit).error == -2
  {
    hide Run, Step;
    SpacesAreRun(b, p, q, limit, FRESH_LEVEL);
    if q == limit {
      EndsTooEarly(b, q, limit, FRESH_LEVEL);
    } else if SpacesAt(b, q + 1, limit) && (b[q] == '[' || b[q] == '{') {
      Opens(b, q, limit);
      EndsTooEarly(b, q + 1, limit, if b[q] == '[' then FRESH_LEVEL.(kind := IsArray, wants := ExprOrClose)
                                    else FRESH_LEVEL.(kind := IsObject, wants := KeyOrClose));
    }
  }

  // A colon after a key which is the last thing there is.
  lemma MissingColon(b: string, p: int, q: int, k: int, limit: int, lv: Level, xs: seq<Piece>)
    requires lv.kind == IsObject && (lv.wants == Key || lv.wants == KeyOrClose) && AllProper(xs)
    requires SpacesAt(b, p, q) && Stands(b, q, k, InQuotes(xs)) && SpacesAt(b, k, limit)
    ensures Run(b, p, limit, lv).Failed? && Run(b, p, limit, lv).error == -4
  {
    hide Run, Step, InQuotes, MeaningOfAll, AllProper, ReadString;
    var lv1 := lv.(key := Some(MeaningOfAll(xs)), wants := Colon);
    SpacesAreRun(b, p, q, limit, lv);
    QuotedIsRead(b, q, k, limit, xs);
    KeyIsTaken(b, q, k, limit, lv, MeaningOfAll(xs));
    Goes(b, q, limit, lv, k, lv1);
    EndsTooEarly(b, k, limit, lv1);
  }

  // A comma, or what closes, after a value which is the last thing there is.
  lemma MissingClose(b: string, p: int, e: int, limit: int, lv: Level, d: Doc)
    requires Ready(lv) && lv.kind != Undefined && Proper(d) && IsScalarDoc(d) && Stands(b, p, e, Spelled(d)) && SpacesAt(b, e, limit)
    ensures Run(b, p, limit, lv).Failed? && Run(b, p, limit, lv).error == -5
  {
    hide Run, Step, Spelled, Proper, Meaning;
    var lv1 := lv.(sub := Some(Meaning(d)), wants := CommaOrClose);
    if e < limit {
      assert At(b, e) == b[e] && IsSpace(b[e]);
    }
    ScalarDocIsTaken(b, p, e, limit, lv, d);
    Goes(b, p, limit, lv, e, lv1);
    EndsTooEarly(b, e, limit, lv1);
  }

  // The next key, or the next item, after a comma which is the last thing there is.
  lemma MissingNext(b: string, p: int, limit: int, lv: Level)
    requires p < limit && At(b, p) == ',' && SpacesAt(b, p + 1, limit) && lv.wants == CommaOrClose && lv.sub.Some?
    ensures lv.kind == IsArray ==> Run(b, p, limit, lv).Failed? && Run(b, p, limit, lv).error == -7
    ensures lv.kind == IsObject && lv.key.Some? ==> Run(b, p, limit, lv).Failed? && Run(b, p, limit, lv).error == -3
  {
    hide Run, SetMember, CString;
    if lv.kind == IsArray {
      ItemCommaIsRun(b, p, limit, lv);
      EndsTooEarly(b, p + 1, limit, lv.(items := Items(lv), sub := None, wants := Expr));
    } else if lv.kind == IsObject && lv.key.Some? {
      var done := SetMember(lv.members, CString(lv.key.value), lv.sub.value);
      CommaGoesOn(b, p, limit, lv, done);
      EndsTooEarly(b, p + 1, limit, lv.(members := done, key := None, sub := None, wants := Key));
    }
  }
}
