/**
 Decoding what was encoded gives the value back.
 */
module JsonTrips {
  import opened Wrappers
  import opened Decimals
  import opened Utf8
  import opened JsonStrings
  import opened JsonEscape
  import opened JsonStringTrips
  import opened JsonValues
  import opened JsonDecoder

  // A string whose escaped form is read back.
  ghost predicate Survivor(s: string) {
    exists points :: Scalars(points) && TextOf(points) == s && Survives(points)
  }

  predicate DistinctKeys(members: seq<Member>) {
    forall i, k :: 0 <= i < k < |members| ==> members[i].key != members[k].key
  }

  // Members and values of which nothing is lost: no doubles, numbers of 64 bits, strings and
  // keys which survive, no NUL in a key and no key twice.
  ghost predicate FaithfulMember(m: Member)
    decreases m, 1
  {
    Survivor(m.key) && '\0' !in m.key && Faithful(m.value)
  }

  ghost predicate Faithful(v: Value)
    decreases v, 0
  {
    match v
    case Null => true
    case Boolean(_) => true
    case Number(n) => LLONG_MIN <= n <= LLONG_MAX
    case Real(_) => false
    case Str(s) => Survivor(s)
    case Array(items) => forall i :: 0 <= i < |items| ==> Faithful(items[i])
    case Object(members) =>
      DistinctKeys(members) && forall i :: 0 <= i < |members| ==> FaithfulMember(members[i])
  }

  // Where the text of a value may stop: a number goes no further.
  predicate Ended(b: string, e: int, limit: int) {
    e == limit || !InNumber(At(b, e))
  }

  // Where the text of an item or a member stops: nothing is skipped.
  predicate Delimited(b: string, e: int, limit: int) {
    e == limit || At(b, e) == ',' || At(b, e) == ']' || At(b, e) == '}'
  }

  // A text stands at a position.
  predicate Stands(b: string, p: int, e: int, text: string) {
    0 <= p <= e <= |b| && b[p..e] == text
  }

  lemma StandsSplit(b: string, p: int, e: int, s: string, t: string)
    requires Stands(b, p, e, s + t)
    ensures Stands(b, p, p + |s|, s) && Stands(b, p + |s|, e, t)
  {
    Sliced(b, p, s, t, e);
  }

  lemma StandsChar(b: string, p: int, e: int, text: string, i: nat)
    requires Stands(b, p, e, text) && i < |text|
    ensures p + i < e && At(b, p + i) == text[i]
  {
    assert b[p..e][i] == b[p + i];
  }

  lemma StandsMatches(b: string, p: int, e: int, text: string)
    requires Stands(b, p, e, text)
    ensures Matches(b, p, text) && e == p + |text|
  {
    forall i | 0 <= i < |text| ensures At(b, p + i) == text[i] {
      StandsChar(b, p, e, text, i);
    }
  }

  lemma SurvivorIsRead(b: string, p: int, e: int, limit: int, s: string)
    requires Survivor(s) && e <= limit
    requires Quoted(s).Escaped? && Stands(b, p, e, Quoted(s).text)
    ensures ReadString(b, p, limit) == Got(s, e) && p < e && At(b, p) == '"'
  {
    var points :| Scalars(points) && TextOf(points) == s && Survives(points);
    ValidTextIsQuoted(points);
    StandsChar(b, p, e, Quoted(s).text, 0);
    StringRoundTrip(b, p, e, limit, points);
  }

  lemma SurvivorIsQuoted(s: string)
    requires Survivor(s)
    ensures Quoted(s).Escaped? && Quoted(s).text != ""
  {
    var points :| Scalars(points) && TextOf(points) == s && Survives(points);
    ValidTextIsQuoted(points);
  }

  // Ready to take a value.
  predicate Ready(lv: Level) {
    WantsValue(lv.wants) && lv.sub == None && (lv.kind == Undefined ==> lv == FRESH_LEVEL)
  }

  lemma WordIsTaken(b: string, p: int, e: int, limit: int, lv: Level, v: Value, printReal: string -> string)
    requires Ready(lv) && e <= limit && (v == Null || v.Boolean?)
    requires Stands(b, p, e, Encode(v, printReal).value)
    ensures p < limit && Step(b, p, limit, lv) == Take(v, e, lv)
  {
    var text := Encode(v, printReal).value;
    StandsChar(b, p, e, text, 0);
    StandsMatches(b, p, e, text);
    if v == Boolean(false) {
      assert Matches(b, p, "fals") by {
        forall i | 0 <= i < 4 ensures At(b, p + i) == "fals"[i] {
          assert At(b, p + i) == "false"[i];
        }
      }
      assert !Matches(b, p, "null") by { assert At(b, p + 0) != "null"[0]; }
      assert !Matches(b, p, "true") by { assert At(b, p + 0) != "true"[0]; }
    } else if v == Boolean(true) {
      assert !Matches(b, p, "null") by { assert At(b, p + 0) != "null"[0]; }
    }
  }

  lemma {:induction false} NumberEndsThere(b: string, q: int, e: int, limit: int)
    requires 0 <= q <= e <= limit && Ended(b, e, limit)
    requires forall i :: q <= i < e ==> IsDigit(At(b, i))
    ensures NumberEnd(b, q, limit) == e
    decreases e - q
  {
    if q < e {
      NumberEndsThere(b, q + 1, e, limit);
    }
  }

  lemma NumberIsScanned(b: string, p: int, e: int, limit: int, n: int)
    requires e <= limit && Ended(b, e, limit) && LLONG_MIN <= n <= LLONG_MAX
    requires Stands(b, p, e, NumberText(n))
    ensures p < e && (IsDigit(At(b, p)) || At(b, p) == '-') && NumberEnd(b, p + 1, limit) == e
    ensures NumberOf(CString(Slice(b, p, e))) == Number(n)
  {
    var text := NumberText(n);
    StandsChar(b, p, e, text, 0);
    forall i | p + 1 <= i < e ensures IsDigit(At(b, i)) {
      StandsChar(b, p, e, text, i - p);
    }
    NumberEndsThere(b, p + 1, e, limit);
    SliceIs(b, p, e);
    assert '\0' !in text && 'E' !in text && 'e' !in text && '.' !in text;
    NumberIsRead(n, "");
    assert text + "" == text;
  }

  lemma NumberIsTaken(b: string, p: int, e: int, limit: int, lv: Level, n: int)
    requires Ready(lv) && e <= limit && Ended(b, e, limit) && LLONG_MIN <= n <= LLONG_MAX
    requires Stands(b, p, e, NumberText(n))
    ensures p < limit && Step(b, p, limit, lv) == Take(Number(n), e, lv)
  {
    NumberIsScanned(b, p, e, limit, n);
    NotAWord(b, p);
    NumberStep(b, p, limit, lv);
  }

  lemma NumberStep(b: string, p: int, limit: int, lv: Level)
    requires p < limit && (IsDigit(At(b, p)) || At(b, p) == '-')
    ensures Step(b, p, limit, lv) == Word(b, p, limit, lv)
  {
  }

  lemma QuoteStep(b: string, p: int, limit: int, lv: Level)
    requires p < limit && At(b, p) == '"'
    ensures Step(b, p, limit, lv) == Quote(b, p, limit, lv)
  {
  }

  lemma NotAWord(b: string, p: int)
    requires IsDigit(At(b, p)) || At(b, p) == '-'
    ensures !Matches(b, p, "null") && !Matches(b, p, "true") && !Matches(b, p, "fals")
  {
    assert At(b, p + 0) != "null"[0] && At(b, p + 0) != "true"[0] && At(b, p + 0) != "fals"[0];
  }

  lemma StringIsTaken(b: string, p: int, e: int, limit: int, lv: Level, s: string)
    requires Ready(lv) && e <= limit && Survivor(s)
    requires Quoted(s).Escaped? && Stands(b, p, e, Quoted(s).text)
    ensures p < limit && Step(b, p, limit, lv) == Take(Str(s), e, lv)
  {
    SurvivorIsRead(b, p, e, limit, s);
    QuoteStep(b, p, limit, lv);
  }

  predicate IsScalar(v: Value) {
    !v.Array? && !v.Object?
  }

  lemma ScalarIsTaken(b: string, p: int, e: int, limit: int, lv: Level, v: Value, printReal: string -> string)
    requires Ready(lv) && e <= limit && Ended(b, e, limit) && Faithful(v) && IsScalar(v)
    requires Encode(v, printReal).Some? && Stands(b, p, e, Encode(v, printReal).value)
    ensures p < limit && Step(b, p, limit, lv) == Take(v, e, lv)
  {
    match v
    case Null => WordIsTaken(b, p, e, limit, lv, v, printReal);
    case Boolean(_) => WordIsTaken(b, p, e, limit, lv, v, printReal);
    case Number(n) => NumberIsTaken(b, p, e, limit, lv, n);
    case Str(s) => StringIsTaken(b, p, e, limit, lv, s);
  }

  // Everything faithful can be printed.
  lemma {:induction false} FaithfulIsPrinted(v: Value, printReal: string -> string)
    requires Faithful(v)
    ensures Encode(v, printReal).Some? && Encode(v, printReal).value != ""
    ensures v.Array? ==> EncodeItems(v.items, true, printReal).Some?
    ensures v.Object? ==> EncodeMembers(v.members, true, printReal).Some?
    decreases v, 1
  {
    match v
    case Array(items) => ItemsArePrinted(items, true, printReal);
    case Object(members) => MembersArePrinted(members, true, printReal);
    case Str(s) => SurvivorIsQuoted(s);
    case _ =>
  }

  lemma {:induction false} ItemsArePrinted(items: seq<Value>, first: bool, printReal: string -> string)
    requires forall i :: 0 <= i < |items| ==> Faithful(items[i])
    ensures EncodeItems(items, first, printReal).Some?
    decreases items, 0
  {
    if items != [] {
      FaithfulIsPrinted(items[0], printReal);
      ItemsArePrinted(items[1..], false, printReal);
    }
  }

  lemma {:induction false} MembersArePrinted(members: seq<Member>, first: bool, printReal: string -> string)
    requires forall i :: 0 <= i < |members| ==> FaithfulMember(members[i])
    ensures EncodeMembers(members, first, printReal).Some?
    decreases members, 0
  {
    if members != [] {
      SurvivorIsQuoted(members[0].key);
      FaithfulIsPrinted(members[0].value, printReal);
      MembersArePrinted(members[1..], false, printReal);
    }
  }

  lemma DelimitedEnd(b: string, e: int, limit: int)
    requires Delimited(b, e, limit)
    ensures SkipTrailing(b, e, limit) == e && Ended(b, e, limit)
  {
  }

  lemma ScalarIsDecoded(b: string, p: int, e: int, limit: int, v: Value, printReal: string -> string)
    requires e <= limit && Ended(b, e, limit) && Faithful(v) && IsScalar(v)
    requires Encode(v, printReal).Some? && Stands(b, p, e, Encode(v, printReal).value)
    ensures Decode(b, p, limit) == Decoded(v, SkipTrailing(b, e, limit))
  {
    ScalarIsTaken(b, p, e, limit, FRESH_LEVEL, v, printReal);
  }

  // One character at a time.

  lemma Goes(b: string, p: int, limit: int, lv: Level, p1: int, lv1: Level)
    requires p < limit && Step(b, p, limit, lv) == Continue(p1, lv1)
    ensures Run(b, p, limit, lv) == Run(b, p1, limit, lv1)
  {
  }

  lemma Ends(b: string, p: int, limit: int, lv: Level, v: Value, p1: int)
    requires p < limit && Step(b, p, limit, lv) == Done(v, p1)
    ensures Run(b, p, limit, lv) == Decoded(v, SkipTrailing(b, p1, limit))
  {
  }

  lemma Opens(b: string, p: int, limit: int)
    requires p < limit && (At(b, p) == '[' || At(b, p) == '{')
    ensures Decode(b, p, limit) == Run(b, p + 1, limit,
              if At(b, p) == '[' then FRESH_LEVEL.(kind := IsArray, wants := ExprOrClose)
              else FRESH_LEVEL.(kind := IsObject, wants := KeyOrClose))
  {
    var lv := if At(b, p) == '[' then FRESH_LEVEL.(kind := IsArray, wants := ExprOrClose)
              else FRESH_LEVEL.(kind := IsObject, wants := KeyOrClose);
    assert Step(b, p, limit, FRESH_LEVEL) == Continue(p + 1, lv);
    Goes(b, p, limit, FRESH_LEVEL, p + 1, lv);
  }

  lemma AggregateIsTaken(b: string, p: int, e: int, limit: int, lv: Level, v: Value)
    requires Ready(lv) && lv.kind != Undefined && p < limit && (At(b, p) == '[' || At(b, p) == '{')
    requires Decode(b, p, limit) == Decoded(v, e)
    ensures Step(b, p, limit, lv) == Take(v, e, lv)
  {
  }

  lemma AggregateStands(b: string, p: int, e: int, v: Value, printReal: string -> string)
    requires !IsScalar(v) && Stands(b, p, e, Encode(v, printReal).value)
    ensures p < e
    ensures Faithful(v) ==> (At(b, p) == '[' || At(b, p) == '{')
  {
    StandsChar(b, p, e, Encode(v, printReal).value, 0);
    if Faithful(v) {
      FaithfulIsPrinted(v, printReal);
    }
  }

  // Wherever a value is expected, it is taken as a whole.
  lemma {:induction false} ValueIsTaken(b: string, p: int, e: int, limit: int, lv: Level, v: Value, printReal: string -> string)
    requires Ready(lv) && lv.kind != Undefined && e <= limit && Delimited(b, e, limit) && Faithful(v)
    requires Encode(v, printReal).Some? && Stands(b, p, e, Encode(v, printReal).value)
    ensures p < limit && Run(b, p, limit, lv) == Run(b, e, limit, lv.(sub := Some(v), wants := CommaOrClose))
    decreases v, 3
  {
    DelimitedEnd(b, e, limit);
    if IsScalar(v) {
      ScalarIsTaken(b, p, e, limit, lv, v, printReal);
    } else {
      ValueIsDecoded(b, p, e, limit, v, printReal);
      AggregateStands(b, p, e, v, printReal);
      AggregateIsTaken(b, p, e, limit, lv, v);
    }
    Goes(b, p, limit, lv, e, lv.(sub := Some(v), wants := CommaOrClose));
  }

  lemma {:induction false} ValueIsDecoded(b: string, p: int, e: int, limit: int, v: Value, printReal: string -> string)
    requires e <= limit && Ended(b, e, limit) && Faithful(v)
    requires Encode(v, printReal).Some? && Stands(b, p, e, Encode(v, printReal).value)
    ensures Decode(b, p, limit) == Decoded(v, SkipTrailing(b, e, limit))
    decreases v, 2
  {
    match v
    case Array(items) => ArrayIsDecoded(b, p, e, limit, items, printReal);
    case Object(members) => ObjectIsDecoded(b, p, e, limit, members, printReal);
    case _ => ScalarIsDecoded(b, p, e, limit, v, printReal);
  }

  lemma {:induction false} ArrayIsDecoded(b: string, p: int, e: int, limit: int, items: seq<Value>, printReal: string -> string)
    requires e <= limit && forall i :: 0 <= i < |items| ==> Faithful(items[i])
    requires Stands(b, p, e, Encode(Array(items), printReal).value)
    ensures Decode(b, p, limit) == Decoded(Array(items), SkipTrailing(b, e, limit))
    decreases items, 2
  {
    hide Decode, Run;
    ItemsArePrinted(items, true, printReal);
    var text := EncodeItems(items, true, printReal).value;
    assert Encode(Array(items), printReal).value == "[" + (text + "]");
    StandsSplit(b, p, e, "[", text + "]");
    StandsChar(b, p, p + 1, "[", 0);
    Opens(b, p, limit);
    var lv := FRESH_LEVEL.(kind := IsArray, wants := ExprOrClose);
    if items == [] {
      StandsChar(b, p + 1, e, text + "]", 0);
      BracketIsRun(b, p + 1, limit, lv);
    } else {
      assert [] + items == items;
      ItemIsRun(b, p + 1, e, limit, lv, [], items, items, true, printReal);
    }
  }

  // The items an array has when it closes, or goes on.
  function Items(lv: Level): seq<Value> {
    if lv.sub.Some? then lv.items + [lv.sub.value] else lv.items
  }

  lemma BracketIsRun(b: string, p: int, limit: int, lv: Level)
    requires lv.kind == IsArray && (lv.wants == ExprOrClose || lv.wants == CommaOrClose)
    requires p < limit && At(b, p) == ']'
    ensures Run(b, p, limit, lv) == Decoded(Array(Items(lv)), SkipTrailing(b, p + 1, limit))
  {
    Ends(b, p, limit, lv, Array(Items(lv)), p + 1);
  }

  lemma ItemCommaIsRun(b: string, p: int, limit: int, lv: Level)
    requires lv.kind == IsArray && lv.wants == CommaOrClose && lv.sub.Some? && p < limit && At(b, p) == ','
    ensures Run(b, p, limit, lv) == Run(b, p + 1, limit, lv.(items := Items(lv), sub := None, wants := Expr))
  {
    Goes(b, p, limit, lv, p + 1, lv.(items := Items(lv), sub := None, wants := Expr));
  }

  // The level of an array between two items.
  predicate BetweenItems(lv: Level, done: seq<Value>, first: bool) {
    lv.kind == IsArray && Items(lv) == done && if first then Ready(lv) else lv.wants == CommaOrClose && lv.sub.Some?
  }

  // The parts of the text of the next item and those which follow it.
  lemma ItemStands(b: string, p: int, e: int, items: seq<Value>, first: bool, printReal: string -> string)
    returns (q: int, r: int)
    requires items != [] && EncodeItems(items, first, printReal).Some?
    requires Stands(b, p, e, EncodeItems(items, first, printReal).value + "]")
    ensures q == (if first then p else p + 1) && (!first ==> At(b, p) == ',')
    ensures Encode(items[0], printReal).Some? && Stands(b, q, r, Encode(items[0], printReal).value)
    ensures EncodeItems(items[1..], false, printReal).Some?
    ensures Stands(b, r, e, EncodeItems(items[1..], false, printReal).value + "]")
  {
    hide Encode;
    var t := Encode(items[0], printReal).value;
    var rest := EncodeItems(items[1..], false, printReal).value;
    q := p;
    if !first {
      assert EncodeItems(items, first, printReal).value + "]" == "," + (t + (rest + "]"));
      StandsSplit(b, p, e, ",", t + (rest + "]"));
      StandsChar(b, p, p + 1, ",", 0);
      q := p + 1;
    } else {
      assert EncodeItems(items, first, printReal).value + "]" == t + (rest + "]");
    }
    StandsSplit(b, q, e, t, rest + "]");
    r := q + |t|;
  }

  lemma ClosesWith(b: string, r: int, e: int, rest: string, c: char)
    requires rest == "" && Stands(b, r, e, rest + [c])
    ensures e == r + 1 && At(b, r) == c
  {
    StandsChar(b, r, e, rest + [c], 0);
    StandsMatches(b, r, e, rest + [c]);
  }

  // One item: its comma, if it is not the first, and its value.
  lemma {:induction false} OneItemIsRun(b: string, p: int, e: int, limit: int, lv: Level, done: seq<Value>,
                                        items: seq<Value>, first: bool, printReal: string -> string)
    returns (r: int, lv1: Level)
    requires e <= limit && items != [] && Faithful(items[0])
    requires EncodeItems(items, first, printReal).Some? && Stands(b, p, e, EncodeItems(items, first, printReal).value + "]")
    requires BetweenItems(lv, done, first)
    ensures Run(b, p, limit, lv) == Run(b, r, limit, lv1) && BetweenItems(lv1, done + [items[0]], false)
    ensures EncodeItems(items[1..], false, printReal).Some?
    ensures Stands(b, r, e, EncodeItems(items[1..], false, printReal).value + "]")
    decreases items, 0
  {
    var q;
    q, r := ItemStands(b, p, e, items, first, printReal);
    ItemIsFollowed(b, r, e, items[1..], printReal);
    var lv0 := lv;
    if !first {
      ItemCommaIsRun(b, p, limit, lv);
      lv0 := lv.(items := Items(lv), sub := None, wants := Expr);
    }
    ValueIsTaken(b, q, r, limit, lv0, items[0], printReal);
    lv1 := lv0.(sub := Some(items[0]), wants := CommaOrClose);
  }

  lemma LastItemIsRun(b: string, r: int, e: int, limit: int, lv: Level, all: seq<Value>, printReal: string -> string)
    requires BetweenItems(lv, all, false) && e <= limit && Stands(b, r, e, EncodeItems([], false, printReal).value + "]")
    ensures Run(b, r, limit, lv) == Decoded(Array(all), SkipTrailing(b, e, limit))
  {
    ClosesWith(b, r, e, EncodeItems([], false, printReal).value, ']');
    BracketIsRun(b, r, limit, lv);
  }

  // The next item, and all which follow it.
  lemma {:induction false} ItemIsRun(b: string, p: int, e: int, limit: int, lv: Level, done: seq<Value>, items: seq<Value>,
                                     all: seq<Value>, first: bool, printReal: string -> string)
    requires e <= limit && items != [] && forall i :: 0 <= i < |items| ==> Faithful(items[i])
    requires EncodeItems(items, first, printReal).Some? && Stands(b, p, e, EncodeItems(items, first, printReal).value + "]")
    requires BetweenItems(lv, done, first) && all == done + items
    ensures Run(b, p, limit, lv) == Decoded(Array(all), SkipTrailing(b, e, limit))
    decreases items, 1
  {
    var done1, rest := done + [items[0]], items[1..];
    OneMoreDone(done, items, all);
    var r, lv1 := OneItemIsRun(b, p, e, limit, lv, done, items, first, printReal);
    if rest == [] {
      assert all == done1;
      LastItemIsRun(b, r, e, limit, lv1, all, printReal);
    } else {
      ItemIsRun(b, r, e, limit, lv1, done1, rest, all, false, printReal);
    }
  }

  // After an item comes a comma or the closing bracket.
  lemma ItemIsFollowed(b: string, q: int, e: int, items: seq<Value>, printReal: string -> string)
    requires EncodeItems(items, false, printReal).Some? && Stands(b, q, e, EncodeItems(items, false, printReal).value + "]")
    ensures q < e && (At(b, q) == ',' || At(b, q) == ']')
  {
    StandsChar(b, q, e, EncodeItems(items, false, printReal).value + "]", 0);
  }

  lemma ObjectStands(b: string, p: int, e: int, members: seq<Member>, printReal: string -> string)
    requires EncodeMembers(members, true, printReal).Some? && Stands(b, p, e, Encode(Object(members), printReal).value)
    ensures p < e && At(b, p) == '{' && Stands(b, p + 1, e, EncodeMembers(members, true, printReal).value + "}")
  {
    var text := EncodeMembers(members, true, printReal).value;
    assert Encode(Object(members), printReal).value == "{" + (text + "}");
    StandsSplit(b, p, e, "{", text + "}");
    StandsChar(b, p, p + 1, "{", 0);
  }

  lemma EmptyObjectIsRun(b: string, p: int, e: int, limit: int, lv: Level, printReal: string -> string)
    requires lv == FRESH_LEVEL.(kind := IsObject, wants := KeyOrClose) && e <= limit
    requires Stands(b, p, e, EncodeMembers([], true, printReal).value + "}")
    ensures Run(b, p, limit, lv) == Decoded(Object([]), SkipTrailing(b, e, limit))
  {
    ClosesWith(b, p, e, EncodeMembers([], true, printReal).value, '}');
    Ends(b, p, limit, lv, Object([]), e);
  }

  lemma {:induction false} ObjectIsDecoded(b: string, p: int, e: int, limit: int, members: seq<Member>,
                                           printReal: string -> string)
    requires e <= limit
    requires DistinctKeys(members) && forall i :: 0 <= i < |members| ==> FaithfulMember(members[i])
    requires Stands(b, p, e, Encode(Object(members), printReal).value)
    ensures Decode(b, p, limit) == Decoded(Object(members), SkipTrailing(b, e, limit))
    decreases members, 2
  {
    MembersArePrinted(members, true, printReal);
    ObjectStands(b, p, e, members, printReal);
    Opens(b, p, limit);
    var lv := FRESH_LEVEL.(kind := IsObject, wants := KeyOrClose);
    if members == [] {
      EmptyObjectIsRun(b, p + 1, e, limit, lv, printReal);
    } else {
      assert [] + members == members;
      MemberIsRun(b, p + 1, e, limit, lv, [], members, members, true, printReal);
    }
  }

  // The members done are the first of all.
  predicate FirstOf(done: seq<Member>, all: seq<Member>) {
    |done| <= |all| && all[..|done|] == done
  }

  lemma SetAppends(members: seq<Member>, m: Member, all: seq<Member>)
    requires FirstOf(members + [m], all) && DistinctKeys(all)
    ensures SetMember(members, m.key, m.value) == members + [m]
  {
    var done := members + [m];
    forall i | 0 <= i < |members| ensures members[i].key != m.key {
      assert all[i] == done[i] && all[|members|] == done[|members|];
    }
  }

  // The level of an object between two members: those before it are done, but for
  // the last, which is only noted.
  predicate Between(lv: Level, done: seq<Member>, first: bool) {
    && lv.kind == IsObject
    && if first then
         lv.wants == KeyOrClose && lv.key == None && lv.sub == None && lv.members == done
       else
         && lv.wants == CommaOrClose && lv.key.Some? && lv.sub.Some? && '\0' !in lv.key.value
         && lv.members + [Member(lv.key.value, lv.sub.value)] == done
  }

  // A key and its colon.
  lemma KeyIsRun(b: string, q: int, q1: int, limit: int, lv: Level, key: string)
    requires lv.kind == IsObject && (lv.wants == Key || lv.wants == KeyOrClose) && Survivor(key) && q1 < limit
    requires Quoted(key).Escaped? && Stands(b, q, q1, Quoted(key).text) && At(b, q1) == ':'
    ensures Run(b, q, limit, lv) == Run(b, q1 + 1, limit, lv.(key := Some(key), wants := Expr))
  {
    SurvivorIsRead(b, q, q1, limit, key);
    KeyAndColonAreRun(b, q, q1, limit, lv, key);
  }

  lemma KeyAndColonAreRun(b: string, q: int, q1: int, limit: int, lv: Level, key: string)
    requires lv.kind == IsObject && (lv.wants == Key || lv.wants == KeyOrClose) && q < q1 < limit
    requires At(b, q) == '"' && ReadString(b, q, limit) == Got(key, q1) && At(b, q1) == ':'
    ensures Run(b, q, limit, lv) == Run(b, q1 + 1, limit, lv.(key := Some(key), wants := Expr))
  {
    var lv1 := lv.(key := Some(key), wants := Colon);
    KeyIsTaken(b, q, q1, limit, lv, key);
    Goes(b, q, limit, lv, q1, lv1);
    ColonIsTaken(b, q1, limit, lv1);
    Goes(b, q1, limit, lv1, q1 + 1, lv1.(wants := Expr));
  }

  lemma ColonIsTaken(b: string, q1: int, limit: int, lv: Level)
    requires lv.kind == IsObject && lv.wants == Colon && q1 < limit && At(b, q1) == ':'
    ensures Step(b, q1, limit, lv) == Continue(q1 + 1, lv.(wants := Expr))
  {
  }

  lemma KeyIsTaken(b: string, q: int, q1: int, limit: int, lv: Level, key: string)
    requires lv.kind == IsObject && (lv.wants == Key || lv.wants == KeyOrClose) && q < limit
    requires At(b, q) == '"' && ReadString(b, q, limit) == Got(key, q1)
    ensures Step(b, q, limit, lv) == Continue(q1, lv.(key := Some(key), wants := Colon))
  {
  }

  // The comma before the next member, if it is not the first.
  lemma CommaIsRun(b: string, p: int, limit: int, lv: Level, done: seq<Member>, all: seq<Member>)
    requires Between(lv, done, false) && p < limit && At(b, p) == ',' && FirstOf(done, all) && DistinctKeys(all)
    ensures Run(b, p, limit, lv) == Run(b, p + 1, limit, lv.(members := done, key := None, sub := None, wants := Key))
  {
    SetAppends(lv.members, Member(lv.key.value, lv.sub.value), all);
    Goes(b, p, limit, lv, p + 1, lv.(members := done, key := None, sub := None, wants := Key));
  }

  lemma BraceIsRun(b: string, p: int, limit: int, lv: Level, done: seq<Member>)
    requires Between(lv, done, false) && p < limit && At(b, p) == '}' && DistinctKeys(done)
    ensures Run(b, p, limit, lv) == Decoded(Object(done), SkipTrailing(b, p + 1, limit))
  {
    SetAppends(lv.members, Member(lv.key.value, lv.sub.value), done);
    Ends(b, p, limit, lv, Object(done), p + 1);
  }

  // The parts of the text of the next member and those which follow it: its key
  // from q to q1, its value up to q2.
  lemma MemberStands(b: string, p: int, e: int, members: seq<Member>, first: bool, printReal: string -> string)
    returns (q: int, q1: int, q2: int)
    requires members != [] && '\0' !in members[0].key && EncodeMembers(members, first, printReal).Some?
    requires Stands(b, p, e, EncodeMembers(members, first, printReal).value + "}")
    ensures q == (if first then p else p + 1) && (!first ==> At(b, p) == ',')
    ensures Quoted(members[0].key).Escaped? && Stands(b, q, q1, Quoted(members[0].key).text) && At(b, q1) == ':'
    ensures Encode(members[0].value, printReal).Some? && Stands(b, q1 + 1, q2, Encode(members[0].value, printReal).value)
    ensures EncodeMembers(members[1..], false, printReal).Some?
    ensures Stands(b, q2, e, EncodeMembers(members[1..], false, printReal).value + "}")
  {
    var k, t := Quoted(members[0].key).text, Encode(members[0].value, printReal).value;
    var rest := EncodeMembers(members[1..], false, printReal).value;
    q, q1, q2 := PartsStand(b, p, e, if first then "" else ",", k, t, rest);
    if !first {
      StandsChar(b, p, p + 1, ",", 0);
    }
  }

  lemma PartsStand(b: string, p: int, e: int, comma: string, k: string, t: string, rest: string) returns (q: int, q1: int, q2: int)
    requires Stands(b, p, e, comma + k + ":" + t + rest + "}")
    ensures q == p + |comma| && Stands(b, p, q, comma) && Stands(b, q, q1, k) && At(b, q1) == ':'
    ensures Stands(b, q1 + 1, q2, t) && Stands(b, q2, e, rest + "}")
  {
    var r4 := rest + "}";
    var r3 := t + r4;
    var r2 := ":" + r3;
    var r1 := k + r2;
    assert comma + k + ":" + t + rest + "}" == comma + r1;
    StandsSplit(b, p, e, comma, r1);
    q := p + |comma|;
    StandsSplit(b, q, e, k, r2);
    q1 := q + |k|;
    StandsSplit(b, q1, e, ":", r3);
    StandsChar(b, q1, q1 + 1, ":", 0);
    StandsSplit(b, q1 + 1, e, t, r4);
    q2 := q1 + 1 + |t|;
  }

  // One member: its comma, if it is not the first, its key, its colon and its value.
  lemma {:induction false} OneMemberIsRun(b: string, p: int, e: int, limit: int, lv: Level, done: seq<Member>,
                                          members: seq<Member>, all: seq<Member>, first: bool, printReal: string -> string)
    returns (r: int, lv1: Level)
    requires e <= limit && members != [] && FaithfulMember(members[0])
    requires Between(lv, done, first) && FirstOf(done, all) && DistinctKeys(all)
    requires EncodeMembers(members, first, printReal).Some?
    requires Stands(b, p, e, EncodeMembers(members, first, printReal).value + "}")
    ensures Run(b, p, limit, lv) == Run(b, r, limit, lv1) && Between(lv1, done + [members[0]], false)
    ensures EncodeMembers(members[1..], false, printReal).Some?
    ensures Stands(b, r, e, EncodeMembers(members[1..], false, printReal).value + "}")
    decreases members, 0
  {
    var m := members[0];
    var q, q1, q2 := MemberStands(b, p, e, members, first, printReal);
    MemberIsFollowed(b, q2, e, members[1..], printReal);
    var lv0 := lv;
    if !first {
      CommaIsRun(b, p, limit, lv, done, all);
      lv0 := lv.(members := done, key := None, sub := None, wants := Key);
    }
    KeyAndValueAreRun(b, q, q1, q2, limit, lv0, m, printReal);
    r, lv1 := q2, lv0.(key := Some(m.key), sub := Some(m.value), wants := CommaOrClose);
  }

  lemma {:induction false} KeyAndValueAreRun(b: string, q: int, q1: int, q2: int, limit: int, lv: Level, m: Member,
                                             printReal: string -> string)
    requires lv.kind == IsObject && (lv.wants == Key || lv.wants == KeyOrClose) && lv.sub == None
    requires FaithfulMember(m) && q1 < limit && q2 <= limit && Delimited(b, q2, limit)
    requires Quoted(m.key).Escaped? && Stands(b, q, q1, Quoted(m.key).text) && At(b, q1) == ':'
    requires Encode(m.value, printReal).Some? && Stands(b, q1 + 1, q2, Encode(m.value, printReal).value)
    ensures Run(b, q, limit, lv) == Run(b, q2, limit, lv.(key := Some(m.key), sub := Some(m.value), wants := CommaOrClose))
    decreases m
  {
    KeyIsRun(b, q, q1, limit, lv, m.key);
    ValueIsTaken(b, q1 + 1, q2, limit, lv.(key := Some(m.key), wants := Expr), m.value, printReal);
  }

  lemma LastMemberIsRun(b: string, r: int, e: int, limit: int, lv: Level, all: seq<Member>, printReal: string -> string)
    requires Between(lv, all, false) && DistinctKeys(all) && e <= limit
    requires Stands(b, r, e, EncodeMembers([], false, printReal).value + "}")
    ensures Run(b, r, limit, lv) == Decoded(Object(all), SkipTrailing(b, e, limit))
  {
    ClosesWith(b, r, e, EncodeMembers([], false, printReal).value, '}');
    BraceIsRun(b, r, limit, lv, all);
  }

  // The next member, and all which follow it.
  lemma {:induction false} MemberIsRun(b: string, p: int, e: int, limit: int, lv: Level, done: seq<Member>,
                                       members: seq<Member>, all: seq<Member>, first: bool, printReal: string -> string)
    requires e <= limit && members != []
    requires forall i :: 0 <= i < |members| ==> FaithfulMember(members[i])
    requires Between(lv, done, first) && all == done + members && DistinctKeys(all)
    requires EncodeMembers(members, first, printReal).Some?
    requires Stands(b, p, e, EncodeMembers(members, first, printReal).value + "}")
    ensures Run(b, p, limit, lv) == Decoded(Object(all), SkipTrailing(b, e, limit))
    decreases members, 1
  {
    var done1, rest := done + [members[0]], members[1..];
    OneMoreDone(done, members, all);
    var r, lv1 := OneMemberIsRun(b, p, e, limit, lv, done, members, all, first, printReal);
    if rest == [] {
      assert all == done1;
      LastMemberIsRun(b, r, e, limit, lv1, all, printReal);
    } else {
      assert forall i :: 0 <= i < |rest| ==> FaithfulMember(rest[i]) by {
        forall i | 0 <= i < |rest| ensures FaithfulMember(rest[i]) { assert rest[i] == members[i + 1]; }
      }
      MemberIsRun(b, r, e, limit, lv1, done1, rest, all, false, printReal);
    }
  }

  lemma OneMoreDone<T>(done: seq<T>, more: seq<T>, all: seq<T>)
    requires more != [] && all == done + more
    ensures all == done + [more[0]] + more[1..] && |done| <= |all| && all[..|done|] == done
  {
  }

  // After a member comes a comma or the closing brace.
  lemma MemberIsFollowed(b: string, q: int, e: int, members: seq<Member>, printReal: string -> string)
    requires EncodeMembers(members, false, printReal).Some?
    requires Stands(b, q, e, EncodeMembers(members, false, printReal).value + "}")
    ensures q < e && (At(b, q) == ',' || At(b, q) == '}')
  {
    StandsChar(b, q, e, EncodeMembers(members, false, printReal).value + "}", 0);
  }

  // The round trip: a faithful value is printed, and what is printed is read back
  // as the same value wherever it stands, with the spaces after it.
  lemma RoundTrip(b: string, p: int, e: int, limit: int, v: Value, printReal: string -> string)
    requires Faithful(v) && e <= limit && Ended(b, e, limit)
    requires Encode(v, printReal).Some? ==> Stands(b, p, e, Encode(v, printReal).value)
    ensures Encode(v, printReal).Some?
    ensures Decode(b, p, limit) == Decoded(v, SkipTrailing(b, e, limit))
  {
    FaithfulIsPrinted(v, printReal);
    ValueIsDecoded(b, p, e, limit, v, printReal);
  }

  // With nothing else around it, the whole text is consumed.
  lemma WholeRoundTrip(v: Value, printReal: string -> string)
    requires Faithful(v)
    ensures Encode(v, printReal).Some?
    ensures var text := Encode(v, printReal).value; Decode(text, 0, |text|) == Decoded(v, |text|)
  {
    FaithfulIsPrinted(v, printReal);
    var text := Encode(v, printReal).value;
    assert text[0..|text|] == text;
    RoundTrip(text, 0, |text|, |text|, v, printReal);
  }

  // Different faithful values are never printed alike.
  lemma PrintingIsInjective(v: Value, w: Value, printReal: string -> string)
    requires Faithful(v) && Faithful(w) && Encode(v, printReal) == Encode(w, printReal)
    ensures v == w
  {
    WholeRoundTrip(v, printReal);
    WholeRoundTrip(w, printReal);
  }
}
