/**
 The JSON decoder: one level of nesting at a time, with a note of what it expects
 next, and a recursive call for every aggregate inside another.
 */
module JsonDecoder {
  import opened Wrappers
  import opened Decimals
  import opened Utf8
  import opened JsonStrings
  import opened JsonValues

  datatype Expect = Key | KeyOrClose | Colon | CommaOrClose | Expr | ExprOrClose

  datatype Kind = Undefined | IsArray | IsObject

  // What one level has collected: the items or members so far, the key and the
  // value read last, and what is expected.
  datatype Level = Level(
    kind: Kind, items: seq<Value>, members: seq<Member>,
    key: Option<string>, sub: Option<Value>, wants: Expect)

  const FRESH_LEVEL := Level(Undefined, [], [], None, None, Expr)

  // What becomes of a level at one character: it goes on, it is complete, it is
  // stuck, or a level inside it failed.
  datatype Outcome =
    | Continue(p: int, level: Level)
    | Done(value: Value, p: int)
    | Stuck(p: int, wants: Expect)
    | Nested(error: int, p: int)

  datatype Decoded = Decoded(value: Value, next: int) | Failed(error: int, next: int)

  function ErrorFor(e: Expect): int {
    match e
    case KeyOrClose => -2
    case Key => -3
    case Colon => -4
    case CommaOrClose => -5
    case ExprOrClose => -6
    case Expr => -7
  }

  // strchr(" \t\r\n", c) != NULL, which also finds NUL.
  predicate Trailing(c: char) {
    c == ' ' || c == '\t' || c == '\r' || c == '\n' || c == '\0'
  }

  function SkipTrailing(b: string, p: int, limit: int): (r: int)
    ensures p <= r && (p <= limit ==> r <= limit)
    decreases limit - p
  {
    if p < limit && Trailing(At(b, p)) then SkipTrailing(b, p + 1, limit) else p
  }

  function Conclude(b: string, limit: int, o: Outcome): Decoded
    requires !o.Continue?
  {
    match o
    case Done(v, p) => Decoded(v, SkipTrailing(b, p, limit))
    case Stuck(p, e) => Failed(ErrorFor(e), SkipTrailing(b, p, limit))
    case Nested(error, p) => Failed(error, SkipTrailing(b, p, limit))
  }

  predicate WantsValue(e: Expect) {
    e == Expr || e == ExprOrClose
  }

  predicate MayClose(e: Expect) {
    e == KeyOrClose || e == ExprOrClose || e == CommaOrClose
  }

  function CloseArray(p: int, lv: Level): Outcome {
    if !MayClose(lv.wants) || lv.kind != IsArray then Stuck(p, lv.wants)
    else Done(Array(if lv.sub.Some? then lv.items + [lv.sub.value] else lv.items), p + 1)
  }

  function CloseObject(p: int, lv: Level): Outcome {
    if !MayClose(lv.wants) || lv.kind != IsObject then Stuck(p, lv.wants)
    else
      Done(Object(if lv.key.Some? && lv.sub.Some? then SetMember(lv.members, CString(lv.key.value), lv.sub.value)
                  else lv.members), p + 1)
  }

  function Comma(p: int, lv: Level): Outcome {
    if lv.wants != CommaOrClose || lv.sub == None then Stuck(p, lv.wants)
    else
      match lv.kind
      case IsObject =>
        if lv.key == None then Stuck(p, lv.wants)
        else Continue(p + 1, lv.(members := SetMember(lv.members, CString(lv.key.value), lv.sub.value),
                                 key := None, sub := None, wants := Key))
      case IsArray => Continue(p + 1, lv.(items := lv.items + [lv.sub.value], sub := None, wants := Expr))
      case Undefined => Stuck(p, lv.wants)
  }

  function AfterColon(p: int, lv: Level): Outcome {
    if lv.wants != Colon || lv.kind != IsObject then Stuck(p, lv.wants) else Continue(p + 1, lv.(wants := Expr))
  }

  function Quote(b: string, p: int, limit: int, lv: Level): Outcome {
    if lv.wants == Colon || lv.wants == CommaOrClose then Stuck(p, lv.wants)
    else
      match ReadString(b, p, limit)
      case Lost(next) => Stuck(next, lv.wants)
      case Got(s, next) =>
        if lv.kind == Undefined then Done(Str(s), next)
        else if lv.wants == Key || lv.wants == KeyOrClose then Continue(next, lv.(key := Some(s), wants := Colon))
        else Continue(next, lv.(sub := Some(Str(s)), wants := CommaOrClose))
  }

  // A value which was read whole, at this level or inside it.
  function Take(v: Value, p: int, lv: Level): Outcome {
    if lv.kind == Undefined then Done(v, p) else Continue(p, lv.(sub := Some(v), wants := CommaOrClose))
  }

  predicate Matches(b: string, p: int, text: string) {
    forall i :: 0 <= i < |text| ==> At(b, p + i) == text[i]
  }

  // strchr("0123456789+-", c) and strchr("0123456789+-Ee.", c), both with NUL.
  predicate StartsNumber(c: char) {
    IsDigit(c) || c == '+' || c == '-' || c == '\0'
  }

  predicate InNumber(c: char) {
    StartsNumber(c) || c == 'E' || c == 'e' || c == '.'
  }

  function NumberEnd(b: string, q: int, limit: int): (r: int)
    ensures q <= r && (q <= limit ==> r <= limit)
    decreases limit - q
  {
    if q < limit && InNumber(At(b, q)) then NumberEnd(b, q + 1, limit) else q
  }

  function Slice(b: string, p: int, q: int): (s: string)
    requires p <= q
    ensures |s| == q - p
    decreases q - p
  {
    if p == q then "" else [At(b, p)] + Slice(b, p + 1, q)
  }

  // A number of digits and signs is an integer, any other is a real.
  function NumberOf(token: string): Value {
    if 'E' in token || 'e' in token || '.' in token then Real(token) else Number(Strtoll(token))
  }

  function Word(b: string, p: int, limit: int, lv: Level): Outcome {
    if !WantsValue(lv.wants) || lv.sub.Some? then Stuck(p, lv.wants)
    else if limit - p >= 4 && Matches(b, p, "null") then Take(Null, p + 4, lv)
    else if limit - p >= 4 && Matches(b, p, "true") then Take(Boolean(true), p + 4, lv)
    else if limit - p >= 5 && Matches(b, p, "fals") then Take(Boolean(false), p + 5, lv)
    else if StartsNumber(At(b, p)) then
      var q := NumberEnd(b, p + 1, limit);
      Take(NumberOf(CString(Slice(b, p, q))), q, lv)
    else Stuck(p, lv.wants)
  }

  function KindRank(k: Kind): nat {
    if k == Undefined then 0 else 1
  }

  function Open(b: string, p: int, limit: int, lv: Level, kind: Kind, wants: Expect): (r: Outcome)
    requires p < limit
    ensures r.Continue? ==> r.p > p
    ensures !r.Done? && (r.Nested? ==> r.error < 0) && r.p >= p
    decreases limit - p, KindRank(lv.kind), 0
  {
    if !WantsValue(lv.wants) then Stuck(p, lv.wants)
    else if lv.kind == Undefined then Continue(p + 1, lv.(kind := kind, wants := wants))
    else
      match Decode(b, p, limit)
      case Decoded(v, next) => Continue(next, lv.(sub := Some(v), wants := CommaOrClose))
      case Failed(error, next) => Nested(error, next)
  }

  // What one character makes of a level.
  function Step(b: string, p: int, limit: int, lv: Level): (r: Outcome)
    requires p < limit
    ensures (r.Continue? || r.Done? ==> r.p > p) && (r.Nested? ==> r.error < 0) && r.p >= p
    decreases limit - p, KindRank(lv.kind), 1
  {
    match At(b, p)
    case ' ' | '\t' | '\r' | '\n' => Continue(p + 1, lv)
    case '[' => Open(b, p, limit, lv, IsArray, ExprOrClose)
    case '{' => Open(b, p, limit, lv, IsObject, KeyOrClose)
    case ']' => CloseArray(p, lv)
    case '}' => CloseObject(p, lv)
    case ',' => Comma(p, lv)
    case ':' => AfterColon(p, lv)
    case '"' => Quote(b, p, limit, lv)
    case _ => Word(b, p, limit, lv)
  }

  function Run(b: string, p: int, limit: int, lv: Level): (r: Decoded)
    ensures if r.Decoded? then r.next > p else r.error < 0 && r.next >= p
    decreases limit - p, KindRank(lv.kind), 2
  {
    if p >= limit then Conclude(b, limit, Stuck(p, lv.wants))
    else
      match Step(b, p, limit, lv)
      case Continue(p1, lv1) => Run(b, p1, limit, lv1)
      case o => Conclude(b, limit, o)
  }

  function Decode(b: string, p: int, limit: int): (r: Decoded)
    ensures if r.Decoded? then r.next > p else r.error < 0 && r.next >= p
    decreases limit - p, 0, 3
  {
    Run(b, p, limit, FRESH_LEVEL)
  }

  // The loops.

  method SkipTrailingAt(b: string, p: int, limit: nat) returns (q: int)
    requires limit < |b| && 0 <= p
    ensures q == SkipTrailing(b, p, limit)
  {
    q := p;
    while q < limit && Trailing(b[q])
      invariant p <= q && SkipTrailing(b, q, limit) == SkipTrailing(b, p, limit)
    {
      q := q + 1;
    }
  }

  method ReadNumber(b: string, p: nat, limit: nat) returns (v: Value, q: nat)
    requires p < limit < |b|
    ensures q == NumberEnd(b, p + 1, limit) && v == NumberOf(CString(Slice(b, p, q)))
  {
    q := p + 1;
    while q < limit && InNumber(b[q])
      invariant p < q <= limit && NumberEnd(b, q, limit) == NumberEnd(b, p + 1, limit)
    {
      q := q + 1;
    }
    SliceIs(b, p, q);
    v := NumberOf(CString(b[p..q]));
  }

  lemma {:induction false} SliceIs(b: string, p: nat, q: nat)
    requires p <= q <= |b|
    ensures Slice(b, p, q) == b[p..q]
    decreases q - p
  {
    if p < q {
      SliceIs(b, p + 1, q);
    }
  }

  method PutMember(members: seq<Member>, key: string, value: Value) returns (r: seq<Member>)
    ensures r == SetMember(members, key, value)
  {
    var n := FindMember(members, key);
    if n >= 0 {
      r := members[n := Member(members[n].key, value)];
    } else {
      r := members + [Member(key, value)];
    }
  }

  // The character is one which closes, or goes on with, an aggregate.
  method Punctuation(b: string, p: nat, limit: nat, lv: Level) returns (o: Outcome)
    requires p < limit < |b| && (b[p] == ']' || b[p] == '}' || b[p] == ',' || b[p] == ':')
    ensures o == Step(b, p, limit, lv)
  {
    o := Stuck(p, lv.wants);
    match b[p]
    case ']' =>
      if MayClose(lv.wants) && lv.kind == IsArray {
        o := Done(Array(if lv.sub.Some? then lv.items + [lv.sub.value] else lv.items), p + 1);
      }
    case '}' =>
      if MayClose(lv.wants) && lv.kind == IsObject {
        var members := lv.members;
        if lv.key.Some? && lv.sub.Some? {
          members := PutMember(members, CString(lv.key.value), lv.sub.value);
        }
        o := Done(Object(members), p + 1);
      }
    case ',' =>
      if lv.wants == CommaOrClose && lv.kind == IsObject && lv.key.Some? && lv.sub.Some? {
        var members := PutMember(lv.members, CString(lv.key.value), lv.sub.value);
        o := Continue(p + 1, lv.(members := members, key := None, sub := None, wants := Key));
      } else if lv.wants == CommaOrClose && lv.kind == IsArray && lv.sub.Some? {
        o := Continue(p + 1, lv.(items := lv.items + [lv.sub.value], sub := None, wants := Expr));
      }
    case ':' =>
      if lv.wants == Colon && lv.kind == IsObject {
        o := Continue(p + 1, lv.(wants := Expr));
      }
  }

  method StringAt(b: string, p: nat, limit: nat, lv: Level) returns (o: Outcome)
    requires Readable(b, limit) && p < limit && b[p] == '"'
    ensures o == Step(b, p, limit, lv)
  {
    if lv.wants == Colon || lv.wants == CommaOrClose {
      return Stuck(p, lv.wants);
    }
    var s, next := DecodeString(b, p, limit);
    if s == None {
      o := Stuck(next, lv.wants);
    } else if lv.kind == Undefined {
      o := Done(Str(s.value), next);
    } else if lv.wants == Key || lv.wants == KeyOrClose {
      o := Continue(next, lv.(key := s, wants := Colon));
    } else {
      o := Continue(next, lv.(sub := Some(Str(s.value)), wants := CommaOrClose));
    }
  }

  method ScalarAt(b: string, p: nat, limit: nat, lv: Level) returns (o: Outcome)
    requires p < limit < |b|
    ensures o == Word(b, p, limit, lv)
  {
    if !WantsValue(lv.wants) || lv.sub.Some? {
      o := Stuck(p, lv.wants);
    } else if limit - p >= 4 && b[p..p + 4] == "null" {
      o := Take(Null, p + 4, lv);
    } else if limit - p >= 4 && b[p..p + 4] == "true" {
      o := Take(Boolean(true), p + 4, lv);
    } else if limit - p >= 5 && b[p..p + 4] == "fals" {
      o := Take(Boolean(false), p + 5, lv);
    } else if StartsNumber(b[p]) {
      var v, q := ReadNumber(b, p, limit);
      o := Take(v, q, lv);
    } else {
      o := Stuck(p, lv.wants);
    }
  }

  method OpenAt(b: string, p: nat, limit: nat, lv: Level) returns (o: Outcome)
    requires Readable(b, limit) && p < limit && (b[p] == '[' || b[p] == '{')
    ensures o == Step(b, p, limit, lv)
    decreases limit - p, KindRank(lv.kind), 1
  {
    if !WantsValue(lv.wants) {
      o := Stuck(p, lv.wants);
    } else if lv.kind == Undefined {
      // This level is an array, or an object.
      if b[p] == '[' {
        o := Continue(p + 1, lv.(kind := IsArray, wants := ExprOrClose));
      } else {
        o := Continue(p + 1, lv.(kind := IsObject, wants := KeyOrClose));
      }
    } else {
      // This is an item in an aggregate.
      var ret, sub, next := DecodeJson(b, p, limit);
      if ret != 0 {
        o := Nested(ret, next);
      } else {
        o := Continue(next, lv.(sub := sub, wants := CommaOrClose));
      }
    }
  }

  method StepAt(b: string, p: nat, limit: nat, lv: Level) returns (o: Outcome)
    requires Readable(b, limit) && p < limit
    ensures o == Step(b, p, limit, lv)
    decreases limit - p, KindRank(lv.kind), 2
  {
    match b[p]
    case ' ' | '\t' | '\r' | '\n' => o := Continue(p + 1, lv);
    case '[' | '{' => o := OpenAt(b, p, limit, lv);
    case ']' | '}' | ',' | ':' => o := Punctuation(b, p, limit, lv);
    case '"' => o := StringAt(b, p, limit, lv);
    case _ => o := ScalarAt(b, p, limit, lv);
  }

  // What the decoder has found out so far, and how it ends.
  predicate Found(b: string, start: int, limit: int, ret: int, json: Option<Value>, p: int, lv: Level)
  {
    Decode(b, start, limit) ==
      if json.Some? then Conclude(b, limit, Done(json.value, p))
      else if ret != 0 then Conclude(b, limit, Nested(ret, p))
      else Conclude(b, limit, Stuck(p, lv.wants))
  }

  // The decoder ends, and it returns 0 exactly when it has produced a value.
  method DecodeJson(b: string, start: nat, limit: nat) returns (ret: int, json: Option<Value>, next: int)
    requires Readable(b, limit) && start <= limit
    ensures ret == 0 <==> json.Some?
    ensures match Decode(b, start, limit)
            case Decoded(v, n) => json == Some(v) && next == n
            case Failed(e, n) => ret == e && json == None && next == n
    decreases limit - start, 0, 3
  {
    ret, json := 0, None;
    var p: int := start;
    var lv := FRESH_LEVEL;
    var done := false;
    while p < limit && json == None && !done
      invariant start <= p && (p == start && !done && json == None ==> lv.kind == Undefined)
      invariant !done && json == None ==> ret == 0 && Run(b, p, limit, lv) == Decode(b, start, limit)
      invariant done || json.Some? ==> Found(b, start, limit, ret, json, p, lv) && (json.Some? ==> ret == 0)
      decreases if done || json.Some? then 0 else limit - p + 1
    {
      var o := StepAt(b, p, limit, lv);
      match o
      case Continue(p1, lv1) => p, lv := p1, lv1;
      case Done(v, p1) => p, json := p1, Some(v);
      case Stuck(p1, e) =>
        p, lv := p1, lv.(wants := e);
        done := true;
      case Nested(error, p1) =>
        p, ret := p1, error;
        done := true;
    }
    assert Found(b, start, limit, ret, json, p, lv);
    next := SkipTrailingAt(b, p, limit);
    if json == None && ret == 0 {
      ret := ErrorFor(lv.wants);
    }
  }
}
