/**
 The JSON string escaper, which also works in two walks: one to bound the size of
 the result, and one to write it; and what escaping and unescaping do together.
 */
module JsonEscape {
  import opened Wrappers
  import opened Utf8

  predicate NeedsEscape(c: char) {
    c < ' ' || c == '"' || c == '\\' || c as int > 0x7f
  }

  // How many bytes from p on need an escape.
  function Escapes(s: string, p: nat): nat
    decreases |s| - p
  {
    if p >= |s| then 0 else (if NeedsEscape(s[p]) then 1 else 0) + Escapes(s, p + 1)
  }

  // An upper-case hexadecimal digit, and four of them.
  function HexChar(d: nat): char
    requires d < 16
  {
    if d < 10 then ('0' as nat + d) as char else ('A' as nat + (d - 10)) as char
  }

  function Hex4(v: nat): (s: string)
    requires v < 0x1_0000
    ensures |s| == 4
  {
    [HexChar(v / 0x1000), HexChar(v / 0x100 % 16), HexChar(v / 16 % 16), HexChar(v % 16)]
  }

  // The escape of one point: a pair of halves if it takes more than four digits.
  function UnicodeEscape(point: nat): (s: string)
    requires !Surrogate(point) && point <= 0x10ffff
    ensures |s| == if point < 0x1_0000 then 6 else 12
  {
    if point < 0x1_0000 then "\\u" + Hex4(point)
    else
      var rest := point - 0x1_0000;
      "\\u" + Hex4(0xd800 + rest / 0x400) + "\\u" + Hex4(0xdc00 + rest % 0x400)
  }

  // The characters which have an escape of their own.
  function ShortEscape(c: char): Option<string> {
    if c == '"' || c == '\\' then Some(['\\', c])
    else if c as int == 8 then Some("\\b")
    else if c as int == 12 then Some("\\f")
    else if c == '\n' then Some("\\n")
    else if c == '\r' then Some("\\r")
    else if c == '\t' then Some("\\t")
    else None
  }

  // What is printed for a surrogate which was encoded all the same: taking 0x10000
  // away from it wraps around, so that the first half takes six digits.
  function SurrogateEscape(point: nat): (s: string)
    requires Surrogate(point)
    ensures |s| == 14
  {
    "\\u3FFFF" + [HexChar(6 + (point - 0xd800) / 0x400)] + "\\u" + Hex4(0xdc00 + point % 0x400)
  }

  // What is printed for a point, and how much of it the source goes on behind.
  function PrintedEscape(point: nat): (s: string)
    requires point <= 0x10ffff
    ensures |s| <= 14
  {
    if Surrogate(point) then SurrogateEscape(point) else UnicodeEscape(point)
  }

  function KeptEscape(point: nat): (s: string)
    requires point <= 0x10ffff
    ensures |s| == if point < 0x1_0000 && !Surrogate(point) then 6 else 12
  {
    if Surrogate(point) then SurrogateEscape(point)[..12] else UnicodeEscape(point)
  }

  // Refused is NULL.
  datatype Escaped = Escaped(text: string) | Refused

  function Before(s: string, e: Escaped): Escaped {
    match e
    case Escaped(t) => Escaped(s + t)
    case _ => e
  }

  function EscapeFrom(s: string, p: nat): Escaped
    decreases |s| - p
  {
    if p >= |s| then Escaped("")
    else if ShortEscape(s[p]).Some? then Before(ShortEscape(s[p]).value, EscapeFrom(s, p + 1))
    else if ' ' <= s[p] && s[p] as int < 0x80 then Before([s[p]], EscapeFrom(s, p + 1))
    else
      match ReadPoint(s, p)
      case BadPoint(_) => Refused
      case Point(point, n) =>
        if point > 0x10ffff || n == 0 then Refused
        else Before(KeptEscape(point), EscapeFrom(s, p + n))
  }

  // What the escaper makes of a string.
  function Quoted(s: string): Escaped {
    Before("\"", match EscapeFrom(s, 0)
                 case Escaped(t) => Escaped(t + "\"")
                 case e => e)
  }

  // The bytes of a point which was read are all there, and need escapes.
  lemma {:induction false} ContinuationIsThere(s: string, p: nat, k: nat, acc: nat, count: nat)
    requires ReadContinuation(s, p, k, acc, count).Point?
    ensures k > 0 ==> p + k <= |s|
    ensures Escapes(s, p) == k + Escapes(s, p + k)
    ensures ReadContinuation(s, p, k, acc, count).count == count
    decreases k
  {
    if k > 0 {
      ContinuationIsThere(s, p + 1, k - 1, acc * 64 + At(s, p) as int % 0x40, count);
    }
  }

  lemma PointIsThere(s: string, p: nat)
    requires p < |s| && ReadPoint(s, p).Point?
    requires s[p] < ' ' || s[p] as int > 0x7f
    ensures var n := ReadPoint(s, p).count;
            1 <= n && p + n <= |s| && Escapes(s, p) == n + Escapes(s, p + n)
  {
    if s[p] as int >= 0x80 {
      var u := s[p] as int;
      ContinuationIsThere(s, p + 1, Ones(u) - 1, u % LeadRoom(Ones(u)), Ones(u));
    }
  }

  // The bound on the size of the result holds whenever there is one.
  lemma {:induction false} EscapeFits(s: string, p: nat)
    requires p <= |s| && EscapeFrom(s, p).Escaped?
    ensures |EscapeFrom(s, p).text| <= |s| - p + 12 * Escapes(s, p)
    decreases |s| - p
  {
    if p < |s| {
      if ShortEscape(s[p]).Some? || (' ' <= s[p] && s[p] as int < 0x80) {
        EscapeFits(s, p + 1);
      } else {
        PointIsThere(s, p);
        EscapeFits(s, p + ReadPoint(s, p).count);
      }
    }
  }

  // Append a text to the first q bytes of a buffer, and a NUL as sprintf() does.
  method PutText(text: string, buffer: array<char>, q: nat)
    requires q + |text| < buffer.Length
    modifies buffer
    ensures buffer[..q + |text|] == old(buffer[..q]) + text
  {
    for i := 0 to |text|
      invariant buffer[..q + i] == old(buffer[..q]) + text[..i]
    {
      buffer[q + i] := text[i];
      assert text[..i + 1] == text[..i] + [text[i]];
    }
    buffer[q + |text|] := '\0';
  }

  lemma BeforeTwice(s: string, t: string, e: Escaped)
    ensures Before(s, Before(t, e)) == Before(s + t, e)
  {
    if e.Escaped? {
      assert s + (t + e.text) == s + t + e.text;
    }
  }

  method CountEscapes(s: string) returns (esc: nat)
    ensures esc == Escapes(s, 0)
  {
    esc := 0;
    for p := 0 to |s|
      invariant esc + Escapes(s, p) == Escapes(s, 0)
    {
      if NeedsEscape(s[p]) {
        esc := esc + 1;
      }
    }
  }

  // One piece of the string, from p on: what is printed for it, and how much of that
  // is kept.
  method EscapePiece(s: string, p: nat) returns (ok: bool, p1: nat, text: string, kept: nat)
    requires (forall i :: 0 <= i < |s| ==> s[i] as int < 0x100) && p < |s|
    ensures !ok ==> EscapeFrom(s, p).Refused?
    ensures ok ==> kept <= |text| && p < p1 <= |s| && EscapeFrom(s, p) == Before(text[..kept], EscapeFrom(s, p1))
    ensures ok ==> |text| + |s| - p1 + 12 * Escapes(s, p1) <= |s| - p + 12 * Escapes(s, p)
  {
    ok, p1, text, kept := true, p + 1, "", 0;
    if ShortEscape(s[p]).Some? {
      text := ShortEscape(s[p]).value;
      kept := |text|;
    } else if ' ' <= s[p] && s[p] as int < 0x80 {
      text := [s[p]];
      kept := 1;
    } else {
      var point, n := Utf8ToPoint(s, p);
      if n < 0 || n > 6 || point > 0x10ffff {
        return false, p, "", 0;
      }
      PointIsThere(s, p);
      text, p1 := PrintedEscape(point), p + n;
      kept := if point < 0xd800 || 0xe000 <= point <= 0xffff then 6 else 12;
      EscapeTakesThree(s, p, point, n);
      assert text[..kept] == KeptEscape(point);
    }
    assert text[..|text|] == text;
  }

  // A point which takes twelve bytes of escape came from at least two.
  lemma EscapeTakesThree(s: string, p: nat, point: nat, n: nat)
    requires p < |s| && ReadPoint(s, p) == Point(point, n) && (s[p] < ' ' || s[p] as int > 0x7f) && point <= 0x10ffff
    ensures n == 0 || 14 > 13 * n ==> |PrintedEscape(point)| <= 12
  {
    PointIsThere(s, p);
  }

  // Escape that piece behind the q bytes written so far.
  method EscapeOne(s: string, p: nat, buffer: array<char>, q: nat) returns (ok: bool, p1: nat, q1: nat)
    requires (forall i :: 0 <= i < |s| ==> s[i] as int < 0x100) && p < |s|
    requires q + |s| - p + 12 * Escapes(s, p) + 2 <= buffer.Length
    modifies buffer
    ensures !ok ==> EscapeFrom(s, p).Refused?
    ensures ok ==> p < p1 <= |s| && q1 + |s| - p1 + 12 * Escapes(s, p1) <= q + |s| - p + 12 * Escapes(s, p)
                   && Before(buffer[..q1], EscapeFrom(s, p1)) == Before(old(buffer[..q]), EscapeFrom(s, p))
  {
    var text, kept;
    q1 := q;
    ok, p1, text, kept := EscapePiece(s, p);
    if ok {
      PutText(text, buffer, q);
      q1 := q + kept;
      ghost var before := old(buffer[..q]);
      assert buffer[..q1] == before + text[..kept] by {
        assert buffer[..q1] == buffer[..q + |text|][..q1];
      }
      BeforeTwice(before, text[..kept], EscapeFrom(s, p1));
    }
  }

  method Escape(s: string) returns (r: Option<string>)
    requires (forall i :: 0 <= i < |s| ==> s[i] as int < 0x100)
    ensures match Quoted(s)
            case Escaped(t) => r == Some(t)
            case _ => r == None
  {
    var esc := CountEscapes(s);
    var buffer := new char[|s| + esc * 12 + 2 + 1];
    PutText("\"", buffer, 0);
    assert buffer[..1] == "\"";
    var ok, q := EscapeAll(s, buffer, 1, esc);
    if !ok {
      return None;
    }
    ghost var text := buffer[..q];
    PutText("\"", buffer, q);
    assert Quoted(s) == Escaped(text + "\"");
    r := Some(buffer[..q + 1]);
  }

  method EscapeAll(s: string, buffer: array<char>, start: nat, ghost esc: nat) returns (ok: bool, q: nat)
    requires (forall i :: 0 <= i < |s| ==> s[i] as int < 0x100)
    requires esc == Escapes(s, 0) && start + |s| + 12 * esc + 2 <= buffer.Length
    modifies buffer
    ensures !ok ==> EscapeFrom(s, 0).Refused?
    ensures ok ==> q + 2 <= buffer.Length && Before(old(buffer[..start]), EscapeFrom(s, 0)) == Escaped(buffer[..q])
  {
    var p: nat := 0;
    q := start;
    ghost var before := buffer[..start];
    while p < |s|
      invariant p <= |s| && q + |s| - p + 12 * Escapes(s, p) <= start + |s| + 12 * esc
      invariant (EscapeFrom(s, p).Refused? <==> EscapeFrom(s, 0).Refused?)
      invariant Before(buffer[..q], EscapeFrom(s, p)) == Before(before, EscapeFrom(s, 0))
      decreases |s| - p
    {
      ok, p, q := EscapeOne(s, p, buffer, q);
      if !ok {
        return;
      }
    }
    ok := true;
    assert buffer[..q] + "" == buffer[..q];
  }
}
