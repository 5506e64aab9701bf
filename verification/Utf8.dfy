/**
 UTF-8 as the JSON code reads and writes it: one to six bytes for each point below
 2^31.  Text is a string of characters below 256, one for each byte; like a C
 string it reads as NUL beyond its end.
 */
module Utf8 {

  function At(s: string, i: int): char {
    if 0 <= i < |s| then s[i] else '\0'
  }

  // The number of points which fit in n bytes.
  function Capacity(n: nat): nat {
    match n
    case 0 => 0
    case 1 => 0x80
    case 2 => 0x800
    case 3 => 0x1_0000
    case 4 => 0x20_0000
    case 5 => 0x400_0000
    case _ => 0x8000_0000
  }

  predicate Surrogate(point: int) {
    0xd800 <= point <= 0xdfff
  }

  // Every five bits beyond the first eleven take another byte.
  function FiveBits(x: nat): nat {
    if x == 0 then 0 else 1 + FiveBits(x / 32)
  }

  function PointLength(point: nat): int {
    if point < 0x80 then 1 else if Surrogate(point) then -1 else 2 + FiveBits(point / 0x800)
  }

  method PointToUtf8Length(point: nat) returns (n: int)
    ensures n == PointLength(point)
  {
    if point < 0x80 {
      return 1;
    }
    if point >= 0xd800 && point <= 0xdfff {
      return -1;
    }
    n := 2;
    var rest := point / 0x800;
    while rest != 0
      invariant 0 <= rest && n + FiveBits(rest) == 2 + FiveBits(point / 0x800)
    {
      n := n + 1;
      rest := rest / 32;
    }
  }

  // The length is the shortest one there is room in.
  lemma LengthIsShortest(point: nat)
    requires point < 0x8000_0000 && !Surrogate(point)
    ensures 1 <= PointLength(point) <= 6
    ensures Capacity(PointLength(point) - 1) <= point < Capacity(PointLength(point))
  {
    var x := point / 0x800;
    if point >= 0x80 {
      assert x >= 32 ==> FiveBits(x) == 1 + FiveBits(x / 32);
      assert x / 32 >= 32 ==> FiveBits(x / 32) == 1 + FiveBits(x / 32 / 32);
      assert x / 32 / 32 >= 32 ==> FiveBits(x / 32 / 32) == 1 + FiveBits(x / 32 / 32 / 32);
      assert FiveBits(x / 32 / 32 / 32) == if x / 32 / 32 / 32 == 0 then 0 else 1;
    }
  }

  // The point without its lowest k groups of six bits.
  function Shifted(point: nat, k: nat): nat {
    if k == 0 then point else Shifted(point, k - 1) / 64
  }

  // The lowest k groups of six bits, one to a byte.
  function Continuation(point: nat, k: nat): (s: string)
    ensures |s| == k
  {
    if k == 0 then "" else [(0x80 + Shifted(point, k - 1) % 64) as char] + Continuation(point, k - 1)
  }

  // The marker of the first of n bytes.
  function LeadMark(n: nat): nat {
    match n
    case 2 => 0xc0
    case 3 => 0xe0
    case 4 => 0xf0
    case 5 => 0xf8
    case _ => 0xfc
  }

  predicate Encodable(point: nat) {
    point < 0x8000_0000 && !Surrogate(point)
  }

  function Utf8Bytes(point: nat): (s: string)
    requires Encodable(point)
    ensures |s| == PointLength(point) && 1 <= |s| <= 6
  {
    LengthIsShortest(point);
    if point < 0x80 then [point as char]
    else
      var n := PointLength(point);
      LeadIsSmall(point, n);
      [(LeadMark(n) + Shifted(point, n - 1)) as char] + Continuation(point, n - 1)
  }

  // What is left for the first byte fits beside its marker.
  function LeadRoom(n: nat): nat {
    match n
    case 2 => 32
    case 3 => 16
    case 4 => 8
    case 5 => 4
    case _ => 2
  }

  lemma LeadIsSmall(point: nat, n: nat)
    requires 2 <= n <= 6 && point < Capacity(n)
    ensures Shifted(point, n - 1) < LeadRoom(n) <= 32 && LeadMark(n) % LeadRoom(n) == 0
  {
    assert Shifted(point, 1) == point / 64;
    assert Shifted(point, 2) == Shifted(point, 1) / 64;
    assert Shifted(point, 3) == Shifted(point, 2) / 64;
    assert Shifted(point, 4) == Shifted(point, 3) / 64;
    assert Shifted(point, 5) == Shifted(point, 4) / 64;
  }

  lemma {:induction false} ContinuationAt(point: nat, k: nat, j: nat)
    requires j < k
    ensures Continuation(point, k)[k - 1 - j] == (0x80 + Shifted(point, j) % 64) as char
  {
    if j < k - 1 {
      ContinuationAt(point, k - 1, j);
    }
  }

  // All but the buffer's elements from a up to b are as before.
  predicate Only(before: string, after: string, a: int, b: int) {
    |after| == |before| && forall k :: 0 <= k < |after| && !(a <= k < b) ==> after[k] == before[k]
  }

  lemma NextMark(n: nat)
    requires 1 <= n <= 5
    ensures (if n == 1 then 0x80 else LeadMark(n)) / 2 + 0x80 == LeadMark(n + 1)
  {
  }

  lemma NextShift(point: nat, k: nat)
    ensures Shifted(point, 0) == point && Shifted(point, k + 1) == Shifted(point, k) / 64
  {
  }

  // Write the continuation bytes from the last to the first.
  method WriteContinuation(point: nat, out: array<char>, at: nat, n: nat) returns (rest: nat, final: nat)
    requires at + n <= out.Length && 1 <= n <= 6
    modifies out
    ensures rest == Shifted(point, n - 1) && final == if n == 1 then 0x80 else LeadMark(n)
    ensures Only(old(out[..]), out[..], at + 1, at + n)
    ensures out[at + 1..at + n] == Continuation(point, n - 1)
  {
    hide Shifted, LeadMark, Continuation;
    rest, final := point, 0x80;
    NextShift(point, 0);
    for i := 0 to n - 1
      invariant rest == Shifted(point, i)
      invariant final == if i == 0 then 0x80 else LeadMark(i + 1)
      invariant Only(old(out[..]), out[..], at + n - i, at + n)
      invariant forall j :: 0 <= j < i ==> out[at + n - 1 - j] == (0x80 + Shifted(point, j) % 64) as char
    {
      NextMark(i + 1);
      NextShift(point, i);
      out[at + n - i - 1] := (0x80 + rest % 0x40) as char;
      rest := rest / 64;
      final := final / 2 + 0x80;
    }
    var written := out[at + 1..at + n];
    forall k | 0 <= k < |written| ensures written[k] == Continuation(point, n - 1)[k] {
      ContinuationAt(point, n - 1, n - 2 - k);
      assert out[at + n - 1 - (n - 2 - k)] == (0x80 + Shifted(point, n - 2 - k) % 64) as char;
    }
  }

  method WriteMultibyte(point: nat, out: array<char>, at: nat, count: nat)
    requires Encodable(point) && point >= 0x80 && count == PointLength(point) && at + count <= out.Length
    modifies out
    ensures Only(old(out[..]), out[..], at, at + count) && out[at..at + count] == Utf8Bytes(point)
  {
    hide PointLength, Shifted, Continuation;
    LengthIsShortest(point);
    var rest, final := WriteContinuation(point, out, at, count);
    LeadIsSmall(point, count);
    // The bits of final and of the rest do not overlap.
    assert final % LeadRoom(count) == 0 && rest % 0x40 < LeadRoom(count);
    ghost var tail := out[at + 1..at + count];
    out[at] := (final + rest % 0x40) as char;
    assert out[at..at + count] == [(final + rest % 0x40) as char] + tail;
  }

  // Write a point as UTF-8 into a buffer, if it fits into max bytes.
  method PointToUtf8(point: nat, out: array<char>, at: nat, max: int) returns (count: int)
    requires Encodable(point) || Surrogate(point)
    requires at <= out.Length && max <= out.Length - at
    modifies out
    ensures if !Encodable(point) || PointLength(point) > max then
              count == -1 && Only(old(out[..]), out[..], 0, 0)
            else
              count == PointLength(point) && Only(old(out[..]), out[..], at, at + count) && out[at..at + count] == Utf8Bytes(point)
  {
    hide FiveBits;
    count := PointToUtf8Length(point);
    if count < 0 || count > max {
      return -1;
    }
    LengthIsShortest(point);
    if point < 0x80 {
      out[at] := (point % 0x80) as char;
      return 1;
    }
    WriteMultibyte(point, out, at, count);
  }

  // The bytes of every point, written out: the bits which are left over beside the marker
  // of the first byte, and six bits in each of those which follow.
  lemma BytesAre(point: nat)
    requires Encodable(point)
    ensures Utf8Bytes(point) ==
              if point < 0x80 then [point as char]
              else if point < 0x800 then [(0xc0 + point / 0x40) as char, (0x80 + point % 0x40) as char]
              else if point < 0x1_0000 then
                [(0xe0 + point / 0x1000) as char, (0x80 + point / 0x40 % 0x40) as char, (0x80 + point % 0x40) as char]
              else if point < 0x20_0000 then
                [(0xf0 + point / 0x4_0000) as char, (0x80 + point / 0x1000 % 0x40) as char,
                 (0x80 + point / 0x40 % 0x40) as char, (0x80 + point % 0x40) as char]
              else if point < 0x400_0000 then
                [(0xf8 + point / 0x100_0000) as char, (0x80 + point / 0x4_0000 % 0x40) as char,
                 (0x80 + point / 0x1000 % 0x40) as char, (0x80 + point / 0x40 % 0x40) as char, (0x80 + point % 0x40) as char]
              else
                [(0xfc + point / 0x4000_0000) as char, (0x80 + point / 0x100_0000 % 0x40) as char,
                 (0x80 + point / 0x4_0000 % 0x40) as char, (0x80 + point / 0x1000 % 0x40) as char,
                 (0x80 + point / 0x40 % 0x40) as char, (0x80 + point % 0x40) as char]
  {
    hide FiveBits;
    LengthIsShortest(point);
    ShiftsAre(point);
    ContinuationIs(point);
  }

  lemma ShiftsAre(point: nat)
    ensures Shifted(point, 0) == point && Shifted(point, 1) == point / 0x40 && Shifted(point, 2) == point / 0x1000
    ensures Shifted(point, 3) == point / 0x4_0000 && Shifted(point, 4) == point / 0x100_0000
    ensures Shifted(point, 5) == point / 0x4000_0000
  {
    assert Shifted(point, 1) == Shifted(point, 0) / 64;
    assert Shifted(point, 2) == Shifted(point, 1) / 64;
    assert Shifted(point, 3) == Shifted(point, 2) / 64;
    assert Shifted(point, 4) == Shifted(point, 3) / 64;
    assert Shifted(point, 5) == Shifted(point, 4) / 64;
  }

  lemma ContinuationIs(point: nat)
    ensures var c := (k: nat) => (0x80 + Shifted(point, k) % 64) as char;
            && Continuation(point, 1) == [c(0)] && Continuation(point, 2) == [c(1), c(0)]
            && Continuation(point, 3) == [c(2), c(1), c(0)] && Continuation(point, 4) == [c(3), c(2), c(1), c(0)]
            && Continuation(point, 5) == [c(4), c(3), c(2), c(1), c(0)]
  {
    hide Shifted;
    assert Continuation(point, 0) == "";
  }

  // Reading a point: the point and the number of its bytes, or an error.
  datatype PointRead = Point(point: nat, count: nat) | BadPoint(error: int)

  function ReadContinuation(s: string, p: int, k: nat, acc: nat, count: nat): PointRead
    decreases k
  {
    var u := At(s, p) as int;
    if k == 0 then Point(acc, count)
    else if u == 0 then BadPoint(-3)
    else if !(0x80 <= u < 0xc0) then BadPoint(-2)
    else ReadContinuation(s, p + 1, k - 1, acc * 64 + u % 0x40, count)
  }

  // The number of leading one bits of a byte.
  function Ones(u: nat): nat {
    if u < 0x80 then 0 else if u < 0xc0 then 1 else if u < 0xe0 then 2 else if u < 0xf0 then 3
    else if u < 0xf8 then 4 else if u < 0xfc then 5 else if u < 0xfe then 6 else if u < 0xff then 7 else 8
  }

  function ReadPoint(s: string, p: int): PointRead {
    var u := At(s, p) as int;
    if u < 0x80 then Point(u, 1)
    else if u < 0xc0 then BadPoint(-1)
    else if Ones(u) > 6 then BadPoint(-5)
    else ReadContinuation(s, p + 1, Ones(u) - 1, u % LeadRoom(Ones(u)), Ones(u))
  }

  lemma OneShiftedOut(uc: nat)
    requires 0x80 <= uc < 0x100
    ensures Ones(uc) == 1 + Ones(uc * 2 % 0x100)
  {
    assert uc * 2 % 0x100 == uc * 2 - 0x100;
  }

  // Counting the leading ones by shifting them out of a byte.
  method CountOnes(u: nat) returns (count: nat)
    requires u < 0x100
    ensures count == Ones(u)
  {
    var uc := u;
    count := 0;
    while uc >= 0x80
      invariant 0 <= uc < 0x100 && Ones(u) == count + Ones(uc)
      decreases Ones(uc)
    {
      OneShiftedOut(uc);
      count := count + 1;
      uc := uc * 2 % 0x100;
    }
  }

  method Utf8ToPoint(s: string, p: nat) returns (point: nat, count: int)
    requires p < |s| && (forall i :: 0 <= i < |s| ==> s[i] as int < 0x100)
    ensures match ReadPoint(s, p)
            case Point(r, n) => point == r && count == n
            case BadPoint(e) => point == 0 && count == e
  {
    var uc := s[p] as int;
    if uc < 0x80 {
      return uc, 1;
    }
    if uc < 0xc0 {
      return 0, -1;
    }
    count := CountOnes(uc);
    if count > 6 {
      return 0, -5;
    }
    point := uc % LeadRoom(count);
    for i := 1 to count
      invariant ReadContinuation(s, p + i, count - i, point, count) == ReadPoint(s, p)
    {
      uc := At(s, p + i) as int;
      if uc == 0 {
        return 0, -3;
      }
      if !(0x80 <= uc < 0xc0) {
        return 0, -2;
      }
      point := point * 64 + uc % 0x40;
    }
  }

  // Reading the continuation bytes of a point back.
  lemma {:induction false} ContinuationReadsBack(s: string, p: nat, point: nat, k: nat, count: nat)
    requires p + k <= |s| && s[p..p + k] == Continuation(point, k)
    ensures ReadContinuation(s, p, k, Shifted(point, k), count) == Point(point, count)
    decreases k
  {
    if k > 0 {
      assert s[p] == s[p..p + k][0];
      assert s[p + 1..p + k] == s[p..p + k][1..];
      ContinuationReadsBack(s, p + 1, point, k - 1, count);
    }
  }

  lemma FirstByte(n: nat, x: nat)
    requires 2 <= n <= 6 && x < LeadRoom(n)
    ensures var u := LeadMark(n) + x; 0xc0 <= u < 0xfe && Ones(u) == n && u % LeadRoom(n) == x
  {
    match n
    case 2 =>
    case 3 =>
    case 4 =>
    case 5 =>
    case 6 =>
  }

  // Reading undoes writing, wherever the point stands in a text.
  lemma PointRoundTrip(s: string, p: nat, point: nat)
    requires Encodable(point) && p + PointLength(point) <= |s| && s[p..p + PointLength(point)] == Utf8Bytes(point)
    ensures ReadPoint(s, p) == Point(point, PointLength(point))
  {
    hide PointLength, Shifted, Continuation, ReadContinuation;
    var n := PointLength(point);
    LengthIsShortest(point);
    assert s[p] == s[p..p + n][0];
    if point >= 0x80 {
      LeadIsSmall(point, n);
      FirstByte(n, Shifted(point, n - 1));
      assert s[p + 1..p + n] == s[p..p + n][1..];
      ContinuationReadsBack(s, p + 1, point, n - 1, n);
    }
  }
}
