/**
 Object identifiers: the dotted decimal form, and the octets of section 8.19 of
 X.690, seven bits of a subidentifier to an octet.
 */
module Oid {
  import opened Wrappers
  import opened Decimals
  import opened Utf8

  // unsigned long has 64 bits.
  const ULONG := 0x1_0000_0000_0000_0000

  // Reading octets.

  // The subidentifiers from position p on, after n octets worth acc: None if one
  // takes more than nine octets.  Octets of one which does not end are ignored.
  function SubidsFrom(b: seq<nat>, p: nat, acc: nat, n: nat): Option<seq<nat>>
    decreases |b| - p
  {
    if p >= |b| then Some([])
    else
      var v := acc * 128 + b[p] % 128;
      if (n + 1) * 7 > 64 then None
      else if b[p] % 256 < 128 then
        Joined([v], SubidsFrom(b, p + 1, 0, 0))
      else SubidsFrom(b, p + 1, v, n + 1)
  }

  function Subids(b: seq<nat>): Option<seq<nat>> {
    SubidsFrom(b, 0, 0, 0)
  }

  // The first subidentifier is printed as two components.
  function Split(subids: seq<nat>): seq<nat> {
    if subids == [] then [] else [subids[0] / 40, subids[0] % 40] + subids[1..]
  }

  function Dotted(arcs: seq<nat>): string {
    if arcs == [] then "" else if |arcs| == 1 then Decimal(arcs[0]) else Decimal(arcs[0]) + "." + Dotted(arcs[1..])
  }

  // None is a NULL pointer: an overflow, or no subidentifier at all.
  function ToText(b: seq<nat>): Option<string> {
    match Subids(b)
    case Some(subids) => if subids == [] then None else Some(Dotted(Split(subids)))
    case None => None
  }

  // A dotted text with one more component.
  function Extended(s: Option<string>, v: nat): Option<string> {
    match s
    case None => Some(Decimal(v / 40) + "." + Decimal(v % 40))
    case Some(t) => Some(t + "." + Decimal(v))
  }

  function ExtendedBy(s: Option<string>, subids: seq<nat>): Option<string>
    decreases |subids|
  {
    if subids == [] then s else ExtendedBy(Extended(s, subids[0]), subids[1..])
  }

  lemma DotsAssociate(a: string, b: string, c: string)
    ensures a + "." + b + "." + c == a + "." + (b + "." + c)
  {
  }

  lemma {:induction false} ExtendedIsDotted(s: string, subids: seq<nat>)
    ensures ExtendedBy(Some(s), subids) == Some(if subids == [] then s else s + "." + Dotted(subids))
    decreases |subids|
  {
    if subids != [] {
      ExtendedIsDotted(s + "." + Decimal(subids[0]), subids[1..]);
      if |subids| > 1 {
        DotsAssociate(s, Decimal(subids[0]), Dotted(subids[1..]));
      }
    }
  }

  lemma TextIsExtended(subids: seq<nat>)
    requires subids != []
    ensures ExtendedBy(None, subids) == Some(Dotted(Split(subids)))
  {
    var v, rest := subids[0], subids[1..];
    ExtendedIsDotted(Decimal(v / 40) + "." + Decimal(v % 40), rest);
    DottedPair(v / 40, v % 40, rest);
  }

  lemma DottedPair(x: nat, y: nat, rest: seq<nat>)
    ensures Dotted([x, y] + rest) ==
              if rest == [] then Decimal(x) + "." + Decimal(y) else Decimal(x) + "." + Decimal(y) + "." + Dotted(rest)
  {
    var arcs := [x, y] + rest;
    assert arcs[1..] == [y] + rest;
    assert arcs[1..][1..] == rest;
    if rest == [] {
      assert Dotted(arcs[1..]) == Decimal(y);
    } else {
      assert Dotted(arcs[1..]) == Decimal(y) + "." + Dotted(rest);
      DotsAssociate(Decimal(x), Decimal(y), Dotted(rest));
    }
  }

  // The subidentifiers read so far and those still to come.
  function Joined(done: seq<nat>, rest: Option<seq<nat>>): Option<seq<nat>> {
    match rest
    case Some(r) => Some(done + r)
    case None => None
  }

  lemma JoinedTwice(done: seq<nat>, v: nat, rest: Option<seq<nat>>)
    ensures Joined(done, Joined([v], rest)) == Joined(done + [v], rest)
    ensures Joined([], rest) == rest
  {
    if rest.Some? {
      assert done + ([v] + rest.value) == done + [v] + rest.value;
      assert [] + rest.value == rest.value;
    }
  }

  method OidToString(data: seq<nat>) returns (s: Option<string>)
    requires forall i :: 0 <= i < |data| ==> data[i] < 256
    ensures s == ToText(data)
  {
    var l: nat, n: nat := 0, 0;
    s := None;
    ghost var done: seq<nat> := [];
    JoinedTwice([], 0, Subids(data));
    for p := 0 to |data|
      invariant s == ExtendedBy(None, done) && (s == None <==> done == [])
      invariant Joined(done, SubidsFrom(data, p, l, n)) == Subids(data)
    {
      l := l * 128 + data[p] % 128;
      n := n + 1;
      if n * 7 > 64 {
        return None;
      }
      if data[p] < 128 {
        ExtendedByOne(done, l);
        JoinedTwice(done, l, SubidsFrom(data, p + 1, 0, 0));
        match s {
          case Some(t) => s := Some(t + "." + Decimal(l));
          case None => s := Some(Decimal(l / 40) + "." + Decimal(l % 40));
        }
        done := done + [l];
        l, n := 0, 0;
      }
    }
    assert done + [] == done;
    if done != [] {
      TextIsExtended(done);
    }
  }

  lemma ExtendedByOne(subids: seq<nat>, v: nat)
    ensures ExtendedBy(None, subids + [v]) == Extended(ExtendedBy(None, subids), v)
  {
    ExtendedAtEnd(None, subids, v);
  }

  lemma {:induction false} ExtendedAtEnd(s: Option<string>, subids: seq<nat>, v: nat)
    ensures ExtendedBy(s, subids + [v]) == Extended(ExtendedBy(s, subids), v)
    decreases |subids|
  {
    if subids == [] {
      assert (subids + [v])[1..] == [];
    } else {
      assert (subids + [v])[1..] == subids[1..] + [v];
      ExtendedAtEnd(Extended(s, subids[0]), subids[1..], v);
    }
  }

  // Writing octets.

  // The octets of a subidentifier; all but the last of them carry the high bit.
  function Octets(v: nat, last: bool): (r: seq<nat>)
    ensures r != [] && forall i :: 0 <= i < |r| ==> r[i] < 256
  {
    (if v < 128 then [] else Octets(v / 128, false)) + [v % 128 + if last then 0 else 128]
  }

  function AllOctets(subids: seq<nat>): (r: seq<nat>)
    ensures forall i :: 0 <= i < |r| ==> r[i] < 256
  {
    if subids == [] then [] else Octets(subids[0], true) + AllOctets(subids[1..])
  }

  // The first two components make one subidentifier, in an unsigned long.
  function Merge(arcs: seq<nat>): seq<nat> {
    if |arcs| >= 2 then [(arcs[0] * 40 + arcs[1]) % ULONG] + arcs[2..] else arcs
  }

  predicate IsSpace(c: char) {
    c == ' ' || 9 <= c as int <= 13
  }

  function SkipSpace(s: string, p: int): (r: int)
    ensures p <= r
    ensures p <= |s| ==> r <= |s|
    decreases |s| - p
  {
    if 0 <= p < |s| && IsSpace(s[p]) then SkipSpace(s, p + 1) else p
  }

  // The value and the end of the digits at a position.
  function DigitsFrom(s: string, p: int, acc: nat): (r: (nat, int))
    ensures p <= r.1
    ensures p <= |s| ==> r.1 <= |s|
    decreases |s| - p
  {
    if 0 <= p < |s| && IsDigit(s[p]) then DigitsFrom(s, p + 1, acc * 10 + (s[p] as int - '0' as int)) else (acc, p)
  }

  // strtoul(): spaces, a sign and digits; too much is held at the largest number,
  // and a minus sign negates in 64 bits.  Without digits nothing is read at all.
  function Strtoul(s: string, p: int): (r: (nat, int))
    ensures p <= r.1
    ensures p <= |s| ==> r.1 <= |s|
    ensures r.0 < ULONG
  {
    var q := SkipSpace(s, p);
    var signed := At(s, q) == '-' || At(s, q) == '+';
    var d := if signed then q + 1 else q;
    var (v, e) := DigitsFrom(s, d, 0);
    if !IsDigit(At(s, d)) then (0, p)
    else if v >= ULONG then (ULONG - 1, e)
    else if At(s, q) == '-' then ((ULONG - v) % ULONG, e)
    else (v, e)
  }

  // The components from position p on.  A component which begins with a dot ends
  // the reading; anything after a number but a dot makes it fail.
  function ArcsFrom(s: string, p: nat): Option<seq<nat>>
    decreases |s| - p
  {
    var (v, e) := Strtoul(s, p);
    if At(s, e) == '\0' then Some([v])
    else if At(s, e) != '.' then None
    else if At(s, e + 1) == '.' then Some([v])
    else
      Joined([v], ArcsFrom(s, e + 1))
  }

  function Arcs(s: string): Option<seq<nat>> {
    if At(s, 0) == '\0' || At(s, 0) == '.' then Some([]) else ArcsFrom(s, 0)
  }

  function FromText(s: string): Option<seq<nat>> {
    match Arcs(s)
    case Some(arcs) => Some(AllOctets(Merge(arcs)))
    case None => None
  }

  // The reading loop is about to read a component from p on.
  predicate GoesOn(s: string, p: int, endptr: int) {
    At(s, endptr) != '\0' && At(s, p) != '.'
  }

  method ReadArcs(s: string, l: array<nat>) returns (ok: bool, n: nat)
    requires l.Length == |s| + 1
    modifies l
    ensures n <= l.Length
    ensures match Arcs(s)
            case Some(arcs) => ok && l[..n] == arcs
            case None => !ok
  {
    var p: nat, endptr: int := 0, 0;
    n := 0;
    JoinedTwice([], 0, ArcsFrom(s, 0));
    while GoesOn(s, p, endptr)
      invariant n <= |s| + 1 && (GoesOn(s, p, endptr) ==> n <= p <= |s|)
      invariant Arcs(s) == if GoesOn(s, p, endptr) then Joined(l[..n], ArcsFrom(s, p)) else Some(l[..n])
      decreases if GoesOn(s, p, endptr) then |s| - p + 1 else 0
    {
      var (v, e) := Strtoul(s, p);
      ghost var done := l[..n];
      l[n] := v;
      endptr := e;
      assert l[..n + 1] == done + [v];
      match At(s, endptr)
      case '.' =>
        JoinedTwice(done, v, ArcsFrom(s, endptr + 1));
        n := n + 1;
        p := endptr + 1;
      case '\0' =>
        n := n + 1;
      case _ =>
        return false, n;
    }
    ok := true;
  }

  // Merge the first two values, moving the others down, if there are two.
  method MergeFirst(l: array<nat>, n: nat) returns (m: nat)
    requires n <= l.Length
    modifies l
    ensures m <= n && l[..m] == Merge(old(l[..n]))
  {
    if n < 2 {
      return n;
    }
    l[0] := (l[0] * 40 + l[1]) % ULONG;
    m := n - 1;
    for i := 1 to m
      invariant l[0] == (old(l[0]) * 40 + old(l[1])) % ULONG
      invariant forall k :: 1 <= k < i ==> l[k] == old(l[k + 1])
      invariant forall k :: i < k < n ==> l[k] == old(l[k])
    {
      l[i] := l[i + 1];
    }
  }

  function Backwards(s: seq<nat>): (r: seq<nat>)
    ensures |r| == |s| && forall i :: 0 <= i < |s| ==> r[i] == s[|s| - 1 - i]
  {
    if s == [] then [] else Backwards(s[1..]) + [s[0]]
  }

  lemma {:induction false} BackwardsConcat(s: seq<nat>, t: seq<nat>)
    ensures Backwards(s + t) == Backwards(t) + Backwards(s)
  {
    var left, right := Backwards(s + t), Backwards(t) + Backwards(s);
    forall i | 0 <= i < |left| ensures left[i] == right[i] {
      assert left[i] == (s + t)[|s + t| - 1 - i];
    }
  }

  lemma {:induction false} BackwardsTwice(s: seq<nat>)
    ensures Backwards(Backwards(s)) == s
  {
    forall i | 0 <= i < |s| ensures Backwards(Backwards(s))[i] == s[i] {
      assert Backwards(Backwards(s))[i] == Backwards(s)[|s| - 1 - i];
    }
  }

  function Pow128(k: nat): nat {
    if k == 0 then 1 else 128 * Pow128(k - 1)
  }

  // A subidentifier of 64 bits takes at most ten octets.
  lemma {:induction false} OctetsFit(v: nat, last: bool, k: nat)
    requires v < Pow128(k) && k > 0
    ensures |Octets(v, last)| <= k
    decreases k
  {
    if v >= 128 {
      OctetsFit(v / 128, false, k - 1);
    }
  }

  lemma TenOctets(v: nat)
    requires v < ULONG
    ensures |Octets(v, true)| <= 10
  {
    assert Pow128(5) == 128 * 128 * 128 * 128 * 128;
    assert Pow128(10) == 128 * 128 * 128 * 128 * 128 * Pow128(5);
    OctetsFit(v, true, 10);
  }

  // The octets with the lowest bits first; more says that some came before.
  function Spooled(v: nat, more: bool): seq<nat> {
    [v % 128 + if more then 128 else 0] + if v < 128 then [] else Spooled(v / 128, true)
  }

  lemma {:induction false} SpooledIsBackwards(v: nat, last: bool)
    ensures Spooled(v, !last) == Backwards(Octets(v, last))
    decreases v
  {
    var octet := v % 128 + if last then 0 else 128;
    var front := if v < 128 then [] else Octets(v / 128, false);
    BackwardsConcat(front, [octet]);
    assert Backwards([octet]) == [octet];
    if v >= 128 {
      SpooledIsBackwards(v / 128, false);
    }
  }

  // What is still to be spooled.
  function Unspooled(val: nat, more: bool): seq<nat> {
    if more && val == 0 then [] else Spooled(val, more)
  }

  lemma SpoolsOne(val: nat, more: bool)
    requires !more || val != 0
    ensures Unspooled(val, more) == [val % 128 + if more then 128 else 0] + Unspooled(val / 128, true)
  {
  }

  lemma MovesOver(done: seq<nat>, octet: nat, left: seq<nat>, whole: seq<nat>)
    requires done + ([octet] + left) == whole
    ensures done + [octet] + left == whole
  {
  }

  // One value goes into the buffer with its lowest bits first.
  method SpoolOne(v: nat, data: array<nat>, start: nat) returns (up: nat)
    requires v < ULONG && start + 10 <= data.Length
    modifies data
    ensures up <= start + 10 && data[..up] == old(data[..start]) + Backwards(Octets(v, true))
  {
    TenOctets(v);
    SpooledIsBackwards(v, true);
    up := start;
    var val: nat, more := v, false;
    ghost var whole, left := old(data[..start]) + Spooled(v, false), Spooled(v, false);
    while !more || val != 0
      invariant start <= up && up + |left| == |whole| <= start + 10 && left == Unspooled(val, more)
      invariant data[..up] + left == whole
      decreases val, !more
    {
      var octet := val % 0x80 + if more then 0x80 else 0;
      ghost var done := data[..up];
      SpoolsOne(val, more);
      left := left[1..];
      assert left == Unspooled(val / 128, true);
      MovesOver(done, octet, left, whole);
      data[up] := octet;
      assert data[..up + 1] == done + [octet];
      val := val / 128;
      more := true;
      up := up + 1;
    }
    assert data[..up] + [] == data[..up];
  }

  // The values go into the buffer, the last one first.
  method Spool(l: array<nat>, n: nat, data: array<nat>) returns (len: nat)
    requires n <= l.Length && data.Length == (n + 1) * 10 && data != l && forall i :: 0 <= i < n ==> l[i] < ULONG
    modifies data
    ensures len <= 10 * n && data[..len] == Backwards(AllOctets(l[..n]))
  {
    len := 0;
    var i := n;
    while i > 0
      invariant 0 <= i <= n && len <= 10 * (n - i)
      invariant data[..len] == Backwards(AllOctets(l[i..n]))
    {
      i := i - 1;
      len := SpoolOne(l[i], data, len);
      assert l[i..n][1..] == l[i + 1..n];
      BackwardsConcat(Octets(l[i], true), AllOctets(l[i + 1..n]));
    }
    assert l[0..n] == l[..n];
  }

  method ReverseInPlace(data: array<nat>, len: nat)
    requires len <= data.Length
    modifies data
    ensures data[..len] == Backwards(old(data[..len]))
  {
    for i := 0 to len / 2
      invariant forall k :: 0 <= k < i ==> data[k] == old(data[len - 1 - k]) && data[len - 1 - k] == old(data[k])
      invariant forall k :: i <= k < len - i ==> data[k] == old(data[k])
    {
      var u := data[i];
      data[i] := data[len - 1 - i];
      data[len - 1 - i] := u;
    }
  }

  method OidFromString(oid: string) returns (ret: Option<seq<nat>>)
    ensures ret == FromText(oid)
  {
    var l := new nat[|oid| + 1];
    var ok, n := ReadArcs(oid, l);
    if !ok {
      return None;
    }
    ArcsAreLongs(oid);
    ghost var arcs := l[..n];
    n := MergeFirst(l, n);
    assert forall i :: 0 <= i < n ==> l[..n][i] < ULONG;
    var data := new nat[(n + 1) * 10];
    var len := Spool(l, n, data);
    ReverseInPlace(data, len);
    BackwardsTwice(AllOctets(Merge(arcs)));
    ret := Some(data[..len]);
  }

  predicate Longs(arcs: seq<nat>) {
    forall i :: 0 <= i < |arcs| ==> arcs[i] < ULONG
  }

  lemma ArcsAreLongs(s: string)
    ensures Arcs(s).Some? ==> Longs(Arcs(s).value) && Longs(Merge(Arcs(s).value))
  {
    ArcsFromAreLongs(s, 0);
  }

  lemma {:induction false} ArcsFromAreLongs(s: string, p: nat)
    ensures ArcsFrom(s, p).Some? ==> Longs(ArcsFrom(s, p).value)
    decreases |s| - p
  {
    var (v, e) := Strtoul(s, p);
    if At(s, e) == '.' && At(s, e + 1) != '.' {
      ArcsFromAreLongs(s, e + 1);
    }
  }
}
