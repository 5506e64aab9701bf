/**
 From octets to text and back, and from text to octets and back.
 */
module OidTrips {
  import opened Wrappers
  import opened Decimals
  import opened Oid

  // The most a subidentifier of nine octets can be, and one more.
  const NINE_OCTETS := 0x8000_0000_0000_0000

  lemma NineOctets()
    ensures Pow128(9) == NINE_OCTETS && Pow128(10) == 128 * NINE_OCTETS
  {
    assert Pow128(4) == 128 * 128 * 128 * 128;
    assert Pow128(9) == 128 * 128 * 128 * 128 * 128 * Pow128(4);
  }

  // From position p on, after n octets of a subidentifier: every subidentifier has
  // at most nine octets, none begins with an octet of 0x80, and the last is whole.
  predicate MinimalFrom(b: seq<nat>, p: nat, n: nat)
    decreases |b| - p
  {
    if p >= |b| then n == 0
    else
      && b[p] < 256 && n < 9 && (n == 0 ==> b[p] != 0x80)
      && MinimalFrom(b, p + 1, if b[p] < 128 then 0 else n + 1)
  }

  predicate Minimal(b: seq<nat>) {
    MinimalFrom(b, 0, 0)
  }

  // The octets read so far.
  function Pending(acc: nat, n: nat): seq<nat> {
    if n == 0 then [] else Octets(acc, false)
  }

  lemma PowGrows(acc: nat, d: nat, n: nat)
    requires acc < Pow128(n) && d < 128
    ensures acc * 128 + d < Pow128(n + 1)
  {
  }

  lemma {:induction false} PowMonotone(m: nat, n: nat)
    requires m <= n
    ensures Pow128(m) <= Pow128(n)
    decreases n
  {
    if m < n {
      PowMonotone(m, n - 1);
    }
  }

  lemma OneMoreOctet(acc: nat, n: nat, d: nat, last: bool)
    requires d < 128 && (if n == 0 then acc == 0 else acc > 0)
    requires last || n > 0 || d > 0
    ensures Octets(acc * 128 + d, last) == Pending(acc, n) + [d + if last then 0 else 128]
  {
    var v := acc * 128 + d;
    assert v / 128 == acc && v % 128 == d;
    assert v < 128 <==> acc == 0;
  }

  // Minimal octets are what their subidentifiers are written as.
  predicate ComesBack(b: seq<nat>, p: nat, acc: nat, n: nat)
    requires p <= |b|
  {
    && SubidsFrom(b, p, acc, n).Some?
    && AllOctets(SubidsFrom(b, p, acc, n).value) == Pending(acc, n) + b[p..]
    && Short(SubidsFrom(b, p, acc, n).value)
  }

  lemma {:induction false} OctetsComeBack(b: seq<nat>, p: nat, acc: nat, n: nat)
    requires p <= |b| && MinimalFrom(b, p, n) && n <= 9 && acc < Pow128(n) && (if n == 0 then acc == 0 else acc > 0)
    ensures ComesBack(b, p, acc, n)
    decreases |b| - p
  {
    if p < |b| {
      var v := NextOctet(b, p, acc, n);
      if b[p] < 128 {
        OctetsComeBack(b, p + 1, 0, 0);
        FitsInNine(v, n);
        LastOctetComesBack(b, p, acc, n, v);
      } else {
        OctetsComeBack(b, p + 1, v, n + 1);
        HighOctetComesBack(b, p, acc, n, v);
      }
    }
  }

  // The value with one more octet.
  lemma NextOctet(b: seq<nat>, p: nat, acc: nat, n: nat) returns (v: nat)
    requires p < |b| && MinimalFrom(b, p, n) && acc < Pow128(n) && (if n == 0 then acc == 0 else acc > 0)
    ensures v == acc * 128 + b[p] % 128 && v < Pow128(n + 1) && n < 9 && b[p] < 256 && (b[p] >= 128 ==> v > 0)
    ensures Octets(v, b[p] < 128) == Pending(acc, n) + [b[p]]
  {
    var d := b[p] % 128;
    v := acc * 128 + d;
    PowGrows(acc, d, n);
    OneMoreOctet(acc, n, d, b[p] < 128);
  }

  lemma FitsInNine(v: nat, n: nat)
    requires v < Pow128(n + 1) && n < 9
    ensures v < NINE_OCTETS
  {
    NineOctets();
    PowMonotone(n + 1, 9);
  }

  lemma LastOctetStep(b: seq<nat>, p: nat, acc: nat, n: nat)
    requires p < |b| && b[p] < 128 && n < 9
    ensures SubidsFrom(b, p, acc, n) == Joined([acc * 128 + b[p] % 128], SubidsFrom(b, p + 1, 0, 0))
  {
  }

  lemma LastOctetComesBack(b: seq<nat>, p: nat, acc: nat, n: nat, v: nat)
    requires p < |b| && b[p] < 128 && n < 9 && v == acc * 128 + b[p] % 128 && v < NINE_OCTETS
    requires Octets(v, true) == Pending(acc, n) + [b[p]] && ComesBack(b, p + 1, 0, 0)
    ensures ComesBack(b, p, acc, n)
  {
    hide SubidsFrom, AllOctets, Octets, Short;
    var rest := SubidsFrom(b, p + 1, 0, 0).value;
    LastOctetStep(b, p, acc, n);
    assert [] + b[p + 1..] == b[p + 1..];
    WholeSubid(v, rest, Pending(acc, n), b, p);
  }

  lemma HighOctetComesBack(b: seq<nat>, p: nat, acc: nat, n: nat, v: nat)
    requires p < |b| && 128 <= b[p] < 256 && n < 9 && v == acc * 128 + b[p] % 128 && ComesBack(b, p + 1, v, n + 1)
    requires Octets(v, false) == Pending(acc, n) + [b[p]]
    ensures ComesBack(b, p, acc, n)
  {
    HighOctetStep(b, p, acc, n, v);
    PendingGoesOn(Pending(acc, n), b, p);
  }

  lemma HighOctetStep(b: seq<nat>, p: nat, acc: nat, n: nat, v: nat)
    requires p < |b| && 128 <= b[p] < 256 && n < 9 && v == acc * 128 + b[p] % 128
    ensures SubidsFrom(b, p, acc, n) == SubidsFrom(b, p + 1, v, n + 1)
  {
  }

  lemma PendingGoesOn(pending: seq<nat>, b: seq<nat>, p: nat)
    requires p < |b|
    ensures pending + [b[p]] + b[p + 1..] == pending + b[p..]
  {
  }

  lemma WholeSubid(v: nat, rest: seq<nat>, pending: seq<nat>, b: seq<nat>, p: nat)
    requires p < |b| && Octets(v, true) == pending + [b[p]] && AllOctets(rest) == b[p + 1..]
    requires v < NINE_OCTETS && Short(rest)
    ensures AllOctets([v] + rest) == pending + b[p..] && Short([v] + rest)
  {
    var all := [v] + rest;
    assert all[0] == v && all[1..] == rest;
    assert AllOctets(all) == Octets(v, true) + AllOctets(rest);
    PendingGoesOn(pending, b, p);
    assert Short(all) by {
      forall i | 0 <= i < |all| ensures all[i] < NINE_OCTETS {
        assert i > 0 ==> all[i] == rest[i - 1];
      }
    }
  }

  // Reading the octets of one subidentifier.

  lemma {:induction false} PrefixIsRead(b: seq<nat>, p: nat, v: nat)
    requires p + |Octets(v, false)| <= |b| && b[p..p + |Octets(v, false)|] == Octets(v, false)
    requires |Octets(v, false)| <= 9
    ensures SubidsFrom(b, p, 0, 0) == SubidsFrom(b, p + |Octets(v, false)|, v, |Octets(v, false)|)
    decreases v
  {
    hide SubidsFrom;
    var o := Octets(v, false);
    var k := |o|;
    assert b[p + k - 1] == o[k - 1] == v % 128 + 128;
    if v >= 128 {
      assert o[..k - 1] == Octets(v / 128, false);
      assert b[p..p + k - 1] == b[p..p + k][..k - 1];
      PrefixIsRead(b, p, v / 128);
      HighIsRead(b, p + k - 1, v, k - 1);
    } else {
      HighIsRead(b, p, v, 0);
    }
  }

  lemma HighIsRead(b: seq<nat>, p: nat, v: nat, n: nat)
    requires p < |b| && b[p] == v % 128 + 128 && n < 9
    ensures SubidsFrom(b, p, v / 128, n) == SubidsFrom(b, p + 1, v, n + 1)
  {
    assert v == (v / 128) * 128 + v % 128 && b[p] % 128 == v % 128;
  }

  lemma {:induction false} LongOctets(v: nat, last: bool, k: nat)
    requires v >= Pow128(k)
    ensures |Octets(v, last)| >= k + 1
    decreases k
  {
    if k > 0 {
      LongOctets(v / 128, false, k - 1);
    }
  }

  lemma SubidIsRead(b: seq<nat>, p: nat, v: nat)
    requires v < ULONG && p + |Octets(v, true)| <= |b| && b[p..p + |Octets(v, true)|] == Octets(v, true)
    ensures SubidsFrom(b, p, 0, 0) ==
              if v < NINE_OCTETS then Joined([v], SubidsFrom(b, p + |Octets(v, true)|, 0, 0)) else None
  {
    hide SubidsFrom;
    var o := Octets(v, true);
    var k := |o|;
    assert b[p + k - 1] == o[k - 1] == v % 128;
    OctetCount(v);
    if v >= 128 {
      assert o[..k - 1] == Octets(v / 128, false);
      assert b[p..p + k - 1] == b[p..p + k][..k - 1];
      PrefixIsRead(b, p, v / 128);
      LastIsRead(b, p + k - 1, v, k - 1);
    } else {
      LastIsRead(b, p, v, 0);
    }
  }

  lemma LastIsRead(b: seq<nat>, p: nat, v: nat, n: nat)
    requires p < |b| && b[p] == v % 128
    ensures SubidsFrom(b, p, v / 128, n) == if n < 9 then Joined([v], SubidsFrom(b, p + 1, 0, 0)) else None
  {
    assert v == (v / 128) * 128 + v % 128;
  }

  lemma OctetCount(v: nat)
    requires v < ULONG
    ensures |Octets(v, true)| <= 10 && (v < NINE_OCTETS <==> |Octets(v, true)| <= 9)
  {
    NineOctets();
    TenOctets(v);
    if v < NINE_OCTETS {
      OctetsFit(v, true, 9);
    } else {
      LongOctets(v, true, 9);
    }
  }

  predicate Short(subids: seq<nat>) {
    forall i :: 0 <= i < |subids| ==> subids[i] < NINE_OCTETS
  }

  // The octets of subidentifiers are read back exactly if all of them are short.
  lemma {:induction false} SubidsAreRead(b: seq<nat>, p: nat, subids: seq<nat>)
    requires Longs(subids) && p <= |b| && b[p..] == AllOctets(subids)
    ensures SubidsFrom(b, p, 0, 0) == if Short(subids) then Some(subids) else None
    decreases |subids|
  {
    hide Octets;
    if subids != [] {
      var v, rest := subids[0], subids[1..];
      var end := p + |Octets(v, true)|;
      assert b[p..end] == b[p..][..|Octets(v, true)|] == Octets(v, true);
      assert b[end..] == b[p..][|Octets(v, true)|..] == AllOctets(rest);
      SubidIsRead(b, p, v);
      SubidsAreRead(b, end, rest);
      assert [v] + rest == subids;
      assert Short(subids) <==> v < NINE_OCTETS && Short(rest);
    }
  }

  // Reading decimal numbers.

  lemma {:induction false} DigitsAreRead(s: string, p: nat, q: nat, acc: nat)
    requires p <= q <= |s| && (forall i :: p <= i < q ==> IsDigit(s[i])) && (q < |s| ==> !IsDigit(s[q]))
    ensures DigitsFrom(s, p, acc) == (DigitsValue(s[p..q], acc), q)
    decreases q - p
  {
    if p < q {
      assert s[p..q][0] == s[p] && s[p..q][1..] == s[p + 1..q];
      DigitsAreRead(s, p + 1, q, acc * 10 + (s[p] as int - '0' as int));
    }
  }

  lemma NumberIsRead(s: string, p: nat, q: nat, v: nat)
    requires p <= q <= |s| && s[p..q] == Decimal(v) && (q < |s| ==> !IsDigit(s[q])) && v < ULONG
    ensures Strtoul(s, p) == (v, q)
  {
    forall i | p <= i < q ensures IsDigit(s[i]) {
      assert s[i] == s[p..q][i - p];
    }
    DigitsAreRead(s, p, q, 0);
    DigitsOfDecimal(v, "");
    assert Decimal(v) + "" == Decimal(v);
    assert p < q;
  }

  lemma DottedStands(s: string, p: nat, arcs: seq<nat>)
    requires arcs != [] && p <= |s| && s[p..] == Dotted(arcs)
    ensures var q := p + |Decimal(arcs[0])|;
            && p < q <= |s| && IsDigit(s[p]) && s[p..q] == Decimal(arcs[0])
            && (|arcs| == 1 ==> q == |s|)
            && (|arcs| > 1 ==> q < |s| && s[q] == '.' && s[q + 1..] == Dotted(arcs[1..]))
  {
    var d := Decimal(arcs[0]);
    var q := p + |d|;
    assert s[p] == s[p..][0];
    assert s[p..q] == s[p..][..|d|] == d;
    if |arcs| > 1 {
      assert Dotted(arcs)[|d|] == '.' && Dotted(arcs)[|d| + 1..] == Dotted(arcs[1..]);
      assert s[q] == s[p..][|d|] && s[q + 1..] == s[p..][|d| + 1..];
    }
  }

  // The first component, and where it ends.
  lemma FirstIsRead(s: string, p: nat, arcs: seq<nat>) returns (q: nat)
    requires arcs != [] && Longs(arcs) && p <= |s| && s[p..] == Dotted(arcs)
    ensures p < q <= |s| && IsDigit(s[p]) && Strtoul(s, p) == (arcs[0], q)
    ensures |arcs| == 1 ==> q == |s|
    ensures |arcs| > 1 ==> q < |s| && s[q] == '.' && s[q + 1..] == Dotted(arcs[1..]) && Longs(arcs[1..])
  {
    q := p + |Decimal(arcs[0])|;
    DottedStands(s, p, arcs);
    NumberIsRead(s, p, q, arcs[0]);
  }

  lemma LastArc(s: string, p: nat, q: nat, arcs: seq<nat>)
    requires |arcs| == 1 && q == |s| && Strtoul(s, p) == (arcs[0], q)
    ensures ArcsFrom(s, p) == Some(arcs)
  {
    assert arcs == [arcs[0]];
  }

  lemma OneMoreArc(s: string, p: nat, q: nat, arcs: seq<nat>)
    requires |arcs| > 1 && q + 1 < |s| && Strtoul(s, p) == (arcs[0], q) && s[q] == '.' && s[q + 1] != '.'
    requires ArcsFrom(s, q + 1) == Some(arcs[1..])
    ensures ArcsFrom(s, p) == Some(arcs)
  {
    hide Strtoul;
    assert ArcsFrom(s, p) == Joined([arcs[0]], ArcsFrom(s, q + 1));
    assert [arcs[0]] + arcs[1..] == arcs;
  }

  // Dotted components are read as they were printed.
  lemma {:induction false} ArcsAreRead(s: string, p: nat, arcs: seq<nat>)
    requires arcs != [] && Longs(arcs) && p <= |s| && s[p..] == Dotted(arcs)
    ensures ArcsFrom(s, p) == Some(arcs)
    decreases |arcs|
  {
    hide ArcsFrom, Dotted, Strtoul;
    var q := FirstIsRead(s, p, arcs);
    var rest := arcs[1..];
    if |arcs| == 1 {
      LastArc(s, p, q, arcs);
    } else {
      var _ := FirstIsRead(s, q + 1, rest);
      ArcsAreRead(s, q + 1, rest);
      OneMoreArc(s, p, q, arcs);
    }
  }

  lemma TextIsRead(arcs: seq<nat>)
    requires arcs != [] && Longs(arcs)
    ensures Arcs(Dotted(arcs)) == Some(arcs) && FromText(Dotted(arcs)) == Some(AllOctets(Merge(arcs)))
  {
    hide ArcsFrom;
    var s := Dotted(arcs);
    assert s[0..] == s;
    ArcsAreRead(s, 0, arcs);
  }

  lemma SplitOfShort(subids: seq<nat>)
    requires subids != [] && Short(subids)
    ensures Split(subids) != [] && Longs(Split(subids)) && Merge(Split(subids)) == subids
  {
    var arcs := Split(subids);
    assert arcs[2..] == subids[1..];
    assert forall i :: 2 <= i < |arcs| ==> arcs[i] == subids[i - 1];
    assert [subids[0]] + subids[1..] == subids;
  }

  // From octets to text and back: any minimal encoding survives, whatever its
  // first subidentifier is split into.
  lemma OctetsRoundTrip(b: seq<nat>)
    requires Minimal(b) && b != []
    ensures ToText(b).Some? && FromText(ToText(b).value) == Some(b)
  {
    OctetsComeBack(b, 0, 0, 0);
    var subids := Subids(b).value;
    assert AllOctets(subids) == b;
    SplitOfShort(subids);
    TextIsRead(Split(subids));
  }

  lemma SplitOfMerged(arcs: seq<nat>)
    requires |arcs| >= 2 && Longs(arcs) && Short(Merge(arcs))
    ensures Split(Merge(arcs)) == arcs <==> arcs[1] < 40 && arcs[0] * 40 + arcs[1] < NINE_OCTETS
  {
    var x := arcs[0] * 40 + arcs[1];
    var m := Merge(arcs);
    assert m[0] == x % ULONG && m[0] < NINE_OCTETS;
    assert m[1..] == arcs[2..];
    assert arcs == [arcs[0], arcs[1]] + arcs[2..];
    if arcs[1] < 40 && x < NINE_OCTETS {
      assert m[0] == x && x / 40 == arcs[0] && x % 40 == arcs[1];
    }
    if Split(m) == arcs {
      assert arcs[0] == Split(m)[0] == m[0] / 40 && arcs[1] == Split(m)[1] == m[0] % 40;
    }
  }

  // From text to octets and back: text of two components or more comes back
  // exactly if the second component is below 40, and no subidentifier takes more
  // than nine octets.
  lemma TextRoundTrip(arcs: seq<nat>)
    requires |arcs| >= 2 && Longs(arcs)
    ensures FromText(Dotted(arcs)).Some?
    ensures ToText(FromText(Dotted(arcs)).value) == Some(Dotted(arcs)) <==>
              arcs[1] < 40 && arcs[0] * 40 + arcs[1] < NINE_OCTETS && Short(arcs[2..])
  {
    TextIsRead(arcs);
    BackMeans(arcs);
    MergeMeans(arcs);
  }

  lemma BackMeans(arcs: seq<nat>)
    requires |arcs| >= 2 && Longs(arcs) && FromText(Dotted(arcs)).Some?
    ensures ToText(FromText(Dotted(arcs)).value) == Some(Dotted(arcs)) <==> Short(Merge(arcs)) && Split(Merge(arcs)) == arcs
  {
    TextIsRead(arcs);
    LongsMerge(arcs);
    OctetsToText(Merge(arcs));
    MergedText(arcs);
  }

  lemma MergeMeans(arcs: seq<nat>)
    requires |arcs| >= 2 && Longs(arcs)
    ensures Short(Merge(arcs)) && Split(Merge(arcs)) == arcs <==>
              arcs[1] < 40 && arcs[0] * 40 + arcs[1] < NINE_OCTETS && Short(arcs[2..])
  {
    ShortMerge(arcs);
    if Short(Merge(arcs)) {
      SplitOfMerged(arcs);
    } else if arcs[0] * 40 + arcs[1] < NINE_OCTETS {
      assert (arcs[0] * 40 + arcs[1]) % ULONG == arcs[0] * 40 + arcs[1];
    }
  }

  // The merged text is the old text exactly if splitting undoes merging.
  lemma MergedText(arcs: seq<nat>)
    requires |arcs| >= 2 && Longs(arcs)
    ensures Short(Merge(arcs)) ==> (Dotted(Split(Merge(arcs))) == Dotted(arcs) <==> Split(Merge(arcs)) == arcs)
  {
    if Short(Merge(arcs)) {
      SplitOfShort(Merge(arcs));
      DottedIsInjective(Split(Merge(arcs)), arcs);
    }
  }

  lemma OctetsToText(subids: seq<nat>)
    requires subids != [] && Longs(subids)
    ensures ToText(AllOctets(subids)) == if Short(subids) then Some(Dotted(Split(subids))) else None
  {
    var b := AllOctets(subids);
    assert b[0..] == b;
    SubidsAreRead(b, 0, subids);
  }

  lemma LongsMerge(arcs: seq<nat>)
    requires |arcs| >= 2 && Longs(arcs)
    ensures Longs(Merge(arcs))
  {
  }

  lemma ShortMerge(arcs: seq<nat>)
    requires |arcs| >= 2
    ensures Short(Merge(arcs)) <==> (arcs[0] * 40 + arcs[1]) % ULONG < NINE_OCTETS && Short(arcs[2..])
  {
    var m := Merge(arcs);
    assert m[0] == (arcs[0] * 40 + arcs[1]) % ULONG;
    assert m[1..] == arcs[2..];
    assert forall i :: 1 <= i < |m| ==> m[i] == arcs[2..][i - 1];
    assert forall i :: 0 <= i < |arcs[2..]| ==> arcs[2..][i] == m[i + 1];
  }

  lemma DottedIsInjective(a: seq<nat>, b: seq<nat>)
    requires a != [] && b != [] && Longs(a) && Longs(b)
    ensures Dotted(a) == Dotted(b) <==> a == b
  {
    TextIsRead(a);
    TextIsRead(b);
  }
}
