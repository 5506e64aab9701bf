/**
 What the octets of an object identifier mean, as section 8.19 of X.690 has it: the
 value of a subidentifier, and the one way of writing it.
 */
module OidMeaning {
  import opened Wrappers
  import opened Decimals
  import opened Oid
  import opened OidTrips

  // Seven bits to an octet, the highest first.
  function ValueOf(o: seq<nat>): nat {
    if o == [] then 0 else ValueOf(o[..|o| - 1]) * 128 + o[|o| - 1] % 128
  }

  // The octets are those of one subidentifier: the high bit is set in all but the last,
  // and no octet could be left out at the front.
  predicate IsSubid(o: seq<nat>, v: nat) {
    && o != [] && o[|o| - 1] < 128 && o[0] != 128
    && (forall i :: 0 <= i < |o| - 1 ==> 128 <= o[i] < 256)
    && ValueOf(o) == v
  }

  // The octets before the last.
  predicate IsFront(o: seq<nat>, v: nat) {
    && (o == [] <==> v == 0) && (o != [] ==> o[0] != 128)
    && (forall i :: 0 <= i < |o| ==> 128 <= o[i] < 256)
    && ValueOf(o) == v
  }

  lemma OneMoreInFront(o: seq<nat>, v: nat)
    requires v > 0 && IsFront(o, v / 128)
    ensures IsFront(o + [v % 128 + 128], v)
  {
    var r := o + [v % 128 + 128];
    assert r[..|r| - 1] == o && r[|r| - 1] % 128 == v % 128;
  }

  lemma {:induction false} FrontIs(v: nat)
    requires v > 0
    ensures IsFront(Octets(v, false), v)
    decreases v
  {
    if v >= 128 {
      FrontIs(v / 128);
      OneMoreInFront(Octets(v / 128, false), v);
    } else {
      OneMoreInFront([], v);
    }
  }

  // A subidentifier is written as its octets.
  lemma OctetsMean(v: nat)
    ensures IsSubid(Octets(v, true), v)
  {
    var o := Octets(v, true);
    if v >= 128 {
      FrontIs(v / 128);
      assert o[..|o| - 1] == Octets(v / 128, false);
    } else {
      assert o == [v] && o[..0] == [];
    }
  }

  // There is no other way to write it.

  lemma {:induction false} FrontIsUnique(o: seq<nat>, v: nat)
    requires IsFront(o, v)
    ensures o == if v == 0 then [] else Octets(v, false)
    decreases |o|
  {
    if o != [] {
      var k := |o| - 1;
      var w := ValueOf(o[..k]);
      assert v == w * 128 + o[k] % 128 && w == v / 128 && o[k] == v % 128 + 128;
      if k > 0 {
        FrontHasValue(o[..k]);
        FrontIsUnique(o[..k], w);
        assert o == o[..k] + [o[k]];
      } else {
        assert o[..0] == [];
      }
    }
  }

  lemma {:induction false} FrontHasValue(o: seq<nat>)
    requires o != [] && o[0] != 128 && forall i :: 0 <= i < |o| ==> 128 <= o[i] < 256
    ensures ValueOf(o) > 0
    decreases |o|
  {
    if |o| > 1 {
      FrontHasValue(o[..|o| - 1]);
    } else {
      assert o[..0] == [];
    }
  }

  lemma SubidIsUnique(o: seq<nat>, v: nat)
    requires IsSubid(o, v)
    ensures o == Octets(v, true)
  {
    var k := |o| - 1;
    var w := ValueOf(o[..k]);
    assert w == v / 128 && o[k] == v % 128;
    if k > 0 {
      FrontHasValue(o[..k]);
      FrontIsUnique(o[..k], w);
    } else {
      assert o[..0] == [];
    }
    assert o == o[..k] + [o[k]];
  }

  // The octets hold these subidentifiers, one after the other.
  ghost predicate Hold(b: seq<nat>, subids: seq<nat>)
    decreases |subids|
  {
    if subids == [] then b == []
    else exists k :: 0 < k <= |b| && IsSubid(b[..k], subids[0]) && Hold(b[k..], subids[1..])
  }

  lemma {:induction false} AllOctetsHold(subids: seq<nat>)
    ensures Hold(AllOctets(subids), subids)
  {
    if subids != [] {
      var b, k := AllOctets(subids), |Octets(subids[0], true)|;
      OctetsMean(subids[0]);
      AllOctetsHold(subids[1..]);
      assert b[..k] == Octets(subids[0], true) && b[k..] == AllOctets(subids[1..]);
    }
  }

  lemma {:induction false} HoldingIsUnique(b: seq<nat>, subids: seq<nat>)
    requires Hold(b, subids)
    ensures b == AllOctets(subids)
    decreases |subids|
  {
    hide IsSubid, Octets;
    if subids != [] {
      var k :| 0 < k <= |b| && IsSubid(b[..k], subids[0]) && Hold(b[k..], subids[1..]);
      SubidIsUnique(b[..k], subids[0]);
      HoldingIsUnique(b[k..], subids[1..]);
      assert b == b[..k] + b[k..];
    }
  }

  // Dotted text of two components or more becomes the octets which hold forty times the
  // first and the second in one subidentifier, and then the others, and no other octets.
  lemma TextBecomes(arcs: seq<nat>, b: seq<nat>)
    requires |arcs| >= 2 && Longs(arcs) && arcs[0] * 40 + arcs[1] < ULONG
    ensures FromText(Dotted(arcs)) == Some(b) <==> Hold(b, [arcs[0] * 40 + arcs[1]] + arcs[2..])
  {
    hide FromText, Dotted, AllOctets, Hold;
    var subids := [arcs[0] * 40 + arcs[1]] + arcs[2..];
    TextIsRead(arcs);
    assert Merge(arcs) == subids;
    AllOctetsHold(subids);
    if Hold(b, subids) {
      HoldingIsUnique(b, subids);
    }
  }

  // Octets which hold subidentifiers of at most nine octets each are printed as forties and
  // the rest of the first, and then the others.
  lemma OctetsBecome(b: seq<nat>, subids: seq<nat>)
    requires subids != [] && Hold(b, subids) && Longs(subids) && Short(subids)
    ensures ToText(b) == Some(Dotted([subids[0] / 40, subids[0] % 40] + subids[1..]))
  {
    HoldingIsUnique(b, subids);
    OctetsToText(subids);
  }
}
