/**
 Certificates with nicknames, and lists of them.
 */
module NickCerts {
  import opened Wrappers

  datatype NickCert = NickCert(nickname: string, cert: string)

  predicate Includes(a: seq<NickCert>, b: seq<NickCert>) {
    forall i :: 0 <= i < |a| ==> a[i] in b
  }

  // Lists which hold the same pairs, however often; NULL is only like NULL.
  predicate SameCerts(a: Option<seq<NickCert>>, b: Option<seq<NickCert>>) {
    if a.Some? && b.Some? then (set x | x in a.value) == (set x | x in b.value) else a == b
  }

  method IncludesAll(a: seq<NickCert>, b: seq<NickCert>) returns (r: bool)
    ensures r <==> Includes(a, b)
  {
    for i := 0 to |a|
      invariant Includes(a[..i], b)
    {
      var j := 0;
      while j < |b| && a[i] != b[j]
        invariant 0 <= j <= |b| && a[i] !in b[..j]
      {
        j := j + 1;
      }
      if j == |b| {
        assert b[..j] == b;
        return false;
      }
      assert a[..i + 1] == a[..i] + [a[i]];
    }
    assert a[..|a|] == a;
    r := true;
  }

  lemma InclusionBothWays(a: seq<NickCert>, b: seq<NickCert>)
    ensures Includes(a, b) && Includes(b, a) <==> (set x | x in a) == (set x | x in b)
  {
    var m, n := set x | x in a, set x | x in b;
    if m == n {
      assert Includes(a, b) by { assert forall i :: 0 <= i < |a| ==> a[i] in m; }
      assert Includes(b, a) by { assert forall i :: 0 <= i < |b| ==> b[i] in n; }
    }
  }

  // 0 exactly if the lists are the same set of pairs.
  method NickCertListCmp(a: Option<seq<NickCert>>, b: Option<seq<NickCert>>) returns (r: int)
    ensures r == if SameCerts(a, b) then 0 else 1
  {
    if a == None && b == None {
      return 0;
    }
    if a == None || b == None {
      return 1;
    }
    InclusionBothWays(a.value, b.value);
    var there := IncludesAll(a.value, b.value);
    if !there {
      return 1;
    }
    var back := IncludesAll(b.value, a.value);
    r := if back then 0 else 1;
  }
}
