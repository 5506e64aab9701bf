/**
 The certificates a CA's helper reports: as a JSON document, or in the older form,
 which is made into one.  The document is printed, read back by another process, and
 made into the three lists of the CA.
 */
module CaData {
  import opened Wrappers
  import opened JsonStrings
  import opened JsonValues
  import opened JsonDecoder
  import opened NickCerts
  import opened LegacyCerts

  const ROOTS := "roots"
  const OTHER_ROOTS := "other-roots"
  const OTHERS := "other"
  const CERTIFICATE := "certificate"
  const NICKNAME := "nickname"

  // cm_json_decode() of a whole C string.
  function DecodeText(msg: string): Decoded {
    Decode(msg + "\0", 0, |msg|)
  }

  // cm_json_get(), also of nothing and of values which are no objects.
  function Get(v: Option<Value>, key: string): Option<Value> {
    if v.Some? && v.value.Object? && IndexOf(v.value.members, key) >= 0
    then Some(v.value.members[IndexOf(v.value.members, key)].value)
    else None
  }

  // Building the document.

  function PairObject(nc: NickCert): Value {
    Object([Member(NICKNAME, Str(nc.nickname)), Member(CERTIFICATE, Str(nc.cert))])
  }

  function PairObjects(l: seq<NickCert>): (r: seq<Value>)
    ensures |r| == |l| && forall i :: 0 <= i < |l| ==> r[i] == PairObject(l[i])
  {
    if l == [] then [] else PairObjects(l[..|l| - 1]) + [PairObject(l[|l| - 1])]
  }

  function WithList(members: seq<Member>, key: string, l: seq<NickCert>): seq<Member> {
    if l == [] then members else SetMember(members, key, Array(PairObjects(l)))
  }

  function Document(t: Lists): Value {
    Object(WithList(WithList(WithList([], ROOTS, t.roots), OTHER_ROOTS, t.otherRoots), OTHERS, t.others))
  }

  // The document a message is, or is made into.
  function DocumentOf(msg: string): Value {
    match DecodeText(msg)
    case Decoded(v, _) => v
    case Failed(_, _) => Document(ThreeLists(msg))
  }

  // Reading the document.

  function PairOf(v: Value): Option<NickCert> {
    match (Get(Some(v), NICKNAME), Get(Some(v), CERTIFICATE))
    case (Some(Str(nickname)), Some(Str(pem))) => Some(NickCert(CString(nickname), CString(pem)))
    case _ => None
  }

  // The pairs among the items; others are skipped.
  function PairsOf(items: seq<Value>): seq<NickCert> {
    if items == [] then []
    else
      var before := PairsOf(items[..|items| - 1]);
      match PairOf(items[|items| - 1])
      case Some(nc) => before + [nc]
      case None => before
  }

  // A list which would be empty is NULL.
  function Listed(l: seq<NickCert>): Option<seq<NickCert>> {
    if l == [] then None else Some(l)
  }

  function CertsOf(v: Option<Value>): Option<seq<NickCert>> {
    if v.Some? && v.value.Array? then Listed(PairsOf(v.value.items)) else None
  }

  // The lists of a CA.
  datatype CaLists = CaLists(roots: Option<seq<NickCert>>, otherRoots: Option<seq<NickCert>>, others: Option<seq<NickCert>>)

  function ListsIn(v: Value): CaLists {
    CaLists(CertsOf(Get(Some(v), ROOTS)), CertsOf(Get(Some(v), OTHER_ROOTS)), CertsOf(Get(Some(v), OTHERS)))
  }

  predicate SameLists(a: CaLists, b: CaLists) {
    SameCerts(a.roots, b.roots) && SameCerts(a.otherRoots, b.otherRoots) && SameCerts(a.others, b.others)
  }

  // The loops.

  lemma PairMembers(nc: NickCert)
    ensures SetMember(SetMember([], NICKNAME, Str(nc.nickname)), CERTIFICATE, Str(nc.cert)) == PairObject(nc).members
  {
    assert |NICKNAME| != |CERTIFICATE|;
    var one := [Member(NICKNAME, Str(nc.nickname))];
    assert one[..0] == [];
    assert IndexOf(one, CERTIFICATE) == -1;
  }

  method MakeArray(certs: seq<NickCert>) returns (sub: Value)
    ensures sub == Array(PairObjects(certs))
  {
    var items: seq<Value> := [];
    for i := 0 to |certs|
      invariant items == PairObjects(certs[..i])
    {
      var cert := PutMember([], NICKNAME, Str(certs[i].nickname));
      cert := PutMember(cert, CERTIFICATE, Str(certs[i].cert));
      PairMembers(certs[i]);
      assert certs[..i + 1][..i] == certs[..i];
      items := items + [Object(cert)];
    }
    assert certs[..|certs|] == certs;
    sub := Array(items);
  }

  method AddList(members: seq<Member>, key: string, certs: seq<NickCert>) returns (r: seq<Member>)
    ensures r == WithList(members, key, certs)
  {
    var sub := MakeArray(certs);
    r := members;
    if |sub.items| > 0 {
      r := PutMember(members, key, sub);
    }
  }

  method ParseJsonCertList(nickcerts: Option<Value>) returns (ret: Option<seq<NickCert>>)
    ensures ret == CertsOf(nickcerts)
  {
    if nickcerts == None || !nickcerts.value.Array? {
      return None;
    }
    var items := nickcerts.value.items;
    var certs: seq<NickCert> := [];
    for i := 0 to |items|
      invariant certs == PairsOf(items[..i])
    {
      assert items[..i + 1][..i] == items[..i];
      var cert := items[i];
      if !cert.Object? {
        continue;
      }
      var nickname := Get(Some(cert), NICKNAME);
      if nickname == None || !nickname.value.Str? {
        continue;
      }
      var pem := Get(Some(cert), CERTIFICATE);
      if pem == None || !pem.value.Str? {
        continue;
      }
      certs := certs + [NickCert(CString(nickname.value.s), CString(pem.value.s))];
    }
    assert items[..|items|] == items;
    ret := if |certs| > 0 then Some(certs) else None;
  }

  // The lists of the older form, as a document.
  method ParseOldCerts(msg: string) returns (json: Value)
    ensures json == Document(ThreeLists(msg))
  {
    var members: seq<Member> := [];
    var p, certs := ParseOldCertList(msg, 0);
    if p.Some? {
      members := AddList(members, ROOTS, certs);
      p, certs := ParseOldCertList(msg, p.value);
      if p.Some? {
        members := AddList(members, OTHER_ROOTS, certs);
        p, certs := ParseOldCertList(msg, p.value);
        if p.Some? {
          members := AddList(members, OTHERS, certs);
        }
      }
    }
    json := Object(members);
  }

  // The CA and the state of one fetch.

  class Ca {
    var rootCerts: Option<seq<NickCert>>
    var otherRootCerts: Option<seq<NickCert>>
    var otherCerts: Option<seq<NickCert>>

    ghost function Lists(): CaLists
      reads this
    {
      CaLists(rootCerts, otherRootCerts, otherCerts)
    }
  }

  class Fetch {
    var modified: bool
    var intermediate: Option<string>

    // A message becomes a document, which is printed.
    method ParseCerts(msg: string, printReal: string -> string)
      requires '\0' !in msg && Readable(msg + "\0", |msg|)
      modifies this
      ensures !modified && intermediate == Encode(DocumentOf(msg), printReal)
    {
      modified := false;
      var ret, json, _ := DecodeJson(msg + "\0", 0, |msg|);
      if ret != 0 {
        var made := ParseOldCerts(msg);
        json := Some(made);
      }
      intermediate := PrintValue(json.value, printReal);
    }

    // A document replaces the lists of the CA.
    method PostprocessCerts(ca: Ca, msg: string)
      requires '\0' !in msg && Readable(msg + "\0", |msg|)
      modifies this, ca
      ensures intermediate == old(intermediate)
      ensures match DecodeText(msg)
              case Failed(_, _) => modified == old(modified) && ca.Lists() == old(ca.Lists())
              case Decoded(v, _) =>
                && ca.Lists() == ListsIn(v)
                && (modified <==> old(modified) || !SameLists(ca.Lists(), old(ca.Lists())))
    {
      var ret, json, _ := DecodeJson(msg + "\0", 0, |msg|);
      if ret != 0 {
        return;
      }
      var roots := ParseJsonCertList(Get(json, ROOTS));
      var otherRoots := ParseJsonCertList(Get(json, OTHER_ROOTS));
      var others := ParseJsonCertList(Get(json, OTHERS));
      var d1 := NickCertListCmp(roots, ca.rootCerts);
      var d2 := NickCertListCmp(otherRoots, ca.otherRootCerts);
      var d3 := NickCertListCmp(others, ca.otherCerts);
      if d1 != 0 || d2 != 0 || d3 != 0 {
        modified := true;
      }
      ca.rootCerts := roots;
      ca.otherRootCerts := otherRoots;
      ca.otherCerts := others;
    }
  }
}
