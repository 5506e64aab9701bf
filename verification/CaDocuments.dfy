/**
 The document in which a CA's certificates are reported, with its names written out:
 which lists are in it, and what the CA is given of a document.
 */
module CaDocuments {
  import opened Wrappers
  import opened JsonStrings
  import opened JsonValues
  import opened JsonDecoder
  import opened NickCerts
  import opened LegacyCerts
  import opened CaData
  import opened CaDataTrips

  // The value of the last member of that name.
  function ValueNamed(members: seq<Member>, name: string): Option<Value> {
    if members == [] then None
    else
      match ValueNamed(members[1..], name)
      case Some(v) => Some(v)
      case None => if members[0].key == name then Some(members[0].value) else None
  }

  // The certificates in an array: its objects which have a nickname and a certificate, both
  // strings, in order.  What stands behind a NUL is cut off.
  function CertsAmong(items: seq<Value>): seq<NickCert> {
    if items == [] then []
    else
      var rest := CertsAmong(items[1..]);
      match items[0]
      case Object(members) => (
        match (ValueNamed(members, "nickname"), ValueNamed(members, "certificate"))
        case (Some(Str(nickname)), Some(Str(cert))) => [NickCert(CString(nickname), CString(cert))] + rest
        case _ => rest)
      case _ => rest
  }

  // The list under a name, NULL if there is no array or no certificate in it.
  function ListNamed(v: Value, name: string): Option<seq<NickCert>> {
    match v
    case Object(members) => (
      match ValueNamed(members, name)
      case Some(Array(items)) => if CertsAmong(items) == [] then None else Some(CertsAmong(items))
      case _ => None)
    case _ => None
  }

  lemma {:induction false} LastIsNamed(members: seq<Member>, name: string, k: nat)
    requires k < |members| && members[k].key == name
    requires forall n :: k < n < |members| ==> members[n].key != name
    ensures ValueNamed(members, name) == Some(members[k].value)
  {
    if k > 0 {
      LastIsNamed(members[1..], name, k - 1);
    } else {
      NoneIsNamed(members[1..], name);
    }
  }

  lemma {:induction false} NoneIsNamed(members: seq<Member>, name: string)
    requires forall n :: 0 <= n < |members| ==> members[n].key != name
    ensures ValueNamed(members, name) == None
  {
    if members != [] {
      NoneIsNamed(members[1..], name);
    }
  }

  lemma {:induction false} IndexIsLast(members: seq<Member>, name: string)
    ensures forall n :: IndexOf(members, name) < n < |members| ==> members[n].key != name
    decreases |members|
  {
    if members != [] {
      IndexIsLast(members[..|members| - 1], name);
    }
  }

  lemma GetIsNamed(v: Value, name: string)
    ensures Get(Some(v), name) == if v.Object? then ValueNamed(v.members, name) else None
  {
    if v.Object? {
      IndexIsLast(v.members, name);
      if IndexOf(v.members, name) >= 0 {
        LastIsNamed(v.members, name, IndexOf(v.members, name));
      } else {
        NoneIsNamed(v.members, name);
      }
    }
  }

  lemma PairIsNamed(v: Value)
    ensures CertsAmong([v]) == if PairOf(v).Some? then [PairOf(v).value] else []
  {
    hide ValueNamed, Get, CString;
    assert [v][1..] == [];
    GetIsNamed(v, "nickname");
    GetIsNamed(v, "certificate");
  }

  lemma {:induction false} CertsAmongMore(items: seq<Value>, last: Value)
    ensures CertsAmong(items + [last]) == CertsAmong(items) + CertsAmong([last])
  {
    hide ValueNamed, CString;
    if items != [] {
      CertsAmongMore(items[1..], last);
      assert (items + [last])[1..] == items[1..] + [last];
    } else {
      assert [] + [last] == [last];
    }
  }

  lemma {:induction false} PairsAreAmong(items: seq<Value>)
    ensures PairsOf(items) == CertsAmong(items)
    decreases |items|
  {
    hide PairOf;
    if items != [] {
      var k := |items| - 1;
      PairsAreAmong(items[..k]);
      CertsAmongMore(items[..k], items[k]);
      PairIsNamed(items[k]);
      assert items == items[..k] + [items[k]];
    }
  }

  lemma ListIsNamed(v: Value, name: string)
    ensures CertsOf(Get(Some(v), name)) == ListNamed(v, name)
  {
    hide PairsOf, CertsAmong, ValueNamed, Get;
    GetIsNamed(v, name);
    var found := Get(Some(v), name);
    if found.Some? && found.value.Array? {
      PairsAreAmong(found.value.items);
    }
  }

  // What the CA is given of a document: its own roots under "roots", other roots under
  // "other-roots", and other certificates under "other".
  lemma DocumentLists(v: Value)
    ensures ListsIn(v) == CaLists(ListNamed(v, "roots"), ListNamed(v, "other-roots"), ListNamed(v, "other"))
  {
    hide ListNamed, CertsOf, Get;
    ListIsNamed(v, "roots");
    ListIsNamed(v, "other-roots");
    ListIsNamed(v, "other");
  }

  // And what is in the document made of the older form: its first list is that of the roots,
  // the second that of the other roots, the third that of the other certificates.
  lemma LegacyDocument(msg: string)
    requires '\0' !in msg && DecodeText(msg).Failed?
    ensures var v := DocumentOf(msg); var t := ThreeLists(msg);
            && ListNamed(v, "roots") == Listed(t.roots)
            && ListNamed(v, "other-roots") == Listed(t.otherRoots)
            && ListNamed(v, "other") == Listed(t.others)
  {
    hide ListNamed, ListsIn, Document, ThreeLists;
    ThreeListsAreNulFree(msg);
    DocumentHoldsLists(ThreeLists(msg));
    DocumentLists(DocumentOf(msg));
  }
}
