/**
 What the older form reports is what the CA is given, by way of a document which is
 printed and read back; and which messages are taken for documents of their own.
 */
module CaDataTrips {
  import opened Wrappers
  import Lines
  import opened Decimals
  import opened Utf8
  import opened JsonStrings
  import opened JsonEscape
  import opened JsonStringTrips
  import opened JsonValues
  import opened JsonDecoder
  import opened JsonTrips
  import opened NickCerts
  import opened LegacyCerts
  import opened LegacyTrips
  import opened CaData

  // Text in ASCII survives.

  lemma {:induction false} AsciiIsText(s: string) returns (points: seq<nat>)
    requires forall i :: 0 <= i < |s| ==> s[i] as int < 0x80
    ensures Scalars(points) && TextOf(points) == s && Survives(points)
  {
    if s == "" {
      points := [];
    } else {
      var rest := AsciiIsText(s[1..]);
      points := [s[0] as nat] + rest;
      assert points[1..] == rest;
      assert Utf8Bytes(s[0] as nat) == [s[0]];
      assert s == [s[0]] + s[1..];
    }
  }

  lemma AsciiSurvives(s: string)
    requires forall i :: 0 <= i < |s| ==> s[i] as int < 0x80
    ensures Survivor(s)
  {
    var points := AsciiIsText(s);
  }

  lemma KeysSurvive()
    ensures Survivor(ROOTS) && Survivor(OTHER_ROOTS) && Survivor(OTHERS) && Survivor(CERTIFICATE) && Survivor(NICKNAME)
    ensures '\0' !in ROOTS && '\0' !in OTHER_ROOTS && '\0' !in OTHERS && '\0' !in CERTIFICATE && '\0' !in NICKNAME
  {
    AsciiSurvives(ROOTS);
    AsciiSurvives(OTHER_ROOTS);
    AsciiSurvives(OTHERS);
    AsciiSurvives(CERTIFICATE);
    AsciiSurvives(NICKNAME);
  }

  // Pairs of which nothing is lost.
  ghost predicate Surviving(l: seq<NickCert>) {
    forall i :: 0 <= i < |l| ==> Survivor(l[i].nickname) && Survivor(l[i].cert)
  }

  lemma PairIsFaithful(nc: NickCert)
    requires Survivor(nc.nickname) && Survivor(nc.cert)
    ensures Faithful(PairObject(nc))
  {
    KeysSurvive();
    assert |NICKNAME| != |CERTIFICATE|;
    var m := PairObject(nc).members;
    assert FaithfulMember(m[0]) && FaithfulMember(m[1]);
  }

  lemma ArrayIsFaithful(l: seq<NickCert>)
    requires Surviving(l)
    ensures Faithful(Array(PairObjects(l)))
  {
    forall i | 0 <= i < |l| ensures Faithful(PairObjects(l)[i]) {
      PairIsFaithful(l[i]);
    }
  }

  lemma SettingIsFaithful(members: seq<Member>, key: string, v: Value)
    requires Faithful(Object(members)) && Survivor(key) && '\0' !in key && Faithful(v)
    ensures Faithful(Object(SetMember(members, key, v)))
  {
    var r := SetMember(members, key, v);
    forall i | 0 <= i < |r| ensures FaithfulMember(r[i]) {
      if i < |members| {
        assert FaithfulMember(members[i]);
      }
    }
  }

  lemma AddingIsFaithful(members: seq<Member>, key: string, l: seq<NickCert>)
    requires Faithful(Object(members)) && Survivor(key) && '\0' !in key && Surviving(l)
    ensures Faithful(Object(WithList(members, key, l)))
  {
    if l != [] {
      ArrayIsFaithful(l);
      SettingIsFaithful(members, key, Array(PairObjects(l)));
    }
  }

  ghost predicate ListsSurvive(t: Lists) {
    Surviving(t.roots) && Surviving(t.otherRoots) && Surviving(t.others)
  }

  lemma DocumentIsFaithful(t: Lists)
    requires ListsSurvive(t)
    ensures Faithful(Document(t))
  {
    KeysSurvive();
    var m1 := WithList([], ROOTS, t.roots);
    var m2 := WithList(m1, OTHER_ROOTS, t.otherRoots);
    AddingIsFaithful([], ROOTS, t.roots);
    AddingIsFaithful(m1, OTHER_ROOTS, t.otherRoots);
    AddingIsFaithful(m2, OTHERS, t.others);
  }

  // What is in the document.

  predicate NulFree(l: seq<NickCert>) {
    forall i :: 0 <= i < |l| ==> '\0' !in l[i].nickname && '\0' !in l[i].cert
  }

  lemma PairIsThere(nc: NickCert)
    requires '\0' !in nc.nickname && '\0' !in nc.cert
    ensures PairOf(PairObject(nc)) == Some(nc)
  {
    assert |NICKNAME| != |CERTIFICATE|;
    var m := PairObject(nc).members;
    assert m[..1] == [m[0]];
    assert IndexOf(m, NICKNAME) == 0;
  }

  lemma {:induction false} PairsAreThere(l: seq<NickCert>)
    requires NulFree(l)
    ensures PairsOf(PairObjects(l)) == l
    decreases |l|
  {
    if l != [] {
      var k := |l| - 1;
      PairsAreThere(l[..k]);
      PairIsThere(l[k]);
      assert PairObjects(l)[..k] == PairObjects(l[..k]);
      assert l == l[..k] + [l[k]];
    }
  }

  // What a list which is added changes.
  lemma AddedIsFound(members: seq<Member>, key: string, l: seq<NickCert>, other: string)
    requires NulFree(l) && other != key && IndexOf(members, key) < 0
    ensures var v := Some(Object(WithList(members, key, l)));
            CertsOf(Get(v, key)) == Listed(l) && Get(v, other) == Get(Some(Object(members)), other)
  {
    PairsAreThere(l);
    SetThenGet(members, key, Array(PairObjects(l)), other);
  }

  lemma OthersAreAbsent(members: seq<Member>, key: string, l: seq<NickCert>, other: string)
    requires other != key && IndexOf(members, key) < 0 && IndexOf(members, other) < 0
    ensures IndexOf(WithList(members, key, l), other) < 0
  {
    SetThenGet(members, key, Array(PairObjects(l)), other);
  }

  lemma DocumentHoldsLists(t: Lists)
    requires NulFree(t.roots) && NulFree(t.otherRoots) && NulFree(t.others)
    ensures ListsIn(Document(t)) == CaLists(Listed(t.roots), Listed(t.otherRoots), Listed(t.others))
  {
    assert ROOTS[0] != OTHERS[0] && |OTHER_ROOTS| != |ROOTS| == |OTHERS|;
    var m1 := WithList([], ROOTS, t.roots);
    var m2 := WithList(m1, OTHER_ROOTS, t.otherRoots);
    OthersAreAbsent([], ROOTS, t.roots, OTHER_ROOTS);
    OthersAreAbsent([], ROOTS, t.roots, OTHERS);
    OthersAreAbsent(m1, OTHER_ROOTS, t.otherRoots, OTHERS);
    AddedIsFound([], ROOTS, t.roots, OTHERS);
    AddedIsFound(m1, OTHER_ROOTS, t.otherRoots, ROOTS);
    AddedIsFound(m2, OTHERS, t.others, ROOTS);
    AddedIsFound(m2, OTHERS, t.others, OTHER_ROOTS);
  }

  // No NUL comes out of a text without one.

  lemma {:induction false} UnixAddsNothing(s: string)
    requires '\0' !in s
    ensures '\0' !in Unix(s)
  {
    if s != "" {
      UnixAddsNothing(s[1..]);
    }
  }

  lemma {:induction false} OldListIsNulFree(s: string, p: nat)
    requires p <= |s| && '\0' !in s && OldList(s, p).Read?
    ensures NulFree(OldList(s, p).certs)
    decreases |s| - p
  {
    var q := Lines.LineEnd(s, p);
    if p < q {
      var c := Lines.BreaksEnd(s, q);
      assert OldList(s, p) == OldCert(s, s[p..q], c);
      var end := Lines.LineEnd(s, Find(s, c, END).value);
      var nc := NickCert(s[p..q], Unix(s[c..end] + "\n"));
      UnixAddsNothing(s[c..end] + "\n");
      assert OldList(s, p) == OldRest(s, nc, end);
      if !StopsAt(s, end) {
        OldListIsNulFree(s, Lines.BreaksEnd(s, end));
      }
    }
  }

  lemma ThreeListsAreNulFree(s: string)
    requires '\0' !in s
    ensures var t := ThreeLists(s); NulFree(t.roots) && NulFree(t.otherRoots) && NulFree(t.others)
  {
    if OldList(s, 0).Read? {
      OldListIsNulFree(s, 0);
      var p := OldList(s, 0).next;
      if OldList(s, p).Read? {
        OldListIsNulFree(s, p);
        var q := OldList(s, p).next;
        if OldList(s, q).Read? {
          OldListIsNulFree(s, q);
        }
      }
    }
  }

  // No NUL is printed.

  lemma {:induction false} EscapedIsNulFree(points: seq<nat>)
    requires Scalars(points)
    ensures '\0' !in EscapeText(points)
  {
    if points != [] {
      EscapedIsNulFree(points[1..]);
      assert '\0' !in EscapePoint(points[0]);
    }
  }

  lemma QuotedIsNulFree(s: string)
    requires Survivor(s)
    ensures Quoted(s).Escaped? && '\0' !in Quoted(s).text
  {
    var points :| Scalars(points) && TextOf(points) == s && Survives(points);
    ValidTextIsQuoted(points);
    EscapedIsNulFree(points);
  }

  lemma {:induction false} PrintedIsNulFree(v: Value, printReal: string -> string)
    requires Faithful(v)
    ensures Encode(v, printReal).Some? && '\0' !in Encode(v, printReal).value
    decreases v, 1
  {
    match v
    case Array(items) => ItemsAreNulFree(items, true, printReal);
    case Object(members) => MembersAreNulFree(members, true, printReal);
    case Str(s) => QuotedIsNulFree(s);
    case _ =>
  }

  lemma {:induction false} ItemsAreNulFree(items: seq<Value>, first: bool, printReal: string -> string)
    requires forall i :: 0 <= i < |items| ==> Faithful(items[i])
    ensures EncodeItems(items, first, printReal).Some? && '\0' !in EncodeItems(items, first, printReal).value
    decreases items, 0
  {
    if items != [] {
      PrintedIsNulFree(items[0], printReal);
      ItemsAreNulFree(items[1..], false, printReal);
    }
  }

  lemma {:induction false} MembersAreNulFree(members: seq<Member>, first: bool, printReal: string -> string)
    requires forall i :: 0 <= i < |members| ==> FaithfulMember(members[i])
    ensures EncodeMembers(members, first, printReal).Some? && '\0' !in EncodeMembers(members, first, printReal).value
    decreases members, 0
  {
    if members != [] {
      QuotedIsNulFree(members[0].key);
      PrintedIsNulFree(members[0].value, printReal);
      MembersAreNulFree(members[1..], false, printReal);
    }
  }

  // A document which is printed, with a line feed after it, is the one read by the
  // next process.
  lemma DocumentIsReread(v: Value, printReal: string -> string)
    requires Faithful(v)
    ensures Encode(v, printReal).Some?
    ensures var text := Encode(v, printReal).value + "\n"; '\0' !in text && DecodeText(text) == Decoded(v, |text|)
  {
    PrintedIsNulFree(v, printReal);
    var t := Encode(v, printReal).value;
    var b := t + "\n" + "\0";
    assert b[0..|t|] == t && b[|t|] == '\n';
    RoundTrip(b, 0, |t|, |t| + 1, v, printReal);
  }

  // The lists of the older form reach the CA as they are.
  lemma LegacyReachesTheCa(msg: string, printReal: string -> string)
    requires '\0' !in msg && DecodeText(msg).Failed? && ListsSurvive(ThreeLists(msg))
    ensures Encode(DocumentOf(msg), printReal).Some?
    ensures var text := Encode(DocumentOf(msg), printReal).value + "\n"; var t := ThreeLists(msg);
            && '\0' !in text && DecodeText(text).Decoded?
            && ListsIn(DecodeText(text).value) == CaLists(Listed(t.roots), Listed(t.otherRoots), Listed(t.others))
  {
    var t := ThreeLists(msg);
    DocumentIsFaithful(t);
    DocumentIsReread(Document(t), printReal);
    ThreeListsAreNulFree(msg);
    DocumentHoldsLists(t);
  }

  // A document reaches the CA as it is.
  lemma DocumentReachesTheCa(msg: string, printReal: string -> string)
    requires DecodeText(msg).Decoded? && Faithful(DecodeText(msg).value)
    ensures Encode(DocumentOf(msg), printReal).Some?
    ensures var text := Encode(DocumentOf(msg), printReal).value + "\n";
            '\0' !in text && DecodeText(text).Decoded? && DecodeText(text).value == DecodeText(msg).value
  {
    DocumentIsReread(DocumentOf(msg), printReal);
  }

  // What the older form holds reaches the CA unless the message is taken for a document;
  // one which is no object holds no lists at all.
  lemma ReachesUnlessADocument(msg: string)
    requires '\0' !in msg && ThreeLists(msg).roots != []
    requires DecodeText(msg).Decoded? ==> !DecodeText(msg).value.Object?
    ensures var t := ThreeLists(msg);
            ListsIn(DocumentOf(msg)) == CaLists(Listed(t.roots), Listed(t.otherRoots), Listed(t.others)) <==> DecodeText(msg).Failed?
  {
    ThreeListsAreNulFree(msg);
    DocumentHoldsLists(ThreeLists(msg));
  }

  // Which messages are taken for documents: it depends on where they begin.

  predicate IsJsonSpace(c: char) {
    c == ' ' || c == '\t' || c == '\r' || c == '\n'
  }

  function Start(msg: string, p: nat): (q: nat)
    requires p <= |msg|
    ensures p <= q <= |msg| && (q < |msg| ==> !IsJsonSpace(msg[q]))
    decreases |msg| - p
  {
    if p < |msg| && IsJsonSpace(msg[p]) then Start(msg, p + 1) else p
  }

  lemma {:induction false} SpacesAreSkipped(msg: string, p: nat)
    requires p <= |msg|
    ensures Run(msg + "\0", p, |msg|, FRESH_LEVEL) == Run(msg + "\0", Start(msg, p), |msg|, FRESH_LEVEL)
    decreases |msg| - p
  {
    if p < |msg| && IsJsonSpace(msg[p]) {
      assert Step(msg + "\0", p, |msg|, FRESH_LEVEL) == Continue(p + 1, FRESH_LEVEL);
      SpacesAreSkipped(msg, p + 1);
    }
  }

  predicate HasAt(b: string, p: nat, text: string) {
    p + |text| <= |b| && b[p..p + |text|] == text
  }

  // The beginning of a number or a word of JSON.
  predicate BeginsLikeJson(b: string, p: nat, limit: nat)
    requires p < limit < |b|
  {
    || StartsNumber(b[p])
    || (p + 4 <= limit && (HasAt(b, p, "null") || HasAt(b, p, "true")))
    || (p + 5 <= limit && HasAt(b, p, "fals"))
  }

  // A message which begins, after spaces, with no bracket or brace is taken for a
  // document exactly if it begins with a quoted string, or like a number or a word,
  // whatever follows; then the document is no object.
  lemma TakenForADocument(msg: string)
    requires '\0' !in msg
    requires var p := Start(msg, 0); p < |msg| ==> msg[p] != '[' && msg[p] != '{'
    ensures var p := Start(msg, 0); var b := msg + "\0";
            DecodeText(msg).Decoded? <==>
              p < |msg| && if msg[p] == '"' then ReadString(b, p, |msg|).Got? else BeginsLikeJson(b, p, |msg|)
    ensures DecodeText(msg).Decoded? ==> !DecodeText(msg).value.Object?
  {
    var b, p := msg + "\0", Start(msg, 0);
    SpacesAreSkipped(msg, 0);
    if p < |msg| {
      ScalarStep(b, p, |msg|);
      assert Run(b, p, |msg|, FRESH_LEVEL) == Conclude(b, |msg|, Step(b, p, |msg|, FRESH_LEVEL));
    }
  }

  lemma ScalarStep(b: string, p: nat, limit: nat)
    requires p < limit < |b| && !IsJsonSpace(b[p]) && b[p] != '[' && b[p] != '{' && b[p] != '\0'
    ensures var o := Step(b, p, limit, FRESH_LEVEL);
            && (o.Done? ==> !o.value.Object?) && (o.Done? || o.Stuck?)
            && (o.Done? <==> if b[p] == '"' then ReadString(b, p, limit).Got? else BeginsLikeJson(b, p, limit))
  {
    if b[p] == '"' {
      assert Step(b, p, limit, FRESH_LEVEL) == Quote(b, p, limit, FRESH_LEVEL);
    } else if p + 4 <= limit {
      FourMatch(b, p, "null");
      FourMatch(b, p, "true");
      FourMatch(b, p, "fals");
    }
  }

  lemma FourMatch(b: string, p: nat, text: string)
    requires |text| == 4 && p + 4 <= |b|
    ensures Matches(b, p, text) <==> HasAt(b, p, text)
    ensures HasAt(b, p, text) ==> b[p] == text[0]
  {
    var four := b[p..p + 4];
    assert forall i :: 0 <= i < 4 ==> At(b, p + i) == four[i];
  }

  // So it is with lists whose first nickname begins with a digit: they could be read,
  // but none of their certificates reaches the CA.
  lemma NumericNicknamesAreLost(lists: seq<seq<NickCert>>)
    requires lists != [] && Writable(lists) && '\0' !in ListsText(lists) && IsDigit(lists[0][0].nickname[0])
    ensures var msg := ListsText(lists);
            && ThreeLists(msg).roots == lists[0] != []
            && ListsIn(DocumentOf(msg)) == CaLists(None, None, None)
  {
    FirstListIsRead(lists);
    BeginsWithNickname(lists);
    NumbersAreDocuments(ListsText(lists));
  }

  lemma NumbersAreDocuments(msg: string)
    requires '\0' !in msg && msg != "" && IsDigit(msg[0])
    ensures DecodeText(msg).Decoded? && !DecodeText(msg).value.Object?
  {
    TakenForADocument(msg);
  }

  lemma FirstListIsRead(lists: seq<seq<NickCert>>)
    requires lists != [] && Writable(lists)
    ensures ThreeLists(ListsText(lists)).roots == lists[0] != []
  {
    NextListIsRead(ListsText(lists), 0, lists, ListsText(lists));
  }

  lemma BeginsWithNickname(lists: seq<seq<NickCert>>)
    requires lists != [] && Writable(lists)
    ensures ListsText(lists) != "" && lists[0][0].nickname != "" && ListsText(lists)[0] == lists[0][0].nickname[0]
  {
    assert ListText(lists[0])[0] == lists[0][0].nickname[0];
  }
}
