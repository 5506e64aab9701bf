/**
 Lists of certificates which are written in the older form are read back.
 */
module LegacyTrips {
  import opened Wrappers
  import opened Lines
  import opened NickCerts
  import opened LegacyCerts

  // A certificate as it is stored: it ends with the line of its first end mark.
  predicate Pem(cert: string) {
    && BeginsAt(cert, 0, BEGIN) && cert[|cert| - 1] == '\n'
    && Find(cert, 0, END).Some? && LineEnd(cert, Find(cert, 0, END).value) == |cert| - 1
    && Unix(cert) == cert
  }

  predicate Plain(nc: NickCert) {
    nc.nickname != "" && OneLine(nc.nickname) && Pem(nc.cert)
  }

  predicate AllPlain(l: seq<NickCert>) {
    l == [] || (Plain(l[0]) && AllPlain(l[1..]))
  }

  function ListText(l: seq<NickCert>): string {
    if l == [] then "" else l[0].nickname + "\n" + (l[0].cert + ListText(l[1..]))
  }

  // Lists one after another, with an empty line between them.
  function ListsText(lists: seq<seq<NickCert>>): string {
    if lists == [] then ""
    else if |lists| == 1 then ListText(lists[0])
    else ListText(lists[0]) + ("\n" + ListsText(lists[1..]))
  }

  // Lists which are not empty, of pairs as they are stored.
  predicate Writable(lists: seq<seq<NickCert>>) {
    lists == [] || (lists[0] != [] && AllPlain(lists[0]) && Writable(lists[1..]))
  }

  // A text which stands inside another begins where it began.
  lemma BeginsInside(s: string, c: nat, body: string, i: nat, text: string)
    requires BeginsAt(s, c, body) && i + |text| <= |body|
    ensures BeginsAt(s, c + i, text) <==> BeginsAt(body, i, text)
  {
    assert forall k :: i <= k < i + |text| ==> s[c + k] == body[k];
    forall j | 0 <= j < |text| ensures s[c + i + j] == text[j] <==> body[i + j] == text[j] {
      assert s[c + (i + j)] == body[i + j];
    }
  }

  lemma FindInside(s: string, c: nat, body: string, text: string)
    requires BeginsAt(s, c, body) && Find(body, 0, text).Some?
    ensures Find(s, c, text) == Some(c + Find(body, 0, text).value)
  {
    var e := Find(body, 0, text).value;
    FoundIsFirst(body, 0, text);
    BeginsInside(s, c, body, e, text);
    forall i | c <= i < c + e ensures !BeginsAt(s, i, text) {
      BeginsInside(s, c, body, i - c, text);
    }
    FirstIsFound(s, c, text, c + e);
  }

  lemma LineEndInside(s: string, c: nat, body: string, e: nat)
    requires BeginsAt(s, c, body) && e <= |body| && LineEnd(body, e) < |body|
    ensures LineEnd(s, c + e) == c + LineEnd(body, e)
  {
    var end := LineEnd(body, e);
    forall i | c + e <= i <= c + end ensures s[i] == body[i - c] {
      assert s[c + (i - c)] == body[i - c];
    }
    LineEndIs(s, c + e, c + end);
  }

  lemma CertBegins(s: string, c: nat, cert: string)
    requires BeginsAt(s, c, cert) && BeginsAt(cert, 0, BEGIN)
    ensures BeginsAt(s, c, BEGIN)
  {
    BeginsInside(s, c, cert, 0, BEGIN);
  }

  // A certificate from c to end, with its end mark at e.
  predicate CertAt(s: string, c: nat, e: nat, end: nat, cert: string) {
    && c <= e <= end < |s| && BeginsAt(s, c, BEGIN) && Find(s, c, END) == Some(e)
    && end == LineEnd(s, e) && s[end] == '\n' && Unix(s[c..end] + "\n") == cert
  }

  // Where the certificate which stands at position c ends, and what it is.
  lemma CertIsRead(s: string, c: nat, cert: string) returns (e: nat)
    requires BeginsAt(s, c, cert) && Pem(cert)
    ensures CertAt(s, c, e, c + |cert| - 1, cert)
  {
    CertBegins(s, c, cert);
    var e0 := Find(cert, 0, END).value;
    e := c + e0;
    assert Find(s, c, END) == Some(e) by { FindInside(s, c, cert, END); }
    assert LineEnd(s, e) == c + |cert| - 1 by { LineEndInside(s, c, cert, e0); }
    assert s[c..c + |cert| - 1] + "\n" == cert by { ButForTheLast(s, c, cert); }
  }

  lemma ButForTheLast(s: string, c: nat, cert: string)
    requires BeginsAt(s, c, cert) && cert != "" && cert[|cert| - 1] == '\n'
    ensures s[c..c + |cert| - 1] + "\n" == cert
  {
  }

  lemma BeginsWithDash(cert: string)
    requires Pem(cert)
    ensures cert != "" && !IsBreak(cert[0])
  {
    assert cert[0 + 0] == BEGIN[0];
  }

  // A nickname from p to q, with a line feed after it.
  predicate NicknameAt(s: string, p: nat, q: nat, nickname: string) {
    p < q < |s| && q == LineEnd(s, p) && q + 1 == BreaksEnd(s, q) && s[p..q] == nickname
  }

  lemma OldListStep(s: string, p: nat, q: nat, e: nat, end: nat, nc: NickCert)
    requires NicknameAt(s, p, q, nc.nickname) && CertAt(s, q + 1, e, end, nc.cert)
    ensures OldList(s, p) == OldRest(s, nc, end)
  {
    assert OldList(s, p) == OldCert(s, nc.nickname, q + 1);
  }

  // Where a nickname which stands at position p ends, before a single line feed.
  lemma NicknameIsRead(s: string, p: nat, nickname: string, cert: string)
    requires BeginsAt(s, p, nickname) && OneLine(nickname) && cert != "" && !IsBreak(cert[0])
    requires p + |nickname| < |s| && s[p + |nickname|] == '\n' && BeginsAt(s, p + |nickname| + 1, cert)
    ensures nickname != "" ==> NicknameAt(s, p, p + |nickname|, nickname)
  {
    var q := p + |nickname|;
    forall i | p <= i < q ensures !IsBreak(s[i]) {
      assert s[p + (i - p)] == nickname[i - p];
    }
    LineEndIs(s, p, q);
    assert s[q + 1 + 0] == cert[0];
    BreaksEndIs(s, q, q + 1);
  }

  lemma TextStands(s: string, p: nat, nickname: string, cert: string, rest: string)
    requires BeginsAt(s, p, nickname + "\n" + (cert + rest)) && cert != ""
    ensures var q := p + |nickname|;
            BeginsAt(s, p, nickname) && s[q] == '\n' && BeginsAt(s, q + 1, cert) && BeginsAt(s, q + 1 + |cert|, rest)
  {
    var text := nickname + "\n" + (cert + rest);
    assert s[p + |nickname|] == text[|nickname|];
    BeginsInside(s, p, text, 0, nickname);
    BeginsInside(s, p, text, |nickname| + 1, cert);
    BeginsInside(s, p, text, |nickname| + 1 + |cert|, rest);
  }

  lemma FirstStands(s: string, p: nat, l: seq<NickCert>) returns (q: nat)
    requires l != [] && BeginsAt(s, p, ListText(l)) && l[0].nickname != "" && OneLine(l[0].nickname)
    requires l[0].cert != "" && !IsBreak(l[0].cert[0])
    ensures q == p + |l[0].nickname| && NicknameAt(s, p, q, l[0].nickname) && !IsBreak(s[p])
    ensures BeginsAt(s, q + 1, l[0].cert) && BeginsAt(s, q + 1 + |l[0].cert|, ListText(l[1..]))
  {
    q := p + |l[0].nickname|;
    TextStands(s, p, l[0].nickname, l[0].cert, ListText(l[1..]));
    NicknameIsRead(s, p, l[0].nickname, l[0].cert);
    assert s[p + 0] == l[0].nickname[0];
  }

  lemma PairIsRead(s: string, p: nat, nc: NickCert, q: nat, end: nat)
    requires NicknameAt(s, p, q, nc.nickname) && BeginsAt(s, q + 1, nc.cert) && Pem(nc.cert) && end == q + |nc.cert|
    ensures end < |s| && s[end] == '\n' && OldList(s, p) == OldRest(s, nc, end)
  {
    hide OldList, Pem;
    var e := CertIsRead(s, q + 1, nc.cert);
    OldListStep(s, p, q, e, end, nc);
  }

  // A list whose pairs are read one after another, from position p up to position end.
  predicate ListReads(s: string, p: nat, l: seq<NickCert>, end: nat)
    decreases |l|
  {
    if l == [] then p == end
    else
      var n := p + |l[0].nickname| + |l[0].cert|;
      && n < |s| && s[n] == '\n' && !IsBreak(s[p]) && OldList(s, p) == OldRest(s, l[0], n)
      && ListReads(s, n + 1, l[1..], end)
  }

  lemma {:induction false} TextReads(s: string, p: nat, l: seq<NickCert>, end: nat)
    requires BeginsAt(s, p, ListText(l)) && AllPlain(l) && end == p + |ListText(l)|
    ensures ListReads(s, p, l, end)
    decreases l
  {
    hide OldList, OldRest, BeginsAt, AllPlain;
    if l != [] {
      var n := FirstReads(s, p, l);
      TextReads(s, n + 1, l[1..], end);
      OneMoreReads(s, p, l, n, end);
    }
  }

  lemma OneMoreReads(s: string, p: nat, l: seq<NickCert>, n: nat, end: nat)
    requires l != [] && n == p + |l[0].nickname| + |l[0].cert| && ListReads(s, n + 1, l[1..], end)
    requires n < |s| && s[n] == '\n' && !IsBreak(s[p]) && OldList(s, p) == OldRest(s, l[0], n)
    ensures ListReads(s, p, l, end)
  {
  }

  lemma FirstReads(s: string, p: nat, l: seq<NickCert>) returns (n: nat)
    requires l != [] && BeginsAt(s, p, ListText(l)) && AllPlain(l)
    ensures n == p + |l[0].nickname| + |l[0].cert| && n < |s| && s[n] == '\n' && !IsBreak(s[p])
    ensures OldList(s, p) == OldRest(s, l[0], n) && BeginsAt(s, n + 1, ListText(l[1..])) && AllPlain(l[1..])
    ensures |ListText(l)| == n + 1 - p + |ListText(l[1..])|
  {
    hide OldList, OldRest, Pem;
    BeginsWithDash(l[0].cert);
    var q := FirstStands(s, p, l);
    n := q + |l[0].cert|;
    PairIsRead(s, p, l[0], q, n);
  }

  // What may follow a list: nothing, or an empty line and another list.
  predicate MayFollow(s: string, end: nat) {
    end <= |s| && (end < |s| ==> s[end] == '\n' && (end + 1 < |s| ==> !IsBreak(s[end + 1])))
  }

  // Where the next list begins.
  function AfterList(s: string, end: nat): nat {
    if end < |s| then end + 1 else end
  }

  lemma MoreFollow(s: string, end: nat, l: seq<NickCert>, n: nat)
    requires end + 1 < |s| && s[end] == '\n' && !IsBreak(s[end + 1]) && l != [] && OldList(s, end + 1) == Read(l[1..], n)
    ensures OldRest(s, l[0], end) == Read(l, n)
  {
    GoesOn(s, end);
    assert l == [l[0]] + l[1..];
  }

  lemma GoesOn(s: string, end: nat)
    requires end + 1 < |s| && s[end] == '\n' && !IsBreak(s[end + 1])
    ensures !StopsAt(s, end) && BreaksEnd(s, end) == end + 1
  {
    BreaksEndIs(s, end, end + 1);
  }

  lemma LastFollows(s: string, end: nat, nc: NickCert)
    requires end < |s| && s[end] == '\n' && MayFollow(s, end + 1)
    ensures OldRest(s, nc, end) == Read([nc], AfterList(s, end + 1))
  {
    if end + 1 == |s| {
      BreaksEndIs(s, end, |s|);
    } else {
      BreaksEndIs(s, end, end + 2);
    }
  }

  lemma NothingIsRead(s: string)
    ensures OldList(s, |s|) == Read([], |s|)
  {
  }

  lemma {:induction false} ListIsRead(s: string, p: nat, l: seq<NickCert>, end: nat)
    requires ListReads(s, p, l, end) && MayFollow(s, end) && (l == [] ==> end == |s|)
    ensures OldList(s, p) == Read(l, AfterList(s, end))
    decreases l
  {
    hide OldList, OldRest, MayFollow;
    if l != [] {
      var n := p + |l[0].nickname| + |l[0].cert|;
      if l[1..] != [] {
        ListIsRead(s, n + 1, l[1..], end);
        MoreFollow(s, n, l, AfterList(s, end));
      } else {
        assert l == [l[0]];
        LastFollows(s, n, l[0]);
      }
    } else {
      NothingIsRead(s);
    }
  }

  lemma ListIsReadBack(s: string, p: nat, l: seq<NickCert>, text: string, end: nat)
    requires text == ListText(l) && BeginsAt(s, p, text) && AllPlain(l)
    requires end == p + |text| && MayFollow(s, end) && (l == [] ==> p == |s|)
    ensures OldList(s, p) == Read(l, AfterList(s, end))
  {
    hide OldList, BeginsAt, AllPlain;
    TextReads(s, p, l, end);
    ListIsRead(s, p, l, end);
  }

  lemma BothStand(s: string, p: nat, text: string, rest: string, end: nat)
    requires BeginsAt(s, p, text + ("\n" + rest)) && rest != "" && !IsBreak(rest[0]) && end == p + |text|
    ensures BeginsAt(s, p, text) && MayFollow(s, end) && end < |s| && BeginsAt(s, end + 1, rest)
  {
    var both, k := text + ("\n" + rest), |text|;
    BeginsInside(s, p, both, 0, text);
    BeginsInside(s, p, both, k + 1, rest);
    assert s[p + k] == both[k] && s[p + (k + 1)] == both[k + 1];
  }

  lemma TextOpens(l: seq<NickCert>)
    requires AllPlain(l) && l != []
    ensures ListText(l) != "" && !IsBreak(ListText(l)[0])
  {
  }

  lemma ListsOpen(lists: seq<seq<NickCert>>)
    requires Writable(lists) && lists != []
    ensures ListsText(lists) != "" && !IsBreak(ListsText(lists)[0])
  {
    TextOpens(lists[0]);
  }

  // A list with another after it.
  lemma ListBeforeAnother(s: string, p: nat, l: seq<NickCert>, text: string, rest: string, end: nat)
    requires text == ListText(l) && AllPlain(l) && l != [] && end == p + |text|
    requires BeginsAt(s, p, text + ("\n" + rest)) && rest != "" && !IsBreak(rest[0])
    ensures OldList(s, p) == Read(l, end + 1) && BeginsAt(s, end + 1, rest)
  {
    BothStand(s, p, text, rest, end);
    ListIsReadBack(s, p, l, text, end);
  }

  // The next of the lists, where the lists are the rest of the text.
  lemma NextListIsRead(s: string, p: nat, lists: seq<seq<NickCert>>, text: string)
    requires lists != [] && Writable(lists) && text == ListsText(lists) && BeginsAt(s, p, text) && p + |text| == |s|
    ensures var r := OldList(s, p);
            && r.Read? && r.certs == lists[0] && Writable(lists[1..])
            && BeginsAt(s, r.next, ListsText(lists[1..])) && r.next + |ListsText(lists[1..])| == |s|
  {
    hide OldList, AllPlain;
    var first := ListText(lists[0]);
    var end := p + |first|;
    if |lists| == 1 {
      ListIsReadBack(s, p, lists[0], first, end);
    } else {
      ListsOpen(lists[1..]);
      ListBeforeAnother(s, p, lists[0], first, ListsText(lists[1..]), end);
    }
  }

  // The lists there are, but for empty ones at the end.
  function NotEmpty(t: Lists): seq<seq<NickCert>> {
    if t.roots == [] then []
    else if t.otherRoots == [] then [t.roots]
    else if t.others == [] then [t.roots, t.otherRoots]
    else [t.roots, t.otherRoots, t.others]
  }

  // The list which comes next, with nothing for a list which is not there.
  predicate NextIs(s: string, p: nat, lists: seq<seq<NickCert>>) {
    Writable(lists) && BeginsAt(s, p, ListsText(lists)) && p + |ListsText(lists)| == |s|
  }

  lemma Next(s: string, p: nat, lists: seq<seq<NickCert>>) returns (r: OldRead)
    requires NextIs(s, p, lists)
    ensures r == OldList(s, p) && r.Read? && NextIs(s, r.next, if lists == [] then [] else lists[1..])
    ensures r.certs == if lists == [] then [] else lists[0]
  {
    r := OldList(s, p);
    if lists == [] {
      NothingIsRead(s);
    } else {
      NextListIsRead(s, p, lists, ListsText(lists));
    }
  }

  // The round trip: three lists are read back from the text they are written as
  // exactly if there is no empty one before another.
  lemma LegacyRoundTrip(t: Lists)
    requires Writable(NotEmpty(t))
    ensures ThreeLists(ListsText(NotEmpty(t))) == t <==>
            (t.roots == [] ==> t.otherRoots == []) && (t.roots == [] || t.otherRoots == [] ==> t.others == [])
  {
    var lists := NotEmpty(t);
    var s := ListsText(lists);
    var r1 := Next(s, 0, lists);
    var lists1 := if lists == [] then [] else lists[1..];
    var r2 := Next(s, r1.next, lists1);
    var lists2 := if lists1 == [] then [] else lists1[1..];
    var r3 := Next(s, r2.next, lists2);
  }
}
