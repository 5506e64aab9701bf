/**
 The fields of an entry which describe its certificate, the loops which print them
 to the pipe, and the loops which fill them in from what came through it.
 */
module CertPipeMachine {
  import opened Wrappers
  import opened Decimals
  import opened Lines
  import opened CertPipe

  // A list between positions p and q of the buffer ends where its line does.
  lemma {:induction false} ItemsInLine(b: string, p: nat, u: nat, q: nat)
    requires p <= u && p <= q <= |b| && (q < |b| ==> IsBreak(b[q]))
    ensures Items(b, u, q) == Items(b[p..q], u - p, q - p)
    decreases |b| - u
  {
    if u < q {
      var v := b[p..q];
      SameItemEnd(b, p, u, q);
      var e := ItemEnd(b, u);
      if e > u {
        SliceOfSlice(b, p, q, u, e);
        ItemsInLine(b, p, e, q);
      } else {
        assert v[u - p] == b[u];
        SameSeparatorsEnd(b, p, u, q);
        ItemsInLine(b, p, SeparatorsEnd(b, u), q);
      }
    }
  }

  lemma SliceOfSlice(b: string, p: nat, q: nat, u: nat, e: nat)
    requires p <= u <= e <= q <= |b|
    ensures b[p..q][u - p..e - p] == b[u..e]
  {
    var v := b[p..q];
    var w := v[u - p..e - p];
    forall k | 0 <= k < e - u ensures w[k] == b[u..e][k] {
      assert w[k] == v[u - p + k] == b[u + k];
    }
  }

  lemma {:induction false} SameItemEnd(b: string, p: nat, u: nat, q: nat)
    requires p <= u <= q <= |b| && (q < |b| ==> IsBreak(b[q]))
    ensures ItemEnd(b, u) <= q && ItemEnd(b[p..q], u - p) == ItemEnd(b, u) - p
    decreases q - u
  {
    if u < q {
      assert b[p..q][u - p] == b[u];
      if !IsSeparator(b[u]) {
        SameItemEnd(b, p, u + 1, q);
      }
    }
  }

  // Past the end of the line both readings are over.
  lemma {:induction false} SameSeparatorsEnd(b: string, p: nat, u: nat, q: nat)
    requires p <= u <= q <= |b|
    ensures var e := SeparatorsEnd(b, u);
            SeparatorsEnd(b[p..q], u - p) == if e < q then e - p else q - p
    decreases q - u
  {
    if u < q {
      assert b[p..q][u - p] == b[u];
      if IsSeparator(b[u]) {
        SameSeparatorsEnd(b, p, u + 1, q);
      }
    }
  }

  // The items go into an array with room for one item for each character, and for
  // the NULL which ends it.
  method ReadItems(b: string, p: nat, q: nat) returns (items: seq<string>)
    requires p <= q <= |b| && (q < |b| ==> IsBreak(b[q]))
    ensures items == Items(b[p..q], 0, q - p)
  {
    hide SeparatorsEnd;
    ItemsInLine(b, p, p, q);
    var vals := new string[q - p + 2];
    var u, j := p, 0;
    while u < q
      invariant p <= u <= |b| && j <= u - p && j <= q - p
      invariant vals[..j] + Items(b, u, q) == Items(b, p, q)
      decreases |b| - u
    {
      var v := ItemEnd(b, u);
      ghost var done := vals[..j];
      SameItemEnd(b, p, u, q);
      if v > u {
        assert done + ([b[u..v]] + Items(b, v, q)) == done + [b[u..v]] + Items(b, v, q);
        vals[j] := b[u..v];
        j := j + 1;
        assert vals[..j] == done + [b[u..v]];
        // Only what stands at u is passed over, and at u there is an item.
        u := v;
      } else {
        u := SeparatorsEnd(b, u);
      }
    }
    items := vals[..j];
    assert items + [] == items;
  }

  method DecodeItems(b64: Base64, items: seq<string>) returns (r: seq<string>)
    ensures r == Decoded(b64, items)
  {
    r := [];
    for i := 0 to |items|
      invariant |r| == i && forall k :: 0 <= k < i ==> r[k] == b64.dec(items[k])
    {
      r := r + [b64.dec(items[i])];
    }
  }

  method ReadList(b64: Base64, b: string, p: nat, q: nat) returns (items: seq<string>)
    requires p <= q <= |b| && (q < |b| ==> IsBreak(b[q]))
    ensures items == Decoded(b64, Items(b[p..q], 0, q - p))
  {
    items := ReadItems(b, p, q);
    items := DecodeItems(b64, items);
  }

  method WriteList(b64: Base64, list: Option<seq<string>>) returns (out: string)
    ensures out == " " + List(b64, list) + "\n"
  {
    var items := if list.Some? then list.value else [];
    out := "";
    var i := 0;
    while i < |items|
      invariant 0 <= i <= |items|
      invariant out == if i == 0 then "" else " " + CommasUpTo(b64, items, i)
    {
      if i == 0 {
        out := out + " " + b64.enc(items[i]);
      } else {
        out := out + "," + b64.enc(items[i]);
      }
      i := i + 1;
    }
    if i == 0 {
      out := out + " ";
      assert List(b64, list) == "" && " " + "" == " ";
    } else {
      CommasToTheEnd(b64, items, |items|);
      assert items[..|items|] == items;
    }
    out := out + "\n";
  }

  // The first i items, at least one, with commas between them.
  function CommasUpTo(b64: Base64, items: seq<string>, i: nat): string
    requires 1 <= i <= |items|
  {
    if i == 1 then b64.enc(items[0]) else CommasUpTo(b64, items, i - 1) + "," + b64.enc(items[i - 1])
  }

  lemma {:induction false} CommasToTheEnd(b64: Base64, items: seq<string>, i: nat)
    requires 1 <= i <= |items|
    ensures CommasUpTo(b64, items, i) == Commas(b64, items[..i])
    decreases i
  {
    if i == 1 {
      assert items[..1] == [items[0]];
    } else {
      CommasToTheEnd(b64, items, i - 1);
      assert items[..i] == items[..i - 1] + [items[i - 1]];
      CommasAtEnd(b64, items[..i - 1], items[i - 1]);
    }
  }

  lemma {:induction false} CommasAtEnd(b64: Base64, items: seq<string>, item: string)
    requires items != []
    ensures Commas(b64, items + [item]) == Commas(b64, items) + "," + b64.enc(item)
    decreases |items|
  {
    assert (items + [item])[1..] == items[1..] + [item];
    if |items| == 1 {
      assert items[1..] + [item] == [item];
    } else {
      CommasAtEnd(b64, items[1..], item);
    }
  }

  class CertFields {
    var issuerDer: Option<string>
    var issuer: Option<string>
    var serial: Option<string>
    var subjectDer: Option<string>
    var subject: Option<string>
    var spki: Option<string>
    var notBefore: int
    var notAfter: int
    var hostname: Option<seq<string>>
    var email: Option<seq<string>>
    var principal: Option<seq<string>>
    var ipaddress: Option<seq<string>>
    var ku: Option<string>
    var eku: Option<string>
    var token: Option<string>
    var isCa: bool
    var pathLength: int
    var ocsp: Option<seq<string>>
    var crl: Option<seq<string>>
    var freshestCrl: Option<seq<string>>
    var nsComment: Option<string>
    var profile: Option<string>
    var noOcspCheck: bool
    var nsCertType: Option<string>
    var cert: Option<string>

    function View(): Cert
      reads this
    {
      Cert(issuerDer, issuer, serial, subjectDer, subject, spki, notBefore, notAfter, hostname, email, principal, ipaddress,
           ku, eku, token, isCa, pathLength, ocsp, crl, freshestCrl, nsComment, profile, noOcspCheck, nsCertType, cert)
    }

    method ReadName(b64: Base64, i: nat, v: string)
      modifies this
      ensures View() == AssignNames(b64, old(View()), i, v)
    {
      hide Atol, FromCode;
      match i
      case 0 => issuerDer := NonEmpty(v);
      case 1 => issuer := FromCode(b64, v);
      case 2 => serial := NonEmpty(v);
      case 3 => subjectDer := NonEmpty(v);
      case 4 => subject := FromCode(b64, v);
      case 5 => spki := NonEmpty(v);
      case 6 => notBefore := Atol(v);
      case 7 => notAfter := Atol(v);
      case _ =>
    }

    // Addresses are left as they are.
    method ReadAddresses(b64: Base64, b: string, p: nat, q: nat)
      requires p <= q <= |b| && (q < |b| ==> IsBreak(b[q]))
      modifies this
      ensures View() == AssignUses(b64, old(View()), 11, b[p..q])
    {
      hide Items, Decoded;
      var items := ReadItems(b, p, q);
      ipaddress := Some(items);
    }

    method ReadNames(b64: Base64, i: nat, b: string, p: nat, q: nat)
      requires p <= q <= |b| && (q < |b| ==> IsBreak(b[q])) && 8 <= i < 11
      modifies this
      ensures View() == AssignUses(b64, old(View()), i, b[p..q])
    {
      hide Items, Decoded;
      var items := ReadList(b64, b, p, q);
      match i
      case 8 => hostname := Some(items);
      case 9 => email := Some(items);
      case 10 => principal := Some(items);
    }

    method ReadUse(b64: Base64, i: nat, v: string)
      requires 12 <= i < 17
      modifies this
      ensures View() == AssignUses(b64, old(View()), i, v)
    {
      match i
      case 12 => ku := NonEmpty(v);
      case 13 => eku := NonEmpty(v);
      case 14 =>
        if v != "" {
          token := Some(b64.dec(v));
        }
      case 15 => isCa := v != "" && Atoi(v) != 0;
      case 16 => pathLength := if v != "" then Atoi(v) else -1;
    }

    method ReadLocations(b64: Base64, i: nat, b: string, p: nat, q: nat)
      requires p <= q <= |b| && (q < |b| ==> IsBreak(b[q])) && 17 <= i < 20
      modifies this
      ensures View() == AssignOthers(b64, old(View()), i, b[p..q], b[p..])
    {
      hide Items, Decoded;
      var items := ReadList(b64, b, p, q);
      match i
      case 17 => ocsp := Some(items);
      case 18 => crl := Some(items);
      case 19 => freshestCrl := Some(items);
    }

    method ReadOther(b64: Base64, i: nat, v: string, rest: string)
      requires 20 <= i
      modifies this
      ensures View() == AssignOthers(b64, old(View()), i, v, rest)
    {
      match i
      case 20 => nsComment := FromCode(b64, v);
      case 21 => profile := FromCode(b64, v);
      case 22 => noOcspCheck := v != "" && Atoi(v) != 0;
      case 23 => nsCertType := FromCode(b64, v);
      case 24 => cert := if Blank(rest) then None else Some(rest);
      case _ =>
    }

    // What value number i does, which stands from p to q.
    method ReadValue(b64: Base64, i: nat, b: string, p: nat, q: nat)
      requires p <= q <= |b| && (q < |b| ==> IsBreak(b[q]))
      modifies this
      ensures View() == Assign(b64, old(View()), i, b[p..q], b[p..])
    {
      hide Items, Decoded, AssignNames, AssignUses, AssignOthers;
      if i < 8 {
        ReadName(b64, i, b[p..q]);
      } else if i < 11 {
        ReadNames(b64, i, b, p, q);
      } else if i == 11 {
        ReadAddresses(b64, b, p, q);
      } else if i < 17 {
        ReadUse(b64, i, b[p..q]);
      } else if i < 20 {
        ReadLocations(b64, i, b, p, q);
      } else {
        ReadOther(b64, i, b[p..q], b[p..]);
      }
    }

    // Read what came through the pipe, line by line.
    method Read(b64: Base64, b: string)
      modifies this
      ensures View() == ReadData(b64, old(View()), b)
    {
      var p, i := 0, 0;
      while p < |b|
        invariant p <= |b|
        invariant AssignLines(b64, View(), i, LinesFrom(b, p)) == ReadData(b64, old(View()), b)
      {
        ghost var c := View();
        var q := LineEnd(b, p + 1);
        ReadValue(b64, i, b, p + 1, q);
        NextLine(b64, c, i, b, p, View());
        i := i + 1;
        p := BreaksEnd(b, q);
      }
    }

    // Each line printed is one more value behind those printed before.
    method WriteNames(b64: Base64) returns (out: string)
      ensures out == AllLines(Values(b64, View())[..6])
    {
      hide Values, Plain, Coded;
      ghost var done;
      out, done := PrintLine("", [], Plain(issuerDer));
      out, done := PrintLine(out, done, Coded(b64, issuer));
      out, done := PrintLine(out, done, Plain(serial));
      out, done := PrintLine(out, done, Plain(subjectDer));
      out, done := PrintLine(out, done, Coded(b64, subject));
      out, done := PrintLine(out, done, Plain(spki));
      NamesAmongValues(b64, View(), done);
    }

    method WriteTimes(b64: Base64) returns (out: string)
      ensures out == AllLines(Values(b64, View())[6..8])
    {
      hide Plain, Coded, TimeText;
      ghost var done;
      out, done := PrintLine("", [], TimeText(notBefore));
      out, done := PrintLine(out, done, TimeText(notAfter));
      assert done == Values(b64, View())[6..8];
    }

    method WriteLists(b64: Base64) returns (out: string)
      ensures out == AllLines(Values(b64, View())[8..12])
    {
      hide Plain, Coded, List;
      ghost var done;
      out, done := PrintList(b64, "", [], hostname);
      out, done := PrintList(b64, out, done, email);
      out, done := PrintList(b64, out, done, principal);
      out, done := PrintList(b64, out, done, ipaddress);
      assert done == Values(b64, View())[8..12];
    }

    method WriteUses(b64: Base64) returns (out: string)
      ensures out == AllLines(Values(b64, View())[12..17])
    {
      hide Values, Plain, Coded, NumberText;
      ghost var done;
      out, done := PrintLine("", [], Plain(ku));
      out, done := PrintLine(out, done, Plain(eku));
      out, done := PrintLine(out, done, Coded(b64, token));
      out, done := PrintLine(out, done, if isCa then "1" else "0");
      out, done := PrintLine(out, done, NumberText(if isCa then pathLength else -1));
      UsesAmongValues(b64, View(), done);
    }

    method WriteLocations(b64: Base64) returns (out: string)
      ensures out == AllLines(Values(b64, View())[17..20])
    {
      hide Plain, Coded, List;
      ghost var done;
      out, done := PrintList(b64, "", [], ocsp);
      out, done := PrintList(b64, out, done, crl);
      out, done := PrintList(b64, out, done, freshestCrl);
      assert done == Values(b64, View())[17..20];
    }

    method WriteOthers(b64: Base64) returns (out: string)
      ensures out == AllLines(Values(b64, View())[20..])
    {
      hide Plain, Coded, List;
      ghost var done;
      out, done := PrintLine("", [], Coded(b64, nsComment));
      out, done := PrintLine(out, done, Coded(b64, profile));
      out, done := PrintLine(out, done, if noOcspCheck then "1" else "0");
      out, done := PrintLine(out, done, Coded(b64, nsCertType));
      assert done == Values(b64, View())[20..];
    }

    method Write(b64: Base64) returns (out: string)
      ensures out == PipeText(b64, View())
    {
      var names := WriteNames(b64);
      var times := WriteTimes(b64);
      var lists := WriteLists(b64);
      var uses := WriteUses(b64);
      var locations := WriteLocations(b64);
      var others := WriteOthers(b64);
      out := names + times + lists + uses + locations + others + (" " + Plain(cert) + "\n");
      PartsConcat(Values(b64, View()));
    }
  }

  lemma PartsConcat(vs: seq<string>)
    requires |vs| == 24
    ensures AllLines(vs) ==
              AllLines(vs[..6]) + AllLines(vs[6..8]) + AllLines(vs[8..12]) + AllLines(vs[12..17]) + AllLines(vs[17..20])
              + AllLines(vs[20..])
  {
    LinesConcat(vs[..6], vs[6..8]);
    assert vs[..6] + vs[6..8] == vs[..8];
    LinesConcat(vs[..8], vs[8..12]);
    assert vs[..8] + vs[8..12] == vs[..12];
    LinesConcat(vs[..12], vs[12..17]);
    assert vs[..12] + vs[12..17] == vs[..17];
    LinesConcat(vs[..17], vs[17..20]);
    assert vs[..17] + vs[17..20] == vs[..20];
    LinesConcat(vs[..20], vs[20..]);
    assert vs[..20] + vs[20..] == vs;
  }

  lemma NamesAmongValues(b64: Base64, c: Cert, done: seq<string>)
    requires |done| == 6 && done[0] == Plain(c.issuerDer) && done[1] == Coded(b64, c.issuer) && done[2] == Plain(c.serial)
    requires done[3] == Plain(c.subjectDer) && done[4] == Coded(b64, c.subject) && done[5] == Plain(c.spki)
    ensures done == Values(b64, c)[..6]
  {
    hide Plain, Coded;
  }

  lemma UsesAmongValues(b64: Base64, c: Cert, done: seq<string>)
    requires |done| == 5 && done[0] == Plain(c.ku) && done[1] == Plain(c.eku) && done[2] == Coded(b64, c.token)
    requires done[3] == Flag(c.isCa) && done[4] == NumberText(if c.isCa then c.pathLength else -1)
    ensures done == Values(b64, c)[12..17]
  {
    hide Plain, Coded, Flag, NumberText;
  }

  method PrintLine(out: string, ghost done: seq<string>, v: string) returns (r: string, ghost all: seq<string>)
    requires out == AllLines(done)
    ensures all == done + [v] && r == AllLines(all)
  {
    r := out + (" " + v + "\n");
    all := done + [v];
    LinesConcat(done, [v]);
    assert AllLines([v]) == " " + v + "\n" + AllLines([]);
  }

  method PrintList(b64: Base64, out: string, ghost done: seq<string>, list: Option<seq<string>>)
    returns (r: string, ghost all: seq<string>)
    requires out == AllLines(done)
    ensures all == done + [List(b64, list)] && r == AllLines(all)
  {
    var text := WriteList(b64, list);
    r := out + text;
    all := done + [List(b64, list)];
    LinesConcat(done, [List(b64, list)]);
    assert AllLines([List(b64, list)]) == " " + List(b64, list) + "\n" + AllLines([]);
  }

  lemma {:induction false} LinesConcat(vs: seq<string>, ws: seq<string>)
    ensures AllLines(vs + ws) == AllLines(vs) + AllLines(ws)
    decreases |vs|
  {
    if vs == [] {
      assert vs + ws == ws;
    } else {
      assert (vs + ws)[1..] == vs[1..] + ws;
      LinesConcat(vs[1..], ws);
    }
  }

  lemma NextLine(b64: Base64, c: Cert, i: nat, b: string, p: nat, c1: Cert)
    requires p < |b| && c1 == Assign(b64, c, i, b[p + 1..LineEnd(b, p + 1)], b[p + 1..])
    ensures AssignLines(b64, c, i, LinesFrom(b, p)) == AssignLines(b64, c1, i + 1, LinesFrom(b, BreaksEnd(b, LineEnd(b, p + 1))))
  {
    assert LinesFrom(b, p)[1..] == LinesFrom(b, BreaksEnd(b, LineEnd(b, p + 1)));
  }
}
