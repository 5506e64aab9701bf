/**
 Which line of the certificate reader's report is which field.
 */
module CertPipeFields {
  import opened Wrappers
  import opened CertPipe

  lemma OneMoreLine(b64: Base64, c: Cert, i: nat, lines: seq<Line>)
    requires i < |lines|
    ensures AssignLines(b64, c, i, lines[i..]) ==
              AssignLines(b64, Assign(b64, c, i, lines[i].v, lines[i].rest), i + 1, lines[i + 1..])
  {
    hide Assign;
    assert lines[i..][0] == lines[i] && lines[i..][1..] == lines[i + 1..];
  }

  // After the certificate nothing counts any more.
  lemma {:induction false} RestIsIgnored(b64: Base64, c: Cert, i: nat, lines: seq<Line>)
    requires i >= 25
    ensures AssignLines(b64, c, i, lines) == c
    decreases |lines|
  {
    if lines != [] {
      RestIsIgnored(b64, c, i + 1, lines[1..]);
    }
  }

  function TextOf(l: Line): Option<string> {
    if l.v == "" then None else Some(l.v)
  }

  function CodeOf(b64: Base64, l: Line): Option<string> {
    if l.v == "" then None else Some(b64.dec(l.v))
  }

  function ItemsIn(l: Line): seq<string> {
    Items(l.v, 0, |l.v|)
  }

  function ListOf(b64: Base64, l: Line): Option<seq<string>> {
    Some(Decoded(b64, ItemsIn(l)))
  }

  predicate IsSet(l: Line) {
    l.v != "" && Atoi(l.v) != 0
  }

  // The entry after the first eight lines, the next four, the next five, and the rest.

  function WithNames(b64: Base64, c: Cert, l: seq<Line>): Cert
    requires |l| >= 25
  {
    c.(issuerDer := TextOf(l[0]), issuer := CodeOf(b64, l[1]), serial := TextOf(l[2]), subjectDer := TextOf(l[3]),
       subject := CodeOf(b64, l[4]), spki := TextOf(l[5]), notBefore := Atol(l[6].v), notAfter := Atol(l[7].v))
  }

  function WithHosts(b64: Base64, c: Cert, l: seq<Line>): Cert
    requires |l| >= 25
  {
    c.(hostname := ListOf(b64, l[8]), email := ListOf(b64, l[9]), principal := ListOf(b64, l[10]),
       ipaddress := Some(ItemsIn(l[11])))
  }

  function WithUses(b64: Base64, c: Cert, l: seq<Line>): Cert
    requires |l| >= 25
  {
    c.(ku := TextOf(l[12]), eku := TextOf(l[13]),
       token := if l[14].v == "" then c.token else CodeOf(b64, l[14]),
       isCa := IsSet(l[15]), pathLength := if l[16].v == "" then -1 else Atoi(l[16].v))
  }

  function WithOthers(b64: Base64, c: Cert, l: seq<Line>): Cert
    requires |l| >= 25
  {
    c.(ocsp := ListOf(b64, l[17]), crl := ListOf(b64, l[18]), freshestCrl := ListOf(b64, l[19]),
       nsComment := CodeOf(b64, l[20]), profile := CodeOf(b64, l[21]), noOcspCheck := IsSet(l[22]),
       nsCertType := CodeOf(b64, l[23]), cert := if Blank(l[24].rest) then None else Some(l[24].rest))
  }

  lemma NamesAreAssigned(b64: Base64, c: Cert, l: seq<Line>)
    requires |l| >= 25
    ensures AssignLines(b64, c, 0, l[0..]) == AssignLines(b64, WithNames(b64, c, l), 8, l[8..])
  {
    hide AssignLines, Atol, AssignUses, AssignOthers;
    var c0 := c;
    OneMoreLine(b64, c0, 0, l);
    var c1 := c0.(issuerDer := TextOf(l[0]));
    OneMoreLine(b64, c1, 1, l);
    var c2 := c1.(issuer := CodeOf(b64, l[1]));
    OneMoreLine(b64, c2, 2, l);
    var c3 := c2.(serial := TextOf(l[2]));
    OneMoreLine(b64, c3, 3, l);
    var c4 := c3.(subjectDer := TextOf(l[3]));
    OneMoreLine(b64, c4, 4, l);
    var c5 := c4.(subject := CodeOf(b64, l[4]));
    OneMoreLine(b64, c5, 5, l);
    var c6 := c5.(spki := TextOf(l[5]));
    OneMoreLine(b64, c6, 6, l);
    var c7 := c6.(notBefore := Atol(l[6].v));
    OneMoreLine(b64, c7, 7, l);
  }

  lemma HostsAreAssigned(b64: Base64, c: Cert, l: seq<Line>)
    requires |l| >= 25
    ensures AssignLines(b64, c, 8, l[8..]) == AssignLines(b64, WithHosts(b64, c, l), 12, l[12..])
  {
    hide AssignLines, Atoi, AssignNames, AssignOthers, Items, Decoded;
    var c0 := c;
    OneMoreLine(b64, c0, 8, l);
    var c1 := c0.(hostname := ListOf(b64, l[8]));
    OneMoreLine(b64, c1, 9, l);
    var c2 := c1.(email := ListOf(b64, l[9]));
    OneMoreLine(b64, c2, 10, l);
    var c3 := c2.(principal := ListOf(b64, l[10]));
    OneMoreLine(b64, c3, 11, l);
  }

  lemma UsesAreAssigned(b64: Base64, c: Cert, l: seq<Line>)
    requires |l| >= 25
    ensures AssignLines(b64, c, 12, l[12..]) == AssignLines(b64, WithUses(b64, c, l), 17, l[17..])
  {
    hide AssignLines, Atoi, AssignNames, AssignOthers, Items, Decoded;
    var c0 := c;
    OneMoreLine(b64, c0, 12, l);
    var c1 := c0.(ku := TextOf(l[12]));
    OneMoreLine(b64, c1, 13, l);
    var c2 := c1.(eku := TextOf(l[13]));
    OneMoreLine(b64, c2, 14, l);
    var c3 := c2.(token := if l[14].v == "" then c.token else CodeOf(b64, l[14]));
    OneMoreLine(b64, c3, 15, l);
    var c4 := c3.(isCa := IsSet(l[15]));
    OneMoreLine(b64, c4, 16, l);
  }

  lemma OthersAreAssigned(b64: Base64, c: Cert, l: seq<Line>)
    requires |l| >= 25
    ensures AssignLines(b64, c, 17, l[17..]) == WithOthers(b64, c, l)
  {
    hide AssignLines, Atoi, AssignNames, AssignUses, Items, Decoded, Blank;
    var c0 := c;
    OneMoreLine(b64, c0, 17, l);
    var c1 := c0.(ocsp := ListOf(b64, l[17]));
    OneMoreLine(b64, c1, 18, l);
    var c2 := c1.(crl := ListOf(b64, l[18]));
    OneMoreLine(b64, c2, 19, l);
    var c3 := c2.(freshestCrl := ListOf(b64, l[19]));
    OneMoreLine(b64, c3, 20, l);
    var c4 := c3.(nsComment := CodeOf(b64, l[20]));
    OneMoreLine(b64, c4, 21, l);
    var c5 := c4.(profile := CodeOf(b64, l[21]));
    OneMoreLine(b64, c5, 22, l);
    var c6 := c5.(noOcspCheck := IsSet(l[22]));
    OneMoreLine(b64, c6, 23, l);
    var c7 := c6.(nsCertType := CodeOf(b64, l[23]));
    OneMoreLine(b64, c7, 24, l);
    RestIsIgnored(b64, WithOthers(b64, c, l), 25, l[25..]);
  }

  // Line by line, the fields of the entry which is read from a report of 25 lines or more;
  // every other field is as it was.
  lemma LinesAreFields(b64: Base64, c: Cert, b: string)
    requires |LinesFrom(b, 0)| >= 25
    ensures var l := LinesFrom(b, 0);
            ReadData(b64, c, b) == WithOthers(b64, WithUses(b64, WithHosts(b64, WithNames(b64, c, l), l), l), l)
  {
    hide AssignLines, LinesFrom, WithNames, WithHosts, WithUses, WithOthers;
    var l := LinesFrom(b, 0);
    assert l[0..] == l;
    NamesAreAssigned(b64, c, l);
    HostsAreAssigned(b64, WithNames(b64, c, l), l);
    UsesAreAssigned(b64, WithHosts(b64, WithNames(b64, c, l), l), l);
    OthersAreAssigned(b64, WithUses(b64, WithHosts(b64, WithNames(b64, c, l), l), l), l);
  }
}
