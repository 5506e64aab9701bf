/**
 The lines in which the certificate reader hands over what it read: 25 values, one
 to a line, the last of which, the PEM text, has lines of its own.
 */
module CertPipe {
  import opened Wrappers
  import opened Decimals
  import opened Lines

  // None is a NULL pointer.
  datatype Cert = Cert(
    issuerDer: Option<string>, issuer: Option<string>, serial: Option<string>,
    subjectDer: Option<string>, subject: Option<string>, spki: Option<string>,
    notBefore: int, notAfter: int,
    hostname: Option<seq<string>>, email: Option<seq<string>>, principal: Option<seq<string>>,
    ipaddress: Option<seq<string>>,
    ku: Option<string>, eku: Option<string>, token: Option<string>,
    isCa: bool, pathLength: int,
    ocsp: Option<seq<string>>, crl: Option<seq<string>>, freshestCrl: Option<seq<string>>,
    nsComment: Option<string>, profile: Option<string>, noOcspCheck: bool, nsCertType: Option<string>,
    cert: Option<string>)

  // Base64 is not part of this model: any pair of functions may stand for it.
  datatype Base64 = Base64(enc: string -> string, dec: string -> string)

  predicate IsSeparator(c: char) {
    c == ',' || IsBreak(c)
  }

  ghost predicate Inverse(b64: Base64) {
    forall x: string :: IsCode(b64, x)
  }

  ghost predicate IsCode(b64: Base64, x: string) {
    && b64.dec(b64.enc(x)) == x
    && (forall i :: 0 <= i < |b64.enc(x)| ==> !IsSeparator(b64.enc(x)[i]))
    && (x != "" ==> b64.enc(x) != "")
  }

  // Writing.

  function Plain(o: Option<string>): string {
    match o
    case Some(s) => s
    case None => ""
  }

  function Coded(b64: Base64, o: Option<string>): string {
    match o
    case Some(s) => b64.enc(s)
    case None => ""
  }

  function Commas(b64: Base64, items: seq<string>): string {
    if items == [] then "" else if |items| == 1 then b64.enc(items[0]) else b64.enc(items[0]) + "," + Commas(b64, items[1..])
  }

  function List(b64: Base64, o: Option<seq<string>>): string {
    match o
    case Some(items) => Commas(b64, items)
    case None => ""
  }

  function Flag(b: bool): string {
    if b then "1" else "0"
  }

  // "%lu" of a time: a negative one comes out as the unsigned number it wraps to.
  function TimeText(n: int): string {
    Decimal(n % 0x1_0000_0000_0000_0000)
  }

  // Value number k as it is printed.
  function Value(b64: Base64, c: Cert, k: nat): string {
    match k
    case 0 => Plain(c.issuerDer)
    case 1 => Coded(b64, c.issuer)
    case 2 => Plain(c.serial)
    case 3 => Plain(c.subjectDer)
    case 4 => Coded(b64, c.subject)
    case 5 => Plain(c.spki)
    case 6 => TimeText(c.notBefore)
    case 7 => TimeText(c.notAfter)
    case 8 => List(b64, c.hostname)
    case 9 => List(b64, c.email)
    case 10 => List(b64, c.principal)
    case 11 => List(b64, c.ipaddress)
    case 12 => Plain(c.ku)
    case 13 => Plain(c.eku)
    case 14 => Coded(b64, c.token)
    case 15 => Flag(c.isCa)
    case 16 => NumberText(if c.isCa then c.pathLength else -1)
    case 17 => List(b64, c.ocsp)
    case 18 => List(b64, c.crl)
    case 19 => List(b64, c.freshestCrl)
    case 20 => Coded(b64, c.nsComment)
    case 21 => Coded(b64, c.profile)
    case 22 => Flag(c.noOcspCheck)
    case _ => Coded(b64, c.nsCertType)
  }

  // The values but the last.
  function Values(b64: Base64, c: Cert): (vs: seq<string>)
    ensures |vs| == 24
  {
    seq(24, k requires 0 <= k < 24 => Value(b64, c, k))
  }

  function AllLines(vs: seq<string>): string {
    if vs == [] then "" else " " + vs[0] + "\n" + AllLines(vs[1..])
  }

  function PipeText(b64: Base64, c: Cert): string {
    AllLines(Values(b64, c)) + (" " + Plain(c.cert) + "\n")
  }

  // Reading.

  // strcspn(u, ",\r\n") and strspn(u, ",\r\n"), as positions.
  function ItemEnd(b: string, u: nat): (v: nat)
    requires u <= |b|
    ensures u <= v <= |b|
    ensures forall i :: u <= i < v ==> !IsSeparator(b[i])
    ensures v < |b| ==> IsSeparator(b[v])
    decreases |b| - u
  {
    if u == |b| || IsSeparator(b[u]) then u else ItemEnd(b, u + 1)
  }

  function SeparatorsEnd(b: string, u: nat): (v: nat)
    requires u <= |b|
    ensures u <= v <= |b|
    ensures u < |b| && IsSeparator(b[u]) ==> u < v
    ensures forall i :: u <= i < v ==> IsSeparator(b[i])
    ensures v < |b| ==> !IsSeparator(b[v])
    decreases |b| - u
  {
    if u == |b| || !IsSeparator(b[u]) then u else SeparatorsEnd(b, u + 1)
  }

  // The items of a list between two positions.
  function Items(b: string, u: nat, q: nat): seq<string>
    requires q <= |b|
    decreases |b| - u
  {
    if u >= q then []
    else
      var v := ItemEnd(b, u);
      if v > u then [b[u..v]] + Items(b, v, q) else Items(b, SeparatorsEnd(b, u), q)
  }

  function Decoded(b64: Base64, items: seq<string>): (r: seq<string>)
    ensures |r| == |items| && forall i :: 0 <= i < |items| ==> r[i] == b64.dec(items[i])
  {
    if items == [] then [] else [b64.dec(items[0])] + Decoded(b64, items[1..])
  }

  function NonEmpty(v: string): Option<string> {
    if v == "" then None else Some(v)
  }

  function FromCode(b64: Base64, v: string): Option<string> {
    if v == "" then None else Some(b64.dec(v))
  }

  // atol() and atoi() of a text: spaces, a sign, digits; held in 64 bits, and for
  // atoi() cut down to 32.
  function Trimmed(s: string): string {
    if s != "" && (s[0] == ' ' || 9 <= s[0] as int <= 13) then Trimmed(s[1..]) else s
  }

  function Atol(s: string): int {
    Held(Signed(Trimmed(s)))
  }

  function Atoi(s: string): int {
    var n := Atol(s) % 0x1_0000_0000;
    if n >= 0x8000_0000 then n - 0x1_0000_0000 else n
  }

  predicate Blank(s: string) {
    forall i :: 0 <= i < |s| ==> s[i] == ' ' || IsBreak(s[i])
  }

  // What value number i, the line v, does to the entry; rest is the text from the
  // value on.
  function Assign(b64: Base64, c: Cert, i: nat, v: string, rest: string): Cert {
    if i < 8 then AssignNames(b64, c, i, v)
    else if i < 17 then AssignUses(b64, c, i, v)
    else AssignOthers(b64, c, i, v, rest)
  }

  function AssignNames(b64: Base64, c: Cert, i: nat, v: string): Cert {
    match i
    case 0 => c.(issuerDer := NonEmpty(v))
    case 1 => c.(issuer := FromCode(b64, v))
    case 2 => c.(serial := NonEmpty(v))
    case 3 => c.(subjectDer := NonEmpty(v))
    case 4 => c.(subject := FromCode(b64, v))
    case 5 => c.(spki := NonEmpty(v))
    case 6 => c.(notBefore := Atol(v))
    case 7 => c.(notAfter := Atol(v))
    case _ => c
  }

  function AssignUses(b64: Base64, c: Cert, i: nat, v: string): Cert {
    match i
    case 8 => c.(hostname := Some(Decoded(b64, Items(v, 0, |v|))))
    case 9 => c.(email := Some(Decoded(b64, Items(v, 0, |v|))))
    case 10 => c.(principal := Some(Decoded(b64, Items(v, 0, |v|))))
    case 11 => c.(ipaddress := Some(Items(v, 0, |v|)))
    case 12 => c.(ku := NonEmpty(v))
    case 13 => c.(eku := NonEmpty(v))
    case 14 => if v == "" then c else c.(token := FromCode(b64, v))
    case 15 => c.(isCa := v != "" && Atoi(v) != 0)
    case 16 => c.(pathLength := if v == "" then -1 else Atoi(v))
    case _ => c
  }

  function AssignOthers(b64: Base64, c: Cert, i: nat, v: string, rest: string): Cert {
    match i
    case 17 => c.(ocsp := Some(Decoded(b64, Items(v, 0, |v|))))
    case 18 => c.(crl := Some(Decoded(b64, Items(v, 0, |v|))))
    case 19 => c.(freshestCrl := Some(Decoded(b64, Items(v, 0, |v|))))
    case 20 => c.(nsComment := FromCode(b64, v))
    case 21 => c.(profile := FromCode(b64, v))
    case 22 => c.(noOcspCheck := v != "" && Atoi(v) != 0)
    case 23 => c.(nsCertType := FromCode(b64, v))
    case 24 => c.(cert := if Blank(rest) then None else Some(rest))
    case _ => c
  }

  // A line which is read: its value, and the text from the value on.
  datatype Line = Line(v: string, rest: string)

  // The lines from position p on.  The first character of each is passed over.
  function LinesFrom(b: string, p: nat): seq<Line>
    decreases |b| - p
  {
    if p >= |b| then []
    else
      var q := LineEnd(b, p + 1);
      [Line(b[p + 1..q], b[p + 1..])] + LinesFrom(b, BreaksEnd(b, q))
  }

  function AssignLines(b64: Base64, c: Cert, i: nat, lines: seq<Line>): Cert
    decreases |lines|
  {
    if lines == [] then c else AssignLines(b64, Assign(b64, c, i, lines[0].v, lines[0].rest), i + 1, lines[1..])
  }

  function ReadData(b64: Base64, c: Cert, b: string): Cert {
    AssignLines(b64, c, 0, LinesFrom(b, 0))
  }
}
