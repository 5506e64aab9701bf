/**
 Reading back what was written through the pipe: what comes back as it was, and
 the exceptions.
 */
module CertPipeTrips {
  import opened Wrappers
  import opened Decimals
  import opened Lines
  import opened CertPipe

  predicate PlainOk(o: Option<string>) {
    o.Some? ==> o.value != "" && OneLine(o.value)
  }

  predicate TextOk(o: Option<string>) {
    o.Some? ==> o.value != ""
  }

  predicate ItemsOk(items: seq<string>) {
    forall i :: 0 <= i < |items| ==> items[i] != ""
  }

  predicate ListOk(o: Option<seq<string>>) {
    o.Some? ==> ItemsOk(o.value)
  }

  predicate TimeOk(t: int) {
    0 <= t <= LLONG_MAX
  }

  // Values which can be sent: none empty, no line breaks in those sent as they
  // are, no negative times, a path length of 32 bits, and a PEM text which is not
  // blank.
  predicate Sendable(c: Cert) {
    && PlainOk(c.issuerDer) && PlainOk(c.serial) && PlainOk(c.subjectDer) && PlainOk(c.spki) && PlainOk(c.ku) && PlainOk(c.eku)
    && TextOk(c.issuer) && TextOk(c.subject) && TextOk(c.token)
    && TextOk(c.nsComment) && TextOk(c.profile) && TextOk(c.nsCertType)
    && TimeOk(c.notBefore) && TimeOk(c.notAfter)
    && ListOk(c.hostname) && ListOk(c.email) && ListOk(c.principal) && ListOk(c.ipaddress)
    && ListOk(c.ocsp) && ListOk(c.crl) && ListOk(c.freshestCrl)
    && -0x8000_0000 <= c.pathLength < 0x8000_0000
    && (c.cert.Some? ==> !Blank(c.cert.value))
  }

  function ItemsOf(o: Option<seq<string>>): seq<string> {
    match o
    case Some(items) => items
    case None => []
  }

  function Encoded(b64: Base64, items: seq<string>): (r: seq<string>)
    ensures |r| == |items| && forall i :: 0 <= i < |items| ==> r[i] == b64.enc(items[i])
  {
    if items == [] then [] else [b64.enc(items[0])] + Encoded(b64, items[1..])
  }

  // What arrives: lists are never NULL, IP addresses stay encoded, an absent token
  // leaves the old one, the path length only counts for a CA, and the PEM text
  // gains a line break.
  function Received(b64: Base64, c: Cert, old': Cert): Cert {
    c.(hostname := Some(ItemsOf(c.hostname)), email := Some(ItemsOf(c.email)), principal := Some(ItemsOf(c.principal)),
       ipaddress := Some(Encoded(b64, ItemsOf(c.ipaddress))),
       token := if c.token.Some? then c.token else old'.token,
       pathLength := if c.isCa then c.pathLength else -1,
       ocsp := Some(ItemsOf(c.ocsp)), crl := Some(ItemsOf(c.crl)), freshestCrl := Some(ItemsOf(c.freshestCrl)),
       cert := if c.cert.Some? then Some(c.cert.value + "\n") else None)
  }

  // Lines.

  // The values stand on one line each from position p to position e.
  predicate Laid(b: string, p: nat, vs: seq<string>, e: nat)
    decreases |vs|
  {
    if vs == [] then p == e
    else
      && p < |b|
      && var q := LineEnd(b, p + 1);
         b[p + 1..q] == vs[0] && Laid(b, BreaksEnd(b, q), vs[1..], e)
  }

  // One line of a text, and the rest.
  lemma OneLineStands(b: string, p: nat, v: string, rest: string)
    requires p <= |b| && b[p..] == " " + v + "\n" + rest && OneLine(v) && (rest == "" || !IsBreak(rest[0]))
    ensures p < |b| && p + |v| + 2 <= |b| && b[p + |v| + 2..] == rest
    ensures var q := LineEnd(b, p + 1); b[p + 1..q] == v && BreaksEnd(b, q) == p + |v| + 2
  {
    assert b[p + 1..] == b[p..][1..] == v + "\n" + rest;
    LineAndBreaks(b, p + 1, v, "\n", rest);
  }

  lemma StartsWithSpace(vs: seq<string>, last: string)
    requires last != "" && last[0] == ' '
    ensures AllLines(vs) + last != "" && (AllLines(vs) + last)[0] == ' '
  {
  }

  lemma Associate(v: string, lines: string, last: string)
    ensures " " + v + "\n" + lines + last == " " + v + "\n" + (lines + last)
  {
  }

  // The lines are those of the values, and then others.
  predicate Begins(lines: seq<Line>, vs: seq<string>, others: seq<Line>) {
    && |lines| == |vs| + |others|
    && (forall k :: 0 <= k < |vs| ==> lines[k].v == vs[k])
    && lines[|vs|..] == others
  }

  lemma BeginsWithOneMore(line: Line, lines: seq<Line>, vs: seq<string>, others: seq<Line>)
    requires vs != [] && line.v == vs[0] && Begins(lines, vs[1..], others)
    ensures Begins([line] + lines, vs, others)
  {
    assert ([line] + lines)[|vs|..] == lines[|vs| - 1..];
  }

  lemma {:induction false} LinesAreLaid(b: string, p: nat, vs: seq<string>, last: string)
    requires last != "" && last[0] == ' ' && forall k :: 0 <= k < |vs| ==> OneLine(vs[k])
    requires p <= |b| && b[p..] == AllLines(vs) + last
    ensures |last| <= |b| && b[|b| - |last|..] == last
    ensures Laid(b, p, vs, |b| - |last|)
    decreases |vs|
  {
    hide AllLines, LineEnd, BreaksEnd, OneLine, Laid;
    if vs == [] {
      NoLinesAreLaid(b, p, last);
    } else {
      var next := FirstLineStands(b, p, vs, last);
      var others := vs[1..];
      LinesAreLaid(b, next, others, last);
      OneMoreIsLaid(b, p, vs, others, next, |b| - |last|);
    }
  }

  lemma NoLinesAreLaid(b: string, p: nat, last: string)
    requires p <= |b| && b[p..] == AllLines([]) + last
    ensures |last| <= |b| && b[|b| - |last|..] == last && Laid(b, p, [], |b| - |last|)
  {
    assert AllLines([]) + last == last;
  }

  lemma OneMoreIsLaid(b: string, p: nat, vs: seq<string>, others: seq<string>, next: nat, e: nat)
    requires vs != [] && others == vs[1..] && p < |b| && next <= |b| && Laid(b, next, others, e)
    requires b[p + 1..LineEnd(b, p + 1)] == vs[0] && BreaksEnd(b, LineEnd(b, p + 1)) == next
    ensures Laid(b, p, vs, e)
  {
  }

  // The first line, and where the others begin.
  lemma FirstLineStands(b: string, p: nat, vs: seq<string>, last: string) returns (next: nat)
    requires vs != [] && last != "" && last[0] == ' ' && OneLine(vs[0]) && p <= |b| && b[p..] == AllLines(vs) + last
    ensures p < |b| && next <= |b| && b[next..] == AllLines(vs[1..]) + last
    ensures var q := LineEnd(b, p + 1); b[p + 1..q] == vs[0] && BreaksEnd(b, q) == next
  {
    next := p + |vs[0]| + 2;
    var v, rest := vs[0], AllLines(vs[1..]) + last;
    assert rest != "" && rest[0] == ' ' by { StartsWithSpace(vs[1..], last); }
    assert b[p..] == " " + v + "\n" + rest by { Associate(v, AllLines(vs[1..]), last); }
    OneLineStands(b, p, v, rest);
  }

  lemma {:induction false} LaidIsRead(b: string, p: nat, vs: seq<string>, e: nat)
    requires Laid(b, p, vs, e)
    ensures Begins(LinesFrom(b, p), vs, LinesFrom(b, e))
    decreases |vs|
  {
    if vs != [] {
      var q := LineEnd(b, p + 1);
      var next := BreaksEnd(b, q);
      LaidIsRead(b, next, vs[1..], e);
      BeginsWithOneMore(Line(b[p + 1..q], b[p + 1..]), LinesFrom(b, next), vs, LinesFrom(b, e));
    }
  }

  // Lines beyond the last value are passed over.
  lemma {:induction false} OthersAreIgnored(b64: Base64, c: Cert, i: nat, lines: seq<Line>)
    requires i >= 25
    ensures AssignLines(b64, c, i, lines) == c
    decreases |lines|
  {
    if lines != [] {
      OthersAreIgnored(b64, c, i + 1, lines[1..]);
    }
  }

  lemma BlankWithBreak(v: string)
    ensures Blank(v + "\n") <==> Blank(v)
  {
    var rest := v + "\n";
    assert forall i :: 0 <= i < |v| ==> rest[i] == v[i];
    assert rest[|v|] == '\n';
  }

  lemma LastIsAssigned(b64: Base64, c: Cert, lines: seq<Line>, v: string)
    requires lines != [] && lines[0].rest == v + "\n"
    ensures AssignLines(b64, c, 24, lines) == c.(cert := if Blank(v) then None else Some(v + "\n"))
  {
    BlankWithBreak(v);
    OthersAreIgnored(b64, c.(cert := if Blank(v) then None else Some(v + "\n")), 25, lines[1..]);
  }

  // The last value takes the rest of the text, whatever lines it has.
  lemma LastIsRead(b64: Base64, c: Cert, b: string, p: nat, v: string)
    requires p <= |b| && b[p..] == " " + v + "\n"
    ensures AssignLines(b64, c, 24, LinesFrom(b, p)) == c.(cert := if Blank(v) then None else Some(v + "\n"))
  {
    var lines := LinesFrom(b, p);
    assert lines[0].rest == v + "\n" by { assert b[p + 1..] == b[p..][1..]; }
    LastIsAssigned(b64, c, lines, v);
  }

  // Single values.

  lemma CodeIsRead(b64: Base64, o: Option<string>)
    requires Inverse(b64) && TextOk(o)
    ensures FromCode(b64, Coded(b64, o)) == o && OneLine(Coded(b64, o))
  {
    if o.Some? {
      assert IsCode(b64, o.value);
    }
  }

  lemma PlainIsRead(o: Option<string>)
    requires PlainOk(o)
    ensures NonEmpty(Plain(o)) == o && OneLine(Plain(o))
  {
  }

  lemma TrimmedNumber(s: string)
    requires s != "" && (IsDigit(s[0]) || s[0] == '-')
    ensures Trimmed(s) == s
  {
  }

  lemma NumberIsReadBack(n: int)
    requires LLONG_MIN <= n <= LLONG_MAX
    ensures Atol(NumberText(n)) == n && OneLine(NumberText(n))
    ensures -0x8000_0000 <= n < 0x8000_0000 ==> Atoi(NumberText(n)) == n
  {
    var text := NumberText(n);
    assert Signed(text) == n by {
      NumberIsRead(n, "");
      assert text + "" == text;
    }
    TrimmedNumber(text);
    NumberIsOneLine(n);
  }

  lemma NumberIsOneLine(n: int)
    ensures OneLine(NumberText(n))
  {
    var text := NumberText(n);
    assert text[0] == '-' || IsDigit(text[0]);
  }

  lemma TimeIsRead(t: int)
    requires TimeOk(t)
    ensures Atol(TimeText(t)) == t && OneLine(TimeText(t))
  {
    assert t % 0x1_0000_0000_0000_0000 == t;
    NumberIsReadBack(t);
  }

  lemma FlagIsRead(b: bool)
    ensures (Flag(b) != "" && Atoi(Flag(b)) != 0) == b && OneLine(Flag(b))
  {
    NumberIsReadBack(if b then 1 else 0);
    assert NumberText(if b then 1 else 0) == Flag(b);
  }

  // Lists.

  lemma CommasAreOneLine(b64: Base64, items: seq<string>)
    requires Inverse(b64)
    ensures OneLine(Commas(b64, items))
  {
    if items != [] {
      assert IsCode(b64, items[0]);
      CommasAreOneLine(b64, items[1..]);
    }
  }

  lemma {:induction false} ItemEndIs(b: string, u: nat, v: nat)
    requires u <= v <= |b| && (forall i :: u <= i < v ==> !IsSeparator(b[i])) && (v < |b| ==> IsSeparator(b[v]))
    ensures ItemEnd(b, u) == v
  {
  }

  // Codes joined by commas are taken apart again.
  lemma {:induction false} ItemsAreRead(b64: Base64, b: string, u: nat, items: seq<string>)
    requires Inverse(b64) && ItemsOk(items) && u <= |b| && b[u..] == Commas(b64, items)
    ensures Items(b, u, |b|) == Encoded(b64, items)
    decreases |items|, 0
  {
    if items != [] {
      var code := b64.enc(items[0]);
      assert IsCode(b64, items[0]);
      var v := u + |code|;
      assert b[u..v] == b[u..][..|code|] == code;
      assert forall i :: u <= i < v ==> b[i] == b[u..v][i - u];
      if |items| == 1 {
        ItemEndIs(b, u, v);
        assert items[1..] == [];
        assert Items(b, v, |b|) == [];
      } else {
        var rest := Commas(b64, items[1..]);
        assert b[u..] == code + "," + rest;
        assert b[v] == b[u..][|code|] == ',';
        assert b[v + 1..] == b[u..][|code| + 1..] == rest;
        ItemEndIs(b, u, v);
        RestIsRead(b64, b, v, items[1..]);
      }
    }
  }

  lemma {:induction false} RestIsRead(b64: Base64, b: string, v: nat, items: seq<string>)
    requires Inverse(b64) && ItemsOk(items) && items != []
    requires v < |b| && b[v] == ',' && b[v + 1..] == Commas(b64, items)
    ensures Items(b, v, |b|) == Encoded(b64, items)
    decreases |items|, 1
  {
    assert IsCode(b64, items[0]);
    var code := b64.enc(items[0]);
    assert b[v + 1] == b[v + 1..][0] == code[0];
    assert SeparatorsEnd(b, v) == v + 1;
    ItemsAreRead(b64, b, v + 1, items);
    assert ItemEnd(b, v) == v;
  }

  lemma {:induction false} DecodedEncoded(b64: Base64, items: seq<string>)
    requires Inverse(b64)
    ensures Decoded(b64, Encoded(b64, items)) == items
  {
    forall i | 0 <= i < |items| ensures Decoded(b64, Encoded(b64, items))[i] == items[i] {
      assert IsCode(b64, items[i]);
    }
  }

  lemma ListIsRead(b64: Base64, o: Option<seq<string>>)
    requires Inverse(b64) && ListOk(o)
    ensures var v := List(b64, o);
            && OneLine(v) && Items(v, 0, |v|) == Encoded(b64, ItemsOf(o))
            && Decoded(b64, Items(v, 0, |v|)) == ItemsOf(o)
  {
    var v := List(b64, o);
    if o.Some? {
      CommasAreOneLine(b64, o.value);
      assert v[0..] == v;
      ItemsAreRead(b64, v, 0, o.value);
    }
    DecodedEncoded(b64, ItemsOf(o));
  }

  // One value after the other.

  predicate Carries(b64: Base64, c: Cert, all: seq<Line>) {
    |all| >= 24 && forall k :: 0 <= k < 24 ==> all[k].v == Values(b64, c)[k]
  }

  // The entry once value number k has come in.
  function Put(b64: Base64, c: Cert, to: Cert, k: nat): Cert {
    match k
    case 0 => to.(issuerDer := c.issuerDer)
    case 1 => to.(issuer := c.issuer)
    case 2 => to.(serial := c.serial)
    case 3 => to.(subjectDer := c.subjectDer)
    case 4 => to.(subject := c.subject)
    case 5 => to.(spki := c.spki)
    case 6 => to.(notBefore := c.notBefore)
    case 7 => to.(notAfter := c.notAfter)
    case 8 => to.(hostname := Some(ItemsOf(c.hostname)))
    case 9 => to.(email := Some(ItemsOf(c.email)))
    case 10 => to.(principal := Some(ItemsOf(c.principal)))
    case 11 => to.(ipaddress := Some(Encoded(b64, ItemsOf(c.ipaddress))))
    case 12 => to.(ku := c.ku)
    case 13 => to.(eku := c.eku)
    case 14 => to.(token := if c.token.Some? then c.token else to.token)
    case 15 => to.(isCa := c.isCa)
    case 16 => to.(pathLength := if c.isCa then c.pathLength else -1)
    case 17 => to.(ocsp := Some(ItemsOf(c.ocsp)))
    case 18 => to.(crl := Some(ItemsOf(c.crl)))
    case 19 => to.(freshestCrl := Some(ItemsOf(c.freshestCrl)))
    case 20 => to.(nsComment := c.nsComment)
    case 21 => to.(profile := c.profile)
    case 22 => to.(noOcspCheck := c.noOcspCheck)
    case 23 => to.(nsCertType := c.nsCertType)
    case _ => to
  }

  lemma PlainIsPut(b64: Base64, c: Cert, to: Cert, k: nat, rest: string)
    requires Sendable(c) && (k == 0 || k == 2 || k == 3 || k == 5 || k == 12 || k == 13)
    ensures OneLine(Value(b64, c, k))
    ensures Assign(b64, to, k, Value(b64, c, k), rest) == Put(b64, c, to, k)
  {
    hide NonEmpty, Plain, OneLine;
    match k
    case 0 => PlainIsRead(c.issuerDer);
    case 2 => PlainIsRead(c.serial);
    case 3 => PlainIsRead(c.subjectDer);
    case 5 => PlainIsRead(c.spki);
    case 12 => PlainIsRead(c.ku);
    case _ => PlainIsRead(c.eku);
  }

  lemma CodeIsPut(b64: Base64, c: Cert, to: Cert, k: nat, rest: string)
    requires Inverse(b64) && Sendable(c) && (k == 1 || k == 4 || k == 20 || k == 21 || k == 23)
    ensures OneLine(Value(b64, c, k))
    ensures Assign(b64, to, k, Value(b64, c, k), rest) == Put(b64, c, to, k)
  {
    hide FromCode, Coded, OneLine, Inverse;
    match k
    case 1 => CodeIsRead(b64, c.issuer);
    case 4 => CodeIsRead(b64, c.subject);
    case 20 => CodeIsRead(b64, c.nsComment);
    case 21 => CodeIsRead(b64, c.profile);
    case _ => CodeIsRead(b64, c.nsCertType);
  }

  lemma TimeIsPut(b64: Base64, c: Cert, to: Cert, k: nat, rest: string)
    requires Sendable(c) && (k == 6 || k == 7)
    ensures OneLine(Value(b64, c, k))
    ensures Assign(b64, to, k, Value(b64, c, k), rest) == Put(b64, c, to, k)
  {
    hide Atol, TimeText, OneLine;
    TimeIsRead(if k == 6 then c.notBefore else c.notAfter);
  }

  lemma FlagIsPut(b64: Base64, c: Cert, to: Cert, k: nat, rest: string)
    requires k == 15 || k == 22
    ensures OneLine(Value(b64, c, k))
    ensures Assign(b64, to, k, Value(b64, c, k), rest) == Put(b64, c, to, k)
  {
    hide Atoi, Flag, OneLine;
    FlagIsRead(if k == 15 then c.isCa else c.noOcspCheck);
  }

  lemma LengthIsPut(b64: Base64, c: Cert, to: Cert, rest: string)
    requires Sendable(c)
    ensures OneLine(Value(b64, c, 16))
    ensures Assign(b64, to, 16, Value(b64, c, 16), rest) == Put(b64, c, to, 16)
  {
    hide Atoi, OneLine;
    NumberIsReadBack(if c.isCa then c.pathLength else -1);
  }

  lemma ListIsPut(b64: Base64, c: Cert, to: Cert, k: nat, rest: string)
    requires Inverse(b64) && Sendable(c) && (8 <= k < 12 || 17 <= k < 20)
    ensures OneLine(Value(b64, c, k))
    ensures Assign(b64, to, k, Value(b64, c, k), rest) == Put(b64, c, to, k)
  {
    hide Items, Decoded, Encoded, List, OneLine, Inverse;
    match k
    case 8 => ListIsRead(b64, c.hostname);
    case 9 => ListIsRead(b64, c.email);
    case 10 => ListIsRead(b64, c.principal);
    case 11 => ListIsRead(b64, c.ipaddress);
    case 17 => ListIsRead(b64, c.ocsp);
    case 18 => ListIsRead(b64, c.crl);
    case _ => ListIsRead(b64, c.freshestCrl);
  }

  // An absent token comes as an empty line, which assigns nothing.
  lemma TokenIsPut(b64: Base64, c: Cert, to: Cert, rest: string)
    requires Inverse(b64) && Sendable(c)
    ensures OneLine(Value(b64, c, 14))
    ensures Assign(b64, to, 14, Value(b64, c, 14), rest) == Put(b64, c, to, 14)
  {
    CodeIsRead(b64, c.token);
    if c.token.Some? {
      assert IsCode(b64, c.token.value);
    }
  }

  lemma ValueIsPut(b64: Base64, c: Cert, to: Cert, k: nat, rest: string)
    requires Inverse(b64) && Sendable(c) && k < 24
    ensures OneLine(Value(b64, c, k))
    ensures Assign(b64, to, k, Value(b64, c, k), rest) == Put(b64, c, to, k)
  {
    hide Assign, Put, Value, Sendable, Inverse, OneLine;
    match k
    case 0 | 2 | 3 | 5 | 12 | 13 => PlainIsPut(b64, c, to, k, rest);
    case 1 | 4 | 20 | 21 | 23 => CodeIsPut(b64, c, to, k, rest);
    case 6 | 7 => TimeIsPut(b64, c, to, k, rest);
    case 15 | 22 => FlagIsPut(b64, c, to, k, rest);
    case 16 => LengthIsPut(b64, c, to, rest);
    case 14 => TokenIsPut(b64, c, to, rest);
    case _ => ListIsPut(b64, c, to, k, rest);
  }

  // The entry once the values from number k on have come in.
  function PutFrom(b64: Base64, c: Cert, to: Cert, k: nat): Cert
    requires k <= 24
    decreases 24 - k
  {
    if k == 24 then to else PutFrom(b64, c, Put(b64, c, to, k), k + 1)
  }

  lemma NextIsPut(b64: Base64, c: Cert, to: Cert, k: nat, to1: Cert)
    requires k < 24 && to1 == Put(b64, c, to, k)
    ensures PutFrom(b64, c, to, k) == PutFrom(b64, c, to1, k + 1)
  {
    hide Put;
  }

  lemma {:induction false} ValuesArePut(b64: Base64, c: Cert, to: Cert, all: seq<Line>, k: nat)
    requires Inverse(b64) && Sendable(c) && Carries(b64, c, all) && k <= 24
    ensures AssignLines(b64, to, k, all[k..]) == AssignLines(b64, PutFrom(b64, c, to, k), 24, all[24..])
    decreases 24 - k
  {
    hide Assign, Put, Value, Sendable, Inverse;
    if k < 24 {
      var to1 := Put(b64, c, to, k);
      ValueIsPut(b64, c, to, k, all[k].rest);
      assert all[k..][0] == all[k] && all[k..][1..] == all[k + 1..];
      NextIsPut(b64, c, to, k, to1);
      ValuesArePut(b64, c, to1, all, k + 1);
    }
  }

  // What they come to, a part at a time.

  lemma NamesComeTo(b64: Base64, c: Cert, to: Cert)
    ensures PutFrom(b64, c, to, 0) == PutFrom(b64, c,
              to.(issuerDer := c.issuerDer, issuer := c.issuer, serial := c.serial,
                  subjectDer := c.subjectDer, subject := c.subject, spki := c.spki), 6)
  {
    hide PutFrom;
    var c1 := Put(b64, c, to, 0);
    NextIsPut(b64, c, to, 0, c1);
    var c2 := Put(b64, c, c1, 1);
    NextIsPut(b64, c, c1, 1, c2);
    var c3 := Put(b64, c, c2, 2);
    NextIsPut(b64, c, c2, 2, c3);
    var c4 := Put(b64, c, c3, 3);
    NextIsPut(b64, c, c3, 3, c4);
    var c5 := Put(b64, c, c4, 4);
    NextIsPut(b64, c, c4, 4, c5);
    var c6 := Put(b64, c, c5, 5);
    NextIsPut(b64, c, c5, 5, c6);
  }

  lemma TimesComeTo(b64: Base64, c: Cert, to: Cert)
    ensures PutFrom(b64, c, to, 6) == PutFrom(b64, c,
              to.(notBefore := c.notBefore, notAfter := c.notAfter), 8)
  {
    hide PutFrom;
    var c1 := Put(b64, c, to, 6);
    NextIsPut(b64, c, to, 6, c1);
    var c2 := Put(b64, c, c1, 7);
    NextIsPut(b64, c, c1, 7, c2);
  }

  lemma ListsComeTo(b64: Base64, c: Cert, to: Cert)
    ensures PutFrom(b64, c, to, 8) == PutFrom(b64, c,
              to.(hostname := Some(ItemsOf(c.hostname)), email := Some(ItemsOf(c.email)),
                  principal := Some(ItemsOf(c.principal)),
                  ipaddress := Some(Encoded(b64, ItemsOf(c.ipaddress)))), 12)
  {
    hide PutFrom;
    var c1 := Put(b64, c, to, 8);
    NextIsPut(b64, c, to, 8, c1);
    var c2 := Put(b64, c, c1, 9);
    NextIsPut(b64, c, c1, 9, c2);
    var c3 := Put(b64, c, c2, 10);
    NextIsPut(b64, c, c2, 10, c3);
    var c4 := Put(b64, c, c3, 11);
    NextIsPut(b64, c, c3, 11, c4);
  }

  lemma UsesComeTo(b64: Base64, c: Cert, to: Cert)
    ensures PutFrom(b64, c, to, 12) == PutFrom(b64, c,
              to.(ku := c.ku, eku := c.eku,
                  token := if c.token.Some? then c.token else to.token, isCa := c.isCa,
                  pathLength := if c.isCa then c.pathLength else -1), 17)
  {
    hide PutFrom;
    var c1 := Put(b64, c, to, 12);
    NextIsPut(b64, c, to, 12, c1);
    var c2 := Put(b64, c, c1, 13);
    NextIsPut(b64, c, c1, 13, c2);
    var c3 := Put(b64, c, c2, 14);
    NextIsPut(b64, c, c2, 14, c3);
    var c4 := Put(b64, c, c3, 15);
    NextIsPut(b64, c, c3, 15, c4);
    var c5 := Put(b64, c, c4, 16);
    NextIsPut(b64, c, c4, 16, c5);
  }

  lemma LocationsComeTo(b64: Base64, c: Cert, to: Cert)
    ensures PutFrom(b64, c, to, 17) == PutFrom(b64, c,
              to.(ocsp := Some(ItemsOf(c.ocsp)), crl := Some(ItemsOf(c.crl)),
                  freshestCrl := Some(ItemsOf(c.freshestCrl))), 20)
  {
    hide PutFrom;
    var c1 := Put(b64, c, to, 17);
    NextIsPut(b64, c, to, 17, c1);
    var c2 := Put(b64, c, c1, 18);
    NextIsPut(b64, c, c1, 18, c2);
    var c3 := Put(b64, c, c2, 19);
    NextIsPut(b64, c, c2, 19, c3);
  }

  lemma OthersComeTo(b64: Base64, c: Cert, to: Cert)
    ensures PutFrom(b64, c, to, 20) == PutFrom(b64, c,
              to.(nsComment := c.nsComment, profile := c.profile,
                  noOcspCheck := c.noOcspCheck, nsCertType := c.nsCertType), 24)
  {
    hide PutFrom;
    var c1 := Put(b64, c, to, 20);
    NextIsPut(b64, c, to, 20, c1);
    var c2 := Put(b64, c, c1, 21);
    NextIsPut(b64, c, c1, 21, c2);
    var c3 := Put(b64, c, c2, 22);
    NextIsPut(b64, c, c2, 22, c3);
    var c4 := Put(b64, c, c3, 23);
    NextIsPut(b64, c, c3, 23, c4);
  }

  lemma AllComeTo(b64: Base64, c: Cert, to: Cert)
    ensures PutFrom(b64, c, to, 0) == Received(b64, c, to).(cert := to.cert)
  {
    hide Put;
    NamesComeTo(b64, c, to);
    var c0 := to.(issuerDer := c.issuerDer, issuer := c.issuer, serial := c.serial,
                  subjectDer := c.subjectDer, subject := c.subject, spki := c.spki);
    TimesComeTo(b64, c, c0);
    var c1 := c0.(notBefore := c.notBefore, notAfter := c.notAfter);
    ListsComeTo(b64, c, c1);
    var c2 := c1.(hostname := Some(ItemsOf(c.hostname)), email := Some(ItemsOf(c.email)),
                  principal := Some(ItemsOf(c.principal)), ipaddress := Some(Encoded(b64, ItemsOf(c.ipaddress))));
    UsesComeTo(b64, c, c2);
    var c3 := c2.(ku := c.ku, eku := c.eku, token := if c.token.Some? then c.token else to.token,
                  isCa := c.isCa, pathLength := if c.isCa then c.pathLength else -1);
    LocationsComeTo(b64, c, c3);
    OthersComeTo(b64, c, c3.(ocsp := Some(ItemsOf(c.ocsp)), crl := Some(ItemsOf(c.crl)), freshestCrl := Some(ItemsOf(c.freshestCrl))));
  }

  lemma ValuesAreOneLine(b64: Base64, c: Cert)
    requires Inverse(b64) && Sendable(c)
    ensures forall k :: 0 <= k < 24 ==> OneLine(Values(b64, c)[k])
  {
    hide Assign, Put, Value, Sendable, Inverse, OneLine;
    forall k | 0 <= k < 24 ensures OneLine(Values(b64, c)[k]) {
      ValueIsPut(b64, c, c, k, "");
    }
  }

  // The pipe: what was written arrives, but for the exceptions.
  lemma PipeRoundTrip(b64: Base64, c: Cert, to: Cert)
    requires Inverse(b64) && Sendable(c)
    ensures ReadData(b64, to, PipeText(b64, c)) == Received(b64, c, to)
  {
    var vs := Values(b64, c);
    var last := " " + Plain(c.cert) + "\n";
    var b := PipeText(b64, c);
    var p := |b| - |last|;
    var all := LinesFrom(b, 0);
    ValuesAreOneLine(b64, c);
    assert b[0..] == b;
    LinesAreLaid(b, 0, vs, last);
    LaidIsRead(b, 0, vs, p);
    assert Carries(b64, c, all);
    assert all[0..] == all && all[24..] == LinesFrom(b, p);
    ValuesArePut(b64, c, to, all, 0);
    AllComeTo(b64, c, to);
    LastIsRead(b64, Received(b64, c, to).(cert := to.cert), b, p, Plain(c.cert));
  }

  // So it arrives unchanged exactly if there are no exceptions in it.
  lemma PipeIsExact(b64: Base64, c: Cert, to: Cert)
    requires Inverse(b64) && Sendable(c)
    ensures ReadData(b64, to, PipeText(b64, c)) == c <==>
              && c.hostname.Some? && c.email.Some? && c.principal.Some? && c.ocsp.Some? && c.crl.Some? && c.freshestCrl.Some?
              && c.ipaddress.Some? && Encoded(b64, c.ipaddress.value) == c.ipaddress.value
              && (c.token == None ==> to.token == None)
              && (!c.isCa ==> c.pathLength == -1)
              && c.cert == None
  {
    PipeRoundTrip(b64, c, to);
    if c.cert.Some? {
      assert |c.cert.value + "\n"| != |c.cert.value|;
    }
  }
}
