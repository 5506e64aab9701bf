/**
 The older form in which helpers report lists of certificates: a nickname on a line
 of its own, then the certificate, and an empty line after each list.
 */
module LegacyCerts {
  import opened Wrappers
  import opened Lines
  import opened NickCerts

  const BEGIN := "-----BEGIN"
  const END := "-----END"

  predicate BeginsAt(s: string, p: nat, text: string) {
    p + |text| <= |s| && forall i :: 0 <= i < |text| ==> s[p + i] == text[i]
  }

  // The first place from position p on where a text is: strstr().
  function Find(s: string, p: nat, text: string): (r: Option<nat>)
    ensures r.Some? ==> p <= r.value && r.value + |text| <= |s|
    decreases |s| - p
  {
    if p + |text| > |s| then None else if BeginsAt(s, p, text) then Some(p) else Find(s, p + 1, text)
  }

  lemma {:induction false} FoundIsFirst(s: string, p: nat, text: string)
    ensures match Find(s, p, text)
            case Some(e) => BeginsAt(s, e, text) && forall i :: p <= i < e ==> !BeginsAt(s, i, text)
            case None => forall i :: p <= i ==> !BeginsAt(s, i, text)
    decreases |s| - p
  {
    if p + |text| <= |s| && !BeginsAt(s, p, text) {
      FoundIsFirst(s, p + 1, text);
    }
  }

  lemma {:induction false} FirstIsFound(s: string, p: nat, text: string, e: nat)
    requires p <= e && BeginsAt(s, e, text) && forall i :: p <= i < e ==> !BeginsAt(s, i, text)
    ensures Find(s, p, text) == Some(e)
    decreases e - p
  {
    if p < e {
      FirstIsFound(s, p + 1, text, e);
    }
  }

  // A text without the carriage returns right before its line feeds.
  function Unix(s: string): string {
    if s == "" then ""
    else
      var t := Unix(s[1..]);
      if s[0] == '\r' && t != "" && t[0] == '\n' then t else [s[0]] + t
  }

  // An empty line ends a list.
  predicate StopsAt(s: string, end: nat) {
    || (end + 2 <= |s| && s[end] == '\n' && s[end + 1] == '\n')
    || (end + 4 <= |s| && s[end] == '\r' && s[end + 1] == '\n' && s[end + 2] == '\r' && s[end + 3] == '\n')
  }

  datatype OldRead = Read(certs: seq<NickCert>, next: nat) | Malformed

  function Appended(certs: seq<NickCert>, r: OldRead): OldRead {
    match r
    case Read(more, n) => Read(certs + more, n)
    case Malformed => Malformed
  }

  // One list, from position p on.
  function OldList(s: string, p: nat): (r: OldRead)
    requires p <= |s|
    ensures r.Read? ==> p <= r.next <= |s|
    decreases |s| - p, 0
  {
    var q := LineEnd(s, p);
    if p == q then Read([], p) else OldCert(s, s[p..q], BreaksEnd(s, q))
  }

  // The certificate at position c, which belongs to a nickname, and the rest of the list.
  function OldCert(s: string, nickname: string, c: nat): (r: OldRead)
    requires c <= |s|
    ensures r.Read? ==> c <= r.next <= |s|
    decreases |s| - c, 2
  {
    match Find(s, c, END)
    case None => Malformed
    case Some(e) =>
      var end := LineEnd(s, e);
      if BeginsAt(s, c, BEGIN) then OldRest(s, NickCert(nickname, Unix(s[c..end] + "\n")), end) else Malformed
  }

  // What follows a pair which ends at position end: an empty line, or more of the list.
  function OldRest(s: string, nc: NickCert, end: nat): (r: OldRead)
    requires end <= |s|
    ensures r.Read? ==> end <= r.next <= |s|
    decreases |s| - end, 1
  {
    var next := BreaksEnd(s, end);
    if StopsAt(s, end) then Read([nc], next) else Appended([nc], OldList(s, next))
  }

  // The three lists, as far as they can be read.
  datatype Lists = Lists(roots: seq<NickCert>, otherRoots: seq<NickCert>, others: seq<NickCert>)

  function ThreeLists(s: string): Lists {
    match OldList(s, 0)
    case Malformed => Lists([], [], [])
    case Read(roots, p) =>
      match OldList(s, p)
      case Malformed => Lists(roots, [], [])
      case Read(otherRoots, q) =>
        match OldList(s, q)
        case Malformed => Lists(roots, otherRoots, [])
        case Read(others, _) => Lists(roots, otherRoots, others)
  }

  // Taking the carriage returns out one at a time.

  lemma {:induction false} UnixOfOneLess(a: string, b: string)
    ensures Unix(a + "\r\n" + b) == Unix(a + "\n" + b)
  {
    if a == "" {
      assert ("" + "\r\n" + b)[1..] == "\n" + b && ("\n" + b)[1..] == b && "" + "\n" + b == "\n" + b;
    } else {
      UnixOfOneLess(a[1..], b);
      assert (a + "\r\n" + b)[1..] == a[1..] + "\r\n" + b && (a + "\n" + b)[1..] == a[1..] + "\n" + b;
    }
  }

  lemma {:induction false} UnixOfUnix(s: string)
    requires forall i :: 0 <= i && i + 1 < |s| ==> s[i] != '\r' || s[i + 1] != '\n'
    ensures Unix(s) == s
  {
    if s != "" {
      UnixOfUnix(s[1..]);
    }
  }

  method TakeOutReturns(text: string) returns (cert: string)
    ensures cert == Unix(text)
  {
    cert := text;
    var s := Find(cert, 0, "\r\n");
    while s.Some?
      invariant s == Find(cert, 0, "\r\n") && Unix(cert) == Unix(text)
      decreases |cert|
    {
      FoundIsFirst(cert, 0, "\r\n");
      var i := s.value;
      var a, b := cert[..i], cert[i + 2..];
      assert cert == a + "\r\n" + b;
      UnixOfOneLess(a, b);
      // memmove(s, s + 1, strlen(s))
      cert := cert[..i] + cert[i + 1..];
      assert cert == a + "\n" + b;
      s := Find(cert, 0, "\r\n");
    }
    FoundIsFirst(cert, 0, "\r\n");
    forall i | 0 <= i && i + 1 < |cert| ensures cert[i] != '\r' || cert[i + 1] != '\n' {
      assert !BeginsAt(cert, i, "\r\n");
    }
    UnixOfUnix(cert);
  }

  method ParseOldCertList(msg: string, start: nat) returns (next: Option<nat>, list: seq<NickCert>)
    requires start <= |msg|
    ensures match OldList(msg, start)
            case Read(certs, n) => next == Some(n) && list == certs
            case Malformed => next == None && list == []
  {
    var certs: seq<NickCert> := [];
    var p := start;
    var q := LineEnd(msg, p);
    while p != q
      invariant start <= p <= |msg| && q == LineEnd(msg, p)
      invariant OldList(msg, start) == Appended(certs, OldList(msg, p))
      decreases |msg| - p
    {
      var nickname := msg[p..q];
      p := BreaksEnd(msg, q);
      assert OldList(msg, start) == Appended(certs, OldCert(msg, nickname, p));
      if !BeginsAt(msg, p, BEGIN) {
        return None, [];
      }
      var found := Find(msg, p, END);
      if found == None {
        return None, [];
      }
      q := LineEnd(msg, found.value);
      var cert := TakeOutReturns(msg[p..q] + "\n");
      var nc := NickCert(nickname, cert);
      assert OldList(msg, start) == Appended(certs, OldRest(msg, nc, q));
      AppendedOne(certs, nc, OldList(msg, BreaksEnd(msg, q)));
      certs := certs + [nc];
      p := BreaksEnd(msg, q);
      if StopsAt(msg, q) {
        return Some(p), certs;
      }
      q := LineEnd(msg, p);
    }
    next, list := Some(p), certs;
  }

  lemma AppendedOne(certs: seq<NickCert>, nc: NickCert, r: OldRead)
    ensures Appended(certs + [nc], r) == Appended(certs, Appended([nc], r))
  {
    if r.Read? {
      assert certs + [nc] + r.certs == certs + ([nc] + r.certs);
    }
  }
}
