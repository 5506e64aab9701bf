/**
 Text in lines: where strcspn(), strspn() and the like stop which look for the
 characters that end a line.
 */
module Lines {

  predicate IsBreak(c: char) {
    c == '\r' || c == '\n'
  }

  predicate OneLine(s: string) {
    forall i :: 0 <= i < |s| ==> !IsBreak(s[i])
  }

  // The end of the line position p is on: p + strcspn(p, "\r\n").
  function LineEnd(s: string, p: nat): (q: nat)
    requires p <= |s|
    ensures p <= q <= |s|
    ensures forall i :: p <= i < q ==> !IsBreak(s[i])
    ensures q < |s| ==> IsBreak(s[q])
    decreases |s| - p
  {
    if p == |s| || IsBreak(s[p]) then p else LineEnd(s, p + 1)
  }

  // The end of the line breaks from position q on: q + strspn(q, "\r\n").
  function BreaksEnd(s: string, q: nat): (p: nat)
    requires q <= |s|
    ensures q <= p <= |s|
    ensures forall i :: q <= i < p ==> IsBreak(s[i])
    ensures p < |s| ==> !IsBreak(s[p])
    decreases |s| - q
  {
    if q == |s| || !IsBreak(s[q]) then q else BreaksEnd(s, q + 1)
  }

  lemma LineEndIs(s: string, p: nat, q: nat)
    requires p <= q <= |s| && (forall i :: p <= i < q ==> !IsBreak(s[i])) && (q < |s| ==> IsBreak(s[q]))
    ensures LineEnd(s, p) == q
  {
  }

  lemma BreaksEndIs(s: string, q: nat, p: nat)
    requires q <= p <= |s| && (forall i :: q <= i < p ==> IsBreak(s[i])) && (p < |s| ==> !IsBreak(s[p]))
    ensures BreaksEnd(s, q) == p
  {
  }

  // A line, its breaks, and what follows them, from position p on.
  lemma LineAndBreaks(s: string, p: nat, line: string, breaks: string, rest: string)
    requires p <= |s| && s[p..] == line + breaks + rest && OneLine(line)
    requires breaks != "" && (forall i :: 0 <= i < |breaks| ==> IsBreak(breaks[i])) && (rest == "" || !IsBreak(rest[0]))
    ensures var q := p + |line|;
            && q + |breaks| <= |s| && LineEnd(s, p) == q && BreaksEnd(s, q) == q + |breaks|
            && s[p..q] == line && s[q + |breaks|..] == rest
  {
    var q, n := p + |line|, p + |line| + |breaks|;
    var tail := s[p..];
    assert forall i :: 0 <= i < |tail| ==> s[p + i] == tail[i];
    assert tail[..|line|] == line && tail[|line|..][..|breaks|] == breaks && tail[|line| + |breaks|..] == rest;
    assert forall i :: p <= i < q ==> s[i] == line[i - p];
    assert forall i :: q <= i < n ==> s[i] == breaks[i - q];
    assert n < |s| ==> s[n] == rest[0];
    LineEndIs(s, p, q);
    BreaksEndIs(s, q, n);
  }
}
