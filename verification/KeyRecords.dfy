/**
 The fields an entry keeps about its keys, as key generation and certificate
 saving update them, and the three lines key generation reports in.
 */
module KeyRecords {
  import opened Wrappers
  import opened EntrySteps
  import opened Lines

  datatype Report = Report(info: string, pubkey: string, marker: string)

  // The first three lines of a text.
  function ReadReport(s: string): Report {
    var q := LineEnd(s, 0);
    var p1 := BreaksEnd(s, q);
    var q1 := LineEnd(s, p1);
    var p2 := BreaksEnd(s, q1);
    Report(s[..q], s[p1..q1], s[p2..LineEnd(s, p2)])
  }

  function PrintReport(r: Report): string {
    r.info + "\n" + r.pubkey + "\n" + r.marker + "\n"
  }

  predicate Breaks(s: string) {
    s != "" && forall i :: 0 <= i < |s| ==> IsBreak(s[i])
  }

  // Texts of one, two and three lines.

  lemma ReadsOne(s: string, info: string, b: string)
    requires s == info + b && OneLine(info) && Breaks(b)
    ensures ReadReport(s) == Report(info, "", "")
  {
    assert s[0..] == info + b + "";
    LineAndBreaks(s, 0, info, b, "");
  }

  lemma ReadsTwo(s: string, info: string, b: string, second: string, b1: string)
    requires s == info + b + (second + b1) && OneLine(info) && Breaks(b) && OneLine(second) && second != "" && Breaks(b1)
    ensures ReadReport(s) == Report(info, second, "")
  {
    assert s[0..] == info + b + (second + b1);
    LineAndBreaks(s, 0, info, b, second + b1);
    var p := |info| + |b|;
    assert s[p..] == second + b1 + "" by { assert second + b1 + "" == second + b1; }
    LineAndBreaks(s, p, second, b1, "");
  }

  lemma ReadsThree(s: string, r: Report)
    requires s == r.info + "\n" + (r.pubkey + "\n" + (r.marker + "\n"))
    requires OneLine(r.info) && OneLine(r.pubkey) && OneLine(r.marker) && r.pubkey != "" && r.marker != ""
    ensures ReadReport(s) == r
  {
    var t1 := r.marker + "\n";
    var t := r.pubkey + "\n" + t1;
    assert s[0..] == r.info + "\n" + t;
    assert t[0] == r.pubkey[0];
    LineAndBreaks(s, 0, r.info, "\n", t);
    var p := |r.info| + 1;
    assert t1[0] == r.marker[0];
    SecondAndThird(s, p, r.pubkey, r.marker);
  }

  lemma SecondAndThird(s: string, p: nat, pubkey: string, marker: string)
    requires p <= |s| && s[p..] == pubkey + "\n" + (marker + "\n")
    requires OneLine(pubkey) && OneLine(marker) && pubkey != "" && marker != ""
    ensures var q := LineEnd(s, p);
            var p1 := BreaksEnd(s, q);
            s[p..q] == pubkey && s[p1..LineEnd(s, p1)] == marker
  {
    LineAndBreaks(s, p, pubkey, "\n", marker + "\n");
    LastLine(s, p + |pubkey| + 1, marker);
  }

  lemma LastLine(s: string, p: nat, marker: string)
    requires p <= |s| && s[p..] == marker + "\n" && OneLine(marker)
    ensures s[p..LineEnd(s, p)] == marker
  {
    assert marker + "\n" == marker + "\n" + "";
    LineAndBreaks(s, p, marker, "\n", "");
  }

  // A report is read back as it was printed, unless the public key is empty while
  // there is a marker: then the marker is taken for the public key.
  lemma ReportRoundTrip(r: Report)
    requires OneLine(r.info) && OneLine(r.pubkey) && OneLine(r.marker)
    ensures ReadReport(PrintReport(r)) == r <==> r.pubkey != "" || r.marker == ""
  {
    var s := PrintReport(r);
    if r.pubkey != "" && r.marker != "" {
      assert s == r.info + "\n" + (r.pubkey + "\n" + (r.marker + "\n"));
      ReadsThree(s, r);
    } else if r.pubkey != "" {
      assert s == r.info + "\n" + (r.pubkey + "\n\n");
      ReadsTwo(s, r.info, "\n", r.pubkey, "\n\n");
    } else if r.marker != "" {
      assert s == r.info + "\n\n" + (r.marker + "\n");
      ReadsTwo(s, r.info, "\n\n", r.marker, "\n");
    } else {
      assert s == r.info + "\n\n\n";
      ReadsOne(s, r.info, "\n\n\n");
    }
  }

  // What a report means for the keys.
  function OutputOf(report: string): KeyOutput {
    if ReadReport(report).marker != "" then KeyWithMarker else KeyWithoutMarker
  }

  // Walking through the report; the marker is NULL if its line is empty.
  method TakeApart(report: string) returns (info: string, pubkey: string, marker: Option<string>)
    ensures ReadReport(report) == Report(info, pubkey, if marker.Some? then marker.value else "")
    ensures marker.Some? ==> marker.value != ""
  {
    var q := LineEnd(report, 0);
    info := report[..q];
    var p := BreaksEnd(report, q);
    q := LineEnd(report, p);
    pubkey := report[p..q];
    p := BreaksEnd(report, q);
    q := LineEnd(report, p);
    marker := None;
    if q > p {
      marker := Some(report[p..q]);
    }
  }

  class KeyRecord {
    var pubkeyInfo: string
    var pubkey: string
    var generatedDate: int
    var requestedCount: int
    var issuedCount: nat
    var nextPubkeyInfo: Option<string>
    var nextPubkey: Option<string>
    var nextMarker: Option<string>
    var nextGeneratedDate: int
    var nextRequestedCount: int
    // Which keys these are, and the keys of the certificates saved so far.
    ghost var current: nat
    ghost var candidate: nat
    ghost var saved: seq<nat>
    ghost var nextKey: nat

    predicate HasCandidate()
      reads this
    {
      nextMarker.Some? && nextMarker.value != ""
    }

    ghost function View(): Keys
      reads this
    {
      Keys(if HasCandidate() then Some(candidate) else None, issuedCount, current, saved, nextKey)
    }

    // What the fields are after key generation reported r.
    twostate predicate Reported(r: Report, now: int)
      reads this
    {
      if r.marker != "" then
        && nextMarker == Some(r.marker) && nextPubkeyInfo == Some(r.info) && nextPubkey == Some(r.pubkey)
        && nextGeneratedDate == now && nextRequestedCount == 0
        && pubkeyInfo == old(pubkeyInfo) && pubkey == old(pubkey)
        && generatedDate == old(generatedDate) && requestedCount == old(requestedCount)
      else
        && nextMarker == None && nextPubkeyInfo == None && nextPubkey == None && nextGeneratedDate == 0
        && pubkeyInfo == r.info && pubkey == r.pubkey && generatedDate == now && requestedCount == 0
        && nextRequestedCount == old(nextRequestedCount)
    }

    // Cleaning up after key generation, which printed a report; whether it left a
    // usable key behind is not looked at.
    method GenerationDone(report: string, now: int, ghost succeeded: bool)
      modifies this
      ensures View() == KeysCleanedUp(old(View()), OutputOf(report), succeeded)
      ensures Reported(ReadReport(report), now)
    {
      var info, key, marker := TakeApart(report);
      NoteReport(info, key, marker, now, succeeded);
    }

    method NoteReport(info: string, key: string, marker: Option<string>, now: int, ghost succeeded: bool)
      modifies this
      ensures View() == KeysCleanedUp(old(View()), if marker.Some? && marker.value != "" then KeyWithMarker else KeyWithoutMarker, succeeded)
      ensures Reported(Report(info, key, if marker.Some? then marker.value else ""), now)
    {
      if marker.Some? && marker.value != "" {
        NoteCandidate(info, key, marker, now);
      } else {
        NoteKey(info, key, now, succeeded);
      }
    }

    method NoteCandidate(info: string, key: string, marker: Option<string>, now: int)
      requires marker.Some? && marker.value != ""
      modifies this
      ensures View() == KeysCleanedUp(old(View()), KeyWithMarker, true) && Reported(Report(info, key, marker.value), now)
    {
      nextPubkeyInfo, nextPubkey, nextMarker := Some(info), Some(key), marker;
      nextGeneratedDate, nextRequestedCount := now, 0;
      candidate, nextKey := nextKey, nextKey + 1;
    }

    method NoteKey(info: string, key: string, now: int, ghost succeeded: bool)
      modifies this
      ensures View() == KeysCleanedUp(old(View()), KeyWithoutMarker, succeeded) && Reported(Report(info, key, ""), now)
    {
      nextPubkeyInfo, nextPubkey, nextMarker := None, None, None;
      nextGeneratedDate := 0;
      pubkeyInfo, pubkey := info, key;
      generatedDate, requestedCount, issuedCount := now, 0, 0;
      if succeeded {
        current, nextKey := nextKey, nextKey + 1;
      }
    }

    // Asked whether the certificate was saved: if it was, a candidate takes the
    // place of the current key, with its date and its count of requests.
    method CertificateSaved(exited: bool, status: int) returns (r: int)
      modifies this
      ensures r == 0 <==> exited && status == STATUS_SAVED
      ensures r == 0 ==> View() == PromoteKey(old(View())) && nextMarker == None
      ensures r == 0 && old(HasCandidate()) ==>
                && requestedCount == old(nextRequestedCount) && nextRequestedCount == 0
                && generatedDate == old(nextGeneratedDate) && nextGeneratedDate == 0
      ensures r == 0 && !old(HasCandidate()) ==>
                && requestedCount == old(requestedCount) && nextRequestedCount == old(nextRequestedCount)
                && generatedDate == old(generatedDate) && nextGeneratedDate == old(nextGeneratedDate)
      ensures r != 0 ==> unchanged(this)
    {
      if !exited || status != STATUS_SAVED {
        return -1;
      }
      if nextMarker.Some? && nextMarker.value != "" {
        requestedCount := nextRequestedCount;
        nextRequestedCount := 0;
        generatedDate := nextGeneratedDate;
        nextGeneratedDate := 0;
        issuedCount := 1;
        current := candidate;
      } else {
        issuedCount := issuedCount + 1;
      }
      saved := saved + [current];
      nextMarker := None;
      return 0;
    }
  }

  const STATUS_SAVED := 0
}
