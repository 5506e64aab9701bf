/**
 Which certificates belong in a file: those of every CA which lists the file for a
 class of certificates, or which an entry that lists it names, and those which the
 entries that list the file hold themselves.
 */
module SaveLists {
  import opened Wrappers
  import opened NickCerts

  datatype Level = Root | OtherRoot | Other

  datatype SaveCert = SaveCert(level: Level, pair: NickCert)

  // The locations a CA or an entry lists for each class; NULL lists are empty.
  datatype Files = Files(root: seq<string>, otherRoot: seq<string>, other: seq<string>)

  datatype CaRecord = CaRecord(
    nickname: string, files: Files,
    rootCerts: seq<NickCert>, otherRootCerts: seq<NickCert>, otherCerts: seq<NickCert>)

  datatype EntryRecord = EntryRecord(
    caNickname: Option<string>, files: Files,
    roots: seq<NickCert>, chain: seq<NickCert>)

  function FilesOf(f: Files, level: Level): seq<string> {
    match level
    case Root => f.root
    case OtherRoot => f.otherRoot
    case Other => f.other
  }

  function CertsOf(ca: CaRecord, level: Level): seq<NickCert> {
    match level
    case Root => ca.rootCerts
    case OtherRoot => ca.otherRootCerts
    case Other => ca.otherCerts
  }

  // The definition, for the first i CAs with all entries, and the first m entries.

  predicate EntryLists(entry: EntryRecord, ca: CaRecord, filename: string, level: Level) {
    entry.caNickname == Some(ca.nickname) && filename in FilesOf(entry.files, level)
  }

  // The file is listed for the class by the CA, or by one of the first j entries
  // naming the CA.
  predicate Listed(ca: CaRecord, entries: seq<EntryRecord>, j: nat, filename: string, level: Level)
    requires j <= |entries|
  {
    filename in FilesOf(ca.files, level) || exists k :: 0 <= k < j && EntryLists(entries[k], ca, filename, level)
  }

  predicate FromCa(ca: CaRecord, entries: seq<EntryRecord>, j: nat, filename: string, x: SaveCert)
    requires j <= |entries|
  {
    x.pair in CertsOf(ca, x.level) && Listed(ca, entries, j, filename, x.level)
  }

  predicate FromEntry(entry: EntryRecord, filename: string, x: SaveCert) {
    || (x.level == Root && filename in entry.files.root && x.pair in entry.roots)
    || (x.level == Other && filename in entry.files.other && x.pair in entry.chain)
  }

  predicate Wanted(cas: seq<CaRecord>, i: nat, entries: seq<EntryRecord>, m: nat, filename: string, x: SaveCert)
    requires i <= |cas| && m <= |entries|
  {
    || (exists k :: 0 <= k < i && FromCa(cas[k], entries, |entries|, filename, x))
    || (exists k :: 0 <= k < m && FromEntry(entries[k], filename, x))
  }

  predicate Holds(list: seq<SaveCert>, pair: NickCert) {
    exists k :: 0 <= k < |list| && list[k].pair == pair
  }

  predicate NoPairTwice(list: seq<SaveCert>) {
    forall i, k :: 0 <= i < k < |list| ==> list[i].pair != list[k].pair
  }

  // The list, built in order: what is added, and what is there already.

  function Added(list: seq<SaveCert>, level: Level, pair: NickCert): seq<SaveCert> {
    if Holds(list, pair) then list else list + [SaveCert(level, pair)]
  }

  function WithPairs(list: seq<SaveCert>, level: Level, pairs: seq<NickCert>): seq<SaveCert>
    decreases |pairs|
  {
    if pairs == [] then list else WithPairs(Added(list, level, pairs[0]), level, pairs[1..])
  }

  // The CA's certificates of the classes for which the file is listed.
  function WithClasses(list: seq<SaveCert>, ca: CaRecord, files: Files, filename: string): seq<SaveCert> {
    var l1 := if filename in files.root then WithPairs(list, Root, ca.rootCerts) else list;
    var l2 := if filename in files.otherRoot then WithPairs(l1, OtherRoot, ca.otherRootCerts) else l1;
    if filename in files.other then WithPairs(l2, Other, ca.otherCerts) else l2
  }

  // The same for what every entry lists which names the CA, from number j on.
  function WithNamers(list: seq<SaveCert>, ca: CaRecord, entries: seq<EntryRecord>, j: nat, filename: string): seq<SaveCert>
    decreases |entries| - j
  {
    if j >= |entries| then list
    else
      WithNamers(if entries[j].caNickname == Some(ca.nickname) then WithClasses(list, ca, entries[j].files, filename) else list,
                 ca, entries, j + 1, filename)
  }

  function WithCas(list: seq<SaveCert>, cas: seq<CaRecord>, i: nat, entries: seq<EntryRecord>, filename: string): seq<SaveCert>
    decreases |cas| - i
  {
    if i >= |cas| then list
    else WithCas(WithNamers(WithClasses(list, cas[i], cas[i].files, filename), cas[i], entries, 0, filename),
                 cas, i + 1, entries, filename)
  }

  // What the entries hold themselves.
  function WithOwn(list: seq<SaveCert>, entry: EntryRecord, filename: string): seq<SaveCert> {
    var l1 := if filename in entry.files.root then WithPairs(list, Root, entry.roots) else list;
    if filename in entry.files.other then WithPairs(l1, Other, entry.chain) else l1
  }

  function WithEntries(list: seq<SaveCert>, entries: seq<EntryRecord>, j: nat, filename: string): seq<SaveCert>
    decreases |entries| - j
  {
    if j >= |entries| then list else WithEntries(WithOwn(list, entries[j], filename), entries, j + 1, filename)
  }

  lemma {:induction false} PresentAddNothing(list: seq<SaveCert>, level: Level, pairs: seq<NickCert>)
    requires forall pair :: pair in pairs ==> Holds(list, pair)
    ensures WithPairs(list, level, pairs) == list
    decreases |pairs|
  {
    hide Holds;
    if pairs != [] {
      PresentAddNothing(list, level, pairs[1..]);
    }
  }

  lemma OnePairMore(list: seq<SaveCert>, level: Level, pairs: seq<NickCert>, i: nat)
    requires i < |pairs|
    ensures WithPairs(list, level, pairs[i..]) == WithPairs(Added(list, level, pairs[i]), level, pairs[i + 1..])
  {
    assert pairs[i..][1..] == pairs[i + 1..];
  }

  // Once all three classes were added, no entry adds any more.
  lemma {:induction false} NamersAddNothing(list: seq<SaveCert>, ca: CaRecord, entries: seq<EntryRecord>, j: nat, filename: string)
    requires forall pair :: pair in ca.rootCerts || pair in ca.otherRootCerts || pair in ca.otherCerts ==> Holds(list, pair)
    ensures WithNamers(list, ca, entries, j, filename) == list
    decreases |entries| - j
  {
    hide Holds, WithPairs;
    if j < |entries| {
      PresentAddNothing(list, Root, ca.rootCerts);
      PresentAddNothing(list, OtherRoot, ca.otherRootCerts);
      PresentAddNothing(list, Other, ca.otherCerts);
      NamersAddNothing(list, ca, entries, j + 1, filename);
    }
  }

  class CertList {
    var certs: seq<SaveCert>

    constructor ()
      ensures certs == []
    {
      certs := [];
    }

    // Append a pair unless it is there already, at whatever level.
    method AddCert(level: Level, pair: NickCert)
      requires NoPairTwice(certs)
      modifies this
      ensures NoPairTwice(certs)
      ensures certs == Added(old(certs), level, pair)
    {
      var i := 0;
      while i < |certs|
        invariant 0 <= i <= |certs| && forall k :: 0 <= k < i ==> certs[k].pair != pair
      {
        if certs[i].pair == pair {
          return;
        }
        i := i + 1;
      }
      certs := certs + [SaveCert(level, pair)];
    }

    // Append every pair of a list.
    method AddNickCerts(level: Level, pairs: seq<NickCert>)
      requires NoPairTwice(certs)
      modifies this
      ensures NoPairTwice(certs) && old(certs) <= certs
      ensures forall k :: |old(certs)| <= k < |certs| ==> certs[k].level == level && certs[k].pair in pairs
      ensures forall pair :: pair in pairs ==> Holds(certs, pair)
      ensures certs == WithPairs(old(certs), level, pairs)
    {
      assert pairs[0..] == pairs;
      for i := 0 to |pairs|
        invariant WithPairs(certs, level, pairs[i..]) == WithPairs(old(certs), level, pairs)
        invariant NoPairTwice(certs) && old(certs) <= certs
        invariant forall k :: |old(certs)| <= k < |certs| ==> certs[k].level == level && certs[k].pair in pairs
        invariant forall j :: 0 <= j < i ==> Holds(certs, pairs[j])
      {
        ghost var before := certs;
        OnePairMore(certs, level, pairs, i);
        AddCert(level, pairs[i]);
        GrowingHolds(before, certs);
        if !Holds(before, pairs[i]) {
          assert certs[|before|].pair == pairs[i];
        }
      }
    }
  }

  lemma GrowingHolds(before: seq<SaveCert>, after: seq<SaveCert>)
    requires before <= after
    ensures forall pair :: Holds(before, pair) ==> Holds(after, pair)
  {
    forall pair | Holds(before, pair) ensures Holds(after, pair) {
      var k :| 0 <= k < |before| && before[k].pair == pair;
      assert after[k].pair == pair;
    }
  }

  method HasString(list: seq<string>, value: string) returns (r: bool)
    ensures r == (value in list)
  {
    for i := 0 to |list|
      invariant value !in list[..i]
    {
      if list[i] == value {
        return true;
      }
      assert list[..i + 1] == list[..i] + [list[i]];
    }
    assert list[..|list|] == list;
    return false;
  }

  // have_root, have_other_root and have_other.
  datatype Have = Have(root: bool, otherRoot: bool, other: bool)

  predicate Has(h: Have, level: Level) {
    match level
    case Root => h.root
    case OtherRoot => h.otherRoot
    case Other => h.other
  }

  function WithLevel(h: Have, level: Level): Have {
    match level
    case Root => h.(root := true)
    case OtherRoot => h.(otherRoot := true)
    case Other => h.(other := true)
  }

  // The classes we have are those for which the file was found listed so far.
  predicate SaysListed(h: Have, ca: CaRecord, entries: seq<EntryRecord>, j: nat, filename: string)
    requires j <= |entries|
  {
    forall level :: Has(h, level) <==> Listed(ca, entries, j, filename, level)
  }

  // The CA's certificates of the classes we have were added, and no others.
  predicate AddedFor(h: Have, ca: CaRecord, before: seq<SaveCert>, after: seq<SaveCert>) {
    && NoPairTwice(after) && before <= after
    && (forall k :: |before| <= k < |after| ==> Has(h, after[k].level) && after[k].pair in CertsOf(ca, after[k].level))
    && (forall level, pair :: Has(h, level) && pair in CertsOf(ca, level) ==> Holds(after, pair))
  }

  // Add a class we do not have yet, if the file is listed for it.
  method TakeClass(list: CertList, h: Have, ca: CaRecord, level: Level, files: seq<string>, filename: string,
                   ghost before: seq<SaveCert>)
    returns (h1: Have)
    requires AddedFor(h, ca, before, list.certs)
    modifies list
    ensures AddedFor(h1, ca, before, list.certs)
    ensures h1 == if filename in files then WithLevel(h, level) else h
    ensures list.certs == if filename in files then WithPairs(old(list.certs), level, CertsOf(ca, level)) else old(list.certs)
  {
    h1 := h;
    if Has(h, level) {
      PresentAddNothing(list.certs, level, CertsOf(ca, level));
    } else {
      var listed := HasString(files, filename);
      if listed {
        ghost var was := list.certs;
        list.AddNickCerts(level, CertsOf(ca, level));
        GrowingHolds(was, list.certs);
        h1 := WithLevel(h, level);
      }
    }
  }

  method TakeClasses(list: CertList, h: Have, ca: CaRecord, files: Files, filename: string, ghost before: seq<SaveCert>)
    returns (h1: Have)
    requires AddedFor(h, ca, before, list.certs)
    modifies list
    ensures AddedFor(h1, ca, before, list.certs)
    ensures forall level :: Has(h1, level) <==> Has(h, level) || filename in FilesOf(files, level)
    ensures list.certs == WithClasses(old(list.certs), ca, files, filename)
  {
    h1 := TakeClass(list, h, ca, Root, files.root, filename, before);
    h1 := TakeClass(list, h1, ca, OtherRoot, files.otherRoot, filename, before);
    h1 := TakeClass(list, h1, ca, Other, files.other, filename, before);
  }

  lemma ListedNext(ca: CaRecord, entries: seq<EntryRecord>, j: nat, filename: string, level: Level)
    requires j < |entries|
    ensures Listed(ca, entries, j + 1, filename, level) <==>
              Listed(ca, entries, j, filename, level) || EntryLists(entries[j], ca, filename, level)
  {
  }

  lemma ListedLater(ca: CaRecord, entries: seq<EntryRecord>, j: nat, n: nat, filename: string, level: Level)
    requires j <= n <= |entries| && Listed(ca, entries, j, filename, level)
    ensures Listed(ca, entries, n, filename, level)
  {
  }

  lemma NothingIsLeft(h: Have, ca: CaRecord, before: seq<SaveCert>, after: seq<SaveCert>, entries: seq<EntryRecord>, j: nat,
                      filename: string)
    requires AddedFor(h, ca, before, after) && h.root && h.otherRoot && h.other
    ensures WithNamers(after, ca, entries, j, filename) == after
  {
    hide Holds;
    assert Has(h, Root) && Has(h, OtherRoot) && Has(h, Other);
    assert CertsOf(ca, Root) == ca.rootCerts && CertsOf(ca, OtherRoot) == ca.otherRootCerts && CertsOf(ca, Other) == ca.otherCerts;
    NamersAddNothing(after, ca, entries, j, filename);
  }

  // The part of one CA.
  method AddForCa(list: CertList, ca: CaRecord, entries: seq<EntryRecord>, filename: string)
    requires NoPairTwice(list.certs)
    modifies list
    ensures NoPairTwice(list.certs) && old(list.certs) <= list.certs
    ensures forall k :: |old(list.certs)| <= k < |list.certs| ==> FromCa(ca, entries, |entries|, filename, list.certs[k])
    ensures forall x :: FromCa(ca, entries, |entries|, filename, x) ==> Holds(list.certs, x.pair)
    ensures list.certs == WithNamers(WithClasses(old(list.certs), ca, ca.files, filename), ca, entries, 0, filename)
  {
    ghost var before := list.certs;
    var h := Have(false, false, false);
    h := TakeClasses(list, h, ca, ca.files, filename, before);
    var j := 0;
    while j < |entries|
      invariant 0 <= j <= |entries| && SaysListed(h, ca, entries, j, filename) && AddedFor(h, ca, before, list.certs)
      invariant WithNamers(list.certs, ca, entries, j, filename) ==
                WithNamers(WithClasses(before, ca, ca.files, filename), ca, entries, 0, filename)
    {
      forall level ensures Listed(ca, entries, j + 1, filename, level) <==>
                             Listed(ca, entries, j, filename, level) || EntryLists(entries[j], ca, filename, level)
      {
        ListedNext(ca, entries, j, filename, level);
      }
      if entries[j].caNickname == Some(ca.nickname) {
        h := TakeClasses(list, h, ca, entries[j].files, filename, before);
        if h.root && h.otherRoot && h.other {
          forall level ensures Listed(ca, entries, |entries|, filename, level) {
            assert Has(h, level);
            ListedLater(ca, entries, j + 1, |entries|, filename, level);
          }
          NothingIsLeft(h, ca, before, list.certs, entries, j + 1, filename);
          break;
        }
      }
      j := j + 1;
    }
    assert SaysListed(h, ca, entries, |entries|, filename);
  }

  // The part of the entries themselves.
  method AddForEntry(list: CertList, entry: EntryRecord, filename: string)
    requires NoPairTwice(list.certs)
    modifies list
    ensures NoPairTwice(list.certs) && old(list.certs) <= list.certs
    ensures forall k :: |old(list.certs)| <= k < |list.certs| ==> FromEntry(entry, filename, list.certs[k])
    ensures forall x :: FromEntry(entry, filename, x) ==> Holds(list.certs, x.pair)
    ensures list.certs == WithOwn(old(list.certs), entry, filename)
  {
    var listed := HasString(entry.files.root, filename);
    if listed {
      list.AddNickCerts(Root, entry.roots);
    }
    listed := HasString(entry.files.other, filename);
    ghost var was := list.certs;
    if listed {
      list.AddNickCerts(Other, entry.chain);
    }
    GrowingHolds(was, list.certs);
  }

  // Everything in the list is wanted, everything wanted is in it, and no pair is
  // in it twice: the flags and the early end of the search make no difference.
  method BuildFileSaveCerts(cas: seq<CaRecord>, entries: seq<EntryRecord>, filename: string) returns (ret: seq<SaveCert>)
    ensures NoPairTwice(ret)
    ensures forall k :: 0 <= k < |ret| ==> Wanted(cas, |cas|, entries, |entries|, filename, ret[k])
    ensures forall x :: Wanted(cas, |cas|, entries, |entries|, filename, x) ==> Holds(ret, x.pair)
    ensures ret == WithEntries(WithCas([], cas, 0, entries, filename), entries, 0, filename)
  {
    hide WithNamers, WithClasses, WithOwn, FromCa, FromEntry, Holds;
    var list := new CertList();
    for i := 0 to |cas|
      invariant WithCas(list.certs, cas, i, entries, filename) == WithCas([], cas, 0, entries, filename)
      invariant NoPairTwice(list.certs)
      invariant forall k :: 0 <= k < |list.certs| ==> Wanted(cas, i, entries, 0, filename, list.certs[k])
      invariant forall x :: Wanted(cas, i, entries, 0, filename, x) ==> Holds(list.certs, x.pair)
    {
      ghost var was := list.certs;
      AddForCa(list, cas[i], entries, filename);
      GrowingHolds(was, list.certs);
      WantedFromNextCa(cas, i, entries, filename);
    }
    for j := 0 to |entries|
      invariant WithEntries(list.certs, entries, j, filename) ==
                WithEntries(WithCas([], cas, 0, entries, filename), entries, 0, filename)
      invariant NoPairTwice(list.certs)
      invariant forall k :: 0 <= k < |list.certs| ==> Wanted(cas, |cas|, entries, j, filename, list.certs[k])
      invariant forall x :: Wanted(cas, |cas|, entries, j, filename, x) ==> Holds(list.certs, x.pair)
    {
      ghost var was := list.certs;
      AddForEntry(list, entries[j], filename);
      GrowingHolds(was, list.certs);
      WantedFromNextEntry(cas, entries, j, filename);
    }
    ret := list.certs;
  }

  lemma WantedFromNextCa(cas: seq<CaRecord>, i: nat, entries: seq<EntryRecord>, filename: string)
    requires i < |cas|
    ensures forall x :: Wanted(cas, i + 1, entries, 0, filename, x) <==>
                        Wanted(cas, i, entries, 0, filename, x) || FromCa(cas[i], entries, |entries|, filename, x)
  {
  }

  lemma WantedFromNextEntry(cas: seq<CaRecord>, entries: seq<EntryRecord>, j: nat, filename: string)
    requires j < |entries|
    ensures forall x :: Wanted(cas, |cas|, entries, j + 1, filename, x) <==>
                        Wanted(cas, |cas|, entries, j, filename, x) || FromEntry(entries[j], filename, x)
  {
  }

  // Two lists which meet the definition hold the same pairs, whatever order they
  // were built in.
  lemma DefinitionFixesPairs(cas: seq<CaRecord>, entries: seq<EntryRecord>, filename: string, a: seq<SaveCert>, b: seq<SaveCert>)
    requires forall k :: 0 <= k < |a| ==> Wanted(cas, |cas|, entries, |entries|, filename, a[k])
    requires forall x :: Wanted(cas, |cas|, entries, |entries|, filename, x) ==> Holds(a, x.pair)
    requires forall k :: 0 <= k < |b| ==> Wanted(cas, |cas|, entries, |entries|, filename, b[k])
    requires forall x :: Wanted(cas, |cas|, entries, |entries|, filename, x) ==> Holds(b, x.pair)
    requires NoPairTwice(a) && NoPairTwice(b)
    ensures forall pair :: Holds(a, pair) <==> Holds(b, pair)
  {
  }

  // The definition, written out.  A pair is wanted as a root if a CA has it among its roots
  // and the file is listed for roots by the CA or by an entry which names it, or if an entry
  // which lists the file for roots has it among its own.
  lemma WantedAsRoot(cas: seq<CaRecord>, entries: seq<EntryRecord>, filename: string, pair: NickCert)
    ensures Wanted(cas, |cas|, entries, |entries|, filename, SaveCert(Root, pair)) <==>
              || (exists i :: 0 <= i < |cas| && pair in cas[i].rootCerts &&
                    (filename in cas[i].files.root ||
                     exists k :: 0 <= k < |entries| && entries[k].caNickname == Some(cas[i].nickname) && filename in entries[k].files.root))
              || (exists k :: 0 <= k < |entries| && filename in entries[k].files.root && pair in entries[k].roots)
  {
    ListedMeans(cas, entries, filename);
    forall i | 0 <= i < |cas|
      ensures FromCa(cas[i], entries, |entries|, filename, SaveCert(Root, pair)) <==>
                pair in cas[i].rootCerts && Listed(cas[i], entries, |entries|, filename, Root)
    {
    }
  }

  // As another root only if a CA has it, and the file is listed for other roots.
  lemma WantedAsOtherRoot(cas: seq<CaRecord>, entries: seq<EntryRecord>, filename: string, pair: NickCert)
    ensures Wanted(cas, |cas|, entries, |entries|, filename, SaveCert(OtherRoot, pair)) <==>
              exists i :: 0 <= i < |cas| && pair in cas[i].otherRootCerts &&
                (filename in cas[i].files.otherRoot ||
                 exists k :: 0 <= k < |entries| && entries[k].caNickname == Some(cas[i].nickname) && filename in entries[k].files.otherRoot)
  {
    ListedMeans(cas, entries, filename);
    forall i | 0 <= i < |cas|
      ensures FromCa(cas[i], entries, |entries|, filename, SaveCert(OtherRoot, pair)) <==>
                pair in cas[i].otherRootCerts && Listed(cas[i], entries, |entries|, filename, OtherRoot)
    {
    }
  }

  // As another certificate if a CA has it as such, or if it is in the chain of an entry which
  // lists the file for other certificates.
  lemma WantedAsOther(cas: seq<CaRecord>, entries: seq<EntryRecord>, filename: string, pair: NickCert)
    ensures Wanted(cas, |cas|, entries, |entries|, filename, SaveCert(Other, pair)) <==>
              || (exists i :: 0 <= i < |cas| && pair in cas[i].otherCerts &&
                    (filename in cas[i].files.other ||
                     exists k :: 0 <= k < |entries| && entries[k].caNickname == Some(cas[i].nickname) && filename in entries[k].files.other))
              || (exists k :: 0 <= k < |entries| && filename in entries[k].files.other && pair in entries[k].chain)
  {
    ListedMeans(cas, entries, filename);
    forall i | 0 <= i < |cas|
      ensures FromCa(cas[i], entries, |entries|, filename, SaveCert(Other, pair)) <==>
                pair in cas[i].otherCerts && Listed(cas[i], entries, |entries|, filename, Other)
    {
    }
  }

  lemma ListedMeans(cas: seq<CaRecord>, entries: seq<EntryRecord>, filename: string)
    ensures forall i :: 0 <= i < |cas| ==>
              (Listed(cas[i], entries, |entries|, filename, Root) <==>
                 filename in cas[i].files.root ||
                 exists k :: 0 <= k < |entries| && entries[k].caNickname == Some(cas[i].nickname) && filename in entries[k].files.root)
    ensures forall i :: 0 <= i < |cas| ==>
              (Listed(cas[i], entries, |entries|, filename, OtherRoot) <==>
                 filename in cas[i].files.otherRoot ||
                 exists k :: 0 <= k < |entries| && entries[k].caNickname == Some(cas[i].nickname) && filename in entries[k].files.otherRoot)
    ensures forall i :: 0 <= i < |cas| ==>
              (Listed(cas[i], entries, |entries|, filename, Other) <==>
                 filename in cas[i].files.other ||
                 exists k :: 0 <= k < |entries| && entries[k].caNickname == Some(cas[i].nickname) && filename in entries[k].files.other)
  {
    forall i, level | 0 <= i < |cas|
      ensures Listed(cas[i], entries, |entries|, filename, level) <==>
                filename in FilesOf(cas[i].files, level) ||
                exists k :: 0 <= k < |entries| && entries[k].caNickname == Some(cas[i].nickname) && filename in FilesOf(entries[k].files, level)
    {
      OneIsListed(cas[i], entries, filename, level);
    }
  }

  lemma OneIsListed(ca: CaRecord, entries: seq<EntryRecord>, filename: string, level: Level)
    ensures Listed(ca, entries, |entries|, filename, level) <==>
              filename in FilesOf(ca.files, level) ||
              exists k :: 0 <= k < |entries| && entries[k].caNickname == Some(ca.nickname) && filename in FilesOf(entries[k].files, level)
  {
    if k :| 0 <= k < |entries| && entries[k].caNickname == Some(ca.nickname) && filename in FilesOf(entries[k].files, level) {
      assert EntryLists(entries[k], ca, filename, level);
    }
  }
}
