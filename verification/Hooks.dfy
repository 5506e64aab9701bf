/**
 Commands to run before and after certificates are saved: those of every CA and entry
 which stores certificates in one of the places at hand, collected in a linked list.
 */
module Hooks {
  import opened Wrappers
  import opened Decimals

  const UIDS := 0x1_0000_0000

  type Uid = n: nat | n < UIDS

  datatype Hook = Hook(command: string, uid: Uid)

  // A command and its user as they are set; both may be NULL.
  datatype Command = Command(command: Option<string>, uid: Option<string>)

  // The locations set for each class; NULL lists are empty.
  datatype Places = Places(root: seq<string>, otherRoot: seq<string>, other: seq<string>)

  // A CA or an entry.
  datatype Owner = Owner(preSave: Command, postSave: Command, files: Places, nssdbs: Places)

  datatype HookType = PreSave | PostSave | CaPreSave | CaPostSave

  function CommandOf(o: Owner, t: HookType): Command {
    if t == PreSave || t == CaPreSave then o.preSave else o.postSave
  }

  predicate IsSpace(c: char) {
    c == ' ' || 9 <= c as int <= 13
  }

  function SkipSpaces(s: string): string {
    if s != "" && IsSpace(s[0]) then SkipSpaces(s[1..]) else s
  }

  predicate AllDigits(s: string) {
    forall i :: 0 <= i < |s| ==> IsDigit(s[i])
  }

  // strtol() of the whole text, which must end where the number does.
  function ParseUid(text: string): Option<int> {
    var s := SkipSpaces(text);
    var digits := if s != "" && (s[0] == '-' || s[0] == '+') then s[1..] else s;
    if text == "" then Some(0)
    else if digits != "" && AllDigits(digits) then Some(Held(Signed(s)))
    else None
  }

  // The hook a command is kept as, if it can be: the user is cut to its width.
  function HookFor(c: Command): Option<Hook> {
    if c.command == None || c.uid == None || ParseUid(c.uid.value) == None then None
    else Some(Hook(c.command.value, ParseUid(c.uid.value).value % UIDS))
  }

  // The user of the command is kept as it is.
  predicate Ordinary(c: Command) {
    c.command.Some? && c.uid.Some? && ParseUid(c.uid.value).Some? ==> 0 <= ParseUid(c.uid.value).value < UIDS
  }

  predicate IsThere(list: seq<Hook>, command: string, uid: int) {
    exists k :: 0 <= k < |list| && list[k].uid == uid && list[k].command == command
  }

  // A list with a command which may be there already: what is looked for is the user
  // before it is cut.
  function Plus(list: seq<Hook>, c: Command): seq<Hook> {
    if HookFor(c) == None || IsThere(list, c.command.value, ParseUid(c.uid.value).value) then list
    else list + [HookFor(c).value]
  }

  predicate NoHookTwice(list: seq<Hook>) {
    forall i, k :: 0 <= i < k < |list| ==> list[i] != list[k]
  }

  // The linked list.

  class HookNode {
    const command: string
    const uid: Uid
    var next: HookNode?

    constructor (command: string, uid: Uid)
      ensures this.command == command && this.uid == uid && next == null
    {
      this.command, this.uid, next := command, uid, null;
    }
  }

  // The nodes of a list, one after another, and what they hold.
  ghost predicate Chain(head: HookNode?, nodes: seq<HookNode>, list: seq<Hook>)
    reads nodes
  {
    && |list| == |nodes| && head == (if nodes == [] then null else nodes[0])
    && (forall i {:trigger nodes[i].next} :: 0 <= i < |nodes| ==> nodes[i].next == if i + 1 < |nodes| then nodes[i + 1] else null)
    && (forall i :: 0 <= i < |nodes| ==> list[i] == Hook(nodes[i].command, nodes[i].uid))
    && (forall i, k :: 0 <= i < k < |nodes| ==> nodes[i] != nodes[k])
  }

  // A list to which commands are added one after another.
  function PlusAll(list: seq<Hook>, cs: seq<Command>): seq<Hook> {
    if cs == [] then list else Plus(PlusAll(list, cs[..|cs| - 1]), cs[|cs| - 1])
  }

  lemma {:induction false} PlusAllTwice(list: seq<Hook>, cs: seq<Command>, ds: seq<Command>)
    ensures PlusAll(list, cs + ds) == PlusAll(PlusAll(list, cs), ds)
    decreases |ds|
  {
    if ds == [] {
      assert cs + ds == cs;
    } else {
      PlusAllTwice(list, cs, ds[..|ds| - 1]);
      assert (cs + ds)[..|cs + ds| - 1] == cs + ds[..|ds| - 1];
    }
  }

  // The same command n times.
  function Repeat(c: Command, n: nat): (cs: seq<Command>)
    ensures |cs| == n && forall i :: 0 <= i < n ==> cs[i] == c
  {
    if n == 0 then [] else Repeat(c, n - 1) + [c]
  }

  // A list to which the same command was added n times.
  function Tried(list: seq<Hook>, c: Command, n: nat): seq<Hook> {
    PlusAll(list, Repeat(c, n))
  }

  lemma NotTried(list: seq<Hook>, c: Command)
    ensures Tried(list, c, 0) == list
  {
  }

  lemma OnceMore(list: seq<Hook>, c: Command, n: nat)
    ensures Tried(list, c, n + 1) == Plus(Tried(list, c, n), c)
  {
    hide Plus;
    assert Repeat(c, n + 1)[..n] == Repeat(c, n);
  }

  lemma {:induction false} UselessCommand(list: seq<Hook>, c: Command, n: nat)
    requires HookFor(c) == None
    ensures Tried(list, c, n) == list
  {
    hide Tried;
    if n == 0 {
      NotTried(list, c);
    } else {
      OnceMore(list, c, n - 1);
      UselessCommand(list, c, n - 1);
    }
  }

  // How often a location is in a list, and how many pairs two lists have in common.
  function Count(location: string, list: seq<string>): nat {
    if list == [] then 0
    else Count(location, list[..|list| - 1]) + if list[|list| - 1] == location then 1 else 0
  }

  function Pairs(list1: seq<string>, list2: seq<string>): nat {
    if list1 == [] then 0 else Pairs(list1[..|list1| - 1], list2) + Count(list1[|list1| - 1], list2)
  }

  lemma CountNext(location: string, list: seq<string>, j: nat)
    requires j < |list|
    ensures Count(location, list[..j + 1]) == Count(location, list[..j]) + if list[j] == location then 1 else 0
  {
    assert list[..j + 1][..j] == list[..j];
  }

  lemma PairsNext(list1: seq<string>, i: nat, list2: seq<string>)
    requires i < |list1|
    ensures Pairs(list1[..i + 1], list2) == Pairs(list1[..i], list2) + Count(list1[i], list2)
  {
    assert list1[..i + 1][..i] == list1[..i];
  }

  function PairsIn(list: seq<string>, places: Places): nat {
    Pairs(list, places.root) + Pairs(list, places.otherRoot) + Pairs(list, places.other)
  }

  // The commands added for one CA or entry, and for the first n of many.
  function CommandsFor(o: Owner, t: HookType, files: seq<string>, nssdbs: seq<string>): seq<Command> {
    Repeat(CommandOf(o, t), PairsIn(files, o.files) + PairsIn(nssdbs, o.nssdbs))
  }

  lemma CommandsAreTried(list: seq<Hook>, o: Owner, t: HookType, files: seq<string>, nssdbs: seq<string>)
    ensures PlusAll(list, CommandsFor(o, t, files, nssdbs)) ==
              Tried(list, CommandOf(o, t), PairsIn(files, o.files) + PairsIn(nssdbs, o.nssdbs))
  {
    hide PlusAll, Repeat, PairsIn;
  }

  function CommandsOf(owners: seq<Owner>, n: nat, t: HookType, files: seq<string>, nssdbs: seq<string>): seq<Command>
    requires n <= |owners|
  {
    if n == 0 then [] else CommandsOf(owners, n - 1, t, files, nssdbs) + CommandsFor(owners[n - 1], t, files, nssdbs)
  }

  // Those for one class of the places of an entry or a CA, which is the subject: its
  // files and databases are looked for with all CAs and then with all entries.
  function CommandsByClass(cas: seq<Owner>, entries: seq<Owner>, t: HookType, files: seq<string>, nssdbs: seq<string>): seq<Command> {
    CommandsOf(cas, |cas|, t, files, nssdbs) + CommandsOf(entries, |entries|, t, files, nssdbs)
  }

  function CommandsByPlaces(subject: Owner, cas: seq<Owner>, entries: seq<Owner>, t: HookType): seq<Command> {
    CommandsByClass(cas, entries, t, subject.files.root, subject.nssdbs.root)
    + CommandsByClass(cas, entries, t, subject.files.otherRoot, subject.nssdbs.otherRoot)
    + CommandsByClass(cas, entries, t, subject.files.other, subject.nssdbs.other)
  }

  predicate RunsOwn(t: HookType) {
    t == PreSave || t == PostSave
  }

  // All of them; an entry's own comes last.
  function AllCommands(subject: Owner, cas: seq<Owner>, entries: seq<Owner>, t: HookType): seq<Command> {
    CommandsByPlaces(subject, cas, entries, t) + if RunsOwn(t) then [CommandOf(subject, t)] else []
  }

  predicate Meet(list1: seq<string>, list2: seq<string>) {
    exists i :: 0 <= i < |list1| && list1[i] in list2
  }

  predicate StoresIn(list: seq<string>, places: Places) {
    Meet(list, places.root) || Meet(list, places.otherRoot) || Meet(list, places.other)
  }

  // An owner stores something in one of the places.
  predicate Stores(o: Owner, files: seq<string>, nssdbs: seq<string>) {
    StoresIn(files, o.files) || StoresIn(nssdbs, o.nssdbs)
  }

  class HookList {
    var head: HookNode?
    ghost var nodes: seq<HookNode>
    ghost var hooks: seq<Hook>
    ghost var repr: set<HookNode>

    constructor ()
      ensures Valid() && hooks == [] && repr == {}
    {
      head, nodes, hooks, repr := null, [], [], {};
    }

    ghost predicate Valid()
      reads this, repr
    {
      (forall i :: 0 <= i < |nodes| ==> nodes[i] in repr) && Chain(head, nodes, hooks)
    }

    // add_hook()
    method Add(c: Command)
      requires Valid()
      modifies this, repr
      ensures Valid() && fresh(repr - old(repr))
      ensures hooks == Plus(old(hooks), c)
    {
      if c.command == None || c.uid == None {
        return;
      }
      var l := ParseUid(c.uid.value);
      if l == None {
        return;
      }
      var cur, tail := head, head;
      ghost var k := 0;
      while cur != null
        invariant 0 <= k <= |nodes| && cur == (if k < |nodes| then nodes[k] else null)
        invariant tail == if k == 0 then head else nodes[k - 1]
        invariant forall j :: 0 <= j < k ==> !(hooks[j].uid == l.value && hooks[j].command == c.command.value)
        decreases |nodes| - k
      {
        if cur.uid == l.value && cur.command == c.command.value {
          assert IsThere(hooks, c.command.value, l.value);
          return;
        }
        tail := cur;
        cur := cur.next;
        k := k + 1;
      }
      var tmp := new HookNode(c.command.value, l.value % UIDS);
      if head == null {
        head := tmp;
      } else {
        tail.next := tmp;
      }
      nodes, hooks, repr := nodes + [tmp], hooks + [Hook(tmp.command, tmp.uid)], repr + {tmp};
    }

    // add_hook_if_match(), after the same hook was tried n times before.
    method AddIfMatch(c: Command, list1: seq<string>, list2: seq<string>, ghost before: seq<Hook>, ghost n: nat) returns (ghost m: nat)
      requires Valid() && hooks == Tried(before, c, n)
      modifies this, repr
      ensures Valid() && fresh(repr - old(repr))
      ensures m == n + Pairs(list1, list2) && hooks == Tried(before, c, m)
    {
      hide Tried, Count;
      m := n;
      for i := 0 to |list1|
        invariant Valid() && fresh(repr - old(repr))
        invariant m == n + Pairs(list1[..i], list2) && hooks == Tried(before, c, m)
      {
        PairsNext(list1, i, list2);
        m := AddEach(c, list1[i], list2, before, m);
      }
      assert list1[..|list1|] == list1;
    }

    method AddEach(c: Command, location: string, list2: seq<string>, ghost before: seq<Hook>, ghost n: nat) returns (ghost m: nat)
      requires Valid() && hooks == Tried(before, c, n)
      modifies this, repr
      ensures Valid() && fresh(repr - old(repr))
      ensures m == n + Count(location, list2) && hooks == Tried(before, c, m)
    {
      hide Tried, Plus;
      m := n;
      for j := 0 to |list2|
        invariant Valid() && fresh(repr - old(repr))
        invariant m == n + Count(location, list2[..j]) && hooks == Tried(before, c, m)
      {
        CountNext(location, list2, j);
        if location == list2[j] {
          Add(c);
          OnceMore(before, c, m);
          m := m + 1;
        }
      }
      assert list2[..|list2|] == list2;
    }

    method AddIfStored(c: Command, list: seq<string>, places: Places, ghost before: seq<Hook>, ghost n: nat) returns (ghost m: nat)
      requires Valid() && hooks == Tried(before, c, n)
      modifies this, repr
      ensures Valid() && fresh(repr - old(repr))
      ensures m == n + PairsIn(list, places) && hooks == Tried(before, c, m)
    {
      hide Tried, Pairs;
      m := AddIfMatch(c, list, places.root, before, n);
      m := AddIfMatch(c, list, places.otherRoot, before, m);
      m := AddIfMatch(c, list, places.other, before, m);
    }

    // The part of one CA or entry.
    method AddFor(o: Owner, t: HookType, files: seq<string>, nssdbs: seq<string>)
      requires Valid()
      modifies this, repr
      ensures Valid() && fresh(repr - old(repr))
      ensures hooks == PlusAll(old(hooks), CommandsFor(o, t, files, nssdbs))
    {
      hide PlusAll, Tried, CommandsFor, CommandOf, PairsIn;
      var c := CommandOf(o, t);
      CommandsAreTried(hooks, o, t, files, nssdbs);
      if c.command == None || c.uid == None {
        UselessCommand(hooks, c, PairsIn(files, o.files) + PairsIn(nssdbs, o.nssdbs));
        return;
      }
      ghost var before := hooks;
      NotTried(before, c);
      ghost var m := AddIfStored(c, files, o.files, before, 0);
      m := AddIfStored(c, nssdbs, o.nssdbs, before, m);
    }

    method AddForAll(owners: seq<Owner>, t: HookType, files: seq<string>, nssdbs: seq<string>)
      requires Valid()
      modifies this, repr
      ensures Valid() && fresh(repr - old(repr))
      ensures hooks == PlusAll(old(hooks), CommandsOf(owners, |owners|, t, files, nssdbs))
    {
      hide CommandsFor, Plus;
      ghost var before := hooks;
      for i := 0 to |owners|
        invariant Valid() && fresh(repr - old(repr))
        invariant hooks == PlusAll(before, CommandsOf(owners, i, t, files, nssdbs))
      {
        AddFor(owners[i], t, files, nssdbs);
        PlusAllTwice(before, CommandsOf(owners, i, t, files, nssdbs), CommandsFor(owners[i], t, files, nssdbs));
      }
    }

    // collect_hooks()
    method Collect(t: HookType, cas: seq<Owner>, entries: seq<Owner>, files: seq<string>, nssdbs: seq<string>)
      requires Valid()
      modifies this, repr
      ensures Valid() && fresh(repr - old(repr))
      ensures hooks == PlusAll(old(hooks), CommandsByClass(cas, entries, t, files, nssdbs))
      ensures forall h :: h in hooks <==>
                h in old(hooks) || if t == PreSave || t == CaPreSave then StorersPreSave(cas, entries, files, nssdbs, h)
                                   else StorersPostSave(cas, entries, files, nssdbs, h)
    {
      hide CommandsOf, PlusAll;
      AddForAll(cas, t, files, nssdbs);
      AddForAll(entries, t, files, nssdbs);
      PlusAllTwice(old(hooks), CommandsOf(cas, |cas|, t, files, nssdbs), CommandsOf(entries, |entries|, t, files, nssdbs));
      CollectedMeansStoring(old(hooks), cas, entries, t, files, nssdbs);
    }

    method CollectAll(t: HookType, subject: Owner, cas: seq<Owner>, entries: seq<Owner>)
      requires Valid()
      modifies this, repr
      ensures Valid() && fresh(repr - old(repr))
      ensures hooks == PlusAll(old(hooks), CommandsByPlaces(subject, cas, entries, t))
    {
      hide CommandsByClass, PlusAll;
      ghost var c1 := CommandsByClass(cas, entries, t, subject.files.root, subject.nssdbs.root);
      ghost var c2 := CommandsByClass(cas, entries, t, subject.files.otherRoot, subject.nssdbs.otherRoot);
      ghost var c3 := CommandsByClass(cas, entries, t, subject.files.other, subject.nssdbs.other);
      Collect(t, cas, entries, subject.files.root, subject.nssdbs.root);
      Collect(t, cas, entries, subject.files.otherRoot, subject.nssdbs.otherRoot);
      PlusAllTwice(old(hooks), c1, c2);
      Collect(t, cas, entries, subject.files.other, subject.nssdbs.other);
      PlusAllTwice(old(hooks), c1 + c2, c3);
    }
  }

  // The list cm_hook_start_presave() and its kind make.
  method HooksToRun(t: HookType, subject: Owner, cas: seq<Owner>, entries: seq<Owner>) returns (list: HookList)
    ensures fresh(list) && list.Valid() && fresh(list.repr)
    ensures list.hooks == PlusAll([], AllCommands(subject, cas, entries, t))
    ensures forall h :: h in list.hooks <==>
              match t
              case PreSave => SharersPreSave(subject, cas, entries, h) || HookFor(subject.preSave) == Some(h)
              case PostSave => SharersPostSave(subject, cas, entries, h) || HookFor(subject.postSave) == Some(h)
              case CaPreSave => SharersPreSave(subject, cas, entries, h)
              case CaPostSave => SharersPostSave(subject, cas, entries, h)
  {
    hide PlusAll, CommandsByPlaces, SharersPreSave, SharersPostSave, HookFor;
    list := new HookList();
    list.CollectAll(t, subject, cas, entries);
    ghost var cs := CommandsByPlaces(subject, cas, entries, t);
    if RunsOwn(t) {
      list.Add(CommandOf(subject, t));
      OneMoreIsAdded([], cs, CommandOf(subject, t));
    } else {
      assert cs + [] == cs;
    }
    forall h
      ensures h in list.hooks <==>
                match t
                case PreSave => SharersPreSave(subject, cas, entries, h) || HookFor(subject.preSave) == Some(h)
                case PostSave => SharersPostSave(subject, cas, entries, h) || HookFor(subject.postSave) == Some(h)
                case CaPreSave => SharersPreSave(subject, cas, entries, h)
                case CaPostSave => SharersPostSave(subject, cas, entries, h)
    {
      ListedByKind(subject, cas, entries, t, h);
    }
  }

  lemma OneMoreIsAdded(list: seq<Hook>, cs: seq<Command>, c: Command)
    ensures PlusAll(list, cs + [c]) == Plus(PlusAll(list, cs), c)
  {
    hide Plus;
    assert (cs + [c])[..|cs|] == cs;
  }

  // What the list holds.

  predicate Makes(cs: seq<Command>, h: Hook) {
    exists i :: 0 <= i < |cs| && HookFor(cs[i]) == Some(h)
  }

  // A hook is in the list exactly if it was before, or some command makes it.
  lemma {:induction false} AddedMeansMade(list: seq<Hook>, cs: seq<Command>, h: Hook)
    ensures h in PlusAll(list, cs) <==> h in list || Makes(cs, h)
    decreases |cs|
  {
    if cs != [] {
      var before, c := cs[..|cs| - 1], cs[|cs| - 1];
      AddedMeansMade(list, before, h);
      HeldByPlus(PlusAll(list, before), c, h);
      MadeByMore(before, c, cs, h);
    }
  }

  lemma HeldMeansMade(cs: seq<Command>, h: Hook)
    ensures h in PlusAll([], cs) <==> Makes(cs, h)
  {
    AddedMeansMade([], cs, h);
  }

  lemma HeldByPlus(list: seq<Hook>, c: Command, h: Hook)
    ensures h in Plus(list, c) <==> h in list || HookFor(c) == Some(h)
  {
    if HookFor(c).Some? {
      var l := ParseUid(c.uid.value).value;
      if IsThere(list, c.command.value, l) {
        var k :| 0 <= k < |list| && list[k].uid == l && list[k].command == c.command.value;
        assert list[k] == HookFor(c).value;
      }
    }
  }

  lemma MadeByMore(before: seq<Command>, c: Command, cs: seq<Command>, h: Hook)
    requires cs != [] && before == cs[..|cs| - 1] && c == cs[|cs| - 1]
    ensures Makes(cs, h) <==> Makes(before, h) || HookFor(c) == Some(h)
  {
    if Makes(before, h) {
      var i :| 0 <= i < |before| && HookFor(before[i]) == Some(h);
      assert cs[i] == before[i];
    }
    if Makes(cs, h) {
      var i :| 0 <= i < |cs| && HookFor(cs[i]) == Some(h);
      assert i < |before| ==> before[i] == cs[i];
    }
  }

  // A command whose user is cut, after another which makes the same hook.
  predicate CutAgain(cs: seq<Command>, k: nat) {
    k < |cs| && HookFor(cs[k]).Some? && !Ordinary(cs[k]) && Makes(cs[..k], HookFor(cs[k]).value)
  }

  predicate NeverCutAgain(cs: seq<Command>) {
    forall k :: 0 <= k < |cs| ==> !CutAgain(cs, k)
  }

  // No hook is in the list twice exactly if that never happens.
  lemma {:induction false} NoneTwiceMeans(cs: seq<Command>)
    ensures NoHookTwice(PlusAll([], cs)) <==> NeverCutAgain(cs)
  {
    if cs != [] {
      var before, last := cs[..|cs| - 1], |cs| - 1;
      NoneTwiceMeans(before);
      forall k | 0 <= k < last ensures CutAgain(cs, k) <==> CutAgain(before, k) {
        assert before[..k] == cs[..k] && before[k] == cs[k];
      }
      var list := PlusAll([], before);
      assert NoHookTwice(PlusAll([], cs)) <==> NoHookTwice(list) && !CutAgain(cs, last) by {
        TwiceByPlus(list, cs[last]);
        if HookFor(cs[last]).Some? {
          HeldMeansMade(before, HookFor(cs[last]).value);
        }
      }
    }
  }

  lemma TwiceByPlus(list: seq<Hook>, c: Command)
    ensures NoHookTwice(Plus(list, c)) <==>
              NoHookTwice(list) && (HookFor(c).Some? && !Ordinary(c) ==> HookFor(c).value !in list)
  {
    var more := Plus(list, c);
    if HookFor(c).Some? && !IsThere(list, c.command.value, ParseUid(c.uid.value).value) {
      assert more == list + [HookFor(c).value];
      if NoHookTwice(more) {
        assert forall i :: 0 <= i < |list| ==> list[i] == more[i] && more[i] != more[|list|];
      }
      if Ordinary(c) {
        assert HookFor(c).value !in list;
      }
    }
  }

  // What is added, without the classes.

  predicate InPlaces(location: string, places: Places) {
    location in places.root || location in places.otherRoot || location in places.other
  }

  // The owner and the subject store something in the same file or database.
  ghost predicate SharePlace(o: Owner, subject: Owner) {
    || (exists file :: InPlaces(file, o.files) && InPlaces(file, subject.files))
    || (exists nssdb :: InPlaces(nssdb, o.nssdbs) && InPlaces(nssdb, subject.nssdbs))
  }

  lemma {:induction false} CountMeans(location: string, list: seq<string>)
    ensures Count(location, list) > 0 <==> location in list
  {
    if list != [] {
      CountMeans(location, list[..|list| - 1]);
      assert list == list[..|list| - 1] + [list[|list| - 1]];
    }
  }

  lemma {:induction false} PairsMean(list1: seq<string>, list2: seq<string>)
    ensures Pairs(list1, list2) > 0 <==> Meet(list1, list2)
  {
    if list1 != [] {
      var n := |list1| - 1;
      PairsMean(list1[..n], list2);
      CountMeans(list1[n], list2);
      MeetNext(list1, n, list2);
      assert list1[..n + 1] == list1;
    }
  }

  lemma MeetNext(list1: seq<string>, i: nat, list2: seq<string>)
    requires i < |list1|
    ensures Meet(list1[..i + 1], list2) <==> Meet(list1[..i], list2) || list1[i] in list2
  {
    assert list1[..i + 1] == list1[..i] + [list1[i]];
    if Meet(list1[..i], list2) {
      var k :| 0 <= k < i && list1[..i][k] in list2;
      assert list1[..i + 1][k] in list2;
    }
    assert list1[..i + 1][i] == list1[i];
  }

  lemma MadeForOne(o: Owner, t: HookType, files: seq<string>, nssdbs: seq<string>, h: Hook)
    ensures Makes(CommandsFor(o, t, files, nssdbs), h) <==> Stores(o, files, nssdbs) && HookFor(CommandOf(o, t)) == Some(h)
  {
    PairsMean(files, o.files.root);
    PairsMean(files, o.files.otherRoot);
    PairsMean(files, o.files.other);
    PairsMean(nssdbs, o.nssdbs.root);
    PairsMean(nssdbs, o.nssdbs.otherRoot);
    PairsMean(nssdbs, o.nssdbs.other);
    var cs := CommandsFor(o, t, files, nssdbs);
    assert |cs| > 0 ==> cs[0] == CommandOf(o, t);
  }

  lemma MadeByBoth(a: seq<Command>, b: seq<Command>, h: Hook)
    ensures Makes(a + b, h) <==> Makes(a, h) || Makes(b, h)
  {
    if Makes(a, h) {
      var i :| 0 <= i < |a| && HookFor(a[i]) == Some(h);
      assert (a + b)[i] == a[i];
    }
    if Makes(b, h) {
      var i :| 0 <= i < |b| && HookFor(b[i]) == Some(h);
      assert (a + b)[|a| + i] == b[i];
    }
  }

  ghost predicate SomeoneStoring(owners: seq<Owner>, n: nat, t: HookType, files: seq<string>, nssdbs: seq<string>, h: Hook)
    requires n <= |owners|
  {
    exists i :: 0 <= i < n && Stores(owners[i], files, nssdbs) && HookFor(CommandOf(owners[i], t)) == Some(h)
  }

  lemma {:induction false} MadeForMany(owners: seq<Owner>, n: nat, t: HookType, files: seq<string>, nssdbs: seq<string>, h: Hook)
    requires n <= |owners|
    ensures Makes(CommandsOf(owners, n, t, files, nssdbs), h) <==> SomeoneStoring(owners, n, t, files, nssdbs, h)
  {
    if n > 0 {
      MadeForMany(owners, n - 1, t, files, nssdbs, h);
      MadeForOne(owners[n - 1], t, files, nssdbs, h);
      MadeByBoth(CommandsOf(owners, n - 1, t, files, nssdbs), CommandsFor(owners[n - 1], t, files, nssdbs), h);
    }
  }

  lemma SharingIsByClass(o: Owner, subject: Owner)
    ensures SharePlace(o, subject) <==>
            || Stores(o, subject.files.root, subject.nssdbs.root)
            || Stores(o, subject.files.otherRoot, subject.nssdbs.otherRoot)
            || Stores(o, subject.files.other, subject.nssdbs.other)
  {
    MeetingMeans(subject.files, o.files);
    MeetingMeans(subject.nssdbs, o.nssdbs);
  }

  lemma MeetingMeans(a: Places, b: Places)
    ensures (exists location :: InPlaces(location, b) && InPlaces(location, a)) <==>
            StoresIn(a.root, b) || StoresIn(a.otherRoot, b) || StoresIn(a.other, b)
  {
    if location :| InPlaces(location, b) && InPlaces(location, a) {
      OneMeets(location, a.root, b);
      OneMeets(location, a.otherRoot, b);
      OneMeets(location, a.other, b);
    }
    MetMeans(a.root, a, b);
    MetMeans(a.otherRoot, a, b);
    MetMeans(a.other, a, b);
  }

  lemma OneMeets(location: string, list: seq<string>, b: Places)
    requires InPlaces(location, b)
    ensures location in list ==> StoresIn(list, b)
  {
    if location in list {
      var i :| 0 <= i < |list| && list[i] == location;
    }
  }

  lemma MetMeans(list: seq<string>, a: Places, b: Places)
    requires forall location :: location in list ==> InPlaces(location, a)
    ensures StoresIn(list, b) ==> exists location :: InPlaces(location, b) && InPlaces(location, a)
  {
    if Meet(list, b.root) {
      var i :| 0 <= i < |list| && list[i] in b.root;
      assert InPlaces(list[i], b);
    }
    if Meet(list, b.otherRoot) {
      var i :| 0 <= i < |list| && list[i] in b.otherRoot;
      assert InPlaces(list[i], b);
    }
    if Meet(list, b.other) {
      var i :| 0 <= i < |list| && list[i] in b.other;
      assert InPlaces(list[i], b);
    }
  }

  ghost predicate SomeoneSharing(owners: seq<Owner>, subject: Owner, t: HookType, h: Hook) {
    exists i :: 0 <= i < |owners| && SharePlace(owners[i], subject) && HookFor(CommandOf(owners[i], t)) == Some(h)
  }

  lemma MadeByClass(cas: seq<Owner>, entries: seq<Owner>, t: HookType, files: seq<string>, nssdbs: seq<string>, h: Hook)
    ensures Makes(CommandsByClass(cas, entries, t, files, nssdbs), h) <==>
            SomeoneStoring(cas, |cas|, t, files, nssdbs, h) || SomeoneStoring(entries, |entries|, t, files, nssdbs, h)
  {
    MadeForMany(cas, |cas|, t, files, nssdbs, h);
    MadeForMany(entries, |entries|, t, files, nssdbs, h);
    MadeByBoth(CommandsOf(cas, |cas|, t, files, nssdbs), CommandsOf(entries, |entries|, t, files, nssdbs), h);
  }

  lemma SharedOf(owners: seq<Owner>, subject: Owner, t: HookType, h: Hook)
    ensures SomeoneSharing(owners, subject, t, h) <==>
            || SomeoneStoring(owners, |owners|, t, subject.files.root, subject.nssdbs.root, h)
            || SomeoneStoring(owners, |owners|, t, subject.files.otherRoot, subject.nssdbs.otherRoot, h)
            || SomeoneStoring(owners, |owners|, t, subject.files.other, subject.nssdbs.other, h)
  {
    forall i | 0 <= i < |owners| ensures SharePlace(owners[i], subject) <==>
            || Stores(owners[i], subject.files.root, subject.nssdbs.root)
            || Stores(owners[i], subject.files.otherRoot, subject.nssdbs.otherRoot)
            || Stores(owners[i], subject.files.other, subject.nssdbs.other)
    {
      SharingIsByClass(owners[i], subject);
    }
  }

  // A hook is in the list exactly if it is that of a CA or an entry which shares a file
  // or a database with the subject, or the entry's own.
  lemma ListedMeansShared(subject: Owner, cas: seq<Owner>, entries: seq<Owner>, t: HookType, h: Hook)
    ensures h in PlusAll([], AllCommands(subject, cas, entries, t)) <==>
            || SomeoneSharing(cas, subject, t, h) || SomeoneSharing(entries, subject, t, h)
            || (RunsOwn(t) && HookFor(CommandOf(subject, t)) == Some(h))
  {
    var c1 := CommandsByClass(cas, entries, t, subject.files.root, subject.nssdbs.root);
    var c2 := CommandsByClass(cas, entries, t, subject.files.otherRoot, subject.nssdbs.otherRoot);
    var c3 := CommandsByClass(cas, entries, t, subject.files.other, subject.nssdbs.other);
    var own := if RunsOwn(t) then [CommandOf(subject, t)] else [];
    HeldMeansMade(AllCommands(subject, cas, entries, t), h);
    MadeByBoth(c1 + c2 + c3, own, h);
    MadeByBoth(c1 + c2, c3, h);
    MadeByBoth(c1, c2, h);
    MadeByClass(cas, entries, t, subject.files.root, subject.nssdbs.root, h);
    MadeByClass(cas, entries, t, subject.files.otherRoot, subject.nssdbs.otherRoot, h);
    MadeByClass(cas, entries, t, subject.files.other, subject.nssdbs.other, h);
    SharedOf(cas, subject, t, h);
    SharedOf(entries, subject, t, h);
    assert RunsOwn(t) ==> own[0] == CommandOf(subject, t);
  }

  // The same for each kind of hook, with the commands written out.

  // Some CA or entry which shares a place with the subject has the hook as its
  // command to run before saving, or after.
  ghost predicate SharersPreSave(subject: Owner, cas: seq<Owner>, entries: seq<Owner>, h: Hook) {
    exists o :: (o in cas || o in entries) && SharePlace(o, subject) && HookFor(o.preSave) == Some(h)
  }

  ghost predicate SharersPostSave(subject: Owner, cas: seq<Owner>, entries: seq<Owner>, h: Hook) {
    exists o :: (o in cas || o in entries) && SharePlace(o, subject) && HookFor(o.postSave) == Some(h)
  }

  lemma SharersMean(subject: Owner, cas: seq<Owner>, entries: seq<Owner>, t: HookType, h: Hook)
    ensures SomeoneSharing(cas, subject, t, h) || SomeoneSharing(entries, subject, t, h) <==>
            if t == PreSave || t == CaPreSave then SharersPreSave(subject, cas, entries, h)
            else SharersPostSave(subject, cas, entries, h)
  {
    hide SharePlace, HookFor;
    if SomeoneSharing(cas, subject, t, h) {
      var i :| 0 <= i < |cas| && SharePlace(cas[i], subject) && HookFor(CommandOf(cas[i], t)) == Some(h);
      assert cas[i] in cas;
    }
    if SomeoneSharing(entries, subject, t, h) {
      var i :| 0 <= i < |entries| && SharePlace(entries[i], subject) && HookFor(CommandOf(entries[i], t)) == Some(h);
      assert entries[i] in entries;
    }
    if o :| (o in cas || o in entries) && SharePlace(o, subject) && HookFor(CommandOf(o, t)) == Some(h) {
      if o in cas {
        var i :| 0 <= i < |cas| && cas[i] == o;
      } else {
        var i :| 0 <= i < |entries| && entries[i] == o;
      }
    }
  }

  lemma ListedByKind(subject: Owner, cas: seq<Owner>, entries: seq<Owner>, t: HookType, h: Hook)
    ensures h in PlusAll([], AllCommands(subject, cas, entries, t)) <==>
              match t
              case PreSave => SharersPreSave(subject, cas, entries, h) || HookFor(subject.preSave) == Some(h)
              case PostSave => SharersPostSave(subject, cas, entries, h) || HookFor(subject.postSave) == Some(h)
              case CaPreSave => SharersPreSave(subject, cas, entries, h)
              case CaPostSave => SharersPostSave(subject, cas, entries, h)
  {
    hide PlusAll, AllCommands, SomeoneSharing, SharersPreSave, SharersPostSave, HookFor;
    ListedMeansShared(subject, cas, entries, t, h);
    SharersMean(subject, cas, entries, t, h);
  }

  // The same for one class of places.
  ghost predicate StorersPreSave(cas: seq<Owner>, entries: seq<Owner>, files: seq<string>, nssdbs: seq<string>, h: Hook) {
    exists o :: (o in cas || o in entries) && Stores(o, files, nssdbs) && HookFor(o.preSave) == Some(h)
  }

  ghost predicate StorersPostSave(cas: seq<Owner>, entries: seq<Owner>, files: seq<string>, nssdbs: seq<string>, h: Hook) {
    exists o :: (o in cas || o in entries) && Stores(o, files, nssdbs) && HookFor(o.postSave) == Some(h)
  }

  lemma StorersMean(cas: seq<Owner>, entries: seq<Owner>, t: HookType, files: seq<string>, nssdbs: seq<string>, h: Hook)
    ensures SomeoneStoring(cas, |cas|, t, files, nssdbs, h) || SomeoneStoring(entries, |entries|, t, files, nssdbs, h) <==>
            if t == PreSave || t == CaPreSave then StorersPreSave(cas, entries, files, nssdbs, h)
            else StorersPostSave(cas, entries, files, nssdbs, h)
  {
    hide Stores, HookFor;
    if SomeoneStoring(cas, |cas|, t, files, nssdbs, h) {
      var i :| 0 <= i < |cas| && Stores(cas[i], files, nssdbs) && HookFor(CommandOf(cas[i], t)) == Some(h);
      assert cas[i] in cas;
    }
    if SomeoneStoring(entries, |entries|, t, files, nssdbs, h) {
      var i :| 0 <= i < |entries| && Stores(entries[i], files, nssdbs) && HookFor(CommandOf(entries[i], t)) == Some(h);
      assert entries[i] in entries;
    }
    if o :| (o in cas || o in entries) && Stores(o, files, nssdbs) && HookFor(CommandOf(o, t)) == Some(h) {
      if o in cas {
        var i :| 0 <= i < |cas| && cas[i] == o;
      } else {
        var i :| 0 <= i < |entries| && entries[i] == o;
      }
    }
  }

  lemma CollectedMeansStoring(list: seq<Hook>, cas: seq<Owner>, entries: seq<Owner>, t: HookType, files: seq<string>, nssdbs: seq<string>)
    ensures forall h :: h in PlusAll(list, CommandsByClass(cas, entries, t, files, nssdbs)) <==>
              h in list || if t == PreSave || t == CaPreSave then StorersPreSave(cas, entries, files, nssdbs, h)
                           else StorersPostSave(cas, entries, files, nssdbs, h)
  {
    hide PlusAll, CommandsByClass, SomeoneStoring, StorersPreSave, StorersPostSave, Makes;
    forall h
      ensures h in PlusAll(list, CommandsByClass(cas, entries, t, files, nssdbs)) <==>
                h in list || if t == PreSave || t == CaPreSave then StorersPreSave(cas, entries, files, nssdbs, h)
                             else StorersPostSave(cas, entries, files, nssdbs, h)
    {
      AddedMeansMade(list, CommandsByClass(cas, entries, t, files, nssdbs), h);
      MadeByClass(cas, entries, t, files, nssdbs, h);
      StorersMean(cas, entries, t, files, nssdbs, h);
    }
  }

  // The order of the list.

  predicate IsPrefix(a: seq<Hook>, b: seq<Hook>) {
    |a| <= |b| && b[..|a|] == a
  }

  lemma {:induction false} MoreComeAfter(list: seq<Hook>, cs: seq<Command>)
    ensures IsPrefix(list, PlusAll(list, cs))
    decreases |cs|
  {
    if cs != [] {
      MoreComeAfter(list, cs[..|cs| - 1]);
    }
  }

  lemma EarlierComeFirst(a: seq<Command>, b: seq<Command>)
    ensures IsPrefix(PlusAll([], a), PlusAll([], a + b))
  {
    PlusAllTwice([], a, b);
    MoreComeAfter(PlusAll([], a), b);
  }

  // A CA or an entry which stores something in one of the files or databases has the
  // hook.
  ghost predicate HookOfStoring(cas: seq<Owner>, entries: seq<Owner>, t: HookType, files: seq<string>, nssdbs: seq<string>, h: Hook) {
    SomeoneStoring(cas, |cas|, t, files, nssdbs, h) || SomeoneStoring(entries, |entries|, t, files, nssdbs, h)
  }

  // The list falls into parts: the hooks found at the places of the subject's CA's
  // roots, CAs before entries; those only found at the places of other roots; those
  // only found at the places of other certificates; and then the entry's own.
  lemma ListedInOrder(subject: Owner, cas: seq<Owner>, entries: seq<Owner>, t: HookType) returns (k0: nat, k1: nat, k2: nat, k3: nat)
    ensures var list := PlusAll([], AllCommands(subject, cas, entries, t));
            && k0 <= k1 <= k2 <= k3 <= |list| && (t == CaPreSave || t == CaPostSave ==> k3 == |list|)
            && forall h ::
                 && (h in list[..k0] <==> SomeoneStoring(cas, |cas|, t, subject.files.root, subject.nssdbs.root, h))
                 && (h in list[..k1] <==> HookOfStoring(cas, entries, t, subject.files.root, subject.nssdbs.root, h))
                 && (h in list[..k2] <==>
                       || HookOfStoring(cas, entries, t, subject.files.root, subject.nssdbs.root, h)
                       || HookOfStoring(cas, entries, t, subject.files.otherRoot, subject.nssdbs.otherRoot, h))
                 && (h in list[..k3] <==> SomeoneSharing(cas, subject, t, h) || SomeoneSharing(entries, subject, t, h))
  {
    hide HookFor, SharePlace, Stores, CommandsByClass, Plus, PlusAll, CommandsOf;
    var c0 := CommandsOf(cas, |cas|, t, subject.files.root, subject.nssdbs.root);
    var c1 := CommandsByClass(cas, entries, t, subject.files.root, subject.nssdbs.root);
    var c2 := CommandsByClass(cas, entries, t, subject.files.otherRoot, subject.nssdbs.otherRoot);
    var c3 := CommandsByClass(cas, entries, t, subject.files.other, subject.nssdbs.other);
    var all := AllCommands(subject, cas, entries, t);
    var own := if RunsOwn(t) then [CommandOf(subject, t)] else [];
    var e0 := CommandsOf(entries, |entries|, t, subject.files.root, subject.nssdbs.root);
    CasComeFirst(cas, entries, t, subject.files.root, subject.nssdbs.root);
    k0, k1 := |PlusAll([], c0)|, |PlusAll([], c1)|;
    k2, k3 := |PlusAll([], c1 + c2)|, |PlusAll([], c1 + c2 + c3)|;
    assert all == c1 + c2 + c3 + own;
    EarlierComeFirst(c0, e0);
    EarlierComeFirst(c1, c2);
    EarlierComeFirst(c1 + c2, c3);
    EarlierComeFirst(c1 + c2 + c3, own);
    assert own == [] ==> c1 + c2 + c3 + own == c1 + c2 + c3;
    forall h
      ensures h in PlusAll([], c0) <==> SomeoneStoring(cas, |cas|, t, subject.files.root, subject.nssdbs.root, h)
      ensures h in PlusAll([], c1) <==> HookOfStoring(cas, entries, t, subject.files.root, subject.nssdbs.root, h)
      ensures h in PlusAll([], c1 + c2) <==>
                || HookOfStoring(cas, entries, t, subject.files.root, subject.nssdbs.root, h)
                || HookOfStoring(cas, entries, t, subject.files.otherRoot, subject.nssdbs.otherRoot, h)
      ensures h in PlusAll([], c1 + c2 + c3) <==> SomeoneSharing(cas, subject, t, h) || SomeoneSharing(entries, subject, t, h)
    {
      PartsHold(subject, cas, entries, t, h);
    }
    Cut(PlusAll([], all), PlusAll([], c1 + c2 + c3), PlusAll([], c1 + c2), PlusAll([], c1), PlusAll([], c0));
  }

  lemma CasComeFirst(cas: seq<Owner>, entries: seq<Owner>, t: HookType, files: seq<string>, nssdbs: seq<string>)
    ensures CommandsByClass(cas, entries, t, files, nssdbs) ==
              CommandsOf(cas, |cas|, t, files, nssdbs) + CommandsOf(entries, |entries|, t, files, nssdbs)
  {
  }

  lemma Cut(l4: seq<Hook>, l3: seq<Hook>, l2: seq<Hook>, l1: seq<Hook>, l0: seq<Hook>)
    requires IsPrefix(l3, l4) && IsPrefix(l2, l3) && IsPrefix(l1, l2) && IsPrefix(l0, l1)
    ensures l4[..|l3|] == l3 && l4[..|l2|] == l2 && l4[..|l1|] == l1 && l4[..|l0|] == l0
  {
    assert l4[..|l2|] == l4[..|l3|][..|l2|];
    assert l4[..|l1|] == l4[..|l2|][..|l1|];
    assert l4[..|l0|] == l4[..|l1|][..|l0|];
  }

  lemma PartsHold(subject: Owner, cas: seq<Owner>, entries: seq<Owner>, t: HookType, h: Hook)
    ensures var c0 := CommandsOf(cas, |cas|, t, subject.files.root, subject.nssdbs.root);
            var c1 := CommandsByClass(cas, entries, t, subject.files.root, subject.nssdbs.root);
            var c2 := CommandsByClass(cas, entries, t, subject.files.otherRoot, subject.nssdbs.otherRoot);
            var c3 := CommandsByClass(cas, entries, t, subject.files.other, subject.nssdbs.other);
            && (h in PlusAll([], c0) <==> SomeoneStoring(cas, |cas|, t, subject.files.root, subject.nssdbs.root, h))
            && (h in PlusAll([], c1) <==> HookOfStoring(cas, entries, t, subject.files.root, subject.nssdbs.root, h))
            && (h in PlusAll([], c1 + c2) <==>
                  || HookOfStoring(cas, entries, t, subject.files.root, subject.nssdbs.root, h)
                  || HookOfStoring(cas, entries, t, subject.files.otherRoot, subject.nssdbs.otherRoot, h))
            && (h in PlusAll([], c1 + c2 + c3) <==> SomeoneSharing(cas, subject, t, h) || SomeoneSharing(entries, subject, t, h))
  {
    hide PlusAll, CommandsOf, CommandsByClass, SomeoneStoring, SomeoneSharing, Makes;
    var c0 := CommandsOf(cas, |cas|, t, subject.files.root, subject.nssdbs.root);
    var c1 := CommandsByClass(cas, entries, t, subject.files.root, subject.nssdbs.root);
    var c2 := CommandsByClass(cas, entries, t, subject.files.otherRoot, subject.nssdbs.otherRoot);
    var c3 := CommandsByClass(cas, entries, t, subject.files.other, subject.nssdbs.other);
    HeldMeansMade(c0, h);
    HeldMeansMade(c1, h);
    HeldMeansMade(c1 + c2, h);
    HeldMeansMade(c1 + c2 + c3, h);
    MadeForMany(cas, |cas|, t, subject.files.root, subject.nssdbs.root, h);
    MadeByClass(cas, entries, t, subject.files.root, subject.nssdbs.root, h);
    MadeByClass(cas, entries, t, subject.files.otherRoot, subject.nssdbs.otherRoot, h);
    MadeByClass(cas, entries, t, subject.files.other, subject.nssdbs.other, h);
    MadeByBoth(c1, c2, h);
    MadeByBoth(c1 + c2, c3, h);
    SharedOf(cas, subject, t, h);
    SharedOf(entries, subject, t, h);
  }

  lemma NumberParsed(n: int)
    requires LLONG_MIN <= n <= LLONG_MAX
    ensures ParseUid(NumberText(n)) == Some(n)
  {
    var text := NumberText(n);
    NumberIsRead(n, "");
    assert text + "" == text;
  }

  // A user is a number, kept modulo the width of its type; there is no hook without a
  // command or a user, or if anything follows the number.
  lemma UserIsKept(command: string, n: int)
    requires LLONG_MIN <= n <= LLONG_MAX
    ensures HookFor(Command(Some(command), Some(NumberText(n)))) == Some(Hook(command, n % 0x1_0000_0000))
    ensures HookFor(Command(None, Some(NumberText(n)))) == None && HookFor(Command(Some(command), None)) == None
    ensures forall rest: string :: rest != "" && !IsDigit(rest[0]) ==>
              HookFor(Command(Some(command), Some(NumberText(n) + rest))) == None
  {
    NumberParsed(n);
    forall rest: string | rest != "" && !IsDigit(rest[0]) ensures ParseUid(NumberText(n) + rest) == None {
      MoreIsRefused(NumberText(n), rest);
    }
  }

  lemma MoreIsRefused(number: string, rest: string)
    requires number != "" && (IsDigit(number[0]) || number[0] == '-') && rest != "" && !IsDigit(rest[0])
    ensures ParseUid(number + rest) == None
  {
    var text := number + rest;
    var s := SkipSpaces(text);
    assert text[0] == number[0] && s == text;
    var digits := if s != "" && (s[0] == '-' || s[0] == '+') then s[1..] else s;
    var k := if s[0] == '-' then |number| - 1 else |number|;
    assert digits[k] == rest[0];
    assert !AllDigits(digits);
  }

  // It happens: an entry which lists one file for the certificates of its CA's roots,
  // shares it with nobody, and has a user number one too large for its type runs its
  // command twice.
  const ONE_FILE := Places(["root.pem"], [], [])
  const NO_PLACE := Places([], [], [])

  function LonelyEntry(command: string): Owner {
    var c := Command(Some(command), Some(NumberText(UIDS)));
    Owner(c, c, ONE_FILE, NO_PLACE)
  }

  lemma ALonelyEntryRunsTwice(command: string)
    ensures var e := LonelyEntry(command);
            PlusAll([], AllCommands(e, [], [e], PreSave)) == [Hook(command, 0), Hook(command, 0)]
  {
    var e := LonelyEntry(command);
    var c := CommandOf(e, PreSave);
    NumberParsed(UIDS);
    OneCommandByClass(e);
    assert AllCommands(e, [], [e], PreSave) == [c, c];
    assert [c, c][..1] == [c] && [c][..0] == [];
    assert PlusAll([], [c]) == [Hook(command, 0)];
    assert !IsThere([Hook(command, 0)], command, UIDS);
  }

  lemma OneCommandByClass(e: Owner)
    requires e.files == ONE_FILE && e.nssdbs == NO_PLACE
    ensures CommandsByPlaces(e, [], [e], PreSave) == [CommandOf(e, PreSave)]
  {
    var f := ["root.pem"];
    assert f[..0] == [];
    assert Count("root.pem", f) == 1 && Pairs(f, f) == 1 && Pairs(f, []) == 0 && Pairs([], f) == 0 && Pairs([], []) == 0;
    assert Repeat(CommandOf(e, PreSave), 1) == [CommandOf(e, PreSave)];
    assert CommandsOf([e], 1, PreSave, f, []) == [CommandOf(e, PreSave)];
    assert CommandsOf([e], 1, PreSave, [], []) == [];
  }
}
