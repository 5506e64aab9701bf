/**
 Why the save-failed retry is excepted from mutual exclusion: a run from start-up
 after which two entries save their certificates at the same time.
 */
module SaveRetry {
  import opened Wrappers
  import opened EntryStates
  import opened WritingLock
  import opened Expiry
  import opened EntrySteps
  import opened Daemon
  import opened DaemonSafety

  const NO_WATCH := Watch(0, 0, 0, 0, false, false)
  const FIRST_KEY := Keys(None, 0, 0, [], 1)

  // Whether a helper can be started, and what one which is running answers.
  function Answer(started: bool, outcome: Outcome): World {
    World(0, started, true, true, outcome, KeyWithoutMarker, false, false, true, None, false, false, false, -1, 0, 0)
  }

  function ToSave(id: nat): Slot {
    Slot(NewEntry(id, true, NeedToSaveCert, None, NO_WATCH, FIRST_KEY), NoEvent)
  }

  // Two entries are about to save.
  const STORED := System([ToSave(0), ToSave(1)], [], Unlocked, 2, NoFault)

  const NO_HOOK := Answer(false, Success)
  function NoHooks(i: nat): World { NO_HOOK }

  const STARTS := Answer(true, Success)
  const FAILS := Answer(true, Failure)

  // The first starts to save, which fails; it gives up the lock, notifies, and will
  // try again.  Meanwhile the second takes the lock and starts to save.
  const VISITS: seq<Action> := [
    VisitEntry(0, STARTS), VisitEntry(0, FAILS), VisitEntry(0, STARTS), VisitEntry(0, STARTS),
    VisitEntry(1, NO_HOOK), VisitEntry(1, STARTS), VisitEntry(0, STARTS)]

  // An entry in a state, with its handle, and whether its save is the retry.
  predicate EntryIs(e: Entry, id: nat, s: EntryState, retried: bool) {
    e.id == id && e.started && e.state == s && e.live == HelpersOf(s) && e.retried == retried
  }

  predicate IsIn(slot: Slot, id: nat, s: EntryState, retried: bool) {
    EntryIs(slot.entry, id, s, retried) && slot.event != NoEvent
  }

  predicate Both(s: System, s0: EntryState, retried: bool, s1: EntryState, owner: Owner) {
    && |s.slots| == 2 && s.fault == NoFault && s.lock == Lock(owner, None)
    && IsIn(s.slots[0], 0, s0, retried) && IsIn(s.slots[1], 1, s1, false)
  }

  // A step from one state to another.
  predicate Goes(st: Step, id: nat, s: EntryState, retried: bool, owner: Owner) {
    && EntryIs(st.entry, id, s, retried) && st.lock == Lock(owner, None)
    && st.fault == NoFault && (st.when != NoTime || st.watchFd)
  }

  // What a look at one of the two does to both, given what the step does.
  lemma Serviced(cfg: Config, s: System, i: nat, w: World)
    requires |s.slots| == 2 && i < 2
    requires var st := StepEntry(cfg, s.slots[i].entry, s.lock, w); st.fault == NoFault && (st.when != NoTime || st.watchFd)
    ensures var st := StepEntry(cfg, s.slots[i].entry, s.lock, w); var r := ServiceEntry(cfg, s, i, w);
            && |r.slots| == 2 && r.fault == NoFault && r.lock == st.lock
            && r.slots[i].entry == st.entry && r.slots[i].event != NoEvent && r.slots[1 - i] == s.slots[1 - i]
  {
    hide StepEntry;
  }

  lemma Visited(cfg: Config, s: System, i: nat, w: World)
    requires |s.slots| == 2 && i < 2 && s.fault == NoFault && s.slots[i].entry.started && s.slots[i].event != NoEvent
    requires var st := StepEntry(cfg, s.slots[i].entry, s.lock, w); st.fault == NoFault && (st.when != NoTime || st.watchFd)
    ensures var st := StepEntry(cfg, s.slots[i].entry, s.lock, w); var r := Next(cfg, s, VisitEntry(i, w));
            && |r.slots| == 2 && r.fault == NoFault && r.lock == st.lock
            && r.slots[i].entry == st.entry && r.slots[i].event != NoEvent && r.slots[1 - i] == s.slots[1 - i]
  {
    hide StepEntry;
  }

  // What a look at the entry does at each of the visits.

  lemma SavesCert(cfg: Config, e: Entry, l: Lock, w: World)
    requires e.state == NeedToSaveCert || e.state == StartSavingCert || e.state == SavingCert
    ensures StepEntry(cfg, e, l, w) == StepSaveCert(e, l, w)
  {
    hide StepSaveCert;
  }

  lemma Notifies(cfg: Config, e: Entry, l: Lock, w: World)
    requires e.state == NeedToNotifyIssuedSaveFailed || e.state == NotifyingIssuedSaveFailed
    ensures StepEntry(cfg, e, l, w) == StepNotify(e, l, w)
  {
    hide StepNotify;
  }

  lemma HelperIsStarted(cfg: Config, e: Entry, l: Lock, id: nat, retried: bool, owner: Owner)
    requires EntryIs(e, id, StartSavingCert, retried) && l == Lock(owner, None)
    ensures Goes(StepEntry(cfg, e, l, STARTS), id, SavingCert, retried, owner)
  {
    hide StepEntry;
    SavesCert(cfg, e, l, STARTS);
  }

  lemma HelperFails(cfg: Config, e: Entry, l: Lock)
    requires EntryIs(e, 0, SavingCert, false) && l == Lock(AnEntry(0), None)
    ensures Goes(StepEntry(cfg, e, l, FAILS), 0, NeedToNotifyIssuedSaveFailed, false, AnEntry(0))
  {
    hide StepEntry, PromoteKey;
    SavesCert(cfg, e, l, FAILS);
  }

  lemma LockIsGivenUp(cfg: Config, e: Entry, l: Lock)
    requires EntryIs(e, 0, NeedToNotifyIssuedSaveFailed, false) && l == Lock(AnEntry(0), None)
    ensures Goes(StepEntry(cfg, e, l, STARTS), 0, NotifyingIssuedSaveFailed, false, Nobody)
  {
    hide StepEntry;
    Notifies(cfg, e, l, STARTS);
  }

  lemma SaveIsRetried(cfg: Config, e: Entry, l: Lock)
    requires EntryIs(e, 0, NotifyingIssuedSaveFailed, false) && l == Lock(Nobody, None)
    ensures Goes(StepEntry(cfg, e, l, STARTS), 0, StartSavingCert, true, Nobody)
  {
    hide StepEntry;
    Notifies(cfg, e, l, STARTS);
  }

  lemma LockIsTaken(cfg: Config, e: Entry, l: Lock, id: nat)
    requires EntryIs(e, id, NeedToSaveCert, false) && l == Lock(Nobody, None)
    ensures Goes(StepEntry(cfg, e, l, NO_HOOK), id, StartSavingCert, false, AnEntry(id))
  {
    hide StepEntry;
    SavesCert(cfg, e, l, NO_HOOK);
  }

  lemma LockIsWaitedFor(cfg: Config, e: Entry, l: Lock)
    requires EntryIs(e, 1, NeedToSaveCert, false) && l == Lock(AnEntry(0), None)
    ensures Goes(StepEntry(cfg, e, l, NO_HOOK), 1, NeedToSaveCert, false, AnEntry(0))
  {
    hide StepEntry;
    SavesCert(cfg, e, l, NO_HOOK);
  }

  // Both are set up: neither has the lock.
  lemma BothAreSetUp()
    ensures var s := SetUpEntries(STORED, NoHooks, 0);
            && |s.slots| == 2 && s.fault == NoFault && s.lock == Unlocked
            && s.slots[0].entry == ToSave(0).entry.(started := true) && s.slots[1].entry == ToSave(1).entry.(started := true)
  {
    var s1 := SetUpEntry(STORED, 0, NO_HOOK);
    assert s1.fault == NoFault && s1.slots[0].entry == ToSave(0).entry.(started := true);
    var s2 := SetUpEntry(s1, 1, NO_HOOK);
    assert SetUpEntries(STORED, NoHooks, 0) == SetUpEntries(s1, NoHooks, 1) == SetUpEntries(s2, NoHooks, 2) == s2;
  }

  lemma CanBeStored()
    ensures Stored(STORED)
  {
  }

  lemma Started(cfg: Config)
    ensures Both(Reached(cfg, STORED, NoHooks, NoHooks, []), StartSavingCert, false, NeedToSaveCert, AnEntry(0))
  {
    BothAreSetUp();
    BothAreVisited(cfg, SetUpEntries(STORED, NoHooks, 0));
  }

  // The first takes it, the second has to come back.
  lemma BothAreVisited(cfg: Config, s: System)
    requires |s.slots| == 2 && s.fault == NoFault && s.lock == Unlocked
    requires s.slots[0].entry == ToSave(0).entry.(started := true) && s.slots[1].entry == ToSave(1).entry.(started := true)
    ensures Both(VisitEntries(cfg, s, NoHooks, 0), StartSavingCert, false, NeedToSaveCert, AnEntry(0))
  {
    hide StepEntry, ServiceEntry, Answer;
    LockIsTaken(cfg, s.slots[0].entry, s.lock, 0);
    Serviced(cfg, s, 0, NO_HOOK);
    var s1 := ServiceEntry(cfg, s, 0, NO_HOOK);
    LockIsWaitedFor(cfg, s1.slots[1].entry, s1.lock);
    Serviced(cfg, s1, 1, NO_HOOK);
    var s2 := ServiceEntry(cfg, s1, 1, NO_HOOK);
    assert VisitEntries(cfg, s, NoHooks, 0) == VisitEntries(cfg, s1, NoHooks, 1) == VisitEntries(cfg, s2, NoHooks, 2) == s2;
  }

  // The visits themselves.

  lemma Starts(cfg: Config, s: System)
    requires Both(s, StartSavingCert, false, NeedToSaveCert, AnEntry(0))
    ensures Both(Next(cfg, s, VisitEntry(0, STARTS)), SavingCert, false, NeedToSaveCert, AnEntry(0))
  {
    hide StepEntry, Next, Answer, HelpersOf;
    HelperIsStarted(cfg, s.slots[0].entry, s.lock, 0, false, AnEntry(0));
    Visited(cfg, s, 0, STARTS);
  }

  lemma Fails(cfg: Config, s: System)
    requires Both(s, SavingCert, false, NeedToSaveCert, AnEntry(0))
    ensures Both(Next(cfg, s, VisitEntry(0, FAILS)), NeedToNotifyIssuedSaveFailed, false, NeedToSaveCert, AnEntry(0))
  {
    hide StepEntry, Next, Answer, HelpersOf;
    HelperFails(cfg, s.slots[0].entry, s.lock);
    Visited(cfg, s, 0, FAILS);
  }

  lemma GivesUp(cfg: Config, s: System)
    requires Both(s, NeedToNotifyIssuedSaveFailed, false, NeedToSaveCert, AnEntry(0))
    ensures Both(Next(cfg, s, VisitEntry(0, STARTS)), NotifyingIssuedSaveFailed, false, NeedToSaveCert, Nobody)
  {
    hide StepEntry, Next, Answer, HelpersOf;
    LockIsGivenUp(cfg, s.slots[0].entry, s.lock);
    Visited(cfg, s, 0, STARTS);
  }

  lemma WillRetry(cfg: Config, s: System)
    requires Both(s, NotifyingIssuedSaveFailed, false, NeedToSaveCert, Nobody)
    ensures Both(Next(cfg, s, VisitEntry(0, STARTS)), StartSavingCert, true, NeedToSaveCert, Nobody)
  {
    hide StepEntry, Next, Answer, HelpersOf;
    SaveIsRetried(cfg, s.slots[0].entry, s.lock);
    Visited(cfg, s, 0, STARTS);
  }

  lemma OtherTakesLock(cfg: Config, s: System)
    requires Both(s, StartSavingCert, true, NeedToSaveCert, Nobody)
    ensures Both(Next(cfg, s, VisitEntry(1, NO_HOOK)), StartSavingCert, true, StartSavingCert, AnEntry(1))
  {
    hide StepEntry, Next, Answer, HelpersOf;
    LockIsTaken(cfg, s.slots[1].entry, s.lock, 1);
    Visited(cfg, s, 1, NO_HOOK);
  }

  lemma OtherStarts(cfg: Config, s: System)
    requires Both(s, StartSavingCert, true, StartSavingCert, AnEntry(1))
    ensures Both(Next(cfg, s, VisitEntry(1, STARTS)), StartSavingCert, true, SavingCert, AnEntry(1))
  {
    hide StepEntry, Next, Answer, HelpersOf;
    HelperIsStarted(cfg, s.slots[1].entry, s.lock, 1, false, AnEntry(1));
    Visited(cfg, s, 1, STARTS);
  }

  lemma Retries(cfg: Config, s: System)
    requires Both(s, StartSavingCert, true, SavingCert, AnEntry(1))
    ensures Both(Next(cfg, s, VisitEntry(0, STARTS)), SavingCert, true, SavingCert, AnEntry(1))
  {
    hide StepEntry, Next, Answer, HelpersOf;
    HelperIsStarted(cfg, s.slots[0].entry, s.lock, 0, true, AnEntry(1));
    Visited(cfg, s, 0, STARTS);
  }

  lemma FirstThen(cfg: Config, s: System, i: nat)
    requires i < |VISITS|
    ensures Run(cfg, s, VISITS[i..]) == Run(cfg, Next(cfg, s, VISITS[i]), VISITS[i + 1..])
  {
    assert VISITS[i..][1..] == VISITS[i + 1..];
  }

  lemma SevenVisits(cfg: Config, s: System)
    requires Both(s, StartSavingCert, false, NeedToSaveCert, AnEntry(0))
    ensures Both(Run(cfg, s, VISITS), SavingCert, true, SavingCert, AnEntry(1))
  {
    hide StepEntry, Next, Answer, Both;
    var s1 := Next(cfg, s, VISITS[0]);
    Starts(cfg, s);
    FirstThen(cfg, s, 0);
    var s2 := Next(cfg, s1, VISITS[1]);
    Fails(cfg, s1);
    FirstThen(cfg, s1, 1);
    var s3 := Next(cfg, s2, VISITS[2]);
    GivesUp(cfg, s2);
    FirstThen(cfg, s2, 2);
    var s4 := Next(cfg, s3, VISITS[3]);
    WillRetry(cfg, s3);
    FirstThen(cfg, s3, 3);
    LastThree(cfg, s4);
    assert VISITS[0..] == VISITS;
  }

  lemma LastThree(cfg: Config, s: System)
    requires Both(s, StartSavingCert, true, NeedToSaveCert, Nobody)
    ensures Both(Run(cfg, s, VISITS[4..]), SavingCert, true, SavingCert, AnEntry(1))
  {
    hide StepEntry, Next, Answer, Both;
    var s5 := Next(cfg, s, VISITS[4]);
    OtherTakesLock(cfg, s);
    FirstThen(cfg, s, 4);
    var s6 := Next(cfg, s5, VISITS[5]);
    OtherStarts(cfg, s5);
    FirstThen(cfg, s5, 5);
    Retries(cfg, s6);
    FirstThen(cfg, s6, 6);
  }

  // After seven visits both entries save, and only the second owns the lock.
  lemma TwoSaveAtOnce(cfg: Config)
    ensures Stored(STORED)
    ensures Both(Reached(cfg, STORED, NoHooks, NoHooks, VISITS), SavingCert, true, SavingCert, AnEntry(1))
  {
    CanBeStored();
    Started(cfg);
    SevenVisits(cfg, Reached(cfg, STORED, NoHooks, NoHooks, []));
  }
}
