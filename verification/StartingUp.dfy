/**
 From start-up to rest: a daemon which has just started is ready to make progress.
 */
module StartingUp {
  import opened EntryStates
  import opened WritingLock
  import opened Expiry
  import opened EntrySteps
  import opened EntrySafety
  import opened Daemon
  import opened DaemonSafety
  import opened Progress
  import opened Settling

  // The states which wait for an operator and may keep the lock.
  predicate MayKeepLock(s: EntryState) {
    || s == NeedCaCertSavePerms || s == NeedGuidance
    || s == NeedCertsavePerms || s == NeedCertsaveToken || s == NeedCertsavePin
  }

  // A step of an entry without the lock: it does not end up settled with the lock,
  // and making SCEP data is still only done on request.
  predicate StartsWell(e: Entry, l: Lock, st: Step) {
    && (st.lock == l || !MayKeepLock(st.entry.state))
    && (!MakesScep(st.entry.state) || st.entry.scepAsked)
  }

  lemma KeyPairStarts(e: Entry, l: Lock, w: World)
    requires Sound(e, l) && Consistent(l) && !Owns(l, e) && WorkOf(e.state) == KeyPairWork
    ensures StartsWell(e, l, StepKeyPair(e, l, w))
  {
    match e.state
    case NeedKeyPair =>
    case _ =>
  }

  lemma KeyinfoStarts(e: Entry, l: Lock, w: World)
    requires WorkOf(e.state) == KeyinfoWork
    ensures StartsWell(e, l, StepKeyinfo(e, l, w))
  {
    match e.state
    case ReadingKeyinfo =>
    case _ =>
  }

  lemma CsrStarts(e: Entry, l: Lock, w: World)
    requires WorkOf(e.state) == CsrWork
    ensures StartsWell(e, l, StepCsr(e, l, w))
  {
    match e.state
    case GeneratingCsr =>
    case _ =>
  }

  lemma ScepStarts(e: Entry, l: Lock, w: World)
    requires WorkOf(e.state) == ScepWork && e.scepAsked
    ensures StartsWell(e, l, StepScep(e, l, w))
  {
    match e.state
    case GeneratingScepData =>
    case _ =>
  }

  lemma SubmitStarts(cfg: Config, e: Entry, l: Lock, w: World)
    requires WorkOf(e.state) == SubmitWork
    ensures StartsWell(e, l, StepSubmit(cfg, e, l, w))
  {
    match e.state
    case NeedToSubmit =>
    case Submitting =>
    case _ =>
  }

  lemma SaveCertStarts(e: Entry, l: Lock, w: World)
    requires Sound(e, l) && Consistent(l) && !Owns(l, e) && WorkOf(e.state) == SaveCertWork
    ensures StartsWell(e, l, StepSaveCert(e, l, w))
  {
    match e.state
    case NeedToSaveCert =>
    case SavingCert =>
    case _ =>
  }

  lemma ReadCertStarts(e: Entry, l: Lock, w: World)
    requires Sound(e, l) && Consistent(l) && !Owns(l, e) && WorkOf(e.state) == ReadCertWork
    ensures StartsWell(e, l, StepReadCert(e, l, w))
  {
    match e.state
    case NeedToReadCert =>
    case _ =>
  }

  lemma MonitorStarts(cfg: Config, e: Entry, l: Lock, w: World)
    requires WorkOf(e.state) == MonitorWork
    ensures StartsWell(e, l, StepMonitor(cfg, e, l, w))
  {
    match e.state
    case Monitoring =>
    case NeedToNotifyValidity =>
    case _ =>
  }

  lemma ReleaseStarts(e: Entry, l: Lock, s: EntryState, w: World)
    requires Consistent(l) && !Owns(l, e)
    requires forall s1 :: s1 == e.state || s1 == s ==> !MayKeepLock(s1) && !MakesScep(s1)
    ensures StartsWell(e, l, ReleaseAndNotify(e, l, s, w))
  {
    hide MayKeepLock, MakesScep;
    if Ensured(l, e.id).Granted? {
      assert ReleaseAndNotify(e, l, s, w) == Launch(e, Unlocked, Notify, s, w);
    }
  }

  lemma NotifyStarts(e: Entry, l: Lock, w: World)
    requires Sound(e, l) && Consistent(l) && !Owns(l, e) && WorkOf(e.state) == NotifyWork
    ensures StartsWell(e, l, StepNotify(e, l, w))
  {
    hide ReleaseAndNotify;
    match e.state
    case NeedToNotifyRejection | NotifyingRejection =>
    case NotifyingIssuedSaveFailed | NotifyingIssuedSaved =>
    case NotifyingIssuedCaSaveFailed | NotifyingOnlyCaSaveFailed =>
    case _ => ReleaseStarts(e, l, NotificationOf(e.state), w);
  }

  lemma SaveCaCertsStarts(e: Entry, l: Lock, w: World)
    requires Sound(e, l) && Consistent(l) && !Owns(l, e) && WorkOf(e.state) == SaveCaCertsWork
    ensures StartsWell(e, l, StepSaveCaCerts(e, l, w))
  {
    match e.state
    case NeedToSaveCaCerts | NeedToSaveOnlyCaCerts =>
    case _ =>
  }

  lemma NewlyAddedStarts(e: Entry, l: Lock, w: World)
    requires Sound(e, l) && Consistent(l) && !Owns(l, e) && WorkOf(e.state) == NewlyAddedWork
    ensures StartsWell(e, l, StepNewlyAdded(e, l, w))
  {
    match e.state
    case NewlyAdded =>
    case _ =>
  }

  lemma StepStarts(cfg: Config, e: Entry, l: Lock, w: World)
    requires Sound(e, l) && Consistent(l) && !Owns(l, e) && ScepOnRequest(e)
    ensures StartsWell(e, l, StepEntry(cfg, e, l, w))
  {
    match WorkOf(e.state)
    case NoWork =>
    case KeyPairWork => KeyPairStarts(e, l, w);
    case KeyinfoWork => KeyinfoStarts(e, l, w);
    case CsrWork => CsrStarts(e, l, w);
    case ScepWork => ScepStarts(e, l, w);
    case SubmitWork => SubmitStarts(cfg, e, l, w);
    case SaveCertWork => SaveCertStarts(e, l, w);
    case ReadCertWork => ReadCertStarts(e, l, w);
    case MonitorWork => MonitorStarts(cfg, e, l, w);
    case NotifyWork => NotifyStarts(e, l, w);
    case SaveCaCertsWork => SaveCaCertsStarts(e, l, w);
    case NewlyAddedWork => NewlyAddedStarts(e, l, w);
  }

  // Whoever takes the lock in its first step is not settled after it.
  lemma FirstStep(cfg: Config, e: Entry, l: Lock, w: World)
    requires Sound(e, l) && Consistent(l) && !Owns(l, e) && ScepOnRequest(e)
    ensures var st := StepEntry(cfg, e, l, w);
            ScepOnRequest(st.entry) && (Owns(st.lock, st.entry) ==> !Settled(st.entry))
  {
    hide StepEntry;
    StepStarts(cfg, e, l, w);
    StepIsGood(cfg, e, l, w);
    var st := StepEntry(cfg, e, l, w);
    if Owns(st.lock, st.entry) && WaitsForOperator(st.entry.state) {
      WhoWaitsWithLock(st.entry, st.lock);
    }
  }

  // What is stored of an entry whose SCEP data is to be made: that it was asked for.
  predicate StoredScep(e: Entry) {
    ScepOnRequest(e.(state := Reset(e.state)))
  }

  predicate AllOnRequest(s: System) {
    forall i :: 0 <= i < |s.slots| ==> ScepOnRequest(s.slots[i].entry)
  }

  lemma {:induction false} SetUpFreesTheLock(s: System, ws: nat -> World, i: nat)
    requires s.lock == Unlocked
    requires forall k :: 0 <= k < |s.slots| ==>
               s.slots[k].entry.state != Invalid && if k < i then ScepOnRequest(s.slots[k].entry) else StoredScep(s.slots[k].entry)
    ensures var r := SetUpEntries(s, ws, i); r.lock == Unlocked && (s.fault == NoFault ==> AllOnRequest(r))
    decreases |s.slots| - i
  {
    if i < |s.slots| && s.fault == NoFault {
      var s1 := SetUpEntry(s, i, ws(i));
      assert s1.slots[i].entry.state != Invalid by { ResetNeedsNothing(s.slots[i].entry.state); }
      SetUpFreesTheLock(s1, ws, i + 1);
    }
  }

  // Those not visited yet do not own the lock, and the others are not settled if they do.
  predicate VisitedWell(s: System, i: nat) {
    && !s.lock.owner.ACa? && AllOnRequest(s)
    && forall k :: 0 <= k < |s.slots| && Owns(s.lock, s.slots[k].entry) ==> k < i && !Settled(s.slots[k].entry)
  }

  lemma OneVisitedWell(cfg: Config, s: System, i: nat, w: World)
    requires Safe(s) && i < |s.slots| && s.slots[i].entry.started && VisitedWell(s, i)
    ensures VisitedWell(ServiceEntry(cfg, s, i, w), i + 1)
  {
    hide StepEntry, Settled;
    var e := s.slots[i].entry;
    assert EntryOk(e, s.lock);
    FirstStep(cfg, e, s.lock, w);
    StepIsGood(cfg, e, s.lock, w);
    var r := ServiceEntry(cfg, s, i, w);
    forall k | 0 <= k < |r.slots| && Owns(r.lock, r.slots[k].entry) ensures k < i + 1 && !Settled(r.slots[k].entry) {
      if k != i {
        assert r.slots[k] == s.slots[k] && s.slots[k].entry.id != e.id;
      }
    }
    assert AllOnRequest(r);
  }

  predicate AllStarted(s: System) {
    forall k :: 0 <= k < |s.slots| ==> s.slots[k].entry.started
  }

  lemma OneVisit(cfg: Config, s: System, i: nat, w: World)
    requires Safe(s) && AllStarted(s) && VisitedWell(s, i) && i < |s.slots|
    ensures var r := ServiceEntry(cfg, s, i, w);
            Safe(r) && r.fault == NoFault && AllStarted(r) && VisitedWell(r, i + 1) && |r.slots| == |s.slots|
  {
    OneVisitedWell(cfg, s, i, w);
    ServiceEntryIsGood(cfg, s, i, w);
    ServicedIsStarted(cfg, s, i, w);
  }

  // In the middle of the first visits.
  predicate MidVisits(s: System, i: nat) {
    Safe(s) && s.fault == NoFault && AllStarted(s) && VisitedWell(s, i) && i <= |s.slots|
  }

  lemma NextVisit(cfg: Config, s: System, i: nat, w: World) returns (r: System)
    requires MidVisits(s, i) && i < |s.slots|
    ensures r == ServiceEntry(cfg, s, i, w) && |r.slots| == |s.slots| && MidVisits(r, i + 1)
  {
    hide ServiceEntry, Safe, AllStarted, VisitedWell;
    r := ServiceEntry(cfg, s, i, w);
    OneVisit(cfg, s, i, w);
  }

  lemma {:induction false} AllVisitedWell(cfg: Config, s: System, ws: nat -> World, i: nat)
    requires MidVisits(s, i)
    ensures var r := VisitEntries(cfg, s, ws, i); VisitedWell(r, |r.slots|)
    decreases |s.slots| - i
  {
    hide ServiceEntry, Safe, AllStarted, VisitedWell;
    if i < |s.slots| {
      var s1 := NextVisit(cfg, s, i, ws(i));
      AllVisitedWell(cfg, s1, ws, i + 1);
    }
  }

  // A daemon which has started up, whatever was stored and whatever happened on the
  // first visits, is ready to make progress.
  lemma BootIsWorking(cfg: Config, stored: System, setUp: nat -> World, visit: nat -> World)
    requires Stored(stored) && forall i :: 0 <= i < |stored.slots| ==> StoredScep(stored.slots[i].entry)
    ensures Working(Reached(cfg, stored, setUp, visit, []))
  {
    BootIsGood(cfg, stored, setUp, visit);
    assert Safe(stored) by {
      forall j | 0 <= j < |stored.cas| ensures CaSlotsOk(stored.cas[j], stored.lock) {}
    }
    SetUpEntriesIsSafe(stored, setUp, 0);
    SetUpFreesTheLock(stored, setUp, 0);
    AllVisitedWell(cfg, SetUpEntries(stored, setUp, 0), visit, 0);
  }

  // So from start-up on, if helpers work, some order of visits brings every entry to rest.
  lemma EveryoneSettlesAfterBoot(cfg: Config, stored: System, setUp: nat -> World, visit: nat -> World, o: Outside)
    returns (turns: seq<Turn>)
    requires Stored(stored) && (forall i :: 0 <= i < |stored.slots| ==> StoredScep(stored.slots[i].entry)) && Works(o)
    ensures var s := Reached(cfg, stored, setUp, visit, []);
            var r := Run(cfg, s, RunOf(cfg, s, turns, o));
            SmoothRun(cfg, s, RunOf(cfg, s, turns, o)) && AllSettled(r) && AllAtRest(s, r)
  {
    BootIsWorking(cfg, stored, setUp, visit);
    turns := EveryoneCanSettle(cfg, Reached(cfg, stored, setUp, visit, []), o);
  }
}
