/**
 Progress: while helpers start, finish and succeed, every visit to an entry which
 is not settled either waits for a lock someone else owns or brings the entry
 strictly closer to being settled, and someone can always be brought closer.
 */
module Progress {
  import opened Wrappers
  import opened EntryStates
  import opened WritingLock
  import opened Expiry
  import opened EntrySteps
  import opened EntrySafety
  import opened CaSteps
  import opened Daemon
  import opened DaemonSafety

  // How many steps an entry may still need; 0 for the states it settles in.
  function StateRank(s: EntryState, scepAsked: bool): nat {
    match s
    case NewlyAdded => 60
    case NewlyAddedStartReadingKeyinfo => 59
    case NewlyAddedReadingKeyinfo => 58
    case NewlyAddedStartReadingCert => 57
    case NewlyAddedReadingCert => 56
    case NewlyAddedDeciding => 55
    case NeedToNotifyValidity => 54
    case NotifyingValidity => 53
    case NeedKeyPair => 50
    case GeneratingKeyPair => 49
    case HaveKeyPair => 48
    case NeedKeyinfo => 47
    case ReadingKeyinfo => 46
    case HaveKeyinfo => 45
    case NeedCsr => 44
    case GeneratingCsr => 43
    case HaveCsr => 42
    case CaWorking | CaUnreachable => if scepAsked then 35 else 41
    case NeedToSubmit => if scepAsked then 34 else 40
    case Submitting => if scepAsked then 33 else 39
    case NeedScepData => 38
    case GeneratingScepData => 37
    case HaveScepData => 36
    case NeedToSaveCert => 32
    case PreSaveCert => 31
    case NeedToNotifyIssuedSaveFailed => 30
    case NotifyingIssuedSaveFailed => 29
    case StartSavingCert => 28
    case SavingCert => 27
    case SavedCert => 26
    case NeedToNotifyIssuedCaSaveFailed => 25
    case NotifyingIssuedCaSaveFailed => 24
    case NeedToSaveCaCerts => 23
    case StartSavingCaCerts => 22
    case SavingCaCerts => 21
    case NeedToReadCert => 20
    case ReadingCert => 19
    case PostSavedCert => 18
    case NeedToNotifyIssuedSaved => 17
    case NotifyingIssuedSaved => 16
    case NeedToSaveOnlyCaCerts => 15
    case StartSavingOnlyCaCerts => 14
    case SavingOnlyCaCerts => 13
    case NeedToNotifyOnlyCaSaveFailed => 12
    case NotifyingOnlyCaSaveFailed => 11
    case NeedToNotifyRejection => 10
    case NotifyingRejection => 9
    case _ => 0
  }

  function Rank(e: Entry): nat {
    StateRank(e.state, e.scepAsked)
  }

  // Being monitored, or waiting for an operator.
  predicate Settled(e: Entry) {
    e.state == Monitoring || WaitsForOperator(e.state)
  }

  predicate MakesScep(s: EntryState) {
    s == NeedScepData || s == GeneratingScepData || s == HaveScepData
  }

  // SCEP data is only made when the CA has asked for it.
  predicate ScepOnRequest(e: Entry) {
    MakesScep(e.state) ==> e.scepAsked
  }

  // Helpers start, have finished and succeeded, though there need not be a hook to
  // run before saving; a CA may ask for SCEP data, once for each CSR.
  predicate Smooth(e: Entry, w: World) {
    && (w.started || e.state == NeedToSaveCert) && w.ready
    && (w.outcome == Success || (w.outcome == ScepRequest && e.state == Submitting && !e.scepAsked))
  }

  // The states in which an entry cannot go on while someone else owns the lock.
  predicate WantsLock(s: EntryState) {
    match s
    case NeedKeyPair | NeedToSaveCert | NeedToSaveCaCerts | NeedToSaveOnlyCaCerts | NeedToReadCert | NewlyAdded
      | NeedToNotifyIssuedSaveFailed | NeedToNotifyIssuedCaSaveFailed
      | NeedToNotifyOnlyCaSaveFailed | NeedToNotifyIssuedSaved => true
    case _ => false
  }

  predicate Blocked(e: Entry, l: Lock) {
    WantsLock(e.state) && l.owner != Nobody && l.owner != AnEntry(e.id)
  }

  // What a smooth step brings about.
  predicate Advances(e: Entry, l: Lock, s: Step) {
    if Blocked(e, l) then s == Stay(e, l, Soon)
    else Rank(s.entry) < Rank(e) && ScepOnRequest(s.entry) && (s.lock.owner == AnEntry(e.id) ==> !Settled(s.entry))
  }

  lemma KeyPairAdvances(e: Entry, l: Lock, w: World)
    requires Sound(e, l) && Consistent(l) && WorkOf(e.state) == KeyPairWork && !Settled(e) && Smooth(e, w) && ScepOnRequest(e)
    ensures Advances(e, l, StepKeyPair(e, l, w))
  {
    match e.state
    case NeedKeyPair =>
    case GeneratingKeyPair =>
    case HaveKeyPair =>
    case _ =>
  }

  lemma KeyinfoAdvances(e: Entry, l: Lock, w: World)
    requires Sound(e, l) && Consistent(l) && WorkOf(e.state) == KeyinfoWork && !Settled(e) && Smooth(e, w) && ScepOnRequest(e)
    ensures Advances(e, l, StepKeyinfo(e, l, w))
  {
    match e.state
    case NeedKeyinfo =>
    case ReadingKeyinfo =>
    case HaveKeyinfo =>
    case _ =>
  }

  lemma CsrAdvances(e: Entry, l: Lock, w: World)
    requires Sound(e, l) && Consistent(l) && WorkOf(e.state) == CsrWork && !Settled(e) && Smooth(e, w) && ScepOnRequest(e)
    ensures Advances(e, l, StepCsr(e, l, w))
  {
    match e.state
    case NeedCsr =>
    case GeneratingCsr =>
    case HaveCsr =>
    case _ =>
  }

  lemma ScepAdvances(e: Entry, l: Lock, w: World)
    requires Sound(e, l) && Consistent(l) && WorkOf(e.state) == ScepWork && !Settled(e) && Smooth(e, w) && ScepOnRequest(e)
    ensures Advances(e, l, StepScep(e, l, w))
  {
    match e.state
    case NeedScepData =>
    case GeneratingScepData =>
    case HaveScepData =>
    case _ =>
  }

  lemma SubmittingAdvances(cfg: Config, e: Entry, l: Lock, w: World)
    requires Sound(e, l) && e.state == Submitting && Smooth(e, w)
    ensures Advances(e, l, StepSubmit(cfg, e, l, w))
  {
    hide DelayAfter, AppointmentAfter;
  }

  lemma SubmitAdvances(cfg: Config, e: Entry, l: Lock, w: World)
    requires Sound(e, l) && Consistent(l) && WorkOf(e.state) == SubmitWork && !Settled(e) && Smooth(e, w) && ScepOnRequest(e)
    ensures Advances(e, l, StepSubmit(cfg, e, l, w))
  {
    hide AfterSubmission, DelayAfter, AppointmentAfter;
    match e.state
    case NeedToSubmit =>
    case Submitting => SubmittingAdvances(cfg, e, l, w);
    case CaUnreachable =>
    case CaWorking =>
    case _ =>
  }

  // A step which comes to a state of lower rank.
  lemma ComingToAdvances(e: Entry, l: Lock, r: Step, s: EntryState)
    requires !Blocked(e, l) && r.entry.state == s && r.entry.scepAsked == e.scepAsked
    requires StateRank(s, e.scepAsked) < Rank(e) && !MakesScep(s)
    requires r.lock.owner != AnEntry(e.id) || (s != Monitoring && !WaitsForOperator(s))
    ensures Advances(e, l, r)
  {
    hide Blocked, StateRank, WaitsForOperator;
  }

  // State by state; where an entry claims the lock it may have to wait for its owner.

  lemma BlockedStays(e: Entry, l: Lock, r: Step)
    requires Blocked(e, l) && r == Stay(e, l, Soon)
    ensures Advances(e, l, r)
  {
    hide Blocked;
  }

  lemma FreeSaveCertAdvances(e: Entry, l: Lock, w: World)
    requires e.state == NeedToSaveCert && l == Unlocked
    ensures Advances(e, l, StepSaveCert(e, l, w))
  {
    hide Advances;
    if w.started {
      ComingToAdvances(e, l, StepSaveCert(e, l, w), PreSaveCert);
    } else {
      ComingToAdvances(e, l, StepSaveCert(e, l, w), StartSavingCert);
    }
  }

  lemma SaveCertClaimAdvances(e: Entry, l: Lock, w: World)
    requires e.state == NeedToSaveCert && Consistent(l) && l.owner != AnEntry(e.id)
    ensures Advances(e, l, StepSaveCert(e, l, w))
  {
    hide Advances;
    if Blocked(e, l) {
      BlockedStays(e, l, StepSaveCert(e, l, w));
    } else {
      FreeSaveCertAdvances(e, l, w);
    }
  }

  lemma PreSavingAdvances(e: Entry, l: Lock, w: World)
    requires e.state == PreSaveCert && Hook in e.live && Smooth(e, w)
    ensures Advances(e, l, StepSaveCert(e, l, w))
  {
    hide Advances;
    ComingToAdvances(e, l, StepSaveCert(e, l, w), StartSavingCert);
  }

  lemma SavingAdvances(e: Entry, l: Lock, w: World)
    requires e.state == SavingCert && Certsave in e.live && Smooth(e, w)
    ensures Advances(e, l, StepSaveCert(e, l, w))
  {
    hide Advances, PromoteKey;
    ComingToAdvances(e, l, StepSaveCert(e, l, w), SavedCert);
  }

  lemma StartSavingAdvances(e: Entry, l: Lock, w: World)
    requires e.state == StartSavingCert && Smooth(e, w)
    ensures Advances(e, l, StepSaveCert(e, l, w))
  {
    hide Advances;
    ComingToAdvances(e, l, StepSaveCert(e, l, w), SavingCert);
  }

  lemma SavedAdvances(e: Entry, l: Lock, w: World)
    requires e.state == SavedCert
    ensures Advances(e, l, StepSaveCert(e, l, w))
  {
    hide Advances;
    ComingToAdvances(e, l, StepSaveCert(e, l, w), NeedToSaveCaCerts);
  }

  lemma SaveCertAdvances(e: Entry, l: Lock, w: World)
    requires Sound(e, l) && Consistent(l) && WorkOf(e.state) == SaveCertWork && !Settled(e) && Smooth(e, w) && ScepOnRequest(e)
    ensures Advances(e, l, StepSaveCert(e, l, w))
  {
    hide Advances, StepSaveCert, Settled, Smooth;
    match e.state
    case NeedToSaveCert => SaveCertClaimAdvances(e, l, w);
    case PreSaveCert => PreSavingAdvances(e, l, w);
    case StartSavingCert => StartSavingAdvances(e, l, w);
    case SavingCert => SavingAdvances(e, l, w);
    case _ => SavedAdvances(e, l, w);
  }

  lemma ReadCertClaimAdvances(e: Entry, l: Lock, w: World)
    requires e.state == NeedToReadCert && Consistent(l) && Smooth(e, w)
    ensures Advances(e, l, StepReadCert(e, l, w))
  {
    hide Advances;
    if Blocked(e, l) {
      BlockedStays(e, l, StepReadCert(e, l, w));
    } else {
      ComingToAdvances(e, l, StepReadCert(e, l, w), ReadingCert);
    }
  }

  lemma HookStartsAdvances(e: Entry, l: Lock, w: World)
    requires e.state == ReadingCert && Certread in e.live && Smooth(e, w) && w.hookStarted
    ensures Advances(e, l, StepReadCert(e, l, w))
  {
    hide Advances;
    ComingToAdvances(e, l, StepReadCert(e, l, w), PostSavedCert);
  }

  lemma NoHookStartsAdvances(e: Entry, l: Lock, w: World)
    requires e.state == ReadingCert && Certread in e.live && Smooth(e, w) && !w.hookStarted
    ensures Advances(e, l, StepReadCert(e, l, w))
  {
    hide Advances;
    ComingToAdvances(e, l, StepReadCert(e, l, w), NeedToNotifyIssuedSaved);
  }

  lemma ReadingAdvances(e: Entry, l: Lock, w: World)
    requires e.state == ReadingCert && Certread in e.live && Smooth(e, w)
    ensures Advances(e, l, StepReadCert(e, l, w))
  {
    hide Advances, StepReadCert, Smooth;
    if w.hookStarted {
      HookStartsAdvances(e, l, w);
    } else {
      NoHookStartsAdvances(e, l, w);
    }
  }

  lemma PostSavingAdvances(e: Entry, l: Lock, w: World)
    requires e.state == PostSavedCert && Hook in e.live && Smooth(e, w)
    ensures Advances(e, l, StepReadCert(e, l, w))
  {
    hide Advances;
    ComingToAdvances(e, l, StepReadCert(e, l, w), NeedToNotifyIssuedSaved);
  }

  lemma ReadCertAdvances(e: Entry, l: Lock, w: World)
    requires Sound(e, l) && Consistent(l) && WorkOf(e.state) == ReadCertWork && !Settled(e) && Smooth(e, w) && ScepOnRequest(e)
    ensures Advances(e, l, StepReadCert(e, l, w))
  {
    hide Advances, StepReadCert, Settled, Smooth;
    match e.state
    case NeedToReadCert => ReadCertClaimAdvances(e, l, w);
    case ReadingCert => ReadingAdvances(e, l, w);
    case _ => PostSavingAdvances(e, l, w);
  }

  lemma RenewAdvances(cfg: Config, e: Entry, l: Lock, w: World)
    requires Sound(e, l) && e.state == NotifyingValidity && Smooth(e, w)
    ensures Advances(e, l, StepMonitor(cfg, e, l, w))
  {
    hide MonitorDelay, Noteworthy, LookedAt;
  }

  lemma MonitorAdvances(cfg: Config, e: Entry, l: Lock, w: World)
    requires Sound(e, l) && Consistent(l) && WorkOf(e.state) == MonitorWork && !Settled(e) && Smooth(e, w) && ScepOnRequest(e)
    ensures Advances(e, l, StepMonitor(cfg, e, l, w))
  {
    hide Renew, KeepWatching, SeenForNotify, SeenForEnroll, NotifyDue, EnrollDue;
    match e.state
    case NeedToNotifyValidity => ComingToAdvances(e, l, StepMonitor(cfg, e, l, w), NotifyingValidity);
    case NotifyingValidity => RenewAdvances(cfg, e, l, w);
    case _ =>
  }

  lemma ReleaseAdvances(e: Entry, l: Lock, s: EntryState, w: World)
    requires Consistent(l) && WantsLock(e.state) && w.started
    requires StateRank(s, e.scepAsked) < Rank(e) && !MakesScep(s)
    ensures Advances(e, l, ReleaseAndNotify(e, l, s, w))
  {
    if !Blocked(e, l) {
      ComingToAdvances(e, l, Launched(e, Unlocked, Notify, s, w), s);
    }
  }

  lemma NotifyClaimAdvances(e: Entry, l: Lock, w: World)
    requires Consistent(l) && Smooth(e, w)
    requires e.state == NeedToNotifyIssuedSaveFailed || e.state == NeedToNotifyIssuedCaSaveFailed
          || e.state == NeedToNotifyOnlyCaSaveFailed || e.state == NeedToNotifyIssuedSaved
    ensures Advances(e, l, StepNotify(e, l, w))
  {
    hide Advances, ReleaseAndNotify;
    ReleaseAdvances(e, l, NotificationOf(e.state), w);
  }

  lemma RejectionSentAdvances(e: Entry, l: Lock, w: World)
    requires e.state == NotifyingRejection && Notify in e.live && Smooth(e, w) && l.owner != AnEntry(e.id)
    ensures Advances(e, l, StepNotify(e, l, w))
  {
    hide Advances, ReleaseAndNotify;
    ComingToAdvances(e, l, StepNotify(e, l, w), CaRejected);
  }

  lemma SaveFailedSentAdvances(e: Entry, l: Lock, w: World)
    requires e.state == NotifyingIssuedSaveFailed && Notify in e.live && Smooth(e, w) && l.owner != AnEntry(e.id)
    ensures Advances(e, l, StepNotify(e, l, w))
  {
    hide Advances, ReleaseAndNotify;
    ComingToAdvances(e, l, StepNotify(e, l, w), StartSavingCert);
  }

  lemma SavedSentAdvances(e: Entry, l: Lock, w: World)
    requires e.state == NotifyingIssuedSaved && Notify in e.live && Smooth(e, w) && l.owner != AnEntry(e.id)
    ensures Advances(e, l, StepNotify(e, l, w))
  {
    hide Advances, ReleaseAndNotify;
    ComingToAdvances(e, l, StepNotify(e, l, w), Monitoring);
  }

  lemma CaSaveFailedSentAdvances(e: Entry, l: Lock, w: World)
    requires e.state == NotifyingIssuedCaSaveFailed && Notify in e.live && Smooth(e, w) && l.owner != AnEntry(e.id)
    ensures Advances(e, l, StepNotify(e, l, w))
  {
    hide Advances, ReleaseAndNotify;
    ComingToAdvances(e, l, StepNotify(e, l, w), NeedToSaveCaCerts);
  }

  lemma OnlyCaSaveFailedSentAdvances(e: Entry, l: Lock, w: World)
    requires e.state == NotifyingOnlyCaSaveFailed && Notify in e.live && Smooth(e, w) && l.owner != AnEntry(e.id)
    ensures Advances(e, l, StepNotify(e, l, w))
  {
    hide Advances, ReleaseAndNotify;
    ComingToAdvances(e, l, StepNotify(e, l, w), Monitoring);
  }

  lemma RejectionAdvances(e: Entry, l: Lock, w: World)
    requires e.state == NeedToNotifyRejection && Smooth(e, w)
    ensures Advances(e, l, StepNotify(e, l, w))
  {
    hide Advances, ReleaseAndNotify;
    ComingToAdvances(e, l, StepNotify(e, l, w), NotifyingRejection);
  }

  lemma NotifyAdvances(e: Entry, l: Lock, w: World)
    requires Sound(e, l) && Consistent(l) && WorkOf(e.state) == NotifyWork && !Settled(e) && Smooth(e, w) && ScepOnRequest(e)
    ensures Advances(e, l, StepNotify(e, l, w))
  {
    hide Advances, StepNotify, Settled, Smooth;
    match e.state
    case NeedToNotifyRejection => RejectionAdvances(e, l, w);
    case NeedToNotifyIssuedSaveFailed | NeedToNotifyIssuedCaSaveFailed
       | NeedToNotifyOnlyCaSaveFailed | NeedToNotifyIssuedSaved => NotifyClaimAdvances(e, l, w);
    case NotifyingRejection => RejectionSentAdvances(e, l, w);
    case NotifyingIssuedSaveFailed => SaveFailedSentAdvances(e, l, w);
    case NotifyingIssuedSaved => SavedSentAdvances(e, l, w);
    case NotifyingIssuedCaSaveFailed => CaSaveFailedSentAdvances(e, l, w);
    case _ => OnlyCaSaveFailedSentAdvances(e, l, w);
  }

  lemma SaveCaCertsClaimAdvances(e: Entry, l: Lock, w: World)
    requires e.state == NeedToSaveCaCerts && Consistent(l)
    ensures Advances(e, l, StepSaveCaCerts(e, l, w))
  {
    hide Advances;
    if Blocked(e, l) {
      BlockedStays(e, l, StepSaveCaCerts(e, l, w));
    } else {
      ComingToAdvances(e, l, StepSaveCaCerts(e, l, w), StartSavingCaCerts);
    }
  }

  lemma SaveOnlyCaCertsClaimAdvances(e: Entry, l: Lock, w: World)
    requires e.state == NeedToSaveOnlyCaCerts && Consistent(l)
    ensures Advances(e, l, StepSaveCaCerts(e, l, w))
  {
    hide Advances;
    if Blocked(e, l) {
      BlockedStays(e, l, StepSaveCaCerts(e, l, w));
    } else {
      ComingToAdvances(e, l, StepSaveCaCerts(e, l, w), StartSavingOnlyCaCerts);
    }
  }

  lemma StartSavingCaCertsAdvances(e: Entry, l: Lock, w: World)
    requires e.state == StartSavingCaCerts && Smooth(e, w)
    ensures Advances(e, l, StepSaveCaCerts(e, l, w))
  {
    hide Advances;
    ComingToAdvances(e, l, StepSaveCaCerts(e, l, w), SavingCaCerts);
  }

  lemma StartSavingOnlyCaCertsAdvances(e: Entry, l: Lock, w: World)
    requires e.state == StartSavingOnlyCaCerts && Smooth(e, w)
    ensures Advances(e, l, StepSaveCaCerts(e, l, w))
  {
    hide Advances;
    ComingToAdvances(e, l, StepSaveCaCerts(e, l, w), SavingOnlyCaCerts);
  }

  lemma SavingCaCertsAdvances(e: Entry, l: Lock, w: World)
    requires e.state == SavingCaCerts && Casave in e.live && Smooth(e, w)
    ensures Advances(e, l, StepSaveCaCerts(e, l, w))
  {
    hide Advances;
    ComingToAdvances(e, l, StepSaveCaCerts(e, l, w), NeedToReadCert);
  }

  lemma SavingOnlyCaCertsAdvances(e: Entry, l: Lock, w: World)
    requires e.state == SavingOnlyCaCerts && Casave in e.live && Smooth(e, w) && l == Lock(AnEntry(e.id), None)
    ensures Advances(e, l, StepSaveCaCerts(e, l, w))
  {
    hide Advances;
    ComingToAdvances(e, l, StepSaveCaCerts(e, l, w), Monitoring);
  }

  lemma SaveCaCertsAdvances(e: Entry, l: Lock, w: World)
    requires Sound(e, l) && Consistent(l) && WorkOf(e.state) == SaveCaCertsWork && !Settled(e) && Smooth(e, w) && ScepOnRequest(e)
    ensures Advances(e, l, StepSaveCaCerts(e, l, w))
  {
    hide Advances, StepSaveCaCerts, Settled, Smooth;
    match e.state
    case NeedToSaveCaCerts => SaveCaCertsClaimAdvances(e, l, w);
    case NeedToSaveOnlyCaCerts => SaveOnlyCaCertsClaimAdvances(e, l, w);
    case StartSavingCaCerts => StartSavingCaCertsAdvances(e, l, w);
    case StartSavingOnlyCaCerts => StartSavingOnlyCaCertsAdvances(e, l, w);
    case SavingCaCerts => SavingCaCertsAdvances(e, l, w);
    case _ => SavingOnlyCaCertsAdvances(e, l, w);
  }

  lemma FreeNewlyAddedAdvances(e: Entry, l: Lock, w: World)
    requires e.state == NewlyAdded && l == Unlocked
    ensures Advances(e, l, StepNewlyAdded(e, l, w))
  {
    hide Advances;
    if e.keyLocation {
      ComingToAdvances(e, l, StepNewlyAdded(e, l, w), NewlyAddedStartReadingKeyinfo);
    } else {
      ComingToAdvances(e, l, StepNewlyAdded(e, l, w), NewlyAddedStartReadingCert);
    }
  }

  lemma NewlyAddedClaimAdvances(e: Entry, l: Lock, w: World)
    requires e.state == NewlyAdded && Consistent(l) && l.owner != AnEntry(e.id)
    ensures Advances(e, l, StepNewlyAdded(e, l, w))
  {
    hide Advances;
    if Blocked(e, l) {
      BlockedStays(e, l, StepNewlyAdded(e, l, w));
    } else {
      FreeNewlyAddedAdvances(e, l, w);
    }
  }

  lemma StartLookingForKeyAdvances(e: Entry, l: Lock, w: World)
    requires e.state == NewlyAddedStartReadingKeyinfo && Smooth(e, w)
    ensures Advances(e, l, StepNewlyAdded(e, l, w))
  {
    hide Advances;
    ComingToAdvances(e, l, StepNewlyAdded(e, l, w), NewlyAddedReadingKeyinfo);
  }

  lemma StartLookingForCertAdvances(e: Entry, l: Lock, w: World)
    requires e.state == NewlyAddedStartReadingCert && Smooth(e, w)
    ensures Advances(e, l, StepNewlyAdded(e, l, w))
  {
    hide Advances;
    ComingToAdvances(e, l, StepNewlyAdded(e, l, w), NewlyAddedReadingCert);
  }

  lemma LookingForKeyAdvances(e: Entry, l: Lock, w: World)
    requires e.state == NewlyAddedReadingKeyinfo && Keyiread in e.live && Smooth(e, w)
    ensures Advances(e, l, StepNewlyAdded(e, l, w))
  {
    hide Advances;
    ComingToAdvances(e, l, StepNewlyAdded(e, l, w), NewlyAddedStartReadingCert);
  }

  lemma LookingForCertAdvances(e: Entry, l: Lock, w: World)
    requires e.state == NewlyAddedReadingCert && Certread in e.live && Smooth(e, w)
    ensures Advances(e, l, StepNewlyAdded(e, l, w))
  {
    hide Advances;
    ComingToAdvances(e, l, StepNewlyAdded(e, l, w), NewlyAddedDeciding);
  }

  lemma DecidingAdvances(e: Entry, l: Lock, w: World)
    requires e.state == NewlyAddedDeciding && l == Lock(AnEntry(e.id), None)
    ensures Advances(e, l, StepNewlyAdded(e, l, w))
  {
    hide Advances;
    ComingToAdvances(e, l, StepNewlyAdded(e, l, w), Decision(e, w));
  }

  lemma NewlyAddedAdvances(e: Entry, l: Lock, w: World)
    requires Sound(e, l) && Consistent(l) && WorkOf(e.state) == NewlyAddedWork && !Settled(e) && Smooth(e, w) && ScepOnRequest(e)
    ensures Advances(e, l, StepNewlyAdded(e, l, w))
  {
    hide Advances, StepNewlyAdded, Settled, Smooth;
    match e.state
    case NewlyAdded => NewlyAddedClaimAdvances(e, l, w);
    case NewlyAddedStartReadingKeyinfo => StartLookingForKeyAdvances(e, l, w);
    case NewlyAddedStartReadingCert => StartLookingForCertAdvances(e, l, w);
    case NewlyAddedReadingKeyinfo => LookingForKeyAdvances(e, l, w);
    case NewlyAddedReadingCert => LookingForCertAdvances(e, l, w);
    case _ => DecidingAdvances(e, l, w);
  }

  lemma StepAdvances(cfg: Config, e: Entry, l: Lock, w: World)
    requires Sound(e, l) && Consistent(l) && !Settled(e) && Smooth(e, w) && ScepOnRequest(e)
    ensures Advances(e, l, StepEntry(cfg, e, l, w))
  {
    match WorkOf(e.state)
    case NoWork =>
    case KeyPairWork => KeyPairAdvances(e, l, w);
    case KeyinfoWork => KeyinfoAdvances(e, l, w);
    case CsrWork => CsrAdvances(e, l, w);
    case ScepWork => ScepAdvances(e, l, w);
    case SubmitWork => SubmitAdvances(cfg, e, l, w);
    case SaveCertWork => SaveCertAdvances(e, l, w);
    case ReadCertWork => ReadCertAdvances(e, l, w);
    case MonitorWork => MonitorAdvances(cfg, e, l, w);
    case NotifyWork => NotifyAdvances(e, l, w);
    case SaveCaCertsWork => SaveCaCertsAdvances(e, l, w);
    case NewlyAddedWork => NewlyAddedAdvances(e, l, w);
  }

  // The lock-holding part of a CA phase's work.
  function CaRank(s: CaState): nat {
    match s
    case CaPreSaveData => 6
    case CaStartSavingData => 5
    case CaSavingData => 4
    case CaNeedPostSaveData => 3
    case CaPostSaveData => 2
    case CaSavedData => 1
    case _ => 0
  }

  function SlotRank(slot: Slot): nat {
    if slot.entry.started then Rank(slot.entry) else 0
  }

  function EntriesRank(slots: seq<Slot>): nat {
    if slots == [] then 0 else SlotRank(slots[0]) + EntriesRank(slots[1..])
  }

  // What the CA phase which owns the lock, if one does, still has to do.
  function HolderRank(cas: seq<Ca>, l: Lock): nat {
    if cas == [] then 0
    else
      HolderRank(cas[1..], l) +
      if l.owner == ACa(cas[0].id) && l.phase.Some? && l.phase.value in cas[0].slots
      then CaRank(cas[0].slots[l.phase.value].task.state) else 0
  }

  function Total(s: System): nat {
    EntriesRank(s.slots) + HolderRank(s.cas, s.lock)
  }

  lemma {:induction false} EntriesRankUpdate(slots: seq<Slot>, i: nat, slot: Slot)
    requires i < |slots|
    ensures EntriesRank(slots[i := slot]) + SlotRank(slots[i]) == EntriesRank(slots) + SlotRank(slot)
  {
    if i == 0 {
      assert slots[i := slot][1..] == slots[1..];
    } else {
      assert slots[i := slot][1..] == slots[1..][i - 1 := slot];
      EntriesRankUpdate(slots[1..], i - 1, slot);
    }
  }

  lemma {:induction false} NoCaHolds(cas: seq<Ca>, l: Lock)
    requires !l.owner.ACa?
    ensures HolderRank(cas, l) == 0
  {
    if cas != [] {
      NoCaHolds(cas[1..], l);
    }
  }

  // With distinct CAs only the owner counts.
  lemma {:induction false} HolderRankIsOwners(cas: seq<Ca>, l: Lock, j: nat)
    requires j < |cas| && l.owner == ACa(cas[j].id) && l.phase.Some? && l.phase.value in cas[j].slots
    requires forall i, k :: 0 <= i < k < |cas| ==> cas[i].id != cas[k].id
    ensures HolderRank(cas, l) == CaRank(cas[j].slots[l.phase.value].task.state)
  {
    if j == 0 {
      OthersDoNotHold(cas[1..], l);
    } else {
      assert cas[1..][j - 1] == cas[j] && cas[0].id != cas[j].id;
      HolderRankIsOwners(cas[1..], l, j - 1);
    }
  }

  lemma {:induction false} OthersDoNotHold(cas: seq<Ca>, l: Lock)
    requires forall k :: 0 <= k < |cas| ==> l.owner != ACa(cas[k].id)
    ensures HolderRank(cas, l) == 0
  {
    if cas != [] {
      OthersDoNotHold(cas[1..], l);
    }
  }

  // Whoever owns the lock can go on: no entry settled while it kept the lock, and
  // a CA phase which owns it has an appointment.
  predicate OwnerCanGoOn(s: System) {
    && (forall i :: 0 <= i < |s.slots| && Owns(s.lock, s.slots[i].entry) ==> !Settled(s.slots[i].entry))
    && (forall j :: 0 <= j < |s.cas| && s.lock.owner == ACa(s.cas[j].id) && s.lock.phase.Some? ==>
          s.lock.phase.value in s.cas[j].slots && s.cas[j].slots[s.lock.phase.value].event != NoEvent)
  }

  predicate Working(s: System) {
    && Good(s) && s.fault == NoFault && OwnerCanGoOn(s)
    && forall i :: 0 <= i < |s.slots| && s.slots[i].entry.started ==> ScepOnRequest(s.slots[i].entry)
  }

  predicate AllSettled(s: System) {
    forall i :: 0 <= i < |s.slots| && s.slots[i].entry.started ==> Settled(s.slots[i].entry)
  }

  // A CA phase's helpers work; there need not be a hook to run after its save.
  predicate CaSmooth(t: CaTask, w: CaWorld) {
    (w.started || t.state == CaNeedPostSaveData) && w.ready
  }

  // A visit to an entry which is not settled, or to the CA phase which owns the
  // lock, with helpers which work.
  predicate SmoothVisit(s: System, a: Action) {
    && Enabled(s, a)
    && match a
       case VisitEntry(i, w) => !Settled(s.slots[i].entry) && Smooth(s.slots[i].entry, w)
       case VisitCa(j, p, cw, _) => CaOwns(s.lock, s.cas[j].id, p) && CaSmooth(s.cas[j].slots[p].task, cw)
       case _ => false
  }

  predicate Waits(s: System, a: Action) {
    a.VisitEntry? && a.i < |s.slots| && Blocked(s.slots[a.i].entry, s.lock)
  }

  lemma VisitEntryLowers(cfg: Config, s: System, i: nat, w: World)
    requires Working(s) && SmoothVisit(s, VisitEntry(i, w))
    ensures var r := Next(cfg, s, VisitEntry(i, w));
            && Working(r)
            && if Blocked(s.slots[i].entry, s.lock) then Total(r) == Total(s) else Total(r) < Total(s)
  {
    hide StepEntry, StateRank, WaitsForOperator, WantsLock, Smooth, Permits, HelpersOf, MakesScep;
    var e := s.slots[i].entry;
    assert EntryOk(e, s.lock);
    StepIsGood(cfg, e, s.lock, w);
    StepAdvances(cfg, e, s.lock, w);
    ServiceEntryIsGood(cfg, s, i, w);
    var st := StepEntry(cfg, e, s.lock, w);
    var r := ServiceEntry(cfg, s, i, w);
    EntriesRankUpdate(s.slots, i, r.slots[i]);
    if st.lock != s.lock {
      NoCaHolds(s.cas, s.lock);
      NoCaHolds(s.cas, st.lock);
    }
    forall k | 0 <= k < |r.slots| && Owns(r.lock, r.slots[k].entry) ensures !Settled(r.slots[k].entry) {
      if k != i {
        assert r.slots[k] == s.slots[k] && r.slots[k].entry.id != e.id;
      }
    }
    assert OwnerCanGoOn(r);
    assert AllAwake(r);
  }

  // Steps of the phase which owns the lock lower what it still has to do.
  lemma CaStepLowers(cfg: Config, external: bool, id: nat, p: Phase, t: CaTask, l: Lock, w: CaWorld)
    requires CaSound(id, p, t, l) && CaOwns(l, id, p) && CaSmooth(t, w)
    ensures var s := StepCa(cfg, external, id, p, t, l, w);
            && s.fault == NoFault && !s.restartEntries
            && CaRank(s.task.state) < CaRank(t.state)
            && (s.lock == l || s.lock == Unlocked)
            && (s.when.Some? && (s.when != Some(NoTime) || s.watchFd))
  {
  }

  // What such a visit changes: the phase it is about, and perhaps the lock.
  predicate OnlyCaMoved(s: System, r: System, j: nat, p: Phase)
    requires j < |s.cas| && p in s.cas[j].slots
  {
    && r.slots == s.slots && |r.cas| == |s.cas| && r.lock in {s.lock, Unlocked}
    && r.cas[j].id == s.cas[j].id && p in r.cas[j].slots && r.cas[j].slots[p].event != NoEvent
    && CaRank(r.cas[j].slots[p].task.state) < CaRank(s.cas[j].slots[p].task.state)
    && forall k :: 0 <= k < |s.cas| && k != j ==> r.cas[k] == s.cas[k]
  }

  lemma VisitMovesCa(cfg: Config, s: System, j: nat, p: Phase, w: CaWorld, ws: nat -> RestartWorlds)
    requires Safe(s) && SmoothVisit(s, VisitCa(j, p, w, ws))
    ensures OnlyCaMoved(s, ServiceCa(cfg, s, j, p, w, ws), j, p)
    ensures var st := StepCa(cfg, s.cas[j].external, s.cas[j].id, p, s.cas[j].slots[p].task, s.lock, w);
            st.fault == NoFault && ServiceCa(cfg, s, j, p, w, ws).fault == NoFault
  {
    hide StepCa, CaRank, CaSmooth;
    var ca := s.cas[j];
    assert CaSlotsOk(ca, s.lock) && CaOk(ca.id, p, ca.slots[p].task, s.lock);
    CaStepLowers(cfg, ca.external, ca.id, p, ca.slots[p].task, s.lock, w);
  }

  lemma MovedCaLowersTotal(s: System, r: System, j: nat, p: Phase)
    requires DistinctCas(s) && j < |s.cas| && CaOwns(s.lock, s.cas[j].id, p) && p in s.cas[j].slots
    requires OnlyCaMoved(s, r, j, p)
    ensures Total(r) < Total(s)
  {
    hide CaRank, EntriesRank;
    HolderRankIsOwners(s.cas, s.lock, j);
    if r.lock == s.lock {
      forall i, k | 0 <= i < k < |r.cas| ensures r.cas[i].id != r.cas[k].id {
        assert r.cas[i].id == s.cas[i].id && r.cas[k].id == s.cas[k].id;
      }
      HolderRankIsOwners(r.cas, r.lock, j);
    } else {
      NoCaHolds(r.cas, r.lock);
    }
  }

  lemma VisitCaLowers(cfg: Config, s: System, j: nat, p: Phase, w: CaWorld, ws: nat -> RestartWorlds)
    requires Working(s) && SmoothVisit(s, VisitCa(j, p, w, ws))
    ensures var r := Next(cfg, s, VisitCa(j, p, w, ws));
            Working(r) && Total(r) < Total(s)
  {
    hide StepCa, ServiceCa, CaSmooth, Total;
    VisitMovesCa(cfg, s, j, p, w, ws);
    ServiceCaIsGood(cfg, s, j, p, w, ws);
    MovedCaLowersTotal(s, ServiceCa(cfg, s, j, p, w, ws), j, p);
    OwnerCanStillGoOn(s, ServiceCa(cfg, s, j, p, w, ws), j, p);
  }

  lemma OwnerCanStillGoOn(s: System, r: System, j: nat, p: Phase)
    requires OwnerCanGoOn(s) && DistinctCas(s) && j < |s.cas| && CaOwns(s.lock, s.cas[j].id, p)
    requires r.slots == s.slots && |r.cas| == |s.cas| && r.lock in {s.lock, Unlocked}
    requires r.cas[j].id == s.cas[j].id && p in r.cas[j].slots && r.cas[j].slots[p].event != NoEvent
    requires forall k :: 0 <= k < |s.cas| && k != j ==> r.cas[k] == s.cas[k]
    ensures OwnerCanGoOn(r)
  {
    assert forall k :: 0 <= k < |s.cas| && k != j ==> s.cas[k].id != s.cas[j].id;
  }

  // Every smooth visit keeps everything going, and unless it only waits for the
  // lock it brings the daemon closer to rest.
  lemma VisitLowers(cfg: Config, s: System, a: Action)
    requires Working(s) && SmoothVisit(s, a)
    ensures Working(Next(cfg, s, a))
    ensures if Waits(s, a) then Total(Next(cfg, s, a)) == Total(s) else Total(Next(cfg, s, a)) < Total(s)
  {
    match a
    case VisitEntry(i, w) => VisitEntryLowers(cfg, s, i, w);
    case VisitCa(j, p, cw, ws) => VisitCaLowers(cfg, s, j, p, cw, ws);
  }

  predicate SmoothRun(cfg: Config, s: System, actions: seq<Action>)
    decreases |actions|
  {
    actions == [] || (SmoothVisit(s, actions[0]) && SmoothRun(cfg, Next(cfg, s, actions[0]), actions[1..]))
  }

  // The number of visits in a run which do more than wait for the lock.
  function Productive(cfg: Config, s: System, actions: seq<Action>): nat
    decreases |actions|
  {
    if actions == [] then 0
    else (if Waits(s, actions[0]) then 0 else 1) + Productive(cfg, Next(cfg, s, actions[0]), actions[1..])
  }

  // Termination: however visits are scheduled, only so many of them can do work.
  lemma {:induction false} ProductiveVisitsAreBounded(cfg: Config, s: System, actions: seq<Action>)
    requires Working(s) && SmoothRun(cfg, s, actions)
    ensures Working(Run(cfg, s, actions))
    ensures Productive(cfg, s, actions) + Total(Run(cfg, s, actions)) <= Total(s)
    decreases |actions|
  {
    if actions != [] {
      VisitLowers(cfg, s, actions[0]);
      ProductiveVisitsAreBounded(cfg, Next(cfg, s, actions[0]), actions[1..]);
    }
  }
}
