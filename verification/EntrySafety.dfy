/**
 What every step of an entry keeps: it never aborts, never uses a NULL handle,
 has exactly the handle its state calls for, owns the writing lock exactly as its
 state says, and always leaves an appointment unless it waits for an operator.
 */
module EntrySafety {
  import opened Wrappers
  import opened EntryStates
  import opened WritingLock
  import opened Expiry
  import opened EntrySteps

  predicate Owns(l: Lock, e: Entry) {
    l.owner == AnEntry(e.id)
  }

  // What a state says about the lock is so, given whether the entry owns it and
  // whether its pending save is the save-failed retry.
  predicate Permits(s: EntryState, owns: bool, retried: bool) {
    && s != Invalid
    && (match LockNeedOf(s)
        case Holds => owns && (s == PreSaveCert ==> !retried)
        case Lacks => !owns
        case UnlessRetried => owns <==> !retried
        case Either => true)
  }

  // A started entry between two steps.
  predicate Sound(e: Entry, l: Lock) {
    && e.started
    && e.live == HelpersOf(e.state)
    && Permits(e.state, Owns(l, e), e.retried)
  }

  // Whatever others own stays theirs: the lock only moves between this entry
  // and nobody.
  predicate OnlyOwnMove(before: Lock, after: Lock, id: nat) {
    after == before || (before.owner in {Nobody, AnEntry(id)} && after.owner in {Nobody, AnEntry(id)})
  }

  predicate WakesUp(s: Step) {
    s.when != NoTime || s.watchFd || WaitsForOperator(s.entry.state)
  }

  predicate GoodStep(e: Entry, l: Lock, s: Step) {
    && s.fault == NoFault
    && Sound(s.entry, s.lock)
    && Consistent(s.lock)
    && OnlyOwnMove(l, s.lock, e.id)
    && s.entry.id == e.id
    && WakesUp(s)
  }

  // Lock moves a step may make before it goes on.
  predicate Held(e: Entry, l0: Lock, l: Lock) {
    e.started && Consistent(l) && OnlyOwnMove(l0, l, e.id)
  }

  lemma MoveIsGood(e: Entry, l0: Lock, l: Lock, s: EntryState, when: When)
    requires Held(e, l0, l) && e.live == {} && HelperOf(s) == None && Permits(s, Owns(l, e), e.retried)
    requires when == NoTime ==> WaitsForOperator(s)
    ensures GoodStep(e, l0, Move(e, l, s, when))
  {
  }

  lemma LaunchedIsGood(e: Entry, l0: Lock, l: Lock, h: Helper, s: EntryState, w: World)
    requires Held(e, l0, l) && e.live == {} && HelperOf(s) == Some(h) && Permits(s, Owns(l, e), e.retried)
    ensures GoodStep(e, l0, Launched(e, l, h, s, w))
  {
  }

  lemma LaunchIsGood(e: Entry, l0: Lock, l: Lock, h: Helper, s: EntryState, w: World)
    requires Held(e, l0, l) && e.live == {} && HelperOf(s) == Some(h)
    requires if w.started then Permits(s, Owns(l, e), e.retried) else Sound(e, l)
    ensures GoodStep(e, l0, Launch(e, l, h, s, w))
  {
  }

  lemma FinishIsGood(e: Entry, l0: Lock, l: Lock, h: Helper, s: EntryState, when: When)
    requires Held(e, l0, l) && e.live == {h} && HelperOf(s) == None && Permits(s, Owns(l, e), e.retried)
    requires when != NoTime
    ensures GoodStep(e, l0, Finish(e, l, h, s, when))
  {
  }

  lemma PollIsGood(e: Entry, l: Lock, w: World)
    requires Sound(e, l) && Consistent(l)
    ensures GoodStep(e, l, Poll(e, l, w))
  {
  }

  lemma KeyPairIsGood(e: Entry, l: Lock, w: World)
    requires Sound(e, l) && Consistent(l) && WorkOf(e.state) == KeyPairWork
    ensures GoodStep(e, l, StepKeyPair(e, l, w))
  {
    match e.state
    case NeedKeyPair =>
    case GeneratingKeyPair =>
    case HaveKeyPair =>
    case _ =>
  }

  lemma KeyinfoIsGood(e: Entry, l: Lock, w: World)
    requires Sound(e, l) && Consistent(l) && WorkOf(e.state) == KeyinfoWork
    ensures GoodStep(e, l, StepKeyinfo(e, l, w))
  {
    hide GoodStep;
    match e.state
    case NeedKeyinfo => LaunchIsGood(e, l, l, Keyiread, ReadingKeyinfo, w);
    case ReadingKeyinfo => 
      PollIsGood(e, l, w);
      match w.outcome {
        case Success => FinishIsGood(e, l, l, Keyiread, HaveKeyinfo, Now);
        case LackToken => FinishIsGood(e, l, l, Keyiread, NeedKeyinfoReadToken, Now);
        case LackPin => FinishIsGood(e, l, l, Keyiread, NeedKeyinfoReadPin, Now);
        case _ => FinishIsGood(e, l, l, Keyiread, NeedKeyPair, Soonish);
      }
    case HaveKeyinfo => MoveIsGood(e, l, l, NeedCsr, Now);
    case _ =>
  }

  lemma CsrIsGood(e: Entry, l: Lock, w: World)
    requires Sound(e, l) && Consistent(l) && WorkOf(e.state) == CsrWork
    ensures GoodStep(e, l, StepCsr(e, l, w))
  {
    match e.state
    case NeedCsr => LaunchIsGood(e, l, l, Csrgen, GeneratingCsr, w);
    case GeneratingCsr =>
      PollIsGood(e, l, w);
      match w.outcome {
        case Success => FinishIsGood(e.(scepAsked := false), l, l, Csrgen, HaveCsr, Now);
        case LackToken => FinishIsGood(e, l, l, Csrgen, NeedCsrGenToken, Now);
        case LackPin => FinishIsGood(e, l, l, Csrgen, NeedCsrGenPin, Now);
        case _ => FinishIsGood(e, l, l, Csrgen, NeedCsr, Soonish);
      }
    case HaveCsr => MoveIsGood(e, l, l, NeedToSubmit, Now);
    case _ =>
  }

  lemma ScepIsGood(e: Entry, l: Lock, w: World)
    requires Sound(e, l) && Consistent(l) && WorkOf(e.state) == ScepWork
    ensures GoodStep(e, l, StepScep(e, l, w))
  {
    hide GoodStep;
    match e.state
    case NeedScepData => LaunchIsGood(e, l, l, Scepgen, GeneratingScepData, w);
    case GeneratingScepData =>
      PollIsGood(e, l, w);
      match w.outcome {
        case Success => FinishIsGood(e, l, l, Scepgen, HaveScepData, Now);
        case LackToken => FinishIsGood(e, l, l, Scepgen, NeedScepGenToken, Now);
        case LackPin => FinishIsGood(e, l, l, Scepgen, NeedScepGenPin, Now);
        case LackEncryptionCert => FinishIsGood(e, l, l, Scepgen, NeedScepEncryptionCert, Now);
        case LackRsaKey => FinishIsGood(e, l, l, Scepgen, NeedScepRsaClientKey, Now);
        case _ => FinishIsGood(e, l, l, Scepgen, NeedScepData, Soonish);
      }
    case HaveScepData => MoveIsGood(e, l, l, NeedToSubmit, Now);
    case _ =>
  }

  lemma SubmittingIsGood(cfg: Config, e: Entry, l: Lock, w: World)
    requires Sound(e, l) && Consistent(l) && e.state == Submitting
    ensures GoodStep(e, l, StepSubmit(cfg, e, l, w))
  {
    PollIsGood(e, l, w);
    var s := AfterSubmission(e, w);
    FinishIsGood(e.(scepAsked := e.scepAsked || w.outcome == ScepRequest), l, l, Submit, s, AppointmentAfter(s));
  }

  lemma SubmitIsGood(cfg: Config, e: Entry, l: Lock, w: World)
    requires Sound(e, l) && Consistent(l) && WorkOf(e.state) == SubmitWork
    ensures GoodStep(e, l, StepSubmit(cfg, e, l, w))
  {
    match e.state
    case NeedToSubmit => LaunchIsGood(e, l, l, Submit, Submitting, w);
    case Submitting => SubmittingIsGood(cfg, e, l, w);
    case CaUnreachable =>
    case CaWorking =>
    case _ =>
  }

  lemma SavingIsGood(e: Entry, l: Lock, w: World)
    requires Sound(e, l) && Consistent(l) && e.state == SavingCert
    ensures GoodStep(e, l, StepSaveCert(e, l, w))
  {
    PollIsGood(e, l, w);
    var s := match w.outcome
             case Success => SavedCert
             case LackPerms => NeedCertsavePerms
             case LackToken => NeedCertsaveToken
             case LackPin => NeedCertsavePin
             case _ => NeedToNotifyIssuedSaveFailed;
    var k := if s == SavedCert then PromoteKey(e.keys) else e.keys;
    FinishIsGood(e.(keys := k), l, l, Certsave, s, if s == NeedToNotifyIssuedSaveFailed then Soonish else Now);
  }

  lemma ToSaveIsGood(e: Entry, l: Lock, w: World)
    requires Sound(e, l) && Consistent(l) && e.state == NeedToSaveCert
    ensures GoodStep(e, l, StepSaveCert(e, l, w))
  {
    if LockByEntry(l, e.id).Granted? {
      var l1 := LockByEntry(l, e.id).lock;
      var e1 := e.(retried := false);
      if w.started {
        LaunchIsGood(e1, l, l1, Hook, PreSaveCert, w);
      } else {
        MoveIsGood(e1, l, l1, StartSavingCert, Now);
      }
    }
  }

  lemma PreSavingIsGood(e: Entry, l: Lock, w: World)
    requires Sound(e, l) && Consistent(l) && e.state == PreSaveCert
    ensures GoodStep(e, l, StepSaveCert(e, l, w))
  {
    PollIsGood(e, l, w);
    FinishIsGood(e, l, l, Hook, StartSavingCert, Now);
  }

  lemma SaveCertIsGood(e: Entry, l: Lock, w: World)
    requires Sound(e, l) && Consistent(l) && WorkOf(e.state) == SaveCertWork
    ensures GoodStep(e, l, StepSaveCert(e, l, w))
  {
    match e.state
    case NeedToSaveCert => ToSaveIsGood(e, l, w);
    case PreSaveCert => PreSavingIsGood(e, l, w);
    case StartSavingCert => LaunchIsGood(e, l, l, Certsave, SavingCert, w);
    case SavingCert => SavingIsGood(e, l, w);
    case SavedCert => MoveIsGood(e, l, l, NeedToSaveCaCerts, Now);
    case _ =>
  }

  lemma ReadingIsGood(e: Entry, l: Lock, w: World)
    requires Sound(e, l) && Consistent(l) && e.state == ReadingCert
    ensures GoodStep(e, l, StepReadCert(e, l, w))
  {
    PollIsGood(e, l, w);
    var e1 := Reread(e, w).(live := e.live - {Certread});
    assert e1.live == {};
    if w.outcome == Success && w.hookStarted {
      LaunchedIsGood(e1, l, l, Hook, PostSavedCert, w);
    } else {
      MoveIsGood(e1, l, l, if w.outcome == Success then NeedToNotifyIssuedSaved else NeedGuidance, Now);
    }
  }

  lemma ReadCertIsGood(e: Entry, l: Lock, w: World)
    requires Sound(e, l) && Consistent(l) && WorkOf(e.state) == ReadCertWork
    ensures GoodStep(e, l, StepReadCert(e, l, w))
  {
    match e.state
    case NeedToReadCert =>
      if Ensured(l, e.id).Granted? {
        LaunchIsGood(e, l, Ensured(l, e.id).lock, Certread, ReadingCert, w);
      }
    case ReadingCert =>
      ReadingIsGood(e, l, w);
    case PostSavedCert =>
      PollIsGood(e, l, w);
      FinishIsGood(e, l, l, Hook, NeedToNotifyIssuedSaved, Now);
    case _ =>
  }

  lemma WatchingIsGood(cfg: Config, e: Entry, l: Lock, w: World)
    requires e.started && e.live == {} && !Owns(l, e) && Consistent(l)
    ensures GoodStep(e, l, Renew(cfg, e, l, w)) && GoodStep(e, l, KeepWatching(cfg, e, l, w))
  {
  }

  lemma MonitoringIsGood(cfg: Config, e: Entry, l: Lock, w: World)
    requires Sound(e, l) && Consistent(l) && e.state == Monitoring
    ensures GoodStep(e, l, StepMonitor(cfg, e, l, w))
  {
    var e1 := SeenForNotify(cfg, e, w.now);
    assert e1.live == {} && !Owns(l, e1);
    if NotifyDue(cfg, e, w.now) {
      MoveIsGood(e1, l, l, NeedToNotifyValidity, Now);
    } else {
      var e2 := SeenForEnroll(cfg, e1, w.now);
      assert e2.live == {} && !Owns(l, e2);
      WatchingIsGood(cfg, e2, l, w);
    }
  }

  lemma NotifyingValidityIsGood(cfg: Config, e: Entry, l: Lock, w: World)
    requires Sound(e, l) && Consistent(l) && e.state == NotifyingValidity
    ensures GoodStep(e, l, StepMonitor(cfg, e, l, w))
  {
    PollIsGood(e, l, w);
    var e1 := e.(live := e.live - {Notify});
    assert e1.live == {};
    WatchingIsGood(cfg, SeenForEnroll(cfg, e1, w.now), l, w);
  }

  lemma MonitorIsGood(cfg: Config, e: Entry, l: Lock, w: World)
    requires Sound(e, l) && Consistent(l) && WorkOf(e.state) == MonitorWork
    ensures GoodStep(e, l, StepMonitor(cfg, e, l, w))
  {
    match e.state
    case Monitoring =>
      MonitoringIsGood(cfg, e, l, w);
    case NeedToNotifyValidity => LaunchIsGood(e, l, l, Notify, NotifyingValidity, w);
    case NotifyingValidity =>
      NotifyingValidityIsGood(cfg, e, l, w);
    case _ =>
  }

  lemma ReleaseIsGood(e: Entry, l: Lock, s: EntryState, w: World)
    requires Sound(e, l) && Consistent(l) && e.live == {} && Permits(e.state, false, e.retried)
    requires HelperOf(s) == Some(Notify) && Permits(s, false, e.retried)
    ensures GoodStep(e, l, ReleaseAndNotify(e, l, s, w))
  {
    if Ensured(l, e.id).Granted? {
      LaunchIsGood(e, l, Unlocked, Notify, s, w);
    }
  }

  lemma NotifyingIsGood(e: Entry, l: Lock, w: World, s: EntryState, when: When)
    requires Sound(e, l) && Consistent(l) && HelperOf(e.state) == Some(Notify) && LockNeedOf(e.state) == Lacks
    requires HelperOf(s) == None && when != NoTime && s != StartSavingCert && LockNeedOf(s) in {Lacks, Either} && s != Invalid
    ensures GoodStep(e, l, Await(e, l, Notify, w, Finish(e, l, Notify, s, when)))
  {
    PollIsGood(e, l, w);
    FinishIsGood(e, l, l, Notify, s, when);
  }

  lemma NotifyingSaveFailedIsGood(e: Entry, l: Lock, w: World)
    requires Sound(e, l) && Consistent(l) && e.state == NotifyingIssuedSaveFailed
    ensures GoodStep(e, l, StepNotify(e, l, w))
  {
    PollIsGood(e, l, w);
    FinishIsGood(e.(retried := true), l, l, Notify, StartSavingCert, Soonish);
  }

  lemma ToNotifyIsGood(e: Entry, l: Lock, w: World)
    requires Sound(e, l) && Consistent(l)
    requires e.state in {NeedToNotifyIssuedSaveFailed, NeedToNotifyIssuedCaSaveFailed,
                         NeedToNotifyOnlyCaSaveFailed, NeedToNotifyIssuedSaved}
    ensures GoodStep(e, l, StepNotify(e, l, w))
  {
    ReleaseIsGood(e, l, NotificationOf(e.state), w);
  }

  lemma NotifyIsGood(e: Entry, l: Lock, w: World)
    requires Sound(e, l) && Consistent(l) && WorkOf(e.state) == NotifyWork
    ensures GoodStep(e, l, StepNotify(e, l, w))
  {
    match e.state
    case NotifyingRejection => NotifyingIsGood(e, l, w, CaRejected, Soon);
    case NotifyingIssuedSaveFailed => NotifyingSaveFailedIsGood(e, l, w);
    case NotifyingIssuedCaSaveFailed => NotifyingIsGood(e, l, w, NeedToSaveCaCerts, Soonish);
    case NotifyingOnlyCaSaveFailed => NotifyingIsGood(e, l, w, Monitoring, Soonish);
    case NotifyingIssuedSaved => NotifyingIsGood(e, l, w, Monitoring, Soon);
    case NeedToNotifyRejection => LaunchIsGood(e, l, l, Notify, NotifyingRejection, w);
    case _ => ToNotifyIsGood(e, l, w);
  }

  lemma ClaimIsGood(e: Entry, l: Lock, s: EntryState)
    requires Sound(e, l) && Consistent(l) && e.live == {} && s in {StartSavingCaCerts, StartSavingOnlyCaCerts}
    ensures match Ensured(l, e.id)
            case Abort => false
            case Refused => GoodStep(e, l, Stay(e, l, Soon))
            case Granted(l1) => GoodStep(e, l, Move(e, l1, s, Now))
  {
    if Ensured(l, e.id).Granted? {
      MoveIsGood(e, l, Ensured(l, e.id).lock, s, Now);
    }
  }

  lemma SavingOnlyIsGood(e: Entry, l: Lock, w: World)
    requires Sound(e, l) && Consistent(l) && e.state == SavingOnlyCaCerts
    ensures GoodStep(e, l, StepSaveCaCerts(e, l, w))
  {
    PollIsGood(e, l, w);
    match w.outcome
    case Success => FinishIsGood(e, l, Unlocked, Casave, Monitoring, Now);
    case LackPerms => FinishIsGood(e, l, Unlocked, Casave, NeedOnlyCaCertSavePerms, Now);
    case _ => FinishIsGood(e, l, l, Casave, NeedToNotifyOnlyCaSaveFailed, Soonish);
  }

  lemma SavingCaIsGood(e: Entry, l: Lock, w: World)
    requires Sound(e, l) && Consistent(l) && e.state == SavingCaCerts
    ensures GoodStep(e, l, StepSaveCaCerts(e, l, w))
  {
    PollIsGood(e, l, w);
    match w.outcome
    case Success => FinishIsGood(e, l, l, Casave, NeedToReadCert, Now);
    case LackPerms => FinishIsGood(e, l, l, Casave, NeedCaCertSavePerms, Now);
    case _ => FinishIsGood(e, l, l, Casave, NeedToNotifyIssuedCaSaveFailed, Soonish);
  }

  lemma SaveCaCertsIsGood(e: Entry, l: Lock, w: World)
    requires Sound(e, l) && Consistent(l) && WorkOf(e.state) == SaveCaCertsWork
    ensures GoodStep(e, l, StepSaveCaCerts(e, l, w))
  {
    match e.state
    case NeedToSaveCaCerts => ClaimIsGood(e, l, StartSavingCaCerts);
    case StartSavingCaCerts => LaunchIsGood(e, l, l, Casave, SavingCaCerts, w);
    case SavingCaCerts => SavingCaIsGood(e, l, w);
    case NeedToSaveOnlyCaCerts => ClaimIsGood(e, l, StartSavingOnlyCaCerts);
    case StartSavingOnlyCaCerts => LaunchIsGood(e, l, l, Casave, SavingOnlyCaCerts, w);
    case SavingOnlyCaCerts =>
      SavingOnlyIsGood(e, l, w);
    case _ =>
  }

  lemma LookingForKeyIsGood(e: Entry, l: Lock, w: World)
    requires Sound(e, l) && Consistent(l) && e.state == NewlyAddedReadingKeyinfo
    ensures GoodStep(e, l, StepNewlyAdded(e, l, w))
  {
    hide WaitsForOperator;
    PollIsGood(e, l, w);
    match w.outcome
    case LackToken => FinishIsGood(e, l, Unlocked, Keyiread, NewlyAddedNeedKeyinfoReadToken, Now);
    case LackPin => FinishIsGood(e, l, Unlocked, Keyiread, NewlyAddedNeedKeyinfoReadPin, Now);
    case _ => FinishIsGood(e, l, l, Keyiread, NewlyAddedStartReadingCert, Now);
  }

  lemma AddedIsGood(e: Entry, l: Lock, w: World)
    requires Sound(e, l) && Consistent(l) && e.state == NewlyAdded
    ensures GoodStep(e, l, StepNewlyAdded(e, l, w))
  {
    if LockByEntry(l, e.id).Granted? {
      var l1 := LockByEntry(l, e.id).lock;
      MoveIsGood(e, l, l1, if e.keyLocation then NewlyAddedStartReadingKeyinfo else NewlyAddedStartReadingCert, Now);
    }
  }

  lemma LookingForCertIsGood(e: Entry, l: Lock, w: World)
    requires Sound(e, l) && Consistent(l) && e.state == NewlyAddedReadingCert
    ensures GoodStep(e, l, StepNewlyAdded(e, l, w))
  {
    PollIsGood(e, l, w);
    FinishIsGood(Reread(e, w), l, l, Certread, NewlyAddedDeciding, Now);
  }

  lemma DecidingIsGood(e: Entry, l: Lock, w: World)
    requires Sound(e, l) && Consistent(l) && e.state == NewlyAddedDeciding
    ensures GoodStep(e, l, StepNewlyAdded(e, l, w))
  {
    var e1 := e.(caName := if e.caName == None then w.chosenCa else e.caName);
    MoveIsGood(e1, l, Unlocked, Decision(e, w), Now);
  }

  lemma NewlyAddedIsGood(e: Entry, l: Lock, w: World)
    requires Sound(e, l) && Consistent(l) && WorkOf(e.state) == NewlyAddedWork
    ensures GoodStep(e, l, StepNewlyAdded(e, l, w))
  {
    match e.state
    case NewlyAdded => AddedIsGood(e, l, w);
    case NewlyAddedStartReadingKeyinfo => LaunchIsGood(e, l, l, Keyiread, NewlyAddedReadingKeyinfo, w);
    case NewlyAddedReadingKeyinfo =>
      LookingForKeyIsGood(e, l, w);
    case NewlyAddedStartReadingCert => LaunchIsGood(e, l, l, Certread, NewlyAddedReadingCert, w);
    case NewlyAddedReadingCert => LookingForCertIsGood(e, l, w);
    case NewlyAddedDeciding => DecidingIsGood(e, l, w);
    case _ =>
  }

  lemma StepIsGood(cfg: Config, e: Entry, l: Lock, w: World)
    requires Sound(e, l) && Consistent(l)
    ensures GoodStep(e, l, StepEntry(cfg, e, l, w))
  {
    match WorkOf(e.state)
    case NoWork =>
    case KeyPairWork => KeyPairIsGood(e, l, w);
    case KeyinfoWork => KeyinfoIsGood(e, l, w);
    case CsrWork => CsrIsGood(e, l, w);
    case ScepWork => ScepIsGood(e, l, w);
    case SubmitWork => SubmitIsGood(cfg, e, l, w);
    case SaveCertWork => SaveCertIsGood(e, l, w);
    case ReadCertWork => ReadCertIsGood(e, l, w);
    case MonitorWork => MonitorIsGood(cfg, e, l, w);
    case NotifyWork => NotifyIsGood(e, l, w);
    case SaveCaCertsWork => SaveCaCertsIsGood(e, l, w);
    case NewlyAddedWork => NewlyAddedIsGood(e, l, w);
  }
}
