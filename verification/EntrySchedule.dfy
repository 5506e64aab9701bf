/**
 Which helper an entry runs next, told from the helpers which are started and from
 what they answer: what follows each answer, what waits for an operator, and what
 stopping and starting an entry makes it do again.
 */
module EntrySchedule {
  import opened Wrappers
  import opened EntryStates
  import opened WritingLock
  import opened Expiry
  import opened EntrySteps
  import opened EntrySafety
  import opened KeyUse
  import opened Daemon

  // The helper which runs in a state, or comes next if it does not run yet; hooks apart.
  function DueIn(s: EntryState, keyLocation: bool): Option<Helper> {
    match s
    case NeedKeyPair | GeneratingKeyPair => Some(Keygen)
    case HaveKeyPair | NeedKeyinfo | ReadingKeyinfo => Some(Keyiread)
    case HaveKeyinfo | NeedCsr | GeneratingCsr => Some(Csrgen)
    case NeedScepData | GeneratingScepData => Some(Scepgen)
    case HaveCsr | HaveScepData | NeedToSubmit | Submitting | CaUnreachable | CaWorking => Some(Submit)
    case NeedToSaveCert | PreSaveCert | StartSavingCert | SavingCert => Some(Certsave)
    case SavedCert | NeedToSaveCaCerts | StartSavingCaCerts | SavingCaCerts
      | NeedToSaveOnlyCaCerts | StartSavingOnlyCaCerts | SavingOnlyCaCerts => Some(Casave)
    case NeedToReadCert | ReadingCert => Some(Certread)
    case PostSavedCert | NeedToNotifyIssuedSaved | NotifyingIssuedSaved
      | NeedToNotifyValidity | NotifyingValidity | NeedToNotifyRejection | NotifyingRejection
      | NeedToNotifyIssuedSaveFailed | NotifyingIssuedSaveFailed
      | NeedToNotifyIssuedCaSaveFailed | NotifyingIssuedCaSaveFailed
      | NeedToNotifyOnlyCaSaveFailed | NotifyingOnlyCaSaveFailed => Some(Notify)
    case NewlyAdded => Some(if keyLocation then Keyiread else Certread)
    case NewlyAddedStartReadingKeyinfo | NewlyAddedReadingKeyinfo => Some(Keyiread)
    case NewlyAddedStartReadingCert | NewlyAddedReadingCert => Some(Certread)
    case _ => None
  }

  function Due(e: Entry): Option<Helper> {
    DueIn(e.state, e.keyLocation)
  }

  // The look finds that the helper of the state has finished.
  predicate Finishes(e: Entry, w: World) {
    HelperOf(e.state).Some? && HelperOf(e.state).value in e.live && w.ready
  }

  // The looks which decide what to do next without a helper having finished.
  predicate Decides(e: Entry, w: World) {
    e.state == Monitoring || e.state == NewlyAddedDeciding || (e.state == NeedToSubmit && !w.started && !w.caKnown)
  }

  // A look starts no other helper than the one which is due, or a hook; and unless a
  // helper other than the hook before saving has finished, the same stays due.
  predicate FollowsSchedule(e: Entry, w: World, e1: Entry) {
    && e1.keyLocation == e.keyLocation
    && (forall h :: h in e1.live && h !in e.live ==> h == Hook || Due(e) == Some(h))
    && ((!Finishes(e, w) || HelperOf(e.state) == Some(Hook)) && !Decides(e, w) ==> Due(e1) == Due(e))
  }

  lemma StartsDue(e: Entry, w: World, st: Step, h: Helper, s: EntryState)
    requires st.entry == e.(state := s, live := e.live + {h}) || st.entry == e
    requires DueIn(e.state, e.keyLocation) == Some(h) == DueIn(s, e.keyLocation)
    ensures FollowsSchedule(e, w, st.entry)
  {
    hide DueIn, Finishes, Decides, HelperOf;
  }

  lemma MovesOn(e: Entry, w: World, e1: Entry)
    requires e1.live <= e.live && e1.keyLocation == e.keyLocation
    requires Due(e1) == Due(e) || (Finishes(e, w) && HelperOf(e.state) != Some(Hook)) || Decides(e, w)
    ensures FollowsSchedule(e, w, e1)
  {
    hide DueIn, Finishes, Decides, HelperOf;
  }

  // A helper which is due was started, or the entry was left as it is, to be looked at
  // again somewhat later.
  predicate StartsOrWaits(e: Entry, l: Lock, w: World, st: Step) {
    if w.started then
      && Due(e).Some? && st.entry.live == e.live + {Due(e).value} && HelperOf(st.entry.state) == Due(e)
      && st.lock == l && (if w.pollable then st.watchFd else st.when == Soon)
    else st == Stay(e, l, Soonish)
  }

  lemma LaunchStarts(e: Entry, l: Lock, h: Helper, s: EntryState, w: World)
    requires Due(e) == Some(h) == HelperOf(s)
    ensures StartsOrWaits(e, l, w, Launch(e, l, h, s, w))
  {
    hide DueIn, HelperOf;
  }

  // State by state: a helper is awaited or started, or the entry moves on.

  lemma KeygenStarts(e: Entry, l: Lock, w: World)
    requires e.state == NeedKeyPair
    ensures FollowsSchedule(e, w, StepKeyPair(e, l, w).entry)
  {
    hide FollowsSchedule, StartsOrWaits, Finishes, Decides;
    StartsDue(e, w, StepKeyPair(e, l, w), Keygen, GeneratingKeyPair);
  }

  lemma KeygenAwaits(e: Entry, l: Lock, w: World)
    requires e.state == GeneratingKeyPair
    ensures FollowsSchedule(e, w, StepKeyPair(e, l, w).entry)
  {
    hide FollowsSchedule, DueIn, Decides, CleanUpKeygen, AfterKeygen;
    MovesOn(e, w, StepKeyPair(e, l, w).entry);
  }

  lemma KeyPairMoves(e: Entry, l: Lock, w: World)
    requires e.state == HaveKeyPair
    ensures FollowsSchedule(e, w, StepKeyPair(e, l, w).entry)
  {
    hide FollowsSchedule, Finishes, Decides;
    MovesOn(e, w, StepKeyPair(e, l, w).entry);
  }

  lemma KeyPairFollowsSchedule(e: Entry, l: Lock, w: World)
    requires WorkOf(e.state) == KeyPairWork
    ensures FollowsSchedule(e, w, StepKeyPair(e, l, w).entry)
  {
    hide FollowsSchedule, StepKeyPair;
    match e.state
    case NeedKeyPair => KeygenStarts(e, l, w);
    case GeneratingKeyPair => KeygenAwaits(e, l, w);
    case _ => KeyPairMoves(e, l, w);
  }

  lemma KeyireadStarts(e: Entry, l: Lock, w: World)
    requires e.state == NeedKeyinfo
    ensures FollowsSchedule(e, w, StepKeyinfo(e, l, w).entry)
    ensures StartsOrWaits(e, l, w, StepKeyinfo(e, l, w))
  {
    hide FollowsSchedule, StartsOrWaits, Finishes, Decides;
    StartsDue(e, w, StepKeyinfo(e, l, w), Keyiread, ReadingKeyinfo);
    LaunchStarts(e, l, Keyiread, ReadingKeyinfo, w);
  }

  lemma KeyireadAwaits(e: Entry, l: Lock, w: World)
    requires e.state == ReadingKeyinfo
    ensures FollowsSchedule(e, w, StepKeyinfo(e, l, w).entry)
  {
    hide FollowsSchedule, DueIn, Decides;
    MovesOn(e, w, StepKeyinfo(e, l, w).entry);
  }

  lemma KeyinfoMoves(e: Entry, l: Lock, w: World)
    requires e.state == HaveKeyinfo
    ensures FollowsSchedule(e, w, StepKeyinfo(e, l, w).entry)
  {
    hide FollowsSchedule, Finishes, Decides;
    MovesOn(e, w, StepKeyinfo(e, l, w).entry);
  }

  lemma KeyinfoFollowsSchedule(e: Entry, l: Lock, w: World)
    requires WorkOf(e.state) == KeyinfoWork
    ensures FollowsSchedule(e, w, StepKeyinfo(e, l, w).entry)
  {
    hide FollowsSchedule, StepKeyinfo;
    match e.state
    case NeedKeyinfo => KeyireadStarts(e, l, w);
    case ReadingKeyinfo => KeyireadAwaits(e, l, w);
    case _ => KeyinfoMoves(e, l, w);
  }

  lemma CsrgenStarts(e: Entry, l: Lock, w: World)
    requires e.state == NeedCsr
    ensures FollowsSchedule(e, w, StepCsr(e, l, w).entry)
    ensures StartsOrWaits(e, l, w, StepCsr(e, l, w))
  {
    hide FollowsSchedule, StartsOrWaits, Finishes, Decides;
    StartsDue(e, w, StepCsr(e, l, w), Csrgen, GeneratingCsr);
    LaunchStarts(e, l, Csrgen, GeneratingCsr, w);
  }

  lemma CsrgenAwaits(e: Entry, l: Lock, w: World)
    requires e.state == GeneratingCsr
    ensures FollowsSchedule(e, w, StepCsr(e, l, w).entry)
  {
    hide FollowsSchedule, DueIn, Decides;
    MovesOn(e, w, StepCsr(e, l, w).entry);
  }

  lemma CsrMoves(e: Entry, l: Lock, w: World)
    requires e.state == HaveCsr
    ensures FollowsSchedule(e, w, StepCsr(e, l, w).entry)
  {
    hide FollowsSchedule, Finishes, Decides;
    MovesOn(e, w, StepCsr(e, l, w).entry);
  }

  lemma CsrFollowsSchedule(e: Entry, l: Lock, w: World)
    requires WorkOf(e.state) == CsrWork
    ensures FollowsSchedule(e, w, StepCsr(e, l, w).entry)
  {
    hide FollowsSchedule, StepCsr;
    match e.state
    case NeedCsr => CsrgenStarts(e, l, w);
    case GeneratingCsr => CsrgenAwaits(e, l, w);
    case _ => CsrMoves(e, l, w);
  }

  lemma ScepgenStarts(e: Entry, l: Lock, w: World)
    requires e.state == NeedScepData
    ensures FollowsSchedule(e, w, StepScep(e, l, w).entry)
    ensures StartsOrWaits(e, l, w, StepScep(e, l, w))
  {
    hide FollowsSchedule, StartsOrWaits, Finishes, Decides;
    StartsDue(e, w, StepScep(e, l, w), Scepgen, GeneratingScepData);
    LaunchStarts(e, l, Scepgen, GeneratingScepData, w);
  }

  lemma ScepgenAwaits(e: Entry, l: Lock, w: World)
    requires e.state == GeneratingScepData
    ensures FollowsSchedule(e, w, StepScep(e, l, w).entry)
  {
    hide FollowsSchedule, DueIn, Decides;
    MovesOn(e, w, StepScep(e, l, w).entry);
  }

  lemma ScepMoves(e: Entry, l: Lock, w: World)
    requires e.state == HaveScepData
    ensures FollowsSchedule(e, w, StepScep(e, l, w).entry)
  {
    hide FollowsSchedule, Finishes, Decides;
    MovesOn(e, w, StepScep(e, l, w).entry);
  }

  lemma ScepFollowsSchedule(e: Entry, l: Lock, w: World)
    requires WorkOf(e.state) == ScepWork
    ensures FollowsSchedule(e, w, StepScep(e, l, w).entry)
  {
    hide FollowsSchedule, StepScep;
    match e.state
    case NeedScepData => ScepgenStarts(e, l, w);
    case GeneratingScepData => ScepgenAwaits(e, l, w);
    case _ => ScepMoves(e, l, w);
  }

  lemma SubmitStarts(cfg: Config, e: Entry, l: Lock, w: World)
    requires e.state == NeedToSubmit
    ensures FollowsSchedule(e, w, StepSubmit(cfg, e, l, w).entry)
  {
    hide FollowsSchedule, Finishes;
    var st := StepSubmit(cfg, e, l, w);
    if w.started {
      StartsDue(e, w, st, Submit, Submitting);
    } else {
      MovesOn(e, w, st.entry);
    }
  }

  lemma SubmitAwaits(cfg: Config, e: Entry, l: Lock, w: World)
    requires e.state == Submitting
    ensures FollowsSchedule(e, w, StepSubmit(cfg, e, l, w).entry)
  {
    hide FollowsSchedule, DueIn, Decides, AfterSubmission, AppointmentAfter, DelayAfter;
    MovesOn(e, w, StepSubmit(cfg, e, l, w).entry);
  }

  lemma ResubmissionMoves(cfg: Config, e: Entry, l: Lock, w: World)
    requires e.state == CaUnreachable || e.state == CaWorking
    ensures FollowsSchedule(e, w, StepSubmit(cfg, e, l, w).entry)
  {
    hide FollowsSchedule, Finishes, Decides;
    MovesOn(e, w, StepSubmit(cfg, e, l, w).entry);
  }

  lemma SubmitFollowsSchedule(cfg: Config, e: Entry, l: Lock, w: World)
    requires WorkOf(e.state) == SubmitWork
    ensures FollowsSchedule(e, w, StepSubmit(cfg, e, l, w).entry)
  {
    hide FollowsSchedule, StepSubmit;
    match e.state
    case NeedToSubmit => SubmitStarts(cfg, e, l, w);
    case Submitting => SubmitAwaits(cfg, e, l, w);
    case _ => ResubmissionMoves(cfg, e, l, w);
  }

  lemma HookStarts(e: Entry, w: World, e1: Entry, s: EntryState)
    requires e1.live == e.live + {Hook} && e1.state == s && e1.keyLocation == e.keyLocation
    requires DueIn(s, e.keyLocation) == Due(e)
    ensures FollowsSchedule(e, w, e1)
  {
    hide DueIn, Finishes, Decides, HelperOf;
  }

  lemma PreSaveStarts(e: Entry, l: Lock, w: World)
    requires e.state == NeedToSaveCert
    ensures FollowsSchedule(e, w, StepSaveCert(e, l, w).entry)
  {
    hide FollowsSchedule, Finishes, Decides;
    var st := StepSaveCert(e, l, w);
    if LockByEntry(l, e.id).Granted? && w.started {
      HookStarts(e, w, st.entry, PreSaveCert);
    } else {
      MovesOn(e, w, st.entry);
    }
  }

  lemma PreSaveMoves(e: Entry, l: Lock, w: World)
    requires e.state == PreSaveCert
    ensures FollowsSchedule(e, w, StepSaveCert(e, l, w).entry)
  {
    hide FollowsSchedule, Finishes, Decides;
    MovesOn(e, w, StepSaveCert(e, l, w).entry);
  }

  lemma CertsaveStarts(e: Entry, l: Lock, w: World)
    requires e.state == StartSavingCert
    ensures FollowsSchedule(e, w, StepSaveCert(e, l, w).entry)
    ensures StartsOrWaits(e, l, w, StepSaveCert(e, l, w))
  {
    hide FollowsSchedule, StartsOrWaits, Finishes, Decides;
    StartsDue(e, w, StepSaveCert(e, l, w), Certsave, SavingCert);
    LaunchStarts(e, l, Certsave, SavingCert, w);
  }

  lemma CertsaveAwaits(e: Entry, l: Lock, w: World)
    requires e.state == SavingCert
    ensures FollowsSchedule(e, w, StepSaveCert(e, l, w).entry)
  {
    hide FollowsSchedule, DueIn, Decides, PromoteKey;
    MovesOn(e, w, StepSaveCert(e, l, w).entry);
  }

  lemma SavedMoves(e: Entry, l: Lock, w: World)
    requires e.state == SavedCert
    ensures FollowsSchedule(e, w, StepSaveCert(e, l, w).entry)
  {
    hide FollowsSchedule, Finishes, Decides;
    MovesOn(e, w, StepSaveCert(e, l, w).entry);
  }

  lemma SaveCertFollowsSchedule(e: Entry, l: Lock, w: World)
    requires WorkOf(e.state) == SaveCertWork
    ensures FollowsSchedule(e, w, StepSaveCert(e, l, w).entry)
  {
    hide FollowsSchedule, StepSaveCert;
    match e.state
    case NeedToSaveCert => PreSaveStarts(e, l, w);
    case PreSaveCert => PreSaveMoves(e, l, w);
    case StartSavingCert => CertsaveStarts(e, l, w);
    case SavingCert => CertsaveAwaits(e, l, w);
    case _ => SavedMoves(e, l, w);
  }

  lemma CertreadStarts(e: Entry, l: Lock, w: World)
    requires e.state == NeedToReadCert
    ensures FollowsSchedule(e, w, StepReadCert(e, l, w).entry)
  {
    hide FollowsSchedule, StartsOrWaits, Finishes, Decides;
    StartsDue(e, w, StepReadCert(e, l, w), Certread, ReadingCert);
  }

  lemma CertreadAwaits(e: Entry, l: Lock, w: World)
    requires e.state == ReadingCert
    ensures FollowsSchedule(e, w, StepReadCert(e, l, w).entry)
  {
    hide DueIn, Decides;
  }

  lemma PostSaveMoves(e: Entry, l: Lock, w: World)
    requires e.state == PostSavedCert
    ensures FollowsSchedule(e, w, StepReadCert(e, l, w).entry)
  {
    hide FollowsSchedule, Finishes, Decides;
    MovesOn(e, w, StepReadCert(e, l, w).entry);
  }

  lemma ReadCertFollowsSchedule(e: Entry, l: Lock, w: World)
    requires WorkOf(e.state) == ReadCertWork
    ensures FollowsSchedule(e, w, StepReadCert(e, l, w).entry)
  {
    hide FollowsSchedule, StepReadCert;
    match e.state
    case NeedToReadCert => CertreadStarts(e, l, w);
    case ReadingCert => CertreadAwaits(e, l, w);
    case _ => PostSaveMoves(e, l, w);
  }

  lemma LookMoves(cfg: Config, e: Entry, l: Lock, w: World)
    requires e.state == Monitoring
    ensures FollowsSchedule(e, w, StepMonitor(cfg, e, l, w).entry)
  {
    hide FollowsSchedule, DueIn, Finishes, NotifyDue, EnrollDue, MonitorDelay, LookedAt, RekeyExpected, Remaining;
    MovesOn(e, w, StepMonitor(cfg, e, l, w).entry);
  }

  lemma NoticeStarts(cfg: Config, e: Entry, l: Lock, w: World)
    requires e.state == NeedToNotifyValidity
    ensures FollowsSchedule(e, w, StepMonitor(cfg, e, l, w).entry)
    ensures StartsOrWaits(e, l, w, StepMonitor(cfg, e, l, w))
  {
    hide FollowsSchedule, StartsOrWaits, Finishes, Decides;
    StartsDue(e, w, StepMonitor(cfg, e, l, w), Notify, NotifyingValidity);
    LaunchStarts(e, l, Notify, NotifyingValidity, w);
  }

  lemma NoticeAwaits(cfg: Config, e: Entry, l: Lock, w: World)
    requires e.state == NotifyingValidity
    ensures FollowsSchedule(e, w, StepMonitor(cfg, e, l, w).entry)
  {
    hide FollowsSchedule, DueIn, Decides, NotifyDue, EnrollDue, MonitorDelay, LookedAt, RekeyExpected, Remaining;
    MovesOn(e, w, StepMonitor(cfg, e, l, w).entry);
  }

  lemma MonitorFollowsSchedule(cfg: Config, e: Entry, l: Lock, w: World)
    requires WorkOf(e.state) == MonitorWork
    ensures FollowsSchedule(e, w, StepMonitor(cfg, e, l, w).entry)
  {
    hide FollowsSchedule, StepMonitor;
    match e.state
    case Monitoring => LookMoves(cfg, e, l, w);
    case NeedToNotifyValidity => NoticeStarts(cfg, e, l, w);
    case _ => NoticeAwaits(cfg, e, l, w);
  }

  lemma ReleaseFollowsSchedule(e: Entry, l: Lock, s: EntryState, w: World)
    requires Due(e) == Some(Notify) == DueIn(s, e.keyLocation)
    ensures FollowsSchedule(e, w, ReleaseAndNotify(e, l, s, w).entry)
  {
    hide FollowsSchedule, DueIn;
    StartsDue(e, w, ReleaseAndNotify(e, l, s, w), Notify, s);
  }

  lemma ReleaseStarts(e: Entry, l: Lock, w: World)
    requires e.state == NeedToNotifyIssuedSaveFailed || e.state == NeedToNotifyIssuedCaSaveFailed
          || e.state == NeedToNotifyOnlyCaSaveFailed || e.state == NeedToNotifyIssuedSaved
    ensures FollowsSchedule(e, w, StepNotify(e, l, w).entry)
  {
    hide FollowsSchedule, ReleaseAndNotify, Finishes, Decides;
    ReleaseFollowsSchedule(e, l, NotificationOf(e.state), w);
  }

  lemma RejectionStarts(e: Entry, l: Lock, w: World)
    requires e.state == NeedToNotifyRejection
    ensures FollowsSchedule(e, w, StepNotify(e, l, w).entry)
    ensures StartsOrWaits(e, l, w, StepNotify(e, l, w))
  {
    hide FollowsSchedule, StartsOrWaits, Finishes, Decides, ReleaseAndNotify;
    StartsDue(e, w, StepNotify(e, l, w), Notify, NotifyingRejection);
    LaunchStarts(e, l, Notify, NotifyingRejection, w);
  }

  lemma RejectionNoticeAwaits(e: Entry, l: Lock, w: World)
    requires e.state == NotifyingRejection
    ensures FollowsSchedule(e, w, StepNotify(e, l, w).entry)
  {
    hide FollowsSchedule, DueIn, Decides, ReleaseAndNotify;
    MovesOn(e, w, StepNotify(e, l, w).entry);
  }

  lemma SaveFailedNoticeAwaits(e: Entry, l: Lock, w: World)
    requires e.state == NotifyingIssuedSaveFailed
    ensures FollowsSchedule(e, w, StepNotify(e, l, w).entry)
  {
    hide FollowsSchedule, DueIn, Decides, ReleaseAndNotify;
    MovesOn(e, w, StepNotify(e, l, w).entry);
  }

  lemma SavedNoticeAwaits(e: Entry, l: Lock, w: World)
    requires e.state == NotifyingIssuedSaved
    ensures FollowsSchedule(e, w, StepNotify(e, l, w).entry)
  {
    hide FollowsSchedule, DueIn, Decides, ReleaseAndNotify;
    MovesOn(e, w, StepNotify(e, l, w).entry);
  }

  lemma CaSaveFailedNoticeAwaits(e: Entry, l: Lock, w: World)
    requires e.state == NotifyingIssuedCaSaveFailed
    ensures FollowsSchedule(e, w, StepNotify(e, l, w).entry)
  {
    hide FollowsSchedule, DueIn, Decides, ReleaseAndNotify;
    MovesOn(e, w, StepNotify(e, l, w).entry);
  }

  lemma OnlyCaSaveFailedNoticeAwaits(e: Entry, l: Lock, w: World)
    requires e.state == NotifyingOnlyCaSaveFailed
    ensures FollowsSchedule(e, w, StepNotify(e, l, w).entry)
  {
    hide FollowsSchedule, DueIn, Decides, ReleaseAndNotify;
    MovesOn(e, w, StepNotify(e, l, w).entry);
  }

  lemma NotifyFollowsSchedule(e: Entry, l: Lock, w: World)
    requires WorkOf(e.state) == NotifyWork
    ensures FollowsSchedule(e, w, StepNotify(e, l, w).entry)
  {
    hide FollowsSchedule, StepNotify;
    match e.state
    case NeedToNotifyRejection => RejectionStarts(e, l, w);
    case NotifyingRejection => RejectionNoticeAwaits(e, l, w);
    case NotifyingIssuedSaveFailed => SaveFailedNoticeAwaits(e, l, w);
    case NotifyingIssuedSaved => SavedNoticeAwaits(e, l, w);
    case NotifyingIssuedCaSaveFailed => CaSaveFailedNoticeAwaits(e, l, w);
    case NotifyingOnlyCaSaveFailed => OnlyCaSaveFailedNoticeAwaits(e, l, w);
    case _ => ReleaseStarts(e, l, w);
  }

  lemma CaClaimMoves(e: Entry, l: Lock, w: World)
    requires e.state == NeedToSaveCaCerts
    ensures FollowsSchedule(e, w, StepSaveCaCerts(e, l, w).entry)
  {
    hide FollowsSchedule, Finishes, Decides, Ensured;
    MovesOn(e, w, StepSaveCaCerts(e, l, w).entry);
  }

  lemma OnlyCaClaimMoves(e: Entry, l: Lock, w: World)
    requires e.state == NeedToSaveOnlyCaCerts
    ensures FollowsSchedule(e, w, StepSaveCaCerts(e, l, w).entry)
  {
    hide FollowsSchedule, Finishes, Decides, Ensured;
    MovesOn(e, w, StepSaveCaCerts(e, l, w).entry);
  }

  lemma CasaveStarts(e: Entry, l: Lock, w: World)
    requires e.state == StartSavingCaCerts
    ensures FollowsSchedule(e, w, StepSaveCaCerts(e, l, w).entry)
    ensures StartsOrWaits(e, l, w, StepSaveCaCerts(e, l, w))
  {
    hide FollowsSchedule, StartsOrWaits, Finishes, Decides;
    StartsDue(e, w, StepSaveCaCerts(e, l, w), Casave, SavingCaCerts);
    LaunchStarts(e, l, Casave, SavingCaCerts, w);
  }

  lemma OnlyCasaveStarts(e: Entry, l: Lock, w: World)
    requires e.state == StartSavingOnlyCaCerts
    ensures FollowsSchedule(e, w, StepSaveCaCerts(e, l, w).entry)
    ensures StartsOrWaits(e, l, w, StepSaveCaCerts(e, l, w))
  {
    hide FollowsSchedule, StartsOrWaits, Finishes, Decides;
    StartsDue(e, w, StepSaveCaCerts(e, l, w), Casave, SavingOnlyCaCerts);
    LaunchStarts(e, l, Casave, SavingOnlyCaCerts, w);
  }

  lemma CasaveAwaits(e: Entry, l: Lock, w: World)
    requires e.state == SavingCaCerts
    ensures FollowsSchedule(e, w, StepSaveCaCerts(e, l, w).entry)
  {
    hide FollowsSchedule, DueIn, Decides;
    MovesOn(e, w, StepSaveCaCerts(e, l, w).entry);
  }

  lemma OnlyCasaveAwaits(e: Entry, l: Lock, w: World)
    requires e.state == SavingOnlyCaCerts
    ensures FollowsSchedule(e, w, StepSaveCaCerts(e, l, w).entry)
  {
    hide FollowsSchedule, DueIn, Decides, UnlockByEntry;
    MovesOn(e, w, StepSaveCaCerts(e, l, w).entry);
  }

  lemma SaveCaCertsFollowsSchedule(e: Entry, l: Lock, w: World)
    requires WorkOf(e.state) == SaveCaCertsWork
    ensures FollowsSchedule(e, w, StepSaveCaCerts(e, l, w).entry)
  {
    hide FollowsSchedule, StepSaveCaCerts;
    match e.state
    case NeedToSaveCaCerts => CaClaimMoves(e, l, w);
    case NeedToSaveOnlyCaCerts => OnlyCaClaimMoves(e, l, w);
    case StartSavingCaCerts => CasaveStarts(e, l, w);
    case StartSavingOnlyCaCerts => OnlyCasaveStarts(e, l, w);
    case SavingCaCerts => CasaveAwaits(e, l, w);
    case _ => OnlyCasaveAwaits(e, l, w);
  }

  lemma AddedMoves(e: Entry, l: Lock, w: World)
    requires e.state == NewlyAdded
    ensures FollowsSchedule(e, w, StepNewlyAdded(e, l, w).entry)
  {
    hide FollowsSchedule, Finishes, Decides, DueIn, StepNewlyAdded;
    AddedMovesTo(e, l, w);
    AddedIsDue(e.keyLocation);
    MovesOn(e, w, StepNewlyAdded(e, l, w).entry);
  }

  lemma AddedMovesTo(e: Entry, l: Lock, w: World)
    requires e.state == NewlyAdded
    ensures var e1 := StepNewlyAdded(e, l, w).entry;
            e1 == e || e1 == e.(state := if e.keyLocation then NewlyAddedStartReadingKeyinfo else NewlyAddedStartReadingCert)
  {
    hide LockByEntry;
  }

  lemma AddedIsDue(keyLocation: bool)
    ensures DueIn(NewlyAdded, keyLocation) ==
              DueIn(if keyLocation then NewlyAddedStartReadingKeyinfo else NewlyAddedStartReadingCert, keyLocation)
  {
  }

  lemma AddedKeyireadStarts(e: Entry, l: Lock, w: World)
    requires e.state == NewlyAddedStartReadingKeyinfo
    ensures FollowsSchedule(e, w, StepNewlyAdded(e, l, w).entry)
    ensures StartsOrWaits(e, l, w, StepNewlyAdded(e, l, w))
  {
    hide FollowsSchedule, StartsOrWaits, Finishes, Decides;
    StartsDue(e, w, StepNewlyAdded(e, l, w), Keyiread, NewlyAddedReadingKeyinfo);
    LaunchStarts(e, l, Keyiread, NewlyAddedReadingKeyinfo, w);
  }

  lemma AddedCertreadStarts(e: Entry, l: Lock, w: World)
    requires e.state == NewlyAddedStartReadingCert
    ensures FollowsSchedule(e, w, StepNewlyAdded(e, l, w).entry)
    ensures StartsOrWaits(e, l, w, StepNewlyAdded(e, l, w))
  {
    hide FollowsSchedule, StartsOrWaits, Finishes, Decides;
    StartsDue(e, w, StepNewlyAdded(e, l, w), Certread, NewlyAddedReadingCert);
    LaunchStarts(e, l, Certread, NewlyAddedReadingCert, w);
  }

  lemma AddedKeyireadAwaits(e: Entry, l: Lock, w: World)
    requires e.state == NewlyAddedReadingKeyinfo
    ensures FollowsSchedule(e, w, StepNewlyAdded(e, l, w).entry)
  {
    hide FollowsSchedule, DueIn, Decides, UnlockByEntry;
    MovesOn(e, w, StepNewlyAdded(e, l, w).entry);
  }

  lemma AddedCertreadAwaits(e: Entry, l: Lock, w: World)
    requires e.state == NewlyAddedReadingCert
    ensures FollowsSchedule(e, w, StepNewlyAdded(e, l, w).entry)
  {
    hide FollowsSchedule, DueIn, Decides;
    MovesOn(e, w, StepNewlyAdded(e, l, w).entry);
  }

  lemma DecidingMoves(e: Entry, l: Lock, w: World)
    requires e.state == NewlyAddedDeciding
    ensures FollowsSchedule(e, w, StepNewlyAdded(e, l, w).entry)
  {
    hide FollowsSchedule, DueIn, Finishes, Decision, UnlockByEntry;
    MovesOn(e, w, StepNewlyAdded(e, l, w).entry);
  }

  lemma NewlyAddedFollowsSchedule(e: Entry, l: Lock, w: World)
    requires WorkOf(e.state) == NewlyAddedWork
    ensures FollowsSchedule(e, w, StepNewlyAdded(e, l, w).entry)
  {
    hide FollowsSchedule, StepNewlyAdded;
    match e.state
    case NewlyAdded => AddedMoves(e, l, w);
    case NewlyAddedStartReadingKeyinfo => AddedKeyireadStarts(e, l, w);
    case NewlyAddedReadingKeyinfo => AddedKeyireadAwaits(e, l, w);
    case NewlyAddedStartReadingCert => AddedCertreadStarts(e, l, w);
    case NewlyAddedReadingCert => AddedCertreadAwaits(e, l, w);
    case _ => DecidingMoves(e, l, w);
  }

  lemma StepFollowsSchedule(cfg: Config, e: Entry, l: Lock, w: World)
    ensures FollowsSchedule(e, w, StepEntry(cfg, e, l, w).entry)
  {
    match WorkOf(e.state)
    case NoWork =>
    case KeyPairWork => KeyPairFollowsSchedule(e, l, w);
    case KeyinfoWork => KeyinfoFollowsSchedule(e, l, w);
    case CsrWork => CsrFollowsSchedule(e, l, w);
    case ScepWork => ScepFollowsSchedule(e, l, w);
    case SubmitWork => SubmitFollowsSchedule(cfg, e, l, w);
    case SaveCertWork => SaveCertFollowsSchedule(e, l, w);
    case ReadCertWork => ReadCertFollowsSchedule(e, l, w);
    case MonitorWork => MonitorFollowsSchedule(cfg, e, l, w);
    case NotifyWork => NotifyFollowsSchedule(e, l, w);
    case SaveCaCertsWork => SaveCaCertsFollowsSchedule(e, l, w);
    case NewlyAddedWork => NewlyAddedFollowsSchedule(e, l, w);
  }

  // Looks in none of which a helper other than the hook before saving has finished, and
  // none of which decides what to do next.
  predicate Quiet(cfg: Config, e: Entry, looks: seq<EntryAction>)
    decreases |looks|
  {
    looks == [] ||
    (&& looks[0].Visit? && (Finishes(e, looks[0].w) ==> HelperOf(e.state) == Some(Hook)) && !Decides(e, looks[0].w)
     && Quiet(cfg, Act(cfg, e, looks[0]), looks[1..]))
  }

  // Over such looks the first helper which is started, hooks apart, is the one which was
  // due, whatever the locks and however often starting fails.
  lemma {:induction false} FirstStartedIsDue(cfg: Config, e: Entry, looks: seq<EntryAction>)
    requires Quiet(cfg, e, looks)
    ensures var r := ActAll(cfg, e, looks);
            Due(r) == Due(e) && forall h :: h in r.live && h !in e.live ==> h == Hook || Due(e) == Some(h)
    decreases |looks|
  {
    hide StepEntry, DueIn, Finishes, Decides;
    if looks != [] {
      StepFollowsSchedule(cfg, e, looks[0].l, looks[0].w);
      FirstStartedIsDue(cfg, Act(cfg, e, looks[0]), looks[1..]);
    }
  }

  // The wait for an operator an answer leads to, if it does.
  function WaitOn(s: EntryState, o: Outcome, certPresent: bool): Option<EntryState> {
    match s
    case GeneratingKeyPair => (
      match o
      case LackPerms => Some(NeedKeyGenPerms)
      case LackToken => Some(NeedKeyGenToken)
      case LackPin => Some(NeedKeyGenPin)
      case _ => None)
    case ReadingKeyinfo => (
      match o
      case LackToken => Some(NeedKeyinfoReadToken)
      case LackPin => Some(NeedKeyinfoReadPin)
      case _ => None)
    case GeneratingCsr => (
      match o
      case LackToken => Some(NeedCsrGenToken)
      case LackPin => Some(NeedCsrGenPin)
      case _ => None)
    case GeneratingScepData => (
      match o
      case LackToken => Some(NeedScepGenToken)
      case LackPin => Some(NeedScepGenPin)
      case LackEncryptionCert => Some(NeedScepEncryptionCert)
      case LackRsaKey => Some(NeedScepRsaClientKey)
      case _ => None)
    case Submitting => (
      match o
      case Unconfiguration => if certPresent then None else Some(CaUnconfigured)
      case Success | Rejection | Unreachability | Work | ScepRequest | RekeyRequest => None
      case _ => Some(NeedGuidance))
    case SavingCert => (
      match o
      case LackPerms => Some(NeedCertsavePerms)
      case LackToken => Some(NeedCertsaveToken)
      case LackPin => Some(NeedCertsavePin)
      case _ => None)
    case SavingCaCerts => if o == LackPerms then Some(NeedCaCertSavePerms) else None
    case SavingOnlyCaCerts => if o == LackPerms then Some(NeedOnlyCaCertSavePerms) else None
    case ReadingCert => if o == Success then None else Some(NeedGuidance)
    case NotifyingRejection => Some(CaRejected)
    case NewlyAddedReadingKeyinfo => (
      match o
      case LackToken => Some(NewlyAddedNeedKeyinfoReadToken)
      case LackPin => Some(NewlyAddedNeedKeyinfoReadPin)
      case _ => None)
    case _ => None
  }

  // A step whose state comes from deciding: the entry is left without a CA, or without
  // anything to go on.
  predicate Stranded(e: Entry, w: World, s: EntryState) {
    || (e.state == NeedToSubmit && !w.started && !w.caKnown && s == NeedCa)
    || (e.state == NewlyAddedDeciding && !w.certPresent && !e.keyLocation && s == NeedGuidance)
  }

  // What a look which finds its helper finished leads to.
  predicate Answered(e: Entry, w: World, st: Step) {
    var d := Due(st.entry);
    var good := w.outcome == Success;
    match WaitOn(e.state, w.outcome, w.certPresent)
    case Some(wait) => st.entry.state == wait
    case None =>
      match e.state
      case GeneratingKeyPair => if good then d == Some(Keyiread) else d == Some(Keygen) && st.when == Soonish
      case ReadingKeyinfo => if good then d == Some(Csrgen) else d == Some(Keygen) && st.when == Soonish
      case GeneratingCsr => if good then d == Some(Submit) else d == Some(Csrgen) && st.when == Soonish
      case GeneratingScepData => if good then d == Some(Submit) else d == Some(Scepgen) && st.when == Soonish
      case Submitting => (
        match w.outcome
        case Success => d == Some(Certsave)
        case Rejection => if w.certPresent then st.entry.state == Monitoring else d == Some(Notify)
        case Unconfiguration => st.entry.state == Monitoring
        case ScepRequest => d == Some(Scepgen)
        case RekeyRequest => d == Some(Keygen)
        case _ => d == Some(Submit) && st.when == After)
      case PreSaveCert => d == Some(Certsave)
      case SavingCert => if good then d == Some(Casave) else d == Some(Notify)
      case SavingCaCerts => if good then d == Some(Certread) else d == Some(Notify)
      case SavingOnlyCaCerts => if good then st.entry.state == Monitoring else d == Some(Notify)
      case ReadingCert | PostSavedCert => d == Some(Notify)
      case NotifyingIssuedSaveFailed => d == Some(Certsave) && st.when == Soonish
      case NotifyingIssuedCaSaveFailed => d == Some(Casave) && st.when == Soonish
      case NotifyingIssuedSaved | NotifyingOnlyCaSaveFailed => st.entry.state == Monitoring
      case NotifyingValidity => st.entry.state in {Monitoring, NeedKeyPair, NeedCsr}
      case NewlyAddedReadingKeyinfo => d == Some(Certread)
      case NewlyAddedReadingCert => st.entry.state == NewlyAddedDeciding
      case _ => true
  }

  lemma OwnerUnlocks(l: Lock, id: nat)
    requires l == Lock(AnEntry(id), None)
    ensures UnlockByEntry(l, id) == Granted(Unlocked)
  {
  }

  // The part of the step function for each kind of work.

  lemma StepsKeyPair(cfg: Config, e: Entry, l: Lock, w: World)
    requires WorkOf(e.state) == KeyPairWork
    ensures StepEntry(cfg, e, l, w) == StepKeyPair(e, l, w)
  {
    hide StepKeyPair, WorkOf;
  }

  lemma StepsKeyinfo(cfg: Config, e: Entry, l: Lock, w: World)
    requires WorkOf(e.state) == KeyinfoWork
    ensures StepEntry(cfg, e, l, w) == StepKeyinfo(e, l, w)
  {
    hide StepKeyinfo, WorkOf;
  }

  lemma StepsCsr(cfg: Config, e: Entry, l: Lock, w: World)
    requires WorkOf(e.state) == CsrWork
    ensures StepEntry(cfg, e, l, w) == StepCsr(e, l, w)
  {
    hide StepCsr, WorkOf;
  }

  lemma StepsScep(cfg: Config, e: Entry, l: Lock, w: World)
    requires WorkOf(e.state) == ScepWork
    ensures StepEntry(cfg, e, l, w) == StepScep(e, l, w)
  {
    hide StepScep, WorkOf;
  }

  lemma StepsSubmit(cfg: Config, e: Entry, l: Lock, w: World)
    requires WorkOf(e.state) == SubmitWork
    ensures StepEntry(cfg, e, l, w) == StepSubmit(cfg, e, l, w)
  {
    hide StepSubmit, WorkOf;
  }

  lemma StepsSaveCert(cfg: Config, e: Entry, l: Lock, w: World)
    requires WorkOf(e.state) == SaveCertWork
    ensures StepEntry(cfg, e, l, w) == StepSaveCert(e, l, w)
  {
    hide StepSaveCert, WorkOf;
  }

  lemma StepsReadCert(cfg: Config, e: Entry, l: Lock, w: World)
    requires WorkOf(e.state) == ReadCertWork
    ensures StepEntry(cfg, e, l, w) == StepReadCert(e, l, w)
  {
    hide StepReadCert, WorkOf;
  }

  lemma StepsMonitor(cfg: Config, e: Entry, l: Lock, w: World)
    requires WorkOf(e.state) == MonitorWork
    ensures StepEntry(cfg, e, l, w) == StepMonitor(cfg, e, l, w)
  {
    hide StepMonitor, WorkOf;
  }

  lemma StepsNotify(cfg: Config, e: Entry, l: Lock, w: World)
    requires WorkOf(e.state) == NotifyWork
    ensures StepEntry(cfg, e, l, w) == StepNotify(e, l, w)
  {
    hide StepNotify, WorkOf;
  }

  lemma StepsSaveCaCerts(cfg: Config, e: Entry, l: Lock, w: World)
    requires WorkOf(e.state) == SaveCaCertsWork
    ensures StepEntry(cfg, e, l, w) == StepSaveCaCerts(e, l, w)
  {
    hide StepSaveCaCerts, WorkOf;
  }

  lemma StepsNewlyAdded(cfg: Config, e: Entry, l: Lock, w: World)
    requires WorkOf(e.state) == NewlyAddedWork
    ensures StepEntry(cfg, e, l, w) == StepNewlyAdded(e, l, w)
  {
    hide StepNewlyAdded, WorkOf;
  }

  lemma KeygenAnswers(cfg: Config, e: Entry, l: Lock, w: World)
    requires e.state == GeneratingKeyPair && Finishes(e, w) && l == Lock(AnEntry(e.id), None)
    ensures Answered(e, w, StepEntry(cfg, e, l, w))
  {
    hide StepEntry, CleanUpKeygen;
    StepsKeyPair(cfg, e, l, w);
  }

  lemma KeyireadAnswers(cfg: Config, e: Entry, l: Lock, w: World)
    requires e.state == ReadingKeyinfo && Finishes(e, w)
    ensures Answered(e, w, StepEntry(cfg, e, l, w))
  {
    hide StepEntry;
    StepsKeyinfo(cfg, e, l, w);
  }

  lemma CsrgenGoes(e: Entry, l: Lock, w: World)
    requires e.state == GeneratingCsr && Finishes(e, w)
    ensures var st := StepCsr(e, l, w);
            st.entry.state == (match w.outcome case Success => HaveCsr case LackToken => NeedCsrGenToken case LackPin => NeedCsrGenPin case _ => NeedCsr) && st.when == if st.entry.state == NeedCsr then Soonish else Now
  {
    hide Reread;
  }

  lemma CsrgenAnswers(cfg: Config, e: Entry, l: Lock, w: World)
    requires e.state == GeneratingCsr && Finishes(e, w)
    ensures Answered(e, w, StepEntry(cfg, e, l, w))
  {
    hide StepEntry, StepCsr, Finishes;
    StepsCsr(cfg, e, l, w);
    CsrgenGoes(e, l, w);
  }

  lemma ScepgenGoes(e: Entry, l: Lock, w: World)
    requires e.state == GeneratingScepData && Finishes(e, w)
    ensures var st := StepScep(e, l, w);
            st.entry.state == (match w.outcome case Success => HaveScepData case LackToken => NeedScepGenToken case LackPin => NeedScepGenPin case LackEncryptionCert => NeedScepEncryptionCert case LackRsaKey => NeedScepRsaClientKey case _ => NeedScepData) && st.when == if st.entry.state == NeedScepData then Soonish else Now
  {
    hide Reread;
  }

  lemma ScepgenAnswers(cfg: Config, e: Entry, l: Lock, w: World)
    requires e.state == GeneratingScepData && Finishes(e, w)
    ensures Answered(e, w, StepEntry(cfg, e, l, w))
  {
    hide StepEntry, StepScep, Finishes;
    StepsScep(cfg, e, l, w);
    ScepgenGoes(e, l, w);
  }

  lemma SubmitAnswers(cfg: Config, e: Entry, l: Lock, w: World)
    requires e.state == Submitting && Finishes(e, w)
    ensures Answered(e, w, StepEntry(cfg, e, l, w))
  {
    hide StepEntry, DelayAfter;
    StepsSubmit(cfg, e, l, w);
  }

  lemma PreSaveAnswers(cfg: Config, e: Entry, l: Lock, w: World)
    requires e.state == PreSaveCert && Finishes(e, w)
    ensures Answered(e, w, StepEntry(cfg, e, l, w))
  {
    hide StepEntry;
    StepsSaveCert(cfg, e, l, w);
  }

  lemma CertsaveGoes(e: Entry, l: Lock, w: World)
    requires e.state == SavingCert && Finishes(e, w)
    ensures var st := StepSaveCert(e, l, w);
            st.entry.state == (match w.outcome case Success => SavedCert case LackPerms => NeedCertsavePerms case LackToken => NeedCertsaveToken case LackPin => NeedCertsavePin case _ => NeedToNotifyIssuedSaveFailed) && st.when == if st.entry.state == NeedToNotifyIssuedSaveFailed then Soonish else Now
  {
    hide Reread, PromoteKey;
  }

  lemma CertsaveAnswers(cfg: Config, e: Entry, l: Lock, w: World)
    requires e.state == SavingCert && Finishes(e, w)
    ensures Answered(e, w, StepEntry(cfg, e, l, w))
  {
    hide StepEntry, StepSaveCert, Finishes;
    StepsSaveCert(cfg, e, l, w);
    CertsaveGoes(e, l, w);
  }

  lemma CasaveGoes(e: Entry, l: Lock, w: World)
    requires e.state == SavingCaCerts && Finishes(e, w)
    ensures var st := StepSaveCaCerts(e, l, w);
            st.entry.state == (match w.outcome case Success => NeedToReadCert case LackPerms => NeedCaCertSavePerms case _ => NeedToNotifyIssuedCaSaveFailed) && st.when == if st.entry.state == NeedToNotifyIssuedCaSaveFailed then Soonish else Now
  {
    hide Reread;
  }

  lemma CasaveAnswers(cfg: Config, e: Entry, l: Lock, w: World)
    requires e.state == SavingCaCerts && Finishes(e, w)
    ensures Answered(e, w, StepEntry(cfg, e, l, w))
  {
    hide StepEntry, StepSaveCaCerts, Finishes;
    StepsSaveCaCerts(cfg, e, l, w);
    CasaveGoes(e, l, w);
  }

  lemma OnlyCasaveGoes(e: Entry, l: Lock, w: World)
    requires e.state == SavingOnlyCaCerts && Finishes(e, w) && l == Lock(AnEntry(e.id), None)
    ensures var st := StepSaveCaCerts(e, l, w);
            st.entry.state == (match w.outcome case Success => Monitoring case LackPerms => NeedOnlyCaCertSavePerms case _ => NeedToNotifyOnlyCaSaveFailed) && st.when == if st.entry.state == NeedToNotifyOnlyCaSaveFailed then Soonish else Now
  {
    hide Reread, UnlockByEntry;
    OwnerUnlocks(l, e.id);
  }

  lemma OnlyCasaveAnswers(cfg: Config, e: Entry, l: Lock, w: World)
    requires e.state == SavingOnlyCaCerts && Finishes(e, w) && l == Lock(AnEntry(e.id), None)
    ensures Answered(e, w, StepEntry(cfg, e, l, w))
  {
    hide StepEntry, StepSaveCaCerts, Finishes;
    StepsSaveCaCerts(cfg, e, l, w);
    OnlyCasaveGoes(e, l, w);
  }

  lemma CertreadGoes(e: Entry, l: Lock, w: World)
    requires e.state == ReadingCert && Finishes(e, w)
    ensures var st := StepReadCert(e, l, w);
            st.entry.state == (if w.outcome != Success then NeedGuidance else if w.hookStarted then PostSavedCert else NeedToNotifyIssuedSaved) && st.when == if st.entry.state != PostSavedCert then Now else if w.pollable then NoTime else Soon
  {
    hide Reread;
  }

  lemma CertreadAnswers(cfg: Config, e: Entry, l: Lock, w: World)
    requires e.state == ReadingCert && Finishes(e, w)
    ensures Answered(e, w, StepEntry(cfg, e, l, w))
  {
    hide StepEntry, StepReadCert, Finishes;
    StepsReadCert(cfg, e, l, w);
    CertreadGoes(e, l, w);
  }

  lemma PostSaveGoes(e: Entry, l: Lock, w: World)
    requires e.state == PostSavedCert && Finishes(e, w)
    ensures var st := StepReadCert(e, l, w);
            st.entry.state == (NeedToNotifyIssuedSaved) && st.when == Now
  {
    hide Reread;
  }

  lemma PostSaveAnswers(cfg: Config, e: Entry, l: Lock, w: World)
    requires e.state == PostSavedCert && Finishes(e, w)
    ensures Answered(e, w, StepEntry(cfg, e, l, w))
  {
    hide StepEntry, StepReadCert, Finishes;
    StepsReadCert(cfg, e, l, w);
    PostSaveGoes(e, l, w);
  }

  lemma RejectionNoticeAnswers(cfg: Config, e: Entry, l: Lock, w: World)
    requires e.state == NotifyingRejection && Finishes(e, w)
    ensures Answered(e, w, StepEntry(cfg, e, l, w))
  {
    hide StepEntry, ReleaseAndNotify;
    StepsNotify(cfg, e, l, w);
  }

  lemma SaveFailedNoticeGoes(e: Entry, l: Lock, w: World)
    requires e.state == NotifyingIssuedSaveFailed && Finishes(e, w)
    ensures StepNotify(e, l, w).entry.state == StartSavingCert && StepNotify(e, l, w).when == Soonish
  {
    hide ReleaseAndNotify;
  }

  lemma SaveFailedNoticeAnswers(cfg: Config, e: Entry, l: Lock, w: World)
    requires e.state == NotifyingIssuedSaveFailed && Finishes(e, w)
    ensures Answered(e, w, StepEntry(cfg, e, l, w))
  {
    hide StepEntry, StepNotify, Finishes;
    StepsNotify(cfg, e, l, w);
    SaveFailedNoticeGoes(e, l, w);
  }

  lemma SavedNoticeAnswers(cfg: Config, e: Entry, l: Lock, w: World)
    requires e.state == NotifyingIssuedSaved && Finishes(e, w)
    ensures Answered(e, w, StepEntry(cfg, e, l, w))
  {
    hide StepEntry, ReleaseAndNotify;
    StepsNotify(cfg, e, l, w);
  }

  lemma CaSaveFailedNoticeGoes(e: Entry, l: Lock, w: World)
    requires e.state == NotifyingIssuedCaSaveFailed && Finishes(e, w)
    ensures StepNotify(e, l, w).entry.state == NeedToSaveCaCerts && StepNotify(e, l, w).when == Soonish
  {
    hide ReleaseAndNotify;
  }

  lemma CaSaveFailedNoticeAnswers(cfg: Config, e: Entry, l: Lock, w: World)
    requires e.state == NotifyingIssuedCaSaveFailed && Finishes(e, w)
    ensures Answered(e, w, StepEntry(cfg, e, l, w))
  {
    hide StepEntry, StepNotify, Finishes;
    StepsNotify(cfg, e, l, w);
    CaSaveFailedNoticeGoes(e, l, w);
  }

  lemma OnlyCaSaveFailedNoticeAnswers(cfg: Config, e: Entry, l: Lock, w: World)
    requires e.state == NotifyingOnlyCaSaveFailed && Finishes(e, w)
    ensures Answered(e, w, StepEntry(cfg, e, l, w))
  {
    hide StepEntry, ReleaseAndNotify;
    StepsNotify(cfg, e, l, w);
  }

  lemma ValidityNoticeAnswers(cfg: Config, e: Entry, l: Lock, w: World)
    requires e.state == NotifyingValidity && Finishes(e, w)
    ensures Answered(e, w, StepEntry(cfg, e, l, w))
  {
    hide StepEntry, EnrollDue, SeenForEnroll, MonitorDelay, RekeyExpected;
    StepsMonitor(cfg, e, l, w);
  }

  lemma AddedKeyLacksGoes(e: Entry, l: Lock, w: World)
    requires e.state == NewlyAddedReadingKeyinfo && Finishes(e, w) && l == Lock(AnEntry(e.id), None) && (w.outcome == LackToken || w.outcome == LackPin)
    ensures var st := StepNewlyAdded(e, l, w);
            st.entry.state == (if w.outcome == LackToken then NewlyAddedNeedKeyinfoReadToken else NewlyAddedNeedKeyinfoReadPin) && st.when == Now
  {
    hide Reread, UnlockByEntry;
    OwnerUnlocks(l, e.id);
  }

  lemma AddedKeyLacksAnswers(cfg: Config, e: Entry, l: Lock, w: World)
    requires e.state == NewlyAddedReadingKeyinfo && Finishes(e, w) && l == Lock(AnEntry(e.id), None) && (w.outcome == LackToken || w.outcome == LackPin)
    ensures Answered(e, w, StepEntry(cfg, e, l, w))
  {
    hide StepEntry, StepNewlyAdded, Finishes, DueIn;
    StepsNewlyAdded(cfg, e, l, w);
    AddedKeyLacksGoes(e, l, w);
  }

  lemma AddedKeyLookedForGoes(e: Entry, l: Lock, w: World)
    requires e.state == NewlyAddedReadingKeyinfo && Finishes(e, w) && w.outcome != LackToken && w.outcome != LackPin
    ensures var st := StepNewlyAdded(e, l, w);
            st.entry.state == (NewlyAddedStartReadingCert) && st.when == Now
  {
    hide Reread;
  }

  lemma AddedKeyLookedForAnswers(cfg: Config, e: Entry, l: Lock, w: World)
    requires e.state == NewlyAddedReadingKeyinfo && Finishes(e, w) && w.outcome != LackToken && w.outcome != LackPin
    ensures Answered(e, w, StepEntry(cfg, e, l, w))
  {
    hide StepEntry, StepNewlyAdded, Finishes, HelperOf;
    StepsNewlyAdded(cfg, e, l, w);
    AddedKeyLookedForGoes(e, l, w);
  }

  lemma AddedCertreadAnswers(cfg: Config, e: Entry, l: Lock, w: World)
    requires e.state == NewlyAddedReadingCert && Finishes(e, w)
    ensures Answered(e, w, StepEntry(cfg, e, l, w))
  {
    hide StepEntry;
    StepsNewlyAdded(cfg, e, l, w);
  }

  // For a sound entry: what is due after every answer of every helper, or waited for.
  lemma AnswersLead(cfg: Config, e: Entry, l: Lock, w: World)
    requires Sound(e, l) && Consistent(l) && Finishes(e, w)
    ensures Answered(e, w, StepEntry(cfg, e, l, w))
  {
    hide StepEntry, Answered, Finishes;
    match e.state
    case GeneratingKeyPair => KeygenAnswers(cfg, e, l, w);
    case ReadingKeyinfo => KeyireadAnswers(cfg, e, l, w);
    case GeneratingCsr => CsrgenAnswers(cfg, e, l, w);
    case GeneratingScepData => ScepgenAnswers(cfg, e, l, w);
    case Submitting => SubmitAnswers(cfg, e, l, w);
    case PreSaveCert => PreSaveAnswers(cfg, e, l, w);
    case SavingCert => CertsaveAnswers(cfg, e, l, w);
    case SavingCaCerts => CasaveAnswers(cfg, e, l, w);
    case SavingOnlyCaCerts => OnlyCasaveAnswers(cfg, e, l, w);
    case ReadingCert => CertreadAnswers(cfg, e, l, w);
    case PostSavedCert => PostSaveAnswers(cfg, e, l, w);
    case NotifyingRejection => RejectionNoticeAnswers(cfg, e, l, w);
    case NotifyingIssuedSaveFailed => SaveFailedNoticeAnswers(cfg, e, l, w);
    case NotifyingIssuedSaved => SavedNoticeAnswers(cfg, e, l, w);
    case NotifyingIssuedCaSaveFailed => CaSaveFailedNoticeAnswers(cfg, e, l, w);
    case NotifyingOnlyCaSaveFailed => OnlyCaSaveFailedNoticeAnswers(cfg, e, l, w);
    case NotifyingValidity => ValidityNoticeAnswers(cfg, e, l, w);
    case NewlyAddedReadingKeyinfo =>
      if w.outcome == LackToken || w.outcome == LackPin {
        AddedKeyLacksAnswers(cfg, e, l, w);
      } else {
        AddedKeyLookedForAnswers(cfg, e, l, w);
      }
    case NewlyAddedReadingCert => AddedCertreadAnswers(cfg, e, l, w);
    case _ => FinishesMeans(e, w);
  }

  lemma FinishesMeans(e: Entry, w: World)
    requires Finishes(e, w)
    ensures HelperOf(e.state).Some?
  {
  }

  lemma DueMeans(e: Entry)
    ensures Due(e) == None <==>
              WaitsForOperator(e.state) || e.state == Monitoring || e.state == NewlyAddedDeciding || e.state == Invalid
  {
  }

  lemma WaitOnMeans(s: EntryState, o: Outcome, certPresent: bool)
    ensures WaitOn(s, o, certPresent).Some? ==> WaitsForOperator(WaitOn(s, o, certPresent).value)
  {
    hide WaitOn, WaitsForOperator;
    WaitOnIsOneOf(s, o, certPresent);
    if WaitOn(s, o, certPresent).Some? {
      WaitsAre(WaitOn(s, o, certPresent).value);
    }
  }

  predicate OneOfTheWaits(s: EntryState) {
    || s == NeedKeyGenPerms || s == NeedKeyGenToken || s == NeedKeyGenPin || s == NeedKeyinfoReadToken || s == NeedKeyinfoReadPin
    || s == NeedCsrGenToken || s == NeedCsrGenPin || s == NeedScepGenToken || s == NeedScepGenPin
    || s == NeedScepEncryptionCert || s == NeedScepRsaClientKey || s == CaUnconfigured || s == NeedGuidance
    || s == NeedCertsavePerms || s == NeedCertsaveToken || s == NeedCertsavePin || s == NeedCaCertSavePerms
    || s == NeedOnlyCaCertSavePerms || s == CaRejected || s == NewlyAddedNeedKeyinfoReadToken || s == NewlyAddedNeedKeyinfoReadPin
  }

  lemma WaitOnIsOneOf(s: EntryState, o: Outcome, certPresent: bool)
    ensures WaitOn(s, o, certPresent).Some? ==> OneOfTheWaits(WaitOn(s, o, certPresent).value)
  {
  }

  lemma WaitsAre(s: EntryState)
    requires OneOfTheWaits(s)
    ensures WaitsForOperator(s)
  {
  }

  // What is decided about an entry which was just added: one which has a certificate
  // is not given another, and a key which is there is not made again.
  lemma AddedGoes(cfg: Config, e: Entry, l: Lock, w: World)
    requires e.state == NewlyAddedDeciding && l == Lock(AnEntry(e.id), None)
    ensures var e1 := StepEntry(cfg, e, l, w).entry;
            && (if w.certPresent then e1.state == if w.caCertsWanted then NeedToSaveOnlyCaCerts else Monitoring
                else if !e.keyLocation then e1.state == NeedGuidance
                else Due(e1) == Some(if w.keyPresent then Csrgen else Keygen))
            && e1.caName == (if e.caName == None then w.chosenCa else e.caName)
            && e1.keys == e.keys && e1.watch == e.watch
  {
    hide StepEntry, UnlockByEntry;
    StepsNewlyAdded(cfg, e, l, w);
    OwnerUnlocks(l, e.id);
  }

  lemma NoCaIsKnown(cfg: Config, e: Entry, l: Lock, w: World)
    requires e.state == NeedToSubmit && !w.started && !w.caKnown
    ensures StepEntry(cfg, e, l, w).entry == e.(state := NeedCa)
  {
    hide StepEntry;
    StepsSubmit(cfg, e, l, w);
  }

  lemma DecidingLeads(cfg: Config, e: Entry, l: Lock, w: World)
    requires Sound(e, l) && Consistent(l) && Decides(e, w)
    ensures var s := StepEntry(cfg, e, l, w).entry.state; WaitsForOperator(s) <==> Stranded(e, w, s)
  {
    hide StepEntry, StepMonitor, HelpersOf, DueIn, WaitsForOperator, RekeyExpected;
    var e1 := StepEntry(cfg, e, l, w).entry;
    DueMeans(e1);
    SomeDoNotWait(e1.state);
    SomeWait(e1.state);
    match e.state
    case Monitoring =>
      StepsMonitor(cfg, e, l, w);
      LookLeads(cfg, e, l, w);
    case NewlyAddedDeciding => AddedGoes(cfg, e, l, w);
    case _ => NoCaIsKnown(cfg, e, l, w);
  }

  lemma SomeWait(s: EntryState)
    ensures s == NeedCa || s == NeedGuidance ==> WaitsForOperator(s)
  {
  }

  lemma SomeDoNotWait(s: EntryState)
    ensures s in {Monitoring, NewlyAddedDeciding, NeedKeyPair, NeedCsr, NeedToNotifyValidity, NeedToSaveOnlyCaCerts} ==>
              !WaitsForOperator(s)
  {
  }

  lemma UndecidedLeads(cfg: Config, e: Entry, l: Lock, w: World)
    requires !WaitsForOperator(e.state) && e.state != Invalid && !Decides(e, w) && !Finishes(e, w)
    ensures var s := StepEntry(cfg, e, l, w).entry.state; !WaitsForOperator(s) && !Stranded(e, w, s)
  {
    hide StepEntry, DueIn, WaitsForOperator, Finishes;
    StepFollowsSchedule(cfg, e, l, w);
    DueMeans(e);
    DueMeans(StepEntry(cfg, e, l, w).entry);
  }

  // An entry comes to wait for an operator exactly if the helper which was running lacks
  // just that, the CA's answer calls for it, or a decision leaves nothing else; which
  // wait it is says who asked for what.
  lemma WaitsExactly(cfg: Config, e: Entry, l: Lock, w: World)
    requires Sound(e, l) && Consistent(l) && !WaitsForOperator(e.state)
    ensures var s := StepEntry(cfg, e, l, w).entry.state;
            WaitsForOperator(s) <==>
              (Finishes(e, w) && WaitOn(e.state, w.outcome, w.certPresent) == Some(s)) || Stranded(e, w, s)
  {
    hide StepEntry, WaitsForOperator, Finishes, Stranded, WaitOn, Answered;
    if Finishes(e, w) {
      FinishedIsWaited(cfg, e, l, w);
    } else if Decides(e, w) {
      DecidingLeads(cfg, e, l, w);
    } else {
      assert e.state != Invalid;
      UndecidedLeads(cfg, e, l, w);
    }
  }

  lemma FinishedIsWaited(cfg: Config, e: Entry, l: Lock, w: World)
    requires Sound(e, l) && Consistent(l) && Finishes(e, w)
    ensures var s := StepEntry(cfg, e, l, w).entry.state;
            !Stranded(e, w, s) && (WaitsForOperator(s) <==> WaitOn(e.state, w.outcome, w.certPresent) == Some(s))
  {
    hide StepEntry, WaitsForOperator, WaitOn, Answered, Sound;
    AnswersLead(cfg, e, l, w);
    AnsweredWaits(e, w, StepEntry(cfg, e, l, w));
  }

  lemma AnsweredWaits(e: Entry, w: World, st: Step)
    requires Answered(e, w, st) && HelperOf(e.state).Some?
    ensures WaitsForOperator(st.entry.state) <==> WaitOn(e.state, w.outcome, w.certPresent) == Some(st.entry.state)
  {
    hide WaitsForOperator, WaitOn, DueIn;
    WaitOnMeans(e.state, w.outcome, w.certPresent);
    DueMeans(st.entry);
    SomeDoNotWait(st.entry.state);
    match e.state
    case GeneratingKeyPair | ReadingKeyinfo | GeneratingCsr | GeneratingScepData =>
    case Submitting => SubmissionWaits(w.outcome, w.certPresent);
    case PreSaveCert | SavingCert | SavingCaCerts | SavingOnlyCaCerts =>
    case ReadingCert | PostSavedCert =>
    case NotifyingRejection => RejectionWaits(w.outcome, w.certPresent);
    case NotifyingIssuedSaveFailed | NotifyingIssuedCaSaveFailed | NotifyingIssuedSaved | NotifyingOnlyCaSaveFailed =>
    case NotifyingValidity | NewlyAddedReadingKeyinfo | NewlyAddedReadingCert =>
    case _ =>
  }

  lemma SubmissionWaits(o: Outcome, certPresent: bool)
    ensures WaitOn(Submitting, o, certPresent) == None <==>
              || o == Success || o == Rejection || o == Unreachability || o == Work || o == ScepRequest || o == RekeyRequest
              || (o == Unconfiguration && certPresent)
  {
  }

  lemma RejectionWaits(o: Outcome, certPresent: bool)
    ensures WaitOn(NotifyingRejection, o, certPresent) == Some(CaRejected)
  {
  }

  // Who asked for what is waited for.
  function AskedBy(s: EntryState): Option<Helper> {
    match s
    case NeedKeyGenPerms | NeedKeyGenPin | NeedKeyGenToken => Some(Keygen)
    case NeedKeyinfoReadPin | NeedKeyinfoReadToken => Some(Keyiread)
    case NeedCsrGenPin | NeedCsrGenToken => Some(Csrgen)
    case NeedScepGenPin | NeedScepGenToken | NeedScepEncryptionCert | NeedScepRsaClientKey => Some(Scepgen)
    case NeedCa | CaUnconfigured => Some(Submit)
    case NeedCertsavePerms | NeedCertsaveToken | NeedCertsavePin => Some(Certsave)
    case NeedCaCertSavePerms | NeedOnlyCaCertSavePerms => Some(Casave)
    case _ => None
  }

  // The entry after it was stopped and started again.
  function Restarted(e: Entry, l: Lock, stop: World, init: World): Entry {
    InitEntry(DoneEntry(e, l, stop).entry, DoneEntry(e, l, stop).lock, init).entry
  }

  predicate LookedFor(s: EntryState) {
    WorkOf(s) == NewlyAddedWork || s == NewlyAddedNeedKeyinfoReadPin || s == NewlyAddedNeedKeyinfoReadToken
  }

  // What is due in the state an entry is put back to twice, which is what stopping and
  // starting it does.
  predicate PutBackRight(s: EntryState, keyLocation: bool) {
    var d := DueIn(Reset(Reset(s)), keyLocation);
    if LookedFor(s) then d == Some(if keyLocation then Keyiread else Certread)
    else if AskedBy(s).Some? then d == AskedBy(s)
    else if s == NeedToNotifyValidity || s == NotifyingValidity then Reset(Reset(s)) == Monitoring
    else d == DueIn(s, keyLocation)
  }

  lemma KeygenPutBack(s: EntryState, keyLocation: bool)
    requires s == GeneratingKeyPair || s == NeedKeyGenPerms || s == NeedKeyGenPin || s == NeedKeyGenToken
    ensures PutBackRight(s, keyLocation)
  {
  }

  lemma KeyireadPutBack(s: EntryState, keyLocation: bool)
    requires s == ReadingKeyinfo || s == NeedKeyinfoReadPin || s == NeedKeyinfoReadToken
    ensures PutBackRight(s, keyLocation)
  {
  }

  lemma CsrgenPutBack(s: EntryState, keyLocation: bool)
    requires s == NeedCsr || s == GeneratingCsr || s == NeedCsrGenPin || s == NeedCsrGenToken
    ensures PutBackRight(s, keyLocation)
  {
  }

  lemma ScepgenPutBack(s: EntryState, keyLocation: bool)
    requires s == GeneratingScepData || s == NeedScepGenPin || s == NeedScepGenToken || s == NeedScepEncryptionCert || s == NeedScepRsaClientKey
    ensures PutBackRight(s, keyLocation)
  {
  }

  lemma SubmitPutBack(s: EntryState, keyLocation: bool)
    requires s == NeedToSubmit || s == Submitting
    ensures PutBackRight(s, keyLocation)
  {
  }

  lemma SubmitWorkPutBack(s: EntryState, keyLocation: bool)
    requires s == CaWorking || s == CaUnreachable
    ensures PutBackRight(s, keyLocation)
  {
  }

  lemma SubmitWaitPutBack(s: EntryState, keyLocation: bool)
    requires s == CaUnconfigured || s == NeedCa
    ensures PutBackRight(s, keyLocation)
  {
  }

  lemma CertsavePutBack(s: EntryState, keyLocation: bool)
    requires s == StartSavingCert || s == PreSaveCert || s == SavingCert
    ensures PutBackRight(s, keyLocation)
  {
  }

  lemma CertsavePermsPutBack(s: EntryState, keyLocation: bool)
    requires s == NeedCertsavePerms
    ensures PutBackRight(s, keyLocation)
  {
  }

  lemma CertsaveWaitPutBack(s: EntryState, keyLocation: bool)
    requires s == NeedCertsaveToken || s == NeedCertsavePin
    ensures PutBackRight(s, keyLocation)
  {
  }

  lemma CasavePutBack(s: EntryState, keyLocation: bool)
    requires s == StartSavingCaCerts || s == SavingCaCerts
    ensures PutBackRight(s, keyLocation)
  {
  }

  lemma CasaveWaitPutBack(s: EntryState, keyLocation: bool)
    requires s == NeedCaCertSavePerms
    ensures PutBackRight(s, keyLocation)
  {
  }

  lemma OnlyCasavePutBack(s: EntryState, keyLocation: bool)
    requires s == StartSavingOnlyCaCerts || s == SavingOnlyCaCerts
    ensures PutBackRight(s, keyLocation)
  {
  }

  lemma OnlyCasaveWaitPutBack(s: EntryState, keyLocation: bool)
    requires s == NeedOnlyCaCertSavePerms
    ensures PutBackRight(s, keyLocation)
  {
  }

  lemma ValidityPutBack(s: EntryState, keyLocation: bool)
    requires s == NeedToNotifyValidity
    ensures PutBackRight(s, keyLocation)
  {
  }

  lemma ValidityNoticePutBack(s: EntryState, keyLocation: bool)
    requires s == NotifyingValidity
    ensures PutBackRight(s, keyLocation)
  {
  }

  lemma CertreadPutBack(s: EntryState, keyLocation: bool)
    requires s == ReadingCert || s == PostSavedCert
    ensures PutBackRight(s, keyLocation)
  {
  }

  lemma NoticePutBack(s: EntryState, keyLocation: bool)
    requires s == NotifyingIssuedSaved
    ensures PutBackRight(s, keyLocation)
  {
  }

  lemma CaSaveFailedNoticePutBack(s: EntryState, keyLocation: bool)
    requires s == NotifyingIssuedCaSaveFailed
    ensures PutBackRight(s, keyLocation)
  {
  }

  lemma RejectionNoticePutBack(s: EntryState, keyLocation: bool)
    requires s == NotifyingRejection
    ensures PutBackRight(s, keyLocation)
  {
  }

  lemma FailureNoticePutBack(s: EntryState, keyLocation: bool)
    requires s == NotifyingIssuedSaveFailed
    ensures PutBackRight(s, keyLocation)
  {
  }

  lemma OnlyCaSaveFailedNoticePutBack(s: EntryState, keyLocation: bool)
    requires s == NotifyingOnlyCaSaveFailed
    ensures PutBackRight(s, keyLocation)
  {
  }

  lemma AddedStartPutBack(s: EntryState, keyLocation: bool)
    requires s == NewlyAddedStartReadingKeyinfo
    ensures PutBackRight(s, keyLocation)
  {
  }

  lemma AddedPutBack(s: EntryState, keyLocation: bool)
    requires s == NewlyAddedReadingKeyinfo
    ensures PutBackRight(s, keyLocation)
  {
  }

  lemma AddedWaitPutBack(s: EntryState, keyLocation: bool)
    requires s == NewlyAddedNeedKeyinfoReadPin || s == NewlyAddedNeedKeyinfoReadToken
    ensures PutBackRight(s, keyLocation)
  {
  }

  lemma AddedCertStartPutBack(s: EntryState, keyLocation: bool)
    requires s == NewlyAddedStartReadingCert
    ensures PutBackRight(s, keyLocation)
  {
  }

  lemma AddedCertPutBack(s: EntryState, keyLocation: bool)
    requires s == NewlyAddedReadingCert
    ensures PutBackRight(s, keyLocation)
  {
  }

  lemma DecidingPutBack(s: EntryState, keyLocation: bool)
    requires s == NewlyAddedDeciding
    ensures PutBackRight(s, keyLocation)
  {
  }

  lemma StaysPut(s: EntryState, keyLocation: bool)
    requires Reset(s) == s
    ensures PutBackRight(s, keyLocation)
  {
    hide DueIn;
    if LookedFor(s) {
      AddedStays(s, keyLocation);
    }
  }

  lemma AddedStays(s: EntryState, keyLocation: bool)
    requires LookedFor(s) && Reset(s) == s
    ensures DueIn(s, keyLocation) == Some(if keyLocation then Keyiread else Certread)
  {
  }

  // The states which are not left as they are.
  predicate IsPutBack(s: EntryState) {
    match s
    case GeneratingKeyPair | NeedKeyGenPerms | NeedKeyGenPin | NeedKeyGenToken
      | ReadingKeyinfo | NeedKeyinfoReadPin | NeedKeyinfoReadToken
      | NeedCsr | GeneratingCsr | NeedCsrGenPin | NeedCsrGenToken
      | GeneratingScepData | NeedScepGenPin | NeedScepGenToken | NeedScepEncryptionCert | NeedScepRsaClientKey
      | NeedToSubmit | Submitting | CaWorking | CaUnreachable | CaUnconfigured | NeedCa
      | StartSavingCert | PreSaveCert | SavingCert | NeedCertsavePerms | NeedCertsaveToken | NeedCertsavePin
      | StartSavingCaCerts | SavingCaCerts | NeedCaCertSavePerms
      | StartSavingOnlyCaCerts | SavingOnlyCaCerts | NeedOnlyCaCertSavePerms
      | NeedToNotifyValidity | NotifyingValidity
      | ReadingCert | PostSavedCert
      | NotifyingIssuedSaved | NotifyingIssuedCaSaveFailed | NotifyingRejection
      | NotifyingIssuedSaveFailed | NotifyingOnlyCaSaveFailed
      | NewlyAddedStartReadingKeyinfo | NewlyAddedReadingKeyinfo | NewlyAddedNeedKeyinfoReadPin | NewlyAddedNeedKeyinfoReadToken
      | NewlyAddedStartReadingCert | NewlyAddedReadingCert | NewlyAddedDeciding => true
    case _ => false
  }

  lemma OthersStay(s: EntryState)
    requires !IsPutBack(s)
    ensures Reset(s) == s
  {
  }

  lemma PutBackMeans(s: EntryState, keyLocation: bool)
    ensures PutBackRight(s, keyLocation)
  {
    hide PutBackRight, Reset;
    if !IsPutBack(s) {
      OthersStay(s);
      StaysPut(s, keyLocation);
    } else {
      MovedPutBack(s, keyLocation);
    }
  }

  lemma MovedPutBack(s: EntryState, keyLocation: bool)
    requires IsPutBack(s)
    ensures PutBackRight(s, keyLocation)
  {
    hide PutBackRight;
    match s
    case GeneratingKeyPair | NeedKeyGenPerms | NeedKeyGenPin | NeedKeyGenToken => KeygenPutBack(s, keyLocation);
    case ReadingKeyinfo | NeedKeyinfoReadPin | NeedKeyinfoReadToken => KeyireadPutBack(s, keyLocation);
    case NeedCsr | GeneratingCsr | NeedCsrGenPin | NeedCsrGenToken => CsrgenPutBack(s, keyLocation);
    case GeneratingScepData | NeedScepGenPin | NeedScepGenToken | NeedScepEncryptionCert | NeedScepRsaClientKey => ScepgenPutBack(s, keyLocation);
    case NeedToSubmit | Submitting => SubmitPutBack(s, keyLocation);
    case CaWorking | CaUnreachable => SubmitWorkPutBack(s, keyLocation);
    case CaUnconfigured | NeedCa => SubmitWaitPutBack(s, keyLocation);
    case StartSavingCert | PreSaveCert | SavingCert => CertsavePutBack(s, keyLocation);
    case NeedCertsavePerms => CertsavePermsPutBack(s, keyLocation);
    case NeedCertsaveToken | NeedCertsavePin => CertsaveWaitPutBack(s, keyLocation);
    case StartSavingCaCerts | SavingCaCerts => CasavePutBack(s, keyLocation);
    case NeedCaCertSavePerms => CasaveWaitPutBack(s, keyLocation);
    case StartSavingOnlyCaCerts | SavingOnlyCaCerts => OnlyCasavePutBack(s, keyLocation);
    case NeedOnlyCaCertSavePerms => OnlyCasaveWaitPutBack(s, keyLocation);
    case NeedToNotifyValidity => ValidityPutBack(s, keyLocation);
    case NotifyingValidity => ValidityNoticePutBack(s, keyLocation);
    case ReadingCert | PostSavedCert => CertreadPutBack(s, keyLocation);
    case NotifyingIssuedSaved => NoticePutBack(s, keyLocation);
    case NotifyingIssuedCaSaveFailed => CaSaveFailedNoticePutBack(s, keyLocation);
    case NotifyingRejection => RejectionNoticePutBack(s, keyLocation);
    case NotifyingIssuedSaveFailed => FailureNoticePutBack(s, keyLocation);
    case NotifyingOnlyCaSaveFailed => OnlyCaSaveFailedNoticePutBack(s, keyLocation);
    case NewlyAddedStartReadingKeyinfo => AddedStartPutBack(s, keyLocation);
    case NewlyAddedReadingKeyinfo => AddedPutBack(s, keyLocation);
    case NewlyAddedNeedKeyinfoReadPin | NewlyAddedNeedKeyinfoReadToken => AddedWaitPutBack(s, keyLocation);
    case NewlyAddedStartReadingCert => AddedCertStartPutBack(s, keyLocation);
    case NewlyAddedReadingCert => AddedCertPutBack(s, keyLocation);
    case _ => DecidingPutBack(s, keyLocation);
  }

  // Stopping and starting an entry makes it do again what it was doing, or what was
  // waiting for an operator; one which was just added is looked for again, and a notice
  // of expiration is decided about again.
  lemma RestartResumes(e: Entry, l: Lock, stop: World, init: World)
    requires e.state != Invalid
    ensures var r := Restarted(e, l, stop, init);
            && r.live == {} && r.started
            && (if LookedFor(e.state) then Due(r) == Some(if e.keyLocation then Keyiread else Certread)
                else if AskedBy(e.state).Some? then Due(r) == AskedBy(e.state)
                else if e.state == NeedToNotifyValidity || e.state == NotifyingValidity then r.state == Monitoring
                else Due(r) == Due(e))
  {
    hide Reset, DueIn, AskedBy, LookedFor, LetGo, CleanUpKeygen;
    PutBackMeans(e.state, e.keyLocation);
    PutBackIsValid(e.state);
  }

  lemma PutBackIsValid(s: EntryState)
    requires s != Invalid
    ensures Reset(s) != Invalid
  {
    ResetNeedsNothing(s);
  }
}
