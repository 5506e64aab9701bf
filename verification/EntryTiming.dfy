/**
 When an entry is looked at again: while a helper runs, when one cannot be started,
 while another has the lock, after an answer, and when the CA is to be asked again.
 */
module EntryTiming {
  import opened Wrappers
  import opened EntryStates
  import opened WritingLock
  import opened Expiry
  import opened EntrySteps
  import opened EntrySafety
  import opened Daemon
  import opened Progress
  import opened EntrySchedule

  // The look finds a helper still running: nothing changes, and the entry waits for its
  // descriptor, or is looked at again soon if it has none.
  predicate IsWaitedFor(e: Entry, l: Lock, w: World, st: Step) {
    && st.entry == e && st.lock == l && st.fault == NoFault
    && st.watchFd == w.pollable && st.when == if w.pollable then NoTime else Soon
  }

  lemma KeyPairIsWaitedFor(cfg: Config, e: Entry, l: Lock, w: World)
    requires WorkOf(e.state) == KeyPairWork && HelperOf(e.state).Some? && HelperOf(e.state).value in e.live && !w.ready
    ensures IsWaitedFor(e, l, w, StepEntry(cfg, e, l, w))
  {
    hide StepEntry;
    StepsKeyPair(cfg, e, l, w);
  }

  lemma KeyinfoIsWaitedFor(cfg: Config, e: Entry, l: Lock, w: World)
    requires WorkOf(e.state) == KeyinfoWork && HelperOf(e.state).Some? && HelperOf(e.state).value in e.live && !w.ready
    ensures IsWaitedFor(e, l, w, StepEntry(cfg, e, l, w))
  {
    hide StepEntry;
    StepsKeyinfo(cfg, e, l, w);
  }

  lemma CsrIsWaitedFor(cfg: Config, e: Entry, l: Lock, w: World)
    requires WorkOf(e.state) == CsrWork && HelperOf(e.state).Some? && HelperOf(e.state).value in e.live && !w.ready
    ensures IsWaitedFor(e, l, w, StepEntry(cfg, e, l, w))
  {
    hide StepEntry;
    StepsCsr(cfg, e, l, w);
  }

  lemma ScepIsWaitedFor(cfg: Config, e: Entry, l: Lock, w: World)
    requires WorkOf(e.state) == ScepWork && HelperOf(e.state).Some? && HelperOf(e.state).value in e.live && !w.ready
    ensures IsWaitedFor(e, l, w, StepEntry(cfg, e, l, w))
  {
    hide StepEntry;
    StepsScep(cfg, e, l, w);
  }

  lemma SubmitIsWaitedFor(cfg: Config, e: Entry, l: Lock, w: World)
    requires WorkOf(e.state) == SubmitWork && HelperOf(e.state).Some? && HelperOf(e.state).value in e.live && !w.ready
    ensures IsWaitedFor(e, l, w, StepEntry(cfg, e, l, w))
  {
    hide StepEntry;
    StepsSubmit(cfg, e, l, w);
  }

  lemma SaveCertIsWaitedFor(cfg: Config, e: Entry, l: Lock, w: World)
    requires WorkOf(e.state) == SaveCertWork && HelperOf(e.state).Some? && HelperOf(e.state).value in e.live && !w.ready
    ensures IsWaitedFor(e, l, w, StepEntry(cfg, e, l, w))
  {
    hide StepEntry;
    StepsSaveCert(cfg, e, l, w);
  }

  lemma ReadCertIsWaitedFor(cfg: Config, e: Entry, l: Lock, w: World)
    requires WorkOf(e.state) == ReadCertWork && HelperOf(e.state).Some? && HelperOf(e.state).value in e.live && !w.ready
    ensures IsWaitedFor(e, l, w, StepEntry(cfg, e, l, w))
  {
    hide StepEntry;
    StepsReadCert(cfg, e, l, w);
  }

  lemma MonitorIsWaitedFor(cfg: Config, e: Entry, l: Lock, w: World)
    requires WorkOf(e.state) == MonitorWork && HelperOf(e.state).Some? && HelperOf(e.state).value in e.live && !w.ready
    ensures IsWaitedFor(e, l, w, StepEntry(cfg, e, l, w))
  {
    hide StepEntry;
    StepsMonitor(cfg, e, l, w);
  }

  lemma NotifyIsWaitedFor(cfg: Config, e: Entry, l: Lock, w: World)
    requires WorkOf(e.state) == NotifyWork && HelperOf(e.state).Some? && HelperOf(e.state).value in e.live && !w.ready
    ensures IsWaitedFor(e, l, w, StepEntry(cfg, e, l, w))
  {
    hide StepEntry;
    StepsNotify(cfg, e, l, w);
  }

  lemma SaveCaCertsIsWaitedFor(cfg: Config, e: Entry, l: Lock, w: World)
    requires WorkOf(e.state) == SaveCaCertsWork && HelperOf(e.state).Some? && HelperOf(e.state).value in e.live && !w.ready
    ensures IsWaitedFor(e, l, w, StepEntry(cfg, e, l, w))
  {
    hide StepEntry;
    StepsSaveCaCerts(cfg, e, l, w);
  }

  lemma NewlyAddedIsWaitedFor(cfg: Config, e: Entry, l: Lock, w: World)
    requires WorkOf(e.state) == NewlyAddedWork && HelperOf(e.state).Some? && HelperOf(e.state).value in e.live && !w.ready
    ensures IsWaitedFor(e, l, w, StepEntry(cfg, e, l, w))
  {
    hide StepEntry;
    StepsNewlyAdded(cfg, e, l, w);
  }

  lemma HelpersHaveWork(s: EntryState)
    requires HelperOf(s).Some?
    ensures WorkOf(s) != NoWork
  {
  }

  lemma RunningIsWaitedFor(cfg: Config, e: Entry, l: Lock, w: World)
    requires HelperOf(e.state).Some? && HelperOf(e.state).value in e.live && !w.ready
    ensures IsWaitedFor(e, l, w, StepEntry(cfg, e, l, w))
  {
    hide StepEntry, WorkOf, HelperOf, IsWaitedFor;
    HelpersHaveWork(e.state);
    match WorkOf(e.state)
    case KeyPairWork => KeyPairIsWaitedFor(cfg, e, l, w);
    case KeyinfoWork => KeyinfoIsWaitedFor(cfg, e, l, w);
    case CsrWork => CsrIsWaitedFor(cfg, e, l, w);
    case ScepWork => ScepIsWaitedFor(cfg, e, l, w);
    case SubmitWork => SubmitIsWaitedFor(cfg, e, l, w);
    case SaveCertWork => SaveCertIsWaitedFor(cfg, e, l, w);
    case ReadCertWork => ReadCertIsWaitedFor(cfg, e, l, w);
    case MonitorWork => MonitorIsWaitedFor(cfg, e, l, w);
    case NotifyWork => NotifyIsWaitedFor(cfg, e, l, w);
    case SaveCaCertsWork => SaveCaCertsIsWaitedFor(cfg, e, l, w);
    case NewlyAddedWork => NewlyAddedIsWaitedFor(cfg, e, l, w);
  }

  // Whether the entry cannot go on without a helper which is started now.
  predicate WantsHelper(s: EntryState) {
    match s
    case NeedKeyinfo | NeedCsr | NeedScepData | StartSavingCert | StartSavingCaCerts | StartSavingOnlyCaCerts
      | NeedToNotifyValidity | NeedToNotifyRejection
      | NewlyAddedStartReadingKeyinfo | NewlyAddedStartReadingCert => true
    case _ => false
  }

  // A helper which is due is started, or the entry is left as it is and looked at again
  // somewhat later.
  lemma StartingHelper(cfg: Config, e: Entry, l: Lock, w: World)
    requires WantsHelper(e.state)
    ensures StartsOrWaits(e, l, w, StepEntry(cfg, e, l, w))
  {
    hide StartsOrWaits, StepEntry, FollowsSchedule, StepKeyinfo, StepCsr, StepScep, StepSaveCert, StepMonitor,
         StepNotify, StepSaveCaCerts, StepNewlyAdded;
    match e.state
    case NeedKeyinfo =>
      StepsKeyinfo(cfg, e, l, w);
      KeyireadStarts(e, l, w);
    case NeedCsr =>
      StepsCsr(cfg, e, l, w);
      CsrgenStarts(e, l, w);
    case NeedScepData =>
      StepsScep(cfg, e, l, w);
      ScepgenStarts(e, l, w);
    case StartSavingCert =>
      StepsSaveCert(cfg, e, l, w);
      CertsaveStarts(e, l, w);
    case StartSavingCaCerts =>
      StepsSaveCaCerts(cfg, e, l, w);
      CasaveStarts(e, l, w);
    case StartSavingOnlyCaCerts =>
      StepsSaveCaCerts(cfg, e, l, w);
      OnlyCasaveStarts(e, l, w);
    case NeedToNotifyValidity =>
      StepsMonitor(cfg, e, l, w);
      NoticeStarts(cfg, e, l, w);
    case NeedToNotifyRejection =>
      StepsNotify(cfg, e, l, w);
      RejectionStarts(e, l, w);
    case NewlyAddedStartReadingKeyinfo =>
      StepsNewlyAdded(cfg, e, l, w);
      AddedKeyireadStarts(e, l, w);
    case _ =>
      StepsNewlyAdded(cfg, e, l, w);
      AddedCertreadStarts(e, l, w);
  }

  // While another has the lock it needs, nothing changes and the entry comes back soon.
  lemma LockIsWaitedFor(cfg: Config, e: Entry, l: Lock, w: World)
    requires Blocked(e, l)
    ensures StepEntry(cfg, e, l, w) == Stay(e, l, Soon)
  {
    match e.state
    case NeedKeyPair => StepsKeyPair(cfg, e, l, w);
    case NeedToSaveCert => StepsSaveCert(cfg, e, l, w);
    case NeedToReadCert => StepsReadCert(cfg, e, l, w);
    case NewlyAdded => StepsNewlyAdded(cfg, e, l, w);
    case NeedToSaveCaCerts | NeedToSaveOnlyCaCerts => StepsSaveCaCerts(cfg, e, l, w);
    case _ => StepsNotify(cfg, e, l, w);
  }

  // After an answer: at once, if the helper succeeded, was a hook, or only looked at what
  // a new entry has, or if an operator has to be waited for; else somewhat later.
  // Submissions and notices have their own times.
  predicate IsPrompt(e: Entry, w: World, st: Step) {
    st.when == if w.outcome == Success || HelperOf(e.state) == Some(Hook) || WaitsForOperator(st.entry.state) || LookedFor(e.state)
               then Now else Soonish
  }

  lemma KeygenIsPrompt(cfg: Config, e: Entry, l: Lock, w: World)
    requires e.state == GeneratingKeyPair && Finishes(e, w) && l == Lock(AnEntry(e.id), None)
    ensures IsPrompt(e, w, StepEntry(cfg, e, l, w))
  {
    hide StepEntry, CleanUpKeygen;
    StepsKeyPair(cfg, e, l, w);
  }

  lemma KeyireadIsPrompt(cfg: Config, e: Entry, l: Lock, w: World)
    requires e.state == ReadingKeyinfo && Finishes(e, w)
    ensures IsPrompt(e, w, StepEntry(cfg, e, l, w))
  {
    hide StepEntry;
    StepsKeyinfo(cfg, e, l, w);
  }

  lemma CsrgenIsPrompt(cfg: Config, e: Entry, l: Lock, w: World)
    requires e.state == GeneratingCsr && Finishes(e, w)
    ensures IsPrompt(e, w, StepEntry(cfg, e, l, w))
  {
    hide StepEntry;
    StepsCsr(cfg, e, l, w);
  }

  lemma ScepgenIsPrompt(cfg: Config, e: Entry, l: Lock, w: World)
    requires e.state == GeneratingScepData && Finishes(e, w)
    ensures IsPrompt(e, w, StepEntry(cfg, e, l, w))
  {
    hide StepEntry;
    StepsScep(cfg, e, l, w);
  }

  lemma PreSaveIsPrompt(cfg: Config, e: Entry, l: Lock, w: World)
    requires e.state == PreSaveCert && Finishes(e, w)
    ensures IsPrompt(e, w, StepEntry(cfg, e, l, w))
  {
    hide StepEntry;
    StepsSaveCert(cfg, e, l, w);
  }

  lemma CertsaveIsPrompt(cfg: Config, e: Entry, l: Lock, w: World)
    requires e.state == SavingCert && Finishes(e, w)
    ensures IsPrompt(e, w, StepEntry(cfg, e, l, w))
  {
    hide StepEntry, StepSaveCert, WaitsForOperator, LookedFor;
    StepsSaveCert(cfg, e, l, w);
    CertsaveGoes(e, l, w);
    var st := StepSaveCert(e, l, w);
    if OneOfTheWaits(st.entry.state) {
      WaitsAre(st.entry.state);
    }
    NoticesDoNotWait(st.entry.state);
    SavingIsNotLooking();
  }

  lemma NoticesDoNotWait(s: EntryState)
    ensures s == NeedToNotifyIssuedSaveFailed ==> !WaitsForOperator(s)
  {
  }

  lemma SavingIsNotLooking()
    ensures !LookedFor(SavingCert)
  {
  }

  lemma CasaveIsPrompt(cfg: Config, e: Entry, l: Lock, w: World)
    requires e.state == SavingCaCerts && Finishes(e, w)
    ensures IsPrompt(e, w, StepEntry(cfg, e, l, w))
  {
    hide StepEntry;
    StepsSaveCaCerts(cfg, e, l, w);
  }

  lemma OnlyCasaveIsPrompt(cfg: Config, e: Entry, l: Lock, w: World)
    requires e.state == SavingOnlyCaCerts && Finishes(e, w) && l == Lock(AnEntry(e.id), None)
    ensures IsPrompt(e, w, StepEntry(cfg, e, l, w))
  {
    hide StepEntry;
    StepsSaveCaCerts(cfg, e, l, w);
  }

  lemma CertreadIsPrompt(cfg: Config, e: Entry, l: Lock, w: World)
    requires e.state == ReadingCert && Finishes(e, w) && !(w.outcome == Success && w.hookStarted)
    ensures IsPrompt(e, w, StepEntry(cfg, e, l, w))
  {
    hide StepEntry;
    StepsReadCert(cfg, e, l, w);
  }

  lemma PostSaveIsPrompt(cfg: Config, e: Entry, l: Lock, w: World)
    requires e.state == PostSavedCert && Finishes(e, w)
    ensures IsPrompt(e, w, StepEntry(cfg, e, l, w))
  {
    hide StepEntry;
    StepsReadCert(cfg, e, l, w);
  }

  lemma AddedKeyireadIsPrompt(cfg: Config, e: Entry, l: Lock, w: World)
    requires e.state == NewlyAddedReadingKeyinfo && Finishes(e, w) && l == Lock(AnEntry(e.id), None)
    ensures IsPrompt(e, w, StepEntry(cfg, e, l, w))
  {
    hide StepEntry;
    StepsNewlyAdded(cfg, e, l, w);
  }

  lemma AddedCertreadIsPrompt(cfg: Config, e: Entry, l: Lock, w: World)
    requires e.state == NewlyAddedReadingCert && Finishes(e, w)
    ensures IsPrompt(e, w, StepEntry(cfg, e, l, w))
  {
    hide StepEntry;
    StepsNewlyAdded(cfg, e, l, w);
  }

  lemma AnswerIsPrompt(cfg: Config, e: Entry, l: Lock, w: World)
    requires Sound(e, l) && Consistent(l) && Finishes(e, w)
    requires HelperOf(e.state) != Some(Submit) && HelperOf(e.state) != Some(Notify)
    requires !(e.state == ReadingCert && w.outcome == Success && w.hookStarted)
    ensures IsPrompt(e, w, StepEntry(cfg, e, l, w))
  {
    hide StepEntry, IsPrompt, Finishes;
    match e.state
    case GeneratingKeyPair => KeygenIsPrompt(cfg, e, l, w);
    case ReadingKeyinfo => KeyireadIsPrompt(cfg, e, l, w);
    case GeneratingCsr => CsrgenIsPrompt(cfg, e, l, w);
    case GeneratingScepData => ScepgenIsPrompt(cfg, e, l, w);
    case PreSaveCert => PreSaveIsPrompt(cfg, e, l, w);
    case SavingCert => CertsaveIsPrompt(cfg, e, l, w);
    case SavingCaCerts => CasaveIsPrompt(cfg, e, l, w);
    case SavingOnlyCaCerts => OnlyCasaveIsPrompt(cfg, e, l, w);
    case ReadingCert => CertreadIsPrompt(cfg, e, l, w);
    case PostSavedCert => PostSaveIsPrompt(cfg, e, l, w);
    case NewlyAddedReadingKeyinfo => AddedKeyireadIsPrompt(cfg, e, l, w);
    case NewlyAddedReadingCert => AddedCertreadIsPrompt(cfg, e, l, w);
    case _ => FinishesMeans(e, w);
  }

  // After a submission: later, if the CA is to be asked again or is not configured; at
  // once, if there is something to do about the answer; somewhat later, if all that is left
  // is to start again from a new key or to go on with the certificate there is.
  lemma SubmissionIsPrompt(cfg: Config, e: Entry, l: Lock, w: World)
    requires e.state == Submitting && Finishes(e, w)
    ensures StepEntry(cfg, e, l, w).when ==
              match w.outcome
              case Unreachability | Work => After
              case Unconfiguration => if w.certPresent then Soonish else After
              case Rejection => if w.certPresent then Soonish else Now
              case RekeyRequest => Soonish
              case _ => Now
  {
    hide StepEntry, DelayAfter;
    StepsSubmit(cfg, e, l, w);
  }

  // After a notice: soon, if all is settled by it; somewhat later, if what failed is to be
  // tried again.
  lemma NoticeIsPrompt(cfg: Config, e: Entry, l: Lock, w: World)
    requires Finishes(e, w) && HelperOf(e.state) == Some(Notify) && e.state != NotifyingValidity
    ensures StepEntry(cfg, e, l, w).when ==
              if e.state == NotifyingRejection || e.state == NotifyingIssuedSaved then Soon else Soonish
  {
    hide StepEntry, StepNotify, HelperOf, Finishes;
    NoticesAre(e, w);
    StepsNotify(cfg, e, l, w);
    if e.state == NotifyingRejection || e.state == NotifyingIssuedSaved {
      SettledNotice(e, l, w);
    } else {
      FailureNotice(e, l, w);
    }
  }

  lemma NoticesAre(e: Entry, w: World)
    requires Finishes(e, w) && HelperOf(e.state) == Some(Notify) && e.state != NotifyingValidity
    ensures Notify in e.live && w.ready && WorkOf(e.state) == NotifyWork
    ensures || e.state == NotifyingRejection || e.state == NotifyingIssuedSaved || e.state == NotifyingIssuedSaveFailed
            || e.state == NotifyingIssuedCaSaveFailed || e.state == NotifyingOnlyCaSaveFailed
  {
  }

  lemma SettledNotice(e: Entry, l: Lock, w: World)
    requires (e.state == NotifyingRejection || e.state == NotifyingIssuedSaved) && Notify in e.live && w.ready
    ensures StepNotify(e, l, w).when == Soon
  {
    hide ReleaseAndNotify;
  }

  lemma FailureNotice(e: Entry, l: Lock, w: World)
    requires e.state == NotifyingIssuedSaveFailed || e.state == NotifyingIssuedCaSaveFailed || e.state == NotifyingOnlyCaSaveFailed
    requires Notify in e.live && w.ready
    ensures StepNotify(e, l, w).when == Soonish
  {
    hide ReleaseAndNotify;
  }

  // The hook before saving is run first, with the lock in hand; without one the save
  // comes at once.
  lemma HookComesFirst(cfg: Config, e: Entry, l: Lock, w: World)
    requires e.state == NeedToSaveCert && l == Unlocked
    ensures var st := StepEntry(cfg, e, l, w);
            && st.lock == Lock(AnEntry(e.id), None)
            && (if w.started then st.entry.live == e.live + {Hook} && IsWaitedFor(st.entry, st.lock, w, st)
                else st.entry.state == StartSavingCert && st.when == Now)
  {
    hide StepEntry;
    StepsSaveCert(cfg, e, l, w);
  }

  predicate GoesOn(e: Entry, l: Lock, st: Step) {
    st.when == Now && st.lock == l && st.entry.live == e.live && Due(st.entry) == Due(e) && st.entry.state != e.state
  }

  lemma KeyPairGoesOn(cfg: Config, e: Entry, l: Lock, w: World)
    requires e.state == HaveKeyPair
    ensures GoesOn(e, l, StepEntry(cfg, e, l, w))
  {
    hide StepEntry;
    StepsKeyPair(cfg, e, l, w);
  }

  lemma KeyinfoGoesOn(cfg: Config, e: Entry, l: Lock, w: World)
    requires e.state == HaveKeyinfo
    ensures GoesOn(e, l, StepEntry(cfg, e, l, w))
  {
    hide StepEntry;
    StepsKeyinfo(cfg, e, l, w);
  }

  lemma CsrGoesOn(cfg: Config, e: Entry, l: Lock, w: World)
    requires e.state == HaveCsr
    ensures GoesOn(e, l, StepEntry(cfg, e, l, w))
  {
    hide StepEntry;
    StepsCsr(cfg, e, l, w);
  }

  lemma ScepGoesOn(cfg: Config, e: Entry, l: Lock, w: World)
    requires e.state == HaveScepData
    ensures GoesOn(e, l, StepEntry(cfg, e, l, w))
  {
    hide StepEntry;
    StepsScep(cfg, e, l, w);
  }

  lemma SavedGoesOn(cfg: Config, e: Entry, l: Lock, w: World)
    requires e.state == SavedCert
    ensures GoesOn(e, l, StepEntry(cfg, e, l, w))
  {
    hide StepEntry;
    StepsSaveCert(cfg, e, l, w);
  }

  // Where there is neither a helper to wait for nor one to start the entry goes on at once.
  lemma GoesOnAtOnce(cfg: Config, e: Entry, l: Lock, w: World)
    requires e.state == HaveKeyPair || e.state == HaveKeyinfo || e.state == HaveCsr || e.state == HaveScepData || e.state == SavedCert
    ensures GoesOn(e, l, StepEntry(cfg, e, l, w))
  {
    hide StepEntry, GoesOn;
    match e.state
    case HaveKeyPair => KeyPairGoesOn(cfg, e, l, w);
    case HaveKeyinfo => KeyinfoGoesOn(cfg, e, l, w);
    case HaveCsr => CsrGoesOn(cfg, e, l, w);
    case HaveScepData => ScepGoesOn(cfg, e, l, w);
    case _ => SavedGoesOn(cfg, e, l, w);
  }

  // The delay the daemon chooses itself when a CA is to be asked again: half of what is
  // left of the certificate, within the limits, or the usual delay if there is none or
  // much is left of it.
  predicate OwnDelay(cfg: Config, notAfter: int, now: int, delay: int) {
    var left := if notAfter != 0 then notAfter - now else -1;
    if left == -1 || left >= 2 * cfg.caPoll then delay == cfg.caPoll
    else
      var half := if left >= 0 then left / 2 else -(-left / 2);
      var atLeast := if half < cfg.caMin then cfg.caMin else half;
      delay == if atLeast > cfg.caMax then cfg.caMax else atLeast
  }

  lemma OwnDelayIs(cfg: Config, e: Entry, now: int)
    ensures OwnDelay(cfg, e.watch.notAfter, now, CaDelay(cfg, Remaining(e, now)))
  {
  }

  // A CA which cannot be reached, or is still working, is asked again: after the delay
  // it asked for, or one of our own, the entry is looked at, and looked at again, and
  // then the request is submitted once more.
  lemma AskedAgain(cfg: Config, s: System, i: nat, w: World, w1: World, w2: World)
    requires i < |s.slots| && s.slots[i].entry.state == Submitting && Submit in s.slots[i].entry.live && w.ready
    requires (w.outcome == Unreachability || w.outcome == Work) && w2.started
    ensures var e := s.slots[i].entry;
            var r := ServiceEntry(cfg, s, i, w);
            && r.slots[i].event.Timer?
            && (if w.specifiedDelay >= 0 then r.slots[i].event == Timer(w.specifiedDelay)
                else OwnDelay(cfg, e.watch.notAfter, w.now, r.slots[i].event.seconds))
            && r.slots[i].entry.live == e.live - {Submit}
            && var r1 := ServiceEntry(cfg, r, i, w1);
               && r1.slots[i].event == Timer(if w.outcome == Work then 0 else cfg.soonish)
               && ServiceEntry(cfg, r1, i, w2).slots[i].entry.state == Submitting
               && Submit in ServiceEntry(cfg, r1, i, w2).slots[i].entry.live
  {
    hide StepEntry, OwnDelay, CaDelay;
    var e := s.slots[i].entry;
    var st := StepEntry(cfg, e, s.lock, w);
    Unanswered(cfg, e, s.lock, w);
    OwnDelayIs(cfg, e, w.now);
    var r := ServiceEntry(cfg, s, i, w);
    BackToSubmit(cfg, r.slots[i].entry, r.lock, w1);
    var r1 := ServiceEntry(cfg, r, i, w1);
    SubmitsAgain(cfg, r1.slots[i].entry, r1.lock, w2);
  }

  lemma Unanswered(cfg: Config, e: Entry, l: Lock, w: World)
    requires e.state == Submitting && Submit in e.live && w.ready && (w.outcome == Unreachability || w.outcome == Work)
    ensures var st := StepEntry(cfg, e, l, w);
            && st.entry == e.(state := if w.outcome == Work then CaWorking else CaUnreachable, live := e.live - {Submit})
            && st.when == After
            && st.delay == if w.specifiedDelay >= 0 then w.specifiedDelay else CaDelay(cfg, Remaining(e, w.now))
  {
    hide StepEntry, CaDelay;
    StepsSubmit(cfg, e, l, w);
  }

  lemma BackToSubmit(cfg: Config, e: Entry, l: Lock, w: World)
    requires e.state == CaUnreachable || e.state == CaWorking
    ensures var st := StepEntry(cfg, e, l, w);
            st.entry == e.(state := NeedToSubmit) && st.when == if e.state == CaWorking then Now else Soonish
  {
    hide StepEntry;
    StepsSubmit(cfg, e, l, w);
  }

  lemma SubmitsAgain(cfg: Config, e: Entry, l: Lock, w: World)
    requires e.state == NeedToSubmit && w.started
    ensures var st := StepEntry(cfg, e, l, w); st.entry.state == Submitting && Submit in st.entry.live
  {
    hide StepEntry;
    StepsSubmit(cfg, e, l, w);
  }
}
