/**
 The entry as the daemon keeps it: fields which each look at it updates in place,
 together with the writing lock.  Every method is proved to do what the function
 for the same states says, never to call abort(), and never to use a handle which
 is not there; both come from what is true of a sound entry.
 */
module EntryMachine {
  import opened Wrappers
  import opened EntryStates
  import opened WritingLock
  import opened Expiry
  import opened EntrySteps
  import opened EntrySafety
  import opened KeyRecords

  lemma ReleaseMeans(e: Entry, l: Lock, s: EntryState, w: World)
    requires Consistent(l)
    ensures ReleaseAndNotify(e, l, s, w) ==
              if Ensured(l, e.id).Granted? then Launch(e, Unlocked, Notify, s, w) else Stay(e, l, Soon)
  {
  }

  class StoreEntry {
    const id: nat
    const keyLocation: bool
    const record: KeyRecord
    var state: EntryState
    var started: bool
    var live: set<Helper>
    var caName: Option<string>
    var notBefore: int
    var notAfter: int
    var lastNotify: int
    var lastEnroll: int
    var monitor: bool
    var autorenew: bool
    ghost var retried: bool
    ghost var scepAsked: bool

    constructor (id: nat, keyLocation: bool, state: EntryState, caName: Option<string>, watch: Watch, record: KeyRecord)
      ensures this.id == id && this.record == record
      ensures View() == Entry(id, keyLocation, state, false, {}, caName, watch, record.View(), false, false)
    {
      this.id, this.keyLocation, this.record := id, keyLocation, record;
      this.state, started, live, this.caName := state, false, {}, caName;
      notBefore, notAfter := watch.notBefore, watch.notAfter;
      lastNotify, lastEnroll := watch.lastNotify, watch.lastEnroll;
      monitor, autorenew := watch.monitor, watch.autorenew;
      retried, scepAsked := false, false;
    }

    ghost function View(): Entry
      reads this, record
    {
      Entry(id, keyLocation, state, started, live, caName,
            Watch(notBefore, notAfter, lastNotify, lastEnroll, monitor, autorenew),
            record.View(), retried, scepAsked)
    }

    // Between two steps.
    ghost predicate Ready(lock: TheLock)
      reads this, record, lock
    {
      Sound(View(), lock.View()) && Consistent(lock.View())
    }

    // The method did what the step says.
    ghost predicate Did(s: Step, lock: TheLock, when: When, delay: int, watchFd: bool)
      reads this, record, lock
    {
      && s.fault == NoFault && View() == s.entry && lock.View() == s.lock
      && when == s.when && delay == s.delay && watchFd == s.watchFd
    }

    // The common parts of the states.

    method MoveTo(s: EntryState)
      modifies this`state
      ensures View() == old(View()).(state := s)
    {
      state := s;
    }

    // A helper was started: its handle is kept, and it is watched or polled.
    method Start(h: Helper, s: EntryState, w: World) returns (when: When, watchFd: bool)
      modifies this`state, this`live
      ensures View() == old(View()).(state := s, live := old(live) + {h})
      ensures watchFd == w.pollable && when == if w.pollable then NoTime else Soon
    {
      state := s;
      live := live + {h};
      when, watchFd := Poll(w);
    }

    // Start a helper, or come back later if that fails.
    method TryStart(h: Helper, s: EntryState, w: World) returns (when: When, watchFd: bool)
      modifies this`state, this`live
      ensures View() == if w.started then old(View()).(state := s, live := old(live) + {h}) else old(View())
      ensures if w.started then watchFd == w.pollable && when == if w.pollable then NoTime else Soon
              else when == Soonish && !watchFd
    {
      when, watchFd := Soonish, false;
      if w.started {
        when, watchFd := Start(h, s, w);
      }
    }

    // Wait for status update, or poll.
    method Poll(w: World) returns (when: When, watchFd: bool)
      ensures watchFd == w.pollable && when == if w.pollable then NoTime else Soon
    {
      watchFd := w.pollable;
      when := if watchFd then NoTime else Soon;
    }

    // A helper is finished and its handle dropped.
    method Conclude(h: Helper, s: EntryState)
      requires h in live
      modifies this`state, this`live
      ensures View() == old(View()).(state := s, live := old(live) - {h})
    {
      live := live - {h};
      state := s;
    }

    // Take the lock unless the entry already has it.
    method EnsureLock(lock: TheLock) returns (ok: bool)
      requires Consistent(lock.View())
      modifies lock
      ensures !Ensured(old(lock.View()), id).Abort?
      ensures match Ensured(old(lock.View()), id)
              case Granted(l) => ok && lock.View() == l
              case _ => !ok && lock.View() == old(lock.View())
    {
      if HasLock(lock.View(), AnEntry(id), None) {
        return true;
      }
      ok := lock.LockEntry(id);
    }

    method IterateKeyPair(lock: TheLock, w: World, report: string) returns (when: When, delay: int, watchFd: bool)
      requires Ready(lock) && WorkOf(state) == KeyPairWork && OutputOf(report) == w.keyOutput
      modifies this, record, lock
      ensures Did(StepKeyPair(old(View()), old(lock.View()), w), lock, when, delay, watchFd)
    {
      hide LockByEntry, UnlockByEntry, CleanUpKeygen, Permits;
      when, delay, watchFd := NoTime, 0, false;
      match state
      case NeedKeyPair =>
        when, watchFd := StartKey(lock, w);
      case GeneratingKeyPair =>
        when, watchFd := AwaitKey(lock, w, report);
      case HaveKeyPair =>
        MoveTo(NeedKeyinfo);
        when := Now;
    }

    method StartKey(lock: TheLock, w: World) returns (when: When, watchFd: bool)
      requires Ready(lock) && state == NeedKeyPair
      modifies this, lock
      ensures Did(StepKeyPair(old(View()), old(lock.View()), w), lock, when, 0, watchFd)
    {
      when, watchFd := Soonish, false;
      var ok := lock.LockEntry(id);
      if !ok {
        when := Soon;
      } else if w.started {
        when, watchFd := Start(Keygen, GeneratingKeyPair, w);
      } else {
        ok := lock.UnlockEntry(id);
      }
    }

    method ConcludeKey(w: World) returns (when: When)
      requires Keygen in live
      modifies this`state, this`live
      ensures View() == old(View()).(state := AfterKeygen(w.outcome), live := old(live) - {Keygen})
      ensures when == if AfterKeygen(w.outcome) == NeedKeyPair then Soonish else Now
    {
      when := Now;
      match w.outcome
      case Success => Conclude(Keygen, HaveKeyPair);
      case LackPerms => Conclude(Keygen, NeedKeyGenPerms);
      case LackToken => Conclude(Keygen, NeedKeyGenToken);
      case LackPin => Conclude(Keygen, NeedKeyGenPin);
      case _ => Conclude(Keygen, NeedKeyPair); when := Soonish;
    }

    method AwaitKey(lock: TheLock, w: World, report: string) returns (when: When, watchFd: bool)
      requires Ready(lock) && state == GeneratingKeyPair && OutputOf(report) == w.keyOutput
      modifies this, record, lock
      ensures Did(StepKeyPair(old(View()), old(lock.View()), w), lock, when, 0, watchFd)
    {
      hide KeysCleanedUp, AfterKeygen;
      when, watchFd := Soon, false;
      if w.ready {
        var ok := lock.UnlockEntry(id);
        if !ok {
          return;
        }
        record.GenerationDone(report, w.now, w.outcome == Success);
        when := ConcludeKey(w);
      } else {
        when, watchFd := Poll(w);
      }
    }

    method IterateKeyinfo(lock: TheLock, w: World) returns (when: When, delay: int, watchFd: bool)
      requires Ready(lock) && WorkOf(state) == KeyinfoWork
      modifies this
      ensures Did(StepKeyinfo(old(View()), old(lock.View()), w), lock, when, delay, watchFd)
    {
      when, delay, watchFd := NoTime, 0, false;
      match state
      case NeedKeyinfo =>
        when, watchFd := TryStart(Keyiread, ReadingKeyinfo, w);
      case ReadingKeyinfo =>
        if w.ready {
          match w.outcome
          case Success => Conclude(Keyiread, HaveKeyinfo); when := Now;
          case LackToken => Conclude(Keyiread, NeedKeyinfoReadToken); when := Now;
          case LackPin => Conclude(Keyiread, NeedKeyinfoReadPin); when := Now;
          case _ => Conclude(Keyiread, NeedKeyPair); when := Soonish;
        } else {
          when, watchFd := Poll(w);
        }
      case HaveKeyinfo =>
        MoveTo(NeedCsr);
        when := Now;
    }

    method IterateCsr(lock: TheLock, w: World) returns (when: When, delay: int, watchFd: bool)
      requires Ready(lock) && WorkOf(state) == CsrWork
      modifies this
      ensures Did(StepCsr(old(View()), old(lock.View()), w), lock, when, delay, watchFd)
    {
      when, delay, watchFd := NoTime, 0, false;
      match state
      case NeedCsr =>
        when, watchFd := TryStart(Csrgen, GeneratingCsr, w);
      case GeneratingCsr =>
        if w.ready {
          match w.outcome
          case Success => Conclude(Csrgen, HaveCsr); scepAsked := false; when := Now;
          case LackToken => Conclude(Csrgen, NeedCsrGenToken); when := Now;
          case LackPin => Conclude(Csrgen, NeedCsrGenPin); when := Now;
          case _ => Conclude(Csrgen, NeedCsr); when := Soonish;
        } else {
          when, watchFd := Poll(w);
        }
      case HaveCsr =>
        MoveTo(NeedToSubmit);
        when := Now;
    }

    method IterateScep(lock: TheLock, w: World) returns (when: When, delay: int, watchFd: bool)
      requires Ready(lock) && WorkOf(state) == ScepWork
      modifies this
      ensures Did(StepScep(old(View()), old(lock.View()), w), lock, when, delay, watchFd)
    {
      when, delay, watchFd := NoTime, 0, false;
      match state
      case NeedScepData =>
        when, watchFd := TryStart(Scepgen, GeneratingScepData, w);
      case GeneratingScepData =>
        if w.ready {
          match w.outcome
          case Success => Conclude(Scepgen, HaveScepData); when := Now;
          case LackToken => Conclude(Scepgen, NeedScepGenToken); when := Now;
          case LackPin => Conclude(Scepgen, NeedScepGenPin); when := Now;
          case LackEncryptionCert => Conclude(Scepgen, NeedScepEncryptionCert); when := Now;
          case LackRsaKey => Conclude(Scepgen, NeedScepRsaClientKey); when := Now;
          case _ => Conclude(Scepgen, NeedScepData); when := Soonish;
        } else {
          when, watchFd := Poll(w);
        }
      case HaveScepData =>
        MoveTo(NeedToSubmit);
        when := Now;
    }

    method IterateSubmit(cfg: Config, lock: TheLock, w: World) returns (when: When, delay: int, watchFd: bool)
      requires Ready(lock) && WorkOf(state) == SubmitWork
      modifies this
      ensures Did(StepSubmit(cfg, old(View()), old(lock.View()), w), lock, when, delay, watchFd)
    {
      when, delay, watchFd := NoTime, 0, false;
      match state
      case NeedToSubmit =>
        if w.started {
          when, watchFd := Start(Submit, Submitting, w);
        } else if !w.caKnown {
          MoveTo(NeedCa);
          when := Now;
        } else {
          when := Soonish;
        }
      case Submitting =>
        when, delay, watchFd := AwaitSubmission(cfg, lock, w);
      case CaWorking =>
        MoveTo(NeedToSubmit);
        when := Now;
      case CaUnreachable =>
        MoveTo(NeedToSubmit);
        when := Soonish;
    }

    // The submission is over, but the CA is to be asked again.
    method AskAgain(cfg: Config, s: EntryState, w: World) returns (delay: int)
      requires Submit in live
      modifies this`state, this`live
      ensures View() == old(View()).(state := s, live := old(live) - {Submit})
      ensures delay == if w.specifiedDelay < 0 then CaDelay(cfg, Remaining(old(View()), w.now)) else w.specifiedDelay
    {
      delay := w.specifiedDelay;
      Conclude(Submit, s);
      if delay < 0 {
        delay := CaDelay(cfg, if notAfter != 0 then notAfter - w.now else -1);
      }
    }

    method AwaitSubmission(cfg: Config, lock: TheLock, w: World) returns (when: When, delay: int, watchFd: bool)
      requires Ready(lock) && state == Submitting
      modifies this
      ensures Did(StepSubmit(cfg, old(View()), old(lock.View()), w), lock, when, delay, watchFd)
    {
      delay, watchFd := 0, false;
      if w.ready {
        when, delay := FinishSubmission(cfg, w);
      } else {
        when, watchFd := Poll(w);
      }
    }

    method FinishUnconfigured(cfg: Config, w: World) returns (when: When, delay: int)
      requires Submit in live && w.outcome == Unconfiguration
      modifies this`state, this`live
      ensures var e := old(View());
              var s := AfterSubmission(e, w);
              && View() == e.(state := s, live := e.live - {Submit})
              && when == AppointmentAfter(s) && delay == DelayAfter(cfg, e, w)
    {
      hide CaDelay;
      if w.certPresent {
        delay := w.specifiedDelay;
        when := BackToMonitoring();
      } else {
        when := After;
        delay := AskAgain(cfg, CaUnconfigured, w);
      }
    }

    // The CA could not say: ask it again later, unless it is not set up for that.
    method FinishUndecided(cfg: Config, w: World) returns (when: When, delay: int)
      requires Submit in live && (w.outcome == Unreachability || w.outcome == Work || w.outcome == Unconfiguration)
      modifies this`state, this`live
      ensures var e := old(View());
              var s := AfterSubmission(e, w);
              && View() == e.(state := s, live := e.live - {Submit})
              && when == AppointmentAfter(s) && delay == DelayAfter(cfg, e, w)
    {
      hide CaDelay, Remaining;
      when := After;
      match w.outcome
      case Unreachability => delay := AskAgain(cfg, CaUnreachable, w);
      case Work => delay := AskAgain(cfg, CaWorking, w);
      case Unconfiguration => when, delay := FinishUnconfigured(cfg, w);
    }

    method FinishRejected(w: World) returns (when: When)
      requires Submit in live && w.outcome == Rejection
      modifies this`state, this`live
      ensures var s := AfterSubmission(old(View()), w);
              View() == old(View()).(state := s, live := old(live) - {Submit}) && when == AppointmentAfter(s)
    {
      if w.certPresent {
        when := BackToMonitoring();
      } else {
        Conclude(Submit, NeedToNotifyRejection);
        when := Now;
      }
    }

    // The CA wants something else first: data for SCEP, or another key.
    method FinishRequested(w: World) returns (when: When)
      requires Submit in live && (w.outcome == ScepRequest || w.outcome == RekeyRequest)
      modifies this`state, this`live, this`scepAsked
      ensures var e := old(View());
              var s := AfterSubmission(e, w);
              && View() == e.(scepAsked := e.scepAsked || w.outcome == ScepRequest, state := s, live := e.live - {Submit})
              && when == AppointmentAfter(s)
    {
      if w.outcome == ScepRequest {
        Conclude(Submit, NeedScepData);
        scepAsked := true;
        when := Now;
      } else {
        Conclude(Submit, NeedKeyPair);
        when := Soonish;
      }
    }

    method FinishSubmission(cfg: Config, w: World) returns (when: When, delay: int)
      requires Submit in live
      modifies this
      ensures var e := old(View());
              var s := AfterSubmission(e, w);
              && View() == e.(scepAsked := e.scepAsked || w.outcome == ScepRequest, state := s, live := e.live - {Submit})
              && when == AppointmentAfter(s) && delay == DelayAfter(cfg, e, w)
    {
      hide CaDelay, Remaining;
      when, delay := Now, 0;
      match w.outcome
      case Success => Conclude(Submit, NeedToSaveCert);
      case Rejection => when := FinishRejected(w);
      case Unreachability | Work | Unconfiguration => when, delay := FinishUndecided(cfg, w);
      case ScepRequest | RekeyRequest => when := FinishRequested(w);
      case _ => Conclude(Submit, NeedGuidance);
    }

    method BackToMonitoring() returns (when: When)
      requires Submit in live
      modifies this`state, this`live
      ensures View() == old(View()).(state := Monitoring, live := old(live) - {Submit}) && when == Soonish
    {
      Conclude(Submit, Monitoring);
      when := Soonish;
    }

    method IterateSaveCert(lock: TheLock, w: World) returns (when: When, delay: int, watchFd: bool)
      requires Ready(lock) && WorkOf(state) == SaveCertWork
      modifies this, record, lock
      ensures Did(StepSaveCert(old(View()), old(lock.View()), w), lock, when, delay, watchFd)
    {
      when, delay, watchFd := NoTime, 0, false;
      match state
      case NeedToSaveCert =>
        var ok := lock.LockEntry(id);
        if !ok {
          when := Soon;
          return;
        }
        retried := false;
        if w.started {
          when, watchFd := Start(Hook, PreSaveCert, w);
        } else {
          MoveTo(StartSavingCert);
          when := Now;
        }
      case PreSaveCert =>
        if w.ready {
          Conclude(Hook, StartSavingCert);
          when := Now;
        } else {
          when, watchFd := Poll(w);
        }
      case StartSavingCert =>
        when, watchFd := TryStart(Certsave, SavingCert, w);
      case SavingCert =>
        when, watchFd := AwaitSave(lock, w);
      case SavedCert =>
        MoveTo(NeedToSaveCaCerts);
        when := Now;
    }

    method AwaitSave(lock: TheLock, w: World) returns (when: When, watchFd: bool)
      requires Ready(lock) && state == SavingCert
      modifies this, record
      ensures Did(StepSaveCert(old(View()), old(lock.View()), w), lock, when, 0, watchFd)
    {
      when, watchFd := Now, false;
      if !w.ready {
        when, watchFd := Poll(w);
        return;
      }
      var r := record.CertificateSaved(true, if w.outcome == Success then STATUS_SAVED else STATUS_SAVED + 1);
      if r == 0 {
        Conclude(Certsave, SavedCert);
      } else if w.outcome == LackPerms {
        Conclude(Certsave, NeedCertsavePerms);
      } else if w.outcome == LackToken {
        Conclude(Certsave, NeedCertsaveToken);
      } else if w.outcome == LackPin {
        Conclude(Certsave, NeedCertsavePin);
      } else {
        Conclude(Certsave, NeedToNotifyIssuedSaveFailed);
        when := Soonish;
      }
    }

    // The certificate was read, whole or in part: its validity is taken over.
    method TakeValidity(w: World)
      modifies this`notBefore, this`notAfter
      ensures View() == Reread(old(View()), w)
    {
      notBefore, notAfter := w.readNotBefore, w.readNotAfter;
    }

    method IterateReadCert(lock: TheLock, w: World) returns (when: When, delay: int, watchFd: bool)
      requires Ready(lock) && WorkOf(state) == ReadCertWork
      modifies this, lock
      ensures Did(StepReadCert(old(View()), old(lock.View()), w), lock, when, delay, watchFd)
    {
      when, delay, watchFd := NoTime, 0, false;
      match state
      case NeedToReadCert =>
        var ok := EnsureLock(lock);
        if !ok {
          when := Soon;
        } else {
          when, watchFd := TryStart(Certread, ReadingCert, w);
        }
      case ReadingCert =>
        when, watchFd := AwaitRead(lock, w);
      case PostSavedCert =>
        if w.ready {
          Conclude(Hook, NeedToNotifyIssuedSaved);
          when := Now;
        } else {
          when, watchFd := Poll(w);
        }
    }

    method AwaitRead(lock: TheLock, w: World) returns (when: When, watchFd: bool)
      requires Ready(lock) && state == ReadingCert
      modifies this
      ensures Did(StepReadCert(old(View()), old(lock.View()), w), lock, when, 0, watchFd)
    {
      when, watchFd := Now, false;
      if !w.ready {
        when, watchFd := Poll(w);
        return;
      }
      TakeValidity(w);
      if w.outcome != Success {
        Conclude(Certread, NeedGuidance);
      } else {
        Conclude(Certread, ReadingCert);
        if w.hookStarted {
          when, watchFd := Start(Hook, PostSavedCert, w);
        } else {
          MoveTo(NeedToNotifyIssuedSaved);
        }
      }
    }

    // Is it time to get a new certificate?  If so the next state says whether the
    // policy wants a new key for it, and if not, when to look again.
    method RenewOrWatch(cfg: Config, lock: TheLock, w: World) returns (when: When, delay: int)
      requires cfg.monitorMin <= cfg.monitorMax
      modifies this
      ensures var e := old(View());
              var seen := SeenForEnroll(cfg, e, w.now);
              var s := if EnrollDue(cfg, e, w.now) then Renew(cfg, seen, old(lock.View()), w)
                       else KeepWatching(cfg, seen, old(lock.View()), w);
              Did(s, lock, when, delay, false)
    {
      hide Noteworthy, LookedAt, MonitorDelay, RekeyExpected, Passed;
      var due := false;
      if autorenew {
        due, lastEnroll := CheckExpiration(
          cfg, Watch(notBefore, notAfter, lastNotify, lastEnroll, monitor, autorenew), cfg.enrollTtls, lastEnroll, w.now);
      }
      if due {
        var rekey := RekeyExpected(cfg, record.issuedCount, w.keyTooOld);
        MoveTo(if rekey then NeedKeyPair else NeedCsr);
        when, delay := Now, 0;
      } else {
        MoveTo(Monitoring);
        when := After;
        delay := DecideMonitorDelay(cfg, if notAfter != 0 then notAfter - w.now else -1, cfg.notifyTtls, cfg.enrollTtls);
      }
    }

    method Look(cfg: Config, lock: TheLock, w: World) returns (when: When, delay: int)
      requires Ready(lock) && state == Monitoring && cfg.monitorMin <= cfg.monitorMax
      modifies this
      ensures Did(StepMonitor(cfg, old(View()), old(lock.View()), w), lock, when, delay, false)
    {
      hide Noteworthy, LookedAt, MonitorDelay, Remaining, RekeyExpected, Permits, HelpersOf, Passed;
      var due := false;
      if monitor {
        due, lastNotify := CheckExpiration(
          cfg, Watch(notBefore, notAfter, lastNotify, lastEnroll, monitor, autorenew), cfg.notifyTtls, lastNotify, w.now);
      }
      if due {
        MoveTo(NeedToNotifyValidity);
        when, delay := Now, 0;
      } else {
        when, delay := RenewOrWatch(cfg, lock, w);
      }
    }

    method AwaitNotice(cfg: Config, lock: TheLock, w: World) returns (when: When, delay: int, watchFd: bool)
      requires Ready(lock) && state == NotifyingValidity && cfg.monitorMin <= cfg.monitorMax
      modifies this
      ensures Did(StepMonitor(cfg, old(View()), old(lock.View()), w), lock, when, delay, watchFd)
    {
      hide SeenForNotify, SeenForEnroll, EnrollDue, Renew, KeepWatching;
      delay, watchFd := 0, false;
      if w.ready {
        Conclude(Notify, NotifyingValidity);
        when, delay := RenewOrWatch(cfg, lock, w);
      } else {
        when, watchFd := Poll(w);
      }
    }

    method IterateMonitor(cfg: Config, lock: TheLock, w: World) returns (when: When, delay: int, watchFd: bool)
      requires Ready(lock) && WorkOf(state) == MonitorWork && cfg.monitorMin <= cfg.monitorMax
      modifies this
      ensures Did(StepMonitor(cfg, old(View()), old(lock.View()), w), lock, when, delay, watchFd)
    {
      hide SeenForNotify, SeenForEnroll, EnrollDue, NotifyDue, Renew, KeepWatching, Permits;
      when, delay, watchFd := NoTime, 0, false;
      match state
      case Monitoring =>
        when, delay := Look(cfg, lock, w);
      case NeedToNotifyValidity =>
        when, watchFd := TryStart(Notify, NotifyingValidity, w);
      case NotifyingValidity =>
        when, delay, watchFd := AwaitNotice(cfg, lock, w);
    }

    // Give the lock up, taking it first if the entry came here without it.
    method PassLockOn(lock: TheLock) returns (ok: bool)
      requires Consistent(lock.View())
      modifies lock
      ensures ok <==> Ensured(old(lock.View()), id).Granted?
      ensures lock.View() == if ok then Unlocked else old(lock.View())
    {
      ok := EnsureLock(lock);
      if ok {
        ok := lock.UnlockEntry(id);
      }
    }

    // Give the lock up, and send a notification.
    method ReleaseLockAndNotify(lock: TheLock, s: EntryState, w: World) returns (when: When, watchFd: bool)
      requires Consistent(lock.View()) && live == {}
      modifies this, lock
      ensures Did(ReleaseAndNotify(old(View()), old(lock.View()), s, w), lock, when, 0, watchFd)
    {
      hide Ensured, ReleaseAndNotify;
      when, watchFd := Soon, false;
      ReleaseMeans(View(), lock.View(), s, w);
      var ok := PassLockOn(lock);
      if ok {
        when, watchFd := TryStart(Notify, s, w);
      }
    }

    // A notification was sent, or is still being sent.
    method AwaitNotification(w: World, s: EntryState, next: When) returns (when: When, watchFd: bool)
      requires Notify in live
      modifies this`state, this`live
      ensures View() == if w.ready then old(View()).(state := s, live := old(live) - {Notify}) else old(View())
      ensures if w.ready then when == next && !watchFd else watchFd == w.pollable && when == if w.pollable then NoTime else Soon
    {
      if w.ready {
        Conclude(Notify, s);
        when, watchFd := next, false;
      } else {
        when, watchFd := Poll(w);
      }
    }

    method IterateNotify(lock: TheLock, w: World) returns (when: When, delay: int, watchFd: bool)
      requires Ready(lock) && WorkOf(state) == NotifyWork
      modifies this, lock
      ensures Did(StepNotify(old(View()), old(lock.View()), w), lock, when, delay, watchFd)
    {
      when, delay, watchFd := NoTime, 0, false;
      match state
      case NeedToNotifyRejection =>
        when, watchFd := TryStart(Notify, NotifyingRejection, w);
      case NotifyingRejection => when, watchFd := AwaitNotification(w, CaRejected, Soon);
      case NeedToNotifyIssuedSaveFailed => when, watchFd := ReleaseLockAndNotify(lock, NotifyingIssuedSaveFailed, w);
      case NotifyingIssuedSaveFailed =>
        when, watchFd := AwaitNotification(w, StartSavingCert, Soonish);
        if w.ready {
          retried := true;
        }
      case NeedToNotifyIssuedSaved => when, watchFd := ReleaseLockAndNotify(lock, NotifyingIssuedSaved, w);
      case NotifyingIssuedSaved => when, watchFd := AwaitNotification(w, Monitoring, Soon);
      case NeedToNotifyIssuedCaSaveFailed => when, watchFd := ReleaseLockAndNotify(lock, NotifyingIssuedCaSaveFailed, w);
      case NotifyingIssuedCaSaveFailed => when, watchFd := AwaitNotification(w, NeedToSaveCaCerts, Soonish);
      case NeedToNotifyOnlyCaSaveFailed => when, watchFd := ReleaseLockAndNotify(lock, NotifyingOnlyCaSaveFailed, w);
      case NotifyingOnlyCaSaveFailed => when, watchFd := AwaitNotification(w, Monitoring, Soonish);
    }

    method ClaimLock(lock: TheLock, s: EntryState) returns (when: When)
      requires Consistent(lock.View())
      modifies this`state, lock
      ensures !Ensured(old(lock.View()), id).Abort?
      ensures match Ensured(old(lock.View()), id)
              case Granted(l) => when == Now && lock.View() == l && View() == old(View()).(state := s)
              case _ => when == Soon && lock.View() == old(lock.View()) && View() == old(View())
    {
      var ok := EnsureLock(lock);
      if !ok {
        when := Soon;
      } else {
        MoveTo(s);
        when := Now;
      }
    }

    method IterateSaveCaCerts(lock: TheLock, w: World) returns (when: When, delay: int, watchFd: bool)
      requires Ready(lock) && WorkOf(state) == SaveCaCertsWork
      modifies this, lock
      ensures Did(StepSaveCaCerts(old(View()), old(lock.View()), w), lock, when, delay, watchFd)
    {
      hide LockByEntry, Permits;
      when, delay, watchFd := NoTime, 0, false;
      match state
      case NeedToSaveCaCerts =>
        when := ClaimLock(lock, StartSavingCaCerts);
      case StartSavingCaCerts =>
        when, watchFd := TryStart(Casave, SavingCaCerts, w);
      case SavingCaCerts =>
        when, watchFd := AwaitCaSave(lock, w);
      case NeedToSaveOnlyCaCerts =>
        when := ClaimLock(lock, StartSavingOnlyCaCerts);
      case StartSavingOnlyCaCerts =>
        when, watchFd := TryStart(Casave, SavingOnlyCaCerts, w);
      case SavingOnlyCaCerts =>
        when, watchFd := AwaitOnlyCaSave(lock, w);
    }

    method AwaitCaSave(lock: TheLock, w: World) returns (when: When, watchFd: bool)
      requires Ready(lock) && state == SavingCaCerts
      modifies this
      ensures Did(StepSaveCaCerts(old(View()), old(lock.View()), w), lock, when, 0, watchFd)
    {
      when, watchFd := Now, false;
      if w.ready {
        match w.outcome
        case Success => Conclude(Casave, NeedToReadCert);
        case LackPerms => Conclude(Casave, NeedCaCertSavePerms);
        case _ => Conclude(Casave, NeedToNotifyIssuedCaSaveFailed); when := Soonish;
      } else {
        when, watchFd := Poll(w);
      }
    }

    method AwaitOnlyCaSave(lock: TheLock, w: World) returns (when: When, watchFd: bool)
      requires Ready(lock) && state == SavingOnlyCaCerts
      modifies this, lock
      ensures Did(StepSaveCaCerts(old(View()), old(lock.View()), w), lock, when, 0, watchFd)
    {
      when, watchFd := Soon, false;
      if !w.ready {
        when, watchFd := Poll(w);
      } else if w.outcome == Success {
        var ok := lock.UnlockEntry(id);
        if ok {
          Conclude(Casave, Monitoring);
          when := Now;
        }
      } else if w.outcome == LackPerms {
        var ok := lock.UnlockEntry(id);
        if ok {
          Conclude(Casave, NeedOnlyCaCertSavePerms);
          when := Now;
        }
      } else {
        Conclude(Casave, NeedToNotifyOnlyCaSaveFailed);
        when := Soonish;
      }
    }

    method StartReading(lock: TheLock) returns (when: When)
      requires Ready(lock) && state == NewlyAdded
      modifies this`state, lock
      ensures match LockByEntry(old(lock.View()), id)
              case Abort => false
              case Refused => when == Soon && View() == old(View()) && lock.View() == old(lock.View())
              case Granted(l) =>
                && when == Now && lock.View() == l
                && View() == old(View()).(state := if keyLocation then NewlyAddedStartReadingKeyinfo else NewlyAddedStartReadingCert)
    {
      var ok := lock.LockEntry(id);
      if !ok {
        return Soon;
      }
      MoveTo(if keyLocation then NewlyAddedStartReadingKeyinfo else NewlyAddedStartReadingCert);
      when := Now;
    }

    method IterateNewlyAdded(lock: TheLock, w: World) returns (when: When, delay: int, watchFd: bool)
      requires Ready(lock) && WorkOf(state) == NewlyAddedWork
      modifies this, lock
      ensures Did(StepNewlyAdded(old(View()), old(lock.View()), w), lock, when, delay, watchFd)
    {
      hide LockByEntry, Decision, Permits;
      when, delay, watchFd := NoTime, 0, false;
      match state
      case NewlyAdded =>
        when := StartReading(lock);
      case NewlyAddedStartReadingKeyinfo =>
        when, watchFd := TryStart(Keyiread, NewlyAddedReadingKeyinfo, w);
      case NewlyAddedReadingKeyinfo =>
        when, watchFd := AwaitAddedKeyinfo(lock, w);
      case NewlyAddedStartReadingCert =>
        when, watchFd := TryStart(Certread, NewlyAddedReadingCert, w);
      case NewlyAddedReadingCert =>
        when, watchFd := AwaitAddedCert(lock, w);
      case NewlyAddedDeciding =>
        when := Decide(lock, w);
    }

    method AwaitAddedKeyinfo(lock: TheLock, w: World) returns (when: When, watchFd: bool)
      requires Ready(lock) && state == NewlyAddedReadingKeyinfo
      modifies this, lock
      ensures Did(StepNewlyAdded(old(View()), old(lock.View()), w), lock, when, 0, watchFd)
    {
      when, watchFd := Now, false;
      if !w.ready {
        when, watchFd := Poll(w);
      } else if w.outcome == LackToken || w.outcome == LackPin {
        var ok := lock.UnlockEntry(id);
        if !ok {
          when := Soon;
        } else {
          Conclude(Keyiread, if w.outcome == LackToken then NewlyAddedNeedKeyinfoReadToken else NewlyAddedNeedKeyinfoReadPin);
        }
      } else {
        Conclude(Keyiread, NewlyAddedStartReadingCert);
      }
    }

    method AwaitAddedCert(lock: TheLock, w: World) returns (when: When, watchFd: bool)
      requires Ready(lock) && state == NewlyAddedReadingCert
      modifies this
      ensures Did(StepNewlyAdded(old(View()), old(lock.View()), w), lock, when, 0, watchFd)
    {
      if w.ready {
        TakeValidity(w);
        Conclude(Certread, NewlyAddedDeciding);
        when, watchFd := Now, false;
      } else {
        when, watchFd := Poll(w);
      }
    }

    method Decide(lock: TheLock, w: World) returns (when: When)
      requires Ready(lock) && state == NewlyAddedDeciding
      modifies this, lock
      ensures Did(StepNewlyAdded(old(View()), old(lock.View()), w), lock, when, 0, false)
    {
      var ok := lock.UnlockEntry(id);
      if !ok {
        return Soon;
      }
      if caName == None {
        caName := w.chosenCa;
      }
      ChooseWay(w);
      when := Now;
    }

    method ChooseWay(w: World)
      modifies this`state
      ensures View() == old(View()).(state := Decision(old(View()), w))
    {
      if w.certPresent {
        if w.caCertsWanted {
          MoveTo(NeedToSaveOnlyCaCerts);
        } else {
          MoveTo(Monitoring);
        }
      } else if keyLocation {
        if w.keyPresent {
          MoveTo(NeedCsr);
        } else {
          MoveTo(NeedKeyPair);
        }
      } else {
        MoveTo(NeedGuidance);
      }
    }

    // One look at the entry.
    method Iterate(cfg: Config, lock: TheLock, w: World, report: string) returns (when: When, delay: int, watchFd: bool)
      requires Ready(lock) && cfg.monitorMin <= cfg.monitorMax && OutputOf(report) == w.keyOutput
      modifies this, record, lock
      ensures Did(StepEntry(cfg, old(View()), old(lock.View()), w), lock, when, delay, watchFd)
      ensures Ready(lock) && OnlyOwnMove(old(lock.View()), lock.View(), id)
      ensures when != NoTime || watchFd || WaitsForOperator(state)
    {
      StepIsGood(cfg, View(), lock.View(), w);
      match WorkOf(state)
      case KeyPairWork => when, delay, watchFd := IterateKeyPair(lock, w, report);
      case KeyinfoWork => when, delay, watchFd := IterateKeyinfo(lock, w);
      case CsrWork => when, delay, watchFd := IterateCsr(lock, w);
      case ScepWork => when, delay, watchFd := IterateScep(lock, w);
      case SubmitWork => when, delay, watchFd := IterateSubmit(cfg, lock, w);
      case SaveCertWork => when, delay, watchFd := IterateSaveCert(lock, w);
      case ReadCertWork => when, delay, watchFd := IterateReadCert(lock, w);
      case MonitorWork => when, delay, watchFd := IterateMonitor(cfg, lock, w);
      case NotifyWork => when, delay, watchFd := IterateNotify(lock, w);
      case SaveCaCertsWork => when, delay, watchFd := IterateSaveCaCerts(lock, w);
      case NewlyAddedWork => when, delay, watchFd := IterateNewlyAdded(lock, w);
      case NoWork => when, delay, watchFd := NoTime, 0, false;
    }

    method LetLockGo(lock: TheLock)
      modifies lock
      ensures lock.View() == LetGo(old(lock.View()), id)
    {
      if HasLock(lock.View(), AnEntry(id), None) {
        var _ := lock.UnlockEntry(id);
      }
    }

    // Set up the working state.
    method Init(lock: TheLock, w: World)
      requires state != Invalid
      modifies this, lock
      ensures var s := InitEntry(old(View()), old(lock.View()), w);
              s.fault == NoFault && View() == s.entry && lock.View() == s.lock
    {
      live := {};
      started := true;
      state := Reset(state);
      LetLockGo(lock);
      TakeValidity(w);
    }

    // The helpers in progress are finished; those which are not go with the
    // working state.
    method Cancel(w: World, report: string)
      requires started && OutputOf(report) == w.keyOutput
      modifies this, record
      ensures View() == old(View()).(
                keys := if Keygen in old(live) then CleanUpKeygen(old(record.View()), w) else old(record.View()),
                started := false, live := {})
    {
      if Keygen in live {
        record.GenerationDone(report, w.now, w.outcome == Success);
      }
      live := live - FINISHED_ON_STOP;
      live := {};
      started := false;
    }

    // Cancel what is in progress, and free the working state.
    method Done(lock: TheLock, w: World, report: string)
      requires state != Invalid && (!started ==> live == {}) && OutputOf(report) == w.keyOutput
      modifies this, record, lock
      ensures var s := DoneEntry(old(View()), old(lock.View()), w);
              s.fault == NoFault && View() == s.entry && lock.View() == s.lock
    {
      if started {
        Cancel(w, report);
      }
      MoveTo(Reset(state));
      LetLockGo(lock);
    }
  }
}
