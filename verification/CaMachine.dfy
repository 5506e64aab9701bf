/**
 A phase of a CA as the daemon keeps it, updated in place by each look at it.
 Every method is proved to do what the function for the same states says.
 */
module CaMachine {
  import opened Wrappers
  import opened EntryStates
  import opened WritingLock
  import opened Expiry
  import opened CaSteps

  class PhaseTask {
    const ca: nat
    const external: bool
    const phase: Phase
    var state: CaState
    var started: bool
    var live: set<CaHelper>
    var stale: bool

    constructor (ca: nat, external: bool, phase: Phase)
      ensures this.ca == ca && this.external == external && this.phase == phase
      ensures View() == CaTask(CaIdle, false, {}, false)
    {
      this.ca, this.external, this.phase := ca, external, phase;
      state, started, live, stale := CaIdle, false, {}, false;
    }

    function View(): CaTask
      reads this
    {
      CaTask(state, started, live, stale)
    }

    ghost predicate Ready(lock: TheLock)
      reads this, lock
    {
      CaSound(ca, phase, View(), lock.View()) && Consistent(lock.View())
    }

    // The method did what the step says; before is what the caller's variable for
    // the next appointment held.
    ghost predicate Did(s: CaStep, lock: TheLock, before: When, when: When, delay: int, watchFd: bool)
      reads this, lock
    {
      && s.fault == NoFault && View() == s.task && lock.View() == s.lock
      && when == (if s.when.Some? then s.when.value else before)
      && delay == s.delay && watchFd == s.watchFd
    }

    method Start(h: CaHelper, s: CaState, w: CaWorld) returns (when: When, watchFd: bool)
      modifies this`state, this`live
      ensures View() == old(View()).(state := s, live := old(live) + {h})
      ensures watchFd == w.pollable && when == if w.pollable then NoTime else Soon
    {
      state := s;
      live := live + {h};
      when, watchFd := Poll(w);
    }

    method Poll(w: CaWorld) returns (when: When, watchFd: bool)
      ensures watchFd == w.pollable && when == if w.pollable then NoTime else Soon
    {
      watchFd := w.pollable;
      when := if watchFd then NoTime else Soon;
    }

    method Conclude(h: CaHelper, s: CaState)
      requires h in live
      modifies this`state, this`live
      ensures View() == old(View()).(state := s, live := old(live) - {h})
    {
      live := live - {h};
      state := s;
    }

    method IterateRefresh(cfg: Config, lock: TheLock, w: CaWorld, before: When)
      returns (when: When, delay: int, watchFd: bool, restart: bool)
      requires Ready(lock) && !FetchHazard(external, View(), w)
      requires state == CaNeedToRefresh || state == CaRefreshing || state == CaDataUnreachable
      modifies this
      ensures Did(StepRefresh(cfg, external, phase, old(View()), old(lock.View()), w), lock, before, when, delay, watchFd)
      ensures restart == StepRefresh(cfg, external, phase, old(View()), old(lock.View()), w).restartEntries
    {
      when, delay, watchFd, restart := before, 0, false, false;
      match state
      case CaNeedToRefresh =>
        if w.started {
          when, watchFd := Start(Fetch, CaRefreshing, w);
        } else {
          state := CaDisabled;
          when := Now;
        }
      case CaRefreshing =>
        if w.ready {
          when, delay, restart := FinishFetch(cfg, w);
        } else {
          when, watchFd := Poll(w);
        }
      case CaDataUnreachable =>
        state := CaNeedToRefresh;
        when := Soonish;
    }

    method FinishFetch(cfg: Config, w: CaWorld) returns (when: When, delay: int, restart: bool)
      requires Fetch in live && state == CaRefreshing && w.ready
      modifies this`state, this`live
      ensures forall l: Lock {:trigger StepRefresh(cfg, external, phase, old(View()), l, w)} ::
                var s := StepRefresh(cfg, external, phase, old(View()), l, w);
                && s.fault == NoFault && View() == s.task && s.lock == l && s.when == Some(when)
                && delay == s.delay && !s.watchFd && restart == s.restartEntries
    {
      when, delay, restart := Now, 0, false;
      match w.outcome
      case DataModified =>
        if phase == Certs {
          Conclude(Fetch, CaNeedToSaveData);
        } else {
          restart := true;
          Conclude(Fetch, CaNeedToAnalyze);
        }
      case DataRetry =>
        when, delay := After, w.specifiedDelay;
        if delay < 0 {
          delay := cfg.cadataPoll;
        }
        Conclude(Fetch, CaNeedToRefresh);
      case DataRejected =>
        Conclude(Fetch, CaIdle);
        when, delay := After, cfg.caMax;
      case DataUnreachable | DataUnconfigured =>
        Conclude(Fetch, CaDataUnreachable);
        when, delay := After, cfg.cadataPoll;
      case DataUnsupported => Conclude(Fetch, CaDisabled);
      case DataUnchanged => Conclude(Fetch, CaNeedToAnalyze);
    }

    method IterateSave(lock: TheLock, w: CaWorld, before: When) returns (when: When, delay: int, watchFd: bool)
      requires Ready(lock) && (CaHolds(state) || state == CaNeedToSaveData)
      modifies this, lock
      ensures Did(StepSave(ca, phase, old(View()), old(lock.View()), w), lock, before, when, delay, watchFd)
    {
      when, delay, watchFd := before, 0, false;
      match state
      case CaNeedToSaveData =>
        var ok := lock.LockCa(ca, phase);
        if !ok {
          when := Soon;
        } else if w.started {
          when, watchFd := Start(SaveHook, CaPreSaveData, w);
        } else {
          state := CaStartSavingData;
          when := Now;
        }
      case CaPreSaveData => when, watchFd := AwaitHook(w, CaStartSavingData);
      case CaStartSavingData =>
        if w.started {
          when, watchFd := Start(SaveCerts, CaSavingData, w);
        }
      case CaSavingData =>
        if w.ready {
          Conclude(SaveCerts, CaNeedPostSaveData);
          when := if w.saveOutcome == SaveFailure then Soonish else Now;
        } else {
          when, watchFd := Poll(w);
        }
      case CaNeedPostSaveData =>
        if w.started {
          when, watchFd := Start(SaveHook, CaPostSaveData, w);
        } else {
          state := CaSavedData;
          when := Now;
        }
      case CaPostSaveData => when, watchFd := AwaitHook(w, CaSavedData);
      case CaSavedData =>
        var ok := lock.UnlockCa(ca, phase);
        if !ok {
          when := Soon;
        } else {
          state := CaNeedToAnalyze;
          when := Now;
        }
    }

    method AwaitHook(w: CaWorld, s: CaState) returns (when: When, watchFd: bool)
      requires SaveHook in live
      modifies this`state, this`live
      ensures View() == if w.ready then old(View()).(state := s, live := old(live) - {SaveHook}) else old(View())
      ensures if w.ready then when == Now && !watchFd else watchFd == w.pollable && when == if w.pollable then NoTime else Soon
    {
      if w.ready {
        Conclude(SaveHook, s);
        when, watchFd := Now, false;
      } else {
        when, watchFd := Poll(w);
      }
    }

    method IterateAnalyze(cfg: Config, lock: TheLock, w: CaWorld, before: When) returns (when: When, delay: int, watchFd: bool)
      requires Ready(lock) && (state == CaNeedToAnalyze || state == CaAnalyzing)
      modifies this
      ensures Did(StepAnalyze(cfg, phase, old(View()), old(lock.View()), w), lock, before, when, delay, watchFd)
    {
      when, delay, watchFd := before, 0, false;
      match state
      case CaNeedToAnalyze =>
        if phase == Certs || phase == EncryptionCerts {
          if !w.started {
            state := CaDisabled;
            when := Now;
          } else if !w.pollable {
            // Finished, but the pointer to it is kept.
            stale := true;
            state := CaDisabled;
          } else {
            state := CaAnalyzing;
            live := live + {Analysis};
            watchFd := true;
            when := NoTime;
          }
        } else {
          state := CaIdle;
          when := Now;
        }
      case CaAnalyzing =>
        if phase != Certs && phase != EncryptionCerts {
          assert false; // abort()
        } else if w.ready {
          delay := w.refreshDelay;
          if delay != 0 {
            Conclude(Analysis, CaNeedToRefresh);
            if delay < cfg.caMin {
              delay := cfg.caMin;
            }
            if delay > cfg.caMax {
              delay := cfg.caMax;
            }
            when := After;
          } else {
            Conclude(Analysis, CaIdle);
            when := Now;
          }
        } else {
          when, watchFd := Poll(w);
        }
    }

    method Dispatch(cfg: Config, lock: TheLock, w: CaWorld, before: When)
      returns (when: When, delay: int, watchFd: bool, restart: bool)
      requires Ready(lock) && !FetchHazard(external, View(), w)
      modifies this, lock
      ensures Did(StepCa(cfg, external, ca, phase, old(View()), old(lock.View()), w), lock, before, when, delay, watchFd)
      ensures restart == StepCa(cfg, external, ca, phase, old(View()), old(lock.View()), w).restartEntries
    {
      restart := false;
      match state
      case CaNeedToRefresh | CaRefreshing | CaDataUnreachable =>
        when, delay, watchFd, restart := IterateRefresh(cfg, lock, w, before);
      case CaNeedToAnalyze | CaAnalyzing => when, delay, watchFd := IterateAnalyze(cfg, lock, w, before);
      case CaIdle | CaDisabled => when, delay, watchFd := NoTime, 0, false;
      case _ => when, delay, watchFd := IterateSave(lock, w, before);
    }

    // One look at the phase.  The next appointment is only set where the source
    // sets it; otherwise it stays what it was before.
    method Iterate(cfg: Config, lock: TheLock, w: CaWorld, before: When)
      returns (when: When, delay: int, watchFd: bool, restart: bool)
      requires Ready(lock) && !FetchHazard(external, View(), w)
      modifies this, lock
      ensures Did(StepCa(cfg, external, ca, phase, old(View()), old(lock.View()), w), lock, before, when, delay, watchFd)
      ensures restart == StepCa(cfg, external, ca, phase, old(View()), old(lock.View()), w).restartEntries
      ensures Ready(lock) && CaOnlyOwnMove(old(lock.View()), lock.View(), ca, phase)
      ensures !NoAppointment(phase, old(View()), w) && when == NoTime && !watchFd ==> state in {CaIdle, CaDisabled}
    {
      CaStepIsGood(cfg, external, ca, phase, View(), lock.View(), w);
      when, delay, watchFd, restart := Dispatch(cfg, lock, w, before);
    }

    method Init(lock: TheLock)
      modifies this, lock
      ensures var s := InitCa(ca, phase, old(lock.View())); View() == s.task && lock.View() == s.lock
    {
      state, started, live, stale := CaNeedToRefresh, true, {}, false;
      LetLockGo(lock);
    }

    method LetLockGo(lock: TheLock)
      modifies lock
      ensures lock.View() == CaLetGo(old(lock.View()), ca, Some(phase))
    {
      if HasLock(lock.View(), ACa(ca), Some(phase)) && lock.phase == Some(phase) {
        var _ := lock.UnlockCa(ca, phase);
      }
    }

    // Finishing an analysis which was already finished is a use after free.
    method Done(lock: TheLock)
      requires !(started && stale) && Consistent(lock.View())
      modifies this, lock
      ensures var s := DoneCa(ca, phase, old(View()), old(lock.View()));
              s.fault == NoFault && View() == s.task && lock.View() == s.lock
    {
      if started {
        live, started := {}, false;
        LetLockGo(lock);
      }
      live, stale := {}, false;
    }
  }
}
