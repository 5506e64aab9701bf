/**
 Which helper a phase of a CA runs next, told from the helpers which are started and
 from what they answer, and when the daemon looks at the phase again.
 */
module CaSchedule {
  import opened Wrappers
  import opened EntryStates
  import opened WritingLock
  import opened Expiry
  import opened EntrySteps
  import opened CaSteps
  import opened Daemon
  import opened Restarts

  // The helper which runs in a state of a phase, or comes next if it does not run yet;
  // hooks apart.  Only the two kinds of certificates are analyzed.
  function DueIn(s: CaState, p: Phase): Option<CaHelper> {
    match s
    case CaNeedToRefresh | CaRefreshing | CaDataUnreachable => Some(Fetch)
    case CaNeedToSaveData | CaPreSaveData | CaStartSavingData | CaSavingData => Some(SaveCerts)
    case CaNeedPostSaveData | CaPostSaveData | CaSavedData | CaNeedToAnalyze | CaAnalyzing =>
      if p == Certs || p == EncryptionCerts then Some(Analysis) else None
    case CaIdle | CaDisabled => None
  }

  // The look finds that a helper other than a hook has finished.
  predicate Finishes(t: CaTask, w: CaWorld) {
    && w.ready
    && ((t.state == CaRefreshing && Fetch in t.live) || (t.state == CaSavingData && SaveCerts in t.live)
        || (t.state == CaAnalyzing && Analysis in t.live))
  }

  // The look finds that what is due cannot be had at all: the fetch cannot be started, or
  // the analysis cannot be started or waited for.
  predicate GivesUp(t: CaTask, p: Phase, w: CaWorld) {
    || (t.state == CaNeedToRefresh && !w.started)
    || (t.state == CaNeedToAnalyze && (p == Certs || p == EncryptionCerts) && !(w.started && w.pollable))
  }

  // A look starts no other helper than the one which is due, or a hook; and unless one
  // has finished, or is given up, the same stays due.
  predicate FollowsSchedule(t: CaTask, p: Phase, w: CaWorld, t1: CaTask) {
    && (forall h :: h in t1.live && h !in t.live ==> h == SaveHook || DueIn(t.state, p) == Some(h))
    && (!Finishes(t, w) && !GivesUp(t, p, w) ==> DueIn(t1.state, p) == DueIn(t.state, p))
  }

  lemma RefreshFollowsSchedule(cfg: Config, external: bool, p: Phase, t: CaTask, l: Lock, w: CaWorld)
    requires t.state == CaNeedToRefresh || t.state == CaRefreshing || t.state == CaDataUnreachable
    ensures FollowsSchedule(t, p, w, StepRefresh(cfg, external, p, t, l, w).task)
  {
  }

  lemma SaveFollowsSchedule(id: nat, p: Phase, t: CaTask, l: Lock, w: CaWorld)
    requires CaHolds(t.state) || t.state == CaNeedToSaveData
    ensures FollowsSchedule(t, p, w, StepSave(id, p, t, l, w).task)
  {
  }

  lemma AnalysisFollowsSchedule(cfg: Config, p: Phase, t: CaTask, l: Lock, w: CaWorld)
    requires t.state == CaNeedToAnalyze || t.state == CaAnalyzing
    ensures FollowsSchedule(t, p, w, StepAnalyze(cfg, p, t, l, w).task)
  {
  }

  lemma StepFollowsSchedule(cfg: Config, external: bool, id: nat, p: Phase, t: CaTask, l: Lock, w: CaWorld)
    ensures FollowsSchedule(t, p, w, StepCa(cfg, external, id, p, t, l, w).task)
  {
    hide StepRefresh, StepSave, StepAnalyze, FollowsSchedule;
    match t.state
    case CaNeedToRefresh | CaRefreshing | CaDataUnreachable => RefreshFollowsSchedule(cfg, external, p, t, l, w);
    case CaNeedToAnalyze | CaAnalyzing => AnalysisFollowsSchedule(cfg, p, t, l, w);
    case CaIdle | CaDisabled => RestFollowsSchedule(p, t, w);
    case _ => SaveFollowsSchedule(id, p, t, l, w);
  }

  lemma RestFollowsSchedule(p: Phase, t: CaTask, w: CaWorld)
    requires t.state == CaIdle || t.state == CaDisabled
    ensures FollowsSchedule(t, p, w, t)
  {
  }

  // Where a helper is due and can be started, it is; the hooks run before and after saving,
  // the first with the lock in hand; and then the phase waits for its descriptor, or is
  // looked at again soon if it has none.
  predicate StartsNow(t: CaTask, p: Phase, l: Lock, w: CaWorld) {
    && w.started
    && match t.state
       case CaNeedToRefresh | CaStartSavingData | CaNeedPostSaveData => true
       case CaNeedToSaveData => l == Unlocked
       case CaNeedToAnalyze => w.pollable && (p == Certs || p == EncryptionCerts)
       case _ => false
  }

  lemma DueIsStarted(cfg: Config, external: bool, id: nat, p: Phase, t: CaTask, l: Lock, w: CaWorld)
    requires StartsNow(t, p, l, w)
    ensures var st := StepCa(cfg, external, id, p, t, l, w);
            var hook := t.state == CaNeedToSaveData || t.state == CaNeedPostSaveData;
            && st.task.live == t.live + {if hook then SaveHook else DueIn(t.state, p).value}
            && st.task.state != t.state && st.lock == (if t.state == CaNeedToSaveData then Lock(ACa(id), Some(p)) else l)
            && st.watchFd == w.pollable && st.when == Some(if w.pollable then NoTime else Soon)
  {
  }

  // A phase whose helper is running is left as it is.
  lemma RunningIsWaitedFor(cfg: Config, external: bool, id: nat, p: Phase, t: CaTask, l: Lock, w: CaWorld)
    requires !w.ready && CaSound(id, p, t, l) && CaHelpersOf(t.state) != {}
    ensures var st := StepCa(cfg, external, id, p, t, l, w);
            && st.task == t && st.lock == l && st.fault == NoFault && !st.restartEntries
            && st.watchFd == w.pollable && st.when == Some(if w.pollable then NoTime else Soon)
  {
  }

  // What a finished helper leads to: what is due next, and when the phase is looked at
  // again.

  predicate FetchLeads(cfg: Config, p: Phase, w: CaWorld, now: CaSlot) {
    match w.outcome
    case DataModified =>
      now.event == Timer(0) && if p == Certs then DueIn(now.task.state, p) == Some(SaveCerts) else now.task.state == CaNeedToAnalyze
    case DataUnchanged => now.event == Timer(0) && now.task.state == CaNeedToAnalyze
    case DataRetry =>
      && DueIn(now.task.state, p) == Some(Fetch)
      && now.event == Timer(if w.specifiedDelay >= 0 then w.specifiedDelay else cfg.cadataPoll)
    case DataUnreachable | DataUnconfigured => DueIn(now.task.state, p) == Some(Fetch) && now.event == Timer(cfg.cadataPoll)
    case DataRejected => now.task.state == CaIdle && now.event == Timer(cfg.caMax)
    case DataUnsupported => now.task.state == CaDisabled && now.event == Timer(0)
  }

  predicate SaveLeads(cfg: Config, p: Phase, w: CaWorld, now: CaSlot) {
    && now.task.state == CaNeedPostSaveData
    && now.event == Timer(match w.saveOutcome
                          case CertsSaved | SavePermissions => 0
                          case SaveFailure => cfg.soonish)
  }

  // The delay is the one the analysis names, within the limits.
  predicate AnalysisLeads(cfg: Config, p: Phase, w: CaWorld, now: CaSlot) {
    if w.refreshDelay == 0 then now.task.state == CaIdle && now.event == Timer(0)
    else
      && DueIn(now.task.state, p) == Some(Fetch) && now.event.Timer?
      && var atLeast := if w.refreshDelay < cfg.caMin then cfg.caMin else w.refreshDelay;
         now.event.seconds == if atLeast > cfg.caMax then cfg.caMax else atLeast
  }

  // Whatever else the visit does, the phase is left as the step left it.
  lemma VisitedPhase(cfg: Config, s: System, j: nat, p: Phase, cw: CaWorld, ws: nat -> RestartWorlds)
    requires s.fault == NoFault && Enabled(s, VisitCa(j, p, cw, ws))
    ensures var r := Next(cfg, s, VisitCa(j, p, cw, ws));
            var ca := s.cas[j];
            var st := StepCa(cfg, ca.external, ca.id, p, ca.slots[p].task, s.lock, cw);
            r.fault == NoFault ==>
              && j < |r.cas| && p in r.cas[j].slots
              && r.cas[j].slots[p] == CaSlot(st.task, EventFor(cfg, if st.when.Some? then st.when.value else cw.leftover, st.delay, st.watchFd))
  {
    hide StepCa, RestartByCa, EventFor;
    EarlierStay(cfg, s, s.cas[j].name, ws, 0);
  }

  lemma FetchedStep(cfg: Config, external: bool, id: nat, p: Phase, t: CaTask, l: Lock, w: CaWorld)
    requires t.state == CaRefreshing && Fetch in t.live && w.ready
    ensures var st := StepCa(cfg, external, id, p, t, l, w);
            && st.when.Some? && st.task.live == t.live - {Fetch}
            && FetchLeads(cfg, p, w, CaSlot(st.task, EventFor(cfg, st.when.value, st.delay, st.watchFd)))
  {
    hide StepRefresh, StepSave, StepAnalyze, FetchLeads, EventFor;
    FetchedRefresh(cfg, external, p, t, l, w);
  }

  lemma FetchedRefresh(cfg: Config, external: bool, p: Phase, t: CaTask, l: Lock, w: CaWorld)
    requires t.state == CaRefreshing && Fetch in t.live && w.ready
    ensures var st := StepRefresh(cfg, external, p, t, l, w);
            && st.when.Some? && st.task.live == t.live - {Fetch}
            && FetchLeads(cfg, p, w, CaSlot(st.task, EventFor(cfg, st.when.value, st.delay, st.watchFd)))
  {
  }

  lemma SavedStep(cfg: Config, external: bool, id: nat, p: Phase, t: CaTask, l: Lock, w: CaWorld)
    requires t.state == CaSavingData && SaveCerts in t.live && w.ready
    ensures var st := StepCa(cfg, external, id, p, t, l, w);
            && st.when.Some? && st.task.live == t.live - {SaveCerts}
            && SaveLeads(cfg, p, w, CaSlot(st.task, EventFor(cfg, st.when.value, st.delay, st.watchFd)))
  {
    hide UnlockByCa, LockByCa;
  }

  lemma AnalyzedStep(cfg: Config, external: bool, id: nat, p: Phase, t: CaTask, l: Lock, w: CaWorld)
    requires t.state == CaAnalyzing && Analysis in t.live && w.ready && (p == Certs || p == EncryptionCerts)
    ensures var st := StepCa(cfg, external, id, p, t, l, w);
            && st.when.Some? && st.task.live == t.live - {Analysis}
            && AnalysisLeads(cfg, p, w, CaSlot(st.task, EventFor(cfg, st.when.value, st.delay, st.watchFd)))
  {
    hide UnlockByCa, LockByCa;
  }

  // What each answer of each helper of a phase leads to, and when.
  lemma AnswersLead(cfg: Config, s: System, j: nat, p: Phase, cw: CaWorld, ws: nat -> RestartWorlds)
    requires s.fault == NoFault && Enabled(s, VisitCa(j, p, cw, ws)) && Finishes(s.cas[j].slots[p].task, cw)
    requires Next(cfg, s, VisitCa(j, p, cw, ws)).fault == NoFault
    ensures var t := s.cas[j].slots[p].task;
            var r := Next(cfg, s, VisitCa(j, p, cw, ws));
            && j < |r.cas| && p in r.cas[j].slots
            && (t.state == CaRefreshing ==> FetchLeads(cfg, p, cw, r.cas[j].slots[p]))
            && (t.state == CaSavingData ==> SaveLeads(cfg, p, cw, r.cas[j].slots[p]))
            && (t.state == CaAnalyzing && (p == Certs || p == EncryptionCerts) ==> AnalysisLeads(cfg, p, cw, r.cas[j].slots[p]))
  {
    hide StepCa, EventFor, Next, FetchLeads, SaveLeads, AnalysisLeads;
    var ca := s.cas[j];
    var t := ca.slots[p].task;
    VisitedPhase(cfg, s, j, p, cw, ws);
    if t.state == CaRefreshing {
      FetchedStep(cfg, ca.external, ca.id, p, t, s.lock, cw);
    } else if t.state == CaSavingData {
      SavedStep(cfg, ca.external, ca.id, p, t, s.lock, cw);
    } else if p == Certs || p == EncryptionCerts {
      AnalyzedStep(cfg, ca.external, ca.id, p, t, s.lock, cw);
    }
  }

  // Over looks in which no helper but a hook finishes, and none is given up, the first
  // helper a phase starts, hooks apart, is the one which was due: new certificates are
  // saved before they are analyzed, whatever the locks and the hooks.

  datatype Look = Look(l: Lock, w: CaWorld)

  predicate Quiet(cfg: Config, external: bool, id: nat, p: Phase, t: CaTask, looks: seq<Look>)
    decreases |looks|
  {
    looks == [] ||
      (!Finishes(t, looks[0].w) && !GivesUp(t, p, looks[0].w) &&
       Quiet(cfg, external, id, p, StepCa(cfg, external, id, p, t, looks[0].l, looks[0].w).task, looks[1..]))
  }

  function LookAll(cfg: Config, external: bool, id: nat, p: Phase, t: CaTask, looks: seq<Look>): CaTask
    decreases |looks|
  {
    if looks == [] then t
    else LookAll(cfg, external, id, p, StepCa(cfg, external, id, p, t, looks[0].l, looks[0].w).task, looks[1..])
  }

  lemma {:induction false} FirstStartedIsDue(cfg: Config, external: bool, id: nat, p: Phase, t: CaTask, looks: seq<Look>)
    requires Quiet(cfg, external, id, p, t, looks)
    ensures var t1 := LookAll(cfg, external, id, p, t, looks);
            && DueIn(t1.state, p) == DueIn(t.state, p)
            && forall h :: h in t1.live && h !in t.live ==> h == SaveHook || DueIn(t.state, p) == Some(h)
    decreases |looks|
  {
    hide StepCa, DueIn, Finishes, GivesUp;
    if looks != [] {
      StepFollowsSchedule(cfg, external, id, p, t, looks[0].l, looks[0].w);
      FirstStartedIsDue(cfg, external, id, p, StepCa(cfg, external, id, p, t, looks[0].l, looks[0].w).task, looks[1..]);
    }
  }
}
