/**
 One look at one phase of a CA's upkeep, as a total function, and what every
 such step keeps.  Two of the source's slips are part of the model: the save
 handle is finished without being there when fetching cannot be started for an
 external CA, and an analysis without a descriptor is finished but stays in
 place.  In two branches the source sets no next appointment.
 */
module CaSteps {
  import opened Wrappers
  import opened EntryStates
  import opened WritingLock
  import opened Expiry

  datatype CaState =
    | CaIdle | CaNeedToRefresh | CaRefreshing | CaDataUnreachable
    | CaNeedToSaveData | CaPreSaveData | CaStartSavingData | CaSavingData
    | CaNeedPostSaveData | CaPostSaveData | CaSavedData
    | CaNeedToAnalyze | CaAnalyzing | CaDisabled

  datatype CaHelper = Fetch | SaveHook | SaveCerts | Analysis

  datatype CaTask = CaTask(
    state: CaState,
    started: bool,
    live: set<CaHelper>,
    stale: bool)       // an analysis handle was finished but not cleared

  datatype CaOutcome =
    | DataModified | DataRetry | DataRejected | DataUnreachable | DataUnsupported | DataUnconfigured | DataUnchanged

  datatype SaveOutcome = CertsSaved | SavePermissions | SaveFailure

  datatype CaWorld = CaWorld(
    started: bool, pollable: bool, ready: bool,
    outcome: CaOutcome,
    saveOutcome: SaveOutcome,
    specifiedDelay: int,
    refreshDelay: int,
    leftover: When)    // what the caller's variable for the next appointment held before

  // The next appointment, None where the source leaves it as it was.
  datatype CaStep = CaStep(
    task: CaTask, lock: Lock, when: Option<When>, delay: int, watchFd: bool,
    restartEntries: bool, fault: Fault)

  // The phases whose data is analyzed.
  predicate Analyzed(p: Phase) {
    p == Certs || p == EncryptionCerts
  }

  function CaStay(t: CaTask, l: Lock, when: When): CaStep {
    CaStep(t, l, Some(when), 0, false, false, NoFault)
  }

  function CaMove(t: CaTask, l: Lock, s: CaState, when: When): CaStep {
    CaStay(t.(state := s), l, when)
  }

  function CaBreak(t: CaTask, l: Lock, fault: Fault): CaStep {
    CaStep(t, l, None, 0, false, false, fault)
  }

  function CaPoll(t: CaTask, l: Lock, w: CaWorld): CaStep {
    CaStep(t, l, Some(if w.pollable then NoTime else Soon), 0, w.pollable, false, NoFault)
  }

  function CaLaunched(t: CaTask, l: Lock, h: CaHelper, s: CaState, w: CaWorld): CaStep {
    CaPoll(t.(state := s, live := t.live + {h}), l, w)
  }

  function CaFinish(t: CaTask, l: Lock, h: CaHelper, s: CaState, when: When): CaStep {
    CaStay(t.(state := s, live := t.live - {h}), l, when)
  }

  function CaAwait(t: CaTask, l: Lock, h: CaHelper, w: CaWorld, done: CaStep): CaStep {
    if h !in t.live then CaBreak(t, l, NullHandle)
    else if !w.ready then CaPoll(t, l, w)
    else done
  }

  function StepRefresh(cfg: Config, external: bool, p: Phase, t: CaTask, l: Lock, w: CaWorld): CaStep {
    match t.state
    case CaNeedToRefresh =>
      if w.started then CaLaunched(t, l, Fetch, CaRefreshing, w)
      else if external && SaveCerts !in t.live then CaBreak(t, l, NullHandle)
      else CaMove(t.(live := if external then t.live - {SaveCerts} else t.live), l, CaDisabled, Now)
    case CaRefreshing =>
      CaAwait(t, l, Fetch, w,
        match w.outcome
        case DataModified =>
          if p == Certs then CaFinish(t, l, Fetch, CaNeedToSaveData, Now)
          else CaFinish(t, l, Fetch, CaNeedToAnalyze, Now).(restartEntries := true)
        case DataRetry =>
          CaFinish(t, l, Fetch, CaNeedToRefresh, After)
            .(delay := if w.specifiedDelay < 0 then cfg.cadataPoll else w.specifiedDelay)
        case DataRejected => CaFinish(t, l, Fetch, CaIdle, After).(delay := cfg.caMax)
        case DataUnreachable | DataUnconfigured =>
          CaFinish(t, l, Fetch, CaDataUnreachable, After).(delay := cfg.cadataPoll)
        case DataUnsupported => CaFinish(t, l, Fetch, CaDisabled, Now)
        case DataUnchanged => CaFinish(t, l, Fetch, CaNeedToAnalyze, Now))
    case CaDataUnreachable => CaMove(t, l, CaNeedToRefresh, Soonish)
    case _ => CaStay(t, l, NoTime)
  }

  function StepSave(id: nat, p: Phase, t: CaTask, l: Lock, w: CaWorld): CaStep {
    match t.state
    case CaNeedToSaveData => (
      match LockByCa(l, id, p)
      case Abort => CaBreak(t, l, Aborted)
      case Refused => CaStay(t, l, Soon)
      case Granted(l1) =>
        if w.started then CaLaunched(t, l1, SaveHook, CaPreSaveData, w) else CaMove(t, l1, CaStartSavingData, Now))
    case CaPreSaveData => CaAwait(t, l, SaveHook, w, CaFinish(t, l, SaveHook, CaStartSavingData, Now))
    case CaStartSavingData =>
      if w.started then CaLaunched(t, l, SaveCerts, CaSavingData, w)
      else CaStay(t, l, NoTime).(when := None)
    case CaSavingData =>
      CaAwait(t, l, SaveCerts, w,
        CaFinish(t, l, SaveCerts, CaNeedPostSaveData, if w.saveOutcome == SaveFailure then Soonish else Now))
    case CaNeedPostSaveData =>
      if w.started then CaLaunched(t, l, SaveHook, CaPostSaveData, w) else CaMove(t, l, CaSavedData, Now)
    case CaPostSaveData => CaAwait(t, l, SaveHook, w, CaFinish(t, l, SaveHook, CaSavedData, Now))
    case CaSavedData => (
      match UnlockByCa(l, id, p)
      case Abort => CaBreak(t, l, Aborted)
      case Refused => CaStay(t, l, Soon)
      case Granted(l1) => CaMove(t, l1, CaNeedToAnalyze, Now))
    case _ => CaStay(t, l, NoTime)
  }

  function StepAnalyze(cfg: Config, p: Phase, t: CaTask, l: Lock, w: CaWorld): CaStep {
    match t.state
    case CaNeedToAnalyze =>
      if !Analyzed(p) then CaMove(t, l, CaIdle, Now)
      else if !w.started then CaMove(t, l, CaDisabled, Now)
      else if !w.pollable then CaMove(t.(stale := true), l, CaDisabled, NoTime).(when := None)
      else CaLaunched(t, l, Analysis, CaAnalyzing, w)
    case CaAnalyzing =>
      if !Analyzed(p) then CaBreak(t, l, Aborted)
      else
        CaAwait(t, l, Analysis, w,
          if w.refreshDelay != 0
          then CaFinish(t, l, Analysis, CaNeedToRefresh, After).(delay := Clamp(cfg.caMin, cfg.caMax, w.refreshDelay))
          else CaFinish(t, l, Analysis, CaIdle, Now))
    case _ => CaStay(t, l, NoTime)
  }

  function StepCa(cfg: Config, external: bool, id: nat, p: Phase, t: CaTask, l: Lock, w: CaWorld): CaStep {
    match t.state
    case CaNeedToRefresh | CaRefreshing | CaDataUnreachable => StepRefresh(cfg, external, p, t, l, w)
    case CaNeedToAnalyze | CaAnalyzing => StepAnalyze(cfg, p, t, l, w)
    case CaIdle | CaDisabled => CaStay(t, l, NoTime)
    case _ => StepSave(id, p, t, l, w)
  }

  function CaLetGo(l: Lock, id: nat, p: Option<Phase>): Lock {
    if HasLock(l, ACa(id), p) && p.Some? && UnlockByCa(l, id, p.value).Granted? then UnlockByCa(l, id, p.value).lock else l
  }

  function InitCa(id: nat, p: Phase, l: Lock): CaStep {
    CaStay(CaTask(CaNeedToRefresh, true, {}, false), CaLetGo(l, id, Some(p)), NoTime)
  }

  // Every handle which is there is finished, also one which already was.
  function DoneCa(id: nat, p: Phase, t: CaTask, l: Lock): CaStep {
    if t.started && t.stale then CaBreak(t, l, StaleHandle)
    else CaStay(CaTask(t.state, false, {}, false), CaLetGo(l, id, if t.started then Some(p) else None), NoTime)
  }

  // The handles which should be there in a state.
  function CaHelpersOf(s: CaState): set<CaHelper> {
    match s
    case CaRefreshing => {Fetch}
    case CaPreSaveData | CaPostSaveData => {SaveHook}
    case CaSavingData => {SaveCerts}
    case CaAnalyzing => {Analysis}
    case _ => {}
  }

  // The states in which the phase owns the lock.
  predicate CaHolds(s: CaState) {
    match s
    case CaPreSaveData | CaStartSavingData | CaSavingData | CaNeedPostSaveData | CaPostSaveData | CaSavedData => true
    case _ => false
  }

  predicate CaOwns(l: Lock, id: nat, p: Phase) {
    l == Lock(ACa(id), Some(p))
  }

  // A started phase between two steps.
  predicate CaSound(id: nat, p: Phase, t: CaTask, l: Lock) {
    && t.started
    && t.live == CaHelpersOf(t.state)
    && (CaHolds(t.state) <==> CaOwns(l, id, p))
    && (t.stale ==> t.state == CaDisabled)
    && (t.state == CaAnalyzing ==> Analyzed(p))
  }

  predicate CaOnlyOwnMove(before: Lock, after: Lock, id: nat, p: Phase) {
    after == before || (before in {Unlocked, Lock(ACa(id), Some(p))} && after in {Unlocked, Lock(ACa(id), Some(p))})
  }

  // The conditions under which a step of a phase goes wrong.
  predicate FetchHazard(external: bool, t: CaTask, w: CaWorld) {
    t.state == CaNeedToRefresh && external && !w.started
  }

  predicate NoAppointment(p: Phase, t: CaTask, w: CaWorld) {
    || (t.state == CaStartSavingData && !w.started)
    || (t.state == CaNeedToAnalyze && Analyzed(p) && w.started && !w.pollable)
  }

  predicate CaGoodStep(external: bool, id: nat, p: Phase, t: CaTask, l: Lock, w: CaWorld, s: CaStep) {
    && s.fault == (if FetchHazard(external, t, w) then NullHandle else NoFault)
    && CaSound(id, p, s.task, s.lock)
    && Consistent(s.lock)
    && CaOnlyOwnMove(l, s.lock, id, p)
    && (s.restartEntries ==> s.lock == l && !CaOwns(l, id, p) && p != Certs)
    && (s.fault == NoFault ==> (s.when == None <==> NoAppointment(p, t, w)))
    && (s.when == Some(NoTime) && !s.watchFd ==> s.task.state in {CaIdle, CaDisabled})
  }

  lemma CaLaunchedIsGood(external: bool, id: nat, p: Phase, t: CaTask, l0: Lock, l: Lock, h: CaHelper, s: CaState, w: CaWorld)
    requires t.started && t.live == {} && !t.stale && CaHelpersOf(s) == {h}
    requires CaHolds(s) <==> CaOwns(l, id, p)
    requires s == CaAnalyzing ==> Analyzed(p)
    requires !FetchHazard(external, t, w) && !NoAppointment(p, t, w) && Consistent(l) && CaOnlyOwnMove(l0, l, id, p)
    ensures CaGoodStep(external, id, p, t, l0, w, CaLaunched(t, l, h, s, w))
  {
  }

  lemma CaAwaitIsGood(external: bool, id: nat, p: Phase, t: CaTask, l: Lock, h: CaHelper, w: CaWorld,
                      s: CaState, when: When)
    requires CaSound(id, p, t, l) && Consistent(l) && t.live == {h} && !t.stale && CaHelpersOf(s) == {}
    requires CaHolds(s) <==> CaOwns(l, id, p)
    requires when != NoTime && t.state in {CaRefreshing, CaPreSaveData, CaSavingData, CaPostSaveData, CaAnalyzing}
    ensures CaGoodStep(external, id, p, t, l, w, CaAwait(t, l, h, w, CaFinish(t, l, h, s, when)))
  {
  }

  lemma RefreshingIsGood(cfg: Config, external: bool, id: nat, p: Phase, t: CaTask, l: Lock, w: CaWorld)
    requires CaSound(id, p, t, l) && Consistent(l) && t.state == CaRefreshing
    ensures CaGoodStep(external, id, p, t, l, w, StepRefresh(cfg, external, p, t, l, w))
  {
    var s := match w.outcome
             case DataModified => if p == Certs then CaNeedToSaveData else CaNeedToAnalyze
             case DataRetry => CaNeedToRefresh
             case DataRejected => CaIdle
             case DataUnreachable | DataUnconfigured => CaDataUnreachable
             case DataUnsupported => CaDisabled
             case DataUnchanged => CaNeedToAnalyze;
    CaAwaitIsGood(external, id, p, t, l, Fetch, w, s, Now);
    CaAwaitIsGood(external, id, p, t, l, Fetch, w, s, After);
  }

  lemma RefreshIsGood(cfg: Config, external: bool, id: nat, p: Phase, t: CaTask, l: Lock, w: CaWorld)
    requires CaSound(id, p, t, l) && Consistent(l) && t.state in {CaNeedToRefresh, CaRefreshing, CaDataUnreachable}
    ensures CaGoodStep(external, id, p, t, l, w, StepRefresh(cfg, external, p, t, l, w))
  {
    match t.state
    case CaNeedToRefresh =>
      if w.started {
        CaLaunchedIsGood(external, id, p, t, l, l, Fetch, CaRefreshing, w);
      }
    case CaRefreshing => RefreshingIsGood(cfg, external, id, p, t, l, w);
    case _ =>
  }

  lemma SavingIsGood(external: bool, id: nat, p: Phase, t: CaTask, l: Lock, w: CaWorld)
    requires CaSound(id, p, t, l) && Consistent(l)
    requires t.state in {CaPreSaveData, CaSavingData, CaPostSaveData}
    ensures CaGoodStep(external, id, p, t, l, w, StepSave(id, p, t, l, w))
  {
    match t.state
    case CaPreSaveData => CaAwaitIsGood(external, id, p, t, l, SaveHook, w, CaStartSavingData, Now);
    case CaSavingData =>
      CaAwaitIsGood(external, id, p, t, l, SaveCerts, w, CaNeedPostSaveData,
                    if w.saveOutcome == SaveFailure then Soonish else Now);
    case CaPostSaveData => CaAwaitIsGood(external, id, p, t, l, SaveHook, w, CaSavedData, Now);
    case _ =>
  }

  lemma ToSaveIsGood(external: bool, id: nat, p: Phase, t: CaTask, l: Lock, w: CaWorld)
    requires CaSound(id, p, t, l) && Consistent(l) && t.state == CaNeedToSaveData
    ensures CaGoodStep(external, id, p, t, l, w, StepSave(id, p, t, l, w))
  {
    if l == Unlocked && w.started {
      CaLaunchedIsGood(external, id, p, t, l, Lock(ACa(id), Some(p)), SaveHook, CaPreSaveData, w);
    }
  }

  lemma SaveIsGood(external: bool, id: nat, p: Phase, t: CaTask, l: Lock, w: CaWorld)
    requires CaSound(id, p, t, l) && Consistent(l)
    requires CaHolds(t.state) || t.state == CaNeedToSaveData
    ensures CaGoodStep(external, id, p, t, l, w, StepSave(id, p, t, l, w))
  {
    match t.state
    case CaNeedToSaveData => ToSaveIsGood(external, id, p, t, l, w);
    case CaStartSavingData =>
      if w.started {
        CaLaunchedIsGood(external, id, p, t, l, l, SaveCerts, CaSavingData, w);
      }
    case CaNeedPostSaveData =>
      if w.started {
        CaLaunchedIsGood(external, id, p, t, l, l, SaveHook, CaPostSaveData, w);
      }
    case CaSavedData =>
    case _ => SavingIsGood(external, id, p, t, l, w);
  }

  lemma AnalyzeIsGood(cfg: Config, external: bool, id: nat, p: Phase, t: CaTask, l: Lock, w: CaWorld)
    requires CaSound(id, p, t, l) && Consistent(l) && t.state in {CaNeedToAnalyze, CaAnalyzing}
    ensures CaGoodStep(external, id, p, t, l, w, StepAnalyze(cfg, p, t, l, w))
  {
    match t.state
    case CaNeedToAnalyze =>
      if Analyzed(p) && w.started && w.pollable {
        CaLaunchedIsGood(external, id, p, t, l, l, Analysis, CaAnalyzing, w);
      }
    case CaAnalyzing =>
      CaAwaitIsGood(external, id, p, t, l, Analysis, w, CaNeedToRefresh, After);
      CaAwaitIsGood(external, id, p, t, l, Analysis, w, CaIdle, Now);
    case _ =>
  }

  // A phase keeps its discipline; it goes wrong exactly in the one hazard, and
  // never by aborting; it asks for a restart of its entries only while it does
  // not hold the lock; and only the two known branches set no appointment.
  lemma CaStepIsGood(cfg: Config, external: bool, id: nat, p: Phase, t: CaTask, l: Lock, w: CaWorld)
    requires CaSound(id, p, t, l) && Consistent(l)
    ensures CaGoodStep(external, id, p, t, l, w, StepCa(cfg, external, id, p, t, l, w))
  {
    match t.state
    case CaNeedToRefresh | CaRefreshing | CaDataUnreachable => RefreshIsGood(cfg, external, id, p, t, l, w);
    case CaNeedToAnalyze | CaAnalyzing => AnalyzeIsGood(cfg, external, id, p, t, l, w);
    case CaIdle | CaDisabled =>
    case _ => SaveIsGood(external, id, p, t, l, w);
  }

  // The hazard is real: an external CA whose fetch cannot be started.
  lemma FetchHazardHappens(cfg: Config, w: CaWorld)
    requires !w.started
    ensures var t := InitCa(0, Certs, Unlocked).task;
            StepCa(cfg, true, 0, Certs, t, Unlocked, w).fault == NullHandle
  {
  }

  // So is the other: a phase whose analysis has nothing to wait on is left with a
  // handle which was finished, and stopping it finishes the handle again.
  lemma StaleHandleHappens(cfg: Config, external: bool, id: nat, p: Phase, t: CaTask, l: Lock, w: CaWorld)
    requires t.started && !t.stale && t.state == CaNeedToAnalyze && Analyzed(p)
    ensures DoneCa(id, p, StepCa(cfg, external, id, p, t, l, w).task, l).fault == StaleHandle <==> w.started && !w.pollable
  {
  }
}
