/**
 The appointments of CA phases, over every run: which started phases are left
 without one; and runs from start-up in which the two slips of a phase come to bear.
 */
module CaWakeups {
  import opened Wrappers
  import opened EntryStates
  import opened WritingLock
  import opened Expiry
  import opened EntrySteps
  import opened CaSteps
  import opened Daemon
  import opened DaemonSafety

  // A started phase without an appointment.
  predicate Sleeps(slot: CaSlot) {
    slot.task.started && slot.event == NoEvent
  }

  // It is idle or disabled, or, if that may happen, stuck at the start of its save.
  predicate PhaseAwake(slot: CaSlot, stuck: bool) {
    Sleeps(slot) ==>
      slot.task.state == CaIdle || slot.task.state == CaDisabled || (stuck && slot.task.state == CaStartSavingData)
  }

  predicate PhasesAwake(ca: Ca, stuck: bool) {
    forall p: Phase :: p in ca.slots ==> PhaseAwake(ca.slots[p], stuck)
  }

  predicate CasAwake(s: System, stuck: bool) {
    forall j :: 0 <= j < |s.cas| ==> PhasesAwake(s.cas[j], stuck)
  }

  // A look which cannot start the save, while the caller's variable happens to hold
  // no appointment.
  predicate Sticks(t: CaTask, w: CaWorld) {
    t.state == CaStartSavingData && !w.started && w.leftover == NoTime
  }

  predicate MeetsStuckSave(s: System, a: Action)
    requires Enabled(s, a)
  {
    a.VisitCa? && Sticks(s.cas[a.j].slots[a.p].task, a.cw)
  }

  // All phases but one, which is given a new task and event.
  lemma PutCaKeepsAwake(s: System, j: nat, p: Phase, t: CaTask, l: Lock, event: Event, fault: Fault, stuck: bool)
    requires j < |s.cas| && PhaseAwake(CaSlot(t, event), stuck)
    requires forall k :: 0 <= k < |s.cas| && k != j ==> PhasesAwake(s.cas[k], stuck)
    requires forall q: Phase :: q != p && q in s.cas[j].slots ==> PhaseAwake(s.cas[j].slots[q], stuck)
    ensures CasAwake(PutCa(s, j, p, t, l, event, fault), stuck)
  {
    hide PhaseAwake;
  }

  function EventOf(cfg: Config, st: CaStep, w: CaWorld): Event {
    EventFor(cfg, if st.when.Some? then st.when.value else w.leftover, st.delay, st.watchFd)
  }

  // Where a look leaves the appointment unset, the phase is disabled or stuck.
  lemma UnsetLeads(cfg: Config, external: bool, id: nat, p: Phase, t: CaTask, l: Lock, w: CaWorld)
    requires NoAppointment(p, t, w)
    ensures var st := StepCa(cfg, external, id, p, t, l, w);
            st.task.state == CaDisabled || (t.state == CaStartSavingData && !w.started && st.task == t)
  {
  }

  lemma LookKeepsAwake(cfg: Config, external: bool, id: nat, p: Phase, t: CaTask, l: Lock, w: CaWorld, stuck: bool)
    requires CaSound(id, p, t, l) && Consistent(l) && !FetchHazard(external, t, w) && (Sticks(t, w) ==> stuck)
    ensures var st := StepCa(cfg, external, id, p, t, l, w);
            st.fault == NoFault && PhaseAwake(CaSlot(st.task, EventOf(cfg, st, w)), stuck)
  {
    hide StepCa, FetchHazard;
    CaStepIsGood(cfg, external, id, p, t, l, w);
    if NoAppointment(p, t, w) {
      UnsetLeads(cfg, external, id, p, t, l, w);
    }
  }

  lemma ServiceCaKeepsAwake(cfg: Config, s: System, j: nat, p: Phase, w: CaWorld, ws: nat -> RestartWorlds, stuck: bool)
    requires Good(s) && s.fault == NoFault && j < |s.cas| && p in s.cas[j].slots && s.cas[j].slots[p].task.started
    requires CasAwake(s, stuck) && (Sticks(s.cas[j].slots[p].task, w) ==> stuck)
    ensures CasAwake(ServiceCa(cfg, s, j, p, w, ws), stuck)
  {
    hide StepCa, RestartByCa, CaOk, PhaseAwake, CaGoodStep, Sticks, FetchHazard;
    var ca := s.cas[j];
    var t := ca.slots[p].task;
    var st := StepCa(cfg, ca.external, ca.id, p, t, s.lock, w);
    assert CaSound(ca.id, p, t, s.lock) && Consistent(s.lock) by { PhaseIsSound(s, j, p); }
    if FetchHazard(ca.external, t, w) {
      ServiceCaIsGood(cfg, s, j, p, w, ws);
      HazardFaults(cfg, ca, p, t, s.lock, w);
    } else {
      LookKeepsAwake(cfg, ca.external, ca.id, p, t, s.lock, w, stuck);
      RestartKeepsCas(cfg, s, ca.name, ws, 0);
      var s1 := if st.restartEntries then RestartByCa(cfg, s, ca.name, ws, 0) else s;
      PutCaKeepsAwake(s1, j, p, st.task, if st.restartEntries then s1.lock else st.lock, EventOf(cfg, st, w), NoFault, stuck);
    }
  }

  lemma PhaseIsSound(s: System, j: nat, p: Phase)
    requires Good(s) && j < |s.cas| && p in s.cas[j].slots && s.cas[j].slots[p].task.started
    ensures CaSound(s.cas[j].id, p, s.cas[j].slots[p].task, s.lock) && Consistent(s.lock)
  {
    hide CaSound;
    assert CaSlotsOk(s.cas[j], s.lock) && CaOk(s.cas[j].id, p, s.cas[j].slots[p].task, s.lock);
  }

  lemma HazardFaults(cfg: Config, ca: Ca, p: Phase, t: CaTask, l: Lock, w: CaWorld)
    requires CaSound(ca.id, p, t, l) && Consistent(l) && FetchHazard(ca.external, t, w)
    ensures StepCa(cfg, ca.external, ca.id, p, t, l, w).fault != NoFault
  {
    hide StepCa;
    CaStepIsGood(cfg, ca.external, ca.id, p, t, l, w);
  }

  // Looks at entries leave all CAs alone.
  lemma {:induction false} RestartKeepsCas(cfg: Config, s: System, name: string, ws: nat -> RestartWorlds, i: nat)
    ensures RestartByCa(cfg, s, name, ws, i).cas == s.cas
    decreases |s.slots| - i
  {
    hide StepEntry, InitEntry, DoneEntry;
    if i < |s.slots| && s.fault == NoFault {
      var s1 := if s.slots[i].entry.caName == Some(name) then RestartEntry(cfg, s, i, ws(i)) else s;
      RestartKeepsCas(cfg, s1, name, ws, i + 1);
    }
  }

  lemma EntriesKeepCas(cfg: Config, s: System, a: Action)
    requires Enabled(s, a) && AboutEntries(a)
    ensures Perform(cfg, s, a).cas == s.cas
  {
    hide StepEntry, InitEntry, DoneEntry;
  }

  lemma StopCaKeepsAwake(s: System, j: nat, p: Phase, stuck: bool)
    requires j < |s.cas| && p in s.cas[j].slots && CasAwake(s, stuck)
    ensures CasAwake(StopCa(s, j, p), stuck) && |StopCa(s, j, p).cas| == |s.cas|
  {
    var st := DoneCa(s.cas[j].id, p, s.cas[j].slots[p].task, s.lock);
    if st.fault == NoFault {
      PutCaKeepsAwake(s, j, p, st.task, st.lock, NoEvent, NoFault, stuck);
    }
  }

  lemma StartCaKeepsAwake(cfg: Config, s: System, j: nat, p: Phase, w: CaWorld, stuck: bool)
    requires Good(s) && s.fault == NoFault && j < |s.cas| && p in s.cas[j].slots && CasAwake(s, stuck)
    ensures var r := StartCa(cfg, s, j, p, w); r.fault == NoFault ==> CasAwake(r, stuck)
  {
    hide StepCa, InitCa, PhaseAwake;
    SetUpCaIsSafe(s, j, p);
    var s1 := SetUpCa(s, j, p);
    var ca, t := s1.cas[j], s1.cas[j].slots[p].task;
    PhaseIsSound(s1, j, p);
    JustSetUp(s, j, p, w);
    if FetchHazard(ca.external, t, w) {
      HazardFaults(cfg, ca, p, t, s1.lock, w);
    } else {
      LookKeepsAwake(cfg, ca.external, ca.id, p, t, s1.lock, w, stuck);
      var st := StepCa(cfg, ca.external, ca.id, p, t, s1.lock, w);
      PutCaKeepsAwake(s1, j, p, st.task, st.lock, EventOf(cfg, st, w), NoFault, stuck);
    }
  }

  lemma JustSetUp(s: System, j: nat, p: Phase, w: CaWorld)
    requires j < |s.cas| && p in s.cas[j].slots
    ensures var t := SetUpCa(s, j, p).cas[j].slots[p].task; t.started && !Sticks(t, w)
  {
  }

  lemma {:induction false} StartPhasesKeepsAwake(cfg: Config, s: System, j: nat, ws: Phase -> CaWorld, k: nat, stuck: bool)
    requires Good(s) && s.fault == NoFault && j < |s.cas| && HasPhases(s.cas[j]) && CasAwake(s, stuck)
    ensures var r := StartPhases(cfg, s, j, ws, k); r.fault == NoFault ==> CasAwake(r, stuck)
    decreases |ALL_PHASES| - k
  {
    hide StartCa, CasAwake;
    if k < |ALL_PHASES| {
      var p := ALL_PHASES[k];
      StartCaIsGood(cfg, s, j, p, ws(p));
      StartCaKeepsAwake(cfg, s, j, p, ws(p), stuck);
      var s1 := StartCa(cfg, s, j, p, ws(p));
      StartedHasPhases(cfg, s, j, p, ws(p));
      if s1.fault == NoFault {
        StartPhasesKeepsAwake(cfg, s1, j, ws, k + 1, stuck);
      } else {
        assert StartPhases(cfg, s1, j, ws, k + 1) == s1;
      }
    }
  }

  lemma StartedHasPhases(cfg: Config, s: System, j: nat, p: Phase, w: CaWorld)
    requires j < |s.cas| && HasPhases(s.cas[j])
    ensures var r := StartCa(cfg, s, j, p, w); |r.cas| == |s.cas| && HasPhases(r.cas[j])
  {
    hide StepCa;
  }

  lemma {:induction false} StopPhasesKeepsAwake(s: System, j: nat, k: nat, stuck: bool)
    requires j < |s.cas| && HasPhases(s.cas[j]) && CasAwake(s, stuck)
    ensures CasAwake(StopPhases(s, j, k), stuck)
    decreases |ALL_PHASES| - k
  {
    if k < |ALL_PHASES| && s.fault == NoFault {
      StopCaKeepsAwake(s, j, ALL_PHASES[k], stuck);
      StopPhasesKeepsAwake(StopCa(s, j, ALL_PHASES[k]), j, k + 1, stuck);
    }
  }

  lemma AddCaKeepsAwake(cfg: Config, s: System, ca: Ca, cws: Phase -> CaWorld, stuck: bool)
    requires Good(s) && s.fault == NoFault && CasAwake(s, stuck)
    requires ca.id == s.nextId && HasPhases(ca) && forall p: Phase :: ca.slots[p].task == StoppedTask
    ensures var r := StartAddedCa(cfg, s, ca, cws); r.fault == NoFault ==> CasAwake(r, stuck)
  {
    hide StartPhases;
    AppendCaIsSafe(s, ca);
    AwakeDependsOnSlots(s, WithCa(s, ca));
    StartPhasesKeepsAwake(cfg, WithCa(s, ca), |s.cas|, cws, 0, stuck);
  }

  lemma RemoveCaKeepsAwake(s: System, j: nat, deleted: bool, stuck: bool)
    requires j < |s.cas| && HasPhases(s.cas[j]) && CasAwake(s, stuck)
    ensures CasAwake(StopAndDropCa(s, j, deleted), stuck)
  {
    hide StopPhases;
    StopPhasesKeepsAwake(s, j, 0, stuck);
    var s1 := StopPhases(s, j, 0);
    if s1.fault == NoFault && deleted {
      var cas := s1.cas[..j] + s1.cas[j + 1..];
      forall k | 0 <= k < |cas| ensures cas[k] == s1.cas[if k < j then k else k + 1] {}
    }
  }

  lemma PerformKeepsAwake(cfg: Config, s: System, a: Action, stuck: bool)
    requires Good(s) && s.fault == NoFault && Enabled(s, a) && CasAwake(s, stuck) && (MeetsStuckSave(s, a) ==> stuck)
    ensures var r := Perform(cfg, s, a); r.fault == NoFault ==> CasAwake(r, stuck)
  {
    hide ServiceCa, StartCa, StopCa, StartAddedCa, StopAndDropCa, Sticks;
    if AboutEntries(a) {
      EntriesKeepCas(cfg, s, a);
    } else {
      match a
      case VisitCa(j, p, cw, ws) => ServiceCaKeepsAwake(cfg, s, j, p, cw, ws, stuck);
      case DoStartCa(j, p, cw) => StartCaKeepsAwake(cfg, s, j, p, cw, stuck);
      case DoStopCa(j, p) => StopCaKeepsAwake(s, j, p, stuck);
      case AddCa(name, external, cws) => AddCaKeepsAwake(cfg, s, NewCa(s.nextId, name, external), cws, stuck);
      case RemoveCa(j, deleted) => RemoveCaKeepsAwake(s, j, deleted, stuck);
    }
  }

  // No look in the run sticks.
  predicate NeverSticks(cfg: Config, s: System, actions: seq<Action>)
    decreases |actions|
  {
    actions == [] ||
    (&& (Enabled(s, actions[0]) ==> !MeetsStuckSave(s, actions[0]))
     && NeverSticks(cfg, Next(cfg, s, actions[0]), actions[1..]))
  }

  lemma {:induction false} RunKeepsAwake(cfg: Config, s: System, actions: seq<Action>, stuck: bool)
    requires Good(s) && s.fault == NoFault && CasAwake(s, stuck) && (stuck || NeverSticks(cfg, s, actions))
    ensures var r := Run(cfg, s, actions); r.fault == NoFault ==> CasAwake(r, stuck)
    decreases |actions|
  {
    hide Perform, CasAwake, Good;
    if actions != [] {
      var a := actions[0];
      if Enabled(s, a) {
        PerformIsGood(cfg, s, a);
        PerformKeepsAwake(cfg, s, a, stuck);
      }
      var s1 := Next(cfg, s, a);
      if s1.fault == NoFault {
        RunKeepsAwake(cfg, s1, actions[1..], stuck);
      } else {
        FaultedStays(cfg, s1, actions[1..]);
      }
    }
  }

  // From start-up on, in every run which has not ended in a fault, a started phase
  // without an appointment is idle or disabled, unless it is stuck at the start of
  // its save; and if no look sticks there, none is.
  lemma NoPhaseSleeps(cfg: Config, stored: System, setUp: nat -> World, visit: nat -> World, actions: seq<Action>)
    requires Stored(stored) && Reached(cfg, stored, setUp, visit, actions).fault == NoFault
    ensures var s := Reached(cfg, stored, setUp, visit, actions);
            forall j, p: Phase :: 0 <= j < |s.cas| && p in s.cas[j].slots && Sleeps(s.cas[j].slots[p]) ==>
              && s.cas[j].slots[p].task.state in {CaIdle, CaDisabled, CaStartSavingData}
              && (NeverSticks(cfg, Reached(cfg, stored, setUp, visit, []), actions) ==>
                    s.cas[j].slots[p].task.state in {CaIdle, CaDisabled})
  {
    hide Run, NeverSticks, Good;
    var boot := VisitEntries(cfg, SetUpEntries(stored, setUp, 0), visit, 0);
    BootIsGood(cfg, stored, setUp, visit);
    AtBoot(cfg, stored, setUp, visit);
    RunKeepsAwake(cfg, boot, actions, true);
    if NeverSticks(cfg, boot, actions) {
      RunKeepsAwake(cfg, boot, actions, false);
    }
  }

  lemma AtBoot(cfg: Config, stored: System, setUp: nat -> World, visit: nat -> World)
    requires Stored(stored)
    ensures var boot := VisitEntries(cfg, SetUpEntries(stored, setUp, 0), visit, 0);
            && Reached(cfg, stored, setUp, visit, []) == boot
            && forall stuck: bool :: CasAwake(boot, stuck)
  {
  }

  // Runs from start-up with one CA and no entries.

  function CaAnswer(started: bool, pollable: bool, outcome: CaOutcome, leftover: When): CaWorld {
    CaWorld(started, pollable, true, outcome, CertsSaved, 0, 0, leftover)
  }

  const ONE_CA := System([], [NewCa(0, "", false)], Unlocked, 1, NoFault)

  const WORKS := CaAnswer(true, true, DataUnchanged, Now)
  const WITHOUT_DESCRIPTOR := CaAnswer(true, false, DataUnchanged, Now)
  const MODIFIED := CaAnswer(true, true, DataModified, Now)
  const WITHOUT_HOOK := CaAnswer(false, true, DataModified, Now)
  const CANNOT_START := CaAnswer(false, true, DataModified, NoTime)

  // The fetch brings nothing new, and the analysis which follows has no descriptor
  // to wait on; then the phase is stopped.
  function StaleRun(ws: nat -> RestartWorlds): seq<Action> {
    [DoStartCa(0, Certs, WORKS), VisitCa(0, Certs, WORKS, ws), VisitCa(0, Certs, WITHOUT_DESCRIPTOR, ws),
     DoStopCa(0, Certs)]
  }

  // The fetch brings new certificates, there is no hook to run before saving them,
  // and the save cannot be started.
  function StuckRun(ws: nat -> RestartWorlds): seq<Action> {
    [DoStartCa(0, Certs, WORKS), VisitCa(0, Certs, MODIFIED, ws), VisitCa(0, Certs, WITHOUT_HOOK, ws),
     VisitCa(0, Certs, CANNOT_START, ws)]
  }

  // Where the one CA's certificates phase is, and who has the lock.
  predicate IsAt(s: System, t: CaTask, l: Lock) {
    && |s.cas| == 1 && Certs in s.cas[0].slots && s.cas[0].id == 0 && !s.cas[0].external
    && s.fault == NoFault && s.lock == l && s.cas[0].slots[Certs].task == t && t.started
  }

  predicate HasAppointment(s: System)
    requires |s.cas| == 1 && Certs in s.cas[0].slots
  {
    s.cas[0].slots[Certs].event != NoEvent
  }

  function Task(state: CaState): CaTask {
    CaTask(state, true, CaHelpersOf(state), false)
  }

  // What a look which asks for no restart does, given what the step does.
  lemma Looked(cfg: Config, s: System, t: CaTask, l: Lock, w: CaWorld, ws: nat -> RestartWorlds, st: CaStep)
    requires IsAt(s, t, l) && HasAppointment(s) && st == StepCa(cfg, false, 0, Certs, t, l, w)
    requires st.fault == NoFault && !st.restartEntries && st.task.started
    ensures var r := Next(cfg, s, VisitCa(0, Certs, w, ws));
            IsAt(r, st.task, st.lock) && r.cas[0].slots[Certs].event == EventOf(cfg, st, w)
  {
    hide StepCa;
  }

  lemma StartsFetching(cfg: Config)
    ensures var r := Next(cfg, ONE_CA, DoStartCa(0, Certs, WORKS));
            IsAt(r, Task(CaRefreshing), Unlocked) && HasAppointment(r)
  {
    var s1 := SetUpCa(ONE_CA, 0, Certs);
    var t := CaTask(CaNeedToRefresh, true, {}, false);
    assert s1.cas[0].slots[Certs].task == t && s1.lock == Unlocked;
    assert StepCa(cfg, false, 0, Certs, t, Unlocked, WORKS).task == Task(CaRefreshing);
  }

  lemma FindsNothingNew(cfg: Config, s: System, ws: nat -> RestartWorlds)
    requires IsAt(s, Task(CaRefreshing), Unlocked) && HasAppointment(s)
    ensures var r := Next(cfg, s, VisitCa(0, Certs, WORKS, ws));
            IsAt(r, Task(CaNeedToAnalyze), Unlocked) && HasAppointment(r)
  {
    var st := StepCa(cfg, false, 0, Certs, Task(CaRefreshing), Unlocked, WORKS);
    assert st.task == Task(CaNeedToAnalyze) && st.lock == Unlocked && st.when == Some(Now);
    Looked(cfg, s, Task(CaRefreshing), Unlocked, WORKS, ws, st);
  }

  lemma IsDisabled(cfg: Config, s: System, ws: nat -> RestartWorlds)
    requires IsAt(s, Task(CaNeedToAnalyze), Unlocked) && HasAppointment(s)
    ensures IsAt(Next(cfg, s, VisitCa(0, Certs, WITHOUT_DESCRIPTOR, ws)), CaTask(CaDisabled, true, {}, true), Unlocked)
  {
    var st := StepCa(cfg, false, 0, Certs, Task(CaNeedToAnalyze), Unlocked, WITHOUT_DESCRIPTOR);
    Looked(cfg, s, Task(CaNeedToAnalyze), Unlocked, WITHOUT_DESCRIPTOR, ws, st);
  }

  lemma FindsNew(cfg: Config, s: System, ws: nat -> RestartWorlds)
    requires IsAt(s, Task(CaRefreshing), Unlocked) && HasAppointment(s)
    ensures var r := Next(cfg, s, VisitCa(0, Certs, MODIFIED, ws));
            IsAt(r, Task(CaNeedToSaveData), Unlocked) && HasAppointment(r)
  {
    var st := StepCa(cfg, false, 0, Certs, Task(CaRefreshing), Unlocked, MODIFIED);
    assert st.task == Task(CaNeedToSaveData) && st.lock == Unlocked && st.when == Some(Now);
    Looked(cfg, s, Task(CaRefreshing), Unlocked, MODIFIED, ws, st);
  }

  lemma TakesLock(cfg: Config, s: System, ws: nat -> RestartWorlds)
    requires IsAt(s, Task(CaNeedToSaveData), Unlocked) && HasAppointment(s)
    ensures var r := Next(cfg, s, VisitCa(0, Certs, WITHOUT_HOOK, ws));
            IsAt(r, Task(CaStartSavingData), Lock(ACa(0), Some(Certs))) && HasAppointment(r)
  {
    var st := StepCa(cfg, false, 0, Certs, Task(CaNeedToSaveData), Unlocked, WITHOUT_HOOK);
    Looked(cfg, s, Task(CaNeedToSaveData), Unlocked, WITHOUT_HOOK, ws, st);
  }

  lemma GetsStuck(cfg: Config, s: System, ws: nat -> RestartWorlds)
    requires IsAt(s, Task(CaStartSavingData), Lock(ACa(0), Some(Certs))) && HasAppointment(s)
    ensures var r := Next(cfg, s, VisitCa(0, Certs, CANNOT_START, ws));
            IsAt(r, Task(CaStartSavingData), Lock(ACa(0), Some(Certs))) && !HasAppointment(r)
  {
    var st := StepCa(cfg, false, 0, Certs, Task(CaStartSavingData), Lock(ACa(0), Some(Certs)), CANNOT_START);
    Looked(cfg, s, Task(CaStartSavingData), Lock(ACa(0), Some(Certs)), CANNOT_START, ws, st);
  }

  lemma FourActions(cfg: Config, s: System, actions: seq<Action>)
    requires |actions| == 4
    ensures Run(cfg, s, actions) ==
              Next(cfg, Next(cfg, Next(cfg, Next(cfg, s, actions[0]), actions[1]), actions[2]), actions[3])
  {
    hide Next;
    var s1 := Next(cfg, s, actions[0]);
    var s2 := Next(cfg, s1, actions[1]);
    assert Run(cfg, s, actions) == Run(cfg, s1, actions[1..]) == Run(cfg, s2, actions[1..][1..]);
    assert actions[1..][1..] == [actions[2], actions[3]];
    var s3 := Next(cfg, s2, actions[2]);
    assert Run(cfg, s2, [actions[2], actions[3]]) == Run(cfg, s3, [actions[3]]) == Run(cfg, Next(cfg, s3, actions[3]), []);
  }

  lemma OneCaBoots(cfg: Config, ws: nat -> World)
    ensures Stored(ONE_CA) && Reached(cfg, ONE_CA, ws, ws, []) == ONE_CA
  {
  }

  lemma RunsFromBoot(cfg: Config, ws: nat -> World, actions: seq<Action>)
    ensures Reached(cfg, ONE_CA, ws, ws, actions) == Run(cfg, ONE_CA, actions)
  {
    OneCaBoots(cfg, ws);
  }

  // Stopping the phase after an analysis without a descriptor uses its handle again.
  lemma StaleHandleIsReached(cfg: Config, visits: nat -> World, ws: nat -> RestartWorlds)
    ensures Stored(ONE_CA) && Reached(cfg, ONE_CA, visits, visits, StaleRun(ws)).fault == StaleHandle
  {
    hide Perform;
    OneCaBoots(cfg, visits);
    RunsFromBoot(cfg, visits, StaleRun(ws));
    FourActions(cfg, ONE_CA, StaleRun(ws));
    StartsFetching(cfg);
    var s1 := Next(cfg, ONE_CA, DoStartCa(0, Certs, WORKS));
    FindsNothingNew(cfg, s1, ws);
    var s2 := Next(cfg, s1, VisitCa(0, Certs, WORKS, ws));
    IsDisabled(cfg, s2, ws);
    FinishedAgain(cfg, Next(cfg, s2, VisitCa(0, Certs, WITHOUT_DESCRIPTOR, ws)));
  }

  lemma FinishedAgain(cfg: Config, s: System)
    requires IsAt(s, CaTask(CaDisabled, true, {}, true), Unlocked)
    ensures Next(cfg, s, DoStopCa(0, Certs)).fault == StaleHandle
  {
  }

  // A phase sleeps at the start of its save, with the lock in its hands.
  lemma StuckSaveIsReached(cfg: Config, visits: nat -> World, ws: nat -> RestartWorlds)
    ensures var s := Reached(cfg, ONE_CA, visits, visits, StuckRun(ws));
            && Stored(ONE_CA) && s.fault == NoFault && |s.cas| == 1 && CaOwns(s.lock, s.cas[0].id, Certs)
            && Certs in s.cas[0].slots && Sleeps(s.cas[0].slots[Certs])
            && s.cas[0].slots[Certs].task.state == CaStartSavingData
  {
    hide Perform;
    OneCaBoots(cfg, visits);
    RunsFromBoot(cfg, visits, StuckRun(ws));
    FourActions(cfg, ONE_CA, StuckRun(ws));
    StartsFetching(cfg);
    var s1 := Next(cfg, ONE_CA, DoStartCa(0, Certs, WORKS));
    FindsNew(cfg, s1, ws);
    var s2 := Next(cfg, s1, VisitCa(0, Certs, MODIFIED, ws));
    TakesLock(cfg, s2, ws);
    GetsStuck(cfg, Next(cfg, s2, VisitCa(0, Certs, WITHOUT_HOOK, ws)), ws);
  }
}
