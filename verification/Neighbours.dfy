/**
 What an action leaves alone: every entry, CA and phase but the one it is about, which
 the action takes out, puts in or changes in its own place.
 */
module Neighbours {
  import opened Wrappers
  import opened EntryStates
  import opened WritingLock
  import opened Expiry
  import opened EntrySteps
  import opened CaSteps
  import opened Daemon
  import opened Restarts

  predicate OnlyEntry(s: System, r: System, i: nat) {
    && r.cas == s.cas && |r.slots| == |s.slots|
    && forall k :: 0 <= k < |s.slots| && k != i ==> r.slots[k] == s.slots[k]
  }

  // Among CAs, only one phase of one; it keeps its name.
  predicate OnlyPhase(s: System, r: System, j: nat, p: Phase) {
    && |r.cas| == |s.cas|
    && (forall k :: 0 <= k < |s.cas| && k != j ==> r.cas[k] == s.cas[k])
    && (j < |s.cas| ==>
          && r.cas[j].id == s.cas[j].id && r.cas[j].name == s.cas[j].name && r.cas[j].external == s.cas[j].external
          && r.cas[j].slots.Keys == s.cas[j].slots.Keys
          && forall q :: q in s.cas[j].slots && q != p ==> r.cas[j].slots[q] == s.cas[j].slots[q])
  }

  // The entry as it is set up: put back to where it can go on from, with its validity read.
  function SetUp(e: Entry, init: World): Entry {
    e.(state := Reset(e.state), started := true, live := {},
       watch := e.watch.(notBefore := init.readNotBefore, notAfter := init.readNotAfter))
  }

  // What an action about one entry, or a new one, does to it and to the others.
  predicate Leaves(cfg: Config, s: System, a: Action, r: System)
    requires Enabled(s, a)
  {
    match a
    case VisitEntry(i, w) => OnlyEntry(s, r, i) && (r.fault == NoFault ==> IsLookedAt(cfg, s.slots[i].entry, s.lock, w, r.slots[i]))
    case DoStartEntry(i, init, w) =>
      && OnlyEntry(s, r, i)
      && (r.fault == NoFault ==>
            IsLookedAt(cfg, SetUp(s.slots[i].entry, init), GivenUp(s.lock, s.slots[i].entry.id), w, r.slots[i]))
    case DoStopEntry(i, _) =>
      OnlyEntry(s, r, i) && (r.fault == NoFault ==> r.slots[i].event == NoEvent && !r.slots[i].entry.started && r.slots[i].entry.live == {})
    case ChangeState(i, state) => OnlyEntry(s, r, i) && r.slots[i].entry == s.slots[i].entry.(state := state)
    case ChangeSettings(i, caName, _, _) =>
      OnlyEntry(s, r, i) && r.slots[i].event == s.slots[i].event && r.slots[i].entry.caName == caName
    case AddEntry(keyLocation, state, caName, watch, keys, init, w) =>
      && r.cas == s.cas && |r.slots| == |s.slots| + 1 && r.nextId == s.nextId + 1
      && (forall k :: 0 <= k < |s.slots| ==> r.slots[k] == s.slots[k])
      && (r.fault == NoFault ==>
            var e := Entry(s.nextId, keyLocation, state, false, {}, caName, watch, keys, false, false);
            IsLookedAt(cfg, SetUp(e, init), GivenUp(s.lock, s.nextId), w, r.slots[|s.slots|]))
    case RemoveEntry(i, _, deleted) =>
      if !deleted || r.fault != NoFault then OnlyEntry(s, r, i)
      else
        && r.cas == s.cas && |r.slots| == |s.slots| - 1
        && forall k :: 0 <= k < |s.slots| && k != i ==> r.slots[if k < i then k else k - 1] == s.slots[k]
    case VisitCa(j, p, _, _) => OnlyPhase(s, r, j, p) && |r.slots| == |s.slots|
    case DoStartCa(j, p, _) => OnlyPhase(s, r, j, p) && r.slots == s.slots
    case DoStopCa(j, p) =>
      OnlyPhase(s, r, j, p) && r.slots == s.slots && (r.fault == NoFault ==> r.cas[j].slots[p].event == NoEvent && !r.cas[j].slots[p].task.started)
    case AddCa(name, external, _) =>
      && r.slots == s.slots && |r.cas| == |s.cas| + 1 && (forall k :: 0 <= k < |s.cas| ==> r.cas[k] == s.cas[k])
      && r.cas[|s.cas|].id == s.nextId && r.cas[|s.cas|].name == name && r.cas[|s.cas|].external == external
    case RemoveCa(j, deleted) =>
      && r.slots == s.slots
      && if !deleted || r.fault != NoFault then |r.cas| == |s.cas| && forall k :: 0 <= k < |s.cas| && k != j ==> r.cas[k] == s.cas[k]
         else |r.cas| == |s.cas| - 1 && forall k :: 0 <= k < |s.cas| && k != j ==> r.cas[if k < j then k else k - 1] == s.cas[k]
  }

  lemma LettingGoOnce(l: Lock, id: nat)
    ensures LetGo(l, id) == GivenUp(l, id)
  {
  }

  lemma StartedIsLookedAt(cfg: Config, s: System, i: nat, init: World, w: World)
    requires i < |s.slots|
    ensures var r := StartEntry(cfg, s, i, init, w);
            && OnlyEntry(s, r, i) && r.nextId == s.nextId
            && (r.fault == NoFault ==>
                  IsLookedAt(cfg, SetUp(s.slots[i].entry, init), GivenUp(s.lock, s.slots[i].entry.id), w, r.slots[i]))
  {
    hide StepEntry, Reset, LetGo, GivenUp;
    LettingGoOnce(s.lock, s.slots[i].entry.id);
  }

  lemma {:induction false} PhasesStart(cfg: Config, s: System, j: nat, ws: Phase -> CaWorld, k: nat)
    requires j < |s.cas| && HasPhases(s.cas[j])
    ensures var r := StartPhases(cfg, s, j, ws, k);
            && r.slots == s.slots && |r.cas| == |s.cas| && (forall n :: 0 <= n < |s.cas| && n != j ==> r.cas[n] == s.cas[n])
            && r.cas[j].id == s.cas[j].id && r.cas[j].name == s.cas[j].name && r.cas[j].external == s.cas[j].external
    decreases |ALL_PHASES| - k
  {
    hide StepCa, EventFor;
    if k < |ALL_PHASES| && s.fault == NoFault {
      PhasesStart(cfg, StartCa(cfg, s, j, ALL_PHASES[k], ws(ALL_PHASES[k])), j, ws, k + 1);
    }
  }

  lemma {:induction false} PhasesStop(s: System, j: nat, k: nat)
    requires j < |s.cas| && HasPhases(s.cas[j])
    ensures var r := StopPhases(s, j, k);
            r.slots == s.slots && |r.cas| == |s.cas| && forall n :: 0 <= n < |s.cas| && n != j ==> r.cas[n] == s.cas[n]
    decreases |ALL_PHASES| - k
  {
    hide DoneCa;
    if k < |ALL_PHASES| && s.fault == NoFault {
      PhasesStop(StopCa(s, j, ALL_PHASES[k]), j, k + 1);
    }
  }

  lemma AddedIsLast(cfg: Config, s: System, e: Entry, init: World, w: World)
    ensures var r := StartAdded(cfg, s, e, init, w);
            && r.cas == s.cas && |r.slots| == |s.slots| + 1 && r.nextId == s.nextId + 1
            && (forall k :: 0 <= k < |s.slots| ==> r.slots[k] == s.slots[k])
            && (r.fault == NoFault ==> IsLookedAt(cfg, SetUp(e, init), GivenUp(s.lock, e.id), w, r.slots[|s.slots|]))
  {
    hide StartEntry, IsLookedAt, GivenUp, SetUp;
    var s1 := s.(slots := s.slots + [Slot(e, NoEvent)], nextId := s.nextId + 1);
    StartedIsLookedAt(cfg, s1, |s.slots|, init, w);
    var r := StartAdded(cfg, s, e, init, w);
    forall k | 0 <= k < |s.slots| ensures r.slots[k] == s.slots[k] {
      assert r.slots[k] == s1.slots[k];
    }
  }

  lemma VisitIsLook(cfg: Config, s: System, i: nat, w: World)
    requires i < |s.slots|
    ensures var r := ServiceEntry(cfg, s, i, w); OnlyEntry(s, r, i) && IsLookedAt(cfg, s.slots[i].entry, s.lock, w, r.slots[i])
  {
    hide StepEntry;
  }

  lemma VisitLeavesOthers(cfg: Config, s: System, j: nat, p: Phase, cw: CaWorld, ws: nat -> RestartWorlds)
    requires j < |s.cas| && p in s.cas[j].slots
    ensures var r := ServiceCa(cfg, s, j, p, cw, ws); OnlyPhase(s, r, j, p) && |r.slots| == |s.slots|
  {
    hide StepCa, EventFor, RestartByCa;
    EarlierStay(cfg, s, s.cas[j].name, ws, 0);
  }

  lemma EntryActionLeaves(cfg: Config, s: System, a: Action)
    requires s.fault == NoFault && Enabled(s, a)
    requires a.VisitEntry? || a.DoStartEntry? || a.DoStopEntry? || a.ChangeState? || a.ChangeSettings? || a.AddEntry? || a.RemoveEntry?
    ensures Leaves(cfg, s, a, Next(cfg, s, a))
  {
    hide StepEntry, InitEntry, StepCa, EventFor, StartAdded, StartEntry, ServiceEntry, OnlyPhase, HasPhases, ServiceCa,
         StartPhases, StopPhases, IsLookedAt, SetUp, GivenUp;
    match a
    case VisitEntry(i, w) => VisitIsLook(cfg, s, i, w);
    case DoStartEntry(i, init, w) => StartedIsLookedAt(cfg, s, i, init, w);
    case AddEntry(keyLocation, state, caName, watch, keys, init, w) =>
      AddedIsLast(cfg, s, NewEntry(s.nextId, keyLocation, state, caName, watch, keys), init, w);
    case _ =>
  }

  lemma CaActionLeaves(cfg: Config, s: System, a: Action)
    requires s.fault == NoFault && Enabled(s, a)
    requires a.VisitCa? || a.DoStartCa? || a.DoStopCa? || a.AddCa? || a.RemoveCa?
    ensures Leaves(cfg, s, a, Next(cfg, s, a))
  {
    hide StepEntry, StepCa, EventFor, StartPhases, StopPhases, StartAdded, StartEntry, ServiceEntry, StopEntry, OnlyPhase,
         HasPhases, ServiceCa, IsLookedAt, SetUp, GivenUp, StartCa, StopCa;
    match a
    case AddCa(name, external, cws) => PhasesStart(cfg, WithCa(s, NewCa(s.nextId, name, external)), |s.cas|, cws, 0);
    case RemoveCa(j, deleted) => PhasesStop(s, j, 0);
    case VisitCa(j, p, cw, ws) => VisitLeavesOthers(cfg, s, j, p, cw, ws);
    case DoStartCa(j, p, cw) => StartingLeavesOthers(cfg, s, j, p, cw);
    case DoStopCa(j, p) => StoppingLeavesOthers(s, j, p);
  }

  // An action about one entry or phase leaves all others, and all they wait for, alone;
  // entries of a CA which are restarted apart.
  lemma OthersAreLeftAlone(cfg: Config, s: System, a: Action)
    requires s.fault == NoFault && Enabled(s, a)
    ensures Leaves(cfg, s, a, Next(cfg, s, a))
  {
    hide Next, Leaves, Enabled;
    if a.VisitCa? || a.DoStartCa? || a.DoStopCa? || a.AddCa? || a.RemoveCa? {
      CaActionLeaves(cfg, s, a);
    } else {
      EntryActionLeaves(cfg, s, a);
    }
  }

  lemma StartingLeavesOthers(cfg: Config, s: System, j: nat, p: Phase, cw: CaWorld)
    requires j < |s.cas| && p in s.cas[j].slots
    ensures var r := StartCa(cfg, s, j, p, cw); OnlyPhase(s, r, j, p) && r.slots == s.slots
  {
    hide StepCa, EventFor;
  }

  lemma StoppingLeavesOthers(s: System, j: nat, p: Phase)
    requires j < |s.cas| && p in s.cas[j].slots
    ensures var r := StopCa(s, j, p);
            && OnlyPhase(s, r, j, p) && r.slots == s.slots
            && (r.fault == NoFault ==> r.cas[j].slots[p].event == NoEvent && !r.cas[j].slots[p].task.started)
  {
  }

  // A phase which is started fetches first, and gives up a lock it had.
  lemma StartedPhaseFetches(cfg: Config, s: System, j: nat, p: Phase, cw: CaWorld)
    requires s.fault == NoFault && Enabled(s, DoStartCa(j, p, cw)) && cw.started
    ensures var r := Next(cfg, s, DoStartCa(j, p, cw));
            && r.fault == NoFault && j < |r.cas| && p in r.cas[j].slots
            && r.cas[j].slots[p].task == CaTask(CaRefreshing, true, {Fetch}, false)
            && r.cas[j].slots[p].event == (if cw.pollable then Descriptor else Timer(cfg.soon))
            && r.lock == if s.lock == Lock(ACa(s.cas[j].id), Some(p)) then Unlocked else s.lock
  {
    hide Perform;
    StartIsFetch(cfg, s, j, p, cw);
    PerformsStart(cfg, s, j, p, cw);
  }

  lemma PerformsStart(cfg: Config, s: System, j: nat, p: Phase, cw: CaWorld)
    requires Enabled(s, DoStartCa(j, p, cw))
    ensures Perform(cfg, s, DoStartCa(j, p, cw)) == StartCa(cfg, s, j, p, cw)
  {
    hide StartCa, Enabled;
  }

  lemma StartIsFetch(cfg: Config, s: System, j: nat, p: Phase, cw: CaWorld)
    requires j < |s.cas| && p in s.cas[j].slots && cw.started && s.fault == NoFault
    ensures var r := StartCa(cfg, s, j, p, cw);
            && r.fault == NoFault && j < |r.cas| && p in r.cas[j].slots
            && r.cas[j].slots[p].task == CaTask(CaRefreshing, true, {Fetch}, false)
            && r.cas[j].slots[p].event == (if cw.pollable then Descriptor else Timer(cfg.soon))
            && r.lock == if s.lock == Lock(ACa(s.cas[j].id), Some(p)) then Unlocked else s.lock
  {
    hide StepSave, StepAnalyze;
  }
}
