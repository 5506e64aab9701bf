/**
 The daemon as a whole: any number of entries and CAs, the one writing lock, and
 each entry's and CA phase's next appointment.  A run is any sequence of visits
 and of starts, stops, additions, removals and changes made from outside.
 */
module Daemon {
  import opened Wrappers
  import opened EntryStates
  import opened WritingLock
  import opened Expiry
  import opened EntrySteps
  import opened CaSteps

  datatype Event = NoEvent | Timer(seconds: int) | Descriptor

  datatype Slot = Slot(entry: Entry, event: Event)

  datatype CaSlot = CaSlot(task: CaTask, event: Event)

  datatype Ca = Ca(id: nat, name: string, external: bool, slots: map<Phase, CaSlot>)

  // Identities below nextId have been handed out.
  datatype System = System(slots: seq<Slot>, cas: seq<Ca>, lock: Lock, nextId: nat, fault: Fault)

  // What the outside world answers while an entry is restarted.
  datatype RestartWorlds = RestartWorlds(stop: World, init: World, step: World)

  const ALL_PHASES: seq<Phase> :=
    [Identify, Certs, Profiles, DefaultProfile, EnrollReqs, RenewReqs, Capabilities, EncryptionCerts]

  lemma PhaseIsListed(p: Phase)
    ensures p in ALL_PHASES
  {
    assert ALL_PHASES[0] == Identify && ALL_PHASES[1] == Certs && ALL_PHASES[2] == Profiles
        && ALL_PHASES[3] == DefaultProfile && ALL_PHASES[4] == EnrollReqs && ALL_PHASES[5] == RenewReqs
        && ALL_PHASES[6] == Capabilities && ALL_PHASES[7] == EncryptionCerts;
  }

  function EventFor(cfg: Config, when: When, delay: int, watchFd: bool): Event {
    match when
    case Now => Timer(0)
    case Soon => Timer(cfg.soon)
    case Soonish => Timer(cfg.soonish)
    case After => Timer(delay)
    case NoTime => if watchFd then Descriptor else NoEvent
  }

  function PutEntry(s: System, i: nat, e: Entry, l: Lock, event: Event, fault: Fault): System
    requires i < |s.slots|
  {
    s.(slots := s.slots[i := Slot(e, event)], lock := l, fault := fault)
  }

  function PutCa(s: System, j: nat, p: Phase, t: CaTask, l: Lock, event: Event, fault: Fault): System
    requires j < |s.cas|
  {
    s.(cas := s.cas[j := s.cas[j].(slots := s.cas[j].slots[p := CaSlot(t, event)])], lock := l, fault := fault)
  }

  // Entries.

  function ServiceEntry(cfg: Config, s: System, i: nat, w: World): System
    requires i < |s.slots|
  {
    var st := StepEntry(cfg, s.slots[i].entry, s.lock, w);
    PutEntry(s, i, st.entry, st.lock, EventFor(cfg, st.when, st.delay, st.watchFd), st.fault)
  }

  function StopEntry(s: System, i: nat, w: World): System
    requires i < |s.slots|
  {
    var st := DoneEntry(s.slots[i].entry, s.lock, w);
    PutEntry(s, i, st.entry, st.lock, NoEvent, st.fault)
  }

  function SetUpEntry(s: System, i: nat, w: World): System
    requires i < |s.slots|
  {
    var st := InitEntry(s.slots[i].entry, s.lock, w);
    PutEntry(s, i, st.entry, st.lock, s.slots[i].event, st.fault)
  }

  function StartEntry(cfg: Config, s: System, i: nat, init: World, step: World): System
    requires i < |s.slots|
  {
    var s1 := SetUpEntry(s, i, init);
    if s1.fault != NoFault then s1 else ServiceEntry(cfg, s1, i, step)
  }

  function RestartEntry(cfg: Config, s: System, i: nat, ws: RestartWorlds): System
    requires i < |s.slots|
  {
    var s1 := StopEntry(s, i, ws.stop);
    if s1.fault != NoFault then s1 else StartEntry(cfg, s1, i, ws.init, ws.step)
  }

  // Restart every entry from number i on which names the CA.
  function RestartByCa(cfg: Config, s: System, name: string, ws: nat -> RestartWorlds, i: nat): (r: System)
    ensures |r.slots| == |s.slots|
    decreases |s.slots| - i
  {
    if i >= |s.slots| || s.fault != NoFault then s
    else
      var s1 := if s.slots[i].entry.caName == Some(name) then RestartEntry(cfg, s, i, ws(i)) else s;
      RestartByCa(cfg, s1, name, ws, i + 1)
  }

  // CAs.

  function ServiceCa(cfg: Config, s: System, j: nat, p: Phase, w: CaWorld, ws: nat -> RestartWorlds): System
    requires j < |s.cas| && p in s.cas[j].slots
  {
    var ca := s.cas[j];
    var st := StepCa(cfg, ca.external, ca.id, p, ca.slots[p].task, s.lock, w);
    if st.fault != NoFault then s.(fault := st.fault)
    else
      var when := if st.when.Some? then st.when.value else w.leftover;
      var event := EventFor(cfg, when, st.delay, st.watchFd);
      if st.restartEntries then
        var s1 := RestartByCa(cfg, s, ca.name, ws, 0);
        if s1.fault != NoFault || j >= |s1.cas| then s1 else PutCa(s1, j, p, st.task, s1.lock, event, NoFault)
      else PutCa(s, j, p, st.task, st.lock, event, NoFault)
  }

  function StopCa(s: System, j: nat, p: Phase): System
    requires j < |s.cas| && p in s.cas[j].slots
  {
    var st := DoneCa(s.cas[j].id, p, s.cas[j].slots[p].task, s.lock);
    if st.fault != NoFault then s.(fault := st.fault) else PutCa(s, j, p, st.task, st.lock, NoEvent, NoFault)
  }

  function SetUpCa(s: System, j: nat, p: Phase): System
    requires j < |s.cas| && p in s.cas[j].slots
  {
    var st := InitCa(s.cas[j].id, p, s.lock);
    PutCa(s, j, p, st.task, st.lock, s.cas[j].slots[p].event, NoFault)
  }

  function StartCa(cfg: Config, s: System, j: nat, p: Phase, w: CaWorld): System
    requires j < |s.cas| && p in s.cas[j].slots
  {
    var s1 := SetUpCa(s, j, p);
    var st := StepCa(cfg, s1.cas[j].external, s1.cas[j].id, p, s1.cas[j].slots[p].task, s1.lock, w);
    if st.fault != NoFault then s1.(fault := st.fault)
    else
      var when := if st.when.Some? then st.when.value else w.leftover;
      PutCa(s1, j, p, st.task, st.lock, EventFor(cfg, when, st.delay, st.watchFd), NoFault)
  }

  predicate HasPhases(ca: Ca) {
    forall p: Phase :: p in ca.slots
  }

  // Start, or stop, the phases of a CA from number k on.
  function StartPhases(cfg: Config, s: System, j: nat, ws: Phase -> CaWorld, k: nat): System
    requires j < |s.cas| && HasPhases(s.cas[j])
    decreases |ALL_PHASES| - k
  {
    if k >= |ALL_PHASES| || s.fault != NoFault then s
    else StartPhases(cfg, StartCa(cfg, s, j, ALL_PHASES[k], ws(ALL_PHASES[k])), j, ws, k + 1)
  }

  function StopPhases(s: System, j: nat, k: nat): (r: System)
    requires j < |s.cas| && HasPhases(s.cas[j])
    ensures |r.cas| == |s.cas|
    decreases |ALL_PHASES| - k
  {
    if k >= |ALL_PHASES| || s.fault != NoFault then s
    else StopPhases(StopCa(s, j, ALL_PHASES[k]), j, k + 1)
  }

  const StoppedTask := CaTask(CaIdle, false, {}, false)

  function NewEntry(id: nat, keyLocation: bool, state: EntryState, caName: Option<string>, watch: Watch, keys: Keys): Entry {
    Entry(id, keyLocation, state, false, {}, caName, watch, keys, false, false)
  }

  function NewCa(id: nat, name: string, external: bool): (ca: Ca)
    ensures HasPhases(ca) && forall p: Phase :: ca.slots[p].task == StoppedTask
  {
    var idle := CaSlot(StoppedTask, NoEvent);
    assert forall p: Phase :: p in ALL_PHASES by { forall p: Phase ensures p in ALL_PHASES { PhaseIsListed(p); } }
    Ca(id, name, external, map p | p in ALL_PHASES :: idle)
  }

  function StartAdded(cfg: Config, s: System, e: Entry, init: World, w: World): System {
    StartEntry(cfg, s.(slots := s.slots + [Slot(e, NoEvent)], nextId := s.nextId + 1), |s.slots|, init, w)
  }

  function StopAndDrop(s: System, i: nat, w: World, deleted: bool): System
    requires i < |s.slots|
  {
    var s1 := StopEntry(s, i, w);
    if s1.fault != NoFault || !deleted then s1 else s1.(slots := s1.slots[..i] + s1.slots[i + 1..])
  }

  function WithCa(s: System, ca: Ca): (r: System)
    ensures |r.cas| == |s.cas| + 1 && r.cas[|s.cas|] == ca
  {
    s.(cas := s.cas + [ca], nextId := s.nextId + 1)
  }

  function StartAddedCa(cfg: Config, s: System, ca: Ca, cws: Phase -> CaWorld): System
    requires HasPhases(ca)
  {
    StartPhases(cfg, WithCa(s, ca), |s.cas|, cws, 0)
  }

  function StopAndDropCa(s: System, j: nat, deleted: bool): System
    requires j < |s.cas| && HasPhases(s.cas[j])
  {
    var s1 := StopPhases(s, j, 0);
    if s1.fault != NoFault || !deleted then s1 else s1.(cas := s1.cas[..j] + s1.cas[j + 1..])
  }

  // Everything that can happen to the daemon.
  datatype Action =
    | VisitEntry(i: nat, w: World)
    | VisitCa(j: nat, p: Phase, cw: CaWorld, ws: nat -> RestartWorlds)
    | DoStartEntry(i: nat, init: World, w: World)
    | DoStopEntry(i: nat, w: World)
    | ChangeState(i: nat, state: EntryState)
    | ChangeSettings(i: nat, caName: Option<string>, monitor: bool, autorenew: bool)
    | AddEntry(keyLocation: bool, state: EntryState, caName: Option<string>, watch: Watch, keys: Keys, init: World, w: World)
    | RemoveEntry(i: nat, w: World, deleted: bool)
    | DoStartCa(j: nat, p: Phase, cw: CaWorld)
    | DoStopCa(j: nat, p: Phase)
    | AddCa(name: string, external: bool, cws: Phase -> CaWorld)
    | RemoveCa(j: nat, deleted: bool)

  // The object an action is about is there, a visit has an appointment to keep,
  // and a state is only changed, to a valid one, while the entry is stopped.
  predicate Enabled(s: System, a: Action) {
    match a
    case VisitEntry(i, _) => i < |s.slots| && s.slots[i].entry.started && s.slots[i].event != NoEvent
    case VisitCa(j, p, _, _) =>
      j < |s.cas| && p in s.cas[j].slots && s.cas[j].slots[p].task.started && s.cas[j].slots[p].event != NoEvent
    case DoStartEntry(i, _, _) => i < |s.slots|
    case DoStopEntry(i, _) => i < |s.slots|
    case ChangeState(i, state) => i < |s.slots| && !s.slots[i].entry.started && state != Invalid
    case ChangeSettings(i, _, _, _) => i < |s.slots|
    case AddEntry(_, state, _, _, _, _, _) => state != Invalid
    case RemoveEntry(i, _, _) => i < |s.slots|
    case DoStartCa(j, p, _) => j < |s.cas| && p in s.cas[j].slots
    case DoStopCa(j, p) => j < |s.cas| && p in s.cas[j].slots
    case AddCa(_, _, _) => true
    case RemoveCa(j, _) => j < |s.cas| && HasPhases(s.cas[j])
  }

  function Perform(cfg: Config, s: System, a: Action): System
    requires Enabled(s, a)
  {
    match a
    case VisitEntry(i, w) => ServiceEntry(cfg, s, i, w)
    case VisitCa(j, p, cw, ws) => ServiceCa(cfg, s, j, p, cw, ws)
    case DoStartEntry(i, init, w) => StartEntry(cfg, s, i, init, w)
    case DoStopEntry(i, w) => StopEntry(s, i, w)
    case ChangeState(i, state) => s.(slots := s.slots[i := s.slots[i].(entry := s.slots[i].entry.(state := state))])
    case ChangeSettings(i, caName, monitor, autorenew) =>
      var e := s.slots[i].entry;
      var e1 := e.(caName := caName, watch := e.watch.(monitor := monitor, autorenew := autorenew));
      s.(slots := s.slots[i := s.slots[i].(entry := e1)])
    case AddEntry(keyLocation, state, caName, watch, keys, init, w) =>
      StartAdded(cfg, s, NewEntry(s.nextId, keyLocation, state, caName, watch, keys), init, w)
    case RemoveEntry(i, w, deleted) => StopAndDrop(s, i, w, deleted)
    case DoStartCa(j, p, cw) => StartCa(cfg, s, j, p, cw)
    case DoStopCa(j, p) => StopCa(s, j, p)
    case AddCa(name, external, cws) =>
      StartAddedCa(cfg, s, NewCa(s.nextId, name, external), cws)
    case RemoveCa(j, deleted) => StopAndDropCa(s, j, deleted)
  }

  // A faulted process does nothing any more; what is not enabled does not happen.
  function Next(cfg: Config, s: System, a: Action): System {
    if s.fault == NoFault && Enabled(s, a) then Perform(cfg, s, a) else s
  }

  function Run(cfg: Config, s: System, actions: seq<Action>): System
    decreases |actions|
  {
    if actions == [] then s else Run(cfg, Next(cfg, s, actions[0]), actions[1..])
  }

  // Start-up: all stored entries and CAs are set up first and then visited once.

  function SetUpEntries(s: System, ws: nat -> World, i: nat): (r: System)
    ensures |r.slots| == |s.slots| && r.cas == s.cas
    decreases |s.slots| - i
  {
    if i >= |s.slots| || s.fault != NoFault then s else SetUpEntries(SetUpEntry(s, i, ws(i)), ws, i + 1)
  }

  function VisitEntries(cfg: Config, s: System, ws: nat -> World, i: nat): (r: System)
    ensures |r.slots| == |s.slots| && r.cas == s.cas
    decreases |s.slots| - i
  {
    if i >= |s.slots| || s.fault != NoFault then s else VisitEntries(cfg, ServiceEntry(cfg, s, i, ws(i)), ws, i + 1)
  }
}
