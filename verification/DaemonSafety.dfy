/**
 What holds in every state of every run of the daemon: no call to abort(), one
 owner of the writing lock at most and always one which exists, handles which
 match the states, and no started entry left without an appointment unless it
 waits for an operator.
 */
module DaemonSafety {
  import opened Wrappers
  import opened EntryStates
  import opened WritingLock
  import opened Expiry
  import opened EntrySteps
  import opened EntrySafety
  import opened CaSteps
  import opened Daemon

  predicate EntryOk(e: Entry, l: Lock) {
    if e.started then Sound(e, l) else e.live == {} && !Owns(l, e) && e.state != Invalid
  }

  predicate CaOk(id: nat, p: Phase, t: CaTask, l: Lock) {
    if t.started then CaSound(id, p, t, l) else t.live == {} && !t.stale && !CaOwns(l, id, p)
  }

  predicate DistinctEntries(s: System) {
    && (forall i :: 0 <= i < |s.slots| ==> s.slots[i].entry.id < s.nextId)
    && (forall i, k :: 0 <= i < k < |s.slots| ==> s.slots[i].entry.id != s.slots[k].entry.id)
  }

  predicate DistinctCas(s: System) {
    && (forall j :: 0 <= j < |s.cas| ==> s.cas[j].id < s.nextId)
    && (forall j, k :: 0 <= j < k < |s.cas| ==> s.cas[j].id != s.cas[k].id)
  }

  predicate EntriesOk(s: System) {
    forall i :: 0 <= i < |s.slots| ==> EntryOk(s.slots[i].entry, s.lock)
  }

  predicate CaSlotsOk(ca: Ca, l: Lock) {
    HasPhases(ca) && forall p: Phase :: CaOk(ca.id, p, ca.slots[p].task, l)
  }

  predicate CasOk(s: System) {
    forall j :: 0 <= j < |s.cas| ==> CaSlotsOk(s.cas[j], s.lock)
  }

  // The owner of the lock is one of the entries or CAs.
  predicate OwnerPresent(s: System) {
    match s.lock.owner
    case Nobody => true
    case AnEntry(id) => exists i :: 0 <= i < |s.slots| && s.slots[i].entry.id == id
    case ACa(id) => exists j :: 0 <= j < |s.cas| && s.cas[j].id == id
  }

  predicate Safe(s: System) {
    Consistent(s.lock) && DistinctEntries(s) && DistinctCas(s) && EntriesOk(s) && CasOk(s) && OwnerPresent(s)
  }

  // The entry will be looked at again, or waits for an operator.
  predicate Awake(slot: Slot) {
    slot.entry.started ==> slot.event != NoEvent || WaitsForOperator(slot.entry.state)
  }

  predicate AllAwake(s: System) {
    forall i :: 0 <= i < |s.slots| ==> Awake(s.slots[i])
  }

  predicate Good(s: System) {
    Safe(s) && AllAwake(s) && s.fault != Aborted
  }

  // Replacing one entry, when the lock only moved between it and nobody.
  lemma PutEntryKeepsSafe(s: System, i: nat, e: Entry, l: Lock, event: Event, fault: Fault)
    requires Safe(s) && i < |s.slots| && e.id == s.slots[i].entry.id
    requires EntryOk(e, l) && Consistent(l) && OnlyOwnMove(s.lock, l, e.id)
    ensures Safe(PutEntry(s, i, e, l, event, fault))
  {
    var r := PutEntry(s, i, e, l, event, fault);
    forall k | 0 <= k < |r.slots| ensures EntryOk(r.slots[k].entry, l) {
      if k != i {
        assert EntryOk(s.slots[k].entry, s.lock);
        assert s.slots[k].entry.id != e.id;
      }
    }
    forall j | 0 <= j < |r.cas| ensures CaSlotsOk(r.cas[j], l) {
      assert CaSlotsOk(s.cas[j], s.lock);
    }
    assert OwnerPresent(r) by {
      if r.lock.owner.AnEntry? {
        if l == s.lock {
          var k :| 0 <= k < |s.slots| && s.slots[k].entry.id == l.owner.id;
          assert r.slots[k].entry.id == l.owner.id;
        } else {
          assert r.slots[i].entry.id == l.owner.id;
        }
      }
    }
  }

  lemma PutCaKeepsSafe(s: System, j: nat, p: Phase, t: CaTask, l: Lock, event: Event, fault: Fault)
    requires Safe(s) && j < |s.cas|
    requires CaOk(s.cas[j].id, p, t, l) && Consistent(l) && CaOnlyOwnMove(s.lock, l, s.cas[j].id, p)
    ensures Safe(PutCa(s, j, p, t, l, event, fault))
  {
    var r := PutCa(s, j, p, t, l, event, fault);
    forall k | 0 <= k < |r.slots| ensures EntryOk(r.slots[k].entry, l) {
      assert EntryOk(s.slots[k].entry, s.lock);
    }
    forall k | 0 <= k < |r.cas| ensures CaSlotsOk(r.cas[k], l) {
      assert CaSlotsOk(s.cas[k], s.lock);
      if k != j {
        assert s.cas[k].id != s.cas[j].id;
      }
      forall q: Phase ensures CaOk(r.cas[k].id, q, r.cas[k].slots[q].task, l) {
        assert CaOk(s.cas[k].id, q, s.cas[k].slots[q].task, s.lock);
      }
    }
    assert OwnerPresent(r) by {
      if r.lock.owner.ACa? {
        if l == s.lock {
          var k :| 0 <= k < |s.cas| && s.cas[k].id == l.owner.id;
          assert r.cas[k].id == l.owner.id;
        } else {
          assert r.cas[j].id == l.owner.id;
        }
      }
    }
  }

  lemma ServiceEntryIsGood(cfg: Config, s: System, i: nat, w: World)
    requires Safe(s) && i < |s.slots| && s.slots[i].entry.started
    ensures var r := ServiceEntry(cfg, s, i, w);
            Safe(r) && r.fault == NoFault && Awake(r.slots[i])
  {
    var e := s.slots[i].entry;
    assert EntryOk(e, s.lock);
    StepIsGood(cfg, e, s.lock, w);
    var st := StepEntry(cfg, e, s.lock, w);
    PutEntryKeepsSafe(s, i, st.entry, st.lock, EventFor(cfg, st.when, st.delay, st.watchFd), st.fault);
  }

  lemma ServicedIsStarted(cfg: Config, s: System, i: nat, w: World)
    requires Safe(s) && i < |s.slots| && s.slots[i].entry.started
    ensures ServiceEntry(cfg, s, i, w).slots[i].entry.started
  {
    assert EntryOk(s.slots[i].entry, s.lock);
    StepIsGood(cfg, s.slots[i].entry, s.lock, w);
  }

  lemma LetGoIsGood(e: Entry, l: Lock)
    requires Consistent(l)
    ensures LetGo(l, e.id) == if Owns(l, e) then Unlocked else l
    ensures !Owns(LetGo(l, e.id), e) && OnlyOwnMove(l, LetGo(l, e.id), e.id)
  {
  }

  lemma SetUpIsSound(e: Entry, l: Lock, w: World)
    requires e.state != Invalid && Consistent(l)
    ensures var st := InitEntry(e, l, w);
            st.fault == NoFault && Sound(st.entry, st.lock) && !Owns(st.lock, st.entry) && st.entry.id == e.id
  {
    LetGoIsGood(e, l);
    ResetNeedsNothing(e.state);
  }

  lemma SetUpEntryIsSafe(s: System, i: nat, w: World)
    requires Safe(s) && i < |s.slots|
    ensures var r := SetUpEntry(s, i, w);
            Safe(r) && r.fault == NoFault && r.slots[i].entry.started
  {
    var e := s.slots[i].entry;
    assert EntryOk(e, s.lock);
    SetUpIsSound(e, s.lock, w);
    LetGoIsGood(e, s.lock);
    var st := InitEntry(e, s.lock, w);
    PutEntryKeepsSafe(s, i, st.entry, st.lock, s.slots[i].event, st.fault);
  }

  lemma StopEntryIsSafe(s: System, i: nat, w: World)
    requires Safe(s) && i < |s.slots|
    ensures var r := StopEntry(s, i, w);
            && Safe(r) && r.fault == NoFault && !r.slots[i].entry.started
            && r.slots[i].entry.id == s.slots[i].entry.id && r.lock.owner != AnEntry(s.slots[i].entry.id)
  {
    var e := s.slots[i].entry;
    assert EntryOk(e, s.lock);
    LetGoIsGood(e, s.lock);
    ResetNeedsNothing(e.state);
    var st := DoneEntry(e, s.lock, w);
    PutEntryKeepsSafe(s, i, st.entry, st.lock, NoEvent, st.fault);
  }

  lemma StartEntryIsGood(cfg: Config, s: System, i: nat, init: World, step: World)
    requires Safe(s) && i < |s.slots|
    ensures var r := StartEntry(cfg, s, i, init, step);
            Safe(r) && r.fault == NoFault && Awake(r.slots[i])
  {
    SetUpEntryIsSafe(s, i, init);
    ServiceEntryIsGood(cfg, SetUpEntry(s, i, init), i, step);
  }

  lemma RestartEntryIsGood(cfg: Config, s: System, i: nat, ws: RestartWorlds)
    requires Safe(s) && i < |s.slots|
    ensures var r := RestartEntry(cfg, s, i, ws);
            Safe(r) && r.fault == NoFault && Awake(r.slots[i])
  {
    StopEntryIsSafe(s, i, ws.stop);
    StartEntryIsGood(cfg, StopEntry(s, i, ws.stop), i, ws.init, ws.step);
  }

  // Restarting the entries of a CA, in the middle of a step of that CA, keeps
  // everything: the other entries and all CAs are not touched.
  predicate RestartedWell(s: System, r: System) {
    && Safe(r) && AllAwake(r) && r.fault == NoFault && r.cas == s.cas && r.nextId == s.nextId
    && (!s.lock.owner.ACa? ==> !r.lock.owner.ACa?)
    && (s.lock.owner.ACa? ==> r.lock == s.lock)
  }

  lemma {:induction false} RestartByCaIsGood(cfg: Config, s: System, name: string, ws: nat -> RestartWorlds, i: nat)
    requires Safe(s) && AllAwake(s) && s.fault == NoFault
    ensures RestartedWell(s, RestartByCa(cfg, s, name, ws, i))
    decreases |s.slots| - i
  {
    if i < |s.slots| {
      var s1 := s;
      if s.slots[i].entry.caName == Some(name) {
        s1 := RestartEntry(cfg, s, i, ws(i));
        RestartOneIsGood(cfg, s, i, ws(i));
      }
      RestartByCaIsGood(cfg, s1, name, ws, i + 1);
    }
  }

  lemma RestartOneIsGood(cfg: Config, s: System, i: nat, ws: RestartWorlds)
    requires Safe(s) && AllAwake(s) && s.fault == NoFault && i < |s.slots|
    ensures RestartedWell(s, RestartEntry(cfg, s, i, ws)) && |RestartEntry(cfg, s, i, ws).slots| == |s.slots|
  {
    RestartEntryIsGood(cfg, s, i, ws);
    RestartEntryLock(cfg, s, i, ws);
  }

  // Restarting an entry does not touch a lock owned by a CA, nor hand it to one.
  lemma RestartEntryLock(cfg: Config, s: System, i: nat, ws: RestartWorlds)
    requires Safe(s) && i < |s.slots|
    ensures var r := RestartEntry(cfg, s, i, ws);
            (!s.lock.owner.ACa? ==> !r.lock.owner.ACa?) && (s.lock.owner.ACa? ==> r.lock == s.lock)
  {
    var s1 := StopEntry(s, i, ws.stop);
    LetGoIsGood(s.slots[i].entry, s.lock);
    StopEntryIsSafe(s, i, ws.stop);
    var s2 := SetUpEntry(s1, i, ws.init);
    LetGoIsGood(s1.slots[i].entry, s1.lock);
    SetUpEntryIsSafe(s1, i, ws.init);
    assert EntryOk(s2.slots[i].entry, s2.lock);
    StepIsGood(cfg, s2.slots[i].entry, s2.lock, ws.step);
  }

  // The entries a CA step restarts leave the step's own effect in place.
  lemma NestedRestartIsGood(cfg: Config, s: System, j: nat, p: Phase, t: CaTask, ws: nat -> RestartWorlds, event: Event)
    requires Good(s) && s.fault == NoFault && j < |s.cas|
    requires CaSound(s.cas[j].id, p, t, s.lock) && !CaOwns(s.lock, s.cas[j].id, p)
    ensures var s1 := RestartByCa(cfg, s, s.cas[j].name, ws, 0);
            && s1.fault == NoFault && |s1.cas| == |s.cas|
            && Good(PutCa(s1, j, p, t, s1.lock, event, NoFault))
  {
    RestartByCaIsGood(cfg, s, s.cas[j].name, ws, 0);
    var s1 := RestartByCa(cfg, s, s.cas[j].name, ws, 0);
    PutCaKeepsSafe(s1, j, p, t, s1.lock, event, NoFault);
    AwakeDependsOnSlots(s1, PutCa(s1, j, p, t, s1.lock, event, NoFault));
  }

  // Visiting a CA phase goes wrong exactly in the fetch hazard, and only there.
  lemma ServiceCaIsGood(cfg: Config, s: System, j: nat, p: Phase, w: CaWorld, ws: nat -> RestartWorlds)
    requires Good(s) && s.fault == NoFault && j < |s.cas| && p in s.cas[j].slots && s.cas[j].slots[p].task.started
    ensures var r := ServiceCa(cfg, s, j, p, w, ws);
            && Good(r)
            && r.fault == if FetchHazard(s.cas[j].external, s.cas[j].slots[p].task, w) then NullHandle else NoFault
  {
    hide StepCa, RestartByCa, FetchHazard;
    var ca := s.cas[j];
    var t := ca.slots[p].task;
    assert CaSlotsOk(ca, s.lock) && CaOk(ca.id, p, t, s.lock);
    CaStepIsGood(cfg, ca.external, ca.id, p, t, s.lock, w);
    var st := StepCa(cfg, ca.external, ca.id, p, t, s.lock, w);
    if st.fault == NoFault {
      var event := EventFor(cfg, if st.when.Some? then st.when.value else w.leftover, st.delay, st.watchFd);
      if st.restartEntries {
        NestedRestartIsGood(cfg, s, j, p, st.task, ws, event);
      } else {
        PutCaKeepsSafe(s, j, p, st.task, st.lock, event, NoFault);
        AwakeDependsOnSlots(s, PutCa(s, j, p, st.task, st.lock, event, NoFault));
      }
    }
  }

  lemma AwakeDependsOnSlots(s: System, r: System)
    requires AllAwake(s) && r.slots == s.slots
    ensures AllAwake(r)
  {
  }

  lemma CaLetGoIsGood(id: nat, p: Phase, l: Lock)
    requires Consistent(l)
    ensures CaLetGo(l, id, Some(p)) == if CaOwns(l, id, p) then Unlocked else l
    ensures CaLetGo(l, id, None) == l
  {
  }

  // Stopping a CA phase goes wrong exactly when its analysis handle is stale.
  lemma StopCaIsGood(s: System, j: nat, p: Phase)
    requires Good(s) && s.fault == NoFault && j < |s.cas| && p in s.cas[j].slots
    ensures var r := StopCa(s, j, p);
            && Good(r) && r.slots == s.slots && |r.cas| == |s.cas|
            && r.fault == (if s.cas[j].slots[p].task.stale then StaleHandle else NoFault)
            && (r.fault == NoFault ==> !r.cas[j].slots[p].task.started)
            && (forall q: Phase :: q != p ==> r.cas[j].slots[q] == s.cas[j].slots[q])
            && r.cas[j].id == s.cas[j].id
  {
    var ca := s.cas[j];
    var t := ca.slots[p].task;
    assert CaSlotsOk(ca, s.lock) && CaOk(ca.id, p, t, s.lock);
    CaLetGoIsGood(ca.id, p, s.lock);
    var st := DoneCa(ca.id, p, t, s.lock);
    if st.fault == NoFault {
      PutCaKeepsSafe(s, j, p, st.task, st.lock, NoEvent, NoFault);
      AwakeDependsOnSlots(s, StopCa(s, j, p));
    }
  }

  lemma SetUpCaIsSafe(s: System, j: nat, p: Phase)
    requires Good(s) && s.fault == NoFault && j < |s.cas| && p in s.cas[j].slots
    ensures var r := SetUpCa(s, j, p);
            && Good(r) && r.fault == NoFault && |r.cas| == |s.cas|
            && CaSound(r.cas[j].id, p, r.cas[j].slots[p].task, r.lock)
  {
    var ca := s.cas[j];
    assert CaSlotsOk(ca, s.lock) && CaOk(ca.id, p, ca.slots[p].task, s.lock);
    CaLetGoIsGood(ca.id, p, s.lock);
    var st := InitCa(ca.id, p, s.lock);
    PutCaKeepsSafe(s, j, p, st.task, st.lock, ca.slots[p].event, NoFault);
    AwakeDependsOnSlots(s, SetUpCa(s, j, p));
  }

  // Starting one goes wrong exactly for an external CA whose fetch cannot be started.
  lemma StartCaIsGood(cfg: Config, s: System, j: nat, p: Phase, w: CaWorld)
    requires Good(s) && s.fault == NoFault && j < |s.cas| && p in s.cas[j].slots
    ensures var r := StartCa(cfg, s, j, p, w);
            && Good(r) && r.slots == s.slots && |r.cas| == |s.cas|
            && r.fault == (if s.cas[j].external && !w.started then NullHandle else NoFault)
            && r.cas[j].external == s.cas[j].external
  {
    SetUpCaIsSafe(s, j, p);
    var s1 := SetUpCa(s, j, p);
    var ca := s1.cas[j];
    var t := ca.slots[p].task;
    CaStepIsGood(cfg, ca.external, ca.id, p, t, s1.lock, w);
    var st := StepCa(cfg, ca.external, ca.id, p, t, s1.lock, w);
    if st.fault == NoFault {
      var event := EventFor(cfg, if st.when.Some? then st.when.value else w.leftover, st.delay, st.watchFd);
      PutCaKeepsSafe(s1, j, p, st.task, st.lock, event, NoFault);
      AwakeDependsOnSlots(s1, StartCa(cfg, s, j, p, w));
    }
  }

  // Some phase from number k on cannot start its fetch, or has a stale handle.
  predicate FetchFails(ws: Phase -> CaWorld, k: nat) {
    exists n :: k <= n < |ALL_PHASES| && !ws(ALL_PHASES[n]).started
  }

  predicate SomeStale(ca: Ca, k: nat)
    requires HasPhases(ca)
  {
    exists n :: k <= n < |ALL_PHASES| && ca.slots[ALL_PHASES[n]].task.stale
  }

  lemma FetchFailsStep(ws: Phase -> CaWorld, k: nat)
    requires k < |ALL_PHASES|
    ensures FetchFails(ws, k) <==> !ws(ALL_PHASES[k]).started || FetchFails(ws, k + 1)
  {
  }

  lemma {:induction false} StartPhasesIsGood(cfg: Config, s: System, j: nat, ws: Phase -> CaWorld, k: nat)
    requires Good(s) && s.fault == NoFault && j < |s.cas| && HasPhases(s.cas[j])
    ensures var r := StartPhases(cfg, s, j, ws, k);
            Good(r) && (r.fault != NoFault <==> s.cas[j].external && FetchFails(ws, k))
    decreases |ALL_PHASES| - k
  {
    if k < |ALL_PHASES| {
      var p := ALL_PHASES[k];
      FetchFailsStep(ws, k);
      StartCaIsGood(cfg, s, j, p, ws(p));
      var s1 := StartCa(cfg, s, j, p, ws(p));
      if s1.fault == NoFault {
        StartPhasesIsGood(cfg, s1, j, ws, k + 1);
      } else {
        assert StartPhases(cfg, s1, j, ws, k + 1) == s1;
      }
    }
  }

  predicate StoppedBelow(ca: Ca, k: nat)
    requires HasPhases(ca)
  {
    forall n :: 0 <= n < k && n < |ALL_PHASES| ==> !ca.slots[ALL_PHASES[n]].task.started
  }

  // What stopping phase number k does to the phases before and after it.
  lemma AfterStoppingOne(ca: Ca, ca1: Ca, k: nat)
    requires HasPhases(ca) && HasPhases(ca1) && k < |ALL_PHASES|
    requires forall q: Phase :: q != ALL_PHASES[k] ==> ca1.slots[q] == ca.slots[q]
    ensures SomeStale(ca, k) <==> ca.slots[ALL_PHASES[k]].task.stale || SomeStale(ca1, k + 1)
    ensures StoppedBelow(ca, k) && !ca1.slots[ALL_PHASES[k]].task.started ==> StoppedBelow(ca1, k + 1)
  {
    PhasesDiffer();
    forall n | k + 1 <= n < |ALL_PHASES| ensures ca1.slots[ALL_PHASES[n]] == ca.slots[ALL_PHASES[n]] {
      assert ALL_PHASES[n] != ALL_PHASES[k];
    }
    forall n | 0 <= n < k ensures ca1.slots[ALL_PHASES[n]] == ca.slots[ALL_PHASES[n]] {
      assert ALL_PHASES[n] != ALL_PHASES[k];
    }
  }

  lemma {:induction false} StopPhasesIsGood(s: System, j: nat, k: nat)
    requires Good(s) && s.fault == NoFault && j < |s.cas| && HasPhases(s.cas[j])
    requires StoppedBelow(s.cas[j], k)
    ensures var r := StopPhases(s, j, k);
            && Good(r)
            && (r.fault != NoFault <==> SomeStale(s.cas[j], k))
            && (r.fault == NoFault ==> forall p: Phase :: p in r.cas[j].slots && !r.cas[j].slots[p].task.started)
            && r.cas[j].id == s.cas[j].id
    decreases |ALL_PHASES| - k
  {
    if k < |ALL_PHASES| {
      var p := ALL_PHASES[k];
      StopCaIsGood(s, j, p);
      var s1 := StopCa(s, j, p);
      AfterStoppingOne(s.cas[j], s1.cas[j], k);
      if s1.fault == NoFault {
        StopPhasesIsGood(s1, j, k + 1);
      } else {
        assert StopPhases(s1, j, k + 1) == s1;
      }
    } else {
      forall p: Phase ensures !s.cas[j].slots[p].task.started {
        PhaseIsListed(p);
      }
    }
  }

  lemma PhasesDiffer()
    ensures forall m, n :: 0 <= m < n < |ALL_PHASES| ==> ALL_PHASES[m] != ALL_PHASES[n]
  {
  }

  // Adding and removing.

  lemma OwnerIsOld(s: System)
    requires Safe(s)
    ensures s.lock.owner.AnEntry? ==> s.lock.owner.id < s.nextId
    ensures s.lock.owner.ACa? ==> s.lock.owner.id < s.nextId
  {
  }

  lemma AppendEntryIsSafe(s: System, e: Entry)
    requires Safe(s) && e.id == s.nextId && !e.started && e.live == {} && e.state != Invalid
    ensures Safe(s.(slots := s.slots + [Slot(e, NoEvent)], nextId := s.nextId + 1))
  {
    OwnerIsOld(s);
    var r := s.(slots := s.slots + [Slot(e, NoEvent)], nextId := s.nextId + 1);
    if s.lock.owner.AnEntry? {
      var k :| 0 <= k < |s.slots| && s.slots[k].entry.id == s.lock.owner.id;
      assert r.slots[k] == s.slots[k];
    }
  }

  lemma AppendCaIsSafe(s: System, ca: Ca)
    requires Safe(s) && ca.id == s.nextId && HasPhases(ca)
    requires forall p: Phase :: ca.slots[p].task == StoppedTask
    ensures Safe(WithCa(s, ca))
  {
    OwnerIsOld(s);
    var r := WithCa(s, ca);
    forall j | 0 <= j < |r.cas| ensures CaSlotsOk(r.cas[j], r.lock) {
      if j < |s.cas| {
        assert CaSlotsOk(s.cas[j], s.lock);
      }
    }
    if s.lock.owner.ACa? {
      var k :| 0 <= k < |s.cas| && s.cas[k].id == s.lock.owner.id;
      assert r.cas[k] == s.cas[k];
    }
  }

  lemma DropSlot(slots: seq<Slot>, i: nat)
    requires i < |slots|
    ensures var r := slots[..i] + slots[i + 1..];
            && |r| == |slots| - 1
            && (forall k :: 0 <= k < |r| ==> r[k] == slots[if k < i then k else k + 1])
            && (forall k :: 0 <= k < |slots| && k != i ==> slots[k] == r[if k < i then k else k - 1])
  {
    var r := slots[..i] + slots[i + 1..];
    forall k | 0 <= k < |r| ensures r[k] == slots[if k < i then k else k + 1] {
      SlotBeforeAndAfter(slots, i, k);
    }
    forall k | 0 <= k < |slots| && k != i ensures slots[k] == r[if k < i then k else k - 1] {
      SlotBeforeAndAfter(slots, i, if k < i then k else k - 1);
    }
  }

  lemma SlotBeforeAndAfter(slots: seq<Slot>, i: nat, k: nat)
    requires i < |slots| && k + 1 < |slots|
    ensures (slots[..i] + slots[i + 1..])[k] == if k < i then slots[k] else slots[k + 1]
  {
  }

  lemma DropEntryIsSafe(s: System, i: nat, slots: seq<Slot>)
    requires Safe(s) && i < |s.slots| && s.lock.owner != AnEntry(s.slots[i].entry.id)
    requires |slots| == |s.slots| - 1 && forall k :: 0 <= k < |slots| ==> slots[k] == s.slots[if k < i then k else k + 1]
    requires forall k :: 0 <= k < |s.slots| && k != i ==> s.slots[k] == slots[if k < i then k else k - 1]
    ensures Safe(s.(slots := slots))
  {
    var r := s.(slots := slots);
    assert EntriesOk(r) && DistinctEntries(r);
    if s.lock.owner.AnEntry? {
      var k :| 0 <= k < |s.slots| && s.slots[k].entry.id == s.lock.owner.id;
      assert slots[if k < i then k else k - 1].entry.id == s.lock.owner.id;
    }
  }

  lemma DropEntryIsGood(s: System, i: nat)
    requires Good(s) && i < |s.slots| && s.lock.owner != AnEntry(s.slots[i].entry.id)
    ensures Good(s.(slots := s.slots[..i] + s.slots[i + 1..]))
  {
    DropSlot(s.slots, i);
    DropEntryIsSafe(s, i, s.slots[..i] + s.slots[i + 1..]);
  }

  lemma DropCaIsGood(s: System, j: nat)
    requires Good(s) && j < |s.cas| && s.lock.owner != ACa(s.cas[j].id)
    ensures Good(s.(cas := s.cas[..j] + s.cas[j + 1..]))
  {
    var r := s.(cas := s.cas[..j] + s.cas[j + 1..]);
    forall k | 0 <= k < |r.cas| ensures r.cas[k] == s.cas[if k < j then k else k + 1] {}
    forall k | 0 <= k < |r.cas| ensures CaSlotsOk(r.cas[k], r.lock) {
      assert CaSlotsOk(s.cas[if k < j then k else k + 1], s.lock);
    }
    if s.lock.owner.ACa? {
      var k :| 0 <= k < |s.cas| && s.cas[k].id == s.lock.owner.id;
      assert r.cas[if k < j then k else k - 1].id == s.lock.owner.id;
    }
    AwakeDependsOnSlots(s, r);
  }

  // The conditions, all of them about CAs, under which an action ends the process.
  predicate Hazard(s: System, a: Action)
    requires Enabled(s, a)
  {
    match a
    case VisitCa(j, p, cw, _) => FetchHazard(s.cas[j].external, s.cas[j].slots[p].task, cw)
    case DoStartCa(j, p, cw) => s.cas[j].external && !cw.started
    case AddCa(_, external, cws) => external && FetchFails(cws, 0)
    case DoStopCa(j, p) => s.cas[j].slots[p].task.stale
    case RemoveCa(j, _) => SomeStale(s.cas[j], 0)
    case _ => false
  }

  lemma ChangeEntryIsGood(s: System, i: nat, e: Entry)
    requires Good(s) && i < |s.slots|
    requires var o := s.slots[i].entry;
             e.id == o.id && e.started == o.started && e.live == o.live && e.retried == o.retried && e.state != Invalid
             && (o.started ==> e.state == o.state)
    ensures Good(s.(slots := s.slots[i := s.slots[i].(entry := e)]))
  {
    assert EntryOk(s.slots[i].entry, s.lock);
    PutEntryKeepsSafe(s, i, e, s.lock, s.slots[i].event, s.fault);
    assert s.(slots := s.slots[i := s.slots[i].(entry := e)]) == PutEntry(s, i, e, s.lock, s.slots[i].event, s.fault);
  }

  lemma ChangeSettingsIsGood(s: System, i: nat, caName: Option<string>, monitor: bool, autorenew: bool)
    requires Good(s) && i < |s.slots|
    ensures var e := s.slots[i].entry;
            var e1 := e.(caName := caName, watch := e.watch.(monitor := monitor, autorenew := autorenew));
            Good(s.(slots := s.slots[i := s.slots[i].(entry := e1)]))
  {
    var e := s.slots[i].entry;
    assert EntryOk(e, s.lock);
    ChangeEntryIsGood(s, i, e.(caName := caName, watch := e.watch.(monitor := monitor, autorenew := autorenew)));
  }

  lemma AddEntryIsGood(cfg: Config, s: System, e: Entry, init: World, w: World)
    requires Good(s) && s.fault == NoFault
    requires e.id == s.nextId && !e.started && e.live == {} && e.state != Invalid
    ensures Good(StartAdded(cfg, s, e, init, w)) && StartAdded(cfg, s, e, init, w).fault == NoFault
  {
    hide StepEntry, InitEntry;
    AppendEntryIsSafe(s, e);
    var s1 := s.(slots := s.slots + [Slot(e, NoEvent)], nextId := s.nextId + 1);
    StartEntryIsGood(cfg, s1, |s.slots|, init, w);
  }

  lemma RemoveEntryIsGood(s: System, i: nat, w: World, deleted: bool)
    requires Good(s) && s.fault == NoFault && i < |s.slots|
    ensures Good(StopAndDrop(s, i, w, deleted)) && StopAndDrop(s, i, w, deleted).fault == NoFault
  {
    StopEntryIsSafe(s, i, w);
    DropEntryIsGood(StopEntry(s, i, w), i);
  }

  lemma AddCaIsGood(cfg: Config, s: System, ca: Ca, cws: Phase -> CaWorld)
    requires Good(s) && s.fault == NoFault
    requires ca.id == s.nextId && HasPhases(ca) && forall p: Phase :: ca.slots[p].task == StoppedTask
    ensures var r := StartAddedCa(cfg, s, ca, cws);
            Good(r) && (r.fault != NoFault <==> ca.external && FetchFails(cws, 0))
  {
    AppendCaIsSafe(s, ca);
    AwakeDependsOnSlots(s, WithCa(s, ca));
    StartPhasesIsGood(cfg, WithCa(s, ca), |s.cas|, cws, 0);
  }

  // A CA none of whose phases is started owns nothing.
  lemma StoppedCaOwnsNothing(s: System, j: nat)
    requires Safe(s) && j < |s.cas| && HasPhases(s.cas[j])
    requires forall p: Phase :: !s.cas[j].slots[p].task.started
    ensures s.lock.owner != ACa(s.cas[j].id)
  {
    assert CaSlotsOk(s.cas[j], s.lock);
    forall p: Phase ensures !CaOwns(s.lock, s.cas[j].id, p) {
      assert CaOk(s.cas[j].id, p, s.cas[j].slots[p].task, s.lock);
    }
    assert s.lock.phase.Some? ==> !CaOwns(s.lock, s.cas[j].id, s.lock.phase.value);
  }

  lemma RemoveCaIsGood(s: System, j: nat, deleted: bool)
    requires Good(s) && s.fault == NoFault && j < |s.cas| && HasPhases(s.cas[j])
    ensures var r := StopAndDropCa(s, j, deleted);
            Good(r) && (r.fault != NoFault <==> SomeStale(s.cas[j], 0))
  {
    StopPhasesIsGood(s, j, 0);
    var s1 := StopPhases(s, j, 0);
    if s1.fault == NoFault {
      StoppedCaOwnsNothing(s1, j);
      DropCaIsGood(s1, j);
    }
  }

  predicate AboutEntries(a: Action) {
    a.VisitEntry? || a.DoStartEntry? || a.DoStopEntry? || a.ChangeState? || a.ChangeSettings? || a.AddEntry? || a.RemoveEntry?
  }

  lemma PerformOnEntriesIsGood(cfg: Config, s: System, a: Action)
    requires Good(s) && s.fault == NoFault && Enabled(s, a) && AboutEntries(a)
    ensures Good(Perform(cfg, s, a)) && Perform(cfg, s, a).fault == NoFault
  {
    hide StepEntry, InitEntry, DoneEntry;
    match a
    case VisitEntry(i, w) => ServiceEntryIsGood(cfg, s, i, w);
    case DoStartEntry(i, init, w) => StartEntryIsGood(cfg, s, i, init, w);
    case DoStopEntry(i, w) => StopEntryIsSafe(s, i, w);
    case ChangeState(i, state) => ChangeEntryIsGood(s, i, s.slots[i].entry.(state := state));
    case ChangeSettings(i, caName, monitor, autorenew) => ChangeSettingsIsGood(s, i, caName, monitor, autorenew);
    case AddEntry(keyLocation, state, caName, watch, keys, init, w) =>
      AddEntryIsGood(cfg, s, NewEntry(s.nextId, keyLocation, state, caName, watch, keys), init, w);
    case RemoveEntry(i, w, deleted) => RemoveEntryIsGood(s, i, w, deleted);
  }

  lemma PerformOnCasIsGood(cfg: Config, s: System, a: Action)
    requires Good(s) && s.fault == NoFault && Enabled(s, a) && !AboutEntries(a)
    ensures Good(Perform(cfg, s, a))
    ensures Perform(cfg, s, a).fault != NoFault <==> Hazard(s, a)
  {
    hide ServiceCa, StartCa, StopCa, StartAddedCa, StopAndDropCa;
    match a
    case VisitCa(j, p, cw, ws) => ServiceCaIsGood(cfg, s, j, p, cw, ws);
    case DoStartCa(j, p, cw) => StartCaIsGood(cfg, s, j, p, cw);
    case DoStopCa(j, p) => StopCaIsGood(s, j, p);
    case AddCa(name, external, cws) => AddCaIsGood(cfg, s, NewCa(s.nextId, name, external), cws);
    case RemoveCa(j, deleted) => RemoveCaIsGood(s, j, deleted);
  }

  // Every action keeps everything, and ends the process exactly in its hazard.
  lemma PerformIsGood(cfg: Config, s: System, a: Action)
    requires Good(s) && s.fault == NoFault && Enabled(s, a)
    ensures Good(Perform(cfg, s, a))
    ensures Perform(cfg, s, a).fault != NoFault <==> Hazard(s, a)
  {
    if AboutEntries(a) {
      PerformOnEntriesIsGood(cfg, s, a);
    } else {
      PerformOnCasIsGood(cfg, s, a);
    }
  }

  // No action in the run meets its hazard.
  predicate HazardFree(cfg: Config, s: System, actions: seq<Action>)
    decreases |actions|
  {
    actions == [] ||
    (&& (Enabled(s, actions[0]) ==> !Hazard(s, actions[0]))
     && HazardFree(cfg, Next(cfg, s, actions[0]), actions[1..]))
  }

  lemma {:induction false} FaultedStays(cfg: Config, s: System, actions: seq<Action>)
    requires s.fault != NoFault
    ensures Run(cfg, s, actions) == s
    decreases |actions|
  {
    if actions != [] {
      FaultedStays(cfg, s, actions[1..]);
    }
  }

  // Every run keeps everything, and comes to a bad end exactly when it meets a
  // hazard; it never ends in a call to abort().
  lemma {:induction false} RunIsGood(cfg: Config, s: System, actions: seq<Action>)
    requires Good(s) && s.fault == NoFault
    ensures Good(Run(cfg, s, actions))
    ensures Run(cfg, s, actions).fault == NoFault <==> HazardFree(cfg, s, actions)
    decreases |actions|
  {
    if actions != [] {
      var a := actions[0];
      if Enabled(s, a) {
        PerformIsGood(cfg, s, a);
      }
      var s1 := Next(cfg, s, a);
      if s1.fault == NoFault {
        RunIsGood(cfg, s1, actions[1..]);
      } else {
        FaultedStays(cfg, s1, actions[1..]);
      }
    }
  }

  // What the store may hold when the daemon starts: any valid states.
  predicate Stored(s: System) {
    && s.lock == Unlocked && s.fault == NoFault
    && DistinctEntries(s) && DistinctCas(s)
    && (forall i :: 0 <= i < |s.slots| ==>
          !s.slots[i].entry.started && s.slots[i].entry.live == {} && s.slots[i].entry.state != Invalid)
    && (forall j :: 0 <= j < |s.cas| ==> HasPhases(s.cas[j]) && forall p: Phase :: s.cas[j].slots[p].task == StoppedTask)
  }

  lemma {:induction false} SetUpEntriesIsSafe(s: System, ws: nat -> World, i: nat)
    requires Safe(s) && s.fault == NoFault
    requires forall k :: 0 <= k < i && k < |s.slots| ==> s.slots[k].entry.started
    ensures var r := SetUpEntries(s, ws, i);
            Safe(r) && r.fault == NoFault && forall k :: 0 <= k < |r.slots| ==> r.slots[k].entry.started
    decreases |s.slots| - i
  {
    if i < |s.slots| {
      SetUpEntryIsSafe(s, i, ws(i));
      SetUpEntriesIsSafe(SetUpEntry(s, i, ws(i)), ws, i + 1);
    }
  }

  lemma {:induction false} VisitEntriesIsGood(cfg: Config, s: System, ws: nat -> World, i: nat)
    requires Safe(s) && s.fault == NoFault
    requires forall k :: 0 <= k < |s.slots| ==> s.slots[k].entry.started
    requires forall k :: 0 <= k < i && k < |s.slots| ==> Awake(s.slots[k])
    ensures var r := VisitEntries(cfg, s, ws, i);
            Good(r) && r.fault == NoFault
    decreases |s.slots| - i
  {
    hide Safe, StepEntry, Awake;
    if i < |s.slots| {
      ServiceEntryIsGood(cfg, s, i, ws(i));
      ServicedIsStarted(cfg, s, i, ws(i));
      var s1 := ServiceEntry(cfg, s, i, ws(i));
      VisitEntriesIsGood(cfg, s1, ws, i + 1);
    }
  }

  // The daemon comes up safe and awake from anything the store may hold.
  lemma BootIsGood(cfg: Config, s: System, setUp: nat -> World, visit: nat -> World)
    requires Stored(s)
    ensures var r := VisitEntries(cfg, SetUpEntries(s, setUp, 0), visit, 0);
            Good(r) && r.fault == NoFault
  {
    assert Safe(s) by {
      forall j | 0 <= j < |s.cas| ensures CaSlotsOk(s.cas[j], s.lock) {}
    }
    SetUpEntriesIsSafe(s, setUp, 0);
    VisitEntriesIsGood(cfg, SetUpEntries(s, setUp, 0), visit, 0);
  }

  // The daemon after start-up from what was stored and any run.
  function Reached(cfg: Config, stored: System, setUp: nat -> World, visit: nat -> World, actions: seq<Action>): System {
    Run(cfg, VisitEntries(cfg, SetUpEntries(stored, setUp, 0), visit, 0), actions)
  }

  lemma ReachedIsGood(cfg: Config, stored: System, setUp: nat -> World, visit: nat -> World, actions: seq<Action>)
    requires Stored(stored)
    ensures Good(Reached(cfg, stored, setUp, visit, actions))
    ensures Reached(cfg, stored, setUp, visit, actions).fault == NoFault <==>
              HazardFree(cfg, VisitEntries(cfg, SetUpEntries(stored, setUp, 0), visit, 0), actions)
  {
    BootIsGood(cfg, stored, setUp, visit);
    RunIsGood(cfg, VisitEntries(cfg, SetUpEntries(stored, setUp, 0), visit, 0), actions);
  }

  // No call to abort() is ever reached, and the process is only lost to one of
  // the CA hazards: never to a run which is about entries.
  lemma {:induction false} EntriesNeverFault(cfg: Config, s: System, actions: seq<Action>)
    requires Good(s) && s.fault == NoFault
    requires forall a :: a in actions ==> AboutEntries(a)
    ensures Run(cfg, s, actions).fault == NoFault
    decreases |actions|
  {
    if actions != [] {
      if Enabled(s, actions[0]) {
        PerformOnEntriesIsGood(cfg, s, actions[0]);
      }
      EntriesNeverFault(cfg, Next(cfg, s, actions[0]), actions[1..]);
    }
  }

  // The lock's owner is always a started entry, or a started phase of a CA, the
  // one the tag names; and there is a tag exactly when a CA owns the lock.
  predicate LockIsLive(s: System) {
    && (s.lock.phase.Some? <==> s.lock.owner.ACa?)
    && match s.lock.owner
       case Nobody => true
       case AnEntry(id) => exists i :: 0 <= i < |s.slots| && s.slots[i].entry.id == id && s.slots[i].entry.started
       case ACa(id) =>
         exists j :: 0 <= j < |s.cas| && s.cas[j].id == id && s.lock.phase.value in s.cas[j].slots
                     && s.cas[j].slots[s.lock.phase.value].task.started
  }

  lemma LockIsAlwaysLive(cfg: Config, stored: System, setUp: nat -> World, visit: nat -> World, actions: seq<Action>)
    requires Stored(stored)
    ensures var s := Reached(cfg, stored, setUp, visit, actions); LockIsLive(s) && s.fault != Aborted
  {
    ReachedIsGood(cfg, stored, setUp, visit, actions);
    var s := Reached(cfg, stored, setUp, visit, actions);
    match s.lock.owner
    case Nobody =>
    case AnEntry(id) =>
      var i :| 0 <= i < |s.slots| && s.slots[i].entry.id == id;
      assert EntryOk(s.slots[i].entry, s.lock);
    case ACa(id) =>
      var j :| 0 <= j < |s.cas| && s.cas[j].id == id;
      assert CaSlotsOk(s.cas[j], s.lock) && CaOk(id, s.lock.phase.value, s.cas[j].slots[s.lock.phase.value].task, s.lock);
  }

  // A started CA phase owns the lock in exactly the states of its save.
  lemma PhaseHoldsWhileSaving(cfg: Config, stored: System, setUp: nat -> World, visit: nat -> World, actions: seq<Action>)
    requires Stored(stored)
    ensures var s := Reached(cfg, stored, setUp, visit, actions);
            forall j, p: Phase :: 0 <= j < |s.cas| && p in s.cas[j].slots ==>
              (CaOwns(s.lock, s.cas[j].id, p) <==> s.cas[j].slots[p].task.started && CaHolds(s.cas[j].slots[p].task.state))
  {
    ReachedIsGood(cfg, stored, setUp, visit, actions);
    var s := Reached(cfg, stored, setUp, visit, actions);
    forall j, p: Phase | 0 <= j < |s.cas| && p in s.cas[j].slots
      ensures CaOwns(s.lock, s.cas[j].id, p) <==> s.cas[j].slots[p].task.started && CaHolds(s.cas[j].slots[p].task.state)
    {
      assert CaSlotsOk(s.cas[j], s.lock) && CaOk(s.cas[j].id, p, s.cas[j].slots[p].task, s.lock);
    }
  }

  // A live entry has exactly the handle its state calls for, any other entry has
  // none; and an entry is never left without an appointment, however it came to
  // its state, unless it waits for an operator.
  lemma HandlesMatchAndNobodySleeps(cfg: Config, stored: System, setUp: nat -> World, visit: nat -> World, actions: seq<Action>)
    requires Stored(stored)
    ensures var s := Reached(cfg, stored, setUp, visit, actions);
            forall i :: 0 <= i < |s.slots| ==>
              && s.slots[i].entry.live == (if s.slots[i].entry.started then HelpersOf(s.slots[i].entry.state) else {})
              && (s.slots[i].entry.started && s.slots[i].event == NoEvent ==> WaitsForOperator(s.slots[i].entry.state))
  {
    ReachedIsGood(cfg, stored, setUp, visit, actions);
    var s := Reached(cfg, stored, setUp, visit, actions);
    forall i | 0 <= i < |s.slots|
      ensures s.slots[i].entry.live == (if s.slots[i].entry.started then HelpersOf(s.slots[i].entry.state) else {})
      ensures s.slots[i].entry.started && s.slots[i].event == NoEvent ==> WaitsForOperator(s.slots[i].entry.state)
    {
      assert EntryOk(s.slots[i].entry, s.lock) && Awake(s.slots[i]);
    }
  }

  // The work an entry, or a CA phase, may only do while it owns the lock.
  predicate EntryInLockedWork(e: Entry) {
    e.started && (LockNeedOf(e.state) == Holds || (LockNeedOf(e.state) == UnlessRetried && !e.retried))
  }

  predicate CaInLockedWork(t: CaTask) {
    t.started && CaHolds(t.state)
  }

  // Mutual exclusion: from start-up on, in every state of every run, at most one
  // entry or CA phase is in work which needs the lock.
  lemma MutualExclusion(cfg: Config, stored: System, setUp: nat -> World, visit: nat -> World, actions: seq<Action>)
    requires Stored(stored)
    ensures var s := Reached(cfg, stored, setUp, visit, actions);
            && (forall i, k :: 0 <= i < k < |s.slots| ==>
                  !(EntryInLockedWork(s.slots[i].entry) && EntryInLockedWork(s.slots[k].entry)))
            && (forall i, j, p: Phase :: 0 <= i < |s.slots| && 0 <= j < |s.cas| && p in s.cas[j].slots ==>
                  !(EntryInLockedWork(s.slots[i].entry) && CaInLockedWork(s.cas[j].slots[p].task)))
            && (forall j, k, p: Phase, q: Phase ::
                  0 <= j < |s.cas| && 0 <= k < |s.cas| && p in s.cas[j].slots && q in s.cas[k].slots && (j != k || p != q) ==>
                  !(CaInLockedWork(s.cas[j].slots[p].task) && CaInLockedWork(s.cas[k].slots[q].task)))
  {
    ReachedIsGood(cfg, stored, setUp, visit, actions);
    var s := Reached(cfg, stored, setUp, visit, actions);
    forall i | 0 <= i < |s.slots| && EntryInLockedWork(s.slots[i].entry) ensures Owns(s.lock, s.slots[i].entry) {
      assert EntryOk(s.slots[i].entry, s.lock);
    }
    forall j, p: Phase | 0 <= j < |s.cas| && p in s.cas[j].slots && CaInLockedWork(s.cas[j].slots[p].task)
      ensures CaOwns(s.lock, s.cas[j].id, p)
    {
      assert CaSlotsOk(s.cas[j], s.lock);
    }
  }

  // Entries which wait for an operator with the lock in their hands.

  predicate WaitsWithLock(slot: Slot, l: Lock) {
    slot.entry.started && WaitsForOperator(slot.entry.state) && Owns(l, slot.entry)
  }

  // It can only be after a save which lacks permissions, a token or a PIN, after
  // a CA save which lacks permissions, or when the saved certificate cannot be
  // read back; and never when the save was the save-failed retry.
  lemma WhoWaitsWithLock(e: Entry, l: Lock)
    requires Sound(e, l) && WaitsForOperator(e.state) && Owns(l, e)
    ensures || e.state == NeedCaCertSavePerms || e.state == NeedGuidance
            || (e.state in {NeedCertsavePerms, NeedCertsaveToken, NeedCertsavePin} && !e.retried)
  {
    assert LockNeedOf(e.state) != Lacks;
  }

  lemma WaitingEntryStays(cfg: Config, e: Entry, l: Lock, w: World)
    requires Sound(e, l) && WaitsForOperator(e.state)
    ensures StepEntry(cfg, e, l, w) == Stay(e, l, NoTime)
  {
  }

  lemma EntryWithoutLockStays(cfg: Config, e: Entry, l: Lock, w: World)
    requires e.state == NeedKeyPair || e.state == NeedToSaveCert || e.state == NewlyAdded
    requires l.owner != Nobody && !Owns(l, e)
    ensures StepEntry(cfg, e, l, w) == Stay(e, l, Soon)
  {
  }

  lemma VisitKeepsOwner(cfg: Config, e: Entry, l: Lock, w: World)
    requires Sound(e, l) && Consistent(l) && l.owner != Nobody && !Owns(l, e)
    ensures StepEntry(cfg, e, l, w).lock == l
  {
    StepIsGood(cfg, e, l, w);
  }

  lemma BlockedVisit(cfg: Config, s: System, i: nat, k: nat, m: nat, w: World)
    requires Safe(s) && i < |s.slots| && k < |s.slots| && i != k && m < |s.slots|
    requires WaitsWithLock(s.slots[i], s.lock) && s.slots[m].entry.started
    requires s.slots[k].entry.state == NeedKeyPair || s.slots[k].entry.state == NeedToSaveCert
          || s.slots[k].entry.state == NewlyAdded
    ensures var r := ServiceEntry(cfg, s, m, w);
            && |r.slots| == |s.slots| && r.lock == s.lock
            && r.slots[i].entry == s.slots[i].entry && r.slots[k].entry == s.slots[k].entry
  {
    var e := s.slots[m].entry;
    assert EntryOk(e, s.lock);
    if m == i {
      WaitingEntryStays(cfg, e, s.lock, w);
    } else {
      assert e.id != s.slots[i].entry.id;
      VisitKeepsOwner(cfg, e, s.lock, w);
      if m == k {
        EntryWithoutLockStays(cfg, e, s.lock, w);
      }
    }
  }

  // Until it is stopped, visits change nothing for such an entry, and no other
  // entry gets past a point where it has to take the lock.
  lemma {:induction false} WaitingWithLockBlocksOthers(cfg: Config, s: System, i: nat, k: nat, actions: seq<Action>)
    requires Good(s) && s.fault == NoFault && i < |s.slots| && k < |s.slots| && i != k
    requires WaitsWithLock(s.slots[i], s.lock)
    requires s.slots[k].entry.state == NeedKeyPair || s.slots[k].entry.state == NeedToSaveCert
          || s.slots[k].entry.state == NewlyAdded
    requires forall a :: a in actions ==> a.VisitEntry?
    ensures var r := Run(cfg, s, actions);
            && |r.slots| == |s.slots| && r.lock == s.lock
            && r.slots[i].entry == s.slots[i].entry && r.slots[k].entry == s.slots[k].entry
    decreases |actions|
  {
    hide StepEntry;
    if actions != [] {
      var a := actions[0];
      if Enabled(s, a) {
        BlockedVisit(cfg, s, i, k, a.i, a.w);
        ServiceEntryIsGood(cfg, s, a.i, a.w);
      }
      WaitingWithLockBlocksOthers(cfg, Next(cfg, s, a), i, k, actions[1..]);
    }
  }

  // What stopping forgets to finish: it finishes the helper of the state unless
  // that is the certificate being saved or read, or a hook.
  lemma StopFinishesHelper(e: Entry, l: Lock)
    requires Sound(e, l)
    ensures e.live <= FINISHED_ON_STOP <==>
              e.state !in {SavingCert, PreSaveCert, PostSavedCert, ReadingCert, NewlyAddedReadingCert}
  {
    match HelperOf(e.state)
    case None =>
    case Some(h) => assert h in e.live;
  }

  // A phase which cannot start its save keeps the lock, and if the caller's
  // variable happened to hold no appointment nothing will ever visit it again.
  lemma SaveCanBeStuck(cfg: Config, s: System, j: nat, p: Phase, w: CaWorld, ws: nat -> RestartWorlds)
    requires Good(s) && s.fault == NoFault && j < |s.cas| && p in s.cas[j].slots
    requires s.cas[j].slots[p].task.started && s.cas[j].slots[p].task.state == CaStartSavingData
    ensures var r := ServiceCa(cfg, s, j, p, w, ws);
            && CaOwns(r.lock, r.cas[j].id, p)
            && (r.cas[j].slots[p].event == NoEvent <==> !w.started && w.leftover == NoTime)
  {
    assert CaSlotsOk(s.cas[j], s.lock) && CaOk(s.cas[j].id, p, s.cas[j].slots[p].task, s.lock);
  }
}
