/**
 The main loop's context: the array of entries, which are objects, the array of
 their next events, the CAs, and the lock.  Each operation updates them in place
 and is proved to do what the function of the same name says about the system.
 */
module Context {
  import opened Wrappers
  import opened EntryStates
  import opened WritingLock
  import opened Expiry
  import opened EntrySteps
  import opened KeyRecords
  import opened EntryMachine
  import D = Daemon
  import opened DaemonSafety

  class DaemonContext {
    const cfg: Config
    const lock: TheLock
    var entries: seq<StoreEntry>
    var events: seq<D.Event>
    var cas: seq<D.Ca>
    var nextId: nat

    ghost function Owned(): set<object>
      reads this
    {
      (set i | 0 <= i < |entries| :: entries[i] as object) + (set i | 0 <= i < |entries| :: entries[i].record as object)
    }

    // The objects are all different.
    ghost predicate Apart()
      reads this
    {
      && |events| == |entries|
      && (forall i, k :: 0 <= i < k < |entries| ==> entries[i] != entries[k] && entries[i].record != entries[k].record)
    }

    ghost function Slots(): (s: seq<D.Slot>)
      requires |events| == |entries|
      reads this, Owned()
    {
      var all, next, mine := entries, events, Owned();
      seq(|all|, i requires 0 <= i < |all| reads mine => D.Slot(all[i].View(), next[i]))
    }

    ghost function View(): D.System
      requires |events| == |entries|
      reads this, Owned(), lock
    {
      D.System(Slots(), cas, lock.View(), nextId, NoFault)
    }

    ghost predicate Valid()
      reads this, Owned(), lock
    {
      Apart() && Safe(View())
    }

    constructor (cfg: Config, lock: TheLock)
      requires lock.View() == Unlocked
      ensures Valid() && View() == D.System([], [], Unlocked, 0, NoFault)
      ensures this.cfg == cfg && this.lock == lock
    {
      this.cfg, this.lock := cfg, lock;
      entries, events, cas, nextId := [], [], [], 0;
    }

    // The event for the next appointment.
    method EventFor(when: When, delay: int, watchFd: bool) returns (e: D.Event)
      ensures e == D.EventFor(cfg, when, delay, watchFd)
    {
      match when
      case Now => e := D.Timer(0);
      case Soon => e := D.Timer(cfg.soon);
      case Soonish => e := D.Timer(cfg.soonish);
      case After => e := D.Timer(delay);
      case NoTime =>
        if watchFd {
          e := D.Descriptor;
        } else {
          e := D.NoEvent;
        }
    }

    // If only one entry changed, only its slot did.
    lemma SlotsNow(slots: seq<D.Slot>, i: nat)
      requires |events| == |entries| == |slots| && i < |entries|
      requires forall k :: 0 <= k < |entries| && k != i ==> slots[k] == D.Slot(entries[k].View(), events[k])
      ensures Slots() == slots[i := D.Slot(entries[i].View(), events[i])]
    {
    }

    lemma SlotsAre(slots: seq<D.Slot>)
      requires |events| == |entries| == |slots|
      requires forall k :: 0 <= k < |entries| ==> slots[k] == D.Slot(entries[k].View(), events[k])
      ensures Slots() == slots
    {
    }

    method ServiceEntry(i: nat, w: World, report: string)
      requires Valid() && i < |entries| && entries[i].started
      requires cfg.monitorMin <= cfg.monitorMax && OutputOf(report) == w.keyOutput
      modifies `events, lock, entries[i], entries[i].record
      ensures Valid() && View() == D.ServiceEntry(cfg, old(View()), i, w)
    {
      hide StepEntry;
      ghost var s := View();
      ghost var st := StepEntry(cfg, s.slots[i].entry, s.lock, w);
      assert EntryOk(s.slots[i].entry, s.lock);
      var when, delay, watchFd := entries[i].Iterate(cfg, lock, w, report);
      var event := EventFor(when, delay, watchFd);
      events := events[i := event];
      SlotsNow(s.slots, i);
      ServiceEntryIsGood(cfg, s, i, w);
      assert View() == D.PutEntry(s, i, st.entry, st.lock, event, NoFault);
    }

    method StopEntry(i: nat, w: World, report: string)
      requires Valid() && i < |entries| && OutputOf(report) == w.keyOutput
      modifies `events, lock, entries[i], entries[i].record
      ensures Valid() && View() == D.StopEntry(old(View()), i, w)
    {
      ghost var s := View();
      assert EntryOk(s.slots[i].entry, s.lock);
      StopEntryIsSafe(s, i, w);
      events := events[i := D.NoEvent];
      entries[i].Done(lock, w, report);
      assert Slots() == D.StopEntry(s, i, w).slots;
    }

    method StartEntry(i: nat, init: World, w: World, report: string)
      requires Valid() && i < |entries|
      requires cfg.monitorMin <= cfg.monitorMax && OutputOf(report) == w.keyOutput
      modifies `events, lock, entries[i], entries[i].record
      ensures Valid() && View() == D.StartEntry(cfg, old(View()), i, init, w)
    {
      hide D.ServiceEntry, StepEntry;
      ghost var s := View();
      assert EntryOk(s.slots[i].entry, s.lock);
      SetUpEntryIsSafe(s, i, init);
      entries[i].Init(lock, init);
      assert Slots() == D.SetUpEntry(s, i, init).slots;
      ServiceEntry(i, w, report);
    }

    method RestartEntry(i: nat, ws: D.RestartWorlds, stopReport: string, report: string)
      requires Valid() && i < |entries| && cfg.monitorMin <= cfg.monitorMax
      requires OutputOf(stopReport) == ws.stop.keyOutput && OutputOf(report) == ws.step.keyOutput
      modifies `events, lock, entries[i], entries[i].record
      ensures Valid() && View() == D.RestartEntry(cfg, old(View()), i, ws)
    {
      hide D.ServiceEntry, InitEntry, DoneEntry;
      StopEntryIsSafe(View(), i, ws.stop);
      StopEntry(i, ws.stop, stopReport);
      StartEntry(i, ws.init, ws.step, report);
    }

    // Restart all entries which name the CA.
    method RestartEntriesByCa(name: string, ws: nat -> D.RestartWorlds, stopReports: nat -> string, reports: nat -> string)
      requires Valid() && cfg.monitorMin <= cfg.monitorMax
      requires forall i: nat :: OutputOf(stopReports(i)) == ws(i).stop.keyOutput && OutputOf(reports(i)) == ws(i).step.keyOutput
      modifies `events, lock, Owned()
      ensures Valid() && View() == D.RestartByCa(cfg, old(View()), name, ws, 0)
    {
      hide D.RestartEntry, Safe;
      var i := 0;
      while i < |entries|
        invariant 0 <= i <= |entries| && Valid()
        invariant D.RestartByCa(cfg, View(), name, ws, i) == D.RestartByCa(cfg, old(View()), name, ws, 0)
      {
        if entries[i].caName == Some(name) {
          RestartEntry(i, ws(i), stopReports(i), reports(i));
        }
        i := i + 1;
      }
    }

    // A new entry goes to the end of both arrays, and is started.
    method AddEntry(e: StoreEntry, init: World, w: World, report: string)
      requires Valid() && e.id == nextId && e.state != Invalid && !e.started && e.live == {}
      requires e !in entries && forall i :: 0 <= i < |entries| ==> entries[i].record != e.record
      requires cfg.monitorMin <= cfg.monitorMax && OutputOf(report) == w.keyOutput
      modifies this, lock, e, e.record
      ensures Valid() && View() == D.StartAdded(cfg, old(View()), old(e.View()), init, w)
    {
      hide D.StartEntry, Safe;
      ghost var s := View();
      AppendEntryIsSafe(s, e.View());
      Append(e);
      assert View() == s.(slots := s.slots + [D.Slot(e.View(), D.NoEvent)], nextId := s.nextId + 1);
      StartEntry(|entries| - 1, init, w, report);
    }

    // Stop an entry and, if it could be deleted from the store, close the gap it
    // leaves in both arrays.
    method RemoveEntry(i: nat, w: World, report: string, deleted: bool) returns (rv: int)
      requires Valid() && i < |entries| && OutputOf(report) == w.keyOutput
      modifies this, lock, entries[i], entries[i].record
      ensures Valid() && View() == D.StopAndDrop(old(View()), i, w, deleted)
      ensures rv == if deleted then 0 else -1
    {
      ghost var s := View();
      StopEntryIsSafe(s, i, w);
      StopEntry(i, w, report);
      if !deleted {
        return -1;
      }
      ghost var s1 := View();
      CloseGap(i);
      DroppingKeepsSafe(s1, i);
      return 0;
    }

    method CloseGap(i: nat)
      requires Apart() && i < |entries|
      modifies this
      ensures Apart() && Slots() == old(Slots())[..i] + old(Slots())[i + 1..]
      ensures cas == old(cas) && nextId == old(nextId)
    {
      ghost var was, all, next := Slots(), entries, events;
      entries := entries[..i] + entries[i + 1..];
      events := events[..i] + events[i + 1..];
      forall k | 0 <= k < |entries|
        ensures entries[k] == all[if k < i then k else k + 1] && events[k] == next[if k < i then k else k + 1]
      {
      }
      SlotsAre(was[..i] + was[i + 1..]);
    }

    method Append(e: StoreEntry)
      requires Apart() && e !in entries && forall i :: 0 <= i < |entries| ==> entries[i].record != e.record
      modifies this
      ensures Apart() && entries == old(entries) + [e]
      ensures Slots() == old(Slots()) + [D.Slot(e.View(), D.NoEvent)]
      ensures cas == old(cas) && nextId == old(nextId) + 1
    {
      entries := entries + [e];
      events := events + [D.NoEvent];
      nextId := nextId + 1;
    }
  }

  lemma DroppingKeepsSafe(s: D.System, i: nat)
    requires Safe(s) && i < |s.slots| && s.lock.owner != AnEntry(s.slots[i].entry.id)
    ensures Safe(s.(slots := s.slots[..i] + s.slots[i + 1..]))
  {
    DropSlot(s.slots, i);
    DropEntryIsSafe(s, i, s.slots[..i] + s.slots[i + 1..]);
  }
}
