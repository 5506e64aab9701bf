/**
 Restarting the entries of a CA: which entries are restarted, what that does to each,
 and exactly when a visit to one of the CA's phases does it.
 */
module Restarts {
  import opened Wrappers
  import opened EntryStates
  import opened WritingLock
  import opened Expiry
  import opened EntrySteps
  import opened CaSteps
  import opened Daemon

  // The lock, given up if the entry has it.
  function GivenUp(l: Lock, id: nat): Lock {
    if l == Lock(AnEntry(id), None) then Unlocked else l
  }

  // The entry as it is put back by stopping and starting it: a key generation in
  // progress is cleaned up, and the validity is read again.
  function PutBack(e: Entry, ws: RestartWorlds): Entry {
    e.(state := Reset(Reset(e.state)), started := true, live := {},
       keys := if e.started && Keygen in e.live then CleanUpKeygen(e.keys, ws.stop) else e.keys,
       watch := e.watch.(notBefore := ws.init.readNotBefore, notAfter := ws.init.readNotAfter))
  }

  // The slot is that of the entry after one look at it, with the appointment it asked for.
  predicate IsLookedAt(cfg: Config, e: Entry, l: Lock, w: World, now: Slot) {
    var st := StepEntry(cfg, e, l, w);
    && now.entry == st.entry
    && now.event == match st.when
                    case Now => Timer(0)
                    case Soon => Timer(cfg.soon)
                    case Soonish => Timer(cfg.soonish)
                    case After => Timer(st.delay)
                    case NoTime => if st.watchFd then Descriptor else NoEvent
  }

  // The new slot is that of the old entry, put back and looked at once under the lock.
  predicate IsRestarted(cfg: Config, was: Slot, ws: RestartWorlds, l: Lock, now: Slot) {
    IsLookedAt(cfg, PutBack(was.entry, ws), GivenUp(l, was.entry.id), ws.step, now)
  }

  // The daemon with only its first n entries.
  function FirstOnly(s: System, n: nat): System
    requires n <= |s.slots|
  {
    s.(slots := s.slots[..n])
  }

  lemma LettingGo(l: Lock, id: nat)
    ensures LetGo(LetGo(l, id), id) == GivenUp(l, id)
  {
  }

  lemma OneRestart(cfg: Config, s: System, i: nat, ws: RestartWorlds)
    requires i < |s.slots|
    ensures var r := RestartEntry(cfg, s, i, ws);
            && |r.slots| == |s.slots| && r.cas == s.cas
            && (forall k :: 0 <= k < |s.slots| && k != i ==> r.slots[k] == s.slots[k])
            && (r.fault == NoFault ==> IsRestarted(cfg, s.slots[i], ws, s.lock, r.slots[i]))
  {
    hide StepEntry, Reset, CleanUpKeygen, LetGo, GivenUp;
    LettingGo(s.lock, s.slots[i].entry.id);
  }

  // Leaving later entries out changes nothing for the earlier ones.
  lemma RestartWithout(cfg: Config, s: System, i: nat, ws: RestartWorlds, n: nat)
    requires i < n <= |s.slots|
    ensures RestartEntry(cfg, FirstOnly(s, n), i, ws) ==
              RestartEntry(cfg, s, i, ws).(slots := RestartEntry(cfg, s, i, ws).slots[..n])
  {
    hide StepEntry, Reset, DoneEntry, InitEntry;
    assert FirstOnly(s, n).slots[i] == s.slots[i];
  }

  // Entries before number i stay as they are, and all CAs.
  lemma {:induction false} EarlierStay(cfg: Config, s: System, name: string, ws: nat -> RestartWorlds, i: nat)
    ensures var r := RestartByCa(cfg, s, name, ws, i);
            && r.cas == s.cas && |r.slots| == |s.slots|
            && forall k :: 0 <= k < i && k < |s.slots| ==> r.slots[k] == s.slots[k]
    decreases |s.slots| - i
  {
    hide RestartEntry, IsRestarted;
    if i < |s.slots| && s.fault == NoFault {
      OneRestart(cfg, s, i, ws(i));
      var s1 := if s.slots[i].entry.caName == Some(name) then RestartEntry(cfg, s, i, ws(i)) else s;
      EarlierStay(cfg, s1, name, ws, i + 1);
    }
  }

  // Restarting goes through the first n entries as if there were no others, and
  // then on to the rest.
  lemma {:induction false} FirstOnesFirst(cfg: Config, s: System, name: string, ws: nat -> RestartWorlds, k: nat, n: nat)
    requires k <= n <= |s.slots|
    ensures var p := RestartByCa(cfg, FirstOnly(s, n), name, ws, k);
            && |p.slots| == n
            && RestartByCa(cfg, s, name, ws, k) == RestartByCa(cfg, p.(slots := p.slots + s.slots[n..]), name, ws, n)
    decreases n - k
  {
    hide RestartEntry, IsRestarted;
    if k == n || s.fault != NoFault {
      assert s.slots[..n] + s.slots[n..] == s.slots;
    } else {
      assert FirstOnly(s, n).slots[k] == s.slots[k];
      OneRestart(cfg, s, k, ws(k));
      RestartWithout(cfg, s, k, ws(k), n);
      var s1 := if s.slots[k].entry.caName == Some(name) then RestartEntry(cfg, s, k, ws(k)) else s;
      assert s1.slots[n..] == s.slots[n..];
      FirstOnesFirst(cfg, s1, name, ws, k + 1, n);
    }
  }

  // The lock when restarting comes to entry number i.
  function LockAt(cfg: Config, s: System, name: string, ws: nat -> RestartWorlds, i: nat): Lock
    requires i <= |s.slots|
  {
    RestartByCa(cfg, FirstOnly(s, i), name, ws, 0).lock
  }

  // What restarting the entries of a CA makes of each: one which names another CA,
  // or none, stays as it was, and one which names it is put back and looked at once,
  // under the lock its predecessors left.
  predicate RestartedByName(cfg: Config, s: System, name: string, ws: nat -> RestartWorlds, r: System) {
    && |r.slots| == |s.slots|
    && forall i :: 0 <= i < |s.slots| ==>
         if s.slots[i].entry.caName != Some(name) then r.slots[i] == s.slots[i]
         else r.fault == NoFault ==> IsRestarted(cfg, s.slots[i], ws(i), LockAt(cfg, s, name, ws, i), r.slots[i])
  }

  lemma OneAtItsTurn(cfg: Config, s: System, name: string, ws: nat -> RestartWorlds, i: nat)
    requires i < |s.slots|
    ensures var r := RestartByCa(cfg, s, name, ws, 0);
            if s.slots[i].entry.caName != Some(name) then r.slots[i] == s.slots[i]
            else r.fault == NoFault ==> IsRestarted(cfg, s.slots[i], ws(i), LockAt(cfg, s, name, ws, i), r.slots[i])
  {
    hide RestartEntry, IsRestarted;
    FirstOnesFirst(cfg, s, name, ws, 0, i);
    var p := RestartByCa(cfg, FirstOnly(s, i), name, ws, 0);
    var q := p.(slots := p.slots + s.slots[i..]);
    assert q.slots[i] == s.slots[i];
    if q.fault == NoFault {
      OneRestart(cfg, q, i, ws(i));
      var q1 := if q.slots[i].entry.caName == Some(name) then RestartEntry(cfg, q, i, ws(i)) else q;
      EarlierStay(cfg, q1, name, ws, i + 1);
    }
  }

  // Exactly the entries which name the CA are restarted.
  lemma ExactlyItsEntries(cfg: Config, s: System, name: string, ws: nat -> RestartWorlds)
    ensures RestartedByName(cfg, s, name, ws, RestartByCa(cfg, s, name, ws, 0))
  {
    hide RestartByCa, IsRestarted, LockAt;
    forall i | 0 <= i < |s.slots|
      ensures var r := RestartByCa(cfg, s, name, ws, 0);
              if s.slots[i].entry.caName != Some(name) then r.slots[i] == s.slots[i]
              else r.fault == NoFault ==> IsRestarted(cfg, s.slots[i], ws(i), LockAt(cfg, s, name, ws, i), r.slots[i])
    {
      OneAtItsTurn(cfg, s, name, ws, i);
    }
  }

  // The visit finds the phase fetching, the fetch finished, and the data it brought
  // new and not the CA's certificates.
  predicate BringsNewData(s: System, j: nat, p: Phase, cw: CaWorld)
    requires j < |s.cas| && p in s.cas[j].slots
  {
    var t := s.cas[j].slots[p].task;
    p != Certs && t.state == CaRefreshing && Fetch in t.live && cw.ready && cw.outcome == DataModified
  }

  lemma AsksForRestart(cfg: Config, external: bool, id: nat, p: Phase, t: CaTask, l: Lock, w: CaWorld)
    ensures var st := StepCa(cfg, external, id, p, t, l, w);
            st.restartEntries <==>
              p != Certs && t.state == CaRefreshing && Fetch in t.live && w.ready && w.outcome == DataModified
  {
    hide UnlockByCa, LockByCa, CaDelay, Clamp;
  }

  lemma FetchingDoesNotFault(cfg: Config, external: bool, id: nat, p: Phase, t: CaTask, l: Lock, w: CaWorld)
    requires t.state == CaRefreshing && Fetch in t.live
    ensures StepCa(cfg, external, id, p, t, l, w).fault == NoFault
  {
    hide UnlockByCa, LockByCa, CaDelay, Clamp;
  }

  // A visit to a CA's phase restarts the entries which name the CA exactly if it
  // brings new data; any other visit leaves every entry, and what it waits for, alone.
  lemma VisitRestartsItsEntries(cfg: Config, s: System, j: nat, p: Phase, cw: CaWorld, ws: nat -> RestartWorlds)
    requires s.fault == NoFault && Enabled(s, VisitCa(j, p, cw, ws))
    ensures var r := Next(cfg, s, VisitCa(j, p, cw, ws));
            && (BringsNewData(s, j, p, cw) ==> RestartedByName(cfg, s, s.cas[j].name, ws, r))
            && (!BringsNewData(s, j, p, cw) ==> r.slots == s.slots)
  {
    hide StepCa, RestartByCa, EventFor, RestartedByName;
    var ca := s.cas[j];
    AsksForRestart(cfg, ca.external, ca.id, p, ca.slots[p].task, s.lock, cw);
    if BringsNewData(s, j, p, cw) {
      FetchingDoesNotFault(cfg, ca.external, ca.id, p, ca.slots[p].task, s.lock, cw);
      ExactlyItsEntries(cfg, s, ca.name, ws);
      SameSlotsSameRestart(cfg, s, ca.name, ws, RestartByCa(cfg, s, ca.name, ws, 0),
                           Next(cfg, s, VisitCa(j, p, cw, ws)));
    }
  }

  lemma SameSlotsSameRestart(cfg: Config, s: System, name: string, ws: nat -> RestartWorlds, r: System, r1: System)
    requires RestartedByName(cfg, s, name, ws, r) && r1.slots == r.slots && (r1.fault == NoFault ==> r.fault == NoFault)
    ensures RestartedByName(cfg, s, name, ws, r1)
  {
    hide IsRestarted, LockAt;
  }
}
