/**
 The process-wide writing lock: who owns it, and, when a CA owns it, for which
 of the CA's phases.  The functions give each lock operation as a value; the
 class is the pair of global variables the operations update.
 */
module WritingLock {
  import opened Wrappers

  datatype Phase =
    | Identify | Certs | Profiles | DefaultProfile | EnrollReqs | RenewReqs | Capabilities | EncryptionCerts

  // Owners are told apart by the identity of the entry or CA object.
  datatype Owner = Nobody | AnEntry(id: nat) | ACa(id: nat)

  // No phase is the source's cm_ca_phase_invalid.
  datatype Lock = Lock(owner: Owner, phase: Option<Phase>)

  const Unlocked := Lock(Nobody, None)

  // Granted and Refused are TRUE and FALSE; Abort is a call to abort().
  datatype Answer = Granted(lock: Lock) | Refused | Abort

  predicate HasLock(l: Lock, holder: Owner, phase: Option<Phase>) {
    l.owner == holder && (l.phase == None || l.phase == phase)
  }

  function LockByEntry(l: Lock, id: nat): Answer {
    if l.owner == AnEntry(id) then Abort
    else if l.owner == Nobody then Granted(l.(owner := AnEntry(id)))
    else Refused
  }

  function UnlockByEntry(l: Lock, id: nat): Answer {
    if l.owner == AnEntry(id) then Granted(l.(owner := Nobody))
    else if l.owner == Nobody then Abort
    else Refused
  }

  function LockByCa(l: Lock, id: nat, phase: Phase): Answer {
    if l.owner == ACa(id) && l.phase == Some(phase) then Abort
    else if l.owner == Nobody then Granted(Lock(ACa(id), Some(phase)))
    else Refused
  }

  function UnlockByCa(l: Lock, id: nat, phase: Phase): Answer {
    if l.owner == ACa(id) && l.phase == Some(phase) then Granted(Unlocked)
    else if l.owner == Nobody then Abort
    else Refused
  }

  // The phase tag is there exactly when a CA owns the lock.
  predicate Consistent(l: Lock) {
    l.phase.Some? <==> l.owner.ACa?
  }

  class TheLock {
    var owner: Owner
    var phase: Option<Phase>

    constructor ()
      ensures View() == Unlocked
    {
      owner, phase := Nobody, None;
    }

    function View(): Lock
      reads this
    {
      Lock(owner, phase)
    }

    method LockEntry(id: nat) returns (ok: bool)
      requires !LockByEntry(View(), id).Abort?
      modifies this
      ensures match LockByEntry(old(View()), id)
              case Granted(l) => ok && View() == l
              case _ => !ok && View() == old(View())
    {
      if owner == AnEntry(id) || owner == Nobody {
        if owner == Nobody {
          owner := AnEntry(id);
        } else {
          assert false; // abort()
        }
        ok := true;
      } else {
        ok := false;
      }
    }

    method UnlockEntry(id: nat) returns (ok: bool)
      requires !UnlockByEntry(View(), id).Abort?
      modifies this
      ensures match UnlockByEntry(old(View()), id)
              case Granted(l) => ok && View() == l
              case _ => !ok && View() == old(View())
    {
      if owner == AnEntry(id) || owner == Nobody {
        if owner == AnEntry(id) {
          owner := Nobody;
        } else {
          assert false; // abort()
        }
        ok := true;
      } else {
        ok := false;
      }
    }

    method LockCa(id: nat, p: Phase) returns (ok: bool)
      requires !LockByCa(View(), id, p).Abort?
      modifies this
      ensures match LockByCa(old(View()), id, p)
              case Granted(l) => ok && View() == l
              case _ => !ok && View() == old(View())
    {
      if (owner == ACa(id) && phase == Some(p)) || owner == Nobody {
        if owner == Nobody {
          owner := ACa(id);
          phase := Some(p);
        } else {
          assert false; // abort()
        }
        ok := true;
      } else {
        ok := false;
      }
    }

    method UnlockCa(id: nat, p: Phase) returns (ok: bool)
      requires !UnlockByCa(View(), id, p).Abort?
      modifies this
      ensures match UnlockByCa(old(View()), id, p)
              case Granted(l) => ok && View() == l
              case _ => !ok && View() == old(View())
    {
      if (owner == ACa(id) && phase == Some(p)) || owner == Nobody {
        if owner == ACa(id) {
          owner := Nobody;
          phase := None;
        } else {
          assert false; // abort()
        }
        ok := true;
      } else {
        ok := false;
      }
    }
  }

  // Locking can only take a free lock, unlocking can only free one's own, and a
  // consistent lock stays consistent: no other holder can be dispossessed.
  lemma EntryOperations(l: Lock, id: nat)
    requires Consistent(l)
    ensures LockByEntry(l, id).Granted? <==> l == Unlocked
    ensures LockByEntry(l, id).Granted? ==>
              LockByEntry(l, id).lock == Lock(AnEntry(id), None) && UnlockByEntry(LockByEntry(l, id).lock, id) == Granted(l)
    ensures UnlockByEntry(l, id).Granted? <==> HasLock(l, AnEntry(id), None)
    ensures UnlockByEntry(l, id).Granted? ==> UnlockByEntry(l, id).lock == Unlocked
  {
  }

  lemma CaOperations(l: Lock, id: nat, p: Phase)
    requires Consistent(l)
    ensures LockByCa(l, id, p).Granted? <==> l == Unlocked
    ensures LockByCa(l, id, p).Granted? ==> UnlockByCa(LockByCa(l, id, p).lock, id, p) == Granted(l)
    ensures UnlockByCa(l, id, p).Granted? <==> HasLock(l, ACa(id), Some(p))
    ensures forall q :: q != p && HasLock(l, ACa(id), Some(p)) ==> !HasLock(l, ACa(id), Some(q))
  {
  }
}
