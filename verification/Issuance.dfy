/**
 What becomes of a certificate once the CA has issued it, over every run of looks,
 stops and starts: it is saved before anything else happens to the entry, and then
 it is read back before anyone is told.
 */
module Issuance {
  import opened Wrappers
  import opened EntryStates
  import opened WritingLock
  import opened Expiry
  import opened EntrySteps
  import opened KeyUse
  import opened EntrySchedule

  // The states between being issued a certificate and having saved it.
  predicate NotYetSaved(s: EntryState) {
    || s == NeedToSaveCert || s == PreSaveCert || s == StartSavingCert || s == SavingCert
    || s == NeedCertsavePerms || s == NeedCertsaveToken || s == NeedCertsavePin
    || s == NeedToNotifyIssuedSaveFailed || s == NotifyingIssuedSaveFailed
  }

  // A look at a submission which has ended with a certificate.
  predicate IsIssued(e: Entry, a: EntryAction) {
    a.Visit? && e.state == Submitting && Submit in e.live && a.w.ready && a.w.outcome == Success
  }

  lemma IssuedLeads(cfg: Config, e: Entry, a: EntryAction)
    requires IsIssued(e, a)
    ensures NotYetSaved(Act(cfg, e, a).state) && Act(cfg, e, a).keys == e.keys
  {
    hide StepEntry, DelayAfter;
    StepsSubmit(cfg, e, a.l, a.w);
  }

  lemma SaveWorkStays(cfg: Config, e: Entry, l: Lock, w: World)
    requires e.state == NeedToSaveCert || e.state == PreSaveCert || e.state == StartSavingCert
    ensures NotYetSaved(StepEntry(cfg, e, l, w).entry.state)
  {
    hide StepEntry;
    StepsSaveCert(cfg, e, l, w);
  }

  lemma SavingStays(cfg: Config, e: Entry, l: Lock, w: World)
    requires e.state == SavingCert
    ensures Saves(e, Visit(l, w)) || NotYetSaved(StepEntry(cfg, e, l, w).entry.state)
  {
    hide StepEntry, PromoteKey;
    StepsSaveCert(cfg, e, l, w);
  }

  lemma SaveFailedStays(cfg: Config, e: Entry, l: Lock, w: World)
    requires e.state == NeedToNotifyIssuedSaveFailed || e.state == NotifyingIssuedSaveFailed
    ensures NotYetSaved(StepEntry(cfg, e, l, w).entry.state)
  {
    hide StepEntry, ReleaseAndNotify;
    StepsNotify(cfg, e, l, w);
    if e.state == NeedToNotifyIssuedSaveFailed {
      ReleaseLeads(e, l, NotifyingIssuedSaveFailed, w);
    }
  }

  lemma SaveWaitStays(cfg: Config, e: Entry, l: Lock, w: World)
    requires e.state == NeedCertsavePerms || e.state == NeedCertsaveToken || e.state == NeedCertsavePin
    ensures StepEntry(cfg, e, l, w).entry == e
  {
  }

  lemma SavePutBack(s: EntryState)
    requires s == NeedToSaveCert || s == PreSaveCert || s == StartSavingCert || s == SavingCert
    ensures Reset(s) == NeedToSaveCert
  {
  }

  lemma SaveWaitPutBack(s: EntryState)
    requires s == NeedCertsavePerms || s == NeedCertsaveToken || s == NeedCertsavePin
    ensures Reset(s) == NeedToSaveCert
  {
  }

  lemma SaveFailedPutBack(s: EntryState)
    requires s == NeedToNotifyIssuedSaveFailed || s == NotifyingIssuedSaveFailed
    ensures Reset(s) == NeedToNotifyIssuedSaveFailed
  {
  }

  lemma PutBackToSave(s: EntryState)
    requires NotYetSaved(s)
    ensures NotYetSaved(Reset(s))
  {
    hide Reset;
    if s == NeedToSaveCert || s == PreSaveCert || s == StartSavingCert || s == SavingCert {
      SavePutBack(s);
    } else if s == NeedCertsavePerms || s == NeedCertsaveToken || s == NeedCertsavePin {
      SaveWaitPutBack(s);
    } else {
      SaveFailedPutBack(s);
    }
  }

  // Until it is saved the entry stays in these states, whatever happens to it.
  lemma StaysUntilSaved(cfg: Config, e: Entry, a: EntryAction)
    requires NotYetSaved(e.state)
    ensures Saves(e, a) || NotYetSaved(Act(cfg, e, a).state)
  {
    hide StepEntry, Saves, Reset, CleanUpKeygen, LetGo;
    PutBackToSave(e.state);
    match a
    case Visit(l, w) =>
      if e.state == NeedToSaveCert || e.state == PreSaveCert || e.state == StartSavingCert {
        SaveWorkStays(cfg, e, l, w);
      } else if e.state == SavingCert {
        SavingStays(cfg, e, l, w);
      } else if e.state == NeedToNotifyIssuedSaveFailed || e.state == NotifyingIssuedSaveFailed {
        SaveFailedStays(cfg, e, l, w);
      } else {
        SaveWaitStays(cfg, e, l, w);
      }
    case _ =>
  }

  // What was saved stays saved, and saving adds one.
  lemma SavedGrows(cfg: Config, e: Entry, a: EntryAction)
    ensures |Act(cfg, e, a).keys.saved| == |e.keys.saved| + if Saves(e, a) then 1 else 0
  {
    hide Act;
    KeysMove(cfg, e, a);
    OnlyOneChanges(e, a);
  }

  lemma OnlyOneChanges(e: Entry, a: EntryAction)
    ensures !(CleansUp(e, a) && Saves(e, a))
  {
  }

  lemma {:induction false} SavedStaySaved(cfg: Config, e: Entry, actions: seq<EntryAction>)
    ensures |ActAll(cfg, e, actions).keys.saved| >= |e.keys.saved|
    decreases |actions|
  {
    hide Act, Saves;
    if actions != [] {
      SavedGrows(cfg, e, actions[0]);
      SavedStaySaved(cfg, Act(cfg, e, actions[0]), actions[1..]);
    }
  }

  lemma {:induction false} SavedInTheEnd(cfg: Config, e: Entry, actions: seq<EntryAction>)
    requires NotYetSaved(e.state)
    ensures var r := ActAll(cfg, e, actions); NotYetSaved(r.state) || |r.keys.saved| > |e.keys.saved|
    decreases |actions|
  {
    hide Act, Saves, NotYetSaved;
    if actions != [] {
      var e1 := Act(cfg, e, actions[0]);
      StaysUntilSaved(cfg, e, actions[0]);
      SavedGrows(cfg, e, actions[0]);
      if Saves(e, actions[0]) {
        SavedStaySaved(cfg, e1, actions[1..]);
      } else {
        SavedInTheEnd(cfg, e1, actions[1..]);
      }
    }
  }

  // Whatever happens after the CA has issued a certificate: as long as it was not saved
  // the entry is about to save it, saving it, or waiting to be able to.  So the
  // certificates of the CA are not saved, nothing is read back, nobody is told, the
  // entry is not monitored and no other certificate is requested before it has been saved.
  lemma IssuedIsSaved(cfg: Config, e: Entry, look: EntryAction, actions: seq<EntryAction>)
    requires IsIssued(e, look)
    ensures var r := ActAll(cfg, Act(cfg, e, look), actions);
            NotYetSaved(r.state) || |r.keys.saved| > |e.keys.saved|
  {
    hide Act, NotYetSaved;
    IssuedLeads(cfg, e, look);
    SavedInTheEnd(cfg, Act(cfg, e, look), actions);
  }

  // The states between having saved a certificate and having read it back.
  predicate NotYetRead(s: EntryState) {
    || s == SavedCert || s == NeedToSaveCaCerts || s == StartSavingCaCerts || s == SavingCaCerts || s == NeedCaCertSavePerms
    || s == NeedToNotifyIssuedCaSaveFailed || s == NotifyingIssuedCaSaveFailed || s == NeedToReadCert || s == ReadingCert
  }

  // A look at reading the certificate back which has ended.
  predicate IsRead(e: Entry, a: EntryAction) {
    a.Visit? && e.state == ReadingCert && Certread in e.live && a.w.ready
  }

  lemma SavedLeads(cfg: Config, e: Entry, a: EntryAction)
    requires Saves(e, a)
    ensures NotYetRead(Act(cfg, e, a).state)
  {
    hide StepEntry, PromoteKey;
    StepsSaveCert(cfg, e, a.l, a.w);
  }

  lemma CaSaveStays(cfg: Config, e: Entry, l: Lock, w: World)
    requires e.state == NeedToSaveCaCerts || e.state == StartSavingCaCerts || e.state == SavingCaCerts
    ensures NotYetRead(StepEntry(cfg, e, l, w).entry.state)
  {
    hide StepEntry, Ensured;
    StepsSaveCaCerts(cfg, e, l, w);
  }

  lemma CaSaveFailedStays(cfg: Config, e: Entry, l: Lock, w: World)
    requires e.state == NeedToNotifyIssuedCaSaveFailed || e.state == NotifyingIssuedCaSaveFailed
    ensures NotYetRead(StepEntry(cfg, e, l, w).entry.state)
  {
    hide StepEntry, ReleaseAndNotify;
    StepsNotify(cfg, e, l, w);
    if e.state == NeedToNotifyIssuedCaSaveFailed {
      ReleaseLeads(e, l, NotifyingIssuedCaSaveFailed, w);
    }
  }

  lemma ReadingStays(cfg: Config, e: Entry, l: Lock, w: World)
    requires e.state == NeedToReadCert || e.state == ReadingCert
    ensures IsRead(e, Visit(l, w)) || NotYetRead(StepEntry(cfg, e, l, w).entry.state)
  {
    hide StepEntry, Ensured;
    StepsReadCert(cfg, e, l, w);
  }

  lemma OthersStay(cfg: Config, e: Entry, l: Lock, w: World)
    requires e.state == SavedCert || e.state == NeedCaCertSavePerms
    ensures NotYetRead(StepEntry(cfg, e, l, w).entry.state)
  {
  }

  lemma CaSavePutBack(s: EntryState)
    requires s == NeedToSaveCaCerts || s == StartSavingCaCerts || s == SavingCaCerts || s == NeedCaCertSavePerms
    ensures Reset(s) == NeedToSaveCaCerts
  {
  }

  lemma CaSaveFailedPutBack(s: EntryState)
    requires s == NeedToNotifyIssuedCaSaveFailed || s == NotifyingIssuedCaSaveFailed
    ensures Reset(s) == NeedToNotifyIssuedCaSaveFailed
  {
  }

  lemma ReadPutBack(s: EntryState)
    requires s == SavedCert || s == NeedToReadCert || s == ReadingCert
    ensures Reset(s) == if s == SavedCert then SavedCert else NeedToReadCert
  {
  }

  lemma PutBackToRead(s: EntryState)
    requires NotYetRead(s)
    ensures NotYetRead(Reset(s))
  {
    hide Reset;
    if s == NeedToSaveCaCerts || s == StartSavingCaCerts || s == SavingCaCerts || s == NeedCaCertSavePerms {
      CaSavePutBack(s);
    } else if s == NeedToNotifyIssuedCaSaveFailed || s == NotifyingIssuedCaSaveFailed {
      CaSaveFailedPutBack(s);
    } else {
      ReadPutBack(s);
    }
  }

  lemma StaysUntilRead(cfg: Config, e: Entry, a: EntryAction)
    requires NotYetRead(e.state)
    ensures IsRead(e, a) || NotYetRead(Act(cfg, e, a).state)
  {
    hide StepEntry, IsRead, Reset, CleanUpKeygen, LetGo;
    PutBackToRead(e.state);
    match a
    case Visit(l, w) =>
      if e.state == NeedToSaveCaCerts || e.state == StartSavingCaCerts || e.state == SavingCaCerts {
        CaSaveStays(cfg, e, l, w);
      } else if e.state == NeedToNotifyIssuedCaSaveFailed || e.state == NotifyingIssuedCaSaveFailed {
        CaSaveFailedStays(cfg, e, l, w);
      } else if e.state == NeedToReadCert || e.state == ReadingCert {
        ReadingStays(cfg, e, l, w);
      } else {
        OthersStay(cfg, e, l, w);
      }
    case _ =>
  }

  // No look in the run finds the certificate read back.
  predicate NeverRead(cfg: Config, e: Entry, actions: seq<EntryAction>)
    decreases |actions|
  {
    actions == [] || (!IsRead(e, actions[0]) && NeverRead(cfg, Act(cfg, e, actions[0]), actions[1..]))
  }

  // Whatever happens after a certificate was saved: until it has been read back the entry
  // saves the certificates of its CA, or reads, or waits to be able to; and when it has
  // been, its validity is what was read.
  lemma {:induction false} SavedIsReadBack(cfg: Config, e: Entry, look: EntryAction, actions: seq<EntryAction>)
    requires Saves(e, look) && NeverRead(cfg, Act(cfg, e, look), actions)
    ensures NotYetRead(ActAll(cfg, Act(cfg, e, look), actions).state)
  {
    hide Act, Saves, NotYetRead;
    SavedLeads(cfg, e, look);
    StaysNotRead(cfg, Act(cfg, e, look), actions);
  }

  lemma {:induction false} StaysNotRead(cfg: Config, e: Entry, actions: seq<EntryAction>)
    requires NotYetRead(e.state) && NeverRead(cfg, e, actions)
    ensures NotYetRead(ActAll(cfg, e, actions).state)
    decreases |actions|
  {
    hide Act, IsRead, NotYetRead;
    if actions != [] {
      StaysUntilRead(cfg, e, actions[0]);
      StaysNotRead(cfg, Act(cfg, e, actions[0]), actions[1..]);
    }
  }

  lemma ReadIsTaken(cfg: Config, e: Entry, look: EntryAction)
    requires IsRead(e, look)
    ensures var e1 := Act(cfg, e, look);
            && e1.watch == e.watch.(notBefore := look.w.readNotBefore, notAfter := look.w.readNotAfter)
            && (e1.state == if look.w.outcome != Success then NeedGuidance
                            else if look.w.hookStarted then PostSavedCert else NeedToNotifyIssuedSaved)
  {
    hide StepEntry;
    StepsReadCert(cfg, e, look.l, look.w);
  }
}
