/**
 How often a key is used: the candidate key which generation leaves behind, its
 promotion when a certificate for it is saved, and the use counter, which renewal
 compares to the configured maximum.
 */
module KeyUse {
  import opened Wrappers
  import opened EntryStates
  import opened WritingLock
  import opened Expiry
  import opened EntrySteps

  // How many of the saved certificates are for a key.
  function Uses(saved: seq<nat>, key: nat): nat {
    if saved == [] then 0 else Uses(saved[..|saved| - 1], key) + if saved[|saved| - 1] == key then 1 else 0
  }

  // Keys are told apart, and a candidate has not been used yet.
  predicate Fresh(k: Keys) {
    && k.current < k.nextKey
    && (forall s :: s in k.saved ==> s < k.nextKey)
    && (k.candidate.Some? ==>
          k.candidate.value < k.nextKey && k.candidate.value != k.current && k.candidate.value !in k.saved)
  }

  // The counter says how many certificates were saved with the current key.
  predicate Counted(k: Keys) {
    Fresh(k) && k.issued == Uses(k.saved, k.current)
  }

  lemma {:induction false} UnusedKey(saved: seq<nat>, key: nat)
    requires key !in saved
    ensures Uses(saved, key) == 0
  {
    if saved != [] {
      UnusedKey(saved[..|saved| - 1], key);
    }
  }

  lemma UsesOfLast(saved: seq<nat>, last: nat, key: nat)
    ensures Uses(saved + [last], key) == Uses(saved, key) + if last == key then 1 else 0
  {
    assert (saved + [last])[..|saved|] == saved;
  }

  // Saving a certificate keeps the count exact.
  lemma PromotionCounts(k: Keys)
    requires Counted(k)
    ensures Counted(PromoteKey(k))
  {
    match k.candidate
    case Some(c) =>
      UsesOfLast(k.saved, c, c);
      UnusedKey(k.saved, c);
    case None =>
      UsesOfLast(k.saved, k.current, k.current);
  }

  // Cleaning up after key generation keeps it exact unless generation failed
  // without leaving a candidate: that zeroes the count of a key which stays.
  predicate ZeroesUsedKey(k: Keys, w: World) {
    w.keyOutput == KeyWithoutMarker && w.outcome != Success && Uses(k.saved, k.current) != 0
  }

  lemma CleaningUpCounts(k: Keys, w: World)
    requires Counted(k)
    ensures Fresh(CleanUpKeygen(k, w))
    ensures Counted(CleanUpKeygen(k, w)) <==> !ZeroesUsedKey(k, w)
  {
    if k.nextKey in k.saved {
      assert false;
    }
    UnusedKey(k.saved, k.nextKey);
  }

  // What can happen to one entry; the lock may be in any condition.
  datatype EntryAction = Visit(l: Lock, w: World) | Stop(l: Lock, w: World) | Start(l: Lock, w: World)

  function Act(cfg: Config, e: Entry, a: EntryAction): Entry {
    match a
    case Visit(l, w) => StepEntry(cfg, e, l, w).entry
    case Stop(l, w) => DoneEntry(e, l, w).entry
    case Start(l, w) => InitEntry(e, l, w).entry
  }

  // An action may change the keys by cleaning up key generation, or by saving.
  predicate CleansUp(e: Entry, a: EntryAction) {
    match a
    case Visit(l, w) => e.state == GeneratingKeyPair && Keygen in e.live && w.ready && UnlockByEntry(l, e.id).Granted?
    case Stop(_, _) => e.state != Invalid && e.started && Keygen in e.live
    case Start(_, _) => false
  }

  predicate Saves(e: Entry, a: EntryAction) {
    a.Visit? && e.state == SavingCert && Certsave in e.live && a.w.ready && a.w.outcome == Success
  }

  // Keyless work leaves the keys alone.

  lemma MonitorKeepsKeys(cfg: Config, e: Entry, l: Lock, w: World)
    ensures StepMonitor(cfg, e, l, w).entry.keys == e.keys
  {
    hide MonitorDelay, Noteworthy, LookedAt, Remaining, RekeyExpected;
  }

  lemma ReleaseKeepsKeys(e: Entry, l: Lock, s: EntryState, w: World)
    ensures ReleaseAndNotify(e, l, s, w).entry.keys == e.keys
  {
    hide Ensured, UnlockByEntry;
  }

  lemma AwaitKeepsKeys(e: Entry, l: Lock, h: Helper, w: World, done: Step)
    requires done.entry.keys == e.keys
    ensures Await(e, l, h, w, done).entry.keys == e.keys
  {
  }

  lemma NotifyKeepsKeys(e: Entry, l: Lock, w: World)
    ensures StepNotify(e, l, w).entry.keys == e.keys
  {
    hide ReleaseAndNotify, NotificationOf, Await;
    match e.state
    case NeedToNotifyRejection =>
    case NotifyingRejection => AwaitKeepsKeys(e, l, Notify, w, Finish(e, l, Notify, CaRejected, Soon));
    case NotifyingIssuedSaveFailed =>
      AwaitKeepsKeys(e, l, Notify, w, Finish(e.(retried := true), l, Notify, StartSavingCert, Soonish));
    case NotifyingIssuedSaved => AwaitKeepsKeys(e, l, Notify, w, Finish(e, l, Notify, Monitoring, Soon));
    case NotifyingIssuedCaSaveFailed => AwaitKeepsKeys(e, l, Notify, w, Finish(e, l, Notify, NeedToSaveCaCerts, Soonish));
    case NotifyingOnlyCaSaveFailed => AwaitKeepsKeys(e, l, Notify, w, Finish(e, l, Notify, Monitoring, Soonish));
    case _ => ReleaseKeepsKeys(e, l, NotificationOf(e.state), w);
  }

  lemma SaveCaCertsKeepsKeys(e: Entry, l: Lock, w: World)
    ensures StepSaveCaCerts(e, l, w).entry.keys == e.keys
  {
    hide Ensured, UnlockByEntry;
    match e.state
    case NeedToSaveCaCerts | NeedToSaveOnlyCaCerts =>
    case SavingCaCerts =>
    case SavingOnlyCaCerts =>
    case _ =>
  }

  lemma ReadCertKeepsKeys(e: Entry, l: Lock, w: World)
    ensures StepReadCert(e, l, w).entry.keys == e.keys
  {
    hide Ensured;
  }

  lemma NewlyAddedKeepsKeys(e: Entry, l: Lock, w: World)
    ensures StepNewlyAdded(e, l, w).entry.keys == e.keys
  {
    hide LockByEntry, UnlockByEntry, Decision;
    match e.state
    case NewlyAdded =>
    case NewlyAddedReadingKeyinfo =>
    case NewlyAddedReadingCert =>
    case NewlyAddedDeciding =>
    case _ =>
  }

  lemma SubmitKeepsKeys(cfg: Config, e: Entry, l: Lock, w: World)
    ensures StepSubmit(cfg, e, l, w).entry.keys == e.keys
  {
    hide AfterSubmission, AppointmentAfter, DelayAfter;
  }

  lemma CsrKeepsKeys(e: Entry, l: Lock, w: World)
    ensures StepKeyinfo(e, l, w).entry.keys == e.keys
    ensures StepCsr(e, l, w).entry.keys == e.keys
    ensures StepScep(e, l, w).entry.keys == e.keys
  {
    ScepKeepsKeys(e, l, w);
  }

  lemma ScepKeepsKeys(e: Entry, l: Lock, w: World)
    ensures StepScep(e, l, w).entry.keys == e.keys
  {
  }

  lemma OtherWorkKeepsKeys(cfg: Config, e: Entry, l: Lock, w: World)
    requires WorkOf(e.state) != KeyPairWork && WorkOf(e.state) != SaveCertWork
    ensures StepEntry(cfg, e, l, w).entry.keys == e.keys
  {
    hide StepMonitor, StepNotify, StepSaveCaCerts, StepReadCert, StepNewlyAdded, StepSubmit, StepKeyinfo, StepCsr, StepScep;
    MonitorKeepsKeys(cfg, e, l, w);
    NotifyKeepsKeys(e, l, w);
    SaveCaCertsKeepsKeys(e, l, w);
    ReadCertKeepsKeys(e, l, w);
    NewlyAddedKeepsKeys(e, l, w);
    SubmitKeepsKeys(cfg, e, l, w);
    CsrKeepsKeys(e, l, w);
  }

  lemma KeyPairWorkAndKeys(cfg: Config, e: Entry, l: Lock, w: World)
    requires WorkOf(e.state) == KeyPairWork
    ensures StepEntry(cfg, e, l, w).entry.keys == if CleansUp(e, Visit(l, w)) then CleanUpKeygen(e.keys, w) else e.keys
  {
    hide CleanUpKeygen, AfterKeygen, LockByEntry;
    match e.state
    case NeedKeyPair =>
    case GeneratingKeyPair =>
    case _ =>
  }

  lemma SavingAndKeys(cfg: Config, e: Entry, l: Lock, w: World)
    requires e.state == SavingCert
    ensures StepSaveCert(e, l, w).entry.keys == if Saves(e, Visit(l, w)) then PromoteKey(e.keys) else e.keys
  {
    hide PromoteKey;
  }

  lemma SaveCertWorkAndKeys(cfg: Config, e: Entry, l: Lock, w: World)
    requires WorkOf(e.state) == SaveCertWork
    ensures StepSaveCert(e, l, w).entry.keys == if Saves(e, Visit(l, w)) then PromoteKey(e.keys) else e.keys
  {
    hide LockByEntry, PromoteKey;
    match e.state
    case NeedToSaveCert =>
    case SavingCert => SavingAndKeys(cfg, e, l, w);
    case _ =>
  }

  lemma VisitMovesKeys(cfg: Config, e: Entry, l: Lock, w: World)
    ensures StepEntry(cfg, e, l, w).entry.keys ==
              if CleansUp(e, Visit(l, w)) then CleanUpKeygen(e.keys, w)
              else if Saves(e, Visit(l, w)) then PromoteKey(e.keys)
              else e.keys
  {
    hide CleanUpKeygen, PromoteKey, StepSaveCert;
    if WorkOf(e.state) == KeyPairWork {
      KeyPairWorkAndKeys(cfg, e, l, w);
    } else if WorkOf(e.state) == SaveCertWork {
      SaveCertWorkAndKeys(cfg, e, l, w);
    } else {
      OtherWorkKeepsKeys(cfg, e, l, w);
    }
  }

  lemma KeysMove(cfg: Config, e: Entry, a: EntryAction)
    ensures Act(cfg, e, a).keys ==
              if CleansUp(e, a) then CleanUpKeygen(e.keys, a.w)
              else if Saves(e, a) then PromoteKey(e.keys)
              else e.keys
  {
    match a
    case Visit(l, w) => VisitMovesKeys(cfg, e, l, w);
    case Stop(_, _) =>
    case Start(_, _) =>
  }

  // An action keeps the count exact unless it cleans up a generation which failed
  // without leaving a candidate, after the key has been used.
  lemma CountStaysExact(cfg: Config, e: Entry, a: EntryAction)
    requires Counted(e.keys)
    ensures Counted(Act(cfg, e, a).keys) <==> !(CleansUp(e, a) && ZeroesUsedKey(e.keys, a.w))
  {
    KeysMove(cfg, e, a);
    if CleansUp(e, a) {
      CleaningUpCounts(e.keys, a.w);
    } else if Saves(e, a) {
      PromotionCounts(e.keys);
    }
  }

  function ActAll(cfg: Config, e: Entry, actions: seq<EntryAction>): Entry
    decreases |actions|
  {
    if actions == [] then e else ActAll(cfg, Act(cfg, e, actions[0]), actions[1..])
  }

  // Every generation which is cleaned up succeeded or left a candidate.
  predicate GenerationsSucceed(cfg: Config, e: Entry, actions: seq<EntryAction>)
    decreases |actions|
  {
    actions == [] ||
    (&& (CleansUp(e, actions[0]) ==> actions[0].w.outcome == Success || actions[0].w.keyOutput == KeyWithMarker)
     && GenerationsSucceed(cfg, Act(cfg, e, actions[0]), actions[1..]))
  }

  // So over any run the counter equals the number of certificates which were
  // saved with the current key.
  lemma {:induction false} CountIsExact(cfg: Config, e: Entry, actions: seq<EntryAction>)
    requires Counted(e.keys) && GenerationsSucceed(cfg, e, actions)
    ensures Counted(ActAll(cfg, e, actions).keys)
    decreases |actions|
  {
    if actions != [] {
      CountStaysExact(cfg, e, actions[0]);
      CountIsExact(cfg, Act(cfg, e, actions[0]), actions[1..]);
    }
  }

  // The exception is real: a generation which fails after the key was used.
  lemma FailedGenerationMiscounts(k: Keys, w: World)
    requires Counted(k) && k.candidate == None && w.keyOutput == KeyWithoutMarker && w.outcome == Failure
    ensures var saved := PromoteKey(k);
            !Counted(CleanUpKeygen(saved, w)) && CleanUpKeygen(saved, w).current == k.current
  {
    PromotionCounts(k);
    CleaningUpCounts(PromoteKey(k), w);
  }

  // The states between deciding which key to use and saving its certificate.
  predicate UsingKey(s: EntryState) {
    match s
    case HaveKeyPair | NeedKeyinfo | ReadingKeyinfo | NeedKeyinfoReadPin | NeedKeyinfoReadToken | HaveKeyinfo
      | NeedCsr | GeneratingCsr | NeedCsrGenPin | NeedCsrGenToken | HaveCsr
      | NeedScepData | GeneratingScepData | NeedScepGenPin | NeedScepGenToken
      | NeedScepEncryptionCert | NeedScepRsaClientKey | HaveScepData
      | NeedToSubmit | Submitting | NeedCa | CaUnreachable | CaUnconfigured | CaWorking
      | NeedToSaveCert | PreSaveCert | StartSavingCert | SavingCert
      | NeedCertsavePerms | NeedCertsaveToken | NeedCertsavePin
      | NeedToNotifyIssuedSaveFailed | NotifyingIssuedSaveFailed
      | NewlyAdded | NewlyAddedStartReadingKeyinfo | NewlyAddedReadingKeyinfo
      | NewlyAddedNeedKeyinfoReadPin | NewlyAddedNeedKeyinfoReadToken
      | NewlyAddedStartReadingCert | NewlyAddedReadingCert | NewlyAddedDeciding => true
    case _ => false
  }

  // There is room for one more use of the key the next certificate will be for.
  predicate RoomLeft(cfg: Config, k: Keys) {
    k.candidate.Some? || k.issued < cfg.maxKeyUse
  }

  predicate WithinUse(cfg: Config, e: Entry) {
    && e.keys.issued <= cfg.maxKeyUse
    && (UsingKey(e.state) ==> RoomLeft(cfg, e.keys))
  }

  // A step only enters these states from one of them, from key generation or
  // after renewal has looked at the counter.
  predicate Follows(cfg: Config, e: Entry, s: Step) {
    UsingKey(s.entry.state) ==> UsingKey(e.state) || e.state == GeneratingKeyPair || !RekeyExpected(cfg, e.keys.issued, false)
  }

  // Where the other kinds of work lead.

  lemma ReleaseLeads(e: Entry, l: Lock, s: EntryState, w: World)
    ensures var r := ReleaseAndNotify(e, l, s, w).entry.state; r == e.state || r == s
  {
    hide Launch, Ensured, UnlockByEntry;
    match Ensured(l, e.id)
    case Abort =>
    case Refused =>
    case Granted(l1) =>
      match UnlockByEntry(l1, e.id) {
        case Abort =>
        case Refused =>
        case Granted(l2) => LaunchLeads(e, l2, Notify, s, w);
      }
  }

  lemma LaunchLeads(e: Entry, l: Lock, h: Helper, s: EntryState, w: World)
    ensures var r := Launch(e, l, h, s, w).entry.state; r == e.state || r == s
  {
  }

  lemma NotifyLeads(e: Entry, l: Lock, w: World)
    requires WorkOf(e.state) == NotifyWork && e.state != NotifyingIssuedSaveFailed && e.state != NeedToNotifyIssuedSaveFailed
    ensures var s := StepNotify(e, l, w).entry.state;
            || s == e.state || s == CaRejected || s == Monitoring || s == NeedToSaveCaCerts || s == NotifyingRejection
            || s == NotifyingIssuedSaved || s == NotifyingIssuedCaSaveFailed || s == NotifyingOnlyCaSaveFailed
  {
    hide ReleaseAndNotify;
    match e.state
    case NeedToNotifyRejection | NotifyingRejection | NotifyingIssuedSaved =>
    case NotifyingIssuedCaSaveFailed | NotifyingOnlyCaSaveFailed =>
    case _ => ReleaseLeads(e, l, NotificationOf(e.state), w);
  }

  lemma RenewalLeads(cfg: Config, e: Entry, l: Lock, w: World, due: bool)
    ensures var e2 := SeenForEnroll(cfg, e, w.now);
            var s := if due then Renew(cfg, e2, l, w).entry.state else KeepWatching(cfg, e2, l, w).entry.state;
            s == Monitoring || s == NeedKeyPair || (s == NeedCsr && !RekeyExpected(cfg, e.keys.issued, false))
  {
    hide MonitorDelay, Remaining;
  }

  lemma LookLeads(cfg: Config, e: Entry, l: Lock, w: World)
    requires e.state == Monitoring
    ensures var s := StepMonitor(cfg, e, l, w).entry.state;
            || s == NeedToNotifyValidity || s == Monitoring || s == NeedKeyPair
            || (s == NeedCsr && !RekeyExpected(cfg, e.keys.issued, false))
  {
    hide NotifyDue, EnrollDue, SeenForEnroll, Renew, KeepWatching, RekeyExpected, LookedAt;
    var e1 := SeenForNotify(cfg, e, w.now);
    RenewalLeads(cfg, e1, l, w, EnrollDue(cfg, e1, w.now));
  }

  lemma NoticeLeads(cfg: Config, e: Entry, l: Lock, w: World)
    requires e.state == NotifyingValidity
    ensures var s := StepMonitor(cfg, e, l, w).entry.state;
            || s == e.state || s == Monitoring || s == NeedKeyPair
            || (s == NeedCsr && !RekeyExpected(cfg, e.keys.issued, false))
  {
    hide EnrollDue, SeenForEnroll, Renew, KeepWatching, RekeyExpected;
    var e1 := e.(live := e.live - {Notify});
    RenewalLeads(cfg, e1, l, w, EnrollDue(cfg, e1, w.now));
  }

  lemma MonitorLeads(cfg: Config, e: Entry, l: Lock, w: World)
    ensures var s := StepMonitor(cfg, e, l, w).entry.state;
            || s == e.state || s == NeedToNotifyValidity || s == NotifyingValidity || s == Monitoring || s == NeedKeyPair
            || (s == NeedCsr && !RekeyExpected(cfg, e.keys.issued, false))
  {
    hide NotifyDue, EnrollDue, SeenForNotify, SeenForEnroll, Renew, KeepWatching, RekeyExpected;
    match e.state
    case Monitoring => LookLeads(cfg, e, l, w);
    case NotifyingValidity => NoticeLeads(cfg, e, l, w);
    case _ =>
  }

  lemma ReadLeads(e: Entry, l: Lock, w: World)
    requires e.state == ReadingCert
    ensures var s := StepReadCert(e, l, w).entry.state;
            s == ReadingCert || s == PostSavedCert || s == NeedToNotifyIssuedSaved || s == NeedGuidance
  {
    hide Ensured, Reread;
  }

  lemma ReadCertLeads(e: Entry, l: Lock, w: World)
    ensures var s := StepReadCert(e, l, w).entry.state;
            s == e.state || s == ReadingCert || s == PostSavedCert || s == NeedToNotifyIssuedSaved || s == NeedGuidance
  {
    hide Ensured, Launched, Launch;
    match e.state
    case NeedToReadCert =>
      if Ensured(l, e.id).Granted? {
        LaunchLeads(e, Ensured(l, e.id).lock, Certread, ReadingCert, w);
      }
    case ReadingCert => ReadLeads(e, l, w);
    case _ =>
  }

  lemma ClaimingLeads(e: Entry, l: Lock, w: World)
    requires e.state == NeedToSaveCaCerts || e.state == NeedToSaveOnlyCaCerts
    ensures var s := StepSaveCaCerts(e, l, w).entry.state; s == e.state || s == StartSavingCaCerts || s == StartSavingOnlyCaCerts
  {
    hide Ensured;
  }

  lemma SavingLeads(e: Entry, l: Lock, w: World)
    requires e.state == SavingCaCerts
    ensures var s := StepSaveCaCerts(e, l, w).entry.state;
            s == e.state || s == NeedToReadCert || s == NeedCaCertSavePerms || s == NeedToNotifyIssuedCaSaveFailed
  {
    hide UnlockByEntry;
  }

  lemma SavingOnlyLeads(e: Entry, l: Lock, w: World)
    requires e.state == SavingOnlyCaCerts
    ensures var s := StepSaveCaCerts(e, l, w).entry.state;
            s == e.state || s == Monitoring || s == NeedOnlyCaCertSavePerms || s == NeedToNotifyOnlyCaSaveFailed
  {
    hide UnlockByEntry;
  }

  lemma SaveCaCertsLeads(e: Entry, l: Lock, w: World)
    ensures var s := StepSaveCaCerts(e, l, w).entry.state;
            || s == e.state || s == StartSavingCaCerts || s == SavingCaCerts || s == NeedToReadCert
            || s == NeedCaCertSavePerms || s == NeedToNotifyIssuedCaSaveFailed
            || s == StartSavingOnlyCaCerts || s == SavingOnlyCaCerts || s == Monitoring
            || s == NeedOnlyCaCertSavePerms || s == NeedToNotifyOnlyCaSaveFailed
  {
    hide Ensured, UnlockByEntry;
    match e.state
    case NeedToSaveCaCerts | NeedToSaveOnlyCaCerts => ClaimingLeads(e, l, w);
    case SavingCaCerts => SavingLeads(e, l, w);
    case SavingOnlyCaCerts => SavingOnlyLeads(e, l, w);
    case _ =>
  }

  lemma KeyPairFollows(cfg: Config, e: Entry, l: Lock, w: World)
    requires WorkOf(e.state) == KeyPairWork
    ensures Follows(cfg, e, StepKeyPair(e, l, w))
    ensures UsingKey(StepKeyPair(e, l, w).entry.state) ==> UsingKey(e.state) || CleansUp(e, Visit(l, w))
  {
    match e.state
    case NeedKeyPair =>
    case GeneratingKeyPair =>
    case _ =>
  }

  lemma NotifyFollows(cfg: Config, e: Entry, l: Lock, w: World)
    requires WorkOf(e.state) == NotifyWork
    ensures Follows(cfg, e, StepNotify(e, l, w))
  {
    hide StepNotify, RekeyExpected;
    if e.state != NotifyingIssuedSaveFailed && e.state != NeedToNotifyIssuedSaveFailed {
      NotifyLeads(e, l, w);
    }
  }

  lemma MonitorFollows(cfg: Config, e: Entry, l: Lock, w: World)
    requires WorkOf(e.state) == MonitorWork
    ensures Follows(cfg, e, StepMonitor(cfg, e, l, w))
  {
    hide StepMonitor, RekeyExpected;
    MonitorLeads(cfg, e, l, w);
  }

  lemma ReadCertFollows(cfg: Config, e: Entry, l: Lock, w: World)
    requires WorkOf(e.state) == ReadCertWork
    ensures Follows(cfg, e, StepReadCert(e, l, w))
  {
    hide StepReadCert, RekeyExpected;
    ReadCertLeads(e, l, w);
  }

  lemma SaveCaCertsFollows(cfg: Config, e: Entry, l: Lock, w: World)
    requires WorkOf(e.state) == SaveCaCertsWork
    ensures Follows(cfg, e, StepSaveCaCerts(e, l, w))
  {
    hide StepSaveCaCerts, RekeyExpected;
    SaveCaCertsLeads(e, l, w);
  }

  lemma SaveCertFollows(cfg: Config, e: Entry, l: Lock, w: World)
    requires WorkOf(e.state) == SaveCertWork
    ensures Follows(cfg, e, StepSaveCert(e, l, w))
  {
    if e.state == SavedCert {
      assert StepSaveCert(e, l, w) == Move(e, l, NeedToSaveCaCerts, Now);
    } else {
      assert UsingKey(e.state);
    }
  }

  lemma StepFollows(cfg: Config, e: Entry, l: Lock, w: World)
    ensures Follows(cfg, e, StepEntry(cfg, e, l, w))
  {
    match WorkOf(e.state)
    case KeyPairWork => KeyPairFollows(cfg, e, l, w);
    case NotifyWork => NotifyFollows(cfg, e, l, w);
    case MonitorWork => MonitorFollows(cfg, e, l, w);
    case ReadCertWork => ReadCertFollows(cfg, e, l, w);
    case SaveCaCertsWork => SaveCaCertsFollows(cfg, e, l, w);
    case SaveCertWork => SaveCertFollows(cfg, e, l, w);
    case NoWork =>
    case _ => assert UsingKey(e.state);
  }

  lemma ResetFollows(s: EntryState)
    requires !UsingKey(s)
    ensures !UsingKey(Reset(s))
  {
  }

  // Every action keeps the uses of a key within the maximum, also stopping and
  // starting the entry, and also if helpers fail.
  lemma ActionKeepsWithinUse(cfg: Config, e: Entry, a: EntryAction)
    requires cfg.maxKeyUse > 0 && WithinUse(cfg, e)
    ensures WithinUse(cfg, Act(cfg, e, a))
  {
    KeysMove(cfg, e, a);
    match a
    case Visit(l, w) =>
      StepFollows(cfg, e, l, w);
      if Saves(e, a) {
        SavedIsSettled(cfg, e, l, w);
      }
      if WorkOf(e.state) == KeyPairWork {
        KeyPairFollows(cfg, e, l, w);
      }
    case Stop(_, _) =>
      if !UsingKey(e.state) {
        ResetFollows(e.state);
      }
    case Start(_, _) =>
      if !UsingKey(e.state) {
        ResetFollows(e.state);
      }
  }

  lemma SavedIsSettled(cfg: Config, e: Entry, l: Lock, w: World)
    requires Saves(e, Visit(l, w))
    ensures !UsingKey(StepEntry(cfg, e, l, w).entry.state)
  {
  }

  // So whatever happens to an entry, short of someone setting its state by hand,
  // no key is used more often than the maximum.
  lemma {:induction false} UseIsBounded(cfg: Config, e: Entry, actions: seq<EntryAction>)
    requires cfg.maxKeyUse > 0 && WithinUse(cfg, e)
    ensures ActAll(cfg, e, actions).keys.issued <= cfg.maxKeyUse
    ensures WithinUse(cfg, ActAll(cfg, e, actions))
    decreases |actions|
  {
    if actions != [] {
      ActionKeepsWithinUse(cfg, e, actions[0]);
      UseIsBounded(cfg, Act(cfg, e, actions[0]), actions[1..]);
    }
  }

  // With working key generation that is a bound on certificates, not on a counter.
  lemma CertificatesPerKey(cfg: Config, e: Entry, actions: seq<EntryAction>)
    requires cfg.maxKeyUse > 0 && WithinUse(cfg, e) && Counted(e.keys) && GenerationsSucceed(cfg, e, actions)
    ensures var k := ActAll(cfg, e, actions).keys;
            Uses(k.saved, k.current) == k.issued <= cfg.maxKeyUse
  {
    UseIsBounded(cfg, e, actions);
    CountIsExact(cfg, e, actions);
  }
}
