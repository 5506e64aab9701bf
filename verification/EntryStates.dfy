/**
 The states of a certificate request, the helpers it may have running, and what
 a state says about the request: which helper belongs to it, whether the request
 is waiting for an operator, and whether it has to hold the writing lock.
 */
module EntryStates {
  import opened Wrappers

  datatype EntryState =
    | NeedKeyPair | GeneratingKeyPair | NeedKeyGenPerms | NeedKeyGenPin | NeedKeyGenToken | HaveKeyPair
    | NeedKeyinfo | ReadingKeyinfo | NeedKeyinfoReadPin | NeedKeyinfoReadToken | HaveKeyinfo
    | NeedCsr | GeneratingCsr | NeedCsrGenPin | NeedCsrGenToken | HaveCsr
    | NeedScepData | GeneratingScepData | NeedScepGenPin | NeedScepGenToken
    | NeedScepEncryptionCert | NeedScepRsaClientKey | HaveScepData
    | NeedToSubmit | Submitting | NeedCa | CaUnreachable | CaUnconfigured | CaRejected | CaWorking
    | NeedToSaveCert | PreSaveCert | StartSavingCert | SavingCert
    | NeedCertsavePerms | NeedCertsaveToken | NeedCertsavePin
    | NeedToSaveCaCerts | StartSavingCaCerts | SavingCaCerts | NeedCaCertSavePerms
    | NeedToSaveOnlyCaCerts | StartSavingOnlyCaCerts | SavingOnlyCaCerts | NeedOnlyCaCertSavePerms
    | NeedToReadCert | ReadingCert | SavedCert | PostSavedCert
    | Monitoring | NeedToNotifyValidity | NotifyingValidity
    | NeedToNotifyRejection | NotifyingRejection
    | NeedToNotifyIssuedSaveFailed | NotifyingIssuedSaveFailed
    | NeedToNotifyIssuedCaSaveFailed | NotifyingIssuedCaSaveFailed
    | NeedToNotifyOnlyCaSaveFailed | NotifyingOnlyCaSaveFailed
    | NeedToNotifyIssuedSaved | NotifyingIssuedSaved
    | NeedGuidance
    | NewlyAdded | NewlyAddedStartReadingKeyinfo | NewlyAddedReadingKeyinfo
    | NewlyAddedNeedKeyinfoReadPin | NewlyAddedNeedKeyinfoReadToken
    | NewlyAddedStartReadingCert | NewlyAddedReadingCert | NewlyAddedDeciding
    | Invalid

  // The helpers an entry can have running, one per handle of struct cm_entry_state.
  datatype Helper =
    | Keygen | Keyiread | Csrgen | Scepgen | Submit | Certsave | Hook | Certread | Notify | Casave

  // When the main loop is asked to look at an entry again (enum cm_time).
  datatype When = Now | Soon | Soonish | After | NoTime

  // What can go wrong inside a step: abort() is called, a NULL handle is used,
  // or a handle is used after it was finished.
  datatype Fault = NoFault | Aborted | NullHandle | StaleHandle

  // The stable state an in-progress state is put back to.  The source aborts on
  // Invalid; callers look for that before calling.
  function Reset(s: EntryState): EntryState {
    match s
    case GeneratingKeyPair | NeedKeyGenPerms | NeedKeyGenPin | NeedKeyGenToken => NeedKeyPair
    case ReadingKeyinfo | NeedKeyinfoReadPin | NeedKeyinfoReadToken => NeedKeyinfo
    case NeedCsr | GeneratingCsr | NeedCsrGenPin | NeedCsrGenToken => HaveKeyinfo
    case GeneratingScepData | NeedScepGenPin | NeedScepGenToken
      | NeedScepEncryptionCert | NeedScepRsaClientKey => NeedScepData
    case NeedToSubmit | Submitting | CaWorking | CaUnreachable | CaUnconfigured | NeedCa => HaveCsr
    case StartSavingCert | PreSaveCert | SavingCert
      | NeedCertsavePerms | NeedCertsaveToken | NeedCertsavePin => NeedToSaveCert
    case StartSavingCaCerts | SavingCaCerts | NeedCaCertSavePerms => NeedToSaveCaCerts
    case NotifyingIssuedCaSaveFailed => NeedToNotifyIssuedCaSaveFailed
    case ReadingCert => NeedToReadCert
    case PostSavedCert | NotifyingIssuedSaved => NeedToNotifyIssuedSaved
    case NeedToNotifyValidity => Monitoring
    case NotifyingValidity => NeedToNotifyValidity
    case NotifyingRejection => NeedToNotifyRejection
    case NotifyingIssuedSaveFailed => NeedToNotifyIssuedSaveFailed
    case StartSavingOnlyCaCerts | SavingOnlyCaCerts | NeedOnlyCaCertSavePerms => NeedToSaveOnlyCaCerts
    case NotifyingOnlyCaSaveFailed => NeedToNotifyOnlyCaSaveFailed
    case NewlyAddedStartReadingKeyinfo | NewlyAddedReadingKeyinfo
      | NewlyAddedNeedKeyinfoReadPin | NewlyAddedNeedKeyinfoReadToken
      | NewlyAddedStartReadingCert | NewlyAddedReadingCert | NewlyAddedDeciding => NewlyAdded
    case _ => s
  }

  // The handle which is in use in a state, if any.
  function HelperOf(s: EntryState): Option<Helper> {
    match s
    case GeneratingKeyPair => Some(Keygen)
    case ReadingKeyinfo | NewlyAddedReadingKeyinfo => Some(Keyiread)
    case GeneratingCsr => Some(Csrgen)
    case GeneratingScepData => Some(Scepgen)
    case Submitting => Some(Submit)
    case PreSaveCert | PostSavedCert => Some(Hook)
    case SavingCert => Some(Certsave)
    case ReadingCert | NewlyAddedReadingCert => Some(Certread)
    case SavingCaCerts | SavingOnlyCaCerts => Some(Casave)
    case NotifyingValidity | NotifyingRejection | NotifyingIssuedSaveFailed
      | NotifyingIssuedCaSaveFailed | NotifyingOnlyCaSaveFailed | NotifyingIssuedSaved => Some(Notify)
    case _ => None
  }

  // The set of handles which should be non-NULL in a state.
  function HelpersOf(s: EntryState): set<Helper> {
    match HelperOf(s)
    case None => {}
    case Some(h) => {h}
  }

  // States which are only left when someone stops, changes or restarts the entry.
  predicate WaitsForOperator(s: EntryState) {
    match s
    case NeedKeyGenPerms | NeedKeyGenPin | NeedKeyGenToken
      | NeedKeyinfoReadPin | NeedKeyinfoReadToken
      | NeedCsrGenPin | NeedCsrGenToken
      | NeedScepGenPin | NeedScepGenToken | NeedScepEncryptionCert | NeedScepRsaClientKey
      | NeedCertsavePerms | NeedCertsaveToken | NeedCertsavePin
      | NeedCaCertSavePerms | NeedOnlyCaCertSavePerms
      | NewlyAddedNeedKeyinfoReadPin | NewlyAddedNeedKeyinfoReadToken
      | CaRejected | CaUnconfigured | NeedCa | NeedGuidance => true
    case _ => false
  }

  // What a state of a started entry says about the writing lock.
  datatype LockNeed =
    | Holds          // the entry owns the lock
    | Lacks          // the entry does not own the lock
    | UnlessRetried  // the entry owns the lock unless it came here by the save-failed retry
    | Either

  function LockNeedOf(s: EntryState): LockNeed {
    match s
    case GeneratingKeyPair | PreSaveCert
      | StartSavingCaCerts | SavingCaCerts | NeedCaCertSavePerms
      | ReadingCert | PostSavedCert
      | StartSavingOnlyCaCerts | SavingOnlyCaCerts
      | NewlyAddedStartReadingKeyinfo | NewlyAddedReadingKeyinfo
      | NewlyAddedStartReadingCert | NewlyAddedReadingCert | NewlyAddedDeciding => Holds
    case StartSavingCert | SavingCert
      | NeedCertsavePerms | NeedCertsaveToken | NeedCertsavePin => UnlessRetried
    case SavedCert | NeedToSaveCaCerts | NeedToReadCert
      | NeedToNotifyIssuedSaveFailed | NeedToNotifyIssuedCaSaveFailed
      | NeedToNotifyOnlyCaSaveFailed | NeedToNotifyIssuedSaved | NeedGuidance => Either
    case _ => Lacks
  }

  // Putting an entry back is idempotent except from one state: an interrupted
  // expiration notice goes back to being due, and from there to monitoring.
  lemma ResetIdempotence(s: EntryState)
    ensures Reset(Reset(s)) == Reset(s) <==> s != NotifyingValidity
  {
    ResetLeads(s);
  }

  lemma ResetLeads(s: EntryState)
    ensures var r := Reset(s);
            || r == s || r == NeedKeyPair || r == NeedKeyinfo || r == HaveKeyinfo || r == NeedScepData || r == HaveCsr
            || r == NeedToSaveCert || r == NeedToSaveCaCerts || r == NeedToNotifyIssuedCaSaveFailed || r == NeedToReadCert
            || r == NeedToNotifyIssuedSaved || r == Monitoring || (r == NeedToNotifyValidity && s == NotifyingValidity)
            || r == NeedToNotifyRejection || r == NeedToNotifyIssuedSaveFailed || r == NeedToSaveOnlyCaCerts
            || r == NeedToNotifyOnlyCaSaveFailed || r == NewlyAdded
  {
  }

  // A state the reset produces has no helper, needs no lock and is never a state
  // which was left half-way: nothing is assumed about the lock or the handles.
  lemma ResetNeedsNothing(s: EntryState)
    ensures HelperOf(Reset(s)) == None
    ensures LockNeedOf(Reset(s)) in {Lacks, Either}
    ensures WaitsForOperator(Reset(s)) ==> s in {CaRejected, NeedGuidance}
    ensures Reset(s) == Invalid ==> s == Invalid
  {
    ResetLeads(s);
  }
}
