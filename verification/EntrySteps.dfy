/**
 One look at a certificate request by the main loop, as a function: the entry
 and the lock before, what the outside world answers, and the entry, the lock
 and the next appointment after.  The function is total: a step which would call
 abort() or use a NULL handle says so.
 */
module EntrySteps {
  import opened Wrappers
  import opened EntryStates
  import opened WritingLock
  import opened Expiry

  // The keys of an entry.  The source keeps the candidate's marker and the use
  // counter; the identities of the keys and the keys of the certificates saved
  // so far are history, kept to say what the counter counts.
  datatype Keys = Keys(
    candidate: Option<nat>,
    issued: nat,
    current: nat,
    saved: seq<nat>,
    nextKey: nat)

  datatype Entry = Entry(
    id: nat,
    keyLocation: bool,         // a key storage location is configured
    state: EntryState,
    started: bool,             // there is a working state for the entry
    live: set<Helper>,         // the working state's handles which are not NULL
    caName: Option<string>,
    watch: Watch,
    keys: Keys,
    retried: bool,             // history: the pending save is the save-failed retry
    scepAsked: bool)           // history: the CA has asked for SCEP data since the last CSR

  // What a helper which has finished reports.
  datatype Outcome =
    | Success
    | LackPerms | LackToken | LackPin | LackEncryptionCert | LackRsaKey
    | Rejection | Unreachability | Work | Unconfiguration | ScepRequest | RekeyRequest
    | Failure

  // What key generation printed before it ended: a marker which names a candidate
  // key, to be put in place later, or none.
  datatype KeyOutput = KeyWithMarker | KeyWithoutMarker

  // What the outside world answers during one step.
  datatype World = World(
    now: int,
    started: bool,             // the helper could be started
    pollable: bool,            // the helper has a descriptor to wait on
    ready: bool,               // the helper has finished
    outcome: Outcome,
    keyOutput: KeyOutput,
    keyTooOld: bool,           // the key has reached its end of life
    hookStarted: bool,         // the post-save hook could be started
    caKnown: bool,             // the entry's CA is known
    chosenCa: Option<string>,  // the CA picked for an entry without one
    certPresent: bool,
    keyPresent: bool,
    caCertsWanted: bool,       // the CA's certificates belong in places the entry lists
    specifiedDelay: int,       // the delay the CA asked for; negative if it did not
    readNotBefore: int, readNotAfter: int)  // the validity read from the certificate

  datatype Step = Step(entry: Entry, lock: Lock, when: When, delay: int, watchFd: bool, fault: Fault)

  // The keys after key generation has been cleaned up.
  function KeysCleanedUp(k: Keys, output: KeyOutput, succeeded: bool): Keys {
    match output
    case KeyWithMarker => k.(candidate := Some(k.nextKey), nextKey := k.nextKey + 1)
    case KeyWithoutMarker =>
      if succeeded
      then k.(candidate := None, issued := 0, current := k.nextKey, nextKey := k.nextKey + 1)
      else k.(candidate := None, issued := 0)
  }

  function CleanUpKeygen(k: Keys, w: World): Keys {
    KeysCleanedUp(k, w.keyOutput, w.outcome == Success)
  }

  // The keys after a certificate has been saved.
  function PromoteKey(k: Keys): Keys {
    match k.candidate
    case Some(c) => k.(candidate := None, issued := 1, current := c, saved := k.saved + [c])
    case None => k.(issued := k.issued + 1, saved := k.saved + [k.current])
  }

  predicate RekeyExpected(cfg: Config, issued: nat, keyTooOld: bool) {
    keyTooOld || (cfg.maxKeyUse > 0 && issued >= cfg.maxKeyUse)
  }

  function Remaining(e: Entry, now: int): int {
    if e.watch.notAfter != 0 then e.watch.notAfter - now else -1
  }

  // The shapes every step is made of.

  function Stay(e: Entry, l: Lock, when: When): Step {
    Step(e, l, when, 0, false, NoFault)
  }

  function Move(e: Entry, l: Lock, s: EntryState, when: When): Step {
    Stay(e.(state := s), l, when)
  }

  function Break(e: Entry, l: Lock, fault: Fault): Step {
    Step(e, l, NoTime, 0, false, fault)
  }

  function Poll(e: Entry, l: Lock, w: World): Step {
    Step(e, l, if w.pollable then NoTime else Soon, 0, w.pollable, NoFault)
  }

  // A helper was started.
  function Launched(e: Entry, l: Lock, h: Helper, s: EntryState, w: World): Step {
    Poll(e.(state := s, live := e.live + {h}), l, w)
  }

  // Start a helper, or come back later if that fails.
  function Launch(e: Entry, l: Lock, h: Helper, s: EntryState, w: World): Step {
    if w.started then Launched(e, l, h, s, w) else Stay(e, l, Soonish)
  }

  // Look at a running helper: poll again unless it has finished.
  function Await(e: Entry, l: Lock, h: Helper, w: World, done: Step): Step {
    if h !in e.live then Break(e, l, NullHandle)
    else if !w.ready then Poll(e, l, w)
    else done
  }

  // Finish a helper and move on.
  function Finish(e: Entry, l: Lock, h: Helper, s: EntryState, when: When): Step {
    Stay(e.(state := s, live := e.live - {h}), l, when)
  }

  // The lock an entry has, or is given now.
  function Ensured(l: Lock, id: nat): Answer {
    if HasLock(l, AnEntry(id), None) then Granted(l) else LockByEntry(l, id)
  }

  // Where the end of key generation leads.
  function AfterKeygen(outcome: Outcome): EntryState {
    match outcome
    case Success => HaveKeyPair
    case LackPerms => NeedKeyGenPerms
    case LackToken => NeedKeyGenToken
    case LackPin => NeedKeyGenPin
    case _ => NeedKeyPair
  }

  function StepKeyPair(e: Entry, l: Lock, w: World): Step {
    match e.state
    case NeedKeyPair => (
      match LockByEntry(l, e.id)
      case Abort => Break(e, l, Aborted)
      case Refused => Stay(e, l, Soon)
      case Granted(l1) =>
        if w.started then Launch(e, l1, Keygen, GeneratingKeyPair, w)
        else match UnlockByEntry(l1, e.id)
             case Abort => Break(e, l1, Aborted)
             case Refused => Stay(e, l1, Soonish)
             case Granted(l2) => Stay(e, l2, Soonish))
    case GeneratingKeyPair =>
      Await(e, l, Keygen, w,
        match UnlockByEntry(l, e.id)
        case Abort => Break(e, l, Aborted)
        case Refused => Stay(e, l, Soon)
        case Granted(l1) =>
          var s := AfterKeygen(w.outcome);
          Finish(e.(keys := CleanUpKeygen(e.keys, w)), l1, Keygen, s, if s == NeedKeyPair then Soonish else Now))
    case HaveKeyPair => Move(e, l, NeedKeyinfo, Now)
    case _ => Stay(e, l, NoTime)
  }

  function StepKeyinfo(e: Entry, l: Lock, w: World): Step {
    match e.state
    case NeedKeyinfo => Launch(e, l, Keyiread, ReadingKeyinfo, w)
    case ReadingKeyinfo =>
      Await(e, l, Keyiread, w,
        match w.outcome
        case Success => Finish(e, l, Keyiread, HaveKeyinfo, Now)
        case LackToken => Finish(e, l, Keyiread, NeedKeyinfoReadToken, Now)
        case LackPin => Finish(e, l, Keyiread, NeedKeyinfoReadPin, Now)
        case _ => Finish(e, l, Keyiread, NeedKeyPair, Soonish))
    case HaveKeyinfo => Move(e, l, NeedCsr, Now)
    case _ => Stay(e, l, NoTime)
  }

  function StepCsr(e: Entry, l: Lock, w: World): Step {
    match e.state
    case NeedCsr => Launch(e, l, Csrgen, GeneratingCsr, w)
    case GeneratingCsr =>
      Await(e, l, Csrgen, w,
        match w.outcome
        case Success => Finish(e.(scepAsked := false), l, Csrgen, HaveCsr, Now)
        case LackToken => Finish(e, l, Csrgen, NeedCsrGenToken, Now)
        case LackPin => Finish(e, l, Csrgen, NeedCsrGenPin, Now)
        case _ => Finish(e, l, Csrgen, NeedCsr, Soonish))
    case HaveCsr => Move(e, l, NeedToSubmit, Now)
    case _ => Stay(e, l, NoTime)
  }

  function StepScep(e: Entry, l: Lock, w: World): Step {
    match e.state
    case NeedScepData => Launch(e, l, Scepgen, GeneratingScepData, w)
    case GeneratingScepData =>
      Await(e, l, Scepgen, w,
        match w.outcome
        case Success => Finish(e, l, Scepgen, HaveScepData, Now)
        case LackToken => Finish(e, l, Scepgen, NeedScepGenToken, Now)
        case LackPin => Finish(e, l, Scepgen, NeedScepGenPin, Now)
        case LackEncryptionCert => Finish(e, l, Scepgen, NeedScepEncryptionCert, Now)
        case LackRsaKey => Finish(e, l, Scepgen, NeedScepRsaClientKey, Now)
        case _ => Finish(e, l, Scepgen, NeedScepData, Soonish))
    case HaveScepData => Move(e, l, NeedToSubmit, Now)
    case _ => Stay(e, l, NoTime)
  }

  // Where the end of a submission leads.
  function AfterSubmission(e: Entry, w: World): EntryState {
    match w.outcome
    case Success => NeedToSaveCert
    case Rejection => if w.certPresent then Monitoring else NeedToNotifyRejection
    case Unreachability => CaUnreachable
    case Work => CaWorking
    case Unconfiguration => if w.certPresent then Monitoring else CaUnconfigured
    case ScepRequest => NeedScepData
    case RekeyRequest => NeedKeyPair
    case _ => NeedGuidance
  }

  // The appointment which goes with it, and its delay: the one the CA asked for,
  // or one of our own choosing.
  function AppointmentAfter(s: EntryState): When {
    match s
    case CaUnreachable | CaWorking | CaUnconfigured => After
    case Monitoring | NeedKeyPair => Soonish
    case _ => Now
  }

  function DelayAfter(cfg: Config, e: Entry, w: World): int {
    match w.outcome
    case Unreachability | Work => if w.specifiedDelay < 0 then CaDelay(cfg, Remaining(e, w.now)) else w.specifiedDelay
    case Unconfiguration =>
      if w.specifiedDelay < 0 && !w.certPresent then CaDelay(cfg, Remaining(e, w.now)) else w.specifiedDelay
    case _ => 0
  }

  function StepSubmit(cfg: Config, e: Entry, l: Lock, w: World): Step {
    match e.state
    case NeedToSubmit =>
      if w.started then Launch(e, l, Submit, Submitting, w)
      else if !w.caKnown then Move(e, l, NeedCa, Now)
      else Stay(e, l, Soonish)
    case Submitting =>
      Await(e, l, Submit, w,
        var s := AfterSubmission(e, w);
        Finish(e.(scepAsked := e.scepAsked || w.outcome == ScepRequest), l, Submit, s, AppointmentAfter(s))
          .(delay := DelayAfter(cfg, e, w)))
    case CaWorking => Move(e, l, NeedToSubmit, Now)
    case CaUnreachable => Move(e, l, NeedToSubmit, Soonish)
    case _ => Stay(e, l, NoTime)
  }

  function StepSaveCert(e: Entry, l: Lock, w: World): Step {
    match e.state
    case NeedToSaveCert => (
      match LockByEntry(l, e.id)
      case Abort => Break(e, l, Aborted)
      case Refused => Stay(e, l, Soon)
      case Granted(l1) =>
        var e1 := e.(retried := false);
        if w.started then Launch(e1, l1, Hook, PreSaveCert, w) else Move(e1, l1, StartSavingCert, Now))
    case PreSaveCert => Await(e, l, Hook, w, Finish(e, l, Hook, StartSavingCert, Now))
    case StartSavingCert => Launch(e, l, Certsave, SavingCert, w)
    case SavingCert =>
      Await(e, l, Certsave, w,
        var s := match w.outcome
                 case Success => SavedCert
                 case LackPerms => NeedCertsavePerms
                 case LackToken => NeedCertsaveToken
                 case LackPin => NeedCertsavePin
                 case _ => NeedToNotifyIssuedSaveFailed;
        var k := if s == SavedCert then PromoteKey(e.keys) else e.keys;
        Finish(e.(keys := k), l, Certsave, s, if s == NeedToNotifyIssuedSaveFailed then Soonish else Now))
    case SavedCert => Move(e, l, NeedToSaveCaCerts, Now)
    case _ => Stay(e, l, NoTime)
  }

  // Take the validity over from the certificate which was read.
  function Reread(e: Entry, w: World): Entry {
    e.(watch := e.watch.(notBefore := w.readNotBefore, notAfter := w.readNotAfter))
  }

  function StepReadCert(e: Entry, l: Lock, w: World): Step {
    match e.state
    case NeedToReadCert => (
      match Ensured(l, e.id)
      case Abort => Break(e, l, Aborted)
      case Refused => Stay(e, l, Soon)
      case Granted(l1) => Launch(e, l1, Certread, ReadingCert, w))
    case ReadingCert =>
      Await(e, l, Certread, w,
        var e1 := Reread(e, w).(live := e.live - {Certread});
        if w.outcome != Success then Move(e1, l, NeedGuidance, Now)
        else if w.hookStarted then Launched(e1, l, Hook, PostSavedCert, w)
        else Move(e1, l, NeedToNotifyIssuedSaved, Now))
    case PostSavedCert => Await(e, l, Hook, w, Finish(e, l, Hook, NeedToNotifyIssuedSaved, Now))
    case _ => Stay(e, l, NoTime)
  }

  // The next CSR starts from a new key if the policy says so.
  function Renew(cfg: Config, e: Entry, l: Lock, w: World): Step {
    Move(e, l, if RekeyExpected(cfg, e.keys.issued, w.keyTooOld) then NeedKeyPair else NeedCsr, Now)
  }

  function KeepWatching(cfg: Config, e: Entry, l: Lock, w: World): Step {
    var delay := MonitorDelay(cfg, Remaining(e, w.now), cfg.notifyTtls, cfg.enrollTtls);
    Move(e, l, Monitoring, After).(delay := delay)
  }

  function SeenForNotify(cfg: Config, e: Entry, now: int): Entry {
    if e.watch.monitor then e.(watch := e.watch.(lastNotify := LookedAt(cfg, e.watch, e.watch.lastNotify, now))) else e
  }

  function SeenForEnroll(cfg: Config, e: Entry, now: int): Entry {
    if e.watch.autorenew then e.(watch := e.watch.(lastEnroll := LookedAt(cfg, e.watch, e.watch.lastEnroll, now))) else e
  }

  predicate NotifyDue(cfg: Config, e: Entry, now: int) {
    e.watch.monitor && Noteworthy(cfg, e.watch, cfg.notifyTtls, e.watch.lastNotify, now)
  }

  predicate EnrollDue(cfg: Config, e: Entry, now: int) {
    e.watch.autorenew && Noteworthy(cfg, e.watch, cfg.enrollTtls, e.watch.lastEnroll, now)
  }

  function StepMonitor(cfg: Config, e: Entry, l: Lock, w: World): Step {
    match e.state
    case Monitoring =>
      var e1 := SeenForNotify(cfg, e, w.now);
      if NotifyDue(cfg, e, w.now) then Move(e1, l, NeedToNotifyValidity, Now)
      else
        var e2 := SeenForEnroll(cfg, e1, w.now);
        if EnrollDue(cfg, e1, w.now) then Renew(cfg, e2, l, w) else KeepWatching(cfg, e2, l, w)
    case NeedToNotifyValidity => Launch(e, l, Notify, NotifyingValidity, w)
    case NotifyingValidity =>
      Await(e, l, Notify, w,
        var e1 := e.(live := e.live - {Notify});
        var e2 := SeenForEnroll(cfg, e1, w.now);
        if EnrollDue(cfg, e1, w.now) then Renew(cfg, e2, l, w) else KeepWatching(cfg, e2, l, w))
    case _ => Stay(e, l, NoTime)
  }

  // Give up the lock, taking it first if need be, and start a notification.
  function ReleaseAndNotify(e: Entry, l: Lock, s: EntryState, w: World): Step {
    match Ensured(l, e.id)
    case Abort => Break(e, l, Aborted)
    case Refused => Stay(e, l, Soon)
    case Granted(l1) =>
      match UnlockByEntry(l1, e.id)
      case Abort => Break(e, l1, Aborted)
      case Refused => Stay(e, l1, Soon)
      case Granted(l2) => Launch(e, l2, Notify, s, w)
  }

  // The state in which a notification which is due is being sent.
  function NotificationOf(s: EntryState): EntryState {
    match s
    case NeedToNotifyIssuedSaveFailed => NotifyingIssuedSaveFailed
    case NeedToNotifyIssuedSaved => NotifyingIssuedSaved
    case NeedToNotifyIssuedCaSaveFailed => NotifyingIssuedCaSaveFailed
    case _ => NotifyingOnlyCaSaveFailed
  }

  function StepNotify(e: Entry, l: Lock, w: World): Step {
    match e.state
    case NeedToNotifyRejection => Launch(e, l, Notify, NotifyingRejection, w)
    case NotifyingRejection => Await(e, l, Notify, w, Finish(e, l, Notify, CaRejected, Soon))
    case NotifyingIssuedSaveFailed =>
      Await(e, l, Notify, w, Finish(e.(retried := true), l, Notify, StartSavingCert, Soonish))
    case NotifyingIssuedSaved => Await(e, l, Notify, w, Finish(e, l, Notify, Monitoring, Soon))
    case NotifyingIssuedCaSaveFailed => Await(e, l, Notify, w, Finish(e, l, Notify, NeedToSaveCaCerts, Soonish))
    case NotifyingOnlyCaSaveFailed => Await(e, l, Notify, w, Finish(e, l, Notify, Monitoring, Soonish))
    case _ => ReleaseAndNotify(e, l, NotificationOf(e.state), w)
  }

  function StepSaveCaCerts(e: Entry, l: Lock, w: World): Step {
    match e.state
    case NeedToSaveCaCerts | NeedToSaveOnlyCaCerts => (
      match Ensured(l, e.id)
      case Abort => Break(e, l, Aborted)
      case Refused => Stay(e, l, Soon)
      case Granted(l1) =>
        Move(e, l1, if e.state == NeedToSaveCaCerts then StartSavingCaCerts else StartSavingOnlyCaCerts, Now))
    case StartSavingCaCerts => Launch(e, l, Casave, SavingCaCerts, w)
    case SavingCaCerts =>
      Await(e, l, Casave, w,
        match w.outcome
        case Success => Finish(e, l, Casave, NeedToReadCert, Now)
        case LackPerms => Finish(e, l, Casave, NeedCaCertSavePerms, Now)
        case _ => Finish(e, l, Casave, NeedToNotifyIssuedCaSaveFailed, Soonish))
    case StartSavingOnlyCaCerts => Launch(e, l, Casave, SavingOnlyCaCerts, w)
    case SavingOnlyCaCerts =>
      Await(e, l, Casave, w,
        if w.outcome == Success || w.outcome == LackPerms then
          match UnlockByEntry(l, e.id)
          case Abort => Break(e, l, Aborted)
          case Refused => Stay(e, l, Soon)
          case Granted(l1) =>
            Finish(e, l1, Casave, if w.outcome == Success then Monitoring else NeedOnlyCaCertSavePerms, Now)
        else Finish(e, l, Casave, NeedToNotifyOnlyCaSaveFailed, Soonish))
    case _ => Stay(e, l, NoTime)
  }

  // Where a newly added entry goes once its key and certificate were looked for.
  function Decision(e: Entry, w: World): EntryState {
    if w.certPresent then (if w.caCertsWanted then NeedToSaveOnlyCaCerts else Monitoring)
    else if e.keyLocation then (if w.keyPresent then NeedCsr else NeedKeyPair)
    else NeedGuidance
  }

  function StepNewlyAdded(e: Entry, l: Lock, w: World): Step {
    match e.state
    case NewlyAdded => (
      match LockByEntry(l, e.id)
      case Abort => Break(e, l, Aborted)
      case Refused => Stay(e, l, Soon)
      case Granted(l1) =>
        Move(e, l1, if e.keyLocation then NewlyAddedStartReadingKeyinfo else NewlyAddedStartReadingCert, Now))
    case NewlyAddedStartReadingKeyinfo => Launch(e, l, Keyiread, NewlyAddedReadingKeyinfo, w)
    case NewlyAddedReadingKeyinfo =>
      Await(e, l, Keyiread, w,
        if w.outcome == LackToken || w.outcome == LackPin then
          match UnlockByEntry(l, e.id)
          case Abort => Break(e, l, Aborted)
          case Refused => Stay(e, l, Soon)
          case Granted(l1) =>
            var s := if w.outcome == LackToken then NewlyAddedNeedKeyinfoReadToken else NewlyAddedNeedKeyinfoReadPin;
            Finish(e, l1, Keyiread, s, Now)
        else Finish(e, l, Keyiread, NewlyAddedStartReadingCert, Now))
    case NewlyAddedStartReadingCert => Launch(e, l, Certread, NewlyAddedReadingCert, w)
    case NewlyAddedReadingCert => Await(e, l, Certread, w, Finish(Reread(e, w), l, Certread, NewlyAddedDeciding, Now))
    case NewlyAddedDeciding => (
      match UnlockByEntry(l, e.id)
      case Abort => Break(e, l, Aborted)
      case Refused => Stay(e, l, Soon)
      case Granted(l1) =>
        var e1 := e.(caName := if e.caName == None then w.chosenCa else e.caName);
        Move(e1, l1, Decision(e, w), Now))
    case _ => Stay(e, l, NoTime)
  }

  // The parts the states of an entry fall into, one per kind of work.
  datatype Work = KeyPairWork | KeyinfoWork | CsrWork | ScepWork | SubmitWork | SaveCertWork
                | ReadCertWork | MonitorWork | NotifyWork | SaveCaCertsWork | NewlyAddedWork | NoWork

  function WorkOf(s: EntryState): Work {
    match s
    case NeedKeyPair | GeneratingKeyPair | HaveKeyPair => KeyPairWork
    case NeedKeyinfo | ReadingKeyinfo | HaveKeyinfo => KeyinfoWork
    case NeedCsr | GeneratingCsr | HaveCsr => CsrWork
    case NeedScepData | GeneratingScepData | HaveScepData => ScepWork
    case NeedToSubmit | Submitting | CaUnreachable | CaWorking => SubmitWork
    case NeedToSaveCert | PreSaveCert | StartSavingCert | SavingCert | SavedCert => SaveCertWork
    case NeedToReadCert | ReadingCert | PostSavedCert => ReadCertWork
    case Monitoring | NeedToNotifyValidity | NotifyingValidity => MonitorWork
    case NeedToNotifyRejection | NotifyingRejection
      | NeedToNotifyIssuedSaveFailed | NotifyingIssuedSaveFailed
      | NeedToNotifyIssuedCaSaveFailed | NotifyingIssuedCaSaveFailed
      | NeedToNotifyOnlyCaSaveFailed | NotifyingOnlyCaSaveFailed
      | NeedToNotifyIssuedSaved | NotifyingIssuedSaved => NotifyWork
    case NeedToSaveCaCerts | StartSavingCaCerts | SavingCaCerts
      | NeedToSaveOnlyCaCerts | StartSavingOnlyCaCerts | SavingOnlyCaCerts => SaveCaCertsWork
    case NewlyAdded | NewlyAddedStartReadingKeyinfo | NewlyAddedReadingKeyinfo
      | NewlyAddedStartReadingCert | NewlyAddedReadingCert | NewlyAddedDeciding => NewlyAddedWork
    case _ => NoWork
  }

  function StepEntry(cfg: Config, e: Entry, l: Lock, w: World): Step {
    match WorkOf(e.state)
    case KeyPairWork => StepKeyPair(e, l, w)
    case KeyinfoWork => StepKeyinfo(e, l, w)
    case CsrWork => StepCsr(e, l, w)
    case ScepWork => StepScep(e, l, w)
    case SubmitWork => StepSubmit(cfg, e, l, w)
    case SaveCertWork => StepSaveCert(e, l, w)
    case ReadCertWork => StepReadCert(e, l, w)
    case MonitorWork => StepMonitor(cfg, e, l, w)
    case NotifyWork => StepNotify(e, l, w)
    case SaveCaCertsWork => StepSaveCaCerts(e, l, w)
    case NewlyAddedWork => StepNewlyAdded(e, l, w)
    case NoWork => if e.state == Invalid then Break(e, l, Aborted) else Stay(e, l, NoTime)
  }

  // Give the lock back if the entry has it.
  function LetGo(l: Lock, id: nat): Lock {
    if HasLock(l, AnEntry(id), None) && UnlockByEntry(l, id).Granted? then UnlockByEntry(l, id).lock else l
  }

  // Setting up the working state: the entry is put back to a stable state, the
  // lock is given back, and the key and the certificate are read and waited for.
  function InitEntry(e: Entry, l: Lock, w: World): Step {
    if e.state == Invalid then Break(e, l, Aborted)
    else
      var e1 := Reread(e, w);
      Stay(e1.(state := Reset(e.state), started := true, live := {}), LetGo(l, e.id), NoTime)
  }

  // Tearing it down: a key generation in progress is cleaned up, which looks at
  // what it has printed so far.
  function DoneEntry(e: Entry, l: Lock, w: World): Step {
    if e.state == Invalid then Break(e, l, Aborted)
    else
      var e1 := if e.started && Keygen in e.live then e.(keys := CleanUpKeygen(e.keys, w)) else e;
      Stay(e1.(state := Reset(e.state), started := false, live := {}), LetGo(l, e.id), NoTime)
  }

  // The handles which tearing down finishes; the others are only dropped.
  const FINISHED_ON_STOP: set<Helper> := {Submit, Csrgen, Scepgen, Keyiread, Keygen, Notify, Casave}
}
