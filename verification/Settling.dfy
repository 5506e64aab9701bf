/**
 Where progress leads: from start-up on, whatever working helpers answer, every
 entry can be brought to rest, and it comes to rest where it should.
 */
module Settling {
  import opened EntryStates
  import opened WritingLock
  import opened Expiry
  import opened EntrySteps
  import opened EntrySafety
  import opened CaSteps
  import opened Daemon
  import opened DaemonSafety
  import opened Progress

  // The states of an entry whose key and certificate are still looked for.
  predicate JustAdded(s: EntryState) {
    WorkOf(s) == NewlyAddedWork
  }

  predicate BeingRejected(s: EntryState) {
    s == NeedToNotifyRejection || s == NotifyingRejection
  }

  predicate Keeps(e: Entry, e1: Entry) {
    e1.keyLocation == e.keyLocation && e1.started == e.started
  }

  // Where a smooth step may lead: to waiting for an operator only from deciding
  // about an entry without a place for its key, and after a notice of rejection.
  predicate Leads(e: Entry, e1: Entry) {
    && Keeps(e, e1)
    && (JustAdded(e1.state) ==> JustAdded(e.state))
    && (BeingRejected(e1.state) ==> BeingRejected(e.state))
    && (WaitsForOperator(e1.state) ==>
          || (e1.state == NeedGuidance && e.state == NewlyAddedDeciding && !e.keyLocation)
          || (e1.state == CaRejected && e.state == NotifyingRejection))
  }

  lemma KeyPairLeads(e: Entry, l: Lock, w: World)
    requires Sound(e, l) && WorkOf(e.state) == KeyPairWork && Smooth(e, w)
    ensures Leads(e, StepKeyPair(e, l, w).entry)
  {
    match e.state
    case NeedKeyPair =>
    case GeneratingKeyPair =>
    case _ =>
  }

  lemma KeyinfoLeads(e: Entry, l: Lock, w: World)
    requires Sound(e, l) && WorkOf(e.state) == KeyinfoWork && Smooth(e, w)
    ensures Leads(e, StepKeyinfo(e, l, w).entry)
  {
    match e.state
    case NeedKeyinfo =>
    case ReadingKeyinfo =>
    case _ =>
  }

  lemma CsrLeads(e: Entry, l: Lock, w: World)
    requires Sound(e, l) && WorkOf(e.state) == CsrWork && Smooth(e, w)
    ensures Leads(e, StepCsr(e, l, w).entry)
  {
    match e.state
    case NeedCsr =>
    case GeneratingCsr =>
    case _ =>
  }

  lemma ScepLeads(e: Entry, l: Lock, w: World)
    requires Sound(e, l) && WorkOf(e.state) == ScepWork && Smooth(e, w)
    ensures Leads(e, StepScep(e, l, w).entry)
  {
    match e.state
    case NeedScepData =>
    case GeneratingScepData =>
    case _ =>
  }

  lemma SubmitLeads(cfg: Config, e: Entry, l: Lock, w: World)
    requires Sound(e, l) && WorkOf(e.state) == SubmitWork && Smooth(e, w)
    ensures Leads(e, StepSubmit(cfg, e, l, w).entry)
  {
    hide Sound, DelayAfter, AppointmentAfter;
    match e.state
    case NeedToSubmit =>
    case Submitting =>
    case _ =>
  }

  lemma SaveCertLeads(e: Entry, l: Lock, w: World)
    requires Sound(e, l) && WorkOf(e.state) == SaveCertWork && Smooth(e, w)
    ensures Keeps(e, StepSaveCert(e, l, w).entry)
    ensures var s := StepSaveCert(e, l, w).entry.state;
            || s == e.state || s == PreSaveCert || s == StartSavingCert || s == SavingCert || s == SavedCert
            || s == NeedToSaveCaCerts
  {
    hide Sound, LockByEntry, PromoteKey;
    match e.state
    case NeedToSaveCert =>
    case PreSaveCert =>
    case SavingCert =>
    case _ =>
  }

  lemma ReadCertLeads(e: Entry, l: Lock, w: World)
    requires Sound(e, l) && WorkOf(e.state) == ReadCertWork && Smooth(e, w)
    ensures Keeps(e, StepReadCert(e, l, w).entry)
    ensures var s := StepReadCert(e, l, w).entry.state;
            || s == e.state || s == ReadingCert || s == PostSavedCert || s == NeedToNotifyIssuedSaved
  {
    hide Sound, Ensured;
    match e.state
    case NeedToReadCert =>
    case ReadingCert =>
    case _ =>
  }

  lemma MonitorLeads(cfg: Config, e: Entry, l: Lock, w: World)
    requires Sound(e, l) && WorkOf(e.state) == MonitorWork && Smooth(e, w)
    ensures Keeps(e, StepMonitor(cfg, e, l, w).entry)
    ensures var s := StepMonitor(cfg, e, l, w).entry.state;
            || s == e.state || s == NeedToNotifyValidity || s == NotifyingValidity || s == Monitoring
            || s == NeedKeyPair || s == NeedCsr
  {
    hide Sound, MonitorDelay, Noteworthy, LookedAt, RekeyExpected;
    match e.state
    case Monitoring =>
    case NeedToNotifyValidity =>
    case _ =>
  }

  lemma NotifyLeads(e: Entry, l: Lock, w: World)
    requires Sound(e, l) && WorkOf(e.state) == NotifyWork && Smooth(e, w)
    ensures Keeps(e, StepNotify(e, l, w).entry)
    ensures var s := StepNotify(e, l, w).entry.state;
            || s == e.state || s == StartSavingCert || s == Monitoring || s == NeedToSaveCaCerts
            || s == NotifyingIssuedSaveFailed || s == NotifyingIssuedSaved || s == NotifyingIssuedCaSaveFailed
            || s == NotifyingOnlyCaSaveFailed
            || (s == NotifyingRejection && BeingRejected(e.state)) || (s == CaRejected && e.state == NotifyingRejection)
  {
    hide Sound, Ensured, UnlockByEntry;
    match e.state
    case NeedToNotifyRejection =>
    case NotifyingRejection =>
    case NotifyingIssuedSaveFailed | NotifyingIssuedSaved =>
    case NotifyingIssuedCaSaveFailed | NotifyingOnlyCaSaveFailed =>
    case _ =>
  }

  lemma SaveCaCertsLeads(e: Entry, l: Lock, w: World)
    requires Sound(e, l) && WorkOf(e.state) == SaveCaCertsWork && Smooth(e, w)
    ensures Keeps(e, StepSaveCaCerts(e, l, w).entry)
    ensures var s := StepSaveCaCerts(e, l, w).entry.state;
            || s == e.state || s == StartSavingCaCerts || s == SavingCaCerts || s == NeedToReadCert
            || s == StartSavingOnlyCaCerts || s == SavingOnlyCaCerts || s == Monitoring
  {
    hide Sound, Ensured, UnlockByEntry;
    match e.state
    case NeedToSaveCaCerts | NeedToSaveOnlyCaCerts =>
    case SavingCaCerts =>
    case SavingOnlyCaCerts =>
    case _ =>
  }

  lemma NewlyAddedLeads(e: Entry, l: Lock, w: World)
    requires Sound(e, l) && WorkOf(e.state) == NewlyAddedWork && Smooth(e, w)
    ensures Keeps(e, StepNewlyAdded(e, l, w).entry)
    ensures var s := StepNewlyAdded(e, l, w).entry.state;
            || s == e.state || s == NewlyAddedStartReadingKeyinfo || s == NewlyAddedReadingKeyinfo
            || s == NewlyAddedStartReadingCert || s == NewlyAddedReadingCert || s == NewlyAddedDeciding
            || s == NeedToSaveOnlyCaCerts || s == Monitoring || s == NeedCsr || s == NeedKeyPair
            || (s == NeedGuidance && e.state == NewlyAddedDeciding && !e.keyLocation)
  {
    match e.state
    case NewlyAdded =>
    case NewlyAddedReadingKeyinfo =>
    case NewlyAddedReadingCert =>
    case NewlyAddedDeciding =>
    case _ =>
  }

  // States which are neither of an entry just added or being rejected nor wait.
  predicate Underway(s: EntryState) {
    match s
    case PreSaveCert | StartSavingCert | SavingCert | SavedCert | NeedToSaveCaCerts
      | ReadingCert | PostSavedCert | NeedToNotifyIssuedSaved | NeedToReadCert
      | NeedToNotifyValidity | NotifyingValidity | Monitoring | NeedKeyPair | NeedCsr
      | NotifyingIssuedSaveFailed | NotifyingIssuedSaved | NotifyingIssuedCaSaveFailed | NotifyingOnlyCaSaveFailed
      | StartSavingCaCerts | SavingCaCerts | StartSavingOnlyCaCerts | SavingOnlyCaCerts | NeedToSaveOnlyCaCerts => true
    case _ => false
  }

  lemma UnderwayIsNeither(s: EntryState)
    requires Underway(s)
    ensures !JustAdded(s) && !BeingRejected(s) && !WaitsForOperator(s)
  {
    match s
    case PreSaveCert | StartSavingCert | SavingCert | SavedCert | NeedToSaveCaCerts =>
    case ReadingCert | PostSavedCert | NeedToNotifyIssuedSaved | NeedToReadCert =>
    case NeedToNotifyValidity | NotifyingValidity | Monitoring | NeedKeyPair | NeedCsr =>
    case _ =>
  }

  lemma JustAddedIsNeither(s: EntryState)
    requires JustAdded(s)
    ensures !BeingRejected(s) && !WaitsForOperator(s)
  {
  }

  lemma StatesLead(e: Entry, e1: Entry)
    requires Keeps(e, e1) && !Settled(e)
    requires || e1.state == e.state || Underway(e1.state)
             || (JustAdded(e.state) && JustAdded(e1.state))
             || (e1.state == NotifyingRejection && BeingRejected(e.state)) || (e1.state == CaRejected && e.state == NotifyingRejection)
             || (e1.state == NeedGuidance && e.state == NewlyAddedDeciding && !e.keyLocation)
    ensures Leads(e, e1)
  {
    hide Underway;
    if Underway(e1.state) {
      UnderwayIsNeither(e1.state);
    } else if JustAdded(e1.state) {
      JustAddedIsNeither(e1.state);
    }
  }

  lemma SaveCertLeadsWell(e: Entry, l: Lock, w: World)
    requires Sound(e, l) && WorkOf(e.state) == SaveCertWork && !Settled(e) && Smooth(e, w)
    ensures Leads(e, StepSaveCert(e, l, w).entry)
  {
    hide StepSaveCert, Sound, Smooth, Settled;
    SaveCertLeads(e, l, w);
    StatesLead(e, StepSaveCert(e, l, w).entry);
  }

  lemma ReadCertLeadsWell(e: Entry, l: Lock, w: World)
    requires Sound(e, l) && WorkOf(e.state) == ReadCertWork && !Settled(e) && Smooth(e, w)
    ensures Leads(e, StepReadCert(e, l, w).entry)
  {
    hide StepReadCert, Sound, Smooth, Settled;
    ReadCertLeads(e, l, w);
    StatesLead(e, StepReadCert(e, l, w).entry);
  }

  lemma MonitorLeadsWell(cfg: Config, e: Entry, l: Lock, w: World)
    requires Sound(e, l) && WorkOf(e.state) == MonitorWork && !Settled(e) && Smooth(e, w)
    ensures Leads(e, StepMonitor(cfg, e, l, w).entry)
  {
    hide StepMonitor, Sound, Smooth, Settled;
    MonitorLeads(cfg, e, l, w);
    StatesLead(e, StepMonitor(cfg, e, l, w).entry);
  }

  lemma NotifyLeadsWell(e: Entry, l: Lock, w: World)
    requires Sound(e, l) && WorkOf(e.state) == NotifyWork && !Settled(e) && Smooth(e, w)
    ensures Leads(e, StepNotify(e, l, w).entry)
  {
    hide StepNotify, Sound, Smooth, Settled;
    NotifyLeads(e, l, w);
    StatesLead(e, StepNotify(e, l, w).entry);
  }

  lemma SaveCaCertsLeadsWell(e: Entry, l: Lock, w: World)
    requires Sound(e, l) && WorkOf(e.state) == SaveCaCertsWork && !Settled(e) && Smooth(e, w)
    ensures Leads(e, StepSaveCaCerts(e, l, w).entry)
  {
    hide StepSaveCaCerts, Sound, Smooth, Settled;
    SaveCaCertsLeads(e, l, w);
    StatesLead(e, StepSaveCaCerts(e, l, w).entry);
  }

  lemma NewlyAddedLeadsWell(e: Entry, l: Lock, w: World)
    requires Sound(e, l) && WorkOf(e.state) == NewlyAddedWork && !Settled(e) && Smooth(e, w)
    ensures Leads(e, StepNewlyAdded(e, l, w).entry)
  {
    hide StepNewlyAdded, Sound, Smooth, Settled;
    NewlyAddedLeads(e, l, w);
    StatesLead(e, StepNewlyAdded(e, l, w).entry);
  }

  lemma StepLeads(cfg: Config, e: Entry, l: Lock, w: World)
    requires Sound(e, l) && !Settled(e) && Smooth(e, w)
    ensures Leads(e, StepEntry(cfg, e, l, w).entry)
  {
    match WorkOf(e.state)
    case NoWork =>
    case KeyPairWork => KeyPairLeads(e, l, w);
    case KeyinfoWork => KeyinfoLeads(e, l, w);
    case CsrWork => CsrLeads(e, l, w);
    case ScepWork => ScepLeads(e, l, w);
    case SubmitWork => SubmitLeads(cfg, e, l, w);
    case SaveCertWork => SaveCertLeadsWell(e, l, w);
    case ReadCertWork => ReadCertLeadsWell(e, l, w);
    case MonitorWork => MonitorLeadsWell(cfg, e, l, w);
    case NotifyWork => NotifyLeadsWell(e, l, w);
    case SaveCaCertsWork => SaveCaCertsLeadsWell(e, l, w);
    case NewlyAddedWork => NewlyAddedLeadsWell(e, l, w);
  }

  // Over whole runs: an entry which was settled, or stopped, stays as it is.
  predicate Along(e: Entry, e1: Entry) {
    if Settled(e) || !e.started then e1 == e
    else
      && Keeps(e, e1)
      && (JustAdded(e1.state) ==> JustAdded(e.state))
      && (BeingRejected(e1.state) ==> BeingRejected(e.state))
      && (WaitsForOperator(e1.state) ==> EndsWaiting(e, e1))
  }

  // The two ways to end with waiting for an operator.
  predicate EndsWaiting(e: Entry, e1: Entry) {
    || (e1.state == NeedGuidance && JustAdded(e.state) && !e.keyLocation)
    || (e1.state == CaRejected && BeingRejected(e.state))
  }

  // Being monitored; or waiting for an operator as before, or for one of two reasons.
  predicate AtRest(e: Entry, e1: Entry) {
    if Settled(e) then e1 == e else e1.started && (e1.state == Monitoring || EndsWaiting(e, e1))
  }

  lemma AlongTwice(e: Entry, e1: Entry, e2: Entry)
    requires Along(e, e1) && Along(e1, e2)
    ensures Along(e, e2)
  {
  }

  lemma LeadsAlong(e: Entry, e1: Entry)
    requires Leads(e, e1) && e.started && !Settled(e)
    ensures Along(e, e1)
  {
  }

  predicate AllAlong(s: System, r: System) {
    |r.slots| == |s.slots| && forall i :: 0 <= i < |s.slots| ==> Along(s.slots[i].entry, r.slots[i].entry)
  }

  lemma VisitLeads(cfg: Config, s: System, a: Action)
    requires Working(s) && SmoothVisit(s, a)
    ensures AllAlong(s, Next(cfg, s, a))
  {
    match a
    case VisitEntry(i, w) => EntryVisitLeads(cfg, s, i, w);
    case VisitCa(j, p, cw, _) =>
      var ca := s.cas[j];
      assert CaSlotsOk(ca, s.lock) && CaOk(ca.id, p, ca.slots[p].task, s.lock);
      CaStepLowers(cfg, ca.external, ca.id, p, ca.slots[p].task, s.lock, cw);
  }

  lemma EntryVisitLeads(cfg: Config, s: System, i: nat, w: World)
    requires Working(s) && SmoothVisit(s, VisitEntry(i, w))
    ensures AllAlong(s, ServiceEntry(cfg, s, i, w))
  {
    var e := s.slots[i].entry;
    assert EntryOk(e, s.lock);
    StepLeads(cfg, e, s.lock, w);
    LeadsAlong(e, StepEntry(cfg, e, s.lock, w).entry);
  }

  // Every smooth run, however visits are scheduled, leads entries where they should go.
  lemma {:induction false} SmoothRunsLeadWell(cfg: Config, s: System, actions: seq<Action>)
    requires Working(s) && SmoothRun(cfg, s, actions)
    ensures AllAlong(s, Run(cfg, s, actions))
    decreases |actions|
  {
    if actions != [] {
      var s1 := Next(cfg, s, actions[0]);
      VisitLeads(cfg, s, actions[0]);
      VisitLowers(cfg, s, actions[0]);
      SmoothRunsLeadWell(cfg, s1, actions[1..]);
      var r := Run(cfg, s1, actions[1..]);
      forall i | 0 <= i < |s.slots| ensures Along(s.slots[i].entry, r.slots[i].entry) {
        AlongTwice(s.slots[i].entry, s1.slots[i].entry, r.slots[i].entry);
      }
    }
  }

  predicate AllAtRest(s: System, r: System) {
    && |r.slots| == |s.slots|
    && forall i :: 0 <= i < |s.slots| && s.slots[i].entry.started ==> AtRest(s.slots[i].entry, r.slots[i].entry)
  }

  // So a smooth run which leaves nobody unsettled leaves everyone at rest.
  lemma SettledMeansAtRest(cfg: Config, s: System, actions: seq<Action>)
    requires Working(s) && SmoothRun(cfg, s, actions) && AllSettled(Run(cfg, s, actions))
    ensures AllAtRest(s, Run(cfg, s, actions))
  {
    SmoothRunsLeadWell(cfg, s, actions);
    var r := Run(cfg, s, actions);
    forall i | 0 <= i < |s.slots| && s.slots[i].entry.started ensures AtRest(s.slots[i].entry, r.slots[i].entry) {
      assert Along(s.slots[i].entry, r.slots[i].entry);
    }
  }

  // Whatever the outside world answers, and whichever hooks there are.
  datatype Outside = Outside(
    entry: (System, nat) -> World, ca: (System, nat, Phase) -> CaWorld, restarts: nat -> RestartWorlds)

  // Its helpers work.
  ghost predicate Works(o: Outside) {
    && (forall s: System, i: nat :: i < |s.slots| ==> Smooth(s.slots[i].entry, o.entry(s, i)))
    && (forall s: System, j: nat, p: Phase :: j < |s.cas| && p in s.cas[j].slots ==>
          CaSmooth(s.cas[j].slots[p].task, o.ca(s, j, p)))
  }

  datatype Turn = EntryTurn(i: nat) | CaTurn(j: nat, p: Phase)

  function VisitBy(s: System, t: Turn, o: Outside): Action {
    match t
    case EntryTurn(i) => VisitEntry(i, o.entry(s, i))
    case CaTurn(j, p) => VisitCa(j, p, o.ca(s, j, p), o.restarts)
  }

  // Deadlock freedom: unless all entries are settled there is someone to visit, with
  // an appointment waiting, who does not have to wait for the lock.
  lemma SomeoneCanGoOn(s: System, o: Outside) returns (t: Turn)
    requires Working(s) && !AllSettled(s) && Works(o)
    ensures SmoothVisit(s, VisitBy(s, t, o)) && !Waits(s, VisitBy(s, t, o))
  {
    match s.lock.owner
    case Nobody =>
      var i :| 0 <= i < |s.slots| && s.slots[i].entry.started && !Settled(s.slots[i].entry);
      t := EntryTurn(i);
      EntryCanGoOn(s, i, o);
    case AnEntry(id) =>
      var k :| 0 <= k < |s.slots| && s.slots[k].entry.id == id;
      assert EntryOk(s.slots[k].entry, s.lock);
      t := EntryTurn(k);
      EntryCanGoOn(s, k, o);
    case ACa(id) =>
      var j :| 0 <= j < |s.cas| && s.cas[j].id == id;
      t := CaTurn(j, s.lock.phase.value);
      CaCanGoOn(s, j, o);
  }

  lemma EntryCanGoOn(s: System, i: nat, o: Outside)
    requires AllAwake(s) && Works(o) && i < |s.slots| && s.slots[i].entry.started && !Settled(s.slots[i].entry)
    requires s.lock.owner == Nobody || Owns(s.lock, s.slots[i].entry)
    ensures var a := VisitBy(s, EntryTurn(i), o); SmoothVisit(s, a) && !Waits(s, a)
  {
    assert Awake(s.slots[i]);
  }

  lemma CaCanGoOn(s: System, j: nat, o: Outside)
    requires Safe(s) && OwnerCanGoOn(s) && Works(o) && j < |s.cas| && s.lock.owner == ACa(s.cas[j].id)
    ensures var a := VisitBy(s, CaTurn(j, s.lock.phase.value), o); SmoothVisit(s, a) && !Waits(s, a)
  {
    var p := s.lock.phase.value;
    assert CaSlotsOk(s.cas[j], s.lock) && CaOk(s.cas[j].id, p, s.cas[j].slots[p].task, s.lock);
  }

  // The run of visits to those whose turn it is.
  function RunOf(cfg: Config, s: System, turns: seq<Turn>, o: Outside): seq<Action>
    decreases |turns|
  {
    if turns == [] then []
    else
      var a := VisitBy(s, turns[0], o);
      [a] + RunOf(cfg, Next(cfg, s, a), turns[1..], o)
  }

  // So whatever working helpers answer, some order of visits brings every entry to
  // rest.
  lemma {:induction false} EveryoneCanSettle(cfg: Config, s: System, o: Outside) returns (turns: seq<Turn>)
    requires Working(s) && Works(o)
    ensures SmoothRun(cfg, s, RunOf(cfg, s, turns, o)) && |turns| <= Total(s)
    ensures var r := Run(cfg, s, RunOf(cfg, s, turns, o)); Working(r) && AllSettled(r) && AllAtRest(s, r)
    decreases Total(s)
  {
    if AllSettled(s) {
      turns := [];
    } else {
      var t := SomeoneCanGoOn(s, o);
      var a := VisitBy(s, t, o);
      VisitLowers(cfg, s, a);
      var rest := EveryoneCanSettle(cfg, Next(cfg, s, a), o);
      turns := [t] + rest;
      assert turns[1..] == rest;
      var actions := RunOf(cfg, Next(cfg, s, a), rest, o);
      assert RunOf(cfg, s, turns, o) == [a] + actions && ([a] + actions)[1..] == actions;
      SettledMeansAtRest(cfg, s, [a] + actions);
    }
  }
}
