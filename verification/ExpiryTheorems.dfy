/**
 What the expiry scheduler is for: that the passing of a threshold is noticed,
 soon, and once.
 */
module ExpiryTheorems {
  import opened EntryStates
  import opened WritingLock
  import opened Expiry
  import opened EntrySteps

  const DEFAULT_TTLS: seq<int> := [2419200, 604800, 259200, 172800, 86400, 43200, 21600, 7200, 3600]

  // The delays the package is configured with, and its default thresholds.
  const DEFAULTS := Config(
    5, 30,
    86400, 1800, 604800,
    604800, 300, 31536000,
    21600,
    DEFAULT_TTLS, DEFAULT_TTLS,
    0)

  // The most a crossing may be noticed late by.
  function Bound(cfg: Config): int {
    Larger(cfg.soon, cfg.monitorMin)
  }

  // With a threshold ahead, the delay never leads past it by more than the bound;
  // the threshold the scheduler aims for is the largest one of either list which
  // is positive and still ahead.
  lemma DelayAimsForNext(cfg: Config, remaining: int)
    requires ValidConfig(cfg) && remaining > 0
    ensures var next := NextThreshold(remaining, cfg.notifyTtls + cfg.enrollTtls);
            var delay := MonitorDelay(cfg, remaining, cfg.notifyTtls, cfg.enrollTtls);
            && IsNextThreshold(next, remaining, cfg.notifyTtls + cfg.enrollTtls)
            && 0 < cfg.monitorMin <= delay <= cfg.monitorMax
            && (next != 0 ==> delay <= Larger(cfg.monitorMin, remaining - next + cfg.soon))
  {
  }

  // A threshold the entry is watched for.
  predicate Watched(cfg: Config, w: Watch, threshold: int) {
    && threshold > 0
    && ((w.monitor && threshold in cfg.notifyTtls) || (w.autorenew && threshold in cfg.enrollTtls))
  }

  predicate LookedLast(w: Watch, t: int) {
    (w.monitor ==> w.lastNotify == t) && (w.autorenew ==> w.lastEnroll == t)
  }

  predicate SameWatch(w1: Watch, w2: Watch) {
    && w1.notBefore == w2.notBefore && w1.notAfter == w2.notAfter
    && w1.monitor == w2.monitor && w1.autorenew == w2.autorenew
  }

  // While it is being watched, an entry's steps are looks.
  lemma MonitoringStep(cfg: Config, e: Entry, l: Lock, w: World)
    requires WorkOf(e.state) == MonitorWork
    ensures StepEntry(cfg, e, l, w) == StepMonitor(cfg, e, l, w)
  {
  }

  // A look which finds nothing notes when it was made and asks for the next one.
  lemma QuietLook(cfg: Config, e: Entry, l: Lock, w: World)
    requires e.state == Monitoring && OldEnough(cfg, e.watch, w.now)
    requires StepMonitor(cfg, e, l, w).entry.state == Monitoring
    ensures var s := StepMonitor(cfg, e, l, w);
            && s.when == After
            && s.delay == MonitorDelay(cfg, e.watch.notAfter - w.now, cfg.notifyTtls, cfg.enrollTtls)
            && LookedLast(s.entry.watch, w.now)
            && SameWatch(s.entry.watch, e.watch)
  {
    hide MonitorDelay, Noteworthy, RekeyExpected;
    var e1 := SeenForNotify(cfg, e, w.now);
    assert !NotifyDue(cfg, e, w.now) && !EnrollDue(cfg, e1, w.now);
    assert StepMonitor(cfg, e, l, w) == KeepWatching(cfg, SeenForEnroll(cfg, e1, w.now), l, w);
  }

  // A certificate whose end is not known, or which is younger than the minimum, is left
  // alone: nothing is found, and the last checks stay as they were.
  lemma YoungIsLeftAlone(cfg: Config, e: Entry, l: Lock, w: World)
    requires e.state == Monitoring && (e.watch.notAfter == 0 || w.now - e.watch.notBefore < cfg.monitorMin)
    ensures var st := StepEntry(cfg, e, l, w); st.entry == e && st.when == After
  {
    hide MonitorDelay, Passed, StepEntry;
    MonitoringStep(cfg, e, l, w);
    NoteworthyMeans(cfg, e.watch, cfg.notifyTtls, e.watch.lastNotify, w.now);
    NoteworthyMeans(cfg, e.watch, cfg.enrollTtls, e.watch.lastEnroll, w.now);
  }

  // What a check finds: the certificate is over, or one of the thresholds was passed.
  predicate Finds(cfg: Config, w: Watch, ttls: seq<int>, last: int, now: int) {
    && w.notAfter != 0 && now - w.notBefore >= cfg.monitorMin && ttls != []
    && (w.notAfter <= now || Passed(w.notAfter, ttls, last, now))
  }

  lemma FindsMeans(cfg: Config, w: Watch, ttls: seq<int>, last: int, now: int)
    ensures Noteworthy(cfg, w, ttls, last, now) <==> Finds(cfg, w, ttls, last, now)
  {
    hide Noteworthy;
    NoteworthyMeans(cfg, w, ttls, last, now);
  }

  // It does not depend on when the other list was looked at.
  lemma FindsTheSame(cfg: Config, w: Watch, w1: Watch, ttls: seq<int>, last: int, now: int)
    requires SameWatch(w, w1)
    ensures Finds(cfg, w, ttls, last, now) == Finds(cfg, w1, ttls, last, now)
  {
  }

  lemma KeysStay(cfg: Config, e: Entry, now: int)
    ensures SeenForEnroll(cfg, e, now).keys == e.keys
  {
  }

  lemma RenewalGoes(cfg: Config, e: Entry, l: Lock, w: World)
    ensures Renew(cfg, e, l, w).entry.state ==
              if w.keyTooOld || (cfg.maxKeyUse > 0 && e.keys.issued >= cfg.maxKeyUse) then NeedKeyPair else NeedCsr
    ensures KeepWatching(cfg, e, l, w).entry.state == Monitoring
  {
    hide MonitorDelay;
  }

  // A look at an entry which is being watched sends a notice exactly if it is to be
  // monitored and its own last look is on the other side of a threshold for notices;
  // otherwise it renews exactly if it is to be renewed and its last look is on the other
  // side of a threshold for renewal.  A new key is made exactly if the key is too old, or
  // has been used as often as it may be.
  lemma LookFinds(cfg: Config, e: Entry, l: Lock, w: World)
    requires e.state == Monitoring
    ensures var notice := e.watch.monitor && Finds(cfg, e.watch, cfg.notifyTtls, e.watch.lastNotify, w.now);
            var renewal := !notice && e.watch.autorenew && Finds(cfg, e.watch, cfg.enrollTtls, e.watch.lastEnroll, w.now);
            var newKey := w.keyTooOld || (cfg.maxKeyUse > 0 && e.keys.issued >= cfg.maxKeyUse);
            StepEntry(cfg, e, l, w).entry.state ==
              if notice then NeedToNotifyValidity else if renewal then (if newKey then NeedKeyPair else NeedCsr) else Monitoring
  {
    hide Finds, Noteworthy, LookedAt, StepEntry, Renew, KeepWatching, SeenForEnroll;
    MonitoringStep(cfg, e, l, w);
    FindsMeans(cfg, e.watch, cfg.notifyTtls, e.watch.lastNotify, w.now);
    var e1 := SeenForNotify(cfg, e, w.now);
    FindsMeans(cfg, e1.watch, cfg.enrollTtls, e.watch.lastEnroll, w.now);
    FindsTheSame(cfg, e.watch, e1.watch, cfg.enrollTtls, e.watch.lastEnroll, w.now);
    KeysStay(cfg, e1, w.now);
    RenewalGoes(cfg, SeenForEnroll(cfg, e1, w.now), l, w);
  }

  lemma NoticeStep(cfg: Config, e: Entry, l: Lock, w: World, e1: Entry)
    requires e.state == NotifyingValidity && Notify in e.live && w.ready && e1 == e.(live := e.live - {Notify})
    ensures var e2 := SeenForEnroll(cfg, e1, w.now);
            StepEntry(cfg, e, l, w) == if EnrollDue(cfg, e1, w.now) then Renew(cfg, e2, l, w) else KeepWatching(cfg, e2, l, w)
  {
    hide StepEntry, SeenForEnroll, EnrollDue, Renew, KeepWatching;
    MonitoringStep(cfg, e, l, w);
  }

  // After a notice was sent the same is decided about renewal, with the check for
  // renewal still at its own last look.
  lemma LookAfterNotice(cfg: Config, e: Entry, l: Lock, w: World)
    requires e.state == NotifyingValidity && Notify in e.live && w.ready
    ensures var renewal := e.watch.autorenew && Finds(cfg, e.watch, cfg.enrollTtls, e.watch.lastEnroll, w.now);
            var newKey := w.keyTooOld || (cfg.maxKeyUse > 0 && e.keys.issued >= cfg.maxKeyUse);
            StepEntry(cfg, e, l, w).entry.state == if renewal then (if newKey then NeedKeyPair else NeedCsr) else Monitoring
  {
    hide Finds, Noteworthy, StepEntry, Renew, KeepWatching, SeenForEnroll;
    var e1 := e.(live := e.live - {Notify});
    NoticeStep(cfg, e, l, w, e1);
    FindsMeans(cfg, e1.watch, cfg.enrollTtls, e.watch.lastEnroll, w.now);
    KeysStay(cfg, e1, w.now);
    RenewalGoes(cfg, SeenForEnroll(cfg, e1, w.now), l, w);
  }

  // What is within the limits is left alone, and the rest is moved to the nearer limit.
  predicate IsLimited(cfg: Config, wanted: int, delay: int) {
    if wanted < cfg.monitorMin then delay == cfg.monitorMin
    else if wanted > cfg.monitorMax then delay == cfg.monitorMax
    else delay == wanted
  }

  // The delay wanted when the certificate has so long to live and m is the next threshold
  // of either list: until shortly after m is passed, if that is before the usual time; else
  // half of what is left, if little is left; else the usual time.
  function Wanted(cfg: Config, left: int, m: int): int {
    if left <= 0 then cfg.monitorPoll
    else if m != 0 && left - m + cfg.soon < cfg.monitorPoll then left - m + cfg.soon
    else if left < 2 * cfg.monitorPoll then left / 2
    else cfg.monitorPoll
  }

  lemma DelayIsLimited(cfg: Config, e: Entry, now: int, m: int)
    requires ValidConfig(cfg)
    requires var left := e.watch.notAfter - now; left > 0 ==> IsNextThreshold(m, left, cfg.notifyTtls + cfg.enrollTtls)
    ensures IsLimited(cfg, if e.watch.notAfter == 0 then cfg.monitorPoll else Wanted(cfg, e.watch.notAfter - now, m),
                      MonitorDelay(cfg, Remaining(e, now), cfg.notifyTtls, cfg.enrollTtls))
  {
    hide NextThreshold, IsNextThreshold;
    var left := e.watch.notAfter - now;
    if left > 0 {
      NextThresholdIsUnique(m, NextThreshold(left, cfg.notifyTtls + cfg.enrollTtls), left, cfg.notifyTtls + cfg.enrollTtls);
    }
  }

  lemma WatchingOn(cfg: Config, e: Entry, l: Lock, w: World)
    requires e.state == Monitoring && StepEntry(cfg, e, l, w).entry.state == Monitoring
    ensures var st := StepEntry(cfg, e, l, w);
            st.when == After && st.delay == MonitorDelay(cfg, Remaining(e, w.now), cfg.notifyTtls, cfg.enrollTtls)
  {
    hide MonitorDelay, NotifyDue, EnrollDue, LookedAt, RekeyExpected;
    MonitoringStep(cfg, e, l, w);
  }

  // An entry which is being watched and was found to need nothing is looked at again after
  // just that delay.
  lemma NextLookIs(cfg: Config, e: Entry, l: Lock, w: World, m: int)
    requires ValidConfig(cfg) && e.state == Monitoring && StepEntry(cfg, e, l, w).entry.state == Monitoring
    requires var left := e.watch.notAfter - w.now; left > 0 ==> IsNextThreshold(m, left, cfg.notifyTtls + cfg.enrollTtls)
    ensures var st := StepEntry(cfg, e, l, w);
            && st.when == After
            && IsLimited(cfg, if e.watch.notAfter == 0 then cfg.monitorPoll else Wanted(cfg, e.watch.notAfter - w.now, m), st.delay)
  {
    hide StepEntry, MonitorDelay, IsLimited, IsNextThreshold;
    WatchingOn(cfg, e, l, w);
    DelayIsLimited(cfg, e, w.now, m);
  }

  // While a threshold is strictly ahead the next look is no later than the bound.
  lemma LookAhead(cfg: Config, remaining: int, w: Watch, threshold: int)
    requires ValidConfig(cfg) && Watched(cfg, w, threshold) && threshold < remaining
    ensures 0 < MonitorDelay(cfg, remaining, cfg.notifyTtls, cfg.enrollTtls) <= remaining - threshold + Bound(cfg)
  {
    DelayAimsForNext(cfg, remaining);
    assert threshold in cfg.notifyTtls + cfg.enrollTtls;
  }

  // The first look after the crossing notices it.
  lemma LookPast(cfg: Config, e: Entry, l: Lock, w: World, threshold: int, last: int)
    requires e.state == Monitoring && Watched(cfg, e.watch, threshold) && LookedLast(e.watch, last)
    requires OldEnough(cfg, e.watch, w.now)
    requires last <= e.watch.notAfter - threshold < w.now
    ensures StepMonitor(cfg, e, l, w).entry.state in {NeedToNotifyValidity, NeedKeyPair, NeedCsr}
  {
    hide MonitorDelay, RekeyExpected;
    assert Left(e.watch.notAfter, last) >= threshold > Left(e.watch.notAfter, w.now);
    if e.watch.monitor && threshold in cfg.notifyTtls {
      var i :| 0 <= i < |cfg.notifyTtls| && cfg.notifyTtls[i] == threshold;
      assert Crossed(Left(e.watch.notAfter, last), Left(e.watch.notAfter, w.now), cfg.notifyTtls[i]);
    } else {
      var i :| 0 <= i < |cfg.enrollTtls| && cfg.enrollTtls[i] == threshold;
      assert Crossed(Left(e.watch.notAfter, last), Left(e.watch.notAfter, w.now), cfg.enrollTtls[i]);
    }
  }

  // Looks at an entry which is being watched, each exactly when the one before
  // asked for it; only the last may find something.
  predicate PunctualLooks(cfg: Config, e: Entry, l: Lock, looks: seq<World>)
    decreases |looks|
  {
    && looks != []
    && e.state == Monitoring
    && (|looks| > 1 ==>
          var s := StepMonitor(cfg, e, l, looks[0]);
          && looks[1].now == looks[0].now + s.delay
          && PunctualLooks(cfg, s.entry, l, looks[1..]))
  }

  lemma WatchingEnds(cfg: Config, e: Entry, l: Lock, looks: seq<World>)
    requires PunctualLooks(cfg, e, l, looks) && StepMonitor(cfg, e, l, looks[0]).entry.state != Monitoring
    ensures |looks| == 1
  {
  }

  function LastLook(cfg: Config, e: Entry, l: Lock, looks: seq<World>): Step
    requires looks != []
    decreases |looks|
  {
    var s := StepMonitor(cfg, e, l, looks[0]);
    if |looks| == 1 then s else LastLook(cfg, s.entry, l, looks[1..])
  }

  // The same looks, as the steps of the entry they are.
  predicate Punctual(cfg: Config, e: Entry, l: Lock, looks: seq<World>)
    decreases |looks|
  {
    && looks != []
    && e.state == Monitoring
    && (|looks| > 1 ==>
          var s := StepEntry(cfg, e, l, looks[0]);
          && looks[1].now == looks[0].now + s.delay
          && Punctual(cfg, s.entry, l, looks[1..]))
  }

  function LastStep(cfg: Config, e: Entry, l: Lock, looks: seq<World>): Step
    requires looks != []
    decreases |looks|
  {
    var s := StepEntry(cfg, e, l, looks[0]);
    if |looks| == 1 then s else LastStep(cfg, s.entry, l, looks[1..])
  }

  lemma {:induction false} StepsAreLooks(cfg: Config, e: Entry, l: Lock, looks: seq<World>)
    requires looks != []
    ensures Punctual(cfg, e, l, looks) <==> PunctualLooks(cfg, e, l, looks)
    ensures Punctual(cfg, e, l, looks) ==> LastStep(cfg, e, l, looks) == LastLook(cfg, e, l, looks)
    decreases |looks|
  {
    hide StepMonitor, StepEntry;
    if e.state == Monitoring {
      MonitoringStep(cfg, e, l, looks[0]);
      if |looks| > 1 {
        StepsAreLooks(cfg, StepMonitor(cfg, e, l, looks[0]).entry, l, looks[1..]);
      }
    }
  }

  predicate LooksAt(looks: seq<World>, time: int) {
    exists k :: 0 <= k < |looks| && looks[k].now == time
  }

  lemma {:induction false} LookIsInTime(cfg: Config, e: Entry, l: Lock, looks: seq<World>, threshold: int)
    requires ValidConfig(cfg) && PunctualLooks(cfg, e, l, looks) && Watched(cfg, e.watch, threshold)
    requires OldEnough(cfg, e.watch, looks[0].now)
    requires looks[0].now < e.watch.notAfter - threshold < looks[|looks| - 1].now
    ensures LastLook(cfg, e, l, looks).entry.state in {NeedToNotifyValidity, NeedKeyPair, NeedCsr}
    ensures var crossing := e.watch.notAfter - threshold;
            looks[|looks| - 1].now <= crossing + Bound(cfg) <==>
              !(LooksAt(looks, crossing) && MonitorDelay(cfg, threshold, cfg.notifyTtls, cfg.enrollTtls) > Bound(cfg))
    decreases |looks|
  {
    hide StepMonitor, MonitorDelay, Bound;
    var crossing := e.watch.notAfter - threshold;
    var e1 := StepMonitor(cfg, e, l, looks[0]).entry;
    var t := looks[1].now;
    QuietLook(cfg, e, l, looks[0]);
    LookAhead(cfg, e.watch.notAfter - looks[0].now, e.watch, threshold);
    if t < crossing {
      LookIsInTime(cfg, e1, l, looks[1..], threshold);
      SameLater(looks, crossing);
    } else if t == crossing {
      LandingLook(cfg, e1, l, looks[1..], threshold);
    } else {
      PassingLook(cfg, e, l, looks, threshold);
    }
  }

  // A look beyond the crossing right after one before it notices it.
  lemma PassingLook(cfg: Config, e: Entry, l: Lock, looks: seq<World>, threshold: int)
    requires PunctualLooks(cfg, e, l, looks) && Watched(cfg, e.watch, threshold)
    requires OldEnough(cfg, e.watch, looks[0].now)
    requires |looks| > 1 && looks[0].now < e.watch.notAfter - threshold < looks[1].now
    ensures |looks| == 2 && LastLook(cfg, e, l, looks).entry.state in {NeedToNotifyValidity, NeedKeyPair, NeedCsr}
    ensures !LooksAt(looks, e.watch.notAfter - threshold)
  {
    hide StepMonitor, MonitorDelay;
    var e1 := StepMonitor(cfg, e, l, looks[0]).entry;
    QuietLook(cfg, e, l, looks[0]);
    LookPast(cfg, e1, l, looks[1], threshold, looks[0].now);
    WatchingEnds(cfg, e1, l, looks[1..]);
  }

  lemma SameLater(looks: seq<World>, time: int)
    requires looks != [] && looks[0].now != time
    ensures LooksAt(looks, time) <==> LooksAt(looks[1..], time)
  {
    if LooksAt(looks, time) {
      var k :| 0 <= k < |looks| && looks[k].now == time;
      assert looks[1..][k - 1].now == time;
    }
  }

  // After a look on the second of the crossing, the next one notices it.
  lemma LandingLook(cfg: Config, e: Entry, l: Lock, looks: seq<World>, threshold: int)
    requires ValidConfig(cfg) && PunctualLooks(cfg, e, l, looks) && Watched(cfg, e.watch, threshold)
    requires OldEnough(cfg, e.watch, looks[0].now)
    requires looks[0].now == e.watch.notAfter - threshold < looks[|looks| - 1].now
    ensures |looks| == 2 && LastLook(cfg, e, l, looks).entry.state in {NeedToNotifyValidity, NeedKeyPair, NeedCsr}
    ensures looks[1].now == looks[0].now + MonitorDelay(cfg, threshold, cfg.notifyTtls, cfg.enrollTtls)
  {
    hide StepMonitor, MonitorDelay;
    var e1 := StepMonitor(cfg, e, l, looks[0]).entry;
    QuietLook(cfg, e, l, looks[0]);
    DelayAimsForNext(cfg, threshold);
    LookPast(cfg, e1, l, looks[1], threshold, looks[0].now);
    WatchingEnds(cfg, e1, l, looks[1..]);
  }

  // Bounded lateness: the first look after a crossing ends the watching, and it
  // is within the bound exactly unless a look fell on the very second of the
  // crossing and was then given a longer delay.
  lemma CrossingIsSeenInTime(cfg: Config, e: Entry, l: Lock, looks: seq<World>, threshold: int)
    requires ValidConfig(cfg) && looks != [] && Punctual(cfg, e, l, looks) && Watched(cfg, e.watch, threshold)
    requires e.watch.notAfter != 0 && looks[0].now - e.watch.notBefore >= cfg.monitorMin
    requires looks[0].now < e.watch.notAfter - threshold < looks[|looks| - 1].now
    ensures LastStep(cfg, e, l, looks).entry.state in {NeedToNotifyValidity, NeedKeyPair, NeedCsr}
    ensures var crossing := e.watch.notAfter - threshold;
            looks[|looks| - 1].now <= crossing + Bound(cfg) <==>
              !(LooksAt(looks, crossing) && MonitorDelay(cfg, threshold, cfg.notifyTtls, cfg.enrollTtls) > Bound(cfg))
  {
    StepsAreLooks(cfg, e, l, looks);
    LookIsInTime(cfg, e, l, looks, threshold);
  }

  lemma DefaultThresholdsAre(t: int)
    requires t in DEFAULTS.notifyTtls + DEFAULTS.enrollTtls
    ensures 0 < t <= 604800 || t == 2419200
  {
    assert DEFAULTS.notifyTtls + DEFAULTS.enrollTtls == DEFAULT_TTLS + DEFAULT_TTLS;
    assert t in DEFAULT_TTLS;
  }

  // The largest default threshold is 28 days.
  lemma DefaultThresholds(remaining: int)
    requires remaining > 0
    ensures var next := NextThreshold(remaining, DEFAULTS.notifyTtls + DEFAULTS.enrollTtls);
            0 <= next <= 2419200 && (remaining == 2419200 ==> next <= 604800)
  {
    var ttls := DEFAULTS.notifyTtls + DEFAULTS.enrollTtls;
    hide NextThreshold;
    var next := NextThreshold(remaining, ttls);
    if next != 0 {
      assert next in ttls && next < remaining;
      DefaultThresholdsAre(next);
    }
  }

  lemma DefaultDelays()
    ensures ValidConfig(DEFAULTS) && Bound(DEFAULTS) == 1800
    ensures MonitorDelay(DEFAULTS, 2505600, DEFAULTS.notifyTtls, DEFAULTS.enrollTtls) == 86400
    ensures MonitorDelay(DEFAULTS, 2419200, DEFAULTS.notifyTtls, DEFAULTS.enrollTtls) == 86400
  {
    DefaultThresholds(2505600);
    DefaultThresholds(2419200);
  }

  lemma NoThresholdBetween(w: Watch, last: int, now: int)
    requires 2419200 <= w.notAfter - now <= w.notAfter - last
    ensures !Noteworthy(DEFAULTS, w, DEFAULT_TTLS, last, now)
  {
    assert forall i :: 0 <= i < |DEFAULT_TTLS| ==> DEFAULT_TTLS[i] <= 2419200;
  }

  // No default threshold lies between these looks.
  lemma NothingFound(e: Entry, l: Lock, w: World, last: int)
    requires e.state == Monitoring && OldEnough(DEFAULTS, e.watch, w.now) && LookedLast(e.watch, last)
    requires 2419200 <= e.watch.notAfter - w.now <= e.watch.notAfter - last
    ensures StepMonitor(DEFAULTS, e, l, w).entry.state == Monitoring
  {
    hide MonitorDelay, Noteworthy, Remaining;
    NoThresholdBetween(e.watch, last, w.now);
    NoThresholdBetween(SeenForNotify(DEFAULTS, e, w.now).watch, last, w.now);
  }

  // The exception is real: as packaged, an entry which is looked at 29 days before the
  // end is looked at again after 28 days exactly, and then a day later, where the bound
  // is half an hour.
  lemma LandingIsLate(e: Entry, l: Lock, w: World)
    requires e.state == Monitoring && (e.watch.monitor || e.watch.autorenew)
    requires e.watch.notAfter == w.now + 2505600 != 0 && w.now - e.watch.notBefore >= 1800 && LookedLast(e.watch, w.now)
    ensures var crossing := e.watch.notAfter - 2419200;
            var looks := [w, w.(now := crossing), w.(now := crossing + 86400)];
            && Punctual(DEFAULTS, e, l, looks) && Watched(DEFAULTS, e.watch, 2419200)
            && LastStep(DEFAULTS, e, l, looks).entry.state in {NeedToNotifyValidity, NeedKeyPair, NeedCsr}
            && looks[2].now > crossing + Bound(DEFAULTS)
  {
    hide StepMonitor, MonitorDelay;
    var w1, w2 := w.(now := w.now + 86400), w.(now := w.now + 172800);
    DefaultDelays();
    NothingFound(e, l, w, w.now);
    QuietLook(DEFAULTS, e, l, w);
    var e1 := StepMonitor(DEFAULTS, e, l, w).entry;
    NothingFound(e1, l, w1, w.now);
    QuietLook(DEFAULTS, e1, l, w1);
    var e2 := StepMonitor(DEFAULTS, e1, l, w1).entry;
    assert DEFAULT_TTLS[0] == 2419200;
    LookPast(DEFAULTS, e2, l, w2, 2419200, w1.now);
    ThreeLooks(DEFAULTS, e, l, w, w1, w2);
    StepsAreLooks(DEFAULTS, e, l, [w, w1, w2]);
  }

  lemma ThreeLooks(cfg: Config, e: Entry, l: Lock, w: World, w1: World, w2: World)
    requires var s := StepMonitor(cfg, e, l, w); var s1 := StepMonitor(cfg, s.entry, l, w1);
             && e.state == s.entry.state == s1.entry.state == Monitoring
             && w1.now == w.now + s.delay && w2.now == w1.now + s1.delay
    ensures PunctualLooks(cfg, e, l, [w, w1, w2])
    ensures var s := StepMonitor(cfg, e, l, w); var s1 := StepMonitor(cfg, s.entry, l, w1);
            LastLook(cfg, e, l, [w, w1, w2]) == StepMonitor(cfg, s1.entry, l, w2)
  {
    var all, rest := [w, w1, w2], [w1, w2];
    assert all[1..] == rest && rest[1..] == [w2];
    var e1 := StepMonitor(cfg, e, l, w).entry;
    var e2 := StepMonitor(cfg, e1, l, w1).entry;
    assert PunctualLooks(cfg, e2, l, [w2]) && PunctualLooks(cfg, e1, l, rest);
    assert LastLook(cfg, e, l, all) == LastLook(cfg, e1, l, rest) == LastLook(cfg, e2, l, [w2]);
  }

  // Renewal.  The check for renewal keeps its own time of the last check, which a
  // look that ends in a notice leaves alone.

  predicate BeingWatched(s: EntryState) {
    s == Monitoring || s == NeedToNotifyValidity || s == NotifyingValidity
  }

  // What happens to an entry while its certificate stays the same: looks, and
  // being stopped and started again.
  datatype WatchEvent = Look(w: World) | Restart(stop: World, init: World)

  function Afterwards(cfg: Config, e: Entry, l: Lock, ev: WatchEvent): Entry {
    match ev
    case Look(w) => StepEntry(cfg, e, l, w).entry
    case Restart(stop, init) => InitEntry(DoneEntry(e, l, stop).entry, l, init).entry
  }

  predicate KeepsCertificate(w: Watch, ev: WatchEvent) {
    ev.Restart? ==> ev.init.readNotBefore == w.notBefore && ev.init.readNotAfter == w.notAfter
  }

  // No renewal comes out of any of the events.
  predicate NeverRenews(cfg: Config, e: Entry, l: Lock, events: seq<WatchEvent>)
    decreases |events|
  {
    && BeingWatched(e.state)
    && (events != [] ==> KeepsCertificate(e.watch, events[0]) && NeverRenews(cfg, Afterwards(cfg, e, l, events[0]), l, events[1..]))
  }

  function AfterAll(cfg: Config, e: Entry, l: Lock, events: seq<WatchEvent>): Entry
    decreases |events|
  {
    if events == [] then e else AfterAll(cfg, Afterwards(cfg, e, l, events[0]), l, events[1..])
  }

  // The looks which get as far as checking for renewal: no notice comes first.
  predicate GetsToRenewal(cfg: Config, e: Entry, w: World) {
    || (e.state == Monitoring && !NotifyDue(cfg, e, w.now))
    || (e.state == NotifyingValidity && Notify in e.live && w.ready)
  }

  predicate ChecksRenewal(cfg: Config, e: Entry, w: World) {
    e.watch.autorenew && e.watch.notAfter != 0 && w.now - e.watch.notBefore >= cfg.monitorMin && GetsToRenewal(cfg, e, w)
  }

  // What a look means for the time of the last check, and for renewal.
  predicate LookResult(cfg: Config, e: Entry, w: World, e1: Entry) {
    && SameWatch(e1.watch, e.watch)
    && (if ChecksRenewal(cfg, e, w) then
          && e1.watch.lastEnroll == w.now
          && (Noteworthy(cfg, e.watch, cfg.enrollTtls, e.watch.lastEnroll, w.now) <==> !BeingWatched(e1.state))
        else e1.watch.lastEnroll == e.watch.lastEnroll && BeingWatched(e1.state))
  }

  lemma CheckingForRenewal(cfg: Config, e: Entry, l: Lock, w: World)
    requires e.watch.autorenew
    ensures var e2 := SeenForEnroll(cfg, e, w.now);
            var e3 := if EnrollDue(cfg, e, w.now) then Renew(cfg, e2, l, w).entry else KeepWatching(cfg, e2, l, w).entry;
            && SameWatch(e3.watch, e.watch)
            && e3.watch.lastEnroll == LookedAt(cfg, e.watch, e.watch.lastEnroll, w.now)
            && (EnrollDue(cfg, e, w.now) <==> !BeingWatched(e3.state))
            && (EnrollDue(cfg, e, w.now) ==> OldEnough(cfg, e.watch, w.now))
  {
    hide MonitorDelay;
  }

  // What is found does not depend on when the other list was looked at.
  lemma SameFindings(cfg: Config, w: Watch, w1: Watch, now: int)
    requires SameWatch(w, w1)
    ensures Noteworthy(cfg, w1, cfg.enrollTtls, w.lastEnroll, now) == Noteworthy(cfg, w, cfg.enrollTtls, w.lastEnroll, now)
  {
  }

  lemma LookWhileMonitoring(cfg: Config, e: Entry, l: Lock, w: World)
    requires e.state == Monitoring && e.watch.autorenew
    ensures LookResult(cfg, e, w, StepMonitor(cfg, e, l, w).entry)
  {
    hide MonitorDelay, Noteworthy, Renew, KeepWatching;
    if !NotifyDue(cfg, e, w.now) {
      var e1 := SeenForNotify(cfg, e, w.now);
      SameFindings(cfg, e.watch, e1.watch, w.now);
      CheckingForRenewal(cfg, e1, l, w);
    }
  }

  lemma LookWhileNotifying(cfg: Config, e: Entry, l: Lock, w: World)
    requires e.state == NotifyingValidity && e.watch.autorenew
    ensures LookResult(cfg, e, w, StepMonitor(cfg, e, l, w).entry)
  {
    hide MonitorDelay, Noteworthy, Renew, KeepWatching;
    if Notify in e.live && w.ready {
      CheckingForRenewal(cfg, e.(live := e.live - {Notify}), l, w);
    }
  }

  lemma OneLook(cfg: Config, e: Entry, l: Lock, w: World)
    requires BeingWatched(e.state) && e.watch.autorenew
    ensures LookResult(cfg, e, w, StepEntry(cfg, e, l, w).entry)
  {
    hide MonitorDelay, Noteworthy;
    MonitoringStep(cfg, e, l, w);
    match e.state
    case Monitoring => LookWhileMonitoring(cfg, e, l, w);
    case NotifyingValidity => LookWhileNotifying(cfg, e, l, w);
    case _ =>
  }

  lemma {:induction false} CrossingRenews(cfg: Config, w: Watch, last: int, now: int, threshold: int)
    requires OldEnough(cfg, w, now) && threshold in cfg.enrollTtls
    requires Left(w.notAfter, now) < threshold <= Left(w.notAfter, last)
    ensures Noteworthy(cfg, w, cfg.enrollTtls, last, now)
  {
    var i :| 0 <= i < |cfg.enrollTtls| && cfg.enrollTtls[i] == threshold;
    assert Crossed(Left(w.notAfter, last), Left(w.notAfter, now), cfg.enrollTtls[i]);
  }

  // As long as nothing renews, the last check for renewal was made with at least
  // the threshold left: no matter how clocks go, or how often notices win.
  lemma {:induction false} LastCheckWasBefore(cfg: Config, e: Entry, l: Lock, events: seq<WatchEvent>, threshold: int)
    requires NeverRenews(cfg, e, l, events) && e.watch.autorenew && threshold in cfg.enrollTtls
    requires Left(e.watch.notAfter, e.watch.lastEnroll) >= threshold
    ensures var r := AfterAll(cfg, e, l, events);
            && BeingWatched(r.state) && SameWatch(r.watch, e.watch)
            && Left(r.watch.notAfter, r.watch.lastEnroll) >= threshold
    decreases |events|
  {
    hide StepEntry, InitEntry, DoneEntry;
    if events != [] {
      OneEvent(cfg, e, l, events[0], threshold);
      LastCheckWasBefore(cfg, Afterwards(cfg, e, l, events[0]), l, events[1..], threshold);
    }
  }

  lemma OneEvent(cfg: Config, e: Entry, l: Lock, ev: WatchEvent, threshold: int)
    requires BeingWatched(e.state) && BeingWatched(Afterwards(cfg, e, l, ev).state) && KeepsCertificate(e.watch, ev)
    requires e.watch.autorenew && threshold in cfg.enrollTtls && Left(e.watch.notAfter, e.watch.lastEnroll) >= threshold
    ensures var e1 := Afterwards(cfg, e, l, ev);
            SameWatch(e1.watch, e.watch) && Left(e1.watch.notAfter, e1.watch.lastEnroll) >= threshold
  {
    hide StepEntry, Noteworthy;
    match ev
    case Look(w) =>
      OneLook(cfg, e, l, w);
      if ChecksRenewal(cfg, e, w) && Left(e.watch.notAfter, w.now) < threshold {
        CrossingRenews(cfg, e.watch, e.watch.lastEnroll, w.now, threshold);
      }
    case Restart(_, _) =>
  }

  // No renewal is lost: if the last check was made with at least the threshold
  // left, the next one which is made with less renews, whatever came between.
  lemma NoRenewalIsLost(cfg: Config, e: Entry, l: Lock, events: seq<WatchEvent>, w: World, threshold: int)
    requires NeverRenews(cfg, e, l, events) && e.watch.autorenew && threshold in cfg.enrollTtls
    requires e.watch.notAfter != 0 && w.now - e.watch.notBefore >= cfg.monitorMin
    requires Left(e.watch.notAfter, e.watch.lastEnroll) >= threshold > Left(e.watch.notAfter, w.now)
    requires GetsToRenewal(cfg, AfterAll(cfg, e, l, events), w)
    ensures StepEntry(cfg, AfterAll(cfg, e, l, events), l, w).entry.state in {NeedKeyPair, NeedCsr}
  {
    hide StepEntry, InitEntry, DoneEntry, Noteworthy;
    LastCheckWasBefore(cfg, e, l, events, threshold);
    var r := AfterAll(cfg, e, l, events);
    CrossingRenews(cfg, r.watch, r.watch.lastEnroll, w.now, threshold);
    RenewsNow(cfg, r, l, w);
  }

  lemma RenewsNow(cfg: Config, e: Entry, l: Lock, w: World)
    requires ChecksRenewal(cfg, e, w) && Noteworthy(cfg, e.watch, cfg.enrollTtls, e.watch.lastEnroll, w.now)
    ensures StepEntry(cfg, e, l, w).entry.state in {NeedKeyPair, NeedCsr}
  {
    hide MonitorDelay, Noteworthy, LookedAt;
    MonitoringStep(cfg, e, l, w);
    var e1 := if e.state == Monitoring then SeenForNotify(cfg, e, w.now) else e.(live := e.live - {Notify});
    SameFindings(cfg, e.watch, e1.watch, w.now);
  }

  // Checks at given times, one after the other.

  function Fires(cfg: Config, w: Watch, ttls: seq<int>, last: int, now: int): nat {
    if Noteworthy(cfg, w, ttls, last, now) then 1 else 0
  }

  function Firings(cfg: Config, w: Watch, ttls: seq<int>, last: int, times: seq<int>): nat
    decreases |times|
  {
    if times == [] then 0
    else Fires(cfg, w, ttls, last, times[0]) + Firings(cfg, w, ttls, LookedAt(cfg, w, last, times[0]), times[1..])
  }

  // The number of thresholds still ahead.
  function Ahead(ttls: seq<int>, left: int): nat {
    if ttls == [] then 0 else (if ttls[0] <= left then 1 else 0) + Ahead(ttls[1..], left)
  }

  lemma {:induction false} AheadShrinks(ttls: seq<int>, before: int, after: int)
    requires after <= before
    ensures Ahead(ttls, after) <= Ahead(ttls, before) <= |ttls|
    ensures (exists i :: 0 <= i < |ttls| && after < ttls[i] <= before) ==> Ahead(ttls, after) < Ahead(ttls, before)
  {
    if ttls != [] {
      AheadShrinks(ttls[1..], before, after);
      if i :| 0 <= i < |ttls| && after < ttls[i] <= before {
        assert i > 0 ==> ttls[1..][i - 1] == ttls[i];
      }
    }
  }

  // Time goes forward, and the certificate does not expire.
  predicate Forward(w: Watch, last: int, times: seq<int>)
    decreases |times|
  {
    times == [] || (last <= times[0] < w.notAfter && Forward(w, times[0], times[1..]))
  }

  // Before expiry, with time going forward, the checks find something at most
  // once for each threshold which was ahead.
  lemma {:induction false} AtMostOncePerThreshold(cfg: Config, w: Watch, ttls: seq<int>, last: int, times: seq<int>)
    requires Forward(w, last, times)
    ensures Firings(cfg, w, ttls, last, times) <= Ahead(ttls, Left(w.notAfter, last)) <= |ttls|
    decreases |times|
  {
    AheadShrinks(ttls, Left(w.notAfter, last), Left(w.notAfter, last));
    if times != [] {
      var next := LookedAt(cfg, w, last, times[0]);
      AheadShrinks(ttls, Left(w.notAfter, last), Left(w.notAfter, next));
      if next != times[0] {
        ForwardFromEarlier(w, next, times[0], times[1..]);
      }
      AtMostOncePerThreshold(cfg, w, ttls, next, times[1..]);
    }
  }

  lemma ForwardFromEarlier(w: Watch, last: int, later: int, times: seq<int>)
    requires last <= later && Forward(w, later, times)
    ensures Forward(w, last, times)
  {
  }
}
