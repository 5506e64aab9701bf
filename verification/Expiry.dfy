/**
 The expiry scheduler: whether a certificate's remaining life crossed one of a
 list of thresholds since the last look at it, and how long to wait before
 looking again.  All times are in seconds.
 */
module Expiry {

  // The compile-time delays and the configured threshold lists.  A list that
  // cannot be read counts as empty, which is how the source treats it.
  datatype Config = Config(
    soon: int, soonish: int,
    monitorPoll: int, monitorMin: int, monitorMax: int,
    caPoll: int, caMin: int, caMax: int,
    cadataPoll: int,
    notifyTtls: seq<int>, enrollTtls: seq<int>,
    maxKeyUse: int)

  predicate ValidConfig(cfg: Config) {
    0 < cfg.soon && 0 < cfg.monitorMin <= cfg.monitorMax
  }

  // The parts of an entry the scheduler looks at.
  datatype Watch = Watch(
    notBefore: int, notAfter: int,
    lastNotify: int, lastEnroll: int,
    monitor: bool, autorenew: bool)

  // How much time is left at a given moment.
  function Left(notAfter: int, at: int): int {
    if notAfter < at then 0 else notAfter - at
  }

  // A threshold lies between two looks, in whichever direction time went.
  predicate Crossed(before: int, after: int, threshold: int) {
    (after < threshold <= before) || (before < threshold <= after)
  }

  // The certificate's validity is known, and it is at least the minimum age.
  predicate OldEnough(cfg: Config, w: Watch, now: int) {
    w.notAfter != 0 && w.notBefore <= now - cfg.monitorMin
  }

  // What a look with the given list and last-look time finds.
  predicate Noteworthy(cfg: Config, w: Watch, ttls: seq<int>, last: int, now: int) {
    && OldEnough(cfg, w, now)
    && ttls != []
    && ((exists i :: 0 <= i < |ttls| && Crossed(Left(w.notAfter, last), Left(w.notAfter, now), ttls[i]))
        || Left(w.notAfter, now) == 0)
  }

  // The last-look time after that look: it only moves if the certificate was
  // old enough for the look to get that far.
  function LookedAt(cfg: Config, w: Watch, last: int, now: int): int {
    if OldEnough(cfg, w, now) then now else last
  }

  // A moment at which exactly some positive threshold is left lies between two others,
  // or on the earlier of them.
  predicate Passed(notAfter: int, ttls: seq<int>, from: int, to: int) {
    exists i :: 0 <= i < |ttls| && ttls[i] > 0 && (from <= notAfter - ttls[i] < to || to <= notAfter - ttls[i] < from)
  }

  // What is found, in terms of the certificate's times.
  lemma NoteworthyMeans(cfg: Config, w: Watch, ttls: seq<int>, last: int, now: int)
    ensures Noteworthy(cfg, w, ttls, last, now) <==>
              && w.notAfter != 0 && now - w.notBefore >= cfg.monitorMin && ttls != []
              && (w.notAfter <= now || Passed(w.notAfter, ttls, last, now))
  {
    forall i | 0 <= i < |ttls|
      ensures Crossed(Left(w.notAfter, last), Left(w.notAfter, now), ttls[i]) <==>
                ttls[i] > 0 && (last <= w.notAfter - ttls[i] < now || now <= w.notAfter - ttls[i] < last)
    {
    }
  }

  method CheckExpiration(cfg: Config, w: Watch, ttls: seq<int>, lastCheck: int, now: int)
    returns (noteworthy: bool, newLastCheck: int)
    ensures noteworthy == Noteworthy(cfg, w, ttls, lastCheck, now)
    ensures newLastCheck == LookedAt(cfg, w, lastCheck, now)
    ensures w.notAfter == 0 || now - w.notBefore < cfg.monitorMin ==> !noteworthy && newLastCheck == lastCheck
    ensures w.notAfter != 0 && now - w.notBefore >= cfg.monitorMin ==>
              newLastCheck == now && (noteworthy <==> ttls != [] && (w.notAfter <= now || Passed(w.notAfter, ttls, lastCheck, now)))
  {
    hide Passed;
    NoteworthyMeans(cfg, w, ttls, lastCheck, now);
    newLastCheck := lastCheck;
    if w.notAfter == 0 {
      return false, newLastCheck;
    }
    if w.notBefore > now - cfg.monitorMin {
      return false, newLastCheck;
    }
    var ttl := if w.notAfter < now then 0 else w.notAfter - now;
    var previousTtl := if w.notAfter < lastCheck then 0 else w.notAfter - lastCheck;
    newLastCheck := now;
    if |ttls| == 0 {
      return false, newLastCheck;
    }
    for i := 0 to |ttls|
      invariant forall k :: 0 <= k < i ==> !Crossed(previousTtl, ttl, ttls[k])
    {
      if ttl < ttls[i] && previousTtl >= ttls[i] {
        return true, newLastCheck;
      }
      if ttl >= ttls[i] && previousTtl < ttls[i] {
        return true, newLastCheck;
      }
    }
    if ttl == 0 {
      return true, newLastCheck;
    }
    return false, newLastCheck;
  }

  // m is the largest threshold of the list which is positive and below the
  // remaining life, or 0 if there is none.
  predicate IsNextThreshold(m: int, remaining: int, ttls: seq<int>) {
    && (m == 0 || (0 < m < remaining && m in ttls))
    && forall t :: t in ttls && 0 < t < remaining ==> t <= m
  }

  function Larger(a: int, b: int): int {
    if a < b then b else a
  }

  function Clamp(low: int, high: int, x: int): int {
    var y := Larger(low, x);
    if high < y then high else y
  }

  // The delay before the next look, given the next threshold.
  function DelayTo(cfg: Config, remaining: int, next: int): int {
    if remaining <= 0 then cfg.monitorPoll
    else if next != 0 && cfg.monitorPoll > remaining - next + cfg.soon then remaining - next + cfg.soon
    else if remaining < 2 * cfg.monitorPoll then remaining / 2
    else cfg.monitorPoll
  }

  // The next threshold of two lists, as a value.
  function NextThreshold(remaining: int, ttls: seq<int>): (m: int)
    ensures remaining > 0 ==> IsNextThreshold(m, remaining, ttls)
  {
    if ttls == [] then 0
    else
      var rest := NextThreshold(remaining, ttls[1..]);
      assert ttls == [ttls[0]] + ttls[1..];
      if remaining > ttls[0] && ttls[0] > rest then ttls[0] else rest
  }

  // A remaining life of -1 is the source's "not known".
  function MonitorDelay(cfg: Config, remaining: int, ttls1: seq<int>, ttls2: seq<int>): int {
    Clamp(cfg.monitorMin, cfg.monitorMax,
          if remaining == -1 then cfg.monitorPoll
          else DelayTo(cfg, remaining, NextThreshold(remaining, ttls1 + ttls2)))
  }

  lemma NextThresholdIsUnique(m: int, n: int, remaining: int, ttls: seq<int>)
    requires 0 < remaining
    requires IsNextThreshold(m, remaining, ttls) && IsNextThreshold(n, remaining, ttls)
    ensures m == n
  {
  }

  method DecideMonitorDelay(cfg: Config, remaining: int, ttls1: seq<int>, ttls2: seq<int>) returns (delay: int)
    requires cfg.monitorMin <= cfg.monitorMax
    ensures cfg.monitorMin <= delay <= cfg.monitorMax
    ensures delay == MonitorDelay(cfg, remaining, ttls1, ttls2)
  {
    delay := cfg.monitorPoll;
    if remaining != -1 && remaining > 0 {
      var nextTtl := 0;
      if |ttls1| > 0 {
        for i := 0 to |ttls1|
          invariant IsNextThreshold(nextTtl, remaining, ttls1[..i])
        {
          assert ttls1[..i + 1] == ttls1[..i] + [ttls1[i]];
          if remaining > ttls1[i] && ttls1[i] > nextTtl {
            nextTtl := ttls1[i];
          }
        }
        assert ttls1[..|ttls1|] == ttls1;
      }
      assert IsNextThreshold(nextTtl, remaining, ttls1 + ttls2[..0]) by {
        assert ttls1 + ttls2[..0] == ttls1;
      }
      if |ttls2| > 0 {
        for i := 0 to |ttls2|
          invariant IsNextThreshold(nextTtl, remaining, ttls1 + ttls2[..i])
        {
          assert ttls1 + ttls2[..i + 1] == ttls1 + ttls2[..i] + [ttls2[i]];
          if remaining > ttls2[i] && ttls2[i] > nextTtl {
            nextTtl := ttls2[i];
          }
        }
      }
      assert ttls2[..|ttls2|] == ttls2;
      NextThresholdIsUnique(nextTtl, NextThreshold(remaining, ttls1 + ttls2), remaining, ttls1 + ttls2);
      if nextTtl != 0 && delay > remaining - nextTtl + cfg.soon {
        delay := remaining - nextTtl + cfg.soon;
      } else if remaining < 2 * delay {
        delay := remaining / 2;
      }
    }
    if delay < cfg.monitorMin {
      delay := cfg.monitorMin;
    }
    if delay > cfg.monitorMax {
      delay := cfg.monitorMax;
    }
  }

  // Division as C does it: the quotient is rounded towards zero.
  function Half(x: int): int {
    if x >= 0 then x / 2 else -((-x) / 2)
  }

  // How long to wait before asking the CA about a request again.
  function CaDelay(cfg: Config, remaining: int): int {
    if remaining != -1 && remaining < 2 * cfg.caPoll
    then Clamp(cfg.caMin, cfg.caMax, Half(remaining))
    else cfg.caPoll
  }
}
