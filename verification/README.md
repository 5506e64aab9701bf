# certmonger: the step system and its codecs, modelled and proved in Dafny

certmonger drives any number of certificate requests ("entries") and certificate
authorities (CAs) through long state machines which share one writing lock.  This
project models that step system, the expiry scheduler which drives it, and the
hand-written codecs and list builders it relies on, and proves what they are for.
`dafny verify dfyconfig.toml` checks all of it.

## The step system

`EntrySteps` and `CaSteps` are the specification: one look at an entry
(`cm_iterate_entry()`, all of its states) or at one of the eight data phases of a CA
(`cm_iterate_ca()`) as a function of the entry or phase, the lock, and what the
outside world answers.  A helper's outcome, the clock, what CA is chosen and
whether a certificate is there are such answers, and nothing is assumed about them.
A call of `abort()`, the use of a handle which is NULL, and the use of one which was
finished before are faults, so that their absence is something to prove.

`EntryMachine`, `CaMachine` and `WritingLock` are the same code in its own form:
objects whose fields the steps update in place, each method proved to do what the
specification says.  `Context` is `src/cm.c` over such objects.  `Daemon` puts the
specification functions together into one system with any number of entries and
CAs; a run is any sequence of visits (of timers and descriptors), starts, stops,
restarts, additions, removals, and changes made from outside to an entry which is
stopped.  The main results are about every state such a run can reach:

* no lock function ever reaches `abort()`, the owner of the lock is a started entry
  or CA phase, and the phase tag is set exactly while a CA owns it;
* at most one entry or phase is in work which needs the lock;
* a live entry has exactly the handle its state calls for; and
* it has an appointment unless it waits for an operator, and a started CA phase has
  one unless it is idle, disabled, or stuck before its save (`CaWakeups`).

What each step means is stated without naming the function which computes it.
`EntrySchedule` tells which helper an entry runs next from the helpers which are
started: what is due after every answer, what is waited for and who asked for it, and
what stopping and starting an entry makes it do again.  `EntryTiming` says when it is
looked at again.  `Issuance` follows a certificate over any run of looks, stops and
starts: once issued it is saved before anything else happens to the entry, and then
read back before anyone is told.  `CaSchedule` does for a CA phase what `EntrySchedule`
and `EntryTiming` do for an entry.  `Restarts` says which entries are restarted when a
CA has new data, and `Neighbours` that every action leaves all other entries, CAs and
phases alone.

`Progress` is about helpers which work: every visit to an unsettled entry, or to the
CA phase which owns the lock, either finds that another has the lock or lowers the
rank of the whole system.  `Settling` goes on from there: whatever working helpers
answer, and whichever hooks there are, someone can always go on, and some order of
visits brings every entry to rest, which means monitoring, or guidance for an entry
just added which has no place for its key, or having been rejected for one which was
being rejected.  `StartingUp` shows that a daemon which has just started is ready for
that.  `Expiry` and `ExpiryTheorems` are the
scheduler, `KeyUse` and `KeyRecords` the counting of certificates per key.

What the code does differently from what one would expect is stated, not assumed
away:

* After a certificate could not be saved, the entry is sent to start saving again
  without the lock, which it gave up before (`src/iterate.c:1534`, `1560-1565`); the
  exclusion result excepts exactly these entries, and `TwoSaveAtOnce` is a run from
  start-up after which two entries save at the same time.
* An entry which waits for permissions, a PIN, a token or guidance after taking the
  lock keeps it, and blocks everyone else until it is stopped
  (`WaitingWithLockBlocksOthers`, `WhoWaitsWithLock`).
* Stopping does not finish a certificate save or read, or a hook
  (`StopFinishesHelper`).
* A CA phase which cannot start its save keeps the lock and leaves the caller's
  appointment as it was (`SaveCanBeStuck`): `StuckSaveIsReached` is a run from
  start-up after which it sleeps with the lock.  One whose fetch cannot be started is
  finished through a null handle (`FetchHazardHappens`).
* A CA phase whose analysis has nothing to wait on is left with a handle which was
  finished, and stopping or removing the CA finishes it again
  (`StaleHandleHappens`); `StaleHandleIsReached` is a run from start-up which does.
* Putting an interrupted entry back is idempotent except from one state
  (`ResetIdempotence`).
* A look which falls on the very second a threshold is crossed is not taken for a
  crossing, and the next may be late (`CrossingIsSeenInTime`, `LandingIsLate`).
* A key generation which fails without leaving a new key zeroes the counter of the
  old one (`CountStaysExact`, `FailedGenerationMiscounts`).

## The codecs and lists

Text is a string of characters below 256, one for each byte.  `Utf8`, `JsonStrings`,
`JsonEscape`, `JsonValues` and `JsonDecoder` are `src/json.c`; the `...Trips` modules
prove that what is encoded is decoded again, and `JsonSpelling` and `JsonReads` what any
JSON text is decoded to, however it is spelled.  `Oid`, `OidTrips` and `OidMeaning` are the
object identifier functions of `src/certext.c`, `CertPipe`, `CertPipeMachine`,
`CertPipeTrips` and `CertPipeFields` the format of `src/certread.c`, `SaveLists` the list
of certificates for a file of `src/casave.c`, `LegacyCerts`, `LegacyTrips`, `CaData`,
`CaDataTrips` and `CaDocuments` the CA data pipeline of `src/cadata.c`, and `Hooks` and
`HookRuns` `src/hook.c`.  Each loop is a method proved against a function, and the results are
about that function.  Again the exceptions are exact:

* A string comes back from JSON exactly if every point beyond the basic plane in it
  has a low half of at most 0xdcff and five more bytes of escaped text after it.
* Dotted text comes back from its octets exactly if its second component is below 40
  and no subidentifier takes more than nine octets.
* What goes through the certificate pipe arrives unchanged except for the parts
  `PipeIsExact` lists: lists which were not there, addresses, a token which was not
  there, a path length without a CA flag, and the certificate's extra line feed.
* A message which begins like a number or a word of JSON is taken for a document,
  and so is one which begins with a quoted string, even if it is a list of certificates
  in the older form; then none of them reaches the CA (`ReachesUnlessADocument`).
* A user number outside 32 bits is cut when a hook is kept, but not when it is looked
  for.  A hook is in the list twice exactly if such a command comes after another which
  makes the same hook (`NoneTwiceMeans`); an entry which lists one file for
  the certificates of its CA's roots, and shares it with nobody, is enough
  (`ALonelyEntryRunsTwice`).
* A hook which does not start ends the run, and is taken for its success
  (`FailedStartSkipsTheRest`).

## Model

| member | source | states |
|---|---|---|
| `WritingLock.EntryOperations` | src/iterate.c:389-419 | Locking and unlocking by an entry keep tag and owner consistent, and unlocking undoes locking. |
| `WritingLock.CaOperations` | src/iterate.c:421-461 | The same for a CA phase. |
| `EntryStates.ResetIdempotence` | src/iterate.c:75-279 | Putting an entry back twice is putting it back once, exactly unless it was sending an expiration notice. |
| `EntryStates.ResetNeedsNothing` | src/iterate.c:75-279 | A state an entry is put back to has no helper, needs no lock, and waits for nobody unless the entry did before. |
| `Expiry.CheckExpiration` | src/iterate.c:509-564 | A certificate whose end is not known, or which is younger than the minimum, is not noteworthy and keeps its last check; for any other the check is noted, and something is found exactly if there are thresholds and the certificate is over or past one of them since the last check. |
| `Expiry.NoteworthyMeans` | src/iterate.c:509-564 | The same, of the comparisons the loop makes. |
| `Expiry.DecideMonitorDelay` | src/iterate.c:324-366 | The loops over both lists choose a delay within the limits, the one `NextLookIs` writes out. |
| `Expiry.NextThresholdIsUnique` | src/iterate.c:335-352 | Being the largest positive threshold below the remaining life, or 0, determines the threshold aimed for. |
| `ExpiryTheorems.DelayAimsForNext` | src/iterate.c:324-366 | The threshold aimed for is the largest positive one of either list still ahead; the delay is within its limits and leads past that threshold by no more than the short delay, unless the minimum does. |
| `ExpiryTheorems.NextLookIs` | src/iterate.c:324-366 | An entry which needs nothing is looked at again shortly after the next threshold, or when half of its life is over, or after the usual time, each within the limits. |
| `ExpiryTheorems.YoungIsLeftAlone` | src/iterate.c:509-529 | A look at a certificate whose end is not known, or which is younger than the minimum, changes nothing. |
| `ExpiryTheorems.LookFinds` | src/iterate.c:1407-1434 | A look sends a notice, renews, renews with a new key, or goes on watching, each exactly if the certificate's times, the entry's settings and the use of its key call for it. |
| `ExpiryTheorems.LookAfterNotice` | src/iterate.c:1454-1485 | After a notice the same is decided about renewal, from its own last check. |
| `ExpiryTheorems.CrossingIsSeenInTime` | src/iterate.c:1407-1434 | Over punctual steps of an entry whose certificate is at least as old as the minimum, the first look after a threshold ends the watching, and is late by at most the larger of the short delay and the minimum exactly unless a look fell on the second of the crossing and was given a longer delay. |
| `ExpiryTheorems.LandingIsLate` | src/iterate.c:324-366 | With the package's own settings, an entry looked at 29 days before the end is punctually looked at on the second of the crossing and then a day later, where the bound is half an hour. |
| `ExpiryTheorems.LastCheckWasBefore` | src/iterate.c:1407-1475 | As long as nothing renews, the last check for renewal was made with at least the threshold left, however often notices win, the entry is restarted, or the clock is changed. |
| `ExpiryTheorems.NoRenewalIsLost` | src/iterate.c:1407-1475 | After such a run, the first check for renewal of a certificate at least as old as the minimum, with less than the threshold left, renews. |
| `ExpiryTheorems.AtMostOncePerThreshold` | src/iterate.c:509-564 | With time going forward and before expiry, checks find something at most once for each threshold which was ahead. |
| `EntrySafety.StepIsGood` | src/iterate.c:602-2235 | One look at a sound entry never faults, leaves it sound, changes the lock only by its own move, and leaves an appointment unless the entry waits for an operator. |
| `EntrySchedule.StepFollowsSchedule` | src/iterate.c:637-2221 | A look starts no helper but the one which is due, or a hook, and that stays due unless a helper has finished or something is decided. |
| `EntrySchedule.FirstStartedIsDue` | src/iterate.c:637-2221 | Over any number of looks in which no helper finishes and nothing is decided, the first helper started, hooks apart, is the one which was due, whatever the locks and however often starting fails. |
| `EntrySchedule.AnswersLead` | src/iterate.c:637-2221 | What every answer of every helper leads to: the wait for an operator it calls for, or the helper which is due next, or monitoring. |
| `EntrySchedule.WaitsExactly` | src/iterate.c:637-2221 | An entry comes to wait for an operator exactly if the helper lacks just what is waited for, the CA's answer calls for it, or a decision leaves nothing else. |
| `EntrySchedule.AddedGoes` | src/iterate.c:2057-2215 | What is decided about an entry which was just added: one with a certificate is not given another, and a key which is there is not made again. |
| `EntrySchedule.RestartResumes` | src/iterate.c:75-279 | Stopping and starting an entry makes it do again what it was doing or what was waiting for an operator; one just added is looked for again, and a notice of expiry is decided about again. |
| `EntryTiming.RunningIsWaitedFor` | src/iterate.c:637-2221 | While a helper runs the entry stays as it is and waits for its descriptor, or is looked at soon if there is none. |
| `EntryTiming.StartingHelper` | src/iterate.c:637-2221 | Where a helper has to be started, the one which is due is, or the entry stays as it is and is looked at somewhat later. |
| `EntryTiming.LockIsWaitedFor` | src/iterate.c:638-1935 | While another has the lock which is needed nothing changes, and the entry is looked at again soon. |
| `EntryTiming.AnswerIsPrompt` | src/iterate.c:637-2221 | After an answer the entry is looked at again at once if the helper succeeded or an operator is waited for, and somewhat later if it failed. |
| `EntryTiming.SubmissionIsPrompt` | src/iterate.c:1027-1146 | When the entry is looked at again after each answer of a CA. |
| `EntryTiming.NoticeIsPrompt` | src/iterate.c:1510-1762 | The same after a notice. |
| `EntryTiming.HookComesFirst` | src/iterate.c:1148-1180 | The hook before a save runs first, with the lock in the entry's hands. |
| `EntryTiming.GoesOnAtOnce` | src/iterate.c:735-1278 | Where there is no helper to wait for or to start the entry goes on at once. |
| `EntryTiming.AskedAgain` | src/iterate.c:1060-1405 | A CA which cannot be reached or is still working is asked again: the event is a timer of the delay it asked for, or of half the life which is left, within limits, and two looks later the request is being submitted. |
| `Issuance.IssuedIsSaved` | src/iterate.c:1031-1278 | Whatever happens after the CA has issued a certificate, the entry is about to save it, saving it, or waiting to be able to, until one more certificate has been saved. |
| `Issuance.SavedIsReadBack` | src/iterate.c:1264-1380 | Whatever happens after a certificate was saved, until it has been read back the entry saves the certificates of its CA, reads, or waits to be able to. |
| `Issuance.ReadIsTaken` | src/iterate.c:1309-1380 | A certificate which was read gives the entry its validity, and the hook after saving runs if it can be started. |
| `CaSteps.CaStepIsGood` | src/iterate.c:2315-2812 | The same for a CA phase, but for the hazards named. |
| `CaSchedule.StepFollowsSchedule` | src/iterate.c:2315-2812 | A look at a phase starts no helper but the one which is due, or a hook, and that stays due unless a helper has finished or is given up. |
| `CaSchedule.FirstStartedIsDue` | src/iterate.c:2315-2812 | Over any number of such looks the first helper started, hooks apart, is the one which was due: new certificates are saved before they are analyzed. |
| `CaSchedule.DueIsStarted` | src/iterate.c:2337-2789 | Where the helper which is due, or a hook, can be started it is, the first hook with the lock in the phase's hands. |
| `CaSchedule.RunningIsWaitedFor` | src/iterate.c:2387-2789 | While a helper runs the phase stays as it is and waits for its descriptor, or is looked at soon. |
| `CaSchedule.AnswersLead` | src/iterate.c:2387-2789 | What every answer of every helper of a phase leads to, and the timer which is set: the delay the helper asked for, or one of the daemon's own. |
| `CaSteps.FetchHazardHappens` | src/iterate.c:2337-2384 | A CA phase whose fetch cannot be started is finished through a null handle. |
| `CaSteps.StaleHandleHappens` | src/iterate.c:2671-2789 | Stopping a phase after its analysis was started finishes its handle a second time exactly if there was nothing to wait on. |
| `DaemonSafety.BootIsGood` | src/cm.c:772-829 | Start-up from any stored entries and CAs reaches a state which meets the invariant, without a fault. |
| `DaemonSafety.PerformIsGood` | src/cm.c:421-590 | Every action keeps the invariant, and faults only if it is one of the named hazards of a CA phase. |
| `Neighbours.OthersAreLeftAlone` | src/cm.c:421-960 | An action about one entry or phase sets it up or looks at it once, and leaves every other entry, CA and phase, and all they wait for, as they were; one which is added comes last, and one which is removed leaves no gap. |
| `Neighbours.StartedPhaseFetches` | src/iterate.c:2286-2384 | A phase which is started gives up a lock it had, and fetches. |
| `Restarts.ExactlyItsEntries` | src/cm.c:945-960 | Restarting the entries of a CA leaves every entry which names another CA, or none, as it was; one which names it is put back and looked at once, under the lock its predecessors left, and gets the appointment of that look. |
| `Restarts.VisitRestartsItsEntries` | src/iterate.c:2387-2416 | A visit to a phase which finds new data, other than the CA's certificates, restarts exactly the entries which name the CA; any other visit leaves every entry as it was. |
| `DaemonSafety.RunIsGood` | src/cm.c:859-1206 | So does every run; it faults exactly if one of the hazards happens in it. |
| `DaemonSafety.ReachedIsGood` | src/cm.c:772-1206 | So does every state reached from start-up by any run. |
| `DaemonSafety.EntriesNeverFault` | src/cm.c:421-500 | A run which is about entries never faults, whatever the entries of the system do. |
| `DaemonSafety.LockIsAlwaysLive` | src/iterate.c:379-461 | In every reached state the owner is a started entry or CA phase, the tag is set exactly while a CA owns the lock, and no abort() was reached. |
| `DaemonSafety.PhaseHoldsWhileSaving` | src/iterate.c:2520-2670 | In every reached state a CA phase owns the lock exactly from preparing its save to having saved. |
| `DaemonSafety.HandlesMatchAndNobodySleeps` | src/iterate.c:465-506 | In every reached state a live entry has exactly the handle of its state, others have none, and an entry without an appointment waits for an operator. |
| `DaemonSafety.MutualExclusion` | src/iterate.c:638-2066 | In every reached state at most one entry or CA phase is in work which needs the lock, not counting the save-failed retry. |
| `SaveRetry.TwoSaveAtOnce` | src/iterate.c:1522-1575 | The exception happens: a run of seven visits from start-up, without a fault, ends with two entries saving their certificates while only one owns the lock. |
| `DaemonSafety.WhoWaitsWithLock` | src/iterate.c:1225-1244 | Which entries can wait for an operator while they own the lock: those whose save lacked something, whose CA save lacked permissions, or who lack guidance, and never after the retry. |
| `DaemonSafety.WaitingWithLockBlocksOthers` | src/iterate.c:1264-1278 | Over any sequence of visits such an entry keeps the lock, and an entry about to take it gets nowhere. |
| `DaemonSafety.StopFinishesHelper` | src/iterate.c:2238-2284 | Stopping finishes the helper which is running exactly unless the state is one which saves or reads a certificate or runs a hook. |
| `DaemonSafety.SaveCanBeStuck` | src/iterate.c:2568-2584 | A phase which cannot start its save keeps the lock, and has no appointment if the caller's variable happened to hold none. |
| `CaWakeups.NoPhaseSleeps` | src/cm.c:503-590 | In every state reached without a fault a started CA phase without an appointment is idle or disabled, or stuck at the start of its save; never the latter if no look on the way found itself unable to start a save while the caller's variable held no appointment. |
| `CaWakeups.StaleHandleIsReached` | src/iterate.c:2671-2837 | A run of four actions from start-up ends with the use of a handle which was finished. |
| `CaWakeups.StuckSaveIsReached` | src/iterate.c:2568-2584 | A run of four actions from start-up leaves a phase at the start of its save with the lock and without an appointment. |
| `Progress.StepAdvances` | src/iterate.c:637-2221 | With working helpers, and with or without hooks, a look at an unsettled entry either waits for the lock of another or strictly lowers the entry's rank. |
| `Progress.VisitLowers` | src/cm.c:421-590 | With working helpers a visit to an unsettled entry or to the CA phase which owns the lock lowers the rank of the system unless it waits for the lock, and keeps the system working. |
| `Progress.ProductiveVisitsAreBounded` | src/cm.c:421-590 | Over any run of such visits the number of those which did not wait, and the rank left, are together at most the rank at the start. |
| `Settling.StepLeads` | src/iterate.c:637-2221 | With working helpers a look at an unsettled entry leads to waiting for an operator only from deciding about an entry without a place for its key, or after a notice of rejection. |
| `Settling.SmoothRunsLeadWell` | src/cm.c:421-590 | So does every run of such visits: whoever ends up waiting was waiting before, was just added without a place for its key, or was being rejected. |
| `Settling.SettledMeansAtRest` | src/iterate.c:637-2221 | Such a run which leaves nobody unsettled leaves every started entry in monitoring, or at rest for one of these reasons. |
| `Settling.SomeoneCanGoOn` | src/iterate.c:379-461 | Unless every entry is settled there is someone to visit, with an appointment waiting, who does not have to wait for the lock, whatever working helpers answer. |
| `Settling.EveryoneCanSettle` | src/iterate.c:637-2221 | From every working state, whatever working helpers answer and whichever hooks there are, some order of no more visits than the rank brings every entry to rest where it should be. |
| `StartingUp.BootIsWorking` | src/cm.c:772-829 | A daemon which has started up, whatever was stored and whatever happened on the first visits, is in a working state. |
| `StartingUp.EveryoneSettlesAfterBoot` | src/cm.c:772-829 | So from start-up on some order of visits brings every entry to rest. |
| `KeyUse.PromotionCounts` | src/certsave-o.c:430-452 | Saving a certificate keeps the counter equal to the number of certificates saved with the current key. |
| `KeyUse.CleaningUpCounts` | src/keygen-o.c:459-502 | Cleaning up after key generation keeps it so exactly unless generation failed, left no new key, and the old one had been used. |
| `KeyUse.CountStaysExact` | src/iterate.c:666-722 | Every action on an entry keeps the counter exact, exactly but for that one. |
| `KeyUse.CountIsExact` | src/certsave-o.c:430-452 | Over any run of successful generations the counter is the number of certificates saved with the current key. |
| `KeyUse.FailedGenerationMiscounts` | src/keygen-o.c:459-502 | The exception happens: the counter goes back to zero while the key stays. |
| `KeyUse.ActionKeepsWithinUse` | src/iterate.c:567-600 | No action, even with failing helpers, leads beyond the maximum use of a key, or to using a key with no room left. |
| `KeyUse.UseIsBounded` | src/iterate.c:567-600 | Over any run the counter never exceeds the maximum. |
| `KeyUse.CertificatesPerKey` | src/iterate.c:1424-1467 | With successful generations no more certificates than the maximum are saved with one key. |
| `KeyRecords.TakeApart` | src/keygen-o.c:459-502 | The moving pointers find the three lines of a report, the last of which may be missing. |
| `KeyRecords.ReportRoundTrip` | src/keygen-o.c:459-502 | A printed report is taken apart into what was printed exactly unless its public key is empty while there is a marker. |
| `KeyRecords.KeyRecord.GenerationDone` | src/keygen-o.c:459-502 | What a report leaves in the entry's key fields, the counter among them. |
| `KeyRecords.KeyRecord.CertificateSaved` | src/certsave-o.c:430-452 | A save which succeeded makes a candidate key the current one and starts its count, or adds one to the count; any other changes nothing. |
| `Utf8.PointToUtf8Length` | src/json.c:552-569 | The loop computes the length of a point. |
| `Utf8.LengthIsShortest` | src/json.c:552-569 | The length is the shortest there is room in, between one and six. |
| `Utf8.BytesAre` | src/json.c:572-594 | The bytes of every point, written out. |
| `Utf8.PointToUtf8` | src/json.c:572-594 | Exactly the bytes of the point are written, as many as predicted, and nothing else changes. |
| `Utf8.Utf8ToPoint` | src/json.c:348-394 | The point and its length are read as specified, or the error is. |
| `Utf8.PointRoundTrip` | src/json.c:348-594 | Reading the bytes of any point below 2^31 which is no surrogate gives the point and its length. |
| `JsonStrings.TwoWalks` | src/json.c:614-758 | If the second walk succeeds, it writes exactly as many bytes as the first counted. |
| `JsonStrings.HexDigitIsPosition` | src/json.c:601-634 | The value of a hexadecimal digit is half its position in the source's table. |
| `JsonStrings.ReadUnicodeAt` | src/json.c:625-657 | A \u escape, with a low half after it, is read as specified. |
| `JsonStrings.FindClosingQuote` | src/json.c:614-679 | The first walk finds the closing quote and counts the bytes, or stops where the text went wrong. |
| `JsonStrings.WriteString` | src/json.c:680-758 | The second walk fills a buffer of the counted size and never goes beyond it. |
| `JsonStrings.DecodeString` | src/json.c:596-759 | Both walks together read the string the specification says, or nothing. |
| `JsonEscape.EscapeFits` | src/json.c:405-478 | Escaped text never takes more than its bytes and twelve more for each that needs an escape. |
| `JsonEscape.Escape` | src/json.c:396-478 | The escaper stays within its buffer, and writes the escaped form or refuses, also where a surrogate was encoded and more is printed than kept. |
| `JsonStringTrips.ValidTextIsQuoted` | src/json.c:396-478 | The UTF-8 of any Unicode text is never refused, and is escaped point by point. |
| `JsonStringTrips.StringRoundTrip` | src/json.c:596-759 | An escaped string is read back, up to its closing quote, exactly if it survives; otherwise nothing is read. |
| `JsonStringTrips.SomeStringsDoNotSurvive` | src/json.c:655-714 | Both ways not to survive happen: a low half above 0xdcff, and too little text after a pair. |
| `JsonSpelling.SpellingIsRead` | src/json.c:596-759 | Any quoted string is read as what its pieces mean: bytes as they are, each escaped character, points of four digits, and pairs of halves which the reader accepts. |
| `JsonValues.PrintValue` | src/json.c:481-550 | The printer gives the text of a value, also where part of it cannot be printed. |
| `JsonValues.SetThenGet` | src/json.c:256-304 | What was set in an object is found, and every other member is as it was. |
| `JsonDecoder.DecodeJson` | src/json.c:771-1090 | The recursive decoder ends, returns 0 exactly when it has produced a value, and produces the value and position specified. |
| `JsonReads.TextIsDecoded` | src/json.c:771-1090 | Any JSON text, with spaces wherever they may be, any escapes and any numbers, is decoded to the value it stands for, and consumed whole. |
| `JsonReads.MissingFirst` | src/json.c:1064-1089 | Which number is returned for a text with no value in it, or which ends after an opening bracket or brace. |
| `JsonReads.MissingColon` | src/json.c:1064-1089 | The same for a text which ends after a key. |
| `JsonReads.MissingClose` | src/json.c:1064-1089 | The same for a text which ends after an item or a member. |
| `JsonReads.MissingNext` | src/json.c:1064-1089 | The same for a text which ends after a comma. |
| `JsonTrips.RoundTrip` | src/json.c:481-1090 | A faithful value is printed, and decoding that text, wherever it stands and whatever ends it, gives the value and skips the spaces after it. |
| `JsonTrips.WholeRoundTrip` | src/json.c:481-1090 | Decoding the printed text of a faithful value gives the value and consumes all of it. |
| `JsonTrips.PrintingIsInjective` | src/json.c:481-550 | Different faithful values are never printed alike. |
| `Oid.OidToString` | src/certext.c:329-366 | The accumulator loop prints the identifier as specified, or refuses it. |
| `Oid.OidFromString` | src/certext.c:369-445 | Reading, merging the first two components, spooling and reversing in place give the octets specified. |
| `Oid.TenOctets` | src/certext.c:413-421 | No component takes more than the ten octets allocated for it. |
| `Oid.Spool` | src/certext.c:413-433 | The spooled octets of n components stay within ten each, and are the encoding backwards. |
| `Oid.ReverseInPlace` | src/certext.c:434-440 | The first octets of the buffer are reversed in place. |
| `OidTrips.OctetsRoundTrip` | src/certext.c:329-445 | Any minimal encoding with subidentifiers of at most nine octets comes back from its text. |
| `OidTrips.TextRoundTrip` | src/certext.c:329-445 | Dotted text of two or more components comes back from its octets exactly if the second is below 40 and no subidentifier takes more than nine octets. |
| `OidMeaning.TextBecomes` | src/certext.c:369-445 | Dotted text becomes the octets, and no others, which hold forty times the first component and the second in one subidentifier and then the rest, as X.690 has it. |
| `OidMeaning.OctetsBecome` | src/certext.c:329-366 | Octets which hold such subidentifiers are printed as those components. |
| `CertPipeMachine.CertFields.Write` | src/certread.c:103-197 | The printer writes one line for each value, and the certificate last. |
| `CertPipeMachine.CertFields.Read` | src/certread.c:200-460 | The parser's loop over lines assigns the fields as specified. |
| `CertPipeMachine.ReadItems` | src/certread.c:261-290 | The loop over one line finds its items between commas. |
| `CertPipeMachine.WriteList` | src/certread.c:103-197 | A list is written as one line of encoded items. |
| `CertPipeTrips.PipeRoundTrip` | src/certread.c:103-460 | Reading what was written gives every field, but for the exceptions, which are computed. |
| `CertPipeTrips.PipeIsExact` | src/certread.c:196-454 | It gives back exactly what was written if and only if none of the exceptions is in it. |
| `CertPipeFields.LinesAreFields` | src/certread.c:200-460 | Which line of the report is which field, and how it is read; every other field stays as it was. |
| `SaveLists.CertList.AddCert` | src/casave.c:358-388 | A pair is appended unless it is there already, at whatever level. |
| `SaveLists.BuildFileSaveCerts` | src/casave.c:659-737 | The list is the one made by adding, class by class, what every CA, every entry which names it, and every entry itself has for the file, despite the flags and the early end of the search; it holds a pair exactly if the definition wants it, and none twice. |
| `SaveLists.DefinitionFixesPairs` | src/casave.c:659-737 | Any two lists which meet the definition hold the same pairs. |
| `SaveLists.WantedAsRoot` | src/casave.c:659-737 | The definition for roots, with every field written out. |
| `SaveLists.WantedAsOtherRoot` | src/casave.c:659-737 | The same for other roots. |
| `SaveLists.WantedAsOther` | src/casave.c:659-737 | The same for other certificates. |
| `NickCerts.NickCertListCmp` | src/cadata.c:155-197 | Two lists compare equal exactly if both are NULL or both hold the same set of pairs. |
| `LegacyCerts.TakeOutReturns` | src/cadata.c:242-244 | Taking carriage returns before line feeds out one at a time takes out all of them. |
| `LegacyCerts.ParseOldCertList` | src/cadata.c:200-258 | The loop reads one list of pairs as specified, and where it ends, or finds the text malformed. |
| `LegacyTrips.LegacyRoundTrip` | src/cadata.c:200-402 | Three lists written in the older form are read back exactly if none is empty before another. |
| `CaData.ParseJsonCertList` | src/cadata.c:261-310 | The loop gives the pairs among an array's items, skipping all others, or NULL if there are none. |
| `CaData.ParseOldCerts` | src/cadata.c:315-399 | The three lists, as far as they can be read, become the members of a document, empty ones left out. |
| `CaData.Fetch.ParseCerts` | src/cadata.c:315-402 | A message becomes the text of the document it is, or is made into. |
| `CaData.Fetch.PostprocessCerts` | src/cadata.c:422-449 | The document's lists become the CA's, and "modified" is set exactly if one differs as a set of pairs; a text which is no document changes nothing. |
| `CaDataTrips.LegacyReachesTheCa` | src/cadata.c:200-449 | What is read from a message in the older form is, printed and read back, exactly the lists the CA is given. |
| `CaDataTrips.DocumentReachesTheCa` | src/cadata.c:315-449 | A faithful document reaches the CA as it is. |
| `CaDataTrips.DocumentIsReread` | src/cadata.c:404-431 | A printed document with a line feed after it holds no NUL and is read back whole. |
| `CaDataTrips.ReachesUnlessADocument` | src/cadata.c:315-449 | What the older form holds reaches the CA exactly if the message is not taken for a document; one which is no object holds no lists. |
| `CaDataTrips.TakenForADocument` | src/cadata.c:322-323 | A message which begins, after spaces, with no bracket or brace is taken for a document exactly if it begins with a quoted string, a number or a word of JSON. |
| `CaDataTrips.NumericNicknamesAreLost` | src/cadata.c:315-449 | It happens: lists which could be read, but whose first nickname begins with a digit, do not reach the CA. |
| `CaDocuments.DocumentLists` | src/cadata.c:422-449 | With the names written out: the lists the CA is given of a document are those of the certificates under "roots", "other-roots" and "other", each with a "nickname" and a "certificate". |
| `CaDocuments.LegacyDocument` | src/cadata.c:315-402 | The first, second and third list of the older form are found under these names in the document made of it. |
| `Hooks.HookList.Add` | src/hook.c:163-227 | A hook is linked at the tail unless its text cannot be parsed or it is found in the list. |
| `Hooks.HookList.AddIfMatch` | src/hook.c:229-248 | The loops add the hook once for every pair of locations the lists have in common. |
| `Hooks.HookList.Collect` | src/hook.c:250-336 | The hooks of all CAs and then of all entries are added, in order, as often as they store something in the given places; a hook is in the list afterwards exactly if it was before or is the command, before or after saving as asked for, of one which stores there. |
| `Hooks.HooksToRun` | src/hook.c:338-471 | The list holds, for each of the four kinds of hook with its command written out, exactly the hooks of those who share a place with the subject, and the entry's own unless it is a CA's, in the order `ListedInOrder` gives. |
| `Hooks.ListedMeansShared` | src/hook.c:250-471 | A hook is in that list exactly if it belongs to a CA or entry which shares a file or database with the one at hand, or is the entry's own. |
| `Hooks.ListedByKind` | src/hook.c:250-471 | The same for each of the four kinds of hook with the fields written out: before a save the commands before saving, after it those after saving, and no own command for a CA. |
| `Hooks.ListedInOrder` | src/hook.c:250-471 | The hooks found at the places for roots come first, CAs before entries, then those only found at the places for other roots, then those for other certificates, and the entry's own last. |
| `Hooks.UserIsKept` | src/hook.c:163-227 | A hook's user is the number given, modulo 2^32; there is no hook without a command or a user, or if anything follows the number. |
| `Hooks.NoneTwiceMeans` | src/hook.c:163-227 | No hook is in the list twice exactly if no command whose user number does not fit comes after another which makes the same hook. |
| `Hooks.ALonelyEntryRunsTwice` | src/hook.c:338-371 | It happens: the hook of an entry with such a user number, which lists one file for the certificates of its CA's roots and shares it with nobody, is in the list twice. |
| `HookRuns.StartHooks` | src/hook.c:132-161 | There is a run exactly if there are hooks and the first starts. |
| `HookRuns.HookState.Ready` | src/hook.c:482-512 | One call moves along the list as specified, and notes what was started. |
| `HookRuns.HooksRunInOrder` | src/hook.c:482-512 | As long as starts succeed, the hooks started are the first of the list, one more than have ended. |
| `HookRuns.ReadyAfterTheLast` | src/hook.c:482-512 | As long as starts succeed, a call reports that all is done exactly if the last process has ended. |
| `HookRuns.ReadyMeansAllStarted` | src/hook.c:482-512 | After any calls, one which reports that all is done has had every hook started, once and in order, exactly if no start has failed. |
| `HookRuns.FailedStartSkipsTheRest` | src/hook.c:494-510 | A start which fails is reported as all done with hooks left over, which no later call starts. |
| `WritingLock.TheLock.LockEntry` | src/iterate.c:389-403 | Unless it has the lock already, which aborts, an entry gets the lock exactly if nobody has it; otherwise the lock stays as it was. |
| `WritingLock.TheLock.UnlockEntry` | src/iterate.c:405-419 | Unless nobody has the lock, which aborts, an entry gives it up exactly if it has it; otherwise the lock stays as it was. |
| `WritingLock.TheLock.LockCa` | src/iterate.c:421-441 | Unless it has the lock already, which aborts, a CA phase gets the lock, with its tag, exactly if nobody has it. |
| `WritingLock.TheLock.UnlockCa` | src/iterate.c:443-461 | Unless nobody has the lock, which aborts, a CA phase gives up lock and tag exactly if they are its own. |
| `EntryMachine.StoreEntry.Iterate` | src/iterate.c:602-2235 | One look at the entry object, in any state, does to it and to the lock what the specification says, and asks for the same appointment; what that is `EntrySchedule`, `EntryTiming`, `Issuance` and `ExpiryTheorems` state. |
| `EntryMachine.StoreEntry.IterateKeyPair` | src/iterate.c:638-742 | The same for the states of key generation. |
| `EntryMachine.StoreEntry.IterateKeyinfo` | src/iterate.c:744-812 | The same for the states of reading the key. |
| `EntryMachine.StoreEntry.IterateCsr` | src/iterate.c:814-884 | The same for the states of making the signing request. |
| `EntryMachine.StoreEntry.IterateScep` | src/iterate.c:932-1025 | The same for the states of making SCEP data. |
| `EntryMachine.StoreEntry.IterateSubmit` | src/iterate.c:886-1146 | The same for the states of submission; what each answer means is stated by `AnswersLead`, `IssuedIsSaved` and `AskedAgain`. |
| `EntryMachine.StoreEntry.FinishSubmission` | src/iterate.c:1027-1146 | The end of a submission does what the specification says; what each answer leads to and when the entry asks again is stated by `AnswersLead`, `WaitsExactly`, `SubmissionIsPrompt` and `AskedAgain`. |
| `EntryMachine.StoreEntry.IterateSaveCert` | src/iterate.c:1148-1278 | The same for the states of saving the certificate. |
| `EntryMachine.StoreEntry.IterateReadCert` | src/iterate.c:1279-1380 | The same for the states of reading it back. |
| `EntryMachine.StoreEntry.IterateMonitor` | src/iterate.c:1407-1485 | The same for the states of watching for expiry. |
| `EntryMachine.StoreEntry.IterateNotify` | src/iterate.c:1487-1762 | The same for the states of sending notices. |
| `EntryMachine.StoreEntry.IterateSaveCaCerts` | src/iterate.c:1577-1852 | The same for the states of saving CA certificates. |
| `EntryMachine.StoreEntry.IterateNewlyAdded` | src/iterate.c:1908-2215 | The same for the states of an entry which was just added. |
| `EntryMachine.StoreEntry.Init` | src/iterate.c:464-506 | Setting up puts the state back, leaves no handle, and lets go of the lock. |
| `EntryMachine.StoreEntry.Done` | src/iterate.c:2238-2284 | Taking down finishes the handles it finishes, forgets the others, lets go of the lock, and puts the state back. |
| `CaMachine.PhaseTask.Iterate` | src/iterate.c:2315-2812 | One look at the phase object does what the specification says, moves the lock only by its own move, and leaves an appointment but in the named cases; what it means is stated by `CaSchedule` and `Restarts`. |
| `CaMachine.PhaseTask.IterateRefresh` | src/iterate.c:2337-2519 | The same for the states of refreshing; which answers restart entries is stated by `VisitRestartsItsEntries`, and what each leads to by `AnswersLead`. |
| `CaMachine.PhaseTask.IterateSave` | src/iterate.c:2520-2670 | The same for the states of saving. |
| `CaMachine.PhaseTask.IterateAnalyze` | src/iterate.c:2671-2789 | The same for the states of analysis. |
| `CaMachine.PhaseTask.Init` | src/iterate.c:2286-2313 | Setting a phase up lets go of a lock it had. |
| `CaMachine.PhaseTask.Done` | src/iterate.c:2814-2860 | Taking a phase down finishes its handles and lets go of a lock it had. |
| `Context.DaemonContext.ServiceEntry` | src/cm.c:421-500 | Servicing number i does to the array of entry objects and their events what the system's specification says. |
| `Context.DaemonContext.StopEntry` | src/cm.c:885-904 | The same for stopping. |
| `Context.DaemonContext.StartEntry` | src/cm.c:860-882 | The same for starting. |
| `Context.DaemonContext.RestartEntry` | src/cm.c:938-942 | The same for restarting. |
| `Context.DaemonContext.RestartEntriesByCa` | src/cm.c:945-960 | The loop does what the specification says, which is to restart every entry which names the CA, and no other, as `ExactlyItsEntries` states. |
| `Context.DaemonContext.AddEntry` | src/cm.c:598-677 | An added entry comes last, and is started. |
| `Context.DaemonContext.RemoveEntry` | src/cm.c:907-935 | A removed entry is stopped and leaves no gap; if its file stays, so does it. |

## Left out

- The bodies of helper processes, cryptography, D-Bus, LDAP, Kerberos, HTTP, and the command line: a helper is what it answers.
- Choosing the CA for an entry which was just added, its key's presence, and other answers of stored data: they are inputs of a step, whatever they are.
- Looking entries and CAs up by nickname or bus name: an entry or CA is known by its number, and what is not there is not acted on.
- tevent's timers and descriptors: an event is that an appointment is kept; a network change, which resubmits an entry, is a stop and a start.
- The variable `cm_iterate_ca()` leaves unset is an arbitrary input.
- At start-up CAs are set up when they are first started, not together with the entries; neither looks at the other in between.
- Context.DaemonContext.ServiceEntry: CAs are values here while entries are objects, so that one CA object shared by two places is not captured.
- Entries removed while others are added to the array: the array is a sequence, and reallocation is not modelled.
- Allocation failure, logging, and file descriptors.
- KeyUse.UseIsBounded: the counter is unbounded here; the source's is an unsigned integer which would wrap around after 2^32 certificates.
- KeyRecords.ReportRoundTrip: PEM, file names and the renaming of key files are not modelled; a key is a number, a marker a text.
- JsonValues.PrintValue: how a floating point number is printed is an input, and a number with a point or an exponent is kept as its text.
- JsonTrips.RoundTrip: numbers with a point or an exponent, arrays with holes and members which are NULL are excluded, as are objects with a key twice, which the source never builds.
- JsonReads.TextIsDecoded: texts which are taken although they are no JSON, such as numbers with signs inside, are left to the decoder itself.
- JsonSpelling.SpellingIsRead: halves which do not make a pair the reader accepts are not described, but that strings with such pairs do not come back is.
- JsonStrings.DecodeString: requires that four bytes follow every \u, since the source reads them without looking.
- CertPipeTrips.PipeRoundTrip: base64 is any pair of functions inverse to each other, with no comma or line break among its characters.
- StartingUp.BootIsWorking: requires that an entry stored while SCEP data was to be made had been asked for it, which is history the store does not hold.
- CaDataTrips.TakenForADocument: for a message which begins with a bracket or a brace nothing shorter than the decoder itself says whether it is a document.
- CaDataTrips.ReachesUnlessADocument: a message in the older form which is a JSON object at the same time is excluded; it could hold the same lists in both forms.
- CaDataTrips.LegacyReachesTheCa: is not stated for text which is not UTF-8, of which the printer makes a document which is not read back.
- CaData.Fetch.PostprocessCerts: requires what the decoder requires of its input.
- The other parsers of `src/cadata.c`, the bit strings of `src/certext.c`, and the NSS database lists and locations of `src/casave.c` are not modelled.
- HookRuns.HookState.Ready: the process which is started is a flag; that later ones are started without their CA and entry is not modelled.
- Base-256 text: characters stand for bytes, and locale and encoding are not modelled.
