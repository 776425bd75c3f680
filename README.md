# DanceBud PWA core, modelled in Dafny

DanceBud is a browser dance coach. It runs as a progressive web app, and this project models its client-side logic:

- **Session lifecycle** (`Session`, js/session.js): start, pause, resume and update. It also covers the duration clock, the end-of-session summary and `MM:SS` formatting.
- **Posture score** (`Camera`, js/camera.js): three weighted checks on the shoulder and hip keypoints of a detected pose.
- **Motion tracker** (`Motion`, js/motion.js):
  - a debounced step detector over acceleration magnitudes;
  - a 20-entry activity buffer whose mean sets a capped energy level.
- **Data store** (`Database`, js/database.js):
  - the IndexedDB session store, with auto-increment keys and a newest-first listing;
  - the aggregate statistics, recomputed after every write;
  - the settings store, `parseDuration`, and import validation.
- **Notification centre** (`Notifications`, js/notification.js):
  - the stored list, capped at 50, and the unread counter;
  - the permission branch of `sendNotification`;
  - mark-all-read, the badge rule, relative dates, and clearing.
- **Connectivity detector** (`OnlineDetector`, js/online-detector.js): the online and offline handlers, the 30-second backup poll, and the connection summary.
- **Background-music helper** (`MusicPlayer`, js/music-player.js):
  - resolving a genre key through the audio map;
  - track-index and volume clamping;
  - the object-URL bookkeeping of a user-loaded file.
- **Service worker cache policy** (`ServiceWorker`, sw.js):
  - request routing, and the cache-first and network-first strategies;
  - pruning old caches on activation, and the `CLEAR_CACHE` message.

`JsBase` (js_base.dfy) holds the JavaScript built-ins the modules share:
- `Option` for `null` and `undefined`;
- `Math.round` and clamping;
- sums and means;
- `Number#toString`, `padStart`, `split` and ASCII `toLowerCase`;
- `parseInt`, with radix undefined and NaN as `None`.

Every stateful object of the source is modelled three ways:
1. a state datatype with the same fields;
2. pure transition functions over that datatype, which form the specification and are what the lemmas are about;
3. a `class` with the same fields. Its methods perform the source's statements in place and promise `State() == F(old(State()), …)`.

Inputs the code reads from its environment are parameters:
- the clock (`Date.now()`, as integer milliseconds);
- `navigator.onLine`;
- the network's answer to a fetch;
- whether `audio.play()` or `new Notification()` succeeds;
- the URL `URL.createObjectURL` returns;
- the configured audio map.

Effects on the outside world are recorded in log fields:
- the summaries `end` saves;
- the toasts and notifications the connectivity detector emits;
- the object URLs the music helper revokes.

Where the written description of the system and the code disagree, the model follows the code:
- A step needs strictly more than 300 ms since the previous one.
- A posture check that runs and scores 0 still counts in the mean's denominator.
- `getTracksForKey` also returns `[]` when the key resolves to an empty track list. It does not only do so for a falsy key.
- A missing `x` axis and an `x` of exactly 0 are both ignored by `handleMotion`.

## Model

| member | source | states |
|---|---|---|
| Session.StartResets | js/session.js:27-45 | from any state, start activates, unpauses, sets the start time to now and the pause instant to 0, and resets the data to empty with the given routine name, "Freestyle" when none is given |
| Session.PauseGuard | js/session.js:53-59 | pause changes the state exactly when the session is active and not paused, and then only sets `isPaused` and `pausedTime = now` |
| Session.ResumeGuard | js/session.js:64-75 | resume changes the state exactly when the session is active and paused; it shifts the start time by `now - pausedTime`, clears the pause and keeps the data |
| Session.ResumeExcludesPause | js/session.js:64-118 | after a pause and resume, every later duration (from getDuration and from update) equals the duration without the pause, so the paused interval is excluded exactly once |
| Session.PauseFreezesDuration | js/session.js:110-118 | while paused, getDuration stays at its value at the pause instant |
| Session.UpdateIgnoredUnlessRunning | js/session.js:80-81 | update of an inactive or paused session changes nothing |
| Session.UpdateWhileRunning | js/session.js:80-105 | on a running session, posture and bpm values are appended, steps, turns and energy are overwritten, and any other kind changes only `duration`, which becomes what getDuration reports at that instant; the lifecycle fields are unchanged |
| Session.FormatDuration | js/session.js:177-181 | for a non-negative count the text ends in a colon and two digits, the first of them at most 5 |
| Session.ClockText | js/session.js:177-181 | the clock text of a non-negative second count is the minutes, a colon and exactly two seconds digits, the first of them at most 5 |
| Session.TwoDigitSeconds | js/session.js:179-180 | a remainder below 60 is padded to exactly two digits |
| Session.SummaryScoreInRange | js/session.js:123-137 | the summary score is 0 without posture readings and otherwise the rounded mean, which lies within the range of the readings |
| Session.SummaryBpmInRange | js/session.js:128-138 | the same for the average tempo |
| Session.EndOnce | js/session.js:150-171 | end of an inactive session returns null and changes nothing; end of an active one returns that moment's summary and leaves an inactive, unpaused session without a start time, so a second end returns null |
| Session.FreestyleScenario | js/session.js:27-171 | a Freestyle session with posture readings 80 and 60, a step count of 2 and 3 s of updates ends with score 70, 2 steps and a duration of 3 s |
| Session.ValidPreserved | js/session.js:27-172 | every operation keeps "paused implies active, active implies a start time" |
| Session.SessionEngine.Start | js/session.js:27-45 | the object's fields become `Started(name, now)` |
| Session.SessionEngine.Pause | js/session.js:53-59 | the fields become `Paused(old, now)` |
| Session.SessionEngine.Resume | js/session.js:64-75 | the fields become `Resumed(old, now)` |
| Session.SessionEngine.Update | js/session.js:80-105 | the fields become `Updated(old, kind, value, now)` |
| Session.SessionEngine.End | js/session.js:150-171 | the fields and result are `Ended(old, now)`; one save is logged exactly when a summary is returned, and the outcome of the save does not change what is returned |
| Camera.Check | js/camera.js:272-306 | a check runs exactly when both keypoints are above 0.5 confidence and the divisor is positive; it contributes between 0 and its weight, 0 once the ratio reaches the cutoff, and the full weight at zero deviation |
| Camera.CalculatePostureScore | js/camera.js:261-310 | the score, as written, is an integer in [0, 40], and 0 when no check runs |
| Camera.ScoreIsRoundedMean | js/camera.js:263-310 | the score is the rounded mean of the contributions of the checks that ran, and 0 when none ran |
| Camera.CheckGates | js/camera.js:272-302 | each check runs exactly when its two keypoints are above 0.5 and its divisor distance is not zero |
| Camera.CheckWeights | js/camera.js:277-306 | the checks contribute between 0 and 40, 35 and 25, and 0 once their ratios reach 0.2, 0.3 and 0.2 |
| Camera.LevelShouldersFull | js/camera.js:273-279 | level shoulders with a horizontal gap earn the full 40 |
| Camera.ZeroCheckStillCounts | js/camera.js:278-310 | a shoulder check at its cutoff adds 0 but still counts in the denominator of 3 |
| Camera.DependsOnlyOnTorso | js/camera.js:266-269 | two poses that agree on keypoints 5, 6, 11 and 12 score the same |
| Camera.UprightPose | js/camera.js:261-310 | a 17-keypoint pose that passes every check perfectly |
| Camera.UprightPoseScores33 | js/camera.js:258-310 | as written, with all three checks perfect (100 points), the score is 33 and not 100 |
| Camera.NormalizedPostureScore | js/camera.js:258-310 | the corrected score, earned points as a percentage of the available weight, lies in [0, 100] |
| Camera.NormalizedPerfectIsFull | js/camera.js:258-310 | on the corrected scale, a pose whose three checks all run and are perfect, and the upright pose, score 100 |
| Motion.Pushed | js/motion.js:156-161 | the buffer after a push is never empty |
| Motion.BufferWindow | js/motion.js:156-161 | the buffer keeps at most 20 entries with the newest last, and evicts the oldest once it would hold 21 |
| Motion.EnergyInRange | js/motion.js:164-167 | the energy is `min(100, mean(buffer) * 30)` and lies in [0, 100] for non-negative intensities |
| Motion.WithEnergyValid | js/motion.js:164-167 | recomputing the energy after a non-negative sample keeps the buffer bound and the energy in [0, 100] |
| Motion.ValidPreserved | js/motion.js:72-168 | every operation keeps the buffer at 20 or fewer non-negative entries and the energy in [0, 100] |
| Motion.IgnoredSample | js/motion.js:96-102 | a sample while not tracking, or with a missing or zero x axis, changes nothing, not even the last magnitude, and calls nothing |
| Motion.UsableSampleRecorded | js/motion.js:112-137 | every usable sample becomes the last magnitude, and the first one never counts as a step |
| Motion.StepRule | js/motion.js:112-121 | a step registers exactly when the change exceeds 1.2 and more than 300 ms have passed; it raises the count by one and sets the last step time to now |
| Motion.AtMostOneStep | js/motion.js:95-138 | no sample changes the turn count, and none adds more than one step |
| Motion.CallbackOnStep | js/motion.js:127-133 | the callback runs only on a registered step, and only when one is set; it receives the new steps, turns and energy |
| Motion.Debounce | js/motion.js:119 | after a step at time t, no sample up to t + 300 ms registers another step |
| Motion.StartKeepsHistory | js/motion.js:72-90 | startTracking zeroes steps, turns, energy and the buffer and sets the flag, but keeps the last magnitude and the last step time |
| Motion.MotionTracker.StartTracking | js/motion.js:72-90 | the fields become `StartedTracking(old, withCallback)` |
| Motion.MotionTracker.HandleMotion | js/motion.js:95-138 | the fields and the callback argument are `AfterMotion(old, sample, now)` |
| Motion.MotionTracker.UpdateEnergy | js/motion.js:154-168 | the fields become `WithEnergy(old, intensity)` |
| Motion.MotionTracker.StopTracking | js/motion.js:212-218 | only the tracking flag is cleared |
| Database.ParseDurationMissing | js/database.js:491-492 | a missing or empty duration string reads as 0 |
| Database.ParseDurationOfParts | js/database.js:491-497 | "M:S" reads as M * 60 + S, and an unreadable part counts as 0 |
| Database.ParseDurationMinutesOnly | js/database.js:493-496 | a bare number of minutes has 0 seconds |
| Database.ParseFormatRoundTrip | js/database.js:491-497 | parseDuration of formatDuration(n) (js/session.js) is n for every n >= 0 |
| Database.InsertByDate | js/database.js:117 | one insertion step keeps the elements (as a multiset) and adds one to the length |
| Database.SortNewestFirst | js/database.js:117 | the sort is a permutation of its input |
| Database.InsertKeepsOrder | js/database.js:117 | inserting into a newest-first list keeps it newest-first |
| Database.SortIsNewestFirst | js/database.js:117 | the sorted listing is ordered newest-first by date |
| Database.AllSessionsComplete | js/database.js:106-126 | getAllSessions lists every stored record exactly once, and nothing else, newest first |
| Database.RecentIsPrefix | js/database.js:131-134 | for k >= 0, getRecentSessions(k) is the first min(k, n) entries of getAllSessions; a negative k leaves out the last -k |
| Database.DefaultRecentFive | js/database.js:131-133 | getRecentSessions without a limit lists the five newest records, or all of them when there are fewer |
| Database.SumByPermutation | js/database.js:223-232 | the sums do not depend on the order of the records |
| Database.StatisticsPermutationInvariant | js/database.js:213-244 | the statistics of two listings with the same records are equal |
| Database.StatisticsCount | js/database.js:213-244 | the count is the number of stored records, an empty store has all-zero statistics, and the average score is the score sum divided by the count, unrounded |
| Database.StatisticsOfListing | js/database.js:216-240 | the statistics of any listing use its length as the count and the unrounded mean score, and are all zeros when it is empty |
| Database.ClearedListsNothing | js/database.js:186-197 | a store without records lists nothing |
| Database.InvariantsPreserved | js/database.js:71-568 | every operation keeps the key invariant, and keeps the stored statistics equal to a full re-scan of the store |
| Database.SaveAssignsFreshKey | js/database.js:78-93 | saveSession stores the record under an unused key, the next auto-increment value; the date defaults to now when missing, the timestamp is the save instant, and no other record and no setting changes |
| Database.DeleteRemovesOnly | js/database.js:161-173 | deleteSession removes the record with that key and no other |
| Database.ClearZeroes | js/database.js:186-197 | clearing leaves no records and all-zero statistics, and keeps the key generator |
| Database.SaveAddsToTotals | js/database.js:86-93 | after a save each total is the old sum plus the new record's contribution, missing values counting 0, and the average is the new score sum over the new count |
| Database.SavedSummaryTime | js/database.js:226-229 | a saved session summary adds exactly its `durationSeconds` to the total time, and is dated by its summary date |
| Database.SettingRoundTrip | js/database.js:339-381 | getSetting returns what saveSetting stored, returns the default for an absent or deleted key, and a save leaves other keys as they were |
| Database.SettingsPutLookup | js/database.js:412-417 | in saveSettings, the last entry for a key wins |
| Database.SettingsPutUntouched | js/database.js:412-417 | in saveSettings, a key that none of the entries names keeps its old value, and stays absent if it was absent |
| Database.SessionsSavedShape | js/database.js:528-531 | saving n objects in order leaves |old| + n records, advances the key generator by n, keeps the settings, and leaves statistics equal to a re-scan when n > 0 |
| Database.SessionsSavedNew | js/database.js:528-531 | saving objects in order puts the i-th under key nextId + i, with its date defaulted to the save instant and the save timestamp |
| Database.SessionsSavedKeeps | js/database.js:528-531 | saving objects keeps every old record as it was, and every key afterwards is an old key or one of the n new ones |
| Database.ImportOutcome | js/database.js:519-539 | importData rejects exactly a missing payload or one without sessions, and then changes nothing; otherwise the store holds as many records as were imported, under fresh keys, the imported settings over an empty map, and statistics only if a session was saved |
| Database.ImportedSessionsContents | js/database.js:524-531 | after a successful import, for every index i, the i-th imported object is stored under key nextId + i, dated and stamped with the import instant |
| Database.ImportedOnlyNew | js/database.js:524-531 | after a successful import every stored key is one of the imported ones, since clearAllData removed all earlier records |
| Database.Db.GetAllSessions | js/database.js:106-126 | the loop over keys returns `AllSessions` of the store, unchanged |
| Database.Db.GetRecentSessions | js/database.js:131-134 | returns `RecentSessions(store, limit)` |
| Database.Db.GetSession | js/database.js:139-156 | returns the record under that key, or none |
| Database.Db.UpdateStatistics | js/database.js:213-244 | the statistics become a re-scan of the store at now |
| Database.Db.ResetStatistics | js/database.js:323-332 | the statistics become all zeros |
| Database.Db.SaveSession | js/database.js:71-101 | the store becomes `SessionSaved(old, obj, now)` and the saved record is returned |
| Database.Db.DeleteSession | js/database.js:161-181 | the store becomes `SessionDeleted(old, id, now)` |
| Database.Db.ClearAllSessions | js/database.js:186-206 | the store becomes `SessionsCleared(old, now)` |
| Database.Db.GetStatistics | js/database.js:249-261 | returns the stored statistics, or first stores and then returns a re-scan |
| Database.Db.SaveSetting | js/database.js:339-359 | stores the value under the key and returns it |
| Database.Db.GetSetting | js/database.js:364-381 | returns the stored value or the default |
| Database.Db.GetSettings | js/database.js:386-407 | returns the whole settings map |
| Database.Db.SaveSettings | js/database.js:412-417 | the settings become `SettingsPut(old, entries)` |
| Database.Db.DeleteSetting | js/database.js:422-440 | removes the key only |
| Database.Db.ClearAllData | js/database.js:544-568 | all three stores are emptied, and the key generator is kept |
| Database.Db.ImportData | js/database.js:519-539 | the store becomes `Imported(old, data, now)`, with the outcome reported |
| Database.Db.SaveSessions | js/database.js:528-531 | saving the imported sessions one after another leaves the store at `SessionsSaved(old, objs, now)` |
| Notifications.SaveNewestFirst | js/notification.js:124-130 | saveNotification puts the entry first and keeps the older ones after it, at most 50 in all; the counter rises by one whatever the list length |
| Notifications.CounterNotCapped | js/notification.js:124-130 | after n saves the counter has risen by n while the list stops at 50 |
| Notifications.FiftyOneSaves | js/notification.js:124-130 | 51 notifications on an empty centre leave 50 entries and a count of 51 |
| Notifications.ValidPreserved | js/notification.js:72-267 | every operation keeps the counter at or above the number of unread entries |
| Notifications.AllReadKeepsEntries | js/notification.js:176-178 | markAllAsRead sets every flag and zeroes the counter; the length, the order and every other field are kept |
| Notifications.SendRecordsEntry | js/notification.js:72-118 | without permission an unread entry is recorded and null is returned; with it, the entry is recorded exactly when the notification is shown |
| Notifications.BadgeRule | js/notification.js:194-204 | the badge is hidden at 0, shows "9+" above nine, and shows the count from 1 to 9 |
| Notifications.FormatDateBuckets | js/notification.js:231-247 | "Just now" under a minute, minutes under an hour, hours under a day, days under a week, and the locale date beyond |
| Notifications.NestedFloors | js/notification.js:235-243 | the floored hours and days equal the milliseconds divided by an hour and a day |
| Notifications.PluralOnlyAboveOne | js/notification.js:235-244 | for every time difference: a minute count never takes a plural "s"; from 1 h up to 2 h the text is "1 hour ago" and from 2 h up to a day it is plural, and likewise "1 day ago" below 2 days and plural days up to a week |
| Notifications.ClearRule | js/notification.js:252-267 | a confirmed clear empties the list and the counter; a declined one changes nothing |
| Notifications.NotificationSystem.SaveNotification | js/notification.js:124-140 | the fields become `Saved(old, n)` |
| Notifications.NotificationSystem.SendNotification | js/notification.js:72-119 | the fields and result are `Sent(old, options, now, throws)` |
| Notifications.NotificationSystem.MarkAllAsRead | js/notification.js:176-189 | the loop sets every flag in place; the fields become `AllRead(old)` |
| Notifications.NotificationSystem.ClearAll | js/notification.js:252-267 | the fields become `Cleared(old, confirmed)` |
| OnlineDetector.OfflineRule | js/online-detector.js:91-104 | handleOffline always ends offline with an offline period begun, and emits one warning toast and, when the notification system exists, one offline notification |
| OnlineDetector.OnlineRule | js/online-detector.js:70-86 | handleOnline always ends online with no offline period pending; the back-online notification and toast come exactly when one was pending |
| OnlineDetector.TwoOnlinesAtMostOne | js/online-detector.js:73-83 | two handleOnline calls in a row emit at most one back-online notification |
| OnlineDetector.OfflineThenOnline | js/online-detector.js:70-104 | going offline and back online announces the return exactly once |
| OnlineDetector.TickRule | js/online-detector.js:41-53 | after a poll the recorded status is the polled one; a poll does nothing when they agree, and otherwise runs exactly the matching handler |
| OnlineDetector.StopIdempotent | js/online-detector.js:59-65 | stopBackupCheck clears a set handle once and leaves none; a second call does nothing |
| OnlineDetector.InfoFallbacks | js/online-detector.js:207-227 | `online` always equals `isOnline`; without the connection API the other fields are 'unknown', 0, 0 and false; with it, a non-empty effective type, a present downlink and a present rtt pass through, a missing or empty type gives 'unknown', a missing downlink or rtt gives 0, and saveData is true exactly when the API reports true |
| OnlineDetector.Detector.HandleOnline | js/online-detector.js:70-86 | the fields and the effect log follow `Online(old, notifier)` |
| OnlineDetector.Detector.HandleOffline | js/online-detector.js:91-104 | the fields and the effect log follow `Offline(old, notifier)` |
| OnlineDetector.Detector.BackupTick | js/online-detector.js:41-53 | the fields and the effect log follow `Tick(old, polled, notifier)` |
| OnlineDetector.Detector.StartBackupCheck | js/online-detector.js:40-54 | the interval handle is recorded |
| OnlineDetector.Detector.StopBackupCheck | js/online-detector.js:59-65 | the fields and the effect log follow `BackupStopped(old)` |
| OnlineDetector.Detector.GetConnectionInfo | js/online-detector.js:207-227 | returns `Info(state, api)` and changes nothing |
| MusicPlayer.ResolveRule | js/music-player.js:28-38 | a falsy input resolves to null; a string is lowercased and replaced by a truthy map entry; a track list, or any input without a map, comes back unchanged; a truthy input resolves truthy |
| MusicPlayer.ResolveIgnoresCase | js/music-player.js:31-34 | keys that differ only in ASCII case resolve alike |
| MusicPlayer.TracksRule | js/music-player.js:41-48 | getTracksForKey is empty exactly for a falsy key or an empty track list, and an unknown key k gives [k] |
| MusicPlayer.ClampIndexRange | js/music-player.js:63 | the chosen index lies in [0, len-1] for a non-empty list, is the requested one when that is in range, and is 0 for an empty list |
| MusicPlayer.PlayTrackList | js/music-player.js:62-99 | an empty track list rejects with "No track found for index" and only creates the element; otherwise the track at the clamped index becomes the source, and play succeeds exactly when audio.play() does |
| MusicPlayer.VolumeRule | js/music-player.js:84-85 | play stores a given volume as it is and applies it clamped to [0, 1]; setVolume stores the clamped value and applies it to the element |
| MusicPlayer.RevokeRule | js/music-player.js:59-81 | with no audio map: playing a direct URL other than the loaded object URL revokes that URL once and forgets it; playing the loaded URL itself, or no source, keeps it |
| MusicPlayer.PlayReleasesLoaded | js/music-player.js:59-81 | for every source play() can choose (the loaded file, a clamped track from a list, a key resolved through the audio map or a direct URL), a truthy loaded object URL is revoked once and forgotten exactly when the chosen source differs from it and kept when it is the same; a rejection for a missing track or source revokes nothing |
| MusicPlayer.PlayingRule | js/music-player.js:87-116 | `isPlaying` is set only by a successful play and cleared by a failed one; pause and stop clear it, stop rewinds, and both do nothing without an element |
| MusicPlayer.UnloadRule | js/music-player.js:165-177 | after unload nothing is current or loaded, nothing plays, the element is paused with an empty source, and a loaded URL has been revoked |
| MusicPlayer.LoadFileRule | js/music-player.js:138-155 | loadFile makes the new URL loaded and current, revokes a different earlier one, and returns the URL; without a file it does nothing |
| MusicPlayer.ValidPreserved | js/music-player.js:7-182 | every operation keeps "playing implies an element" and the element's volume in [0, 1] |
| MusicPlayer.Player.Play | js/music-player.js:54-99 | the fields and outcome are `AfterPlay(old, …)` |
| MusicPlayer.Player.ChooseSource | js/music-player.js:56-81 | the source choice of play (loaded file, clamped list index, key or URL, or rejection) leaves the fields and outcome at `SourceChosen(old, …)` |
| MusicPlayer.Player.Pause | js/music-player.js:101-107 | the fields become `Paused(old)` |
| MusicPlayer.Player.Stop | js/music-player.js:109-116 | the fields become `Stopped(old)` |
| MusicPlayer.Player.SetVolume | js/music-player.js:132-135 | the fields become `VolumeSet(old, v)` |
| MusicPlayer.Player.LoadFile | js/music-player.js:138-155 | the fields and result are `FileLoaded(old, hasFile, url)` |
| MusicPlayer.Player.Unload | js/music-player.js:165-182 | the fields become `Unloaded(old)`, and the method reports success |
| MusicPlayer.Player.OnEnded | js/music-player.js:19-21 | the end of a track clears `isPlaying` |
| ServiceWorker.MatchRule | sw.js:143 | a match is found exactly when some cache holds the URL, and it is the entry of the first such cache in creation order |
| ServiceWorker.NonHttpIgnored | sw.js:112-114 | a request whose protocol does not start with "http" is not answered and changes nothing |
| ServiceWorker.RouteRule | sw.js:119-130 | an http(s) request goes network-first exactly when its URL contains "/api/" or "getUserMedia" or its destination is video or audio, and cache-first otherwise |
| ServiceWorker.CacheHitNoFetch | sw.js:143-146 | a cache hit is answered as it is, whatever the network would do, and changes nothing |
| ServiceWorker.OnlyOkCached | sw.js:148-157 | on a cache miss cacheFirst fetches and answers exactly as networkFirst does, so it writes the response to the current cache under its URL exactly when the status is 200; every other cache and every other URL is kept with its entry, and nothing is dropped |
| ServiceWorker.NetworkFirstWriteRule | sw.js:172-182 | networkFirst writes a fetched response to the current cache under its URL exactly when the status is 200, also when the URL was already cached; every other cache and URL is kept with its entry and nothing is dropped; it answers with the response |
| ServiceWorker.PutValid | sw.js:152-155 | a cache put keeps the store valid and stores the response under its URL; every cache and URL present before is still present, and all but the written one keep their entry |
| ServiceWorker.NetworkFailureFallback | sw.js:183-191 | on a network failure networkFirst answers from the cache if it can and otherwise rethrows |
| ServiceWorker.OfflineFallback | sw.js:158-163 | on a miss and a network failure cacheFirst answers with the cached offline page, or undefined when that is missing as well |
| ServiceWorker.KeptNamesRule | sw.js:89-95 | activation keeps exactly the names equal to the current cache name |
| ServiceWorker.PruneRule | sw.js:85-96 | after activation the only cache left is the current one, with its entries; CLEAR_CACHE leaves no cache, and other messages change nothing |
| ServiceWorker.ValidPreserved | sw.js:107-210 | every handler keeps the cache names distinct and in step with the caches |
| ServiceWorker.Caches.MatchUrl | sw.js:143 | the loop returns the first cache's entry for the URL, as `Match` |
| ServiceWorker.Caches.CacheFirst | sw.js:140-164 | the caches and answer are `CacheFirstResult(old, request, fetched)` |
| ServiceWorker.Caches.NetworkFirst | sw.js:171-193 | the caches and answer are `NetworkFirstResult(old, request, fetched)` |
| ServiceWorker.Caches.OnFetch | sw.js:107-131 | the caches and answer are `FetchResult(old, request, fetched)` |
| ServiceWorker.Caches.Activate | sw.js:85-96 | deleting the listed caches one by one leaves only the current cache, with its old entries |
| ServiceWorker.Caches.OnMessage | sw.js:201-210 | the caches become `AfterMessage(old, data)`, so every cache is deleted on CLEAR_CACHE |

## Left out

- DOM work, toast styling, `alert`/`confirm` (the answer is a parameter), `console` output and the badge element lookup (only the badge text rule is modelled).
- Async ordering, IndexedDB transactions and their error callbacks; every store request is taken to succeed. `getStatistics`' catch path, which returns zeros after an error, is therefore absent.
- localStorage persistence in the notification centre (`loadNotifications`, `setItem`): the modelled state is the in-memory list and counter.
- Floating point: numbers are mathematical reals and integers, so no rounding error, NaN or Infinity arises in sums and means.
- `Math.sqrt` in handleMotion: the magnitude of a sample is an input.
- `calibrate`, `requestPermission`, `isAvailable` and the event-listener bookkeeping of js/motion.js. `handleOrientation` has an empty body, so no turn counting is modelled.
- The ISO date strings of js/database.js and js/notification.js are integer milliseconds. `toLocaleDateString` is a parameter.
- importData uses one clock value for the whole import.
- saveSession with an `id` already on the object (IndexedDB's explicit key) is not modelled; importData deletes the id first.
- The `defaultValue = null` default of getSetting: the model's setting values have no null, so the caller always passes the default (Database.Db.GetSetting and Database.SettingRoundTrip take it as an argument).
- The thin setting wrappers (`getUserName`, `saveUserName`, `getSelectedRoutine`, `setSelectedRoutine`, the permission-status pair), `exportAllData` and `getDatabaseInfo`: these are one-line calls of modelled operations or reporting only.
- `getFormattedTime` in js/session.js is `formatDuration(getDuration())`, a composition of two modelled functions.
- `toLowerCase` beyond ASCII letters.
- Lookups of inherited JavaScript object properties (such as "constructor") in the audio map.
- `preload`, `playLoaded` and `playTrack` in js/music-player.js are not named among the modelled operations. They are thin wrappers over `_resolveSrc` and `play`.
- The element's `preload` and `crossOrigin` flags.
- Service worker:
  - install-time `cache.addAll` of the shell, `skipWaiting`, `clients.claim`, and the push and notificationclick handlers;
  - requests are keyed by their URL string, and all are treated as GET;
  - `caches.match('/dancebudpwa/index.html')` is a lookup of that string;
  - the unawaited `cache.put` is taken to finish before the answer is returned.
- Camera.CalculatePostureScore: requires at least 13 keypoints. The source would throw on a shorter array.

## Findings

| source | as written | input that shows it | evidently intended | confidence | as-written member | corrected member |
|---|---|---|---|---|---|---|
| js/camera.js:258-310 | The score divides the sum of the weighted check points (weights 40, 35 and 25) by the number of checks that ran, so it can never exceed 40. | A pose with level shoulders, level hips and the shoulder straight above the hip: all three checks are perfect, 100 points in all, and the score is round(100 / 3) = 33. | A posture score from 0 to 100, as the doc comment says: the points earned as a percentage of the weight of the checks that ran. | medium, not executed | Camera.UprightPoseScores33 | Camera.NormalizedPerfectIsFull |
