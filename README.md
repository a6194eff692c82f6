# eDOMOS door alarm: a verified model of its core

eDOMOS is a door-alarm server for a Raspberry Pi. A reed switch on a door
is watched by a background loop. When the door stays open longer than the
configured timer, an alarm sounds. Every event is logged to a database,
mirrored into a hash-linked audit chain, and pushed to a browser dashboard.
Around that sits a compliance layer for regulated sites: electronic
signatures, change control, computer-system validation, licences, and
scheduled reports.

This project models the decision-making core of that system in Dafny and
proves properties of it. It has one module per source concern:

- `DoorMonitor` covers three things: the open/close edge rules of the
  monitoring loop, the decision taken when the alarm timer ends, and the
  two-second de-duplication of logged events.
- `Uptime` covers the uptime text. `DateTimeFormat` covers the date and
  time template filter.
- `Analytics` covers the analytics page. This means open/close pairing,
  the duration histogram, weekly alarm counts, and compliance.
- `ScheduledReports` covers creating a report schedule and the scheduler's
  next-run arithmetic.
- `ChangeControl` covers the signed status changes of change requests and
  validation tests.
- `AccountValidation` covers the input checks for changing a password,
  creating a user, and creating a signature.
- `Models` covers a user's password, the block hash, licence status, and
  training expiry.
- `AuditChain` covers the audit chain: genesis, append, verify, and export.
- `Licensing` covers the licence checks, licence keys, and licence creation.
- `AISecurity` covers the heuristic anomaly and threat engine.
- `DashboardRealtime` covers the dashboard's real-time client: the choice
  between socket and polling, and the snapshot dispatcher.
- `MobileAudio` covers the browser alarm-sound manager.
- `SignatureModal` covers the electronic-signature dialog.
- `Common` holds shared helpers: options, results, text, and Python's
  `int()`.

Code that updates state in place is modelled as a Dafny class whose methods
have `modifies` clauses. Examples are the door monitor's globals, the audit
table, the AI engine, the dashboard client, the audio manager, and the
signature dialog. Each method is proved equal to a specification function
of the old state. The properties of those functions are proved as lemmas.
Pure computations are modelled as functions and lemmas.

Every boundary the code cannot see becomes a parameter:

- hashing (SHA-256 and the password key-derivation function);
- the clock and dates;
- random bytes;
- database contents;
- the outcome of each browser call.

Times are integers: microseconds, milliseconds, seconds, or day numbers,
as each module says.

The dashboard redraws the door, alarm, and timer fields on every snapshot,
whether or not their values changed. Only the counters and the uptime text
are compared with what is shown before they are written.

## Model

| member | source | states |
|---|---|---|
| AccountValidation.ChangePassword | door_alarm_system/app.py:5574-5606 | a change is made only when both passwords are given as text, the current one is right, the new one has at least six characters and differs from the current one; the account then carries the new password's hash; a number given as a password passes the presence check and then makes the hash or length check raise, answered with a 500, exactly when that check is reached |
| AccountValidation.ChangePasswordExactly | door_alarm_system/app.py:5578-5594 | those checks are also sufficient; after the change the new password signs in, and the old one signs in only if it collides with the new one under the new salt |
| AccountValidation.UserErrors | door_alarm_system/app.py:3304-3310 | each of the three messages appears exactly when its field is missing or too short (username under 4, password under 6, no permission) |
| AccountValidation.CreateUser | door_alarm_system/app.py:3276-3326 | non-administrators are refused; validation errors are the ones above; a taken name is refused with its message; a created user has the given name, admin flag, a hash that checks against the password and the permissions joined by commas |
| AccountValidation.CreateUserAccepts | door_alarm_system/app.py:3304-3326 | an administrator's request with a new name of four characters or more, a password of six or more and a permission always creates the user |
| AccountValidation.PermissionsRoundTrip | door_alarm_system/app.py:3301-3324 | the stored permission text splits back into the chosen list (form list first, request list as fallback) when no name holds a comma |
| AccountValidation.MissingFields | door_alarm_system/app.py:6018-6019 | lists exactly the required fields that are absent or empty |
| AccountValidation.NoneMissing | door_alarm_system/app.py:6018-6021 | nothing is reported missing exactly when all five fields are filled in |
| AccountValidation.CreateSignature | door_alarm_system/app.py:6009-6103 | missing fields (absent, null, empty text or zero) are reported iff any is missing, with the listed message; a number as the password or, after a right password, as the reason makes the handler raise and answer 500; a signature is made only with the right text password and a stripped reason of ten characters or more, and records the user, the event id, type and action as their text (a number as its decimal text), the reason and the time, hashed as user:time:reason:event:type |
| AccountValidation.SignatureCheckOrder | door_alarm_system/app.py:6028-6041 | the password is checked before the reason: a wrong password gives 401 whatever the reason; with the right one and a text reason the outcome is decided by the reason length |
| AccountValidation.NumericEventId | door_alarm_system/app.py:6018-6050 | a numeric event id, as the documented client sends it, is signed and recorded and hashed as its decimal text when non-zero; zero is falsy and reported as the only missing field |
| AccountValidation.BlankReasonRefused | door_alarm_system/app.py:6035-6036 | a reason made only of spaces is refused however long it is |
| AISecurity.DeltaSeconds | door_alarm_system/ai_security.py:108-109 | the `seconds` attribute of a time difference is always below one day |
| AISecurity.DeltaSecondsDropsDays | door_alarm_system/ai_security.py:108-109 | the attribute forgets whole days: an event k days and s seconds old looks s seconds old, and one a second in the future looks almost a day old |
| AISecurity.Last | door_alarm_system/ai_security.py:24 | keeps the last n elements (all when fewer), as `s[-n:]` and a bounded deque do |
| AISecurity.Learn | door_alarm_system/ai_security.py:58-68 | learn_pattern appends the event type to the list of one hour or weekday and leaves every other list as it was |
| AISecurity.DetectSpec | door_alarm_system/ai_security.py:74-126 | the confidence never exceeds 100 and a flagged event has at least 50; DetectCharacterized states the weights and the flagging rule |
| AISecurity.DetectCharacterized | door_alarm_system/ai_security.py:86-123 | while learning (fewer than 2 events this hour and fewer than 3 this weekday) nothing is flagged; otherwise the confidence is the capped sum of the weights 30, 40, 50, 25 of the signals that fire, and an event is flagged iff the events are rapid or two other signals fire |
| AISecurity.NightAloneIsNotAnomaly | door_alarm_system/ai_security.py:102-105 | a night-time opening with no other signal is reported with confidence 40 but not flagged |
| AISecurity.AISecurityEngine.DetectAnomaly | door_alarm_system/ai_security.py:74-126 | detect_anomaly computes the verdict characterized above |
| AISecurity.CountRecent | door_alarm_system/ai_security.py:108-110 | the loop counts the history entries whose seconds difference is under 60 |
| AISecurity.LevelOf | door_alarm_system/ai_security.py:180-191 | CRITICAL from 80, HIGH from 60, MEDIUM from 40, LOW below, each exactly on its band |
| AISecurity.LevelMonotone | door_alarm_system/ai_security.py:180-191 | a higher threat score never gives a lower level |
| AISecurity.OnlyLastTenMatter | door_alarm_system/ai_security.py:134-141 | events before the last ten do not change the prediction |
| AISecurity.ThreatSpec | door_alarm_system/ai_security.py:128-195 | fewer than three events give LOW at 50; the confidence lies between 50 and 95; ThreatCharacterized states the score and its bands |
| AISecurity.ThreatCharacterized | door_alarm_system/ai_security.py:137-191 | the threat score is the sum of the weights 40, 30, 20, 25, 35 of the five factors (so at most 150) and the level and its confidence are read off it |
| AISecurity.GapTotal | door_alarm_system/ai_security.py:168-175 | the loop sums the seconds gaps between consecutive events of the last ten |
| AISecurity.ScoreFactors | door_alarm_system/ai_security.py:137-177 | the five factor checks produce the tally of the threat specification |
| AISecurity.PredictThreatLevel | door_alarm_system/ai_security.py:128-195 | predict_threat_level returns LOW with the insufficient-data text below three events and otherwise the level of the last ten events' score |
| AISecurity.EventOf | door_alarm_system/ai_security.py:203-204 | a missing type reads "unknown" and a missing timestamp reads now |
| AISecurity.Counted | door_alarm_system/ai_security.py:219-221 | incidents_prevented grows by one exactly for a flagged event and nothing else changes |
| AISecurity.Recorded | door_alarm_system/ai_security.py:207-214 | the event joins the history bounded at 1000 and both pattern tables learn it |
| AISecurity.RecordKeepsBounds | door_alarm_system/ai_security.py:207-211 | the history never exceeds 1000 entries, ends with the new event, keeps as many previous entries as fit, in order, and drops nothing while under the limit |
| AISecurity.Report | door_alarm_system/ai_security.py:241-252 | the analysis names the event's moment and type and the anomaly verdict |
| AISecurity.AnalyzeRecordsAndCounts | door_alarm_system/ai_security.py:197-226 | analyze_behavior records the event as above and counts it as an incident exactly when flagged |
| AISecurity.RecommendationsFollowVerdicts | door_alarm_system/ai_security.py:229-239 | footage review exactly for a flagged event, alerting personnel exactly for HIGH or CRITICAL, late-access check exactly for an opening from 23:00 |
| AISecurity.AISecurityEngine.Record | door_alarm_system/ai_security.py:207-214 | the engine's new state is the recorded one |
| AISecurity.AISecurityEngine.CountIncident | door_alarm_system/ai_security.py:219-221 | the engine's new state is the counted one |
| AISecurity.AISecurityEngine.AnalyzeBehavior | door_alarm_system/ai_security.py:197-254 | the new engine state and the analysis are those of the analyze_behavior specification |
| AISecurity.AISecurityEngine.constructor | door_alarm_system/ai_security.py:23-29 | a fresh engine: empty history and tables, no incidents |
| AISecurity.MostFrequent | door_alarm_system/ai_security.py:271 | returns an element of the list whose count no other element exceeds |
| AISecurity.SecurityScore | door_alarm_system/ai_security.py:283-299 | the security score stays between 30 and 100, so the lower clamp never acts |
| AISecurity.BonusFrom300 | door_alarm_system/ai_security.py:295-297 | the accuracy reaches 90, and the bonus applies, exactly from 300 events |
| AISecurity.QuietEngineScoresFull | door_alarm_system/ai_security.py:283-299 | with no incidents, threat LOW and 300 events or more the score is the full 100 |
| AISecurity.InsightsSpec | door_alarm_system/ai_security.py:256-312 | learning status exactly for an empty history; otherwise the counts, the most common type, the threat level of the last 20 events, a score in [30, 100] and the number of hours learned |
| Analytics.BucketOf | door_alarm_system/app.py:3512-3527 | a duration falls in the first bucket whose upper cut (5, 10, 30, 60, 120, 300, 600 s) it is below, else in the last one |
| Analytics.BucketExactlyOne | door_alarm_system/app.py:3512-3527 | the buckets are half-open and cover every duration: a duration lies in bucket b exactly when it is within b's bounds |
| Analytics.HistogramTotal | door_alarm_system/app.py:3479-3527 | every duration is counted in exactly one bucket: the bucket counts add up to the number of durations |
| Analytics.DurationsAtMostCloses | door_alarm_system/app.py:3505-3529 | a duration is recorded only for a close that follows a pending open, so at most one per close |
| Analytics.DurationsNonNegative | door_alarm_system/app.py:3505-3508 | with events in time order no duration is negative |
| Analytics.AlternatingPairsEveryClose | door_alarm_system/app.py:3491-3529 | when opens and closes alternate, every close yields exactly one duration |
| Analytics.OpenCountsNested | door_alarm_system/app.py:3496-3503 | today's opens are among the last week's, and those among the last month's, all among the opens listed |
| Analytics.DoorUsage | door_alarm_system/app.py:3491-3529 | the loop's open counts, durations and histogram are those of the specification functions, and the histogram total equals the number of durations, at most the number of closes |
| Analytics.WeekOf | door_alarm_system/app.py:3642-3651 | an alarm d days old is in week w (0 to 3) exactly when 7w <= d < 7(w+1), and in none from 28 days on |
| Analytics.WeeklyTotal | door_alarm_system/app.py:3642-3651 | each alarm of the last 28 days is counted in exactly one week and older ones in none |
| Analytics.WeeklyAlarms | door_alarm_system/app.py:3636-3651 | the loop yields the four weekly counts of the specification, which add up to the alarms of the last 28 days |
| Analytics.NextClose | door_alarm_system/app.py:3588-3594 | the earliest recorded close strictly after the alarm, or none when every close is earlier or at the same moment |
| Analytics.CountCompliantBound | door_alarm_system/app.py:3585-3620 | no more alarms are compliant than there are alarms |
| Analytics.ComplianceCounts | door_alarm_system/app.py:3569-3620 | an alarm is compliant when its door closed within twice the timer setting (30 s by default); every other alarm, late or never closed, is non-compliant and unacknowledged, and the two counts add up to the alarms |
| Analytics.CompliancePercentage | door_alarm_system/app.py:3661-3662 | 100 with no alarms or none non-compliant, 0 when none is compliant, always within [0, 100] |
| AuditChain.Genesis | door_alarm_system/blockchain_helper.py:14-29 | the genesis block has index 0, type "genesis", the fixed description, 64 zeros as previous hash, nonce 0, no user or address, and carries its own hash |
| AuditChain.Latest | door_alarm_system/blockchain_helper.py:32-34 | none exactly for an empty table, otherwise a row of greatest block index |
| AuditChain.LatestIsLast | door_alarm_system/blockchain_helper.py:32-34 | in a table ordered by index the latest block is the last row |
| AuditChain.NextBlock | door_alarm_system/blockchain_helper.py:64-77 | the new block takes the next index, links to the previous block's hash, has nonce 0, the given row id, type, description, timestamp, user and address, and carries its own hash |
| AuditChain.AddEvent | door_alarm_system/blockchain_helper.py:50-77 | an empty table first gets the genesis block; the event is appended after the latest block and linked to it, with nonce 0, its own hash, the given type, description and timestamp; a missing user id falls back to the signed-in user's and a missing address to the request's |
| AuditChain.AddKeepsIntact | door_alarm_system/blockchain_helper.py:50-77 | appending to an ordered, intact table (or an empty one) yields an ordered, intact table that verifies |
| AuditChain.AppendOrdered | door_alarm_system/blockchain_helper.py:66 | a block indexed past the last row keeps the table ordered |
| AuditChain.AppendIntact | door_alarm_system/blockchain_helper.py:70-77 | a block carrying its own hash and linked to the last row keeps the table intact |
| AuditChain.NoReportsIffIntact | door_alarm_system/blockchain_helper.py:100-120 | the check of the first n rows reports nothing exactly when those rows carry their own hashes and are linked |
| AuditChain.ValidIffIntact | door_alarm_system/blockchain_helper.py:95-125 | a table verifies exactly when it is non-empty and intact, i.e. non-empty with no report |
| AuditChain.VerifySpec | door_alarm_system/blockchain_helper.py:93-125 | valid exactly when the table is non-empty and nothing is reported; an empty table gives "No blockchain found" |
| AuditChain.ReportsPrefix | door_alarm_system/blockchain_helper.py:100-120 | reports only grow as rows are checked: those for the first m rows begin those for the first n |
| AuditChain.ReportKept | door_alarm_system/blockchain_helper.py:100-120 | a report made while checking some rows is in the final list |
| AuditChain.ReportsEveryBadHash | door_alarm_system/blockchain_helper.py:101-109 | every row whose stored hash differs from the recomputed one is reported with both hashes |
| AuditChain.ReportsEveryBrokenLink | door_alarm_system/blockchain_helper.py:111-120 | every row after the first whose previous hash differs from the previous row's hash is reported with both |
| AuditChain.BothFaultsReportedTwice | door_alarm_system/blockchain_helper.py:100-123 | a row with both faults gets two reports, so the count in the message counts reports rather than rows |
| AuditChain.VerifyBlocks | door_alarm_system/blockchain_helper.py:93-125 | the loop returns the verdict, message and reports of the specification; valid exactly for a non-empty intact table |
| AuditChain.ExportRange | door_alarm_system/blockchain_helper.py:177-184 | a row is exported exactly when its index is within the bounds that are given, in index order |
| AuditChain.ExportAll | door_alarm_system/blockchain_helper.py:177-184 | without bounds the whole table is exported |
| AuditChain.ExportProof | door_alarm_system/blockchain_helper.py:166-209 | the export lists the selected rows and their count, the verdict on the whole table, and a signature over the list of the selected hashes |
| AuditChain.Hashes | door_alarm_system/blockchain_helper.py:206-208 | the stored hashes of the rows, in order |
| AuditChain.AuditLog.constructor | door_alarm_system/models.py:154-172 | an empty block table |
| AuditChain.AuditLog.LatestBlock | door_alarm_system/blockchain_helper.py:32-34 | returns the latest block of the table |
| AuditChain.AuditLog.CreateGenesis | door_alarm_system/blockchain_helper.py:14-29 | appends the genesis block as a new row |
| AuditChain.AuditLog.Add | door_alarm_system/blockchain_helper.py:37-83 | the table and the returned block are those of the add_blockchain_event specification |
| AuditChain.AuditLog.Verify | door_alarm_system/blockchain_helper.py:86-125 | verify_blockchain returns the verdict of the specification for the current table |
| ChangeControl.Approve | door_alarm_system/app.py:2009-2059 | only a pending request, by an administrator with the right password and a signature reason, is decided; "approve" approves and any other action rejects; the approver, date and signature are recorded and the implementation fields are kept |
| ChangeControl.ApproveGuards | door_alarm_system/app.py:2009-2035 | approval succeeds exactly when every guard passes (a missing action makes the signature text fail), and an already processed request is refused as such |
| ChangeControl.Implement | door_alarm_system/app.py:2089-2141 | only an approved request, by an administrator with the right password and a reason, is implemented; implementer, date and signature are recorded, the version after is replaced only when given, and the approval is kept |
| ChangeControl.ImplementGuards | door_alarm_system/app.py:2089-2115 | implementation succeeds exactly when every guard passes, and a request not approved is refused as such |
| ChangeControl.ChangeLifecycle | door_alarm_system/app.py:2015-2134 | a request moves pending to approved to implemented, or pending to rejected; a rejected or implemented request admits no further step and an approved one cannot be approved again |
| ChangeControl.ChangeRequest.constructor | door_alarm_system/models.py:518-587 | a new request is pending with nothing signed |
| ChangeControl.ChangeRequest.HandleApprove | door_alarm_system/app.py:2005-2076 | the request's new state is the approval's result, or unchanged with the refusal returned |
| ChangeControl.ChangeRequest.HandleImplement | door_alarm_system/app.py:2085-2150 | the request's new state is the implementation's result, or unchanged with the refusal returned |
| ChangeControl.Execute | door_alarm_system/app.py:2402-2454 | only a pending or retest test, by an administrator with the right password, the actual result, a status and a reason, is executed; the status is taken from the form unchecked, executor, date and signature are recorded, notes replaced only when given, the review kept |
| ChangeControl.ExecuteGuards | door_alarm_system/app.py:2402-2429 | execution succeeds exactly when every guard passes |
| ChangeControl.Review | door_alarm_system/app.py:2484-2544 | only a pass or fail test not yet reviewed, by an administrator with the right password and a reason, is reviewed; "retest" sends it back and clears the reviewer, any other action signs the review and keeps the status; the execution is kept |
| ChangeControl.ReviewGuards | door_alarm_system/app.py:2484-2514 | review succeeds exactly when every guard passes |
| ChangeControl.ReviewOnce | door_alarm_system/app.py:2490-2496 | after a signed review by a user with a non-zero id, every further review and every execution is refused |
| ChangeControl.RetestReopens | door_alarm_system/app.py:2540-2544 | a "retest" review reopens the test: it can be executed again and ends unreviewed with the new pass or fail result |
| ChangeControl.ExecuteMayStayOpen | door_alarm_system/app.py:2416-2449 | because the status is not checked, an execution may leave the test pending, and a later execution then replaces the recorded result and signature |
| ChangeControl.ValidationTest.constructor | door_alarm_system/models.py:696-745 | a new test is pending with nothing recorded |
| ChangeControl.ValidationTest.HandleExecute | door_alarm_system/app.py:2398-2471 | the test's new state is the execution's result, or unchanged with the refusal returned |
| ChangeControl.ValidationTest.HandleReview | door_alarm_system/app.py:2480-2560 | the test's new state is the review's result, or unchanged with the refusal returned |
| ChangeControl.ValidationTest.SignReview | door_alarm_system/app.py:2533-2537 | the reviewer, date and signature are recorded and review comments are appended to the notes |
| DashboardRealtime.BadgeFor | door_alarm_system/static/js/dashboard-realtime.js:448-474 | the badge reads real-time exactly while connected, polling exactly when disconnected with a timer installed, offline exactly when disconnected without one |
| DashboardRealtime.StartPolling | door_alarm_system/static/js/dashboard-realtime.js:363-374 | with a timer installed nothing changes; otherwise a 5000 ms timer is installed and one poll is issued at once; connection, badge and sent messages are untouched |
| DashboardRealtime.StopPolling | door_alarm_system/static/js/dashboard-realtime.js:376-382 | the timer is cleared and nothing else changes |
| DashboardRealtime.StartPollingIdempotent | door_alarm_system/static/js/dashboard-realtime.js:363-374 | starting polling twice is starting it once |
| DashboardRealtime.Initialize | door_alarm_system/static/js/dashboard-realtime.js:7-32 | a new client is disconnected with no retries, has a socket exactly when the Socket.IO client is loaded, polls every 5000 ms having polled once, and shows the polling badge |
| DashboardRealtime.OnConnect | door_alarm_system/static/js/dashboard-realtime.js:61-75 | connected, retries back to 0, polling stopped, badge real-time, and client_ready sent exactly when a socket remains |
| DashboardRealtime.OnDisconnect | door_alarm_system/static/js/dashboard-realtime.js:82-87 | as written: disconnected and polling, but the badge is the one drawn before the timer was installed |
| DashboardRealtime.OnDisconnectRefreshed | door_alarm_system/static/js/dashboard-realtime.js:82-87 | the handler with the badge redrawn after polling starts: disconnected, polling, badge polling |
| DashboardRealtime.FallbackToPolling | door_alarm_system/static/js/dashboard-realtime.js:417-422 | disconnected, socket dropped, polling, badge polling; retries and sent messages kept |
| DashboardRealtime.OnConnectError | door_alarm_system/static/js/dashboard-realtime.js:89-97 | every failure is counted; the fifth and later ones fall back to polling, earlier ones only count |
| DashboardRealtime.OnTick | door_alarm_system/static/js/dashboard-realtime.js:368-370 | a tick of an installed timer issues one poll and changes neither timer nor connection |
| DashboardRealtime.GetStatus | door_alarm_system/static/js/dashboard-realtime.js:481-487 | reports the connection, whether a timer is installed, and the retry count |
| DashboardRealtime.HandlersKeepConsistent | door_alarm_system/static/js/dashboard-realtime.js:61-97 | connect, the corrected disconnect, connect errors, ticks and the fallback keep the badge current and never leave a live connection beside a polling timer |
| DashboardRealtime.DisconnectLeavesStaleBadge | door_alarm_system/static/js/dashboard-realtime.js:82-87 | as written, a disconnect after a live connection shows Offline although the polling timer is then installed |
| DashboardRealtime.ConnectErrorsCount | door_alarm_system/static/js/dashboard-realtime.js:89-92 | n consecutive failures add n to the retry count and send nothing |
| DashboardRealtime.ConnectErrorsBelowLimit | door_alarm_system/static/js/dashboard-realtime.js:89-97 | below the limit of 5, failures only count |
| DashboardRealtime.ConnectErrorsStayFallenBack | door_alarm_system/static/js/dashboard-realtime.js:89-97 | once fallen back, further failures keep the client polling with no socket |
| DashboardRealtime.FallbackAfterMaxRetries | door_alarm_system/static/js/dashboard-realtime.js:14 | from a fresh retry count, five consecutive failures leave the client disconnected, without socket, polling, with the polling badge |
| DashboardRealtime.FallbackIsPermanent | door_alarm_system/static/js/dashboard-realtime.js:89-97 | every failure after the fallback keeps it |
| DashboardRealtime.DoorIndicator | door_alarm_system/static/js/dashboard-realtime.js:139-158 | the door bar is safe exactly for the text "Closed" and warning otherwise |
| DashboardRealtime.AlarmIndicator | door_alarm_system/static/js/dashboard-realtime.js:212-229 | the alarm bar is safe exactly for "Inactive" and danger otherwise |
| DashboardRealtime.HeroText | door_alarm_system/static/js/dashboard-realtime.js:180 | "DOOR " followed by the status in capitals |
| DashboardRealtime.UpdateDoorStatus | door_alarm_system/static/js/dashboard-realtime.js:139-193 | the door text is the status; the bar, hero class and icon are the secure ones exactly for "Closed"; the hero text is set; both elements flash |
| DashboardRealtime.UpdateAlarmStatus | door_alarm_system/static/js/dashboard-realtime.js:212-229 | the alarm text is the status, the bar is safe exactly for "Inactive", and the element flashes |
| DashboardRealtime.Counter | door_alarm_system/static/js/dashboard-realtime.js:317-351 | a counter with a new value ends showing it and flashes exactly when the value differs |
| DashboardRealtime.UpdateStatistics | door_alarm_system/static/js/dashboard-realtime.js:231-257 | each counter the snapshot carries takes its value, the others and every other field stay |
| DashboardRealtime.UpdateTimer | door_alarm_system/static/js/dashboard-realtime.js:259-267 | the timer shows the value followed by "s" and flashes |
| DashboardRealtime.UpdateUptime | door_alarm_system/static/js/dashboard-realtime.js:269-308 | a non-empty uptime text is shown, and flashes only when it differs from what was shown; an empty or missing one changes nothing |
| DashboardRealtime.ProcessUpdateMeaning | door_alarm_system/static/js/dashboard-realtime.js:100-137 | an update shows exactly the field-by-field expectation of the fields present, flashes exactly the expected trace, and stamps the update time |
| DashboardRealtime.ProcessUpdateTwice | door_alarm_system/static/js/dashboard-realtime.js:100-137 | applying one snapshot twice shows the same page as applying it once; the second pass animates no counter or uptime text, while door, alarm and timer flash again |
| DashboardRealtime.ExpectedShownIdempotent | door_alarm_system/static/js/dashboard-realtime.js:100-137 | what a snapshot shows does not depend on what was shown for the fields it carries |
| DashboardRealtime.ExpectedShownOnlyShown | door_alarm_system/static/js/dashboard-realtime.js:100-137 | the effect of an update depends only on what is shown, not on the flash history |
| DashboardRealtime.Repackage | door_alarm_system/static/js/dashboard-realtime.js:395-405 | a poll turns the flat counters into one statistics object and carries door, alarm and timer but never uptime |
| DashboardRealtime.OnPollResponse | door_alarm_system/static/js/dashboard-realtime.js:384-415 | only an ok response changes the page, and then as the update of its repackaged data |
| DashboardRealtime.PollKeepsUptime | door_alarm_system/static/js/dashboard-realtime.js:395-405 | a poll never changes the uptime text |
| DashboardRealtime.OpenDoorEventScenario | door_alarm_system/static/js/dashboard-realtime.js:100-137 | a push carrying an open door and ten events turns the door panel to warning, shows "DOOR OPEN", sets the counter to 10, and leaves alarm, timer and uptime alone |
| DashboardRealtime.FrameValueBetween | door_alarm_system/static/js/dashboard-realtime.js:331-345 | a frame at a non-negative elapsed time writes a value between the start and the target, and from the duration on the target itself; a frame stamped before the start writes a value on the far side of the start from the target |
| DashboardRealtime.FrameBeforeStart | door_alarm_system/static/js/dashboard-realtime.js:331-337 | a frame 5 ms before the start of a count from 0 to 1000 writes -20 |
| DashboardRealtime.FrameValueMonotone | door_alarm_system/static/js/dashboard-realtime.js:331-345 | later frames never move back toward the start |
| DashboardRealtime.EaseNumeratorBounds | door_alarm_system/static/js/dashboard-realtime.js:332-336 | for a non-negative elapsed time the eased progress lies in [0, 1]; for a frame stamped before the start it is negative; it is 1 exactly from the duration on |
| DashboardRealtime.EaseNumeratorMonotone | door_alarm_system/static/js/dashboard-realtime.js:332-336 | the eased progress never decreases |
| DashboardRealtime.AnimateCounter | door_alarm_system/static/js/dashboard-realtime.js:317-351 | nothing is written when the value is unchanged; each frame writes its frame value until the first frame at or after the duration, which is followed by the target; frames at non-negative times write values between start and target, earlier ones values beyond the start |
| DashboardRealtime.DashboardRealTime.constructor | door_alarm_system/static/js/dashboard-realtime.js:7-32 | the client's transport state is the initial one and the page is the given one |
| DashboardRealtime.DashboardRealTime.StartPollingTimer | door_alarm_system/static/js/dashboard-realtime.js:363-374 | the transport state becomes that of startPolling, the page is untouched |
| DashboardRealtime.DashboardRealTime.StopPollingTimer | door_alarm_system/static/js/dashboard-realtime.js:376-382 | the transport state becomes that of stopPolling, the page is untouched |
| DashboardRealtime.DashboardRealTime.UpdateConnectionIndicator | door_alarm_system/static/js/dashboard-realtime.js:448-474 | the badge is redrawn from the connection and timer |
| DashboardRealtime.DashboardRealTime.HandleConnect | door_alarm_system/static/js/dashboard-realtime.js:61-75 | the transport state becomes that of the connect handler |
| DashboardRealtime.DashboardRealTime.HandleDisconnect | door_alarm_system/static/js/dashboard-realtime.js:82-87 | the transport state becomes that of the disconnect handler as written |
| DashboardRealtime.DashboardRealTime.Fallback | door_alarm_system/static/js/dashboard-realtime.js:417-422 | the transport state becomes that of fallbackToPolling |
| DashboardRealtime.DashboardRealTime.HandleConnectError | door_alarm_system/static/js/dashboard-realtime.js:89-97 | the transport state becomes that of the connect_error handler |
| DashboardRealtime.DashboardRealTime.HandleTick | door_alarm_system/static/js/dashboard-realtime.js:368-370 | the transport state becomes that of a timer tick |
| DashboardRealtime.DashboardRealTime.HandleNewEvent | door_alarm_system/static/js/dashboard-realtime.js:77-80 | the page becomes the update of the pushed snapshot |
| DashboardRealtime.DashboardRealTime.HandlePollResponse | door_alarm_system/static/js/dashboard-realtime.js:384-415 | the page becomes the poll response's |
| DashboardRealtime.DashboardRealTime.Status | door_alarm_system/static/js/dashboard-realtime.js:481-487 | getStatus reports the client's connection, timer and retries |
| DateTimeFormat.LayoutOf | door_alarm_system/app.py:765-779 | each of the three named preferences selects its own layout, and anything else the year-first dash layout |
| DateTimeFormat.Render | door_alarm_system/app.py:765-785 | the date in the chosen layout, a space and the time; its meaning is stated by PreferenceOrder, ClockOrder and the round-trip lemmas |
| DateTimeFormat.PreferenceOrder | door_alarm_system/app.py:765-785 | DD/MM/YYYY prints day/month/year, MM/DD/YYYY month/day/year, DD-MM-YYYY day-month-year and any other preference year-month-day, each followed by a space and the time |
| DateTimeFormat.ClockOrder | door_alarm_system/app.py:772-785 | "12h" prints the 12-hour clock with seconds and AM or PM, anything else the 24-hour clock with seconds |
| DateTimeFormat.StyleOf | door_alarm_system/app.py:772-780 | the 12-hour clock is used exactly for the preference "12h"; anything else gets the 24-hour clock |
| DateTimeFormat.Hour12 | door_alarm_system/app.py:774 | %I gives an hour from 1 to 12 |
| DateTimeFormat.Hour12RoundTrip | door_alarm_system/app.py:774 | the 12-hour value with its AM/PM marker determines the hour of the day |
| DateTimeFormat.FormatDateTime | door_alarm_system/app.py:752-785 | a missing value prints as the empty string |
| DateTimeFormat.FormatRoundTrip | door_alarm_system/app.py:752-785 | every timestamp the filter prints reads back as the same date and time, in every date layout and on both clocks |
| DateTimeFormat.RoundTrip24 | door_alarm_system/app.py:770-785 | the 24-hour form reads back exactly |
| DateTimeFormat.RoundTrip12 | door_alarm_system/app.py:770-785 | the 12-hour form with its AM/PM marker reads back exactly |
| DateTimeFormat.DateRoundTrip | door_alarm_system/app.py:765-779 | each date layout's text reads back as year, month and day and holds no space |
| DateTimeFormat.TimeRoundTrip | door_alarm_system/app.py:772-780 | each clock's time text reads back as its hour, minute and second and holds no space |
| DateTimeFormat.FormatInjective | door_alarm_system/app.py:752-785 | two different timestamps never print alike under one preference |
| Uptime.TruncSeconds | door_alarm_system/app.py:718 | int() of the elapsed seconds truncates toward zero, for negative elapsed times too |
| Uptime.CalculateUptime | door_alarm_system/app.py:713-749 | the whole seconds split into days, hours below 24, minutes and seconds below 60 that add back up, and the text is built from the pieces chosen by size |
| Uptime.UptimeParts | door_alarm_system/app.py:725-730 | the text has three pieces once a day or an hour has passed and two before |
| Uptime.UptimeStringRoundTrip | door_alarm_system/app.py:724-730 | the uptime text reads back as days-hours-minutes, hours-minutes-seconds or minutes-seconds, whichever the size chose |
| Uptime.FirstDayTextExact | door_alarm_system/app.py:724-730 | within the first day the text gives the uptime to the second |
| Uptime.LaterDaysTextToTheMinute | door_alarm_system/app.py:724-726 | from the first full day on the text drops the seconds and gives the uptime to the minute |
| Licensing.ActiveLicense | door_alarm_system/license_helper.py:11-14 | none exactly when no row is active; otherwise an active row of the table |
| Licensing.ActiveIsFirst | door_alarm_system/license_helper.py:11-14 | the active licence is the earliest active row |
| Licensing.CreateThenActive | door_alarm_system/license_helper.py:11-14 | a newly added active row becomes the active licence only when no earlier row is active |
| Licensing.ValidateLicense | door_alarm_system/license_helper.py:17-26 | valid exactly when an active licence exists and is valid; the message is the missing-licence text, the licence's status, or "License is valid" |
| Licensing.RefusalExplains | door_alarm_system/license_helper.py:17-26 | a refusal always says either that no licence is active or that it has expired |
| Licensing.CanAddUser | door_alarm_system/license_helper.py:29-43 | a user can be added exactly when a valid active licence has a seat left, and each refusal and the acceptance carry their message with the remaining count |
| Licensing.CanAddDoor | door_alarm_system/license_helper.py:46-60 | a door can be added exactly when a valid active licence has a door left, with the same messages for doors |
| Licensing.CheckFeatureEnabled | door_alarm_system/license_helper.py:63-79 | true exactly for a valid active licence and one of the four feature names whose flag is set; any other name is false |
| Licensing.Remaining | door_alarm_system/license_helper.py:101-104 | max(0, limit - current): positive exactly while below the limit, and adding up to the limit when positive |
| Licensing.GetLicenseInfo | door_alarm_system/license_helper.py:82-113 | "No license found" exactly without an active licence; otherwise validity, status, remaining seats and doors, and the dates or "Lifetime" and "N/A" |
| Licensing.InfoAgreesWithChecks | door_alarm_system/license_helper.py:29-113 | the summary agrees with the checks: a user or door can be added exactly when the summary is active with one remaining, and a feature is enabled exactly when the summary is active and lists it |
| Licensing.KeyPrefix | door_alarm_system/license_helper.py:146-153 | the prefix of a type, EDOMOS for an unknown one, holds no dash |
| Licensing.GenerateLicenseKey | door_alarm_system/license_helper.py:144-156 | a key starts with "EDOMOS-" and has the prefix and sixteen more characters |
| Licensing.KeyRoundTrip | door_alarm_system/license_helper.py:144-156 | a key splits at its dashes into EDOMOS, the type's prefix and sixteen upper-case hex digits that decode back to the eight random bytes |
| Licensing.KeySplits | door_alarm_system/license_helper.py:153-156 | the three dash-separated parts of a key are EDOMOS, the prefix and the hex digits |
| Licensing.KeysDistinct | door_alarm_system/license_helper.py:144-156 | keys of types with different prefixes, or from different random bytes, never coincide |
| Licensing.Merge | door_alarm_system/license_helper.py:204-205 | every given limit or flag replaces the tier's value and the others stay |
| Licensing.MergeLaws | door_alarm_system/license_helper.py:204-205 | updating with nothing changes nothing, and updating twice with the same limits is updating once |
| Licensing.TierKey | door_alarm_system/license_helper.py:201 | the tier entry read is the type's own, or professional's for an unknown type |
| Licensing.NewLicense | door_alarm_system/license_helper.py:211-226 | the new row is active, carries the key, type, limits and flags of the configuration and the customer's dates |
| Licensing.CreateAsWritten | door_alarm_system/license_helper.py:200-226 | as written: the licence gets the merged configuration and the merge is written into the tier table itself |
| Licensing.OverridesLeakIntoTiers | door_alarm_system/license_helper.py:201-205 | as written, a starter licence with 100 users makes the next starter licence created without overrides a 100-user one, and an unknown type's overrides change the professional tier |
| Licensing.CreateLicenseSpec | door_alarm_system/license_helper.py:200-226 | with a copied tier entry, the overrides apply to this licence alone |
| Licensing.CreateUsesPreset | door_alarm_system/license_helper.py:160-201 | without overrides a licence gets exactly its tier's preset limits and flags, an unknown type the professional ones |
| Licensing.LicenseStore.constructor | door_alarm_system/license_helper.py:11-14 | the store holds the given licence rows |
| Licensing.LicenseStore.CreateLicense | door_alarm_system/license_helper.py:196-229 | adds one active row built from a copied tier entry and a key from the random bytes |
| MobileAudio.Silenced | door_alarm_system/static/js/mobile-audio.js:121-123 | a silenced clip is paused, rewound and not looping, with its source and volume kept |
| MobileAudio.SilenceAll | door_alarm_system/static/js/mobile-audio.js:128-137 | every loaded ringtone is silenced and no ringtone is added or removed |
| MobileAudio.SilenceFirst | door_alarm_system/static/js/mobile-audio.js:119-137 | silencing the current clip before silencing them all changes nothing |
| MobileAudio.LoadedRingtones | door_alarm_system/static/js/mobile-audio.js:41-60 | the loaded table includes the default ringtone |
| MobileAudio.ShowNotice | door_alarm_system/static/js/mobile-audio.js:230-269 | a notification naming the ringtone is opened and tracked only with permission; nothing else changes |
| MobileAudio.StartVibration | door_alarm_system/static/js/mobile-audio.js:161-174 | the repeating vibration starts only when vibration is enabled and supported and the current clip loops; nothing else changes |
| MobileAudio.StopSpec | door_alarm_system/static/js/mobile-audio.js:116-159 | the same ringtones, none of them playing; StopLeavesQuiet states the rest of the cleared state |
| MobileAudio.StopLeavesQuiet | door_alarm_system/static/js/mobile-audio.js:116-159 | after a stop nothing sounds, loops, vibrates or waits to stop, no triggered alarm is active, the ringtones are all still there, and every open notification is closed |
| MobileAudio.StopIdempotent | door_alarm_system/static/js/mobile-audio.js:116-159 | stopping twice is stopping once |
| MobileAudio.PlaySpec | door_alarm_system/static/js/mobile-audio.js:62-114 | the ringtone table keeps its entries and nothing plays unless the outcome is Played; PlayOutcomes states each outcome |
| MobileAudio.StopKeepsValid | door_alarm_system/static/js/mobile-audio.js:116-159 | a stop leaves the manager's invariant holding |
| MobileAudio.PlayOutcomes | door_alarm_system/static/js/mobile-audio.js:62-114 | playing stops a playing alarm first and falls back to the default clip for an unknown name; on success exactly that clip plays, looping iff the duration is at least 5000 ms, triggered as given, auto-stop armed; a refused play leaves nothing playing; with no clip only the stop happens |
| MobileAudio.QuietedIsStill | door_alarm_system/static/js/mobile-audio.js:63-66 | the preliminary stop leaves a valid state with nothing sounding |
| MobileAudio.PreparedIsStill | door_alarm_system/static/js/mobile-audio.js:77-86 | readying a clip starts nothing, sets its looping from the duration and records the triggered flag |
| MobileAudio.StartedPlaysOnlyKey | door_alarm_system/static/js/mobile-audio.js:91-105 | starting from silence exactly the chosen clip sounds, with the auto-stop armed for the duration |
| MobileAudio.AlarmSoundDefaultsToSinglePlay | door_alarm_system/static/js/mobile-audio.js:277-279 | playAlarmSound's default of 3000 ms plays the clip once, never looping and never as a triggered alarm, and starts no repeating vibration |
| MobileAudio.MobileAudioManager.constructor | door_alarm_system/static/js/mobile-audio.js:3-18 | a new manager holds the loaded ringtones and nothing is playing |
| MobileAudio.MobileAudioManager.CloseAllNotifications | door_alarm_system/static/js/mobile-audio.js:218-228 | every tracked notification is closed and the list emptied |
| MobileAudio.MobileAudioManager.StopVibration | door_alarm_system/static/js/mobile-audio.js:208-216 | the repeating vibration is cleared and nothing else changes |
| MobileAudio.MobileAudioManager.SilenceRingtones | door_alarm_system/static/js/mobile-audio.js:128-137 | the loop silences every loaded ringtone |
| MobileAudio.MobileAudioManager.StopAlarm | door_alarm_system/static/js/mobile-audio.js:116-159 | the new state is that of the stop specification |
| MobileAudio.MobileAudioManager.ClearFlags | door_alarm_system/static/js/mobile-audio.js:139-153 | playing, triggered, vibration, auto-stop and wake lock are all cleared |
| MobileAudio.MobileAudioManager.ShowAlarmNotification | door_alarm_system/static/js/mobile-audio.js:230-269 | the new state is that of showing the notification |
| MobileAudio.MobileAudioManager.PrepareClip | door_alarm_system/static/js/mobile-audio.js:77-86 | the clip is set to full volume and to loop for a long alarm, and the triggered flag recorded |
| MobileAudio.MobileAudioManager.StartClip | door_alarm_system/static/js/mobile-audio.js:91-105 | the state after a successful play(): the clip playing, vibration, notification and auto-stop |
| MobileAudio.MobileAudioManager.Launch | door_alarm_system/static/js/mobile-audio.js:91-93 | the clip plays and becomes the current one |
| MobileAudio.MobileAudioManager.ArmAutoStop | door_alarm_system/static/js/mobile-audio.js:102-105 | the auto-stop is armed for the duration |
| MobileAudio.MobileAudioManager.Vibrate | door_alarm_system/static/js/mobile-audio.js:161-174 | the new state is that of startVibration |
| MobileAudio.MobileAudioManager.PlayAlarmRingtone | door_alarm_system/static/js/mobile-audio.js:62-114 | the new state and the outcome are those of the play specification |
| MobileAudio.MobileAudioManager.PlayAlarmSound | door_alarm_system/static/js/mobile-audio.js:277-279 | playAlarmSound is playAlarmRingtone with its defaults, never triggered |
| Models.HashPassword | door_alarm_system/models.py:33-34 | the stored hash records its salt and the key derivation of the password under it |
| Models.HashThenCheck | door_alarm_system/models.py:33-41 | a fresh hash accepts its own password, and accepts another exactly when the two collide under the salt |
| Models.WithPassword | door_alarm_system/models.py:33-38 | set_password: the new password checks, the change is stamped, every trace of a pending reset is cleared, and name, role and activity are kept |
| Models.WithPasswordOverwrites | door_alarm_system/models.py:33-38 | setting a password twice is setting it once with the later values |
| Models.User.constructor | door_alarm_system/models.py:8-31 | a user object holding the given account |
| Models.User.SetPassword | door_alarm_system/models.py:33-41 | the user's fields become those of set_password, after which the new password checks |
| Models.User.CheckPassword | door_alarm_system/models.py:40-41 | whether the password matches the stored hash; HashThenCheck states that it accepts the password last set |
| Models.HashedFieldsOf | door_alarm_system/models.py:193-201 | the hash covers index, type, description, timestamp text (empty when unset), previous hash, nonce and user id |
| Models.CalculateHash | door_alarm_system/models.py:188-204 | the digest of the seven hashed fields; HashIgnoresBookkeeping states that the other columns do not affect it |
| Models.HashIgnoresBookkeeping | door_alarm_system/models.py:188-204 | row id, address, creation time and stored hash do not enter the hash: blocks agreeing on the seven hashed fields hash alike |
| Models.GetStatus | door_alarm_system/models.py:373-387 | inactive, expired after the expiry day, a countdown within 30 days (0 on the day itself), otherwise "Active" |
| Models.IsValid | door_alarm_system/models.py:361-371 | active and not past its expiration date; ValidIffActiveStatus ties it to the status text |
| Models.ValidIffActiveStatus | door_alarm_system/models.py:361-387 | a licence is valid exactly when its status is "Active" or a countdown; on its expiry day it is still valid with 0 days left |
| Models.IsExpired | door_alarm_system/models.py:496-500 | strictly after the expiration date, never without one; ExpiryIsPermanent states that it stays true |
| Models.ExpiryIsPermanent | door_alarm_system/models.py:496-500 | once a training record has expired it stays expired |
| ScheduledReports.ClockRoundTrip | door_alarm_system/app.py:5746-5750 | every time of day written as HH:MM passes the check and reads back as itself |
| ScheduledReports.ParseClock | door_alarm_system/app.py:5746-5750 | the HH:MM text split on the colon into two integers as int() reads them, none otherwise; ClockRoundTrip shows every in-range HH:MM reads back |
| ScheduledReports.DefaultTimeIsNine | door_alarm_system/app.py:5744 | the default time reads as 09:00 |
| ScheduledReports.CheckTime | door_alarm_system/app.py:5746-5752 | an accepted time is an hour 0-23 and a minute 0-59; anything else is refused as malformed or out of range |
| ScheduledReports.CreateSchedule | door_alarm_system/app.py:5735-5777 | a created schedule stores the request's report type and recipients (a number as its decimal text), its frequency, which is one of the three, its time text (the default when none was sent) and its enabled flag (true by default), with no last run; the first run is strictly after now on the day 1, 7 or 30 days ahead, at the hour and minute the time text reads as, whether or not it is written as HH:MM |
| ScheduledReports.CreateAcceptedExactly | door_alarm_system/app.py:5735-5752 | creation succeeds exactly when type, frequency and recipients are present, the frequency is one of the three and the time (09:00 when absent) is two integers in range around one colon |
| ScheduledReports.CreateKeepsTime | door_alarm_system/app.py:5754-5777 | every HH:MM in range is accepted and the first run is at that time of day, enabled by default |
| ScheduledReports.LooseTimeAccepted | door_alarm_system/app.py:5746-5764 | a time not written as HH:MM but read as two integers, such as "9:5", is accepted and stored as sent, and the first run is at 09:05 |
| ScheduledReports.NextRunAfter | door_alarm_system/app.py:5755-5764 | a run set at least one day ahead at a given hour and minute is strictly after now, falls on that day and at that time of day |
| ScheduledReports.SchedulerDaysAhead | door_alarm_system/app.py:6526-6533 | the scheduler moves 1, 7 or 30 days ahead, and 1 for an unknown frequency |
| ScheduledReports.ReportWindow | door_alarm_system/app.py:6484-6495 | the report covers 1, 7 or 30 days back to today, and 1 day for an unknown frequency |
| ScheduledReports.Reschedule | door_alarm_system/app.py:6518-6536 | fails exactly when the stored time (nine o'clock when empty) does not read as an in-range hour and minute; otherwise only the last run and next run change, the last run is now, and the next run is after now on the day the frequency gives; the next run is at the stored hour and minute |
| ScheduledReports.RescheduleKeepsClock | door_alarm_system/app.py:6518-6536 | a schedule stored as HH:MM is rescheduled at exactly that hour and minute on the frequency's day, and one stored without a time at 09:00 |
| ScheduledReports.RescheduledNotDueAgain | door_alarm_system/app.py:6472-6536 | a schedule created through the API and sent when due gets its last run and a next run after the send, on the day its frequency names, so it is not due again; nothing else changes |
| ScheduledReports.ParsedScheduleNotDueAgain | door_alarm_system/app.py:6518-6536 | any stored schedule, created or edited, whose time reads in range is not due again once sent |
| ScheduledReports.ScheduledReport.constructor | door_alarm_system/models.py:275-292 | a schedule object holding the given row |
| ScheduledReports.ScheduledReport.RecordSent | door_alarm_system/app.py:6518-6545 | after a send the state becomes the rescheduled one, with the last run now and the next run at the stored hour and minute; a malformed stored time rolls everything back |
| DoorMonitor.DoorReading | door_alarm_system/app.py:995-1059 | a stable reading is ignored unless it changes the door state at least one second after the last door event; an opening sets door open, timer active, alarm off and takes the stored timer duration (30 s by default); a closing clears all three flags |
| DoorMonitor.TimerEnd | door_alarm_system/app.py:1149-1201 | the alarm fires exactly when the timer is still active, the door still open and the full duration has elapsed; the timer always stops, and otherwise the alarm is kept only while the door is open |
| DoorMonitor.DecisionsKeepSafe | door_alarm_system/app.py:995-1201 | neither a reading nor the end of a timer ever leaves the alarm or the timer active with the door closed |
| DoorMonitor.RunReadingsWellSpaced | door_alarm_system/app.py:995-1059 | over any sequence of readings the accepted events alternate open and close, each at least one second after the previous one, and the final state is the last accepted edge |
| DoorMonitor.PrependWellSpaced | door_alarm_system/app.py:995-1059 | an accepted edge followed by a well-spaced run from the state it leads to stays well spaced |
| DoorMonitor.Stamp | door_alarm_system/app.py:1239-1246 | an approved event type has its timestamp renewed; a duplicate leaves the timestamp map unchanged |
| DoorMonitor.DedupeWindow | door_alarm_system/app.py:1239-1246 | within two seconds of an approval the same event type is dropped, while other types are judged as before |
| DoorMonitor.DroppedRepeatsDoNotExtend | door_alarm_system/app.py:1239-1246 | a burst of dropped repeats does not push the window forward: the first repeat two seconds after the last approval is approved |
| DoorMonitor.StampAllDropped | door_alarm_system/app.py:1239-1246 | a sequence of dropped events leaves the timestamp map as it was |
| DoorMonitor.LogSpec | door_alarm_system/app.py:1220-1267 | every call is counted and the stamp follows the de-duplication rule; the event is stored exactly when approved, with its type, description and time; the logged door state changes only on an approved door_open or door_close, and the logged alarm state only on an approved alarm_triggered |
| DoorMonitor.DoorEdgesLoggedWithinSlack | door_alarm_system/app.py:995-1068 | when log_event reads its clock at most `slackMs` after the edge, the door stamps keep trailing the door state; an accepted opening or closing that comes at least one second plus `slackMs` after the previous door event is approved by the de-duplication, so with no delay every accepted edge is logged |
| DoorMonitor.LateLogDropsOpening | door_alarm_system/app.py:1233-1242 | edges accepted at 1000, 2000 and 3000 ms but logged at 1050, 2000 and 3010 ms lose the second door_open: the log holds only the first opening and the closing |
| DoorMonitor.OtherEventsKeepTrail | door_alarm_system/app.py:1239-1246 | logging any other event type leaves the door stamps trailing the door state, for any delay bound |
| DoorMonitor.DoorController.constructor | door_alarm_system/app.py:413-438 | the module starts with the door closed, no alarm, no timer, a 30 second duration, no timestamps and a zero counter, with the door stamps trailing the door state for any delay bound |
| DoorMonitor.DoorController.LogEvent | door_alarm_system/app.py:1220-1267 | returns whether the event was approved; the logging globals become the log_event specification of the old ones; door flags, duration and timers are untouched |
| DoorMonitor.DoorController.AcceptOpening | door_alarm_system/app.py:1003-1047 | an accepted opening sets the door open with the timer running and no alarm, records the edge time and the chosen duration, runs log_event for door_open at log_event's own clock reading, and starts one timer with that duration |
| DoorMonitor.DoorController.AcceptClosing | door_alarm_system/app.py:1055-1068 | an accepted closing clears all three flags, records the edge time, keeps the duration, runs log_event for door_close and starts no timer |
| DoorMonitor.DoorController.ProcessReading | door_alarm_system/app.py:995-1068 | the new door state is the reading decision taken at the edge time; an opening runs log_event for door_open ("Door opened") at log_event's own later clock reading and starts exactly one timer with the chosen duration; a closing runs log_event for door_close ("Door closed"); an ignored reading changes no logging global; when the stamps trail the door state within the delay between the two clock readings, they still do afterwards, and an edge at least one second plus that delay after the previous one appends its event |
| DoorMonitor.DoorController.FinishAlarmTimer | door_alarm_system/app.py:1149-1201 | the flags follow the timer decision; a fired alarm runs log_event for alarm_triggered with its duration in the description; a cancelled timer changes no logging global; no timer is started and no stamp other than alarm_triggered's changes |
| SignatureModal.ValidateIff | door_alarm_system/static/js/signature-modal.js:218-246 | the form is accepted exactly when the trimmed password is non-empty and the trimmed reason has at least ten characters; each field is marked invalid exactly when it fails its own rule, with the matching message, and the typed inputs are kept |
| SignatureModal.ShowThenValidateRefuses | door_alarm_system/static/js/signature-modal.js:180-246 | a freshly opened dialog is refused with both fields marked and both "required" messages shown |
| SignatureModal.ShowClears | door_alarm_system/static/js/signature-modal.js:180-212 | opening the dialog shows it, clears both inputs, the counter and the error marks, stores the configuration, fills the description lines and sends nothing |
| SignatureModal.ShowSpec | door_alarm_system/static/js/signature-modal.js:180-212 | the dialog is visible with the new configuration and nothing is sent; ShowClears states the cleared inputs |
| SignatureModal.CounterMatches | door_alarm_system/static/js/signature-modal.js:95-160 | the counter always equals the length of the reason, which is what was typed up to the maximum length |
| SignatureModal.InvalidSendsNothing | door_alarm_system/static/js/signature-modal.js:248-252 | an invalid form posts no request, raises no toast and leaves the spinner and buttons as they were |
| SignatureModal.ValidSendsOnce | door_alarm_system/static/js/signature-modal.js:254-313 | a valid form posts exactly one request with the untrimmed reason and password; afterwards the spinner is hidden and both buttons enabled, and the dialog closes only on success |
| SignatureModal.SubmitSpec | door_alarm_system/static/js/signature-modal.js:248-313 | at most one request is appended to those already sent, and at most one toast raised; ValidSendsOnce, InvalidSendsNothing and ReplyHandling state each path |
| SignatureModal.OutcomeKeepsRequests | door_alarm_system/static/js/signature-modal.js:278-306 | handling a reply posts nothing, keeps the inputs and closes the dialog only on success |
| SignatureModal.ReplyHandling | door_alarm_system/static/js/signature-modal.js:278-306 | on success one success toast is raised and the signature reaches the callback exactly when there is one; on failure nothing is delivered, a message mentioning the password marks the password field instead of a toast, and any other message raises one error toast |
| SignatureModal.SilentRefusalUsesDefault | door_alarm_system/static/js/signature-modal.js:292-305 | a refusal without a message is reported in an error toast with the default text |
| SignatureModal.DefaultFailureIsSilentOnPassword | door_alarm_system/static/js/signature-modal.js:294-301 | the default failure text does not mention the password, so it never marks the password field |
| SignatureModal.SignatureDialog.constructor | door_alarm_system/static/js/signature-modal.js:15-20 | a new dialog is hidden, idle, without configuration, with empty inputs and nothing sent |
| SignatureModal.SignatureDialog.Show | door_alarm_system/static/js/signature-modal.js:180-212 | the dialog becomes the opened state for the given configuration |
| SignatureModal.SignatureDialog.TypeReason | door_alarm_system/static/js/signature-modal.js:95-160 | typing into the reason changes only the reason and its counter |
| SignatureModal.SignatureDialog.TypePassword | door_alarm_system/static/js/signature-modal.js:72-80 | typing into the password changes only the password |
| SignatureModal.SignatureDialog.ValidateForm | door_alarm_system/static/js/signature-modal.js:218-246 | returns the validation verdict and marks the fields, changing nothing else |
| SignatureModal.SignatureDialog.HandleReply | door_alarm_system/static/js/signature-modal.js:278-306 | the dialog becomes the reply outcome |
| SignatureModal.SignatureDialog.SubmitSignature | door_alarm_system/static/js/signature-modal.js:248-313 | the dialog becomes the submission outcome: validation, then the busy panel, the request, the reply and the finally block |

## Left out

- Hardware and media are not modelled. This covers GPIO pins and LEDs, the 50 ms stability check of the door reading, pygame audio, the camera, and e-mail. It also covers the anomaly database row and the Socket.IO broadcast raised when the alarm fires. None of these change the decisions modelled.
- Threads, sleeps and loops that wait are not modelled. One method call is one decision of the monitor loop, the timer thread, or the hourly scheduler loop. Locks and interleavings are not captured.
- DoorMonitor.DoorController.ProcessReading, DoorMonitor.DoorEdgesLoggedWithinSlack: the delay between monitor_door's clock reading and log_event's is a parameter, not a bound the source enforces. The guarantee that an accepted door edge is logged holds only when the edge comes at least one second plus that delay after the previous door event; LateLogDropsOpening shows an accepted opening dropped otherwise. The stored row's third clock reading (the IST `datetime.now`) is taken to be log_event's.
- DoorMonitor.LogSpec: an approved event is always stored. A failed database commit, which leaves the stamp renewed and stores no row, is not modelled. Neither are the steps log_event takes after the commit: the copy of each stored event into the audit chain, anomaly detection for door and alarm events, the camera capture and the Socket.IO broadcast.
- A timer setting that is not a number is not modelled. In the source it makes `int()` raise inside the monitor thread. The stored setting arrives as an optional integer.
- SQLAlchemy queries, Flask routing, sessions, templates, and GET page renders are reduced to their inputs and their written rows. When several rows tie on the ordering key, the model takes row order.
- JSON request members are absent, null, strings or integers. Booleans, fractions, arrays and objects are not modelled, and a 500 carries the exception's own text, which is not modelled either.
- ScheduledReports.CreateSchedule, AccountValidation.CreateSignature: a number stored in a text column is kept as its decimal text; the database's own typing of what it stores is not modelled.
- SHA-256, the password key-derivation function, the JSON serialiser, UUIDs, and random bytes arrive as function parameters or values.
- The clock is a parameter everywhere. Licence and schedule dates are day numbers with their texts.
- The uptime start arrives as the elapsed time in microseconds.
- Floating-point results are not modelled:
  - uptime `availability_percent`, and the dashboard's colour thresholds for it;
  - analytics averages, maxima, and open percentages;
  - the daily group-by queries;
  - AI confidences (kept as whole percentages), `np.mean` clustering, and `round(…, 1)`.
- AISecurity ties and persistence:
  - ties in Python's `max` over patterns are broken by the model's own order;
  - the pickle load and save of the engine, and the save every 50 events, are not modelled: the engine starts empty, as it does when no saved model exists.
- `%Y` is rendered as glibc does, without zero padding. Python's `str.strip` removes Unicode whitespace; the model's trim removes ASCII whitespace only. Likewise `Common.ToUpper`, used for the dashboard's hero text, upper-cases ASCII letters only, while JavaScript's `toUpperCase` is Unicode-aware; the door statuses the server sends are ASCII.
- Licensing only knows the six custom limit keys the tiers define; other keys in the overrides are not modelled.
- The blockchain statistics and search helpers, and the PDF and CSV parts of the export, are not modelled. Export is modelled as the range filter and the hash list.
- Scheduled reports: PDF rendering and e-mail delivery are not modelled, only the schedule and its next run.
- Dashboard: these are not modelled:
  - the DOM lookups that may find no element;
  - `updateLastEventTime`, the colour classes, the tooltip text, and the availability line;
  - the CSS animation classes, except for the flashed elements.
  `animateCounter` is modelled in exact integer milliseconds, with the easing curve as an exact fraction over `Scale` (250000, the square of the 500 ms duration), instead of floating point.
- MobileAudio: these are not modelled:
  - the audio-context resume and the awaits;
  - the notification `onclick` and service-worker handlers;
  - the vibration pattern as a physical effect; `wakeLock` is only a flag that `stopAlarm` clears, because the script never acquires a wake lock, so the release call is never reached;
  - real timers: the auto-stop timeout and the vibration interval are flags;
  - `playSingleSound`, `setCustomRingtone`, `testRingtone`, `requestNotificationPermission`, `initializeAudio`, `showNotification`, `getAvailableRingtones`, `setDefaultRingtone`. These are setup and test helpers outside the alarm path.
- SignatureModal: these are not modelled:
  - the toast DOM and its auto-hide;
  - the password visibility toggle, the cancel callback, and the focus timeout;
  - `toLocaleString`: the timestamp text is a parameter.
- SignatureModal.SignatureDialog.SubmitSignature: requires a configuration, because before `show` the source dereferences a null config. A success reply without a `signature` member is not modelled. Lengths are counted in characters rather than JavaScript UTF-16 code units, and trimming uses ASCII whitespace.

## Findings

| source | as written | input that shows it | evidently intended | confidence | as-written member | corrected member |
|---|---|---|---|---|---|---|
| door_alarm_system/static/js/dashboard-realtime.js:82-87 | the disconnect handler redraws the connection badge before it starts polling | a connected client receives `disconnect`: polling starts, but the badge still says Offline until the next event | redraw the badge after the polling timer is installed, so it says Polling | high (not executed) | DashboardRealtime.DisconnectLeavesStaleBadge | DashboardRealtime.HandlersKeepConsistent |
| door_alarm_system/license_helper.py:201-205 | `config = LICENSE_TIERS.get(...)` followed by `config.update(custom_limits)` changes the shared tier table | create a starter licence with custom max_users 100, then a starter licence with no overrides: the second one also gets 100 users | update a copy of the tier entry, so overrides apply to one licence only | high (not executed) | Licensing.OverridesLeakIntoTiers | Licensing.CreateUsesPreset |
