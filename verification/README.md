# TroofAI verification protocol, modelled and proved in Dafny

TroofAI decides whether a participant of a meeting is really at an enrolled
device. A Windows agent enrols a device key with a hub; a join token, signed by
the agent, binds the device to a participant; from then on the hub sends
challenges, the agent signs them, and a policy engine turns each response into a
trust status. This project models the hub, its two stores, its WebSocket
gateway and the agent, and proves what holds over whole runs.

## How the model is laid out

- `Framing`, `Crypto`: the newline-joined signing strings, and signatures
  idealised as pairs of key and text (section 8.2 of RFC 8017 and section 4 of
  RFC 4648 in the real system).
- `Entities`, `Storage`, `Policy`: rows, stored records, expiring keys, rules.
- `DeviceService`, `MeetingService`, `ChallengeService`, `EventsGateway`,
  `KeyService`, `EnrollmentService`, `WebSocketService`, `AgentSigning`: one
  module a component. Objects the source changes in place are classes; each
  method is proved against a function on the state as a value.
- `IssueLaws`, `HubLaws`: what the issue loop and each handler step keep.
- `Interleaved`, `CallHistory`, `BindHistory`, `Safety`: a state machine in which
  the verifying and binding calls are cut at their awaits, and each turn of the
  issue loop and each joining between its write and its audit event, so any number
  of calls run against the same challenge, token or participant, with a clock,
  revocations, agents that sign and messages anybody can send. A run is a sequence
  of states and steps; no history is stored in a state, the earlier steps of a call
  are found by walking back. What is still one step is listed at the end.
- `Separation`: when the agent's two kinds of signing string can be told apart.
- `Provenance`, `Notified`, `DeviceRows`: where every audit entry, gateway call,
  participant, token and device row of a run comes from, field by field.
- `Races`, `BindRaces`: exactly which of several calls against one challenge or
  one token succeed. `Stories`, `Sums`, `ReplayRaces`, `Crossings`: what the audit
  log tells when calls overlap. `Schedules` makes runs longer and reaches the
  states the counterexamples start from.
- `Sequential`, `OneTime`, `AuditReplay`, `GatewayLog`: the same handlers one call
  at a time.
- `Verdicts`, `Heartbeats`, `StaleGap`: exact verdicts and timing. `Connections`:
  what the agent's client guarantees to the gateway's routes and to the heartbeat
  rule.
- `Processes`, `Fleet`, `Hardware`: installations of the agent, any number of
  processes of each, and anybody else who enrols, against one hub. `Answers`: from
  the challenge a running agent receives to the verdict its answer gets.

## What is assumed

- A signature under a key only agents hold was made by an agent's signing step.
  Any other message, and any enrolment under any device id and key, can be sent by
  anybody at any time.
- Random ids (challenge ids, join tokens, device ids) and key pairs were never
  used before, neither drawn by the hub nor seen by an agent, and a device id is
  unknown to the hub when it is drawn; new meeting and participant ids are not yet
  in their tables.
- Instants are milliseconds on one clock shared by the hub, its Redis and the
  agent's timer. A key is readable up to and including its deadline. The timer
  fires when it is due. The text of an instant is a newline-free injective
  rendering (decimal digits in place of ISO 8601).
- Rows are never deleted, as no handler deletes any. Revoking a device is a step
  of the environment: no handler does it, and enrolling again undoes it.
- The two Redis key prefixes start with different letters, so each is a store of
  its own.
- The events of a socket come between its connection and its disconnection, and a
  client's connected and disconnected events alternate.
- Of single results: `Fleet.UndisputedAgrees` takes as a hypothesis on the run that
  nobody has rewritten the device's row with another key since the process
  enrolled (`Undisputed`); `Fleet.TpmAgrees` replaces it by a TPM that always works
  and no stranger at the device id (`TpmWorks`, `NoStranger`); `Fleet.KeyAgreement`
  and `Fleet.RunningAgentVerdict` need neither. `Hardware.HardwareClaimTrue` takes
  `NoStranger`. `AuditReplay.LogTellsAll` and
  `ReplayRaces.TidyReplay` take tokens that name existing meetings
  (`TokensNameMeetings`), the second also a schedule that is `Tidy`.
  `Safety.Agreement` takes that no binding tuple with a newline in a field that
  reads like the challenge was signed under the key before the verdict
  (`Unblurred`); `Safety.AgreementOrBlur` does without. The results on agreement are
  about challenges and bindings whose own fields, as the hub holds them, are free
  of newlines.

## Where the code and its documentation differ

The code is followed in each case.

- The protocol document (section 4d) asks for an expiry later than now; the code
  fails a response only when the clock is strictly past the expiry
  (challenge.service.ts:150).
- Deleting the challenge is called one-time use (challenge.service.ts:190), as is
  deleting the token (meeting.service.ts:135). The reads come awaits earlier, so
  several calls can get through: `Races.TwoVerdictsReachable` and
  `BindRaces.TwoBindingsReachable` are such runs, `Races.VerdictIff` and
  `BindRaces.BindIff` the exact conditions; one call at a time it is true
  (`OneTime.OneVerdict`, `OneTime.OneBinding`).
- The protocol document (section 1) has the software key persist under a name;
  `RSA.Create` keeps it in memory only (KeyService.cs:49), so it is remade at every
  start. `Fleet.KeyRemadeIff` says exactly when a key is kept.
- An enrolment of a known device id replaces its key, whoever sends it and whatever
  tenant it names (device.service.ts:20-31): an unknown tenant fails only after the
  row is written. `Fleet.NextEnrolmentDecides` is the exact effect.
- The protocol document (section 2) has the device id generated once, and the agent
  saves it for all later runs (EnrollmentService.cs:8-9). Two
  copies started before the first success can both enrol, under different ids:
  `Fleet.RivalCopiesReachable` is such a run, in which the second overwrites the file;
  `Fleet.FileKeptIff` is the exact condition under which the file keeps an id.
- The protocol document (section 6) calls a participant without a device UNKNOWN; a challenge turns it
  FAILED (challenge.service.ts:44-51). UNVERIFIED and EXTERNAL are never set.
- A join token is stored for whatever meeting the request names
  (meeting.service.ts:64-80). Binding with a token for a meeting that does not
  exist writes the row and then throws before the audit event
  (meeting.service.ts:149-151): `AuditReplay.LostBinding` is such a case and
  `AuditReplay.BindReplay` the exact condition.
- A row is updated and its event logged at two awaits (challenge.service.ts:206-216),
  so overlapping verdicts can leave a log that ends with another status than the
  row: `Crossings.LogLies` is such a run. `ReplayRaces.TidyReplay` is a condition on
  the schedule that rules it out. `Stories.ReplayExact` is exact, but close to the
  property itself: it compares the last effects of the two stories.
- The agent signs a five-line binding string and a ten-line challenge string with one
  key and no field of either is checked for newlines
  (ChallengeSigningService.cs:35-49, 63-74). The challenge string begins with a
  version tag, the binding string with a field of the request, so a binding with a
  newline in a field can have the text of a challenge string:
  `Separation.CollidesIff` says exactly when, `Separation.OwnDeviceCollides` that the
  challenge's own device is always such a case.
- The row a verdict rests on is read before the challenge is deleted
  (challenge.service.ts:159, 191), the clock after (challenge.service.ts:194-203), so
  the time in between counts against the five minutes: `StaleGap.StaleReachable` is a
  run in which a device whose beats keep to the schedule is judged STALE,
  `StaleGap.StaleIff` the exact condition.
- The disconnect handler removes one device route and stops
  (events.gateway.ts:42-48). It is enough exactly when the socket holds at most one
  route as it leaves (`EventsGateway.EventsGateway.DropRegistration`), which a socket
  that announces a single device, as the agent's does, always satisfies
  (`Connections.AgentsKeepToOne`).
- A heartbeat age of exactly five minutes is fresh (policy.service.ts:52), so in
  whole milliseconds `Heartbeats.NeverStaleIff` allows one more than 300000.

## Model

| member | source | states |
|---|---|---|
| `Safety.AgreementOrBlur` | services/hub-api/src/challenge/challenge.service.ts:139-213 | In any schedule and whatever anybody signs: a VERIFIED verdict on a newline-free challenge, against a row whose key only agents hold, means that by the expiry an agent with that key signed exactly this challenge's ids, nonce and times as its tenant, device and user and after it was stored, or a binding tuple with a newline in a field that has the challenge's text |
| `Safety.Agreement` | services/hub-api/src/challenge/challenge.service.ts:139-213 | If no such binding was signed under the key before the verdict, it is the challenge that was signed, after it was stored and no later than its expiry |
| `Safety.BindingAgreement` | services/hub-api/src/meeting/meeting.service.ts:108-135 | In any schedule and whatever anybody signs, newlines or not: a binding with newline-free fields is accepted under a key only agents hold only if an agent with that key and device id signed this token, meeting, participant and expiry, after the token was issued and before the hub read it back within its 30 s |
| `Separation.CollidesIff` | agent/windows/TroofAI.Companion/Services/ChallengeSigningService.cs:35-76 | An agent's binding string can have the text of a given newline-free challenge string exactly when the agent's device id stands among the challenge's ten lines with at least three before it and one after |
| `Separation.CollidesUnclean` | agent/windows/TroofAI.Companion/Services/ChallengeSigningService.cs:63-76 | It has that text only if one of the binding's fields holds a newline |
| `Separation.OwnDeviceCollides` | agent/windows/TroofAI.Companion/Services/ChallengeSigningService.cs:63-76 | The challenge's own device stands so, so for it there always is such a tuple |
| `BindHistory.TokenRetirement` | services/hub-api/src/meeting/meeting.service.ts:92-136 | Every binding call in progress did its GET within 30 s of the token being issued, for the token's meeting, and before any DEL of it |
| `BindHistory.TokenDeletedIsGone` | services/hub-api/src/meeting/meeting.service.ts:135-136 | After a DEL of a token no later GET finds it, whatever else runs |
| `Safety.OneSignatureOneChallenge` | services/hub-api/src/challenge/challenge.service.ts:164-185 | A signature that verifies for two challenges, under whatever device rows, means the two are one challenge in every field |
| `Safety.Retirement` | services/hub-api/src/challenge/challenge.service.ts:140-191 | Every call in progress on a challenge did its GET within 15 s of the challenge being stored and before any DEL of it |
| `Safety.DeletedIsGone` | services/hub-api/src/challenge/challenge.service.ts:190-191 | After a DEL of a challenge no later GET finds it, whatever else runs |
| `Races.VerdictIff` | services/hub-api/src/challenge/challenge.service.ts:139-191 | In any schedule a call about a stored challenge ends in a verdict exactly when it is from the challenge's device and its GET came within 15 s of the storing and before the first DEL |
| `Races.VerdictIffFound` | services/hub-api/src/challenge/challenge.service.ts:141-162 | In any schedule a finished call has a verdict exactly when its GET found the challenge and the device ids match |
| `Races.NoChallengeNoVerdict` | services/hub-api/src/challenge/challenge.service.ts:141-145 | A verdict is always about a challenge that was stored before and was still in its window |
| `Races.FoundIff` | services/hub-api/src/redis/redis.service.ts:24-38 | A stored challenge is found by a later GET exactly within 15 s and before the first DEL of it |
| `Races.BothJudge` | services/hub-api/src/challenge/challenge.service.ts:141-191 | Two calls both judge one challenge exactly when both are from its device and both GETs come within 15 s and before the first DEL |
| `Races.TwoVerdicts` | services/hub-api/src/challenge/challenge.service.ts:141-191 | From any reachable state with a live challenge, any two responses from its device can go on so that both calls' GETs find that challenge, one after the other, and each call answers its own request with a verdict |
| `Races.TwoVerdictsReachable` | services/hub-api/src/challenge/challenge.service.ts:141-191 | Such a state is reachable: a run in which the two GETs of calls 0 and 1 find the one challenge "c" and both calls end in a verdict on it |
| `BindRaces.BindIff` | services/hub-api/src/meeting/meeting.service.ts:92-147 | In any schedule a call writes its binding exactly when its GET came within 30 s of the issue and before the first DEL, for the token's meeting, and the device row it then read recognised the signature |
| `BindRaces.TokenFoundIff` | services/hub-api/src/redis/redis.service.ts:24-38 | An issued token is found by a later GET exactly within 30 s and before the first DEL of it |
| `BindRaces.TwoBindings` | services/hub-api/src/meeting/meeting.service.ts:92-147 | From any reachable state with a live token, any two acceptable requests for it can go on so that both GETs find that token and each call writes the binding of its own request |
| `BindRaces.TwoBindingsReachable` | services/hub-api/src/meeting/meeting.service.ts:92-147 | Such a state is reachable: a run in which the two GETs of calls 0 and 1 find the one token "t" and both calls write their binding |
| `Safety.ConstantBindingIsReal` | services/hub-api/src/challenge/challenge.service.ts:193-203 | For every call in progress the participant is bound, and the policy engine's answer with the constant binding flag is the answer with the real test |
| `Safety.VerifiedIsFresh` | services/hub-api/src/challenge/challenge.service.ts:158-203 | A VERIFIED verdict rests on an ACTIVE row that the call itself read, and at the moment of the verdict the device's latest heartbeat is at most five minutes old |
| `Safety.StatusMachine` | services/hub-api/src/meeting/meeting.service.ts:43-50 | Only UNKNOWN, VERIFIED, STALE and FAILED are reachable; UNKNOWN exactly when never bound and never challenged; VERIFIED or STALE only when bound |
| `Safety.StatusForward` | services/hub-api/src/challenge/challenge.service.ts:205-213 | Along any run: once bound never unbound, once out of UNKNOWN never back, meeting and user fixed |
| `Safety.HeartbeatsForward` | services/hub-api/src/device/device.service.ts:20-31 | Along any run every enrolled device has a heartbeat, not in the future, that never goes back |
| `Safety.StoredIsSound` | services/hub-api/src/challenge/challenge.service.ts:28-105 | Every stored challenge names an existing participant of its meeting, the meeting's tenant, the participant's user and an existing device, and the participant is bound, however stale the loop's snapshot was |
| `Safety.NoMissingRows` | services/hub-api/src/challenge/challenge.service.ts:158-162 | The returns for a missing device and a missing participant are unreachable in any schedule |
| `Safety.AuditRowsReferToRows` | services/hub-api/src/audit/audit.service.ts:18-31 | Every audit event names an existing tenant and, if any, an existing meeting |
| `Safety.PassedMeansVerified` | services/hub-api/src/challenge/challenge.service.ts:215-230 | CHALLENGE_PASSED is logged exactly for VERIFIED, and then the signature was valid |
| `Interleaved.StepKeeps` | services/hub-api/src/challenge/challenge.service.ts:139-248 | One step of any call, with any others under way, keeps every invariant and lets the tables only grow |
| `Provenance.EveryEntryExplained` | services/hub-api/src/audit/audit.service.ts:18-31 | In every reachable state, with any calls overlapping, each audit entry was written by one step of the run, and all its fields are those of that call: for a verdict the challenge its GET found, the row it read, its answer, and whether the ten lines verify under that row; for a binding the token, the row, and the write before it; for a challenge or a failure the stored record or the FAILED write and what the query found; for a joining, a meeting and an enrolment the request |
| `Notified.EveryNoticeMeant` | services/hub-api/src/challenge/challenge.service.ts:107-121 | Each gateway call was made by one step of the run: a device is sent a challenge exactly as it was stored for that device, a dashboard an outcome some call ended in, or FAILED for a participant found without a usable device |
| `Provenance.StoredAsDrawn` | services/hub-api/src/challenge/challenge.service.ts:80-105 | A challenge stored at any step of any run has the id, nonce and instants drawn at that step, with ten seconds to answer, and is for the device and user that the loop's own query found for its participant |
| `Notified.EveryRowJoined` | services/hub-api/src/meeting/meeting.service.ts:43-50 | Every participant is as it joined: meeting, user and name, in every reachable state |
| `Notified.TokenAsAsked` | services/hub-api/src/meeting/meeting.service.ts:65-83 | A stored token is for the meeting and the participant of its request, with thirty seconds to bind |
| `DeviceRows.RevokedIff` | services/hub-api/src/device/device.service.ts:20-31 | In every reachable state a device is revoked exactly when it has been revoked with no enrolment since that wrote its row, and active otherwise, whatever beats, bindings and verdicts came in between |
| `DeviceRows.RevokedNeverVerified` | services/hub-api/src/policy/policy.service.ts:30-32 | So a call that reads the row of a device revoked and not enrolled since ends FAILED |
| `DeviceRows.RowHistory` | services/hub-api/src/device/device.service.ts:15-83 | In every reachable state a device's tenant, user and name are those of the enrolment that created its row, its key, algorithm and hardware flag those of the last that wrote it, its heartbeat the instant of the last beat or, if later, of that enrolment |
| `DeviceRows.EnrollOutcome` | services/hub-api/src/device/device.service.ts:15-76 | An enrolment succeeds and is logged exactly when its tenant is known; otherwise a new device gets no row and a known one is rewritten all the same |
| `ChallengeService.VerifyStepsCompose` | services/hub-api/src/challenge/challenge.service.ts:139-248 | The call cut at its awaits, run undisturbed, is the sequential call, for any clock readings |
| `MeetingService.BindStepsCompose` | services/hub-api/src/meeting/meeting.service.ts:92-164 | The same for bindDevice |
| `ChallengeService.IssueStepsCompose` | services/hub-api/src/challenge/challenge.service.ts:41-129 | The same for a turn of the issue loop, cut between its write and its audit event |
| `MeetingService.JoinStepsCompose` | services/hub-api/src/meeting/meeting.service.ts:39-62 | The same for addParticipant |
| `ChallengeService.ChallengeService.VerifyResponse` | services/hub-api/src/challenge/challenge.service.ts:139-248 | State and answer after the call are those of the sequential specification |
| `Verdicts.VerdictRecorded` | services/hub-api/src/challenge/challenge.service.ts:164-247 | A call that ends in a verdict: valid exactly when the ten lines, written out, verify under the row it read; one log entry, field by field; one notice; status and instant in the participant's row; the challenge deleted; nothing else |
| `Verdicts.WhichVerdict` | services/hub-api/src/challenge/challenge.service.ts:141-162 | Each of the returns without a verdict exactly, and that they leave everything but a deleted challenge |
| `ChallengeService.ChallengeService.IssueChallenge` | services/hub-api/src/challenge/challenge.service.ts:27-133 | State, results and gateway calls after the loop are those of the turn-by-turn specification; unknown meeting: nothing |
| `ChallengeService.ChallengeService.IssueTurn` | services/hub-api/src/challenge/challenge.service.ts:41-129 | One turn: fail the row without a usable device, otherwise store, send and log one challenge |
| `IssueLaws.IssueConservation` | services/hub-api/src/challenge/challenge.service.ts:34-132 | For any answer of the participant query: one result, one audit event and one gateway call a row in order, one new key for each usable row with its device and user, FAILED on exactly the unusable rows, all else unchanged |
| `IssueLaws.RowServed` | services/hub-api/src/challenge/challenge.service.ts:41-129 | Field by field, for every row of the query's answer: with a usable device a record with the drawn id, nonce and instants, kept fifteen seconds, the same sent to that device, and one entry; without one FAILED at that instant, one notice and one entry |
| `IssueLaws.FailedExactlyUnusable` | services/hub-api/src/challenge/challenge.service.ts:42-51 | Said of the table alone: exactly the meeting's participants without a usable device turn FAILED, every other participant is unchanged |
| `Verdicts.ExactVerdict` | services/hub-api/src/challenge/challenge.service.ts:164-203 | An agent's answer has a valid signature exactly when the hub holds its key and its tenant and user are the meeting's and the participant's; VERIFIED exactly when also active, in time and beaten within 300000 ms; STALE exactly when only the last is missing; else FAILED |
| `Policy.RuleTable` | services/hub-api/src/policy/policy.service.ts:28-65 | Each of the four statuses exactly, for any input |
| `Fleet.RunningAgentVerdict` | agent/windows/TroofAI.Companion/Services/WebSocketService.cs:60-87 | For a running enrolled agent in any run, whoever enrols what: the signature is valid exactly when the last enrolment that rewrote its device's row carried its key and its tenant and user are the right ones; VERIFIED, STALE and FAILED exactly as above |
| `Answers.RunningAgentAnswers` | agent/windows/TroofAI.Companion/Services/WebSocketService.cs:60-87 | End to end: one message leaves the client of a running agent that receives such a challenge, and heard by the hub it gets exactly that verdict |
| `Verdicts.ExactBinding` | services/hub-api/src/meeting/meeting.service.ts:64-147 | The answer to a token request, signed as it came by an agent whose key the hub knows, binds that agent's device to the participant asked for exactly when presented within 30 s and its meeting exists |
| `Verdicts.WhichBinding` | services/hub-api/src/meeting/meeting.service.ts:92-160 | Each return of bindDevice exactly, with the five signed lines written out, and what has been written and logged by then |
| `Verdicts.VerdictsDecay` | services/hub-api/src/policy/policy.service.ts:28-65 | The same response never gets a better verdict by arriving later (VERIFIED, STALE, FAILED, none) |
| `Verdicts.GraceThenNothing` | services/hub-api/src/challenge/challenge.service.ts:95-105 | FAILED from the expiry to the end of the time to live, at least five seconds; after it no verdict and no change |
| `OneTime.OneVerdict` | services/hub-api/src/challenge/challenge.service.ts:190-213 | One call at a time: at most one verdict a challenge |
| `OneTime.OneBinding` | services/hub-api/src/meeting/meeting.service.ts:135-147 | One call at a time: a token writes at most one binding, also when its meeting does not exist |
| `OneTime.BindingInWindow` | services/hub-api/src/meeting/meeting.service.ts:73-99 | A written binding uses a token issued at most 30 s before for the request's meeting, and binds that token's participant |
| `OneTime.RejectedBindIsInert` | services/hub-api/src/meeting/meeting.service.ts:94-133 | A binding call changes nothing exactly when it is rejected before the delete |
| `OneTime.TokenSurvives` | services/hub-api/src/meeting/meeting.service.ts:94-136 | A token nobody spends stays exactly as issued through any other calls and rejected bindings |
| `OneTime.LaterBindSucceeds` | services/hub-api/src/meeting/meeting.service.ts:92-147 | A correct binding in the window succeeds however many rejected ones came before |
| `AuditReplay.LogTellsAll` | services/hub-api/src/audit/audit.service.ts:18-31 | One call at a time and with tokens that name existing meetings, replaying the audit log gives every participant's status and device in every reachable state |
| `ReplayRaces.TidyReplay` | services/hub-api/src/challenge/challenge.service.ts:205-230 | The scheduler's condition: if no step writes a participant's row while any call, of whatever kind, stands between its own write to it and its log, and tokens name existing meetings, the log gives the participant's status and device whenever no call stands there |
| `Stories.ReplayExact` | services/hub-api/src/audit/audit.service.ts:18-31 | In any schedule and at any moment the log is right about a participant exactly when the last write logged and the last write made carry the same status, and the last binding logged and made the same device |
| `ReplayRaces.WritesAccounted` | services/hub-api/src/challenge/challenge.service.ts:44-63 | In any schedule the writes to a row, by verdicts, bindings, turns without a device and joinings, are, each as often as it was made, those logged, those a call still owes the log, and the bindings lost to a missing meeting |
| `ReplayRaces.SameWrites` | services/hub-api/src/meeting/meeting.service.ts:139-160 | Whenever no call of any of the four kinds stands between its write to a participant's row and its log, log and table have had the same writes, if not in the same order |
| `Crossings.CrossedVerdicts` | services/hub-api/src/challenge/challenge.service.ts:205-230 | In every run in which two verdicts on one participant are written in one order and logged in the other, both calls are then over with these statuses, and the log is right exactly when the statuses are the same and the device was right before |
| `Crossings.CrossedRight` | services/hub-api/src/challenge/challenge.service.ts:205-230 | The same at any moment of any run at which the writes and the log end in two verdicts in opposite orders, whatever ran in between |
| `Crossings.LogLies` | services/hub-api/src/challenge/challenge.service.ts:205-230 | A run after which two calls have each found a challenge of the participant and ended in a verdict on it, nothing about the participant is left to be logged, and its row says VERIFIED and its log FAILED |
| `AuditReplay.BindReplay` | services/hub-api/src/meeting/meeting.service.ts:137-160 | A binding keeps the log faithful exactly when it is rejected, or its meeting exists, or the row already shows what it writes |
| `AuditReplay.LostBinding` | services/hub-api/src/meeting/meeting.service.ts:65-68 | A token for a meeting that does not exist: the binding is written and never logged |
| `GatewayLog.GatewayHearsLog` | services/hub-api/src/challenge/challenge.service.ts:53-121 | Between calls that run one at a time the gateway has been told exactly the challenges and verdicts in the log, in the log's order |
| `Fleet.KeyAgreement` | agent/windows/TroofAI.Companion/Services/EnrollmentService.cs:31-86 | Over any starts, stops, second copies, lost and late messages and anybody's enrolments: the hub holds the key a running process signs with exactly when the last enrolment that rewrote its device's row carried that key, and the process's own did |
| `Processes.HubHoldsLast` | services/hub-api/src/device/device.service.ts:20-31 | The hub's key for a device is that of the last enrolment that rewrote its row, or none if there was none |
| `Fleet.UndisputedAgrees` | agent/windows/TroofAI.Companion/Services/EnrollmentService.cs:31-86 | If nobody has rewritten the row with another key since, a running process is agreed with |
| `Fleet.TpmAgrees` | agent/windows/TroofAI.Companion/Services/KeyService.cs:28-82 | With a working TPM and no stranger at the device id every running process is agreed with, however many copies run |
| `Processes.EnrolStepsCompose` | agent/windows/TroofAI.Companion/Services/EnrollmentService.cs:31-86 | The enrolment cut where the agent waits, run undisturbed, is one call of EnrollAsync for each place it can end |
| `Fleet.NextEnrolmentDecides` | services/hub-api/src/device/device.controller.ts:9-18 | Any enrolment that reaches the hub under a running process's device id, a stranger's, a second copy's or a late one, leaves it agreed with exactly when it carries the same key |
| `Fleet.DeviceIdStable` | agent/windows/TroofAI.Companion/Services/EnrollmentService.cs:37-67 | Once the file holds an id and no process of the installation goes by another, that is its device id for ever, through any further copies |
| `Fleet.FileKeptIff` | agent/windows/TroofAI.Companion/Services/EnrollmentService.cs:37-73 | Over all continuations of any run: an installation's file keeps the device id it holds exactly when no process of it is answered with success, or waits for an answer with a tenant the hub knows, under another id |
| `Fleet.FirstSuccessFixes` | agent/windows/TroofAI.Companion/Services/EnrollmentService.cs:61-73 | A success settles the id in the file for every continuation exactly when no other process of the installation is so placed under another id |
| `Fleet.RivalCopies` | agent/windows/TroofAI.Companion/Services/EnrollmentService.cs:37-67 | From any state with two started copies and no file, both can succeed under different ids, the second overwriting the file that held the first one's |
| `Fleet.RivalCopiesReachable` | agent/windows/TroofAI.Companion/Services/EnrollmentService.cs:37-67 | From a new machine: such a run exists |
| `Fleet.KeyRemadeIff` | agent/windows/TroofAI.Companion/Services/KeyService.cs:19-82 | At every initialisation, at a start or an enrolment: the process goes on with a key that existed before exactly when the platform opens a stored one, with the TPM's if it opens that, and otherwise with one no process ever had |
| `Fleet.TpmKeyKept` | agent/windows/TroofAI.Companion/Services/KeyService.cs:55-82 | A TPM key, once made, stays |
| `KeyService.KeyService.Initialize` | agent/windows/TroofAI.Companion/Services/KeyService.cs:19-53 | The key is called hardware-bound exactly when the TPM's key was opened or is made by this call, and is then the one in the TPM; otherwise the store is unchanged and it is the named key or a new one |
| `KeyService.WhereTheKeyIs` | agent/windows/TroofAI.Companion/Services/KeyService.cs:19-82 | The same of the specification, with the exact condition for each way to get a key |
| `Hardware.HardwareIsTpm` | agent/windows/TroofAI.Companion/Services/KeyService.cs:19-53 | In every reachable state of the machines, a process that calls its key hardware-bound has the key in its machine's TPM |
| `Hardware.ClaimIsLast` | services/hub-api/src/device/device.service.ts:20-31 | The hub's row has the key and the hardware flag of the last enrolment that wrote it |
| `Hardware.HardwareClaimTrue` | agent/windows/TroofAI.Companion/Services/EnrollmentService.cs:43-56 | Where only installations enrol a device id, a row that says hardware-bound has the key in the TPM of the installation that goes by it |
| `KeyService.KeyService.TryLoadExistingKey` | agent/windows/TroofAI.Companion/Services/KeyService.cs:55-82 | TPM key first, then the named software key, else nothing changes |
| `KeyService.KeyService.Sign` | agent/windows/TroofAI.Companion/Services/KeyService.cs:100-107 | A signature that verifies under the exported key for this text only |
| `EnrollmentService.EnrollmentService.EnrollAsync` | agent/windows/TroofAI.Companion/Services/EnrollmentService.cs:31-86 | Hub, disk, fields and key after an attempt, for each fate of the request; on success the file holds the id, tenant and user, and the hub's row the key loaded, where it is kept, ACTIVE and a fresh heartbeat |
| `WebSocketService.AnnouncesOne` | agent/windows/TroofAI.Companion/Services/WebSocketService.cs:36-46 | In any sequence of the client's events a connection announces one device id, once, and it is the enrolled one |
| `WebSocketService.AlwaysWired` | agent/windows/TroofAI.Companion/Services/WebSocketService.cs:36-52 | Whatever the client's events, all that was said on any connection, open or closed, is one announcement and then its heartbeats on schedule |
| `Connections.AgentsKeepToOne` | services/hub-api/src/gateway/events.gateway.ts:58-66 | If every device registered at the gateway was announced by an agent's client, no socket registers two devices |
| `Connections.AgentsAreRouted` | services/hub-api/src/gateway/events.gateway.ts:41-66 | Then every route is the device's latest connection if still there, and that client announced the device |
| `WebSocketService.BeatsOnTime` | agent/windows/TroofAI.Companion/Services/WebSocketService.cs:112-131 | While a connection is open its heartbeats have left exactly 30 s after it opened and every 60 s from then on, up to the present |
| `WebSocketService.WebSocketService.OnChallenge` | agent/windows/TroofAI.Companion/Services/WebSocketService.cs:60-95 | Sends one response on the open connection, with the challenge's id, the enrolled device id and a signature that verifies under the agent's key for exactly the ten lines written out; nothing if there is no key or an id is too short to print |
| `WebSocketService.AnswersRight` | agent/windows/TroofAI.Companion/Services/WebSocketService.cs:60-95 | The same of the client's transition, for any payload |
| `Safety.SameLines` | agent/windows/TroofAI.Companion/Services/ChallengeSigningService.cs:35-50 | If the agent's signing string equals that of a newline-free challenge, then, whatever the agent's fields contain, its tenant, device and user and the payload it answered are the challenge's |
| `Safety.BindingIsNoChallenge` | agent/windows/TroofAI.Companion/Services/ChallengeSigningService.cs:63-76 | A five-line binding string is never a ten-line challenge string, for newline-free fields |
| `Framing.SplitJoin` | agent/windows/TroofAI.Companion/Services/ChallengeSigningService.cs:35-49 | Splitting the newline join of newline-free fields gives the fields back |
| `Framing.JoinSplit` | services/hub-api/src/challenge/challenge.service.ts:165-176 | Every text is the join of its split, whose parts are newline-free |
| `Framing.SplitJoinAny` | agent/windows/TroofAI.Companion/Services/ChallengeSigningService.cs:35-49 | Splitting the join of any fields gives the lines of the fields one after the other |
| `Framing.LineCount` | agent/windows/TroofAI.Companion/Services/ChallengeSigningService.cs:63-74 | There are at least as many lines as fields, and no more exactly when no field holds a newline |
| `Framing.JoinInjective` | services/hub-api/src/meeting/meeting.service.ts:112-118 | Different tuples of newline-free fields have different signing strings |
| `Framing.CleanWins` | agent/windows/TroofAI.Companion/Services/ChallengeSigningService.cs:35-49 | A tuple of whatever fields has the signing string of a newline-free tuple of no more fields only if it is that tuple |
| `Heartbeats.NeverStaleIff` | agent/windows/TroofAI.Companion/Services/WebSocketService.cs:112-125 | With at most k beats lost in a row and a bounded delay, some beat that has arrived by any instant is at most five minutes old for a given gap after it, exactly when 60(k+1) s plus the delay plus the gap fits |
| `Connections.ConnectedAgentNeverStale` | agent/windows/TroofAI.Companion/Services/WebSocketService.cs:36-46 | From the agent's timer to the verdict: if up to the moment a call reads the device row the agent's client is connected, at most k of its heartbeats lost in a row, the others within the delay and one arrived, and the call decides at most a gap later, with losses, delay and gap that fit, its verdict is not STALE, whatever else runs in between |
| `Heartbeats.ConnectedNeverStale` | services/hub-api/src/challenge/challenge.service.ts:158-203 | The same of any run of the hub that carries beats on that schedule up to the read |
| `StaleGap.StaleReachable` | services/hub-api/src/challenge/challenge.service.ts:158-203 | For all losses, delays and gaps that do not fit: a run in which the beats keep to them up to the verdict and the call, deciding no more than the gap after its read, judges the device STALE |
| `StaleGap.StaleIff` | services/hub-api/src/challenge/challenge.service.ts:158-203 | So some call within the gap judges STALE a device that beats with these losses and this delay exactly when one period more than the losses, the delay and the gap exceed the five minutes |
| `DeviceService.DeviceService.EnrollDevice` | services/hub-api/src/device/device.service.ts:15-76 | Creates or refreshes the row, with the foreign-key failures after or before the write |
| `DeviceService.DeviceService.RecordHeartbeat` | services/hub-api/src/device/device.service.ts:78-83 | Sets the heartbeat of an existing row; says whether there was one |
| `DeviceService.DeviceService.FindById` | services/hub-api/src/device/device.service.ts:85-87 | The row, or null |
| `MeetingService.MeetingService.Create` | services/hub-api/src/meeting/meeting.service.ts:19-37 | Meeting row and audit event, or nothing for an unknown tenant |
| `MeetingService.MeetingService.Join` | services/hub-api/src/meeting/meeting.service.ts:39-62 | UNKNOWN participant and audit event, or nothing for an unknown meeting |
| `MeetingService.MeetingService.IssueToken` | services/hub-api/src/meeting/meeting.service.ts:64-90 | Stores the token for 30 s; only the participant is looked up |
| `MeetingService.MeetingService.BindDevice` | services/hub-api/src/meeting/meeting.service.ts:92-164 | State and outcome after the call are those of the sequential specification, with every error return |
| `Storage.RedisService.Set` | services/hub-api/src/redis/redis.service.ts:24-30 | The key holds the value until its deadline; a zero time to live sets none |
| `Storage.RedisService.Get` | services/hub-api/src/redis/redis.service.ts:32-34 | The value, unless absent or past its deadline |
| `Storage.RedisService.Del` | services/hub-api/src/redis/redis.service.ts:36-38 | Exactly this key is gone: it is never read again, every other key reads as before |
| `Storage.AuditService.Log` | services/hub-api/src/audit/audit.service.ts:18-31 | Appends one event |
| `EventsGateway.EventsGateway.HandleConnection` | services/hub-api/src/gateway/events.gateway.ts:37-39 | Keeps routes and index right for the longer history |
| `EventsGateway.EventsGateway.HandleDeviceConnect` | services/hub-api/src/gateway/events.gateway.ts:58-66 | The device's latest connection is its route |
| `EventsGateway.EventsGateway.HandleMeetingSubscribe` | services/hub-api/src/gateway/events.gateway.ts:99-110 | The meeting's set gains the client |
| `EventsGateway.EventsGateway.DropRegistration` | services/hub-api/src/gateway/events.gateway.ts:42-48 | The single removal takes the client's first route in the map's insertion order and nothing else; it clears the client exactly when it held at most one route |
| `EventsGateway.EventsGateway.DropSubscriptions` | services/hub-api/src/gateway/events.gateway.ts:50-55 | Deleting while walking removes exactly the client's pairs and the sets that become empty |
| `EventsGateway.EventsGateway.HandleDisconnect` | services/hub-api/src/gateway/events.gateway.ts:41-56 | With one device a socket, every route is again the latest connection if still connected; each meeting set is non-empty and holds only connected subscribers |
| `EventsGateway.EventsGateway.EmitChallengeToDevice` | services/hub-api/src/gateway/events.gateway.ts:114-122 | Delivers to the socket the history names for the device, or to none |
| `EventsGateway.EventsGateway.EmitMeetingUpdate` | services/hub-api/src/gateway/events.gateway.ts:124-133 | Each subscriber gets two copies, every other connected client one, nobody else any |
| `EventsGateway.EventsGateway.IsDeviceConnected` | services/hub-api/src/gateway/events.gateway.ts:135-137 | True exactly when the history leaves the device a route |
| `EventsGateway.OtherSocketLeaves` | services/hub-api/src/gateway/events.gateway.ts:41-48 | A disconnect of another socket, however late and however many devices it held, leaves a device's route in the map and in the history |
| `EventsGateway.TwoDevicesOneSocket` | services/hub-api/src/gateway/events.gateway.ts:42-48 | A socket that announced two devices leaves a route behind |

## Left out

- Fleet.KeyAgreement: copying an installation's files to another machine is not modelled; copies of the program started on one machine share its file and its key store and are.
- Interleaved.StepKeeps: enrolment, meeting creation and token issue are one step each, and so are the last meeting lookup and audit write of a binding, the gateway call and audit write of a turn of the issue loop, and the last audit write and gateway call of a verdict; two enrolments of one id racing between their read and their write are not modelled.
- OneTime.OneVerdict: holds one call at a time; what holds in any schedule is `Races.VerdictIff`.
- OneTime.OneBinding: holds one call at a time; what holds in any schedule is `BindRaces.BindIff`.
- AuditReplay.LogTellsAll: holds one call at a time; what holds in any schedule is `Stories.ReplayExact` and `ReplayRaces.TidyReplay`.
- ReplayRaces.TidyReplay: the condition is sufficient and not necessary, as overlapping writes of the same status do no harm (`Crossings.CrossedVerdicts`); `Stories.ReplayExact` is exact, said of the last effects written and logged.
- GatewayLog.GatewayHearsLog: holds between calls; within a turn of the issue loop the gateway is told before the event is logged.
- Safety.Agreement: a challenge whose own tenant, device, user or ids hold a newline is excluded by hypothesis, as is a binding tuple that reads like the challenge; the source does not check for newlines.
- Safety.BindingAgreement: a binding whose own token, meeting, participant or device id holds a newline is excluded by hypothesis.
- StaleGap.StaleReachable: the answer in the run is signed with a key that is not among the keys only agents hold; whose key it is plays no part in the verdict's timing.
- WebSocketService.BeatsOnTime: the timer is exact, its jitter counts as delay under way; of several timers after repeated connect events without a disconnect one is kept.
- RSA, SHA-256, base64, PEM, JSON and ISO 8601 encodings: library calls, idealised as above.
- The web application, the Zoom signature route, statistics and list queries: display and plumbing.
- Controllers, request validation, API keys, dependency injection, database and Redis connections, logging and seeding: wiring.
- Status reason texts, the constant reasons in log entries, agent version and enrolment and join times: stored or shown, never read by a decision.
- The HTTP listener of the binding service: only the tuple it is asked to sign is kept; who may ask is not part of this model.
- Tenants are a fixed set; the tenant creation of the start-up code is not part of this model.
