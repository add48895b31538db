# Voice-room session controller

A Dafny model of the room-session controller of the NetEase voice-room kit
(`NEVoiceRoomKit+Room.swift`, iOS). The controller enters a room through the
room SDK and then joins two channels of that room: the rtc (media) channel and
the chatroom (event) channel. It keeps the room context it holds, the room
information it last stored, its room and seat listener registrations and an
audio-play service. It also offers `createRoom`, `leaveRoom`, `endRoom`, an
internal `reset` and the observer `getCurrentRoomInfo`.

Every operation is a pure transition. It takes the controller's `State`, the
outcome of the `Judge` guard and the answers of the collaborators (room
service, room SDK, rtc and chatroom completions), all as plain inputs. It
returns the new state, the reply the caller's callback receives (`None` when
the callback is never invoked) and the ordered log of outbound calls (`Effect`):
context leaves, force-ends, remote create and end requests, audio-service
destroys, listener (un)registrations, channel joins and room-info fetches.

Files:

- `room_types.dfy` (`RoomTypes`): statuses, contexts, room info, the state, the effect log, and the `Coupled` invariant (the controller listens on its held context and on nothing else).
- `join_coordinator.dfy` (`JoinCoordinator`): the two-channel barrier, the aggregation of the two results with its rollback, and both `_joinRoom` overloads.
- `room_controller.dfy` (`RoomController`): the public operations.
- `session_runs.dfy` (`SessionRuns`): whole sessions as folds of the operations, and the invariant over them.

The model follows the code as written, including these behaviours a caller might not expect:

- A failed channel join issues `context.leaveRoom()` but never `reset()`. So `roomContext` and both listener registrations survive. "A session exists iff both channels are joined" does not hold (`FailedJoinLeavesSessionHeld`).
- `joinRoom` leaves the context the room SDK already has for the SAME `roomUuid`. It does not call the kit's own `leaveRoom` or `reset`. The new context then replaces `roomContext`, and the old listener registration is never removed. `LeaveFirstThenJoin` shows the join after that leave is the same as a direct join, and `StaleListenerAfterRejoin` shows the leftover registration, whether or not the SDK had a context to leave first. Listeners are therefore modelled as sets of contexts.
- `reset` never clears the audio-play service. Every later reset destroys it again.
- `endRoom` resets at once and does not wait for the remote answer. Without a live record id it reports `failed` and does nothing else.
- A payload comes only with code 0 on every reply (`Run`). The converse holds only for the calls that return data. `createRoom` and `joinRoom` never answer code 0 without a payload (`CreateSuccessCarriesInfo`, `JoinSuccessCarriesInfo`). `leaveRoom` and `endRoom` answer success with no payload (`LeaveSucceedsWithoutPayload`, `EndSucceedsWithoutPayload`). So "code 0 iff a payload" is not a property of every reply.

## Model

| member | source | states |
|---|---|---|
| JoinCoordinator.Aggregate | iOS/NEVoiceRoomKit/NEVoiceRoomKit/Classes/NEVoiceRoomKit+Room.swift:291-314 | A present non-zero rtc code is the outcome. Otherwise a present non-zero chatroom code is. Otherwise the outcome is `(0, nil)`. Absent codes count as success. A rollback is issued exactly when the outcome is non-zero. |
| JoinCoordinator.AggregateIsRtcFirstPriority | iOS/NEVoiceRoomKit/NEVoiceRoomKit/Classes/NEVoiceRoomKit+Room.swift:294-313 | The aggregation equals a reference definition: the first failure in the priority list `[rtc, chatroom]`, or success when there is none. |
| JoinCoordinator.RtcFailureWins | iOS/NEVoiceRoomKit/NEVoiceRoomKit/Classes/NEVoiceRoomKit+Room.swift:294-301 | Once rtc has failed, the chatroom result does not change the verdict, which is rtc's `(code, msg)` with a rollback. |
| JoinCoordinator.BarrierOrderIrrelevant | iOS/NEVoiceRoomKit/NEVoiceRoomKit/Classes/NEVoiceRoomKit+Room.swift:260-291 | The group does not release after one completion. After both it releases, and it holds the same rtc and chatroom variables whichever completion came first. |
| JoinCoordinator.Arrive | iOS/NEVoiceRoomKit/NEVoiceRoomKit/Classes/NEVoiceRoomKit+Room.swift:271-289 | A completion writes only its own channel's code and message and lowers the outstanding count by one. The other channel's variables are untouched. |
| JoinCoordinator.JoinChannels | iOS/NEVoiceRoomKit/NEVoiceRoomKit/Classes/NEVoiceRoomKit+Room.swift:254-315 | Only the audio-play service changes in the state. Both channel joins start first. The reported status is the aggregated outcome. Exactly one `context.leaveRoom()` follows a failure and none follows a success. |
| JoinCoordinator.EnterRoom | iOS/NEVoiceRoomKit/NEVoiceRoomKit/Classes/NEVoiceRoomKit+Room.swift:317-352 | A passed-in context goes straight to the channel joins. If the room service returns no context, its `(code, msg)` is passed through. The state is then unchanged and the only call is the room-service join. With a context, the context is stored and both listeners are registered on it. The audio-play service is created for its room. The outcome is the aggregate. The calls are the room-service join, the two registrations, and then exactly the channel calls of `_joinRoom(context)`. |
| JoinCoordinator.EnterRoomWithContext | iOS/NEVoiceRoomKit/NEVoiceRoomKit/Classes/NEVoiceRoomKit+Room.swift:345-350 | With a context from the room service, both listener registrations come before both channel joins. The context is left exactly once after a failed join and never after a successful one. |
| JoinCoordinator.FailedChannelJoinKeepsContext | iOS/NEVoiceRoomKit/NEVoiceRoomKit/Classes/NEVoiceRoomKit+Room.swift:294-309 | After a failed channel join the context is rolled back with a leave, but it stays `roomContext` and stays listened on. |
| RoomController.Reset | iOS/NEVoiceRoomKit/NEVoiceRoomKit/Classes/NEVoiceRoomKit+Room.swift:209-217 | Leaves no context and no room info. Removes exactly the held context's registrations, so a coupled state ends with no listeners. The call log is the two listener removals for the held context, then the audio destroy iff a service exists, and nothing else. From an idle state the state is unchanged and the only call is that destroy. |
| RoomController.ResetIdempotent | iOS/NEVoiceRoomKit/NEVoiceRoomKit/Classes/NEVoiceRoomKit+Room.swift:209-217 | Resetting twice gives the state of resetting once. The second reset repeats the audio destroy. |
| RoomController.CurrentRoomInfo | iOS/NEVoiceRoomKit/NEVoiceRoomKit/Classes/NEVoiceRoomKit+Room.swift:63-69 | Room info is reported iff a context is held and info is stored, and it is the stored info. |
| RoomController.CreateRoom | iOS/NEVoiceRoomKit/NEVoiceRoomKit/Classes/NEVoiceRoomKit+Room.swift:98-128 | A passing guard issues exactly one create request. Only `liveInfo` can change, and only on a non-nil response. That response is reported with code 0. A nil response gives `failed` with its fixed message. A remote error or a guard rejection is passed through. |
| RoomController.CreateDoesNotJoin | iOS/NEVoiceRoomKit/NEVoiceRoomKit/Classes/NEVoiceRoomKit+Room.swift:104-119 | A created room is stored, but without a held context the observer reports no current room. |
| RoomController.CreateSuccessCarriesInfo | iOS/NEVoiceRoomKit/NEVoiceRoomKit/Classes/NEVoiceRoomKit+Room.swift:104-126 | When the guard and the room service report failures with non-zero codes, a `createRoom` reply with code 0 always carries the created room. |
| RoomController.Join | iOS/NEVoiceRoomKit/NEVoiceRoomKit/Classes/NEVoiceRoomKit+Room.swift:142-171 | The callback is skipped iff the join code is 0 and the info fetch returns nil. A fetched info is stored and reported as `(0, nil, info)`. A room-service error without a context is passed through as `(joinCode, joinMsg, nil)`. A channel failure is reported as its aggregate. A fetch error is passed through. A context from the room service becomes `roomContext` whatever the channels report. Without one, no listener or channel call is made. Apart from `liveInfo`, the state is the one entering the room left. The call log is exactly the calls of entering the room, then one room-info fetch iff the join code is 0. `liveInfo` changes only when that fetch returns info. |
| RoomController.JoinRoom | iOS/NEVoiceRoomKit/NEVoiceRoomKit/Classes/NEVoiceRoomKit+Room.swift:135-182 | A guard rejection is reported with nothing done. An SDK context for the room is left first. After that the state and reply are those of the nested join. That means success `(0, nil, info)`, pass-through of a room-service error and of a fetch error, and a channel failure reported with its rollback leave. A payload always comes with code 0 and is the stored info. The call log is that leading leave (if any) followed by exactly the nested join's calls, so a successful join issues no leave of its new context. `liveInfo` is unchanged unless the fetch returns info. |
| RoomController.JoinSuccessCarriesInfo | iOS/NEVoiceRoomKit/NEVoiceRoomKit/Classes/NEVoiceRoomKit+Room.swift:144-170 | When the guard and the info fetch report failures with non-zero codes, a `joinRoom` reply with code 0 always carries room info. No path answers `(0, msg, nil)`. |
| RoomController.LeaveFirstThenJoin | iOS/NEVoiceRoomKit/NEVoiceRoomKit/Classes/NEVoiceRoomKit+Room.swift:172-180 | With an existing context, the result equals the direct join except for one leading leave of that context. |
| RoomController.JoinLeavesNewContextOnlyOnFailure | iOS/NEVoiceRoomKit/NEVoiceRoomKit/Classes/NEVoiceRoomKit+Room.swift:294-309 | Over the whole `joinRoom` call log, the context the room service returned is left exactly once if a channel failed and never if both succeeded (when it is not the SDK context left first). |
| RoomController.NilRoomInfoNeverAnswers | iOS/NEVoiceRoomKit/NEVoiceRoomKit/Classes/NEVoiceRoomKit+Room.swift:149-157 | After a full join whose room-info fetch returns nil, the callback is never invoked, yet the context is held and listened on. |
| RoomController.FailedJoinLeavesSessionHeld | iOS/NEVoiceRoomKit/NEVoiceRoomKit/Classes/NEVoiceRoomKit+Room.swift:294-309 | Example: an rtc failure is reported to the `joinRoom` caller while the context and both listeners stay set. |
| RoomController.SuccessWithoutContext | iOS/NEVoiceRoomKit/NEVoiceRoomKit/Classes/NEVoiceRoomKit+Room.swift:146-159 | Example: a room-service join that reports 0 without a context makes `joinRoom` report success with room info. No context is held, and the observer reports none. |
| RoomController.JoinedRoomIsCurrent | iOS/NEVoiceRoomKit/NEVoiceRoomKit/Classes/NEVoiceRoomKit+Room.swift:158-159 | After a full join with fetched info, the observer reports that info. |
| RoomController.LeaveRoom | iOS/NEVoiceRoomKit/NEVoiceRoomKit/Classes/NEVoiceRoomKit+Room.swift:186-207 | Requires a held context once the guard passes, as the guard's `roomContext` check at :189 promises. Leaves the held context, then resets whatever the leave reported. Replies with the leave's own status. Ends idle with no current room. |
| RoomController.LeaveSucceedsWithoutPayload | iOS/NEVoiceRoomKit/NEVoiceRoomKit/Classes/NEVoiceRoomKit+Room.swift:204 | A successful `leaveRoom` answers code 0 with no payload. |
| RoomController.LeaveResetsWhateverTheCode | iOS/NEVoiceRoomKit/NEVoiceRoomKit/Classes/NEVoiceRoomKit+Room.swift:191-205 | The state and the calls after `leaveRoom` do not depend on the leave's status. |
| RoomController.EndRoom | iOS/NEVoiceRoomKit/NEVoiceRoomKit/Classes/NEVoiceRoomKit+Room.swift:221-249 | Without a live record id it reports `failed` and changes and calls nothing. With one, the call log is the force-end of the held context (if any), the remote end for that id, then exactly reset's listener removals and audio destroy. The state is reset's. It then reports the remote answer. |
| RoomController.EndSucceedsWithoutPayload | iOS/NEVoiceRoomKit/NEVoiceRoomKit/Classes/NEVoiceRoomKit+Room.swift:239 | A successful `endRoom` answers `(success, nil, nil)`: code 0 with no payload. |
| RoomController.EndResetsBeforeRemoteAnswer | iOS/NEVoiceRoomKit/NEVoiceRoomKit/Classes/NEVoiceRoomKit+Room.swift:236-247 | The state and the calls after `endRoom` are the same whatever the remote end reports. |
| RoomTypes.LiveRecordId | iOS/NEVoiceRoomKit/NEVoiceRoomKit/Classes/NEVoiceRoomKit+Room.swift:224 | The live record id is present iff room info is stored and has a live record, and it is that record's id. |
| SessionRuns.Run | iOS/NEVoiceRoomKit/NEVoiceRoomKit/Classes/NEVoiceRoomKit+Room.swift:98-249 | Over any runnable sequence of calls, every reply carries a payload only together with code 0. |
| SessionRuns.ApplyKeepsCoupled | iOS/NEVoiceRoomKit/NEVoiceRoomKit/Classes/NEVoiceRoomKit+Room.swift:345-348 | Any call keeps listener registrations equal to the held context, provided a join that gets a context is made while no other context is held. |
| SessionRuns.JoinKeepsCoupled | iOS/NEVoiceRoomKit/NEVoiceRoomKit/Classes/NEVoiceRoomKit+Room.swift:345-348 | A `joinRoom` whose room-service context arrives while no other context is held (or the same one is) keeps both listener sets equal to the held context. |
| SessionRuns.RunKeepsCoupled | iOS/NEVoiceRoomKit/NEVoiceRoomKit/Classes/NEVoiceRoomKit+Room.swift:209-214 | Over a whole disciplined session the coupling holds. So a reset at any point leaves neither a room listener nor a seat listener registered. |
| SessionRuns.StaleListenerAfterRejoin | iOS/NEVoiceRoomKit/NEVoiceRoomKit/Classes/NEVoiceRoomKit+Room.swift:173-177 | Example: joining a second context while one is held breaks the coupling. A later `leaveRoom` leaves the first context's listener registrations in place. This holds whatever context the SDK had to leave first, including the same-room re-join. |
| SessionRuns.SessionEndingInLeaveIsIdle | iOS/NEVoiceRoomKit/NEVoiceRoomKit/Classes/NEVoiceRoomKit+Room.swift:186-207 | Any session that ends with a passing `leaveRoom` while a context is held ends idle, with no current room. |

## Left out

- Scheduling: DispatchGroup and main-queue scheduling, and `[weak self]` captures (a released kit drops its callbacks). Only the point where both channel results are present is modelled. Each public operation runs to completion before the next starts.
- `Judge.initCondition` / `Judge.preCondition`: their bodies are not part of this model. They are an opaque guard that either runs the operation or answers the callback with its own status.
- `leaveRoom` with a passing guard but no held context: `Judge.preCondition` checks `roomContext` before it lets the call through (NEVoiceRoomKit+Room.swift:189), and the body force-unwraps it. The model states that promise of the guard as a precondition and does not model the trap the force-unwrap would hit if the guard broke it.
- Room SDK internals: the room service, `rtcController`, `chatController`, `setParameters`, `setClientRole` and the audio-play service's constructor. Their results are free inputs and their calls carry no further meaning.
- Role conversion: `NEJoinVoiceRoomRole.toString()` is not part of this model. The role is passed as its string.
- Logging and timestamps: `NEVoiceRoomLog` and the `print` timestamps are output sinks and floating-point time.
- `getRoomList`, `getRoomInfo` and `getCreateRoomDefaultInfo` only pass remote results through.
- The `failed` error code: `NEVoiceRoomErrorCode` is not part of this model. `failed` is taken to be -1, and only its being non-zero is used.
- Room information is reduced to its live record. `NEVoiceRoomInfo(create:)` is treated as carrying the stored info unchanged.
- Repeated listener registration: `SessionRuns.Serial` also admits a join that gets back the context already held. The kit then registers both listeners on it a second time (NEVoiceRoomKit+Room.swift:347-348), while `reset` removes each once (:211-213). Listeners are sets of contexts, so the model assumes the room SDK treats a repeated registration of the same listener on the same context as a no-op. `JoinKeepsCoupled`, `ApplyKeepsCoupled` and `RunKeepsCoupled` rely on that assumption for this case. The SDK's listener bookkeeping is not part of this model.
- No timeout: a channel completion that never arrives stalls the join forever. The model only covers joins where both completions arrive.
