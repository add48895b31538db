/** The public room-session operations of `NEVoiceRoomKit+Room.swift`
    (`createRoom`, `joinRoom`, `leaveRoom`, `reset`, `endRoom` and the
    observer `getCurrentRoomInfo`) as pure transitions from the controller's
    state and its collaborators' results to a new state, the callback the
    caller receives (if any) and the calls made. */
module RoomController {
  import opened RoomTypes
  import opened JoinCoordinator

  /** The opaque `Judge.initCondition` / `Judge.preCondition` guard: it either
      runs the operation or answers the callback with its own status. */
  datatype Guard = Pass | Reject(status: Status)

  /** What the caller's callback receives: a status and an optional room info. */
  datatype Reply = Reply(status: Status, info: Option<Info>)

  /** One public operation's transition; `reply` is `None` when the callback
      is never invoked. */
  datatype Step = Step(state: State, reply: Option<Reply>, effects: seq<Effect>)

  function Rejected(s: State, st: Status): Step {
    Step(s, Some(Reply(st, None)), [])
  }

  /** The caller-visible contract on every reply: a payload comes only with
      the success code. */
  predicate WellFormed(r: Option<Reply>) {
    r.Some? && r.value.info.Some? ==> r.value.status.code == SuccessCode
  }

  /** A controller with no session: no context and no stored room info. */
  predicate Idle(s: State) {
    s.roomContext.None? && s.liveInfo.None?
  }

  // ---------------------------------------------------------------------
  // reset

  /** `reset()`: unregister both listeners from the held context, drop the
      context and the room info, and destroy the audio-play service if one was
      ever created (the service itself is not cleared). */
  function Reset(s: State): (t: Step)
    ensures Idle(t.state)
    ensures t.reply == None
    ensures t.state.audioService == s.audioService
    ensures t.state.roomListeners == s.roomListeners - Held(s)
    ensures t.state.seatListeners == s.seatListeners - Held(s)
    ensures Coupled(s) ==> t.state.roomListeners == {} && t.state.seatListeners == {} && Coupled(t.state)
    ensures Idle(s) ==> t.state == s
    ensures Idle(s) ==> t.effects == if s.audioService.Some? then [DestroyAudio(s.audioService.value)] else []
    ensures forall c :: RemoveRoomListener(c) in t.effects <==> s.roomContext == Some(c)
    ensures forall c :: RemoveSeatListener(c) in t.effects <==> s.roomContext == Some(c)
    ensures forall r :: DestroyAudio(r) in t.effects <==> s.audioService == Some(r)
    ensures |t.effects| == 2 * |Held(s)| + (if s.audioService.Some? then 1 else 0)
    ensures s.roomContext.Some? ==>
      t.effects[..2] == [RemoveRoomListener(s.roomContext.value), RemoveSeatListener(s.roomContext.value)]
    ensures s.audioService.Some? ==> t.effects[|t.effects| - 1] == DestroyAudio(s.audioService.value)
  {
    var unlisten := match s.roomContext
      case Some(c) => [RemoveRoomListener(c), RemoveSeatListener(c)]
      case None => [];
    var destroy := match s.audioService
      case Some(r) => [DestroyAudio(r)]
      case None => [];
    Step(State(None, None, s.roomListeners - Held(s), s.seatListeners - Held(s), s.audioService),
         None, unlisten + destroy)
  }

  /** Resetting twice leaves the state of resetting once; the second reset
      destroys the audio-play service again, since reset never clears it. */
  lemma ResetIdempotent(s: State)
    ensures Reset(Reset(s).state).state == Reset(s).state
    ensures s.audioService.Some? ==> Reset(Reset(s).state).effects == [DestroyAudio(s.audioService.value)]
  {
  }

  // ---------------------------------------------------------------------
  // getCurrentRoomInfo

  /** `getCurrentRoomInfo()`: the stored room info, but only while a context
      is held. */
  function CurrentRoomInfo(s: State): (r: Option<Info>)
    ensures r.Some? <==> s.roomContext.Some? && s.liveInfo.Some?
    ensures r.Some? ==> r == s.liveInfo
  {
    if s.roomContext.Some? && s.liveInfo.Some? then s.liveInfo else None
  }

  // ---------------------------------------------------------------------
  // createRoom

  /** The room service's answer to `startVoiceRoom`. */
  datatype StartReply = Started(resp: Option<Info>) | StartFailed(error: Status)

  /** `createRoom`: on a response, store it as `liveInfo` and report success
      with it; a nil response is reported as `failed`; a remote error is
      passed through. Creating a room does not join it. */
  function CreateRoom(s: State, guard: Guard, start: StartReply): (t: Step)
    ensures t.reply.Some? && WellFormed(t.reply)
    ensures t.effects == if guard.Pass? then [RequestCreate] else []
    ensures t.state == s.(liveInfo := t.state.liveInfo)
    ensures t.state.liveInfo != s.liveInfo ==> guard.Pass? && start == Started(t.state.liveInfo)
    ensures guard.Reject? ==> t == Rejected(s, guard.status)
    ensures guard.Pass? && start.Started? && start.resp.Some? ==>
      t.state.liveInfo == start.resp && t.reply == Some(Reply(Status(SuccessCode, None), start.resp))
    ensures guard.Pass? && start == Started(None) ==>
      t.state == s && t.reply == Some(Reply(Status(FailedCode, Some(NoRoomUuidMsg)), None))
    ensures guard.Pass? && start.StartFailed? ==> t.state == s && t.reply == Some(Reply(start.error, None))
  {
    match guard
    case Reject(st) => Rejected(s, st)
    case Pass =>
      match start
      case StartFailed(e) => Step(s, Some(Reply(e, None)), [RequestCreate])
      case Started(None) => Step(s, Some(Reply(Status(FailedCode, Some(NoRoomUuidMsg)), None)), [RequestCreate])
      case Started(Some(info)) =>
        Step(s.(liveInfo := Some(info)), Some(Reply(Status(SuccessCode, None), Some(info))), [RequestCreate])
  }

  /** A created room is not a joined one: without a held context the
      observer still reports no current room. */
  lemma CreateDoesNotJoin(s: State, info: Info)
    requires s.roomContext.None?
    ensures var t := CreateRoom(s, Pass, Started(Some(info)));
            t.state.liveInfo == Some(info) && CurrentRoomInfo(t.state) == None
  {
  }

  /** A `createRoom` reply with code 0 always carries the created room,
      provided the guard and the room service report their failures with
      non-zero codes. */
  lemma CreateSuccessCarriesInfo(s: State, guard: Guard, start: StartReply)
    requires guard.Reject? ==> guard.status.code != SuccessCode
    requires start.StartFailed? ==> start.error.code != SuccessCode
    ensures var t := CreateRoom(s, guard, start);
            t.reply.Some? && t.reply.value.status.code == SuccessCode ==> t.reply.value.info.Some?
  {
  }

  // ---------------------------------------------------------------------
  // joinRoom

  /** `NEJoinVoiceRoomParams`; `role` is the already converted role string. */
  datatype JoinParams = JoinParams(roomUuid: string, nick: string, role: string, liveRecordId: int)

  /** The room service's answer to `getVoiceRoomRoomInfo`. */
  datatype InfoFetch = Fetched(data: Option<Info>) | FetchFailed(error: Status)

  /** Everything `joinRoom`'s collaborators answer: the SDK's existing
      context for the room, the room-service join, both channel
      completions and the room-info fetch. */
  datatype JoinWorld = JoinWorld(existing: Option<Ctx>, svc: ServiceJoin,
                                 rtc: ChannelReply, chat: ChannelReply, fetch: InfoFetch)

  /** Whether the join attempt ends with code 0, stated directly on the
      collaborators' answers. */
  predicate JoinCodeZero(w: JoinWorld) {
    if w.svc.ctx.None? then w.svc.code == SuccessCode else !Failed(w.rtc) && !Failed(w.chat)
  }

  /** The nested `join` helper of `joinRoom`: enter the room and, on code 0,
      fetch the room info; store and report it if there is one, report a
      fetch error, and say nothing at all when the info is nil. */
  function Join(s: State, p: JoinParams, w: JoinWorld): (t: Step)
    ensures WellFormed(t.reply)
    ensures t.reply.None? <==> JoinCodeZero(w) && w.fetch == Fetched(None)
    ensures t.reply.Some? && t.reply.value.info.Some? ==> t.state.liveInfo == t.reply.value.info
    ensures !JoinCodeZero(w) ==> t.state.liveInfo == s.liveInfo
    ensures JoinCodeZero(w) && w.fetch.Fetched? && w.fetch.data.Some? ==>
      t.reply == Some(Reply(Status(SuccessCode, None), w.fetch.data))
    ensures w.svc.ctx.Some? ==> t.state.roomContext == w.svc.ctx
    ensures w.svc.ctx.None? ==>
      && t.state.roomContext == s.roomContext
      && t.state.roomListeners == s.roomListeners
      && t.state.seatListeners == s.seatListeners
      && t.state.audioService == s.audioService
      && forall e :: e in t.effects ==> !e.JoinRtc? && !e.JoinChatroom? && !e.AddRoomListener?
    ensures w.svc.ctx.Some? && (Failed(w.rtc) || Failed(w.chat)) ==>
      t.reply == Some(Reply(Aggregate(w.rtc, w.chat).outcome, None))
    ensures w.svc.ctx.None? && w.svc.code != SuccessCode ==>
      t.reply == Some(Reply(Status(w.svc.code, w.svc.msg), None))
    ensures JoinCodeZero(w) && w.fetch.FetchFailed? ==> t.reply == Some(Reply(w.fetch.error, None))
    ensures t.state == EnterRoom(s, p.roomUuid, p.nick, p.role, None, w.svc, w.rtc, w.chat).state.(liveInfo := t.state.liveInfo)
    ensures !(JoinCodeZero(w) && w.fetch.Fetched? && w.fetch.data.Some?) ==> t.state.liveInfo == s.liveInfo
    ensures t.effects == EnterRoom(s, p.roomUuid, p.nick, p.role, None, w.svc, w.rtc, w.chat).effects
                         + (if JoinCodeZero(w) then [FetchInfo(p.liveRecordId)] else [])
  {
    var a := EnterRoom(s, p.roomUuid, p.nick, p.role, None, w.svc, w.rtc, w.chat);
    if a.outcome.code == SuccessCode then
      var es := a.effects + [FetchInfo(p.liveRecordId)];
      match w.fetch
      case Fetched(None) => Step(a.state, None, es)
      case Fetched(Some(d)) =>
        Step(a.state.(liveInfo := Some(d)), Some(Reply(Status(a.outcome.code, None), Some(d))), es)
      case FetchFailed(e) => Step(a.state, Some(Reply(e, None)), es)
    else
      Step(a.state, Some(Reply(a.outcome, None)), a.effects)
  }

  /** `joinRoom`: if the room SDK already has a context for the requested
      room, leave it first and then join, whatever that leave reported;
      otherwise join directly. */
  function JoinRoom(s: State, p: JoinParams, guard: Guard, w: JoinWorld): (t: Step)
    ensures WellFormed(t.reply)
    ensures guard.Reject? ==> t == Rejected(s, guard.status)
    ensures guard.Pass? ==> t.state == Join(s, p, w).state && t.reply == Join(s, p, w).reply
    ensures guard.Pass? ==>
      t.effects == (if w.existing.Some? then [ContextLeave(w.existing.value)] else []) + Join(s, p, w).effects
  {
    match guard
    case Reject(st) => Rejected(s, st)
    case Pass =>
      var first := match w.existing
        case Some(c) => [ContextLeave(c)]
        case None => [];
      var j := Join(s, p, w);
      j.(effects := first + j.effects)
  }

  /** Leaving an existing context first changes nothing but that one
      leading leave: the join that follows is the same. */
  lemma LeaveFirstThenJoin(s: State, p: JoinParams, w: JoinWorld, c: Ctx)
    ensures var direct := JoinRoom(s, p, Pass, w.(existing := None));
            var first := JoinRoom(s, p, Pass, w.(existing := Some(c)));
            && first.state == direct.state
            && first.reply == direct.reply
            && first.effects == [ContextLeave(c)] + direct.effects
  {
    var j := Join(s, p, w);
    JoinIgnoresExisting(s, p, w, None);
    JoinIgnoresExisting(s, p, w, Some(c));
    assert JoinRoom(s, p, Pass, w.(existing := None)).effects == [] + j.effects;
    assert [] + j.effects == j.effects;
  }

  /** The nested join does not look at the SDK's existing context. */
  lemma JoinIgnoresExisting(s: State, p: JoinParams, w: JoinWorld, e: Option<Ctx>)
    ensures Join(s, p, w.(existing := e)) == Join(s, p, w)
  {
    var v := w.(existing := e);
    assert v.svc == w.svc && v.rtc == w.rtc && v.chat == w.chat && v.fetch == w.fetch;
  }

  /** A join whose channels both succeed never leaves the context it just
      got; one whose channels fail leaves it exactly once. The only other
      leave is the leading one of an SDK context for the room. */
  lemma JoinLeavesNewContextOnlyOnFailure(s: State, p: JoinParams, w: JoinWorld)
    requires w.svc.ctx.Some? && Some(w.svc.ctx.value) != w.existing
    ensures multiset(JoinRoom(s, p, Pass, w).effects)[ContextLeave(w.svc.ctx.value)]
            == if Failed(w.rtc) || Failed(w.chat) then 1 else 0
  {
    var c := w.svc.ctx.value;
    var a := EnterRoom(s, p.roomUuid, p.nick, p.role, None, w.svc, w.rtc, w.chat);
    EnterRoomWithContext(s, p.roomUuid, p.nick, p.role, w.svc, w.rtc, w.chat);
    var first := if w.existing.Some? then [ContextLeave(w.existing.value)] else [];
    var tail := if JoinCodeZero(w) then [FetchInfo(p.liveRecordId)] else [];
    assert multiset(first)[ContextLeave(c)] == 0;
    assert multiset(tail)[ContextLeave(c)] == 0;
    assert JoinRoom(s, p, Pass, w).effects == first + (a.effects + tail);
  }

  /** A successful join whose room-info fetch comes back nil never answers
      the caller, though the context is held and listened on. */
  lemma NilRoomInfoNeverAnswers(s: State, p: JoinParams, w: JoinWorld)
    requires w.svc.ctx.Some? && !Failed(w.rtc) && !Failed(w.chat)
    requires w.fetch == Fetched(None)
    ensures var t := JoinRoom(s, p, Pass, w);
            t.reply == None && t.state.roomContext == w.svc.ctx && w.svc.ctx.value in t.state.roomListeners
  {
  }

  /** A failed channel join is reported, but the session is not torn down:
      "a context is held iff both channels are joined" does not hold. */
  lemma FailedJoinLeavesSessionHeld(p: JoinParams, c: Ctx, code: int)
    requires code != SuccessCode
    ensures var w := JoinWorld(None, ServiceJoin(SuccessCode, None, Some(c)),
                               ChannelReply(Some(code), None), ChannelReply(Some(SuccessCode), None),
                               Fetched(None));
            var t := JoinRoom(Initial, p, Pass, w);
            && t.reply == Some(Reply(Status(code, None), None))
            && t.state.roomContext == Some(c)
            && t.state.roomListeners == {c} && t.state.seatListeners == {c}
  {
  }

  /** A room service that reports code 0 without a context makes `joinRoom`
      report success with room info while no context is held, so the
      observer still reports no current room. */
  lemma SuccessWithoutContext(p: JoinParams, info: Info)
    ensures var w := JoinWorld(None, ServiceJoin(SuccessCode, None, None),
                               ChannelReply(None, None), ChannelReply(None, None),
                               Fetched(Some(info)));
            var t := JoinRoom(Initial, p, Pass, w);
            && t.reply == Some(Reply(Status(SuccessCode, None), Some(info)))
            && t.state.roomContext == None
            && CurrentRoomInfo(t.state) == None
  {
  }

  /** A full join with room info makes the observer report that info. */
  lemma JoinedRoomIsCurrent(s: State, p: JoinParams, w: JoinWorld, info: Info)
    requires w.svc.ctx.Some? && !Failed(w.rtc) && !Failed(w.chat)
    requires w.fetch == Fetched(Some(info))
    ensures CurrentRoomInfo(JoinRoom(s, p, Pass, w).state) == Some(info)
  {
  }

  /** A `joinRoom` reply with code 0 always carries room info, provided the
      guard and the room service report their failures with non-zero
      codes: no path of `join` answers `(0, msg, nil)`. */
  lemma JoinSuccessCarriesInfo(s: State, p: JoinParams, guard: Guard, w: JoinWorld)
    requires guard.Reject? ==> guard.status.code != SuccessCode
    requires w.fetch.FetchFailed? ==> w.fetch.error.code != SuccessCode
    ensures var t := JoinRoom(s, p, guard, w);
            t.reply.Some? && t.reply.value.status.code == SuccessCode ==> t.reply.value.info.Some?
  {
  }

  // ---------------------------------------------------------------------
  // leaveRoom

  /** `leaveRoom`: leave the held context and, once that completes, reset,
      then report the leave's own status. `Judge.preCondition` checks
      `roomContext` before letting the call through (NEVoiceRoomKit+Room.swift:189),
      and the body force-unwraps it, so a passing guard promises a held
      context: hence the precondition. */
  function LeaveRoom(s: State, guard: Guard, leave: Status): (t: Step)
    requires guard.Pass? ==> s.roomContext.Some?
    ensures WellFormed(t.reply)
    ensures guard.Reject? ==> t == Rejected(s, guard.status)
    ensures guard.Pass? ==>
      && Idle(t.state)
      && CurrentRoomInfo(t.state) == None
      && t.state == Reset(s).state
      && t.reply == Some(Reply(leave, None))
      && t.effects == [ContextLeave(s.roomContext.value)] + Reset(s).effects
    ensures guard.Pass? && Coupled(s) ==> t.state.roomListeners == {} && t.state.seatListeners == {}
  {
    match guard
    case Reject(st) => Rejected(s, st)
    case Pass =>
      var r := Reset(s);
      Step(r.state, Some(Reply(leave, None)), [ContextLeave(s.roomContext.value)] + r.effects)
  }

  /** A successful `leaveRoom` answers code 0 with no payload, so "code 0
      comes with a payload" is not a property of every reply. */
  lemma LeaveSucceedsWithoutPayload(s: State)
    requires s.roomContext.Some?
    ensures LeaveRoom(s, Pass, Status(SuccessCode, None)).reply == Some(Reply(Status(SuccessCode, None), None))
  {
  }

  /** The teardown does not depend on what the leave reported. */
  lemma LeaveResetsWhateverTheCode(s: State, ok: Status, bad: Status)
    requires s.roomContext.Some?
    ensures LeaveRoom(s, Pass, ok).state == LeaveRoom(s, Pass, bad).state
    ensures LeaveRoom(s, Pass, ok).effects == LeaveRoom(s, Pass, bad).effects
    ensures LeaveRoom(s, Pass, bad).reply == Some(Reply(bad, None))
  {
  }

  // ---------------------------------------------------------------------
  // endRoom

  /** The room service's eventual answer to `endRoom(liveRecordId)`. */
  datatype EndReply = Ended | EndFailed(error: Status)

  /** `endRoom`: without a live record id, report `failed` and do nothing
      else. With one, force-end the held context, ask the room service to
      end the live record and reset straight away; the callback later
      reports the remote answer. */
  function EndRoom(s: State, guard: Guard, remote: EndReply): (t: Step)
    ensures WellFormed(t.reply) && t.reply.Some?
    ensures guard.Reject? ==> t == Rejected(s, guard.status)
    ensures guard.Pass? && LiveRecordId(s).None? ==>
      t == Rejected(s, Status(FailedCode, Some(NoLiveRecordIdMsg)))
    ensures guard.Pass? && LiveRecordId(s).Some? ==>
      && Idle(t.state)
      && t.state == Reset(s).state
      && t.effects == (if s.roomContext.Some? then [ForceEnd(s.roomContext.value)] else [])
                      + [RequestEnd(LiveRecordId(s).value)] + Reset(s).effects
    ensures guard.Pass? && LiveRecordId(s).Some? ==>
      t.reply == Some(Reply(if remote.Ended? then Status(SuccessCode, None) else remote.error, None))
    ensures forall e :: e in t.effects && e.RequestEnd? ==> Some(e.liveRecordId) == LiveRecordId(s)
  {
    match guard
    case Reject(st) => Rejected(s, st)
    case Pass =>
      match LiveRecordId(s)
      case None => Rejected(s, Status(FailedCode, Some(NoLiveRecordIdMsg)))
      case Some(id) =>
        var force := match s.roomContext
          case Some(c) => [ForceEnd(c)]
          case None => [];
        var r := Reset(s);
        var answer := match remote
          case Ended => Status(SuccessCode, None)
          case EndFailed(e) => e;
        Step(r.state, Some(Reply(answer, None)), force + [RequestEnd(id)] + r.effects)
  }

  /** A successful `endRoom` answers `(success, nil, nil)`: code 0 with no
      payload. */
  lemma EndSucceedsWithoutPayload(s: State)
    requires LiveRecordId(s).Some?
    ensures EndRoom(s, Pass, Ended).reply == Some(Reply(Status(SuccessCode, None), None))
  {
  }

  /** The reset does not wait for the remote answer: state and calls are the
      same whatever the room service eventually reports. */
  lemma EndResetsBeforeRemoteAnswer(s: State, a: EndReply, b: EndReply)
    ensures EndRoom(s, Pass, a).state == EndRoom(s, Pass, b).state
    ensures EndRoom(s, Pass, a).effects == EndRoom(s, Pass, b).effects
  {
  }
}
