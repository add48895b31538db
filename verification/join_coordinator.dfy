/** The two-channel join of `NEVoiceRoomKit+Room.swift`: the barrier over the
    rtc and chatroom completions, the aggregation of their results with its
    rollback leave, and the context acquisition that precedes it. */
module JoinCoordinator {
  import opened RoomTypes

  /** What one channel's completion left in the coordinator's variables
      (`rtcCode`/`rtcMsg`, `chatCode`/`chatMsg`); the code is absent until the
      completion has written it. */
  datatype ChannelReply = ChannelReply(code: Option<int>, msg: Option<string>)

  /** A channel counts as failed only when its code is present and non-zero;
      an absent code counts as success. */
  predicate Failed(r: ChannelReply) {
    r.code.Some? && r.code.value != SuccessCode
  }

  /** The aggregated outcome of a join attempt and whether the rollback
      `context.leaveRoom()` is issued. */
  datatype Verdict = Verdict(outcome: Status, rollback: bool)

  /** The evaluation run once the barrier has released. */
  function Aggregate(rtc: ChannelReply, chat: ChannelReply): (v: Verdict)
    ensures Failed(rtc) ==> v.outcome == Status(rtc.code.value, rtc.msg)
    ensures !Failed(rtc) && Failed(chat) ==> v.outcome == Status(chat.code.value, chat.msg)
    ensures v.outcome.code == SuccessCode <==> !Failed(rtc) && !Failed(chat)
    ensures v.outcome.code == SuccessCode ==> v.outcome.msg == None
    ensures v.rollback <==> v.outcome.code != SuccessCode
  {
    if Failed(rtc) then Verdict(Status(rtc.code.value, rtc.msg), true)
    else if Failed(chat) then Verdict(Status(chat.code.value, chat.msg), true)
    else Verdict(Status(SuccessCode, None), false)
  }

  /** Reference definition: the position of the first failed channel in a
      priority-ordered list of channel replies, or the list's length. */
  function FirstFailure(rs: seq<ChannelReply>): (k: nat)
    ensures k <= |rs|
    ensures forall j :: 0 <= j < k ==> !Failed(rs[j])
    ensures k < |rs| ==> Failed(rs[k])
  {
    if rs == [] then 0
    else if Failed(rs[0]) then 0
    else 1 + FirstFailure(rs[1..])
  }

  /** The verdict a priority list of channels calls for: the first failure
      wins and is rolled back, and no failure means success. */
  function ByPriority(rs: seq<ChannelReply>): Verdict {
    var k := FirstFailure(rs);
    if k < |rs| then Verdict(Status(rs[k].code.value, rs[k].msg), true)
    else Verdict(Status(SuccessCode, None), false)
  }

  /** Aggregation is "first failure in the order rtc, chatroom". */
  lemma AggregateIsRtcFirstPriority(rtc: ChannelReply, chat: ChannelReply)
    ensures Aggregate(rtc, chat) == ByPriority([rtc, chat])
  {
    var rs := [rtc, chat];
    assert rs[1..] == [chat];
    assert [chat][1..] == [];
    if Failed(rtc) {
      assert FirstFailure(rs) == 0;
    } else if Failed(chat) {
      assert FirstFailure([chat]) == 0;
      assert FirstFailure(rs) == 1;
    } else {
      assert FirstFailure([chat]) == 1 + FirstFailure([]) == 1;
      assert FirstFailure(rs) == 2;
    }
  }

  /** Whatever the chatroom reported, a failed rtc join decides the outcome. */
  lemma RtcFailureWins(rtc: ChannelReply, chat1: ChannelReply, chat2: ChannelReply)
    requires Failed(rtc)
    ensures Aggregate(rtc, chat1) == Aggregate(rtc, chat2)
    ensures Aggregate(rtc, chat1) == Verdict(Status(rtc.code.value, rtc.msg), true)
  {
  }

  // ---------------------------------------------------------------------
  // The DispatchGroup barrier

  /** A channel completion as it reaches the coordinator. */
  datatype Arrival = RtcDone(rtcReply: Status) | ChatDone(chatReply: Status)

  /** The coordinator's variables and the group's outstanding count. */
  datatype Barrier = Barrier(rtc: ChannelReply, chat: ChannelReply, pending: nat)

  /** Both `group.enter()` calls made, no completion yet. */
  const Entered: Barrier := Barrier(ChannelReply(None, None), ChannelReply(None, None), 2)

  function Slot(st: Status): ChannelReply {
    ChannelReply(Some(st.code), st.msg)
  }

  /** A completion writes its own variables and calls `group.leave()`. */
  function Arrive(b: Barrier, a: Arrival): (b': Barrier)
    requires b.pending > 0
    ensures b'.pending == b.pending - 1
    ensures a.RtcDone? ==> b'.rtc == Slot(a.rtcReply) && b'.chat == b.chat
    ensures a.ChatDone? ==> b'.chat == Slot(a.chatReply) && b'.rtc == b.rtc
  {
    match a
    case RtcDone(st) => Barrier(Slot(st), b.chat, b.pending - 1)
    case ChatDone(st) => Barrier(b.rtc, Slot(st), b.pending - 1)
  }

  function Collect(b: Barrier, arrivals: seq<Arrival>): (b': Barrier)
    requires |arrivals| <= b.pending
    ensures b'.pending == b.pending - |arrivals|
    decreases |arrivals|
  {
    if arrivals == [] then b else Collect(Arrive(b, arrivals[0]), arrivals[1..])
  }

  /** `group.notify` runs its block only once the count is back to zero. */
  predicate Released(b: Barrier) {
    b.pending == 0
  }

  /** The barrier does not release on the first completion, and once both
      have arrived the evaluation sees the same variables in either order. */
  lemma BarrierOrderIrrelevant(x: Status, y: Status)
    ensures !Released(Collect(Entered, [RtcDone(x)]))
    ensures !Released(Collect(Entered, [ChatDone(y)]))
    ensures Released(Collect(Entered, [RtcDone(x), ChatDone(y)]))
    ensures Collect(Entered, [RtcDone(x), ChatDone(y)]) == Collect(Entered, [ChatDone(y), RtcDone(x)])
    ensures var b := Collect(Entered, [ChatDone(y), RtcDone(x)]);
            b.rtc == Slot(x) && b.chat == Slot(y)
  {
    var one := [RtcDone(x), ChatDone(y)];
    var two := [ChatDone(y), RtcDone(x)];
    assert one[1..] == [ChatDone(y)] && two[1..] == [RtcDone(x)];
    assert [ChatDone(y)][1..] == [] && [RtcDone(x)][1..] == [];
    var both := Barrier(Slot(x), Slot(y), 0);
    assert Collect(Entered, one) == Collect(Arrive(Entered, RtcDone(x)), [ChatDone(y)]) == both;
    assert Collect(Entered, two) == Collect(Arrive(Entered, ChatDone(y)), [RtcDone(x)]) == both;
  }

  // ---------------------------------------------------------------------
  // _joinRoom(_ context:) and _joinRoom(_ roomUuid:...)

  /** A join attempt's result: the new state, the single status the attempt's
      callback reports (its payload is always nil) and the calls made. */
  datatype Attempt = Attempt(state: State, outcome: Status, effects: seq<Effect>)

  /** `_joinRoom(_ context:)`: create the audio-play service, start both
      channel joins, and once both completions are in, report the aggregated
      outcome, leaving the context on failure. It never touches `roomContext`
      or the listeners. */
  function JoinChannels(s: State, ctx: Ctx, rtc: ChannelReply, chat: ChannelReply): (a: Attempt)
    ensures a.state == s.(audioService := Some(ctx.roomUuid))
    ensures a.outcome == Aggregate(rtc, chat).outcome
    ensures |a.effects| >= 2 && a.effects[..2] == [JoinRtc(ctx), JoinChatroom(ctx)]
    ensures multiset(a.effects)[ContextLeave(ctx)] == if a.outcome.code == SuccessCode then 0 else 1
    ensures forall e :: e in a.effects[2..] ==> e == ContextLeave(ctx)
  {
    var v := Aggregate(rtc, chat);
    var rollback := if v.rollback then [ContextLeave(ctx)] else [];
    Attempt(s.(audioService := Some(ctx.roomUuid)), v.outcome, [JoinRtc(ctx), JoinChatroom(ctx)] + rollback)
  }

  /** The room service's answer to `joinRoom(params:options:)`. */
  datatype ServiceJoin = ServiceJoin(code: int, msg: Option<string>, ctx: Option<Ctx>)

  /** The state once a context from the room service is stored and both
      listeners are registered on it, before the channel joins start. */
  function Stored(s: State, c: Ctx): (t: State)
    ensures t.roomContext == Some(c) && c in t.roomListeners && c in t.seatListeners
    ensures t.liveInfo == s.liveInfo && t.audioService == s.audioService
    ensures t.roomListeners - {c} == s.roomListeners - {c}
    ensures t.seatListeners - {c} == s.seatListeners - {c}
  {
    s.(roomContext := Some(c),
       roomListeners := s.roomListeners + {c},
       seatListeners := s.seatListeners + {c})
  }

  /** `_joinRoom(_ roomUuid:userName:role:roomContext:)`. A context passed in
      goes straight to the channel joins. Otherwise the room service is asked
      to join; without a context its code is passed through and nothing else
      happens; with one, the context is stored and both listeners are
      registered on it before the channel joins start. */
  function EnterRoom(s: State, roomUuid: string, userName: string, role: string,
                     given: Option<Ctx>, svc: ServiceJoin,
                     rtc: ChannelReply, chat: ChannelReply): (a: Attempt)
    ensures given.Some? ==> a == JoinChannels(s, given.value, rtc, chat)
    ensures given.None? && svc.ctx.None? ==>
      a == Attempt(s, Status(svc.code, svc.msg), [RequestJoin(roomUuid, userName, role)])
    ensures given.None? && svc.ctx.Some? ==>
      var c := svc.ctx.value;
      && a.state == Stored(s, c).(audioService := Some(c.roomUuid))
      && a.outcome == Aggregate(rtc, chat).outcome
      && a.effects == [RequestJoin(roomUuid, userName, role), AddRoomListener(c), AddSeatListener(c)]
                      + JoinChannels(Stored(s, c), c, rtc, chat).effects
  {
    match given
    case Some(c) => JoinChannels(s, c, rtc, chat)
    case None =>
      var request := [RequestJoin(roomUuid, userName, role)];
      match svc.ctx
      case None => Attempt(s, Status(svc.code, svc.msg), request)
      case Some(c) =>
        var j := JoinChannels(Stored(s, c), c, rtc, chat);
        j.(effects := request + [AddRoomListener(c), AddSeatListener(c)] + j.effects)
  }

  /** With a context from the room service, both listeners are registered
      before either channel join starts, and the context is left exactly once
      on failure and never on success. */
  lemma EnterRoomWithContext(s: State, roomUuid: string, userName: string, role: string,
                             svc: ServiceJoin, rtc: ChannelReply, chat: ChannelReply)
    requires svc.ctx.Some?
    ensures var c := svc.ctx.value;
            var a := EnterRoom(s, roomUuid, userName, role, None, svc, rtc, chat);
            && |a.effects| >= 5
            && a.effects[..3] == [RequestJoin(roomUuid, userName, role), AddRoomListener(c), AddSeatListener(c)]
            && a.effects[3..5] == [JoinRtc(c), JoinChatroom(c)]
            && multiset(a.effects)[ContextLeave(c)] == if a.outcome.code == SuccessCode then 0 else 1
  {
    var c := svc.ctx.value;
    var pre := [RequestJoin(roomUuid, userName, role), AddRoomListener(c), AddSeatListener(c)];
    var j := JoinChannels(Stored(s, c), c, rtc, chat);
    var es := pre + j.effects;
    assert es[..3] == pre;
    assert es[3..5] == j.effects[..2];
    assert multiset(es) == multiset(pre) + multiset(j.effects);
    assert multiset(pre)[ContextLeave(c)] == 0;
  }

  /** A failed channel join rolls the context back with `leaveRoom()` but
      keeps it as `roomContext`, still listened on: a session that is not
      fully joined. */
  lemma FailedChannelJoinKeepsContext(s: State, roomUuid: string, userName: string, role: string,
                                      svc: ServiceJoin, rtc: ChannelReply, chat: ChannelReply)
    requires svc.ctx.Some?
    requires Failed(rtc) || Failed(chat)
    ensures var a := EnterRoom(s, roomUuid, userName, role, None, svc, rtc, chat);
            && a.outcome.code != SuccessCode
            && a.state.roomContext == svc.ctx
            && svc.ctx.value in a.state.roomListeners
            && svc.ctx.value in a.state.seatListeners
            && ContextLeave(svc.ctx.value) in a.effects
  {
    var a := EnterRoom(s, roomUuid, userName, role, None, svc, rtc, chat);
    assert a.effects[|a.effects| - 1] == ContextLeave(svc.ctx.value);
  }
}
