/** Sequences of public operations on one controller. The controller's
    operations are serialised (each completes before the next starts), so a
    session is a fold of the transitions over a list of calls, each call
    carrying its collaborators' answers. */
module SessionRuns {
  import opened RoomTypes
  import opened JoinCoordinator
  import opened RoomController

  /** One public call together with what its collaborators answered. The
      observer `getCurrentRoomInfo` answers no callback and changes nothing,
      so it is not a step of a session: `CurrentRoomInfo` reads any state. */
  datatype Op =
    | Create(createGuard: Guard, start: StartReply)
    | JoinOp(params: JoinParams, joinGuard: Guard, world: JoinWorld)
    | Leave(leaveGuard: Guard, leave: Status)
    | End(endGuard: Guard, remote: EndReply)

  /** A call the source can make without trapping: `leaveRoom` force-unwraps
      the context once its guard lets it through. */
  predicate Enabled(s: State, op: Op) {
    op.Leave? && op.leaveGuard.Pass? ==> s.roomContext.Some?
  }

  function Apply(s: State, op: Op): (t: Step)
    requires Enabled(s, op)
    ensures WellFormed(t.reply)
  {
    match op
    case Create(g, start) => CreateRoom(s, g, start)
    case JoinOp(p, g, w) => JoinRoom(s, p, g, w)
    case Leave(g, leave) => LeaveRoom(s, g, leave)
    case End(g, remote) => EndRoom(s, g, remote)
  }

  /** The calls of `ops`, applied in turn from `s`, can all be made. */
  predicate Runnable(s: State, ops: seq<Op>)
    decreases |ops|
  {
    ops == [] || (Enabled(s, ops[0]) && Runnable(Apply(s, ops[0]).state, ops[1..]))
  }

  /** What a whole session produced: the final state, every call's reply in
      order, and the calls made on collaborators in order. */
  datatype Trace = Trace(state: State, replies: seq<Option<Reply>>, effects: seq<Effect>)

  function Run(s: State, ops: seq<Op>): (t: Trace)
    requires Runnable(s, ops)
    ensures |t.replies| == |ops|
    ensures forall i :: 0 <= i < |t.replies| ==> WellFormed(t.replies[i])
    decreases |ops|
  {
    if ops == [] then Trace(s, [], [])
    else
      var step := Apply(s, ops[0]);
      var rest := Run(step.state, ops[1..]);
      Trace(rest.state, [step.reply] + rest.replies, step.effects + rest.effects)
  }

  /** The discipline under which listener registrations stay coupled to the
      held context: a join that gets a context from the room service is only
      made while no other context is held. */
  predicate Serial(s: State, op: Op) {
    op.JoinOp? && op.joinGuard.Pass? && op.world.svc.ctx.Some? ==>
      s.roomContext.None? || s.roomContext == op.world.svc.ctx
  }

  predicate Disciplined(s: State, ops: seq<Op>)
    decreases |ops|
  {
    ops == [] ||
    (Enabled(s, ops[0]) && Serial(s, ops[0]) && Disciplined(Apply(s, ops[0]).state, ops[1..]))
  }

  /** Entering a room with a context only while none other is held keeps
      the listeners coupled. */
  lemma EnterKeepsCoupled(s: State, p: JoinParams, svc: ServiceJoin, rtc: ChannelReply, chat: ChannelReply)
    requires Coupled(s)
    requires svc.ctx.Some? ==> s.roomContext.None? || s.roomContext == svc.ctx
    ensures Coupled(EnterRoom(s, p.roomUuid, p.nick, p.role, None, svc, rtc, chat).state)
  {
    var a := EnterRoom(s, p.roomUuid, p.nick, p.role, None, svc, rtc, chat).state;
    if svc.ctx.Some? {
      var c := svc.ctx.value;
      assert Held(s) <= {c};
      assert a.roomListeners == s.roomListeners + {c} == {c};
      assert a.seatListeners == s.seatListeners + {c} == {c};
    }
  }

  /** `joinRoom` leaves the context and the listeners as entering the room
      left them; only the stored room info may differ. */
  lemma JoinListensAsEntered(s: State, p: JoinParams, w: JoinWorld)
    ensures var t := JoinRoom(s, p, Pass, w).state;
            var a := EnterRoom(s, p.roomUuid, p.nick, p.role, None, w.svc, w.rtc, w.chat).state;
            t.roomContext == a.roomContext && t.roomListeners == a.roomListeners && t.seatListeners == a.seatListeners
  {
    assert JoinRoom(s, p, Pass, w).state == Join(s, p, w).state;
  }

  /** A join that gets a context only while none other is held keeps the
      listeners coupled. */
  lemma JoinKeepsCoupled(s: State, p: JoinParams, w: JoinWorld)
    requires Coupled(s)
    requires w.svc.ctx.Some? ==> s.roomContext.None? || s.roomContext == w.svc.ctx
    ensures Coupled(JoinRoom(s, p, Pass, w).state)
  {
    EnterKeepsCoupled(s, p, w.svc, w.rtc, w.chat);
    JoinListensAsEntered(s, p, w);
  }

  /** One serial call keeps the listeners coupled to the held context. */
  lemma ApplyKeepsCoupled(s: State, op: Op)
    requires Coupled(s) && Enabled(s, op) && Serial(s, op)
    ensures Coupled(Apply(s, op).state)
  {
    match op
    case Create(g, start) =>
      assert Apply(s, op).state.roomListeners == s.roomListeners;
    case JoinOp(p, g, w) =>
      if g.Pass? {
        JoinKeepsCoupled(s, p, w);
      }
    case Leave(g, leave) =>
    case End(g, remote) =>
  }

  lemma {:induction false} DisciplinedIsRunnable(s: State, ops: seq<Op>)
    requires Disciplined(s, ops)
    ensures Runnable(s, ops)
    decreases |ops|
  {
    if ops != [] {
      DisciplinedIsRunnable(Apply(s, ops[0]).state, ops[1..]);
    }
  }

  /** Over a whole disciplined session the controller listens on its held
      context and nothing else, so every later reset unregisters everything. */
  lemma {:induction false} RunKeepsCoupled(s: State, ops: seq<Op>)
    requires Coupled(s) && Disciplined(s, ops)
    ensures Runnable(s, ops)
    ensures Coupled(Run(s, ops).state)
    ensures Reset(Run(s, ops).state).state.roomListeners == {}
    ensures Reset(Run(s, ops).state).state.seatListeners == {}
    decreases |ops|
  {
    DisciplinedIsRunnable(s, ops);
    if ops != [] {
      ApplyKeepsCoupled(s, ops[0]);
      RunKeepsCoupled(Apply(s, ops[0]).state, ops[1..]);
    }
  }

  /** Without that discipline the coupling breaks: joining a second context
      while one is held leaves listener registrations on the first that
      neither `leaveRoom` nor its reset ever removes. This holds whether or
      not the room SDK still had a context for the room to leave first, so it
      covers re-joining the same room (`existing == Some(a)`,
      `b.roomUuid == a.roomUuid`) as well as joining directly. */
  lemma StaleListenerAfterRejoin(a: Ctx, b: Ctx, existing: Option<Ctx>, p: JoinParams, leave: Status)
    requires a != b
    ensures var s := Initial.(roomContext := Some(a), roomListeners := {a}, seatListeners := {a});
            var w := JoinWorld(existing, ServiceJoin(SuccessCode, None, Some(b)),
                               ChannelReply(Some(SuccessCode), None), ChannelReply(Some(SuccessCode), None),
                               Fetched(None));
            var joined := JoinRoom(s, p, Pass, w).state;
            var left := LeaveRoom(joined, Pass, leave).state;
            && Coupled(s)
            && !Coupled(joined)
            && left.roomContext == None
            && left.roomListeners == {a} && left.seatListeners == {a}
  {
  }

  /** Every session, disciplined or not, ends idle after a successful
      `leaveRoom`: nothing is held and the observer reports no room. */
  lemma {:induction false} SessionEndingInLeaveIsIdle(s: State, ops: seq<Op>, leave: Status)
    requires Runnable(s, ops)
    requires Run(s, ops).state.roomContext.Some?
    ensures Runnable(s, ops + [Leave(Pass, leave)])
    ensures Idle(Run(s, ops + [Leave(Pass, leave)]).state)
    ensures CurrentRoomInfo(Run(s, ops + [Leave(Pass, leave)]).state) == None
    decreases |ops|
  {
    var op := Leave(Pass, leave);
    if ops == [] {
      assert [op][1..] == [];
    } else {
      assert (ops + [op])[0] == ops[0];
      assert (ops + [op])[1..] == ops[1..] + [op];
      SessionEndingInLeaveIsIdle(Apply(s, ops[0]).state, ops[1..], leave);
    }
  }
}
