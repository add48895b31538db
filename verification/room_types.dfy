/** Shared vocabulary of the voice-room kit's session controller: callback
    results, room contexts, room information, the controller's own state and
    the log of outbound calls (effects) it makes on its collaborators. */
module RoomTypes {

  datatype Option<+T> = None | Some(value: T)

  /** The `(code, message)` pair every completion of the kit and of the room
      SDK reports. Code 0 is the only success value. */
  datatype Status = Status(code: int, msg: Option<string>)

  /** NEVoiceRoomErrorCode.success. */
  const SuccessCode: int := 0

  /** NEVoiceRoomErrorCode.failed, the code the kit reports when it has no
      remote code to pass on. Its declaration is not part of this model;
      nothing here depends on its value beyond its being non-zero. */
  const FailedCode: int := -1

  const NoRoomUuidMsg: string := "Failed to create room. RoomUuid is nil."
  const NoLiveRecordIdMsg: string := "Failed to end room. LiveRecordId don't exist."

  /** A room context handed out by the room SDK: the room it belongs to and
      an opaque handle that tells two contexts of the same room apart. */
  datatype Ctx = Ctx(roomUuid: string, handle: nat)

  datatype Live = Live(liveRecordId: int)

  /** Room information from the room service (`liveInfo`); the controller
      only ever looks at its live record. */
  datatype Info = Info(live: Option<Live>)

  /** The outbound calls the controller makes, in the order it makes them. */
  datatype Effect =
    | RequestJoin(roomUuid: string, userName: string, role: string)
    | AddRoomListener(ctx: Ctx)
    | AddSeatListener(ctx: Ctx)
    | JoinRtc(ctx: Ctx)
    | JoinChatroom(ctx: Ctx)
    | ContextLeave(ctx: Ctx)
    | RemoveRoomListener(ctx: Ctx)
    | RemoveSeatListener(ctx: Ctx)
    | DestroyAudio(roomUuid: string)
    | ForceEnd(ctx: Ctx)
    | RequestCreate
    | RequestEnd(liveRecordId: int)
    | FetchInfo(liveRecordId: int)

  /** The controller's fields: the context it holds, the stored room
      information, the contexts it is registered on as room listener and as
      seat listener, and the room its audio-play service was created for. */
  datatype State = State(
    roomContext: Option<Ctx>,
    liveInfo: Option<Info>,
    roomListeners: set<Ctx>,
    seatListeners: set<Ctx>,
    audioService: Option<string>)

  const Initial: State := State(None, None, {}, {}, None)

  /** The contexts the controller holds: none, or its one `roomContext`. */
  function Held(s: State): (h: set<Ctx>)
    ensures |h| <= 1
    ensures forall c :: c in h <==> s.roomContext == Some(c)
  {
    if s.roomContext.Some? then {s.roomContext.value} else {}
  }

  /** Listener registrations are coupled to the held context: the controller
      listens on its `roomContext` and on nothing else. */
  predicate Coupled(s: State) {
    s.roomListeners == Held(s) && s.seatListeners == Held(s)
  }

  /** The live record id reached through `liveInfo?.live?.liveRecordId`. */
  function LiveRecordId(s: State): (id: Option<int>)
    ensures id.Some? <==> s.liveInfo.Some? && s.liveInfo.value.live.Some?
    ensures id.Some? ==> id.value == s.liveInfo.value.live.value.liveRecordId
  {
    match s.liveInfo
    case None => None
    case Some(info) =>
      match info.live
      case None => None
      case Some(live) => Some(live.liveRecordId)
  }
}
