/** The messages exchanged over the room socket: what clients emit to the server
    and what the server delivers to clients.  Payloads the application never
    interprets are kept opaque. */
module Wire {
  import opened JsText

  type SocketId = string

  /** A canvas object in the JSON form the whiteboard sends (`toObject(['id'])`).
      Only `id` and the `action` marker of a clear payload are interpreted; every
      other property is an opaque name/value pair. */
  datatype WhiteboardObject = WhiteboardObject(
    id: Option<string>,
    action: Option<string>,
    props: map<string, string>)

  /** The position of the first object with the id: the server's `findIndex` and
      the client's `find`.  Two absent ids compare equal, as two `undefined`
      values do. */
  function IndexOfObject(objs: seq<WhiteboardObject>, id: Option<string>): (r: Option<nat>)
    ensures r.Some? ==> r.value < |objs| && objs[r.value].id == id
    ensures r.Some? ==> forall j :: 0 <= j < r.value ==> objs[j].id != id
    ensures r.None? ==> forall j :: 0 <= j < |objs| ==> objs[j].id != id
  {
    if objs == [] then None
    else if objs[0].id == id then Some(0)
    else match IndexOfObject(objs[1..], id)
      case None => None
      case Some(k) => Some(k + 1)
  }

  /** The first position holding `id` is the one IndexOfObject reports. */
  lemma {:induction false} IndexOfObjectIsFirst(objs: seq<WhiteboardObject>, id: Option<string>, i: nat)
    requires i < |objs| && objs[i].id == id
    requires forall j :: 0 <= j < i ==> objs[j].id != id
    ensures IndexOfObject(objs, id) == Some(i)
  {
    if i > 0 {
      IndexOfObjectIsFirst(objs[1..], id, i - 1);
    }
  }

  /** A chat message as the chat panel builds it. */
  datatype ChatMessage = ChatMessage(
    messageId: string,
    text: string,
    user: string,
    senderId: Option<string>,
    timestamp: string,
    isSystem: bool)

  /** The user fields a client sends with join-room and leave-room; the server
      spreads them into user-joined / user-left and sets `socketId`. */
  datatype UserNotice = UserNotice(
    userId: Option<string>,
    name: Option<string>,
    avatar: Option<string>,
    socketId: Option<SocketId>)

  /** Pan and zoom of one client's whiteboard. */
  datatype Viewport = Viewport(zoom: real, offsetX: real, offsetY: real)

  /** A WebRTC session description or candidate, never interpreted by the application. */
  datatype Signal = Signal(sdp: string)

  /** The `data` of interaction-start: origin point and stroke style. */
  datatype StrokeStart = StrokeStart(x: real, y: real, color: string, width: real)

  /** The fields a cursor-move relay carries; absent fields are `None`. */
  datatype CursorData = CursorData(
    x: Option<real>,
    y: Option<real>,
    userName: Option<string>,
    color: Option<string>)

  const NoCursorData: CursorData := CursorData(None, None, None, None)

  /** Events the server delivers to clients. */
  datatype ServerEvent =
    | UserJoined(user: UserNotice)
    | UserLeft(user: UserNotice)
    | DrawData(obj: WhiteboardObject)
    | DeleteObject(objectId: Option<string>)
    | ClearCanvas
    | ToggleTheme(darkMode: bool)
    | ChatMessageEvent(message: ChatMessage)
    | ViewportChange(viewport: Viewport)
    | CodeChange(code: string, userName: Option<string>)
    | CursorChange(caretUser: Option<string>, line: int, col: int)
    | CodeOutput(output: string, running: bool)
    | ViewChange(view: string)
    | UserJoinedSignal(signal: Signal, callerId: SocketId, caller: UserNotice)
    | ReceivingReturnedSignal(answer: Signal, answererId: SocketId)
    | InteractionStart(start: StrokeStart, starter: SocketId)
    | InteractionUpdate(ux: real, uy: real, updater: SocketId)
    | InteractionEnd(ender: SocketId)
    | SelectionChange(selector: SocketId, objectIds: seq<string>, selColor: string, selName: string)
    | CursorMove(cursor: CursorData, mover: SocketId)

  /** Messages clients emit to the server. */
  datatype ClientMessage =
    | JoinRoomMsg(roomId: string, user: UserNotice)
    | LeaveRoomMsg(roomId: string, user: UserNotice)
    | DrawDataMsg(roomId: string, data: WhiteboardObject)
    | DeleteObjectMsg(roomId: string, objectId: Option<string>)
    | ClearCanvasMsg(roomId: string)
    | ChatMessageMsg(roomId: string, message: ChatMessage)
    | ViewportChangeMsg(roomId: string, viewport: Viewport)
    | CodeChangeMsg(roomId: string, code: string, userName: Option<string>)
    | CursorChangeMsg(roomId: string, caretUser: Option<string>, line: int, col: int)
    | CodeOutputMsg(roomId: string, output: string, running: bool)
    | SendingSignalMsg(userToSignal: SocketId, callerId: SocketId, signal: Signal, caller: UserNotice)
    | ReturningSignalMsg(answer: Signal, callerId: SocketId)
    | InteractionStartMsg(roomId: string, start: StrokeStart)
    | InteractionUpdateMsg(roomId: string, x: real, y: real)
    | InteractionEndMsg(roomId: string)
    | ToggleThemeMsg(roomId: string, darkMode: bool)
    | ViewChangeMsg(roomId: string, view: string)
    | SelectionChangeMsg(roomId: string, objectIds: seq<string>, color: string, name: string)
    | CursorMoveMsg(roomId: string, cursorData: Option<CursorData>)
}
