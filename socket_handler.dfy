/** The server's per-connection socket handlers: every room event is forwarded to
    the other members of the room, and durable events are then folded into the
    stored room record. */
module SocketHandler {
  import opened JsText
  import opened Wire
  import opened RoomRecord

  // ---------------------------------------------------------------------------
  // The whiteboard-object fold

  /** The object a reader finds under `id`: the first one stored with it. */
  function Lookup(objs: seq<WhiteboardObject>, id: Option<string>): (r: Option<WhiteboardObject>)
    ensures r.Some? <==> exists j :: 0 <= j < |objs| && objs[j].id == id
    ensures r.Some? ==> r.value in objs && r.value.id == id
  {
    match IndexOfObject(objs, id)
    case None => None
    case Some(k) => Some(objs[k])
  }

  /** The draw-data upsert: a payload whose id is already stored replaces the
      first such object whole, at its index; any other payload is appended. */
  function Upsert(objs: seq<WhiteboardObject>, data: WhiteboardObject): (r: seq<WhiteboardObject>)
    ensures IndexOfObject(objs, data.id).Some? ==>
      var i := IndexOfObject(objs, data.id).value;
      |r| == |objs| && r[i] == data && forall j :: 0 <= j < |objs| && j != i ==> r[j] == objs[j]
    ensures IndexOfObject(objs, data.id).None? ==> r == objs + [data]
  {
    match IndexOfObject(objs, data.id)
    case Some(i) => objs[i := data]
    case None => objs + [data]
  }

  /** `$pull: { id }`: drops every object carrying the id and keeps the rest in order. */
  function Pull(objs: seq<WhiteboardObject>, id: Option<string>): (r: seq<WhiteboardObject>)
    ensures |r| <= |objs|
  {
    if objs == [] then []
    else (if objs[0].id == id then [] else [objs[0]]) + Pull(objs[1..], id)
  }

  /** Pull keeps exactly the objects whose id differs. */
  lemma {:induction false} PullKeepsExactlyOthers(objs: seq<WhiteboardObject>, id: Option<string>)
    ensures forall x :: x in Pull(objs, id) <==> x in objs && x.id != id
  {
    if objs != [] {
      PullKeepsExactlyOthers(objs[1..], id);
      assert objs == [objs[0]] + objs[1..];
    }
  }

  ghost predicate UniqueObjectIds(objs: seq<WhiteboardObject>) {
    forall i, j :: 0 <= i < j < |objs| ==> objs[i].id != objs[j].id
  }

  /** Last write wins: after an upsert, the id reads back the payload just written. */
  lemma UpsertThenLookup(objs: seq<WhiteboardObject>, data: WhiteboardObject)
    ensures Lookup(Upsert(objs, data), data.id) == Some(data)
  {
    var r := Upsert(objs, data);
    match IndexOfObject(objs, data.id)
    case Some(i) =>
      assert forall j :: 0 <= j < i ==> r[j].id != data.id;
      assert IndexOfObject(r, data.id) == Some(i) by { IndexOfObjectIsFirst(r, data.id, i); }
    case None =>
      assert forall j :: 0 <= j < |objs| ==> r[j].id != data.id;
      assert IndexOfObject(r, data.id) == Some(|objs|) by { IndexOfObjectIsFirst(r, data.id, |objs|); }
  }

  /** Re-sending the same payload changes nothing further. */
  lemma UpsertIdempotent(objs: seq<WhiteboardObject>, data: WhiteboardObject)
    ensures Upsert(Upsert(objs, data), data) == Upsert(objs, data)
  {
    var r := Upsert(objs, data);
    UpsertThenLookup(objs, data);
    var i := IndexOfObject(r, data.id).value;
    assert r[i] == data;
    assert r[i := data] == r;
  }

  /** Upserts keep the stored ids distinct. */
  lemma UpsertKeepsUniqueIds(objs: seq<WhiteboardObject>, data: WhiteboardObject)
    requires UniqueObjectIds(objs)
    ensures UniqueObjectIds(Upsert(objs, data))
  {
    var r := Upsert(objs, data);
    match IndexOfObject(objs, data.id)
    case Some(k) =>
      forall i, j | 0 <= i < j < |r| ensures r[i].id != r[j].id {
        assert r[i].id == objs[i].id && r[j].id == objs[j].id;
      }
    case None =>
      forall i, j | 0 <= i < j < |r| ensures r[i].id != r[j].id {
        assert r[i] == objs[i];
      }
  }

  /** Deleting an id that is not stored leaves the list as it was. */
  lemma {:induction false} PullAbsent(objs: seq<WhiteboardObject>, id: Option<string>)
    requires forall j :: 0 <= j < |objs| ==> objs[j].id != id
    ensures Pull(objs, id) == objs
  {
    if objs != [] {
      PullAbsent(objs[1..], id);
      assert [objs[0]] + objs[1..] == objs;
    }
  }

  /** Deleting twice is deleting once. */
  lemma {:induction false} PullIdempotent(objs: seq<WhiteboardObject>, id: Option<string>)
    ensures Pull(Pull(objs, id), id) == Pull(objs, id)
  {
    var r := Pull(objs, id);
    PullKeepsExactlyOthers(objs, id);
    forall j | 0 <= j < |r| ensures r[j].id != id {
      assert r[j] in r;
    }
    PullAbsent(r, id);
  }

  /** Pull distributes over concatenation. */
  lemma {:induction false} PullAppend(a: seq<WhiteboardObject>, b: seq<WhiteboardObject>, id: Option<string>)
    ensures Pull(a + b, id) == Pull(a, id) + Pull(b, id)
  {
    if a != [] {
      PullAppend(a[1..], b, id);
      assert (a + b)[0] == a[0] && (a + b)[1..] == a[1..] + b;
      var h := if a[0].id == id then [] else [a[0]];
      assert Pull(a + b, id) == h + (Pull(a[1..], id) + Pull(b, id));
      assert Pull(a, id) == h + Pull(a[1..], id);
    } else {
      assert a + b == b;
    }
  }

  /** Deleting an object after drawing or updating it leaves the list as deleting
      alone would: the draw leaves no trace under that id. */
  lemma PullAfterUpsert(objs: seq<WhiteboardObject>, data: WhiteboardObject)
    ensures Pull(Upsert(objs, data), data.id) == Pull(objs, data.id)
  {
    match IndexOfObject(objs, data.id)
    case None =>
      PullAppend(objs, [data], data.id);
      assert Pull([data], data.id) == [] by {
        assert Pull([data][1..], data.id) == [];
      }
    case Some(i) =>
      var r := objs[i := data];
      assert objs == objs[..i] + [objs[i]] + objs[i + 1..];
      assert r == objs[..i] + [data] + objs[i + 1..];
      PullAppend(objs[..i] + [objs[i]], objs[i + 1..], data.id);
      PullAppend(objs[..i], [objs[i]], data.id);
      PullAppend(objs[..i] + [data], objs[i + 1..], data.id);
      PullAppend(objs[..i], [data], data.id);
      assert Pull([data], data.id) == [] by { assert Pull([data][1..], data.id) == []; }
      assert Pull([objs[i]], data.id) == [] by { assert Pull([objs[i]][1..], data.id) == []; }
  }

  // ---------------------------------------------------------------------------
  // Routing

  /** Where an event goes: `socket.to(room)` (the room minus the sender) or
      `io.to(id)` (the socket addressed, sender included). */
  datatype Route = ToRoom(room: string) | ToSocket(target: SocketId)

  datatype Delivery = Delivery(via: Route, to: set<SocketId>, event: ServerEvent)

  function MembersIn(members: map<string, set<SocketId>>, room: string): set<SocketId> {
    if room in members then members[room] else {}
  }

  /** The sockets an event sent by `sid` along `route` reaches. */
  function Recipients(members: map<string, set<SocketId>>, route: Route, sid: SocketId): (r: set<SocketId>)
    ensures route.ToRoom? ==> sid !in r && r + {sid} >= MembersIn(members, route.room)
    ensures route.ToRoom? ==> r <= MembersIn(members, route.room)
    ensures route.ToSocket? ==> r == MembersIn(members, route.target)
  {
    match route
    case ToRoom(room) => MembersIn(members, room) - {sid}
    case ToSocket(target) => MembersIn(members, target)
  }

  /** The user fields spread into a notice, with the sender's socket id set. */
  function Stamped(user: UserNotice, sid: SocketId): (r: UserNotice)
    ensures r.socketId == Some(sid)
    ensures r.userId == user.userId && r.name == user.name && r.avatar == user.avatar
  {
    user.(socketId := Some(sid))
  }

  /** The route of each relayed message. */
  function RouteOf(m: ClientMessage): (r: Route)
    ensures m.SendingSignalMsg? ==> r == ToSocket(m.userToSignal)
    ensures m.ReturningSignalMsg? ==> r == ToSocket(m.callerId)
    ensures !m.SendingSignalMsg? && !m.ReturningSignalMsg? ==> r == ToRoom(m.roomId)
  {
    match m
    case SendingSignalMsg(userToSignal, _, _, _) => ToSocket(userToSignal)
    case ReturningSignalMsg(_, callerId) => ToSocket(callerId)
    case _ => ToRoom(m.roomId)
  }

  /** The event each message is relayed as, from sender `sid`. */
  function EventOf(sid: SocketId, m: ClientMessage): ServerEvent
  {
    match m
    case JoinRoomMsg(_, user) => UserJoined(Stamped(user, sid))
    case LeaveRoomMsg(_, user) => UserLeft(Stamped(user, sid))
    case DrawDataMsg(_, data) => DrawData(data)
    case DeleteObjectMsg(_, objectId) => DeleteObject(objectId)
    case ClearCanvasMsg(_) => ClearCanvas
    case ToggleThemeMsg(_, darkMode) => ToggleTheme(darkMode)
    case ChatMessageMsg(_, message) => ChatMessageEvent(message)
    case ViewportChangeMsg(_, viewport) => ViewportChange(viewport)
    case CodeChangeMsg(_, code, userName) => CodeChange(code, userName)
    case CursorChangeMsg(_, caretUser, line, col) => CursorChange(caretUser, line, col)
    case CodeOutputMsg(_, output, running) => CodeOutput(output, running)
    case ViewChangeMsg(_, view) => ViewChange(view)
    case SendingSignalMsg(_, callerId, signal, caller) => UserJoinedSignal(signal, callerId, caller)
    case ReturningSignalMsg(answer, _) => ReceivingReturnedSignal(answer, sid)
    case InteractionStartMsg(_, start) => InteractionStart(start, sid)
    case InteractionUpdateMsg(_, x, y) => InteractionUpdate(x, y, sid)
    case InteractionEndMsg(_) => InteractionEnd(sid)
    case SelectionChangeMsg(_, objectIds, color, name) => SelectionChange(sid, objectIds, color, name)
    case CursorMoveMsg(_, data) => CursorMove(if data.Some? then data.value else NoCursorData, sid)
  }

  /** Events that carry the sender's identity get it from the connection, never
      from the payload; a signal keeps the caller id the payload names. */
  lemma EventCarriesSender(sid: SocketId, m: ClientMessage)
    ensures m.JoinRoomMsg? ==> EventOf(sid, m) == UserJoined(m.user.(socketId := Some(sid)))
    ensures m.LeaveRoomMsg? ==> EventOf(sid, m) == UserLeft(m.user.(socketId := Some(sid)))
    ensures m.InteractionStartMsg? ==> EventOf(sid, m).starter == sid && EventOf(sid, m).start == m.start
    ensures m.InteractionUpdateMsg? ==> EventOf(sid, m) == InteractionUpdate(m.x, m.y, sid)
    ensures m.InteractionEndMsg? ==> EventOf(sid, m) == InteractionEnd(sid)
    ensures m.SelectionChangeMsg? ==> EventOf(sid, m).selector == sid
    ensures m.CursorMoveMsg? ==> EventOf(sid, m).mover == sid
    ensures m.ReturningSignalMsg? ==> EventOf(sid, m) == ReceivingReturnedSignal(m.answer, sid)
    ensures m.SendingSignalMsg? ==> EventOf(sid, m) == UserJoinedSignal(m.signal, m.callerId, m.caller)
  {
  }

  /** A cursor-move sent with its fields at the top level rather than under `data`
      is relayed with no position, so no receiver can place the cursor. */
  lemma CursorMoveWithoutDataHasNoPosition(sid: SocketId, roomId: string)
    ensures EventOf(sid, CursorMoveMsg(roomId, None)).cursor.x.None?
    ensures EventOf(sid, CursorMoveMsg(roomId, None)).cursor.y.None?
  {
  }

  // ---------------------------------------------------------------------------
  // Persistence

  /** The messages whose handler writes to the room record. */
  predicate Durable(m: ClientMessage) {
    m.DrawDataMsg? || m.DeleteObjectMsg? || m.ClearCanvasMsg? || m.ChatMessageMsg? || m.CodeChangeMsg?
  }

  /** What a durable message does to the stored room; every write refreshes `updatedAt`. */
  function Fold(d: RoomDoc, m: ClientMessage, now: int): (r: RoomDoc)
    requires Durable(m)
    ensures r.roomId == d.roomId && r.updatedAt == now
    ensures r.participants == d.participants && r.host == d.host && r.isActive == d.isActive
    ensures r.name == d.name && r.createdAt == d.createdAt
    ensures m.DrawDataMsg? && m.data.action != Some("clear") ==>
      r.whiteboardObjects == Upsert(d.whiteboardObjects, m.data)
    ensures m.DeleteObjectMsg? ==> r.whiteboardObjects == Pull(d.whiteboardObjects, m.objectId)
    ensures (m.ClearCanvasMsg? || (m.DrawDataMsg? && m.data.action == Some("clear"))) ==>
      r.whiteboardObjects == []
    ensures m.ChatMessageMsg? ==> r.chatMessages == d.chatMessages + [m.message]
    ensures !m.ChatMessageMsg? ==> r.chatMessages == d.chatMessages
    ensures m.CodeChangeMsg? ==> r.codeData == m.code
    ensures !m.CodeChangeMsg? ==> r.codeData == d.codeData
    ensures m.ChatMessageMsg? || m.CodeChangeMsg? ==> r.whiteboardObjects == d.whiteboardObjects
  {
    match m
    case DrawDataMsg(_, data) =>
      if data.action == Some("clear") then d.(whiteboardObjects := [], updatedAt := now)
      else d.(whiteboardObjects := Upsert(d.whiteboardObjects, data), updatedAt := now)
    case DeleteObjectMsg(_, objectId) =>
      d.(whiteboardObjects := Pull(d.whiteboardObjects, objectId), updatedAt := now)
    case ClearCanvasMsg(_) => d.(whiteboardObjects := [], updatedAt := now)
    case ChatMessageMsg(_, message) => d.(chatMessages := d.chatMessages + [message], updatedAt := now)
    case CodeChangeMsg(_, code, _) => d.(codeData := code, updatedAt := now)
  }

  /** `updateOne({ roomId }, ...)` with a durable message: the first room with that
      id is folded, and an unknown room id changes nothing. */
  function Persist(docs: seq<RoomDoc>, m: ClientMessage, now: int): (r: seq<RoomDoc>)
    requires Durable(m)
    ensures |r| == |docs|
    ensures forall i :: 0 <= i < |docs| && IndexOfRoom(docs, m.roomId) != Some(i) ==> r[i] == docs[i]
    ensures IndexOfRoom(docs, m.roomId).Some? ==>
      var k := IndexOfRoom(docs, m.roomId).value; r[k] == Fold(docs[k], m, now)
  {
    match IndexOfRoom(docs, m.roomId)
    case None => docs
    case Some(k) => docs[k := Fold(docs[k], m, now)]
  }

  /** The persistence fold keeps room ids unique. */
  lemma PersistKeepsUnique(docs: seq<RoomDoc>, m: ClientMessage, now: int)
    requires Durable(m) && UniqueRoomIds(docs)
    ensures UniqueRoomIds(Persist(docs, m, now))
  {
    match IndexOfRoom(docs, m.roomId)
    case None =>
    case Some(k) => ReplaceKeepsUnique(docs, k, Fold(docs[k], m, now));
  }

  /** The line `console.error` logs when a durable write fails. */
  function ErrorText(m: ClientMessage): string
    requires Durable(m)
  {
    match m
    case DrawDataMsg(_, _) => "Error saving drawing data:"
    case DeleteObjectMsg(_, _) => "Error deleting object:"
    case ClearCanvasMsg(_) => "Error clearing canvas:"
    case ChatMessageMsg(_, _) => "Error saving chat message:"
    case CodeChangeMsg(_, _, _) => "Error saving code:"
  }

  // ---------------------------------------------------------------------------
  // Membership

  /** Room membership after a join or leave (Socket.IO drops a room once it is empty). */
  function Membership(members: map<string, set<SocketId>>, sid: SocketId, m: ClientMessage): map<string, set<SocketId>>
  {
    match m
    case JoinRoomMsg(roomId, _) => members[roomId := MembersIn(members, roomId) + {sid}]
    case LeaveRoomMsg(roomId, _) =>
      if MembersIn(members, roomId) - {sid} == {} then members - {roomId}
      else members[roomId := members[roomId] - {sid}]
    case _ => members
  }

  /** The rooms a socket is in. */
  function RoomsOf(members: map<string, set<SocketId>>, sid: SocketId): (r: set<string>)
    ensures forall room :: room in r <==> room in members && sid in members[room]
  {
    set room | room in members && sid in members[room]
  }

  /** Membership once a socket has gone: it is out of every room, and rooms left
      empty are dropped. */
  function WithoutSocket(members: map<string, set<SocketId>>, sid: SocketId): (r: map<string, set<SocketId>>)
    ensures RoomsOf(r, sid) == {}
    ensures forall room :: room in r ==> room in members && r[room] == members[room] - {sid}
    ensures forall room :: room in members && members[room] - {sid} != {} ==> room in r
  {
    map room | room in members && members[room] - {sid} != {} :: members[room] - {sid}
  }

  /** The user-left notices a disconnecting socket sends, one per room, in `order`. */
  function LeftNotices(members: map<string, set<SocketId>>, sid: SocketId, order: seq<string>): (r: seq<Delivery>)
    ensures |r| == |order|
  {
    if order == [] then []
    else
      var last := order[|order| - 1];
      LeftNotices(members, sid, order[..|order| - 1])
      + [Delivery(ToRoom(last), Recipients(members, ToRoom(last), sid), UserLeft(UserNotice(None, None, None, Some(sid))))]
  }

  /** Each notice goes to one room of `order`, never reaches the leaving socket
      and names only its id. */
  lemma {:induction false} LeftNoticesAt(members: map<string, set<SocketId>>, sid: SocketId, order: seq<string>, k: nat)
    requires k < |order|
    ensures var r := LeftNotices(members, sid, order);
      && r[k].via == ToRoom(order[k]) && sid !in r[k].to
      && r[k].to == MembersIn(members, order[k]) - {sid}
      && r[k].event == UserLeft(UserNotice(None, None, None, Some(sid)))
  {
    if k < |order| - 1 {
      LeftNoticesAt(members, sid, order[..|order| - 1], k);
    }
  }

  /** `order` lists every element of `s` exactly once. */
  ghost predicate Enumerates(order: seq<string>, s: set<string>) {
    && (forall i, j :: 0 <= i < j < |order| ==> order[i] != order[j])
    && (forall x :: x in order <==> x in s)
  }

  // ---------------------------------------------------------------------------
  // The server

  class RelayServer {
    /** Socket.IO rooms: every socket is also alone in a room named by its id. */
    var members: map<string, set<SocketId>>
    var connected: set<SocketId>
    /** Every event emitted, in order, with the sockets it reached. */
    var outbox: seq<Delivery>
    /** `console.error` lines written when a database write fails. */
    var errorLog: seq<string>
    var db: RoomCollection

    ghost predicate Valid()
      reads this, db
    {
      && db.Valid()
      && forall room :: room in members ==> members[room] <= connected
    }

    constructor (db: RoomCollection)
      requires db.Valid()
      ensures Valid() && this.db == db
      ensures members == map[] && connected == {} && outbox == [] && errorLog == []
    {
      this.db := db;
      members := map[];
      connected := {};
      outbox := [];
      errorLog := [];
    }

    /** `connection`: the socket joins the room named by its own id. */
    method Connect(sid: SocketId)
      requires Valid() && sid !in connected
      modifies this
      ensures Valid() && db == old(db)
      ensures connected == old(connected) + {sid}
      ensures members == old(members)[sid := MembersIn(old(members), sid) + {sid}]
      ensures outbox == old(outbox) && errorLog == old(errorLog)
    {
      connected := connected + {sid};
      members := members[sid := MembersIn(members, sid) + {sid}];
    }

    /** One handler run: membership first (join/leave), then the relay, then the
        durable write, which on failure is only logged. */
    method Receive(sid: SocketId, m: ClientMessage, dbUp: bool, now: int)
      requires Valid() && sid in connected
      modifies this, db
      ensures Valid() && db == old(db) && connected == old(connected)
      ensures members == Membership(old(members), sid, m)
      ensures outbox == old(outbox) + [Delivery(RouteOf(m), Recipients(members, RouteOf(m), sid), EventOf(sid, m))]
      ensures Durable(m) && dbUp ==> db.docs == Persist(old(db.docs), m, now) && errorLog == old(errorLog)
      ensures Durable(m) && !dbUp ==> db.docs == old(db.docs) && errorLog == old(errorLog) + [ErrorText(m)]
      ensures !Durable(m) ==> db.docs == old(db.docs) && errorLog == old(errorLog)
    {
      members := Membership(members, sid, m);
      var route := RouteOf(m);
      outbox := outbox + [Delivery(route, Recipients(members, route, sid), EventOf(sid, m))];
      if Durable(m) {
        if dbUp {
          PersistKeepsUnique(db.docs, m, now);
          db.docs := Persist(db.docs, m, now);
        } else {
          errorLog := errorLog + [ErrorText(m)];
        }
      }
    }

    /** `disconnecting` then `disconnect`: a user-left notice carrying only the
        socket id goes to every room the socket is in, in some order, and the
        socket then leaves them all. */
    method Disconnect(sid: SocketId) returns (order: seq<string>)
      requires Valid() && sid in connected
      modifies this
      ensures Valid() && db == old(db)
      ensures Enumerates(order, RoomsOf(old(members), sid))
      ensures outbox == old(outbox) + LeftNotices(old(members), sid, order)
      ensures members == WithoutSocket(old(members), sid)
      ensures connected == old(connected) - {sid}
      ensures errorLog == old(errorLog)
    {
      order := NotifyLeft(sid);
      members := WithoutSocket(members, sid);
      connected := connected - {sid};
    }

    /** The `disconnecting` handler: the socket's rooms are spread into an array
        and each gets a user-left notice. */
    method NotifyLeft(sid: SocketId) returns (order: seq<string>)
      modifies this`outbox
      ensures Enumerates(order, RoomsOf(members, sid))
      ensures outbox == old(outbox) + LeftNotices(members, sid, order)
    {
      order := Spread(RoomsOf(members, sid));
      var i := 0;
      while i < |order|
        invariant i <= |order|
        invariant outbox == old(outbox) + LeftNotices(members, sid, order[..i])
      {
        var room := order[i];
        outbox := outbox + [Delivery(ToRoom(room), Recipients(members, ToRoom(room), sid),
                                     UserLeft(UserNotice(None, None, None, Some(sid))))];
        assert order[..i + 1][..i] == order[..i];
        i := i + 1;
      }
      assert order[..i] == order;
    }
  }

  /** `[...set]`: the elements of a set, each once, in some order. */
  method Spread(s: set<string>) returns (order: seq<string>)
    ensures Enumerates(order, s)
  {
    var todo := s;
    order := [];
    while todo != {}
      invariant todo <= s
      invariant forall x :: x in order <==> x in s && x !in todo
      invariant forall i, j :: 0 <= i < j < |order| ==> order[i] != order[j]
      decreases |todo|
    {
      var x :| x in todo;
      order := order + [x];
      todo := todo - {x};
    }
  }
}
