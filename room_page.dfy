/** The room page of one client: the participant list and the set of users whose
    arrival was announced, the sidebar's width and open state with their saved
    values, the command dispatch, and the join/leave messages around the socket
    connection. */
module RoomPage {
  import opened JsText
  import opened Wire

  // ---------------------------------------------------------------------------
  // Participants

  /** A participant matches a departure by user id, or by a truthy socket id. */
  predicate Leaves(p: UserNotice, data: UserNotice) {
    p.userId == data.userId || (Truthy(data.socketId) && p.socketId == data.socketId)
  }

  function FindLeaver(ps: seq<UserNotice>, data: UserNotice): (r: Option<nat>)
    ensures r.Some? ==> r.value < |ps| && Leaves(ps[r.value], data)
    ensures r.Some? ==> forall j :: 0 <= j < r.value ==> !Leaves(ps[j], data)
    ensures r.None? <==> forall j :: 0 <= j < |ps| ==> !Leaves(ps[j], data)
  {
    if ps == [] then None
    else if Leaves(ps[0], data) then Some(0)
    else match FindLeaver(ps[1..], data)
      case None => None
      case Some(k) => Some(k + 1)
  }

  predicate HasUser(ps: seq<UserNotice>, id: Option<string>) {
    exists i :: 0 <= i < |ps| && ps[i].userId == id
  }

  /** The list after user-joined: the newcomer is added unless a participant with
      the same user id is already listed. */
  function WithJoined(ps: seq<UserNotice>, u: UserNotice): (r: seq<UserNotice>)
    ensures HasUser(ps, u.userId) ==> r == ps
    ensures !HasUser(ps, u.userId) ==> r == ps + [u]
  {
    if HasUser(ps, u.userId) then ps else ps + [u]
  }

  /** The list after user-left: the participants whose user id and socket id
      both differ from the departure's, in order.  (Two absent socket ids are
      equal here.) */
  function WithoutLeaver(ps: seq<UserNotice>, data: UserNotice): (r: seq<UserNotice>)
    ensures |r| <= |ps|
    ensures forall p {:trigger p in r} :: p in r <==> p in ps && p.userId != data.userId && p.socketId != data.socketId
  {
    if ps == [] then []
    else if ps[0].userId != data.userId && ps[0].socketId != data.socketId then [ps[0]] + WithoutLeaver(ps[1..], data)
    else WithoutLeaver(ps[1..], data)
  }

  /** The participant list keeps its order: filtering a concatenation filters each part. */
  lemma {:induction false} WithoutLeaverAppend(a: seq<UserNotice>, b: seq<UserNotice>, data: UserNotice)
    ensures WithoutLeaver(a + b, data) == WithoutLeaver(a, data) + WithoutLeaver(b, data)
  {
    if a != [] {
      WithoutLeaverAppend(a[1..], b, data);
      assert (a + b)[0] == a[0] && (a + b)[1..] == a[1..] + b;
      var h := if !(a[0].userId != data.userId && a[0].socketId != data.socketId) then [] else [a[0]];
      assert WithoutLeaver(a + b, data) == h + (WithoutLeaver(a[1..], data) + WithoutLeaver(b, data));
      assert WithoutLeaver(a, data) == h + WithoutLeaver(a[1..], data);
    } else {
      assert a + b == b;
    }
  }

  /** Repeated user-joined events for one user list it once. */
  lemma JoinedIdempotent(ps: seq<UserNotice>, u: UserNotice)
    ensures WithJoined(WithJoined(ps, u), u) == WithJoined(ps, u)
    ensures HasUser(WithJoined(ps, u), u.userId)
  {
    if !HasUser(ps, u.userId) {
      assert (ps + [u])[|ps|] == u;
    }
  }

  /** After a user's user-left event no participant with that user id remains. */
  lemma LeftUserGone(ps: seq<UserNotice>, data: UserNotice)
    ensures !HasUser(WithoutLeaver(ps, data), data.userId)
  {
    var r := WithoutLeaver(ps, data);
    forall i | 0 <= i < |r| ensures r[i].userId != data.userId {
      assert r[i] in r;
    }
  }

  /** A list without duplicate user ids keeps that property under joins and departures. */
  ghost predicate DistinctUsers(ps: seq<UserNotice>) {
    forall i, j :: 0 <= i < j < |ps| ==> ps[i].userId != ps[j].userId
  }

  lemma {:induction false} WithoutLeaverKeepsDistinct(ps: seq<UserNotice>, data: UserNotice)
    requires DistinctUsers(ps)
    ensures DistinctUsers(WithoutLeaver(ps, data))
    decreases |ps|
  {
    if ps != [] {
      WithoutLeaverKeepsDistinct(ps[1..], data);
      var rest := WithoutLeaver(ps[1..], data);
      forall q | q in rest ensures q.userId != ps[0].userId {
        var j :| 0 <= j < |ps[1..]| && ps[1..][j] == q;
        assert ps[j + 1] == q;
      }
      if ps[0].userId != data.userId && ps[0].socketId != data.socketId {
        var r := [ps[0]] + rest;
        forall i, j | 0 <= i < j < |r| ensures r[i].userId != r[j].userId {
          if i == 0 {
            assert r[j] == rest[j - 1] && r[j] in rest;
          } else {
            assert r[i] == rest[i - 1] && r[j] == rest[j - 1];
          }
        }
      }
    }
  }

  lemma WithJoinedKeepsDistinct(ps: seq<UserNotice>, u: UserNotice)
    requires DistinctUsers(ps)
    ensures DistinctUsers(WithJoined(ps, u))
  {
  }

  function NameText(name: Option<string>): string {
    if name.Some? then name.value else "undefined"
  }

  function JoinNotice(name: Option<string>): string {
    "\U{1F44B} " + NameText(name) + " joined the room"
  }

  function LeaveNotice(name: Option<string>): string {
    "\U{1F3C3} " + NameText(name) + " left the room"
  }

  // ---------------------------------------------------------------------------
  // Sidebar

  const DefaultSidebarWidth: int := 320
  const MinSidebarWidth: int := 260
  const MaxSidebarWidth: int := 500

  /** The width read back from storage: `parseInt(saved, 10)` when something is
      saved, 320 otherwise; `None` stands for NaN. */
  function InitialWidth(saved: Option<string>): (r: Option<int>)
    ensures !Truthy(saved) ==> r == Some(DefaultSidebarWidth)
    ensures Truthy(saved) ==> r == ParseInt10(saved.value)
  {
    if Truthy(saved) then ParseInt10(saved.value) else Some(DefaultSidebarWidth)
  }

  /** A width the page saved (a decimal number) is restored as it was. */
  lemma SavedWidthRestored(w: nat)
    ensures InitialWidth(Some(NatToString(w))) == Some(w)
  {
    ParseIntOfNatToString(w);
  }

  /** A drag: the width follows the pointer leftwards, clamped to [260, 500];
      a NaN width stays NaN. */
  function DragWidth(startWidth: Option<int>, startX: int, clientX: int): (r: Option<int>)
    ensures startWidth.None? <==> r.None?
    ensures r.Some? ==> MinSidebarWidth <= r.value <= MaxSidebarWidth
    ensures r.Some? && MinSidebarWidth <= startWidth.value + (startX - clientX) <= MaxSidebarWidth ==>
      r.value == startWidth.value + (startX - clientX)
  {
    match startWidth
    case None => None
    case Some(w) =>
      var want := w + (startX - clientX);
      Some(if want < MinSidebarWidth then MinSidebarWidth else if want > MaxSidebarWidth then MaxSidebarWidth else want)
  }

  /** The sidebar starts open unless "false" was saved. */
  function InitialOpen(saved: Option<string>): (r: bool)
    ensures r <==> saved != Some("false")
  {
    saved != Some("false")
  }

  function BoolText(b: bool): string {
    if b then "true" else "false"
  }

  /** The saved open state is restored as it was. */
  lemma SavedOpenRestored(b: bool)
    ensures InitialOpen(Some(BoolText(b))) == b
  {
  }

  // ---------------------------------------------------------------------------
  // The page

  datatype Connection = Connecting | Connected | Offline | Reconnecting

  class Page {
    const roomId: string
    /** The signed-in user, as sent with join-room and leave-room. */
    const me: UserNotice
    var participants: seq<UserNotice>
    /** The user ids whose arrival was announced and whose departure was not yet. */
    var notified: set<Option<string>>
    /** The toast messages shown, in order. */
    var notices: seq<string>
    var sidebarWidth: Option<int>
    var sidebarOpen: bool
    var darkMode: bool
    var activeView: string
    var status: Connection
    /** The command ids dispatched to the window, in order. */
    var dispatched: seq<string>
    var navigatedTo: Option<string>
    var outbox: seq<ClientMessage>

    constructor (roomId: string, me: UserNotice, loaded: seq<UserNotice>,
                 savedWidth: Option<string>, savedOpen: Option<string>)
      ensures this.roomId == roomId && this.me == me && participants == loaded
      ensures notified == {} && notices == [] && dispatched == [] && navigatedTo.None? && outbox == []
      ensures sidebarWidth == InitialWidth(savedWidth) && sidebarOpen == InitialOpen(savedOpen)
      ensures darkMode && activeView == "whiteboard" && status == Connecting
    {
      this.roomId := roomId;
      this.me := me;
      participants := loaded;
      notified := {};
      notices := [];
      sidebarWidth := InitialWidth(savedWidth);
      sidebarOpen := InitialOpen(savedOpen);
      darkMode := true;
      activeView := "whiteboard";
      status := Connecting;
      dispatched := [];
      navigatedTo := None;
      outbox := [];
    }

    /** Connected: join the room. */
    method Connect()
      modifies this`status, this`outbox
      ensures status == Connected && outbox == old(outbox) + [JoinRoomMsg(roomId, me)]
    {
      status := Connected;
      outbox := outbox + [JoinRoomMsg(roomId, me)];
    }

    method Disconnected()
      modifies this`status
      ensures status == Offline
    {
      status := Offline;
    }

    method ReconnectAttempt()
      modifies this`status
      ensures status == Reconnecting
    {
      status := Reconnecting;
    }

    /** Leaving the page: leave the room, then the socket disconnects. */
    method Unmount()
      modifies this`outbox
      ensures outbox == old(outbox) + [LeaveRoomMsg(roomId, me)]
    {
      outbox := outbox + [LeaveRoomMsg(roomId, me)];
    }

    /** `onUserJoined`: an arrival is announced whenever its user id is not
        currently marked as notified (`UserLeft` removes the mark, so a user who
        returns is announced again); the id is then marked, and the user is
        listed unless already listed. */
    method UserJoined(u: UserNotice)
      modifies this`notified, this`notices, this`participants
      ensures participants == WithJoined(old(participants), u)
      ensures notified == old(notified) + {u.userId}
      ensures u.userId in old(notified) ==> notices == old(notices)
      ensures u.userId !in old(notified) ==> notices == old(notices) + [JoinNotice(u.name)]
    {
      if u.userId !in notified {
        notified := notified + {u.userId};
        notices := notices + [JoinNotice(u.name)];
      }
      participants := WithJoined(participants, u);
    }

    /** `onUserLeft`: the departure of an announced user is announced once and its
        mark removed; the matching participants are unlisted. */
    method UserLeft(data: UserNotice)
      modifies this`notified, this`notices, this`participants
      ensures participants == WithoutLeaver(old(participants), data)
      ensures var found := FindLeaver(old(participants), data);
        && (found.Some? && old(participants)[found.value].userId in old(notified) ==>
              notified == old(notified) - {old(participants)[found.value].userId}
              && notices == old(notices) + [LeaveNotice(old(participants)[found.value].name)])
        && (found.Some? && old(participants)[found.value].userId !in old(notified) ==>
              notified == old(notified) && notices == old(notices))
        && (found.None? && Truthy(data.name) && data.userId in old(notified) ==>
              notified == old(notified) - {data.userId} && notices == old(notices) + [LeaveNotice(data.name)])
        && (found.None? && !(Truthy(data.name) && data.userId in old(notified)) ==>
              notified == old(notified) && notices == old(notices))
    {
      var found := FindLeaver(participants, data);
      if found.Some? {
        var p := participants[found.value];
        if p.userId in notified {
          notified := notified - {p.userId};
          notices := notices + [LeaveNotice(p.name)];
        }
      } else if Truthy(data.name) && data.userId in notified {
        notified := notified - {data.userId};
        notices := notices + [LeaveNotice(data.name)];
      }
      participants := WithoutLeaver(participants, data);
    }

    /** `handleExecuteCommand`: every command goes to the window; the sidebar and
        leave commands are also handled here. */
    method ExecuteCommand(commandId: string)
      modifies this`dispatched, this`sidebarOpen, this`navigatedTo
      ensures dispatched == old(dispatched) + [commandId]
      ensures sidebarOpen == (if commandId == "action-sidebar" then !old(sidebarOpen) else old(sidebarOpen))
      ensures navigatedTo == (if commandId == "action-leave" then Some("/dashboard") else old(navigatedTo))
    {
      dispatched := dispatched + [commandId];
      if commandId == "action-sidebar" {
        sidebarOpen := !sidebarOpen;
      } else if commandId == "action-leave" {
        navigatedTo := Some("/dashboard");
      }
    }

    /** A drag of the resize handle that started at `startX` with `startWidth`. */
    method Resize(startWidth: Option<int>, startX: int, clientX: int)
      modifies this`sidebarWidth
      ensures sidebarWidth == DragWidth(startWidth, startX, clientX)
    {
      sidebarWidth := DragWidth(startWidth, startX, clientX);
    }

    /** A double click on the handle restores the default width. */
    method ResetWidth()
      modifies this`sidebarWidth
      ensures sidebarWidth == Some(DefaultSidebarWidth)
    {
      sidebarWidth := Some(DefaultSidebarWidth);
    }

    /** The local theme toggle is shared with the room. */
    method ToggleTheme()
      modifies this`darkMode, this`outbox
      ensures darkMode == !old(darkMode) && outbox == old(outbox) + [ToggleThemeMsg(roomId, darkMode)]
    {
      darkMode := !darkMode;
      outbox := outbox + [ToggleThemeMsg(roomId, darkMode)];
    }

    method RemoteTheme(dark: bool)
      modifies this`darkMode
      ensures darkMode == dark
    {
      darkMode := dark;
    }

    /** Switching between board and editor is shared with the room. */
    method SwitchView(view: string)
      modifies this`activeView, this`outbox
      ensures activeView == view && outbox == old(outbox) + [ViewChangeMsg(roomId, view)]
    {
      activeView := view;
      outbox := outbox + [ViewChangeMsg(roomId, view)];
    }

    method RemoteView(view: string)
      modifies this`activeView
      ensures activeView == view
    {
      activeView := view;
    }
  }
}
