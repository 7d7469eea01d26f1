# Voxa live-sync core, modelled in Dafny

Voxa is a collaborative study room: a shared whiteboard, a shared code editor,
chat, live cursors and a voice mesh, kept in step through a Socket.IO relay and
persisted in a MongoDB room record. This project models the state kept around a
room on both sides of the socket, and the small pure rules around it:

- the server relay (`SocketHandler`): every room event is forwarded to the other
  members of the room, signals go to one addressed socket, and durable events are
  folded into the room record (objects upserted by id or pulled, clears,
  appended chat, replaced code buffer);
- the room record and its collection (`RoomRecord`), the room REST controller
  (`RoomController`), the account decision chains (`AuthController`) and the
  Google-account linking callback (`PassportConfig`);
- the client mirrors: the whiteboard's remote-stroke table, object mirror,
  viewport and path builder (`Whiteboard`), cursor presence with expiry
  (`LiveCursors`), the code editor session (`CodeEditor`), the chat log (`Chat`),
  the room page's participants, notices and sidebar (`RoomPage`), the voice peer
  mesh (`VoiceChat`) and the alignment snapping rule (`Snapping`);
- the small helpers: the command palette (`CommandPalette`), the dashboard's
  formatters and lists (`Dashboard`), the sign-up form (`SignupForm`) and the
  toast queue (`ToastQueue`).

Event handlers that change state are methods of classes whose fields are the
state the source keeps (lists become `seq` fields, dictionaries `map` fields,
emitted socket messages an `outbox`). Each method's `ensures` gives the new
value of every field the method may change (a flag its `Valid()` pins is given
by `Valid()`), in terms of specification functions, and the properties the
source relies on are lemmas about those functions. Timers become deadlines on a
logical clock handed to each method as `now`; the database, the network and
other foreign calls become parameters (a reply, a `dbUp` flag, the indices
`Math.floor(Math.random() * 36)` picks). `JsText` models the few JavaScript library semantics the
core depends on (truthiness, `||` fallbacks, `%`, `<<` (ToInt32), `trim`, ASCII case
mapping, `parseInt`), and `Wire` holds the socket messages of both directions.

## Model

| member | source | states |
|---|---|---|
| RoomRecord.NewRoomDoc | server/src/models/Room.js:5-48 | a new record is valid iff roomId is present and non-blank after trimming, a given name is non-blank after trimming and host is present; it then has the trimmed id and name (default "Study Room"), the given host and participants, isActive true, empty whiteboardObjects and chatMessages, codeData "// Start coding here..." and both timestamps at creation time |
| RoomRecord.IndexOfRoom | server/src/models/Room.js:5-11 | the lookup by roomId finds the first record with that id, and finds nothing only when no record has it |
| RoomRecord.RemoveAt | server/src/controllers/roomController.js:131 | deleting one record keeps every other record in order |
| RoomRecord.ReplaceKeepsUnique | server/src/models/Room.js:5-11 | writing a record back under its own roomId keeps roomIds unique |
| RoomRecord.RemoveKeepsUnique | server/src/models/Room.js:5-11 | deleting a record keeps roomIds unique |
| RoomRecord.RoomCollection.constructor | server/src/models/Room.js:51 | the collection starts empty |
| RoomRecord.RoomCollection.Create | server/src/models/Room.js:5-11 | a record failing validation is refused and nothing changes; a valid record whose roomId is already stored is refused as a duplicate key (the unique index); otherwise it is appended |
| RoomController.PickOf | server/src/controllers/roomController.js:8 | `Math.floor(Math.random() * 36)` is the index k in [0, 36) with k <= 36r < k + 1 |
| RoomController.EveryPickReachable | server/src/controllers/roomController.js:8 | every one of the 36 characters is picked by some random number in [0, 1) |
| RoomController.IdCharIsCharAt | server/src/controllers/roomController.js:5-8 | the k-th character of A-Z0-9 is the k-th letter for k < 26 and the digit k - 26 otherwise |
| RoomController.DrawnIdIsCharAt | server/src/controllers/roomController.js:5-10 | each character of a drawn id is `chars.charAt` of its pick |
| RoomController.GenerateRoomId | server/src/controllers/roomController.js:4-11 | the id is the one its six picks draw: six characters, the i-th being `chars.charAt(picks[i])`, each an upper-case letter or a digit |
| RoomController.FirstUnusedDraw | server/src/controllers/roomController.js:19-26 | the picks are consumed six at a time and the first drawn id not stored is taken: it has six characters from A-Z0-9 and is not among the stored ids; none when the picks run out first |
| RoomController.UnusedDrawFound | server/src/controllers/roomController.js:19-26 | as soon as some block of six picks draws an unused id, an id is found |
| RoomController.FindUnusedId | server/src/controllers/roomController.js:19-26 | the `findOne` loop settles on exactly the first unused draw |
| RoomController.ContinueIsFirstUnused | server/src/controllers/roomController.js:22-26 | the loop continued from any block agrees with the first unused draw from that block on |
| RoomController.DrawnIdKept | server/src/models/Room.js:5-11 | a record created under a drawn id is stored under that very id: the schema trim keeps it |
| RoomController.StoredIdsIff | server/src/controllers/roomController.js:22 | `findOne({ roomId })` finds a room exactly when the id is among the stored ids |
| RoomController.NewRoomFields | server/src/controllers/roomController.js:28-33 | the creator is the host and the only participant; a missing or empty name becomes "<user name>'s Room" |
| RoomController.CreateRoom | server/src/controllers/roomController.js:16-40 | with the database up, no response comes exactly when no block of the random picks draws an unused id; otherwise the id is the first unused draw, and on 201 the collection gains exactly the room created under that id, with the creator as host and sole participant; a database failure or a rejected record gives 500 "Server error creating room" and leaves the collection unchanged; no stored room is ever left without participants |
| RoomController.Joined | server/src/controllers/roomController.js:63-69 | after joining the caller is a participant; a caller already present leaves the room unchanged, otherwise the caller is appended, updatedAt is refreshed and every other field is kept |
| RoomController.JoinIdempotent | server/src/controllers/roomController.js:63-69 | joining twice is joining once |
| RoomController.JoinAddsOnce | server/src/controllers/roomController.js:63-69 | a join adds the caller at most once and no one else |
| RoomController.JoinRoom | server/src/controllers/roomController.js:45-76 | the checks run in order: missing roomId gives 400, a database failure 500, lookup by the upper-cased id, an unknown room 404, an inactive room 400; otherwise the room is saved as joined and returned with status 200 |
| RoomController.RoomsWith | server/src/controllers/roomController.js:103 | the query keeps exactly the rooms having the user as participant |
| RoomController.InsertPermutes | server/src/controllers/roomController.js:106 | insertion adds exactly the inserted room to the multiset |
| RoomController.InsertBounded | server/src/controllers/roomController.js:106 | insertion introduces no room newer than those it was given |
| RoomController.InsertNewestFirst | server/src/controllers/roomController.js:106 | insertion into a list sorted by updatedAt descending keeps it sorted |
| RoomController.SortIsNewestFirstPermutation | server/src/controllers/roomController.js:106 | the sort yields the rooms it was given, as a permutation, ordered by updatedAt descending |
| RoomController.Summary | server/src/controllers/roomController.js:108 | the summary has the room's roomId, name, host, participants, updatedAt and isActive |
| RoomController.Summaries | server/src/controllers/roomController.js:108 | one summary per room, in order |
| RoomController.MyRoomsAreNewestOfMine | server/src/controllers/roomController.js:103-108 | the listing has at most 10 rooms, each containing the user, newest first |
| RoomController.MyRoomsOmitOnlyOlder | server/src/controllers/roomController.js:103-108 | a room of the user missing from the listing implies the listing is full and the room is no newer than its last entry |
| RoomController.GetMyRooms | server/src/controllers/roomController.js:101-115 | status 200 with the summaries of the listing, or 500 "Server error fetching rooms" on a database failure |
| RoomController.Without | server/src/controllers/roomController.js:126-128 | the filter keeps exactly the participants other than the caller, each as many times as before, and drops every occurrence of the caller |
| RoomController.WithoutAppend | server/src/controllers/roomController.js:126-128 | the filter keeps the list's order: filtering a concatenation filters each part |
| RoomController.WithoutAbsent | server/src/controllers/roomController.js:126-128 | filtering out an absent caller leaves the participants unchanged |
| RoomController.DeleteRoom | server/src/controllers/roomController.js:120-141 | an unknown room gives 404 and no change; otherwise the answer is "Room removed": a room left without participants by the filter is deleted, a participant caller is removed with updatedAt refreshed, and a non-participant caller leaves the room unwritten (an unmodified save writes nothing); a database failure gives 500 with no change |
| RoomController.PullUser | server/src/controllers/roomController.js:149-152 | every room with the caller loses exactly the caller (other participants kept in order) and gets updatedAt refreshed; every other room is untouched; positions are kept |
| RoomController.DropEmpty | server/src/controllers/roomController.js:154 | exactly the rooms with participants survive |
| RoomController.DropEmptyAppend | server/src/controllers/roomController.js:154 | the clean-up keeps the surviving rooms in their stored order |
| RoomController.DropEmptyKeepsUnique | server/src/controllers/roomController.js:154 | deleting rooms keeps roomIds unique |
| RoomController.NoEmptyAfterDrop | server/src/controllers/roomController.js:154 | after the clean-up no room is without participants |
| RoomController.PullUserKeepsUnique | server/src/controllers/roomController.js:149-152 | pulling the caller keeps roomIds unique |
| RoomController.ClearHistorySpec | server/src/controllers/roomController.js:146-161 | after clearing, the caller is in no room, every room the caller was not in survives unchanged, every room shared with others survives without the caller, and no empty room is left |
| RoomController.DeleteAllRooms | server/src/controllers/roomController.js:146-161 | a failing pull gives 500 and no change; a pull that succeeds followed by a failing clean-up gives 500 with the pulls stored; when both succeed the collection becomes the pulled, cleaned-up collection with "All rooms cleared" and no empty room |
| RoomController.PartialClearLeavesEmptyRoom | server/src/controllers/roomController.js:149-154 | when the clean-up fails after the pull, the caller's one-member room stays stored with no participants |
| AuthController.ProfileOf | server/src/controllers/authController.js:103-108 | the public fields are the user's id, name, email and avatar, plus the token when one is given |
| AuthController.Signup | server/src/controllers/authController.js:14-51 | a missing name, email or password gives 400; 201 exactly when the fields are present, the email is unused and the user is created, carrying the created user's profile and token; an email already registered gives 400 "User already exists with this email"; a creation returning nothing gives 400 "Invalid user data"; 500 exactly when a lookup or creation throws |
| AuthController.Login | server/src/controllers/authController.js:56-90 | a missing email or password gives 400; 200 exactly when the user is found and the password matches, carrying the profile and token; 401 "Invalid email or password" exactly for an unknown email or a wrong password; 500 "Server error during login" exactly when the lookup or the comparison throws |
| AuthController.LoginFailuresIndistinguishable | server/src/controllers/authController.js:68-77 | an unknown email and a wrong password give the identical response |
| AuthController.GetMe | server/src/controllers/authController.js:95-113 | 200 with the profile and no token exactly when the user is found; 404 "User not found" when not; 500 when the lookup throws |
| AuthController.GetUserCount | server/src/controllers/authController.js:118-126 | 200 with the count, or 500 with count 0 when counting fails |
| AuthController.ProfilesAgree | server/src/controllers/authController.js:37-43 | signup, login and getMe return the same public fields of a user, getMe without the token |
| PassportConfig.ShortCredentialsDisable | server/src/config/passport.js:6-10 | a missing client id or secret, or one of 20 characters or fewer, leaves Google sign-in off |
| PassportConfig.IndexWhere | server/src/config/passport.js:25 | the lookup finds the first account matching the googleId or email, and nothing only when none matches |
| PassportConfig.ResolveOrder | server/src/config/passport.js:22-52 | an account linked to the Google id is returned unchanged; otherwise the first account with the profile's first email is returned and stored with the Google id set; otherwise a new account with the profile's name, first email, Google id and first photo is returned and appended; the callback fails, with the store unchanged, exactly when no account is linked and the profile has no email, or needs a new account and has no photo; a returned account always carries the Google id |
| PassportConfig.ResolveIsStable | server/src/config/passport.js:25-29 | resolving the same profile again returns the same account and changes nothing |
| PassportConfig.FirstMatch | server/src/config/passport.js:25 | the first account linked to the Google id is the one the lookup finds |
| PassportConfig.UserStore.constructor | server/src/config/passport.js:22 | the store holds the given accounts |
| PassportConfig.UserStore.Verify | server/src/config/passport.js:22-52 | the verdict and new store are those of the find-or-link-or-create order; when the store throws, the callback fails and the store is unchanged |
| Wire.IndexOfObject | server/src/socket/socketHandler.js:47 | the server's findIndex (and the client's find at client/src/components/Whiteboard.jsx:642) returns the first object with the id, and nothing only when none has it |
| SocketHandler.Lookup | server/src/socket/socketHandler.js:47 | an object is found exactly when one with that id is stored |
| SocketHandler.Upsert | server/src/socket/socketHandler.js:44-56 | a payload whose id is stored at index i replaces position i whole and keeps the length; an absent id appends the payload at the end |
| SocketHandler.PullKeepsExactlyOthers | server/src/socket/socketHandler.js:65-71 | the pull keeps exactly the objects whose id differs |
| SocketHandler.UpsertThenLookup | server/src/socket/socketHandler.js:44-56 | after an upsert the id reads back the payload just written |
| Wire.IndexOfObjectIsFirst | server/src/socket/socketHandler.js:47 | the first position holding an id is the index findIndex reports |
| SocketHandler.UpsertIdempotent | server/src/socket/socketHandler.js:44-56 | upserting the same payload twice is upserting it once |
| SocketHandler.UpsertKeepsUniqueIds | server/src/socket/socketHandler.js:44-56 | upserts keep stored object ids distinct |
| SocketHandler.PullAbsent | server/src/socket/socketHandler.js:65-71 | deleting an absent id leaves the list unchanged |
| SocketHandler.PullIdempotent | server/src/socket/socketHandler.js:65-71 | deleting twice is deleting once |
| SocketHandler.PullAppend | server/src/socket/socketHandler.js:65-71 | the pull distributes over concatenation |
| SocketHandler.PullAfterUpsert | server/src/socket/socketHandler.js:44-71 | deleting an object after drawing it leaves the list as deleting it before would |
| SocketHandler.Recipients | server/src/socket/socketHandler.js:12-181 | a room broadcast reaches every other member of the room and never the sender; an addressed signal reaches exactly the addressed socket |
| SocketHandler.Stamped | server/src/socket/socketHandler.js:12-20 | join and leave notices carry the user fields with socketId set to the sender |
| SocketHandler.RouteOf | server/src/socket/socketHandler.js:137-153 | sending-signal goes to userToSignal, returning-signal to callerId, everything else to the room |
| SocketHandler.EventCarriesSender | server/src/socket/socketHandler.js:137-181 | join/leave notices, interaction-*, selection and cursor events carry the sender's socket id; returning-signal carries the answering socket as id; sending-signal carries callerId |
| SocketHandler.CursorMoveWithoutDataHasNoPosition | server/src/socket/socketHandler.js:179-182 | a cursor-move whose fields are not under data is relayed with no position |
| SocketHandler.Fold | server/src/socket/socketHandler.js:32-117 | a draw-data clear or clear-canvas empties the objects; any other draw-data upserts the payload; delete-object pulls the id; chat appends without touching earlier messages; code-change replaces codeData; roomId, name, host, participants, isActive and createdAt never change and updatedAt becomes the write time |
| SocketHandler.Persist | server/src/socket/socketHandler.js:38-113 | the write lands on the first room with the message's roomId and on no other record |
| SocketHandler.PersistKeepsUnique | server/src/socket/socketHandler.js:38-113 | persisting keeps roomIds unique |
| SocketHandler.RoomsOf | server/src/socket/socketHandler.js:26 | the rooms of a socket are exactly those containing it |
| SocketHandler.WithoutSocket | server/src/socket/socketHandler.js:185-187 | after disconnect the socket is in no room and every other membership is kept |
| SocketHandler.LeftNotices | server/src/socket/socketHandler.js:24-29 | one user-left notice per room the socket was in |
| SocketHandler.LeftNoticesAt | server/src/socket/socketHandler.js:24-29 | each notice carries only the socketId, goes to one of the socket's rooms and never reaches the leaving socket |
| SocketHandler.RelayServer.constructor | server/src/socket/socketHandler.js:3-4 | no sockets, rooms, deliveries or logged errors at start |
| SocketHandler.RelayServer.Connect | server/src/socket/socketHandler.js:4-5 | the socket is connected and alone in the room named by its id |
| SocketHandler.RelayServer.Receive | server/src/socket/socketHandler.js:8-182 | membership changes first, then exactly one delivery goes out, then a durable message is folded into the stored room, and a failed write is only logged, after the broadcast |
| SocketHandler.RelayServer.Disconnect | server/src/socket/socketHandler.js:24-29 | a user-left notice goes to every room the socket was in, then the socket leaves every room |
| SocketHandler.RelayServer.NotifyLeft | server/src/socket/socketHandler.js:24-29 | the notices go to every room of the socket, each once |
| SocketHandler.Spread | server/src/socket/socketHandler.js:26 | the spread lists every room of the set exactly once |
| Whiteboard.Extend | client/src/components/Whiteboard.jsx:612-625 | an update appends exactly one segment, from the stroke's last point to the new point in the stroke's colour and width, keeps the earlier segments and moves the last point |
| Whiteboard.ExtendKeepsChained | client/src/components/Whiteboard.jsx:612-625 | an update keeps a remote stroke one connected polyline ending at its last point |
| Whiteboard.ExtendAllTraces | client/src/components/Whiteboard.jsx:604-625 | a stroke started at a point and updated through a run of points is the polyline from the start through each of them in order, one segment per update |
| Whiteboard.CurvesAt | client/src/components/Whiteboard.jsx:309-313 | the loop emits one quadratic curve per interior point, with that point as control and the midpoint with its successor as end |
| Whiteboard.StrokePathShape | client/src/components/Whiteboard.jsx:303-315 | a path of n >= 3 points is a move to the first point, n-2 quadratic curves and a line to the last point |
| Whiteboard.BuildPath | client/src/components/Whiteboard.jsx:303-315 | the built path is the stroke path: a dot-sized line below three points, else move, curves, line |
| Whiteboard.ZoomAbout | client/src/components/Whiteboard.jsx:866-877 | zooming about a screen point sets the new zoom |
| Whiteboard.ZoomAboutKeepsAnchor | client/src/components/Whiteboard.jsx:866-877 | the canvas point under the zoom centre stays under it |
| Whiteboard.WheelZoom | client/src/components/Whiteboard.jsx:869-870 | a wheel zoom step is clamped to [0.1, 8] |
| Whiteboard.ZoomStepsStayInRange | client/src/components/Whiteboard.jsx:900-907 | the palette commands and toolbar buttons keep a zoom within [0.1, 8] within it, zooming in never decreases it and zooming out never increases it |
| Whiteboard.RemoteZoomIsNotClamped | client/src/components/Whiteboard.jsx:1016-1021 | a remote viewport is applied unclamped; from a zoom above 8 one palette zoom-out returns into [0.1, 8] exactly when the zoom was at most 10, and one toolbar zoom-out exactly when it was at most 9.6 |
| Whiteboard.BrushColor | client/src/components/Whiteboard.jsx:1034-1040 | the eraser paints the theme's background; otherwise the chosen colour is used unless it is black on dark (then white) or white on light (then black) |
| Whiteboard.BrushVisibleOnBackground | client/src/components/Whiteboard.jsx:1034-1040 | the brush never paints black on the dark theme or white on the light theme |
| Whiteboard.BrushWidth | client/src/components/Whiteboard.jsx:1032 | a width that does not parse, or parses to 0, becomes 3 |
| Whiteboard.BrushWidthOfNumber | client/src/components/Whiteboard.jsx:1032 | a decimal width is used as given, and 0 falls back to 3 |
| Whiteboard.Board.constructor | client/src/components/Whiteboard.jsx:31-200 | no remote strokes, the initial objects, the viewport at zoom 1 and offset 0, no stroke in progress, nothing emitted; hasInteracted exactly when there are initial objects |
| Whiteboard.Board.RemoteStart | client/src/components/Whiteboard.jsx:604-610 | the socket's entry is replaced by a fresh stroke with no segments whose last point is the start point; hasInteracted is set; nothing else changes |
| Whiteboard.Board.RemoteUpdate | client/src/components/Whiteboard.jsx:612-625 | an unknown socket changes nothing; a known one gets its stroke extended by exactly one segment |
| Whiteboard.Board.RemoteEnd | client/src/components/Whiteboard.jsx:627-633 | the socket's stroke and all its segments are removed; an unknown or empty socket id changes nothing |
| Whiteboard.Board.ReceiveDraw | client/src/components/Whiteboard.jsx:639-655 | a payload with a truthy id already on the canvas is merged into the first such object in place; any other payload is added on top when it can be revived |
| Whiteboard.Board.DeleteObject | client/src/components/Whiteboard.jsx:658-664 | the first object with the id is removed and the others are kept in order; an absent id changes nothing |
| Whiteboard.Board.Clear | client/src/components/Whiteboard.jsx:1096-1102 | a local clear empties the objects and the remote-stroke table and emits clear-canvas |
| Whiteboard.Board.OnClear | client/src/components/Whiteboard.jsx:1105-1110 | a remote clear empties the objects and the remote-stroke table |
| Whiteboard.Board.PointerDown | client/src/components/Whiteboard.jsx:262-274 | a primary press with the pencil starts a stroke at the canvas point and emits interaction-start with it; any other press changes nothing |
| Whiteboard.Board.PointerMove | client/src/components/Whiteboard.jsx:276-292 | while drawing, a point further than 2/zoom from the last kept one is kept, and emitted only when more than 25 ms passed since the last emit, which then moves the emit time |
| Whiteboard.Board.PointerUp | client/src/components/Whiteboard.jsx:294-337 | a stroke in progress becomes a path object added on top and sent as draw-data, followed by interaction-end; the points are reset |
| Whiteboard.Board.EmitViewport | client/src/components/Whiteboard.jsx:853-859 | a viewport is sent only when at least 30 ms passed since the last one sent, which then moves the timer; otherwise it is dropped |
| Whiteboard.Board.Wheel | client/src/components/Whiteboard.jsx:866-877 | Ctrl/Cmd-wheel zooms about the pointer and leaves the zoom within [0.1, 8], and the new viewport is sent exactly when at least 30 ms passed since the last one sent |
| Whiteboard.Board.Pan | client/src/components/Whiteboard.jsx:878-886 | a pan moves the offset by the drag and keeps the zoom, and the new viewport is sent exactly when at least 30 ms passed since the last one sent |
| Whiteboard.Board.ZoomCommandAt | client/src/components/Whiteboard.jsx:900-950 | the palette's zoom-in and zoom-out zoom by 1.25 about the board's centre, and the new viewport is sent exactly when at least 30 ms passed since the last one sent |
| Whiteboard.Board.ZoomButton | client/src/components/Whiteboard.jsx:1659-1688 | the toolbar buttons zoom by 1.2 and keep the offset, and the new viewport is sent exactly when at least 30 ms passed since the last one sent |
| Whiteboard.Board.Fit | client/src/components/Whiteboard.jsx:908-913 | fit resets the viewport to zoom 1 at offset 0, 0, and the new viewport is sent exactly when at least 30 ms passed since the last one sent |
| Whiteboard.Board.RemoteViewport | client/src/components/Whiteboard.jsx:1016-1021 | a remote viewport is applied as received |
| Whiteboard.PathObject | client/src/components/Whiteboard.jsx:317-330 | a finished stroke becomes an object with the new id and no action |
| Whiteboard.Merge | client/src/components/Whiteboard.jsx:643-645 | the payload's properties overwrite the object's, the object's other properties are kept, and no other property appears |
| Whiteboard.MergeMatchesReplaceIff | client/src/components/Whiteboard.jsx:643-645 | the client's merge gives the object the server stores (the payload whole) exactly when the payload mentions every property the object had and does not leave the object's action in place |
| Whiteboard.MergeIdempotent | client/src/components/Whiteboard.jsx:643-645 | receiving the same update twice leaves the mirror as receiving it once |
| VoiceChat.FindPeer | client/src/hooks/useVoiceChat.js:45 | the find returns the first link to the socket, and nothing exactly when no link has that peerID |
| VoiceChat.WithoutPeer | client/src/hooks/useVoiceChat.js:80-81 | the filter keeps exactly the links to other sockets |
| VoiceChat.WithoutPeerRemovesOne | client/src/hooks/useVoiceChat.js:76-83 | in a table without duplicates a departure removes exactly the one link to that socket and keeps the others in order |
| VoiceChat.WithoutAbsentPeer | client/src/hooks/useVoiceChat.js:76-83 | removing a socket with no link leaves the table unchanged |
| VoiceChat.WithoutPeerKeepsUnique | client/src/hooks/useVoiceChat.js:80 | a departure keeps peerIDs unique |
| VoiceChat.AddPeerKeepsUnique | client/src/hooks/useVoiceChat.js:45-66 | adding a link only when none to that socket exists keeps peerIDs unique |
| VoiceChat.PeerIds | client/src/hooks/useVoiceChat.js:117-119 | the peer ids of the table, in table order |
| VoiceChat.Mesh.constructor | client/src/hooks/useVoiceChat.js:9-39 | the table and the shown peers start empty and unmuted; the handlers listen, and the audio track exists, only when the microphone was granted |
| VoiceChat.Mesh.UserJoined | client/src/hooks/useVoiceChat.js:41-54 | this socket, an already linked socket, or no microphone changes nothing; otherwise exactly one initiator link is appended, to both the table and the shown peers; peerIDs stay unique |
| VoiceChat.Mesh.IncomingCall | client/src/hooks/useVoiceChat.js:56-67 | a known caller, or no microphone, changes nothing; otherwise exactly one responder link is appended and fed the offer, to both the table and the shown peers |
| VoiceChat.Mesh.ReturnSignal | client/src/hooks/useVoiceChat.js:69-74 | the answer is fed only to the link of the answering socket; an unknown socket leaves the table unchanged |
| VoiceChat.Mesh.UserLeft | client/src/hooks/useVoiceChat.js:76-83 | the link to the departed socket is destroyed and removed, all others kept in order, in both the table and the shown peers; an unknown socket is a no-op |
| VoiceChat.Mesh.Unmount | client/src/hooks/useVoiceChat.js:111-121 | every link is destroyed in table order, the handlers are detached and the table becomes empty |
| VoiceChat.Mesh.ToggleMute | client/src/hooks/useVoiceChat.js:155-163 | the first audio track's enabled flag flips and muted becomes its negation; without a track nothing changes |
| LiveCursors.Expire | client/src/components/LiveCursors.jsx:31-37 | the cursors whose removal timer is due are removed and every other cursor is kept as it was |
| LiveCursors.Pending | client/src/components/LiveCursors.jsx:27-37 | the timers not yet due are kept as they were |
| LiveCursors.ExpireIsInactivity | client/src/components/LiveCursors.jsx:27-37 | a cursor survives until 3000 ms after its last update, and no longer |
| LiveCursors.ExpireKeepsTimed | client/src/components/LiveCursors.jsx:27-37 | after expiry every remaining cursor still has its pending timer 3000 ms after its last update |
| LiveCursors.Rendered | client/src/components/LiveCursors.jsx:64-65 | exactly the cursors with both coordinates are drawn |
| LiveCursors.PositionlessCursorHidden | client/src/components/LiveCursors.jsx:65 | a cursor relayed without its fields is stored but not drawn |
| LiveCursors.ScreenOfCanvasPoint | client/src/components/LiveCursors.jsx:67-69 | the screen position cursor x zoom + offset undoes the whiteboard's pointer-to-canvas mapping |
| LiveCursors.PinToEdge | client/src/components/LiveCursors.jsx:80-81 | a coordinate inside the 24 px margin is kept; one outside is pinned to the margin's nearest edge |
| LiveCursors.PlacementInsideMargin | client/src/components/LiveCursors.jsx:71-81 | on a window at least 48 px each way every cursor is drawn within [24, w-24] x [24, h-24], and an on-screen cursor is drawn at its screen point |
| LiveCursors.CursorLayer.constructor | client/src/components/LiveCursors.jsx:12-14 | no cursors and no timers at mount |
| LiveCursors.CursorLayer.Advance | client/src/components/LiveCursors.jsx:31-37 | firing the timers due by now removes those cursors and those timers |
| LiveCursors.CursorLayer.CursorMove | client/src/components/LiveCursors.jsx:19-38 | the socket's entry is inserted or overwritten with the latest position, user, colour and time, and its timer is replaced by one 3000 ms later |
| LiveCursors.CursorLayer.UserLeft | client/src/components/LiveCursors.jsx:40-48 | a payload with a socket id removes exactly that cursor; one without changes nothing; timers are not cancelled |
| LiveCursors.CursorLayer.Unmount | client/src/components/LiveCursors.jsx:53-57 | unmount cancels every pending timer |
| CodeEditor.EmitTimesSpaced | client/src/components/CodeEditor.jsx:53-58 | over any run of calls, the emits a throttle lets through are at least the gap apart and at least the gap after the previous emit, each at the time of one of the calls |
| CodeEditor.EmitTimesFirst | client/src/components/CodeEditor.jsx:53-58 | a call at least the gap after the last emit is never dropped |
| CodeEditor.UserColor | client/src/components/CodeEditor.jsx:113-118 | the caret colour is the entry at abs(hash) mod 6 of the six caret colours, where only the shift `hash << 5` is 32-bit and the hash itself is unbounded, so it is always one of them |
| CodeEditor.RanText | client/src/components/CodeEditor.jsx:181-184 | the shown text starts with the program output, is empty exactly when the output is empty with no stderr and no signal shown, ends with the stderr section when there is stderr and no signal, and ends with the signal when the status is not "0" and a signal is given |
| CodeEditor.FormatReply | client/src/components/CodeEditor.jsx:179-188 | a compile error gives "❌ Compilation Error:" and the error; a reply with program output gives its text, or "(No output)" when that is empty; anything else gives "❌ Unexpected response" |
| CodeEditor.SilentRunReportsNoOutput | client/src/components/CodeEditor.jsx:182-185 | a run with empty output, no stderr and no signal shows "(No output)" |
| CodeEditor.FinalOutput | client/src/components/CodeEditor.jsx:176-195 | the final output is never empty, and a failed request shows "❌ Network error:" with its message |
| CodeEditor.Session.constructor | client/src/components/CodeEditor.jsx:17-31 | the buffer starts as the saved code when truthy, else the C++ template; no editor, no timers, no typing user, no carets, empty output shown |
| CodeEditor.Session.MountEditor | client/src/components/CodeEditor.jsx:34-37 | the mounted editor shows the buffer |
| CodeEditor.Session.EmitCode | client/src/components/CodeEditor.jsx:53-58 | code-change is emitted only when at least 100 ms passed since the last emit, and the timestamp moves only on an emit |
| CodeEditor.Session.HandleCodeChange | client/src/components/CodeEditor.jsx:61-66 | the buffer becomes the editor value or "", and the change is emitted, throttled, except while a remote change is being applied |
| CodeEditor.Session.LocalEdit | client/src/components/CodeEditor.jsx:61-66 | a local edit updates the buffer and the editor and emits, throttled |
| CodeEditor.Session.Advance | client/src/components/CodeEditor.jsx:84-85 | the typing indicator clears once 2000 ms passed since the last remote change, and not before |
| CodeEditor.Session.RemoteCodeChange | client/src/components/CodeEditor.jsx:71-87 | a remote change replaces the buffer wholesale, resets the editor only where it differs, emits nothing, and with a sender shows them as typing for 2000 ms |
| CodeEditor.Session.RemoteOutput | client/src/components/CodeEditor.jsx:89-93 | a remote run's output and running flag are shown |
| CodeEditor.Session.RemoteCaret | client/src/components/CodeEditor.jsx:98-102 | a caret tagged with this client's own name is ignored; any other is stored under its name, the latest winning |
| CodeEditor.Session.CaretMoved | client/src/components/CodeEditor.jsx:39-49 | cursor-change is emitted only when at least 80 ms passed since the last one |
| CodeEditor.Session.StartRun | client/src/components/CodeEditor.jsx:157-162 | a run shows the running notice with the run flag set and sends it to the room with running true |
| CodeEditor.Session.FinishRun | client/src/components/CodeEditor.jsx:176-198 | when the reply (or the failure) arrives the output becomes the final output whatever it showed, including after a stop, the run flag clears, and the room is sent the final output with running false |
| CodeEditor.Session.Stop | client/src/components/CodeEditor.jsx:202-205 | "🛑 Stopped" is appended to the output on a new line and the run flag clears; nothing is sent and the request is not cancelled |
| CodeEditor.Session.Refresh | client/src/components/CodeEditor.jsx:208-213 | the buffer returns to the template and the output clears; a mounted editor is reset, whose change callback sends the template throttled and tagged with the user name even when it already showed it; then the template is sent unthrottled and untagged |
| Chat.Outgoing | client/src/components/Chat.jsx:25-35 | nothing is sent exactly when the draft is blank after trimming; a sent message carries the trimmed, non-empty text, isSystem false, the sender's id, the time, the user name or "Anonymous", and an id that is the send time in decimal |
| Chat.SentTextIsTrimmed | client/src/components/Chat.jsx:30 | a sent text has no surrounding whitespace |
| Chat.ChatLog.constructor | client/src/components/Chat.jsx:5-7 | the log starts as the saved chat messages, or empty when there are none, with an empty input |
| Chat.ChatLog.Type | client/src/components/Chat.jsx:7 | the input holds the typed text |
| Chat.ChatLog.Receive | client/src/components/Chat.jsx:18-20 | a received message is appended at the end and earlier messages are unchanged |
| Chat.ChatLog.Send | client/src/components/Chat.jsx:25-39 | a blank draft changes nothing; otherwise the message is appended locally, then emitted, and the input is cleared |
| RoomPage.FindLeaver | client/src/pages/Room.jsx:158 | the find returns the first participant with the departing user id or the departing truthy socket id, and nothing exactly when none matches |
| RoomPage.WithJoined | client/src/pages/Room.jsx:149-153 | a newcomer is appended unless a participant with the same user id is listed, in which case the list is unchanged |
| RoomPage.WithoutLeaver | client/src/pages/Room.jsx:168 | the list keeps exactly the participants whose user id and socket id both differ from the departure's; the order is kept (WithoutLeaverAppend) |
| RoomPage.WithoutLeaverAppend | client/src/pages/Room.jsx:168 | the list keeps its order: filtering a concatenation filters each part |
| RoomPage.JoinedIdempotent | client/src/pages/Room.jsx:149-153 | repeated user-joined events for one user list them once |
| RoomPage.LeftUserGone | client/src/pages/Room.jsx:168 | after a user-left no participant with that user id remains |
| RoomPage.WithoutLeaverKeepsDistinct | client/src/pages/Room.jsx:168 | a departure keeps user ids distinct in the list |
| RoomPage.WithJoinedKeepsDistinct | client/src/pages/Room.jsx:149-153 | a join keeps user ids distinct in the list |
| RoomPage.InitialWidth | client/src/pages/Room.jsx:60-63 | with nothing saved the width is 320; otherwise it is the saved text parsed as a decimal integer |
| RoomPage.SavedWidthRestored | client/src/pages/Room.jsx:60-63 | a saved width is restored as it was |
| RoomPage.DragWidth | client/src/pages/Room.jsx:456-460 | a drag sets the width to the start width plus the leftward movement, clamped to [260, 500]; a width that did not parse stays unparsed |
| RoomPage.InitialOpen | client/src/pages/Room.jsx:64-67 | the sidebar starts open unless the saved value is the string "false" |
| RoomPage.SavedOpenRestored | client/src/pages/Room.jsx:64-67 | a saved open state is restored as it was |
| RoomPage.Page.constructor | client/src/pages/Room.jsx:38-67 | the loaded participants, nobody notified, no toasts, the saved sidebar width and open state, dark mode, the whiteboard view, connecting |
| RoomPage.Page.Connect | client/src/pages/Room.jsx:171-174 | on connect the page is connected and emits join-room with the user |
| RoomPage.Page.Disconnected | client/src/pages/Room.jsx:175 | a disconnect marks the page offline |
| RoomPage.Page.ReconnectAttempt | client/src/pages/Room.jsx:184 | a reconnect attempt marks the page reconnecting |
| RoomPage.Page.Unmount | client/src/pages/Room.jsx:186-193 | on unmount the page emits leave-room with the user |
| RoomPage.Page.UserJoined | client/src/pages/Room.jsx:144-154 | the join toast fires whenever the user id is not currently marked as notified (`UserLeft` removes the mark), that id is then marked, and the participant is added unless already listed |
| RoomPage.Page.UserLeft | client/src/pages/Room.jsx:155-170 | the leave toast fires only for a notified user, found among the participants or named by the payload, whose mark is then removed; the list keeps exactly the participants not matching the departure |
| RoomPage.Page.ExecuteCommand | client/src/pages/Room.jsx:114-130 | every command is dispatched to the window; action-sidebar toggles the sidebar and action-leave navigates to /dashboard |
| RoomPage.Page.Resize | client/src/pages/Room.jsx:454-467 | a drag of the handle sets the clamped drag width |
| RoomPage.Page.ResetWidth | client/src/pages/Room.jsx:469 | a double click resets the width to 320 |
| RoomPage.Page.ToggleTheme | client/src/pages/Room.jsx:208-212 | the theme flips and the new mode is emitted to the room |
| RoomPage.Page.RemoteTheme | client/src/pages/Room.jsx:202-206 | a remote theme is applied as received |
| RoomPage.Page.SwitchView | client/src/pages/Room.jsx:214-217 | the view switches and is emitted to the room |
| RoomPage.Page.RemoteView | client/src/pages/Room.jsx:196-200 | a remote view is applied as received |
| Snapping.AxisSnapAligns | client/src/utils/snapping.js:77-105 | an object snap moves the object by less than 8 along the axis, and afterwards the guide lies on the target's start, centre or end and on the moved object's start, centre or end |
| Snapping.CentreFirst | client/src/utils/snapping.js:77-81 | centre-to-centre is tried first: centres within 8 snap centre to centre whatever the edges do |
| Snapping.FarNoSnap | client/src/utils/snapping.js:75-105 | when none of the five pairs lies within 8, the target offers no snap |
| Snapping.Candidates | client/src/utils/snapping.js:60 | the candidates are exactly the other objects that take events; the moving object is never one |
| Snapping.FirstSnapIsFirst | client/src/utils/snapping.js:63-143 | an axis snaps to an object exactly when some candidate offers a snap, and the snap taken is one a candidate offers |
| Snapping.AxisResultBounded | client/src/utils/snapping.js:145-159 | any snap on an axis moves the object by less than 10, an object snap by less than 8 |
| Snapping.GuideLayer.constructor | client/src/utils/snapping.js:12-13 | there are no guides at first |
| Snapping.GuideLayer.ClearGuides | client/src/utils/snapping.js:15-20 | clearing removes every guide |
| Snapping.GuideLayer.OnMoving | client/src/utils/snapping.js:36-162 | the old guides go; each axis takes the first candidate's snap in candidate order, else the canvas centre within 10, else stays; each snap adds exactly one guide, vertical for x and horizontal for y |
| CommandPalette.Filter | client/src/components/CommandPalette.jsx:40-43 | the filter keeps exactly the commands whose label or category contains the query, ignoring case; the table order is kept (FilterAppend) |
| CommandPalette.FilterAppend | client/src/components/CommandPalette.jsx:40-43 | the filter keeps the table's order: filtering a concatenation filters each part |
| CommandPalette.EmptyQueryKeepsAll | client/src/components/CommandPalette.jsx:40-43 | the empty query keeps every command, in order |
| CommandPalette.GroupIndex | client/src/components/CommandPalette.jsx:47 | a category's group is found exactly when one exists |
| CommandPalette.CommandsRankSorted | client/src/components/CommandPalette.jsx:15-31 | the command table lists each category in one contiguous run |
| CommandPalette.FilterKeepsRankSorted | client/src/components/CommandPalette.jsx:40-43 | filtering keeps the categories contiguous and in table order |
| CommandPalette.GroupCategories | client/src/components/CommandPalette.jsx:46-50 | the grouping has a group for every category of the commands and for no other |
| CommandPalette.FlattenPushLast | client/src/components/CommandPalette.jsx:46-53 | pushing onto the last group appends to the flattened list |
| CommandPalette.FlattenPushNew | client/src/components/CommandPalette.jsx:46-53 | opening a new group appends to the flattened list |
| CommandPalette.LastGroupIsLastCategory | client/src/components/CommandPalette.jsx:46-50 | grouping a category-contiguous list ends with the group of its last command's category |
| CommandPalette.SameRankSameCategory | client/src/components/CommandPalette.jsx:15-31 | in a category-contiguous list, a category seen before the last command is the category of the one just before it |
| CommandPalette.FlattenGroupIdentity | client/src/components/CommandPalette.jsx:46-53 | grouping then flattening a category-contiguous list gives the list back |
| CommandPalette.FlatIsFilter | client/src/components/CommandPalette.jsx:40-53 | the list the keyboard walks is the filtered table in table order, holding exactly the matching commands |
| CommandPalette.FlatEmptyQuery | client/src/components/CommandPalette.jsx:40-53 | with nothing typed the palette lists the whole table |
| CommandPalette.NextIndex | client/src/components/CommandPalette.jsx:83 | ArrowDown moves to the next row and wraps from the last row to the first |
| CommandPalette.PrevIndex | client/src/components/CommandPalette.jsx:86 | ArrowUp moves to the previous row and wraps from the first row to the last |
| CommandPalette.ArrowsUndoEachOther | client/src/components/CommandPalette.jsx:81-86 | ArrowUp undoes ArrowDown and the reverse, and each wraps at the ends |
| CommandPalette.Palette.constructor | client/src/components/CommandPalette.jsx:33-35 | the palette starts closed with an empty query and the first row selected |
| CommandPalette.Palette.Open | client/src/components/CommandPalette.jsx:55-61 | opening clears the query and selects the first row |
| CommandPalette.Palette.Type | client/src/components/CommandPalette.jsx:63-65 | changing the query resets the selection to the first row |
| CommandPalette.Palette.Hover | client/src/components/CommandPalette.jsx:164 | hovering a row selects it |
| CommandPalette.Palette.Click | client/src/components/CommandPalette.jsx:163 | clicking a row executes its command and closes the palette |
| CommandPalette.Palette.KeyDown | client/src/components/CommandPalette.jsx:77-100 | while open, ArrowDown and ArrowUp step with wrap-around (an empty list gives NaN); Enter executes and closes only when the selected row exists; Escape closes without executing; a closed palette ignores keys |
| Dashboard.Greeting | client/src/pages/Dashboard.jsx:455-460 | morning exactly before hour 12, afternoon exactly for hours 12 to 16, evening exactly from 17 |
| Dashboard.BeforeFirst | client/src/pages/Dashboard.jsx:464 | the result is the prefix of the name up to, and not including, the first separator |
| Dashboard.FirstName | client/src/pages/Dashboard.jsx:464 | the greeting name is never empty and is a single word unless it is the fallback "there" |
| Dashboard.FirstNameOfSingleWord | client/src/pages/Dashboard.jsx:464 | a non-empty name without spaces is greeted in full |
| Dashboard.AgeOf | client/src/pages/Dashboard.jsx:819-826 | "Just now" exactly under one minute; otherwise the count is the whole number of minutes (under an hour), hours (under a day) or days elapsed, bracketed by the elapsed time |
| Dashboard.LabelShowsCount | client/src/pages/Dashboard.jsx:819-826 | the label text reads back, as a base-10 integer, to the age's count, and is "Just now" exactly for the just-now age |
| Dashboard.CharCode | client/src/pages/Dashboard.jsx:828 | a UTF-16 code unit: the code point itself in the basic plane |
| Dashboard.Hue | client/src/pages/Dashboard.jsx:828 | the card hue is a degree below 360 |
| Dashboard.CodeSumAppend | client/src/pages/Dashboard.jsx:828 | the character-code sum splits over concatenation of room ids |
| Dashboard.HueOfRotation | client/src/pages/Dashboard.jsx:828 | rotating a room id does not change its card colour |
| Dashboard.TypedCode | client/src/pages/Dashboard.jsx:768-771 | the code input holds at most six characters, each the upper-case form of the typed one at that position |
| Dashboard.TypedCodeIdempotent | client/src/pages/Dashboard.jsx:768-771 | re-entering the shown code leaves it unchanged |
| Dashboard.JoinRequest | client/src/pages/Dashboard.jsx:484-487 | a join request is sent exactly when the code is six UTF-16 code units long and not all white space, and it carries the code unchanged |
| Dashboard.JoinFailure | client/src/pages/Dashboard.jsx:499 | the server's message when it sent one, else a non-empty fallback |
| Dashboard.ShownAvatars | client/src/pages/Dashboard.jsx:858 | the first three participants (all of them when there are fewer), none when the list is missing |
| Dashboard.AvatarsAccountForEveryone | client/src/pages/Dashboard.jsx:858-875 | the avatars plus the "+n" badge count every participant exactly, and "0 Active" shows exactly when there are neither |
| Dashboard.PlusCountParses | client/src/pages/Dashboard.jsx:868-869 | the "+n" badge reads back to n |
| Dashboard.AvatarName | client/src/pages/Dashboard.jsx:860 | a non-empty avatar name: the participant's name when set, "U" when there is neither name nor email |
| Dashboard.WithoutRoom | client/src/pages/Dashboard.jsx:511 | the list keeps exactly the cards of other rooms, each as many times as before; the order is kept (WithoutRoomAppend) |
| Dashboard.WithoutRoomAppend | client/src/pages/Dashboard.jsx:511 | the list keeps its order: filtering a concatenation filters each part |
| Dashboard.WithoutAbsentRoom | client/src/pages/Dashboard.jsx:511 | removing an unlisted room leaves the list identical |
| Dashboard.WithoutRoomIdempotent | client/src/pages/Dashboard.jsx:511 | removing the same room twice equals removing it once |
| Dashboard.DeleteRoom | client/src/pages/Dashboard.jsx:508-517 | when the server confirmed the removal the list is the filtered list (exactly the cards of other rooms, in order) and the note is a success; otherwise the list is unchanged and the note a failure |
| Dashboard.DeleteAll | client/src/pages/Dashboard.jsx:519-527 | the list empties exactly when the server confirmed, and is otherwise unchanged |
| JsText.Utf16Length | client/src/pages/Signup.jsx:32 | `length` counts UTF-16 code units: between the number of code points and twice that, and equal to it exactly when no code point lies beyond the basic plane |
| SignupForm.Validate | client/src/pages/Signup.jsx:28-35 | the mismatch message exactly when the passwords differ, the length message exactly when they agree but are shorter than six, no message exactly otherwise |
| SignupForm.ValidatedPasswordPresent | client/src/pages/Signup.jsx:28-42 | a form that passes the checks sends a non-empty password |
| SignupForm.SignupError | client/src/context/AuthContext.jsx:55 | the server's message when it sent one, else "Signup failed" |
| SignupForm.Submit | client/src/pages/Signup.jsx:24-49 | no submission while a required field is empty; a failed check shows its message and sends nothing; otherwise the name, email and password are sent, and the page goes to the dashboard on success or shows the error on rejection, loading off in every case |
| SignupForm.RequestOnlyWhenValid | client/src/pages/Signup.jsx:37-42 | the account is requested if and only if the form is submittable and passes both checks; every error shown is a check's message or a rejection |
| SignupForm.LabelRaised | client/src/pages/Signup.jsx:57-59 | a label is raised when its field holds text, and otherwise exactly when the field has focus |
| SignupForm.OneEmptyLabelRaised | client/src/pages/Signup.jsx:57-59 | of two empty fields at most one has a raised label |
| ToastQueue.KindOf | client/src/components/Toast.jsx:10 | the kind defaults to "info" only when none is passed |
| ToastQueue.Delay | client/src/components/Toast.jsx:10-15 | 3000 ms when no duration is passed, the duration otherwise, never negative |
| ToastQueue.StyleOf | client/src/components/Toast.jsx:40 | success and error styles exactly for those kinds, the info style for every other kind |
| ToastQueue.WithoutId | client/src/components/Toast.jsx:14 | the list keeps exactly the toasts with a different id; the order is kept (WithoutIdAppend) |
| ToastQueue.WithoutIdAppend | client/src/components/Toast.jsx:14 | the filter keeps the queue's order: filtering a concatenation filters each part |
| ToastQueue.Survivors | client/src/components/Toast.jsx:13-15 | the list keeps exactly the toasts whose id was not removed; the order is kept (SurvivorsAppend) |
| ToastQueue.SurvivorsAppend | client/src/components/Toast.jsx:13-15 | the survivors keep the queue's order: filtering a concatenation filters each part |
| ToastQueue.WithoutIdOfSurvivors | client/src/components/Toast.jsx:13-15 | one more timer firing removes one more id from the survivors |
| ToastQueue.SurvivorsOfNothing | client/src/components/Toast.jsx:13-15 | with no timer fired the list is unchanged |
| ToastQueue.RemovalOrderIrrelevant | client/src/components/Toast.jsx:13-15 | two timers firing in either order leave the same list |
| ToastQueue.DueIds | client/src/components/Toast.jsx:13-15 | exactly the ids of timers due by the given time |
| ToastQueue.Pending | client/src/components/Toast.jsx:13-15 | exactly the timers not yet due; the order is kept (PendingAppend) |
| ToastQueue.PendingAppend | client/src/components/Toast.jsx:13-15 | the pending timers keep their order: filtering a concatenation filters each part |
| ToastQueue.AllDueClearsAll | client/src/components/Toast.jsx:10-16 | once every timer is due, no toast is left |
| ToastQueue.SameMillisecondToastsLeaveTogether | client/src/components/Toast.jsx:11-14 | two toasts raised in the same millisecond share an id and the first timer removes both |
| ToastQueue.ToastProvider.constructor | client/src/components/Toast.jsx:8 | no toasts and no timers |
| ToastQueue.ToastProvider.Advance | client/src/components/Toast.jsx:13-15 | the due timers fire: their ids leave the list, the rest stay in order, and every shown toast still has a pending timer |
| ToastQueue.ToastProvider.Add | client/src/components/Toast.jsx:10-16 | after the due timers fire, the toast joins the end of the list with the current time as id, and its timer is set for the delay later |
| ToastQueue.ToastProvider.Success | client/src/components/Toast.jsx:19 | adds a success toast with the default delay |
| ToastQueue.ToastProvider.Error | client/src/components/Toast.jsx:20 | adds an error toast with the default delay |
| ToastQueue.ToastProvider.Info | client/src/components/Toast.jsx:21 | adds an info toast with the default delay |

## Left out

- Rendering, styles and animation (JSX, framer-motion, Monaco decorations, Fabric.js drawing, scroll-into-view, the landing pages) carry no state the core keeps.
- MongoDB, Socket.IO, simple-peer/WebRTC media, getUserMedia, the Wandbox compiler service, JWT, bcrypt, `fetch` and `localStorage` are foreign calls: their answers are parameters (a `dbUp` flag, a reply, a saved value) and the messages sent are an `outbox`.
- Timers and `Date.now` are a logical clock passed to each handler as `now`; a timer due at the moment of an event fires before that event is handled.
- Concurrency is not modelled: the draw-data read-then-write in `server/src/socket/socketHandler.js:42-57` is taken as one sequential step, so the lost update two racing writers can cause is not captured.
- Floating point is not modelled: coordinates, zoom and distances are `real`, so rounding in `Math.hypot`, the easing animation, bounding boxes and device-pixel scaling is left out.
- SocketHandler: the client sends the cursor position as flat fields while the server forwards only `data`, so a relayed cursor-move carries no position; the model keeps the server as written (`CursorMoveWithoutDataHasNoPosition`).
- Whiteboard: remote selection highlighting is left out because `remoteSelectionsRef` is used but never declared in `client/src/components/Whiteboard.jsx`.
- Whiteboard: the first `voxa-command` listener (it calls an undefined `handleZoom`) is left out; only the second listener is modelled.
- Whiteboard: tools, shapes, export, clipboard, layer ordering, the contextual toolbar and return-to-content are left out as canvas and UI mechanics.
- Whiteboard: a user leaving does not drop their live-stroke entry, as in the source, so no lemma claims strokes are cleaned up on departure.
- Whiteboard: an incoming draw-data merges its properties into the existing canvas object while the server replaces the stored object whole; the model keeps each side as written, and the object data itself is an opaque property map.
- Whiteboard: the client removes only the first object with the id, while the server removes every match.
- Whiteboard: the model keeps remote stroke segments in their own table, while the source adds them to the canvas object list (`client/src/components/Whiteboard.jsx:615-621`); there a delete-object without an id (`undefined === undefined`) can find and remove a segment line, and segment lines sit among the objects in the canvas order; the model does not capture either.
- CodeEditor: a run is two steps, `StartRun` and `FinishRun`; what other handlers do between the request and its reply is captured, but not the reply's timing.
- Whiteboard: a viewport received from another member is applied without the [0.1, 8] zoom clamp, as the source does; local zoom steps keep the clamp.
- Whiteboard.PathObject: the path is kept as a list of `M`/`Q`/`L` commands over reals; formatting the numbers into SVG path text is left out.
- VoiceChat: the `signal` events the peers raise (offers and answers sent to the server) and the media streams are left out; the peer objects are entries of the mesh table.
- LiveCursors: the source does not cancel the departed cursor's pending timer, and neither does the model; the timer later finds no entry.
- CodeEditor: the request body and stdin sent to the compiler service are left out; the reply is a parameter.
- CodeEditor.UserColor: the name hash runs over code points, not UTF-16 code units, so names with characters beyond the basic plane may get a different colour than in a browser.
- CodeEditor: a `program_output` of `null` is treated as absent.
- RoomPage: fullscreen, the mobile layout flag, the palette shortcut, `fetchRoom` and the page's own toast expiry are left out; a saved width that does not parse is `None`.
- Chat: the message timestamp string is a parameter.
- RoomController.CreateRoom: the random source is a finite list of picks, each the index `Math.floor(Math.random() * 36)` yields (`PickOf` relates a random number to its pick), and the result is `None` when the list runs out before an unused id is drawn, where the source keeps drawing.
- RoomController.GenerateRoomId: the six picks are passed in rather than drawn inside the helper; the draw itself is `PickOf`.
- RoomController.GetMyRooms: `populate` of host and participant records is left out, and rooms with equal `updatedAt` keep their stored order (a stable sort), whereas the database's tie order is unspecified.
- RoomController: `getRoom` is not part of this model.
- JsText.ToUpper: upper-casing is ASCII-only; JavaScript maps some characters (such as `ß` to `SS`) to longer strings, which the model does not.
- JsText.ToLower: lower-casing is ASCII-only too, so the palette's case-insensitive match misses non-ASCII case pairs; JavaScript lower-cases, for instance, the Kelvin sign U+212A to `k`.
- Dashboard.TypedCode: the input's `maxLength` of six is applied to code points, while a browser counts UTF-16 code units; the two differ only for characters beyond the basic plane.
- AuthController: the Google callback, token signing, password hashing and the user schema are left out; `server/src/models/User.js` is not part of this model, and lookups and password checks are parameters.
- CommandPalette: the focus timeout and the selected item's scroll-into-view are left out.
- Dashboard: the clock interval, the 700 ms delay before navigating to a new room and the create-room request are left out; the hour and the current time are parameters.
- SignupForm: the browser's e-mail format check is left out (only `required` is modelled), and Google sign-up is a redirect with no state.
- ToastQueue.StyleOf: a kind named like an object prototype key (such as `constructor`) would pick up that key in the source; the model treats every unknown kind as info.
