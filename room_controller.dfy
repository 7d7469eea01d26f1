/** The room REST controller: room-id generation, create, join, the "my rooms"
    listing, and removing the caller from one room or from all of them. */
module RoomController {
  import opened JsText
  import opened RoomRecord

  /** The authenticated caller (`req.user`). */
  datatype AuthUser = AuthUser(id: UserId, name: string)

  /** The fields the listing selects from each room. */
  datatype RoomSummary = RoomSummary(
    roomId: string, name: string, host: UserId, participants: seq<UserId>, updatedAt: int, isActive: bool)

  datatype Body = RoomJson(room: RoomDoc) | RoomList(rooms: seq<RoomSummary>) | Message(message: string)

  datatype Response = Response(status: int, body: Body)

  const RoomIdChars: string := "ABCDEFGHIJKLMNOPQRSTUVWXYZ0123456789"
  const Letters: string := "ABCDEFGHIJKLMNOPQRSTUVWXYZ"
  const Digits: string := "0123456789"
  const RoomIdLength: nat := 6
  const MyRoomsLimit: nat := 10

  /** No stored room is left without participants: the controller deletes a room
      as soon as its last participant leaves. */
  ghost predicate NoEmptyRooms(docs: seq<RoomDoc>) {
    forall i :: 0 <= i < |docs| ==> docs[i].participants != []
  }

  // ---------------------------------------------------------------------------
  // generateRoomId

  /** `Math.floor(Math.random() * chars.length)`: the index a random number in
      [0, 1) picks from the 36 characters. */
  function PickOf(r: real): (k: int)
    requires 0.0 <= r < 1.0
    ensures 0 <= k < |RoomIdChars|
    ensures k as real <= r * 36.0 < (k + 1) as real
  {
    (r * 36.0).Floor
  }

  /** Every character can be drawn: the number k/36 picks the k-th. */
  lemma EveryPickReachable(k: int)
    requires 0 <= k < |RoomIdChars|
    ensures 0.0 <= k as real / 36.0 < 1.0 && PickOf(k as real / 36.0) == k
  {
    assert k as real / 36.0 * 36.0 == k as real;
  }

  /** A character of a room id: an upper-case letter or a digit. */
  predicate IsIdChar(c: char) {
    'A' <= c <= 'Z' || '0' <= c <= '9'
  }

  /** The k-th character of A-Z0-9, computed from its position. */
  function IdChar(k: int): (c: char)
    requires 0 <= k < |RoomIdChars|
    ensures IsIdChar(c)
  {
    if k < 26 then ('A' as int + k) as char else ('0' as int + k - 26) as char
  }

  /** `chars.charAt(k)` is the computed character. */
  lemma IdCharIsCharAt(k: int)
    requires 0 <= k < |RoomIdChars|
    ensures RoomIdChars[k] == IdChar(k)
  {
    assert RoomIdChars == Letters + Digits;
    if k < 26 {
      LetterAt(k);
    } else {
      DigitAt(k - 26);
    }
  }

  lemma LetterAt(k: int)
    requires 0 <= k < 26
    ensures Letters[k] == ('A' as int + k) as char
  {
  }

  lemma DigitAt(k: int)
    requires 0 <= k < 10
    ensures Digits[k] == ('0' as int + k) as char
  {
  }

  /** The id a block of picks draws, one character per pick. */
  function DrawnId(picks: seq<int>): (id: string)
    requires forall i :: 0 <= i < |picks| ==> 0 <= picks[i] < |RoomIdChars|
    ensures |id| == |picks|
    ensures forall i :: 0 <= i < |id| ==> IsIdChar(id[i])
  {
    if picks == [] then ""
    else [IdChar(picks[0])] + DrawnId(picks[1..])
  }

  /** Each character of a drawn id is `chars.charAt` of its pick. */
  lemma {:induction false} DrawnIdIsCharAt(picks: seq<int>)
    requires forall i :: 0 <= i < |picks| ==> 0 <= picks[i] < |RoomIdChars|
    ensures forall i :: 0 <= i < |picks| ==> DrawnId(picks)[i] == RoomIdChars[picks[i]]
  {
    if picks != [] {
      DrawnIdIsCharAt(picks[1..]);
      IdCharIsCharAt(picks[0]);
      forall i | 1 <= i < |picks| ensures DrawnId(picks)[i] == RoomIdChars[picks[i]] {
        assert DrawnId(picks)[i] == DrawnId(picks[1..])[i - 1];
      }
    }
  }

  /** Six characters, the i-th being `chars.charAt(picks[i])`; each pick stands
      for one `Math.floor(Math.random() * chars.length)` (see `PickOf`). */
  method GenerateRoomId(picks: seq<int>) returns (id: string)
    requires |picks| == RoomIdLength
    requires forall i :: 0 <= i < |picks| ==> 0 <= picks[i] < |RoomIdChars|
    ensures id == DrawnId(picks)
  {
    id := "";
    var i := 0;
    while i < RoomIdLength
      invariant i <= RoomIdLength && |id| == i
      invariant forall j :: 0 <= j < i ==> id[j] == RoomIdChars[picks[j]]
    {
      id := id + [RoomIdChars[picks[i]]];
      i := i + 1;
    }
    DrawnIdIsCharAt(picks);
    assert id == DrawnId(picks);
  }

  /** The id `createRoom` settles on: the picks are consumed six at a time and
      the first drawn id not among the stored ids `used` is taken; `None` when
      the picks run out before one turns up. */
  function FirstUnusedDraw(used: set<string>, picks: seq<int>): (r: Option<string>)
    requires forall i :: 0 <= i < |picks| ==> 0 <= picks[i] < |RoomIdChars|
    ensures r.Some? ==> |r.value| == RoomIdLength && r.value !in used
    ensures r.Some? ==> forall i :: 0 <= i < |r.value| ==> IsIdChar(r.value[i])
    decreases |picks|
  {
    if |picks| < RoomIdLength then None
    else
      var id := DrawnId(picks[..RoomIdLength]);
      if id !in used then Some(id) else FirstUnusedDraw(used, picks[RoomIdLength..])
  }

  /** When the k-th block of six picks draws an unused id, an id is found: it is
      that one or the unused id of an earlier block. */
  lemma {:induction false} UnusedDrawFound(used: set<string>, picks: seq<int>, k: nat)
    requires forall i :: 0 <= i < |picks| ==> 0 <= picks[i] < |RoomIdChars|
    requires RoomIdLength * k + RoomIdLength <= |picks|
    requires DrawnId(picks[RoomIdLength * k..RoomIdLength * k + RoomIdLength]) !in used
    ensures FirstUnusedDraw(used, picks).Some?
  {
    if k > 0 && DrawnId(picks[..RoomIdLength]) in used {
      var rest := picks[RoomIdLength..];
      assert rest[RoomIdLength * (k - 1)..RoomIdLength * (k - 1) + RoomIdLength]
          == picks[RoomIdLength * k..RoomIdLength * k + RoomIdLength];
      UnusedDrawFound(used, rest, k - 1);
    }
  }

  /** A drawn id has no surrounding whitespace, so the schema's trim keeps it. */
  lemma DrawnIdIsTrimmed(id: string)
    requires |id| == RoomIdLength && forall i :: 0 <= i < |id| ==> IsIdChar(id[i])
    ensures Trim(id) == id
  {
    assert !IsJsSpace(id[0]) && !IsJsSpace(id[|id| - 1]);
    assert TrimStart(id) == id;
  }

  // ---------------------------------------------------------------------------
  // createRoom

  /** A record created under a drawn id is stored under that very id. */
  lemma DrawnIdKept(f: CreateFields, id: string, now: int)
    requires f.roomId == Some(id)
    requires |id| == RoomIdLength && forall i :: 0 <= i < |id| ==> IsIdChar(id[i])
    ensures NewRoomDoc(f, now).Ok? ==> NewRoomDoc(f, now).value.roomId == id
  {
    DrawnIdIsTrimmed(id);
  }

  /** The room ids stored in the collection: `findOne({ roomId })` finds a room
      exactly when its id is one of them. */
  function StoredIds(docs: seq<RoomDoc>): (ids: set<string>)
    ensures forall d :: d in docs ==> d.roomId in ids
  {
    set d | d in docs :: d.roomId
  }

  lemma StoredIdsIff(docs: seq<RoomDoc>, id: string)
    ensures HasRoom(docs, id) <==> id in StoredIds(docs)
  {
    if id in StoredIds(docs) {
      var d :| d in docs && d.roomId == id;
      var j :| 0 <= j < |docs| && docs[j] == d;
    }
  }

  /** The fields `createRoom` hands to `Room.create`. */
  function NewRoomFields(user: AuthUser, roomId: string, name: Option<string>): (f: CreateFields)
    ensures f.roomId == Some(roomId) && f.host == Some(user.id) && f.participants == [user.id]
    ensures Truthy(name) ==> f.name == Some(name.value)
    ensures !Truthy(name) ==> f.name == Some(user.name + "'s Room")
  {
    CreateFields(Some(roomId), Some(OrElse(name, user.name + "'s Room")), Some(user.id), [user.id])
  }

  /** The `findOne` loop of `createRoom`: draws ids six picks at a time until
      one is not among the stored ids `used`. */
  method FindUnusedId(used: set<string>, picks: seq<int>) returns (r: Option<string>)
    requires forall i :: 0 <= i < |picks| ==> 0 <= picks[i] < |RoomIdChars|
    ensures r == FirstUnusedDraw(used, picks)
  {
    if |picks| < RoomIdLength {
      return None;
    }
    var id := GenerateRoomId(picks[..RoomIdLength]);
    var pos := RoomIdLength;
    assert picks[..RoomIdLength] == picks[pos - RoomIdLength..pos];
    ContinueIsFirstUnused(used, picks, pos, id);
    while id in used
      invariant RoomIdLength <= pos <= |picks|
      invariant DrawsFrom(used, picks, pos, id) == FirstUnusedDraw(used, picks)
      decreases |picks| - pos
    {
      if pos + RoomIdLength > |picks| {
        return None;
      }
      id := GenerateRoomId(picks[pos..pos + RoomIdLength]);
      pos := pos + RoomIdLength;
    }
    r := Some(id);
  }

  /** The loop's own reading of the draws: from the current id and position on. */
  ghost function DrawsFrom(used: set<string>, picks: seq<int>, pos: nat, id: string): Option<string>
    requires forall i :: 0 <= i < |picks| ==> 0 <= picks[i] < |RoomIdChars|
    requires pos <= |picks|
    decreases |picks| - pos
  {
    if id !in used then Some(id)
    else if pos + RoomIdLength > |picks| then None
    else DrawsFrom(used, picks, pos + RoomIdLength, DrawnId(picks[pos..pos + RoomIdLength]))
  }

  /** The loop's reading agrees with the block-by-block one. */
  lemma {:induction false} ContinueIsFirstUnused(used: set<string>, picks: seq<int>, pos: nat, id: string)
    requires forall i :: 0 <= i < |picks| ==> 0 <= picks[i] < |RoomIdChars|
    requires RoomIdLength <= pos <= |picks| && id == DrawnId(picks[pos - RoomIdLength..pos])
    ensures DrawsFrom(used, picks, pos, id) == FirstUnusedDraw(used, picks[pos - RoomIdLength..])
    ensures pos == RoomIdLength ==> picks[pos - RoomIdLength..] == picks
    decreases |picks| - pos
  {
    DrawStep(used, picks, pos);
    if id in used && pos + RoomIdLength <= |picks| {
      var next := pos + RoomIdLength;
      ContinueIsFirstUnused(used, picks, next, DrawnId(picks[pos..next]));
      assert next - RoomIdLength == pos;
    }
  }

  /** One turn of the loop: the draw from position `pos - 6` either is unused or
      hands over to the draws from `pos`. */
  lemma DrawStep(used: set<string>, picks: seq<int>, pos: nat)
    requires forall i :: 0 <= i < |picks| ==> 0 <= picks[i] < |RoomIdChars|
    requires RoomIdLength <= pos <= |picks|
    ensures DrawnId(picks[pos - RoomIdLength..pos]) !in used ==>
      FirstUnusedDraw(used, picks[pos - RoomIdLength..]) == Some(DrawnId(picks[pos - RoomIdLength..pos]))
    ensures DrawnId(picks[pos - RoomIdLength..pos]) in used ==>
      FirstUnusedDraw(used, picks[pos - RoomIdLength..]) == FirstUnusedDraw(used, picks[pos..])
    ensures pos + RoomIdLength > |picks| ==> FirstUnusedDraw(used, picks[pos..]) == None
  {
    var t := picks[pos - RoomIdLength..];
    assert t[..RoomIdLength] == picks[pos - RoomIdLength..pos];
    assert t[RoomIdLength..] == picks[pos..];
  }

  /** Draws ids from `picks` six at a time until one is unused, then creates the
      room with the caller as host and only participant.  `None` is returned when
      the supply of random picks runs out before an unused id turns up (the
      source would go on drawing). */
  method CreateRoom(db: RoomCollection, user: AuthUser, name: Option<string>, picks: seq<int>, dbUp: bool, now: int)
    returns (res: Option<Response>)
    requires db.Valid()
    requires forall i :: 0 <= i < |picks| ==> 0 <= picks[i] < |RoomIdChars|
    modifies db
    ensures db.Valid()
    ensures old(NoEmptyRooms(db.docs)) ==> NoEmptyRooms(db.docs)
    ensures !dbUp ==> res == Some(Response(500, Message("Server error creating room"))) && db.docs == old(db.docs)
    ensures dbUp ==> (res.None? <==> FirstUnusedDraw(StoredIds(old(db.docs)), picks).None?)
    ensures res.None? ==> db.docs == old(db.docs)
    ensures dbUp && FirstUnusedDraw(StoredIds(old(db.docs)), picks).Some? ==>
      var id := FirstUnusedDraw(StoredIds(old(db.docs)), picks).value;
      var doc := NewRoomDoc(NewRoomFields(user, id, name), now);
      && (doc.Ok? ==>
            && doc.value.roomId == id
            && res == Some(Response(201, RoomJson(doc.value)))
            && db.docs == old(db.docs) + [doc.value])
      && (doc.Err? ==>
            res == Some(Response(500, Message("Server error creating room"))) && db.docs == old(db.docs))
  {
    if !dbUp {
      return Some(Response(500, Message("Server error creating room")));
    }
    var found := FindUnusedId(StoredIds(db.docs), picks);
    if found.None? {
      return None;
    }
    var id := found.value;
    StoredIdsIff(db.docs, id);
    DrawnIdKept(NewRoomFields(user, id, name), id, now);
    ghost var before := db.docs;
    var created := db.Create(NewRoomFields(user, id, name), now);
    if created.Ok? {
      NonEmptyAppend(before, created.value);
      res := Some(Response(201, RoomJson(created.value)));
    } else {
      res := Some(Response(500, Message("Server error creating room")));
    }
  }

  lemma NonEmptyAppend(docs: seq<RoomDoc>, d: RoomDoc)
    requires d.participants != []
    ensures NoEmptyRooms(docs) ==> NoEmptyRooms(docs + [d])
  {
    if NoEmptyRooms(docs) {
      forall i | 0 <= i < |docs| + 1 ensures (docs + [d])[i].participants != [] {
        if i < |docs| {
          assert (docs + [d])[i] == docs[i];
        }
      }
    }
  }

  // ---------------------------------------------------------------------------
  // joinRoom

  /** The room after the caller joins: appended to the participants only when not
      already one, and saved (refreshing `updatedAt`) only then. */
  function Joined(d: RoomDoc, u: UserId, now: int): (r: RoomDoc)
    ensures u in r.participants
    ensures r.roomId == d.roomId && r.isActive == d.isActive && r.host == d.host
    ensures u in d.participants ==> r == d
    ensures u !in d.participants ==> r.participants == d.participants + [u] && r.updatedAt == now
    ensures r.(participants := d.participants, updatedAt := d.updatedAt) == d
  {
    if u in d.participants then d
    else d.(participants := d.participants + [u], updatedAt := now)
  }

  /** Joining a room one is already in changes nothing: joins are idempotent. */
  lemma JoinIdempotent(d: RoomDoc, u: UserId, now: int, later: int)
    ensures Joined(Joined(d, u, now), u, later) == Joined(d, u, now)
  {
    assert u in Joined(d, u, now).participants;
  }

  /** Joining adds at most one entry: the list has the caller exactly once more
      than before when the caller was absent, and is unchanged otherwise. */
  lemma JoinAddsOnce(d: RoomDoc, u: UserId, now: int)
    ensures multiset(Joined(d, u, now).participants)[u] == if u in d.participants then multiset(d.participants)[u] else 1
    ensures forall v :: v != u ==> multiset(Joined(d, u, now).participants)[v] == multiset(d.participants)[v]
  {
    if u !in d.participants {
      assert multiset(d.participants)[u] == 0;
    }
  }

  method JoinRoom(db: RoomCollection, user: AuthUser, roomId: Option<string>, dbUp: bool, now: int)
    returns (res: Response)
    requires db.Valid()
    modifies db
    ensures db.Valid()
    ensures old(NoEmptyRooms(db.docs)) ==> NoEmptyRooms(db.docs)
    ensures !Truthy(roomId) ==> res == Response(400, Message("Room ID is required")) && db.docs == old(db.docs)
    ensures Truthy(roomId) && !dbUp ==>
      res == Response(500, Message("Server error joining room")) && db.docs == old(db.docs)
    ensures Truthy(roomId) && dbUp && IndexOfRoom(old(db.docs), ToUpper(roomId.value)).None? ==>
      res == Response(404, Message("Room not found")) && db.docs == old(db.docs)
    ensures Truthy(roomId) && dbUp && IndexOfRoom(old(db.docs), ToUpper(roomId.value)).Some? ==>
      var k := IndexOfRoom(old(db.docs), ToUpper(roomId.value)).value;
      if !old(db.docs)[k].isActive then
        res == Response(400, Message("This room is no longer active")) && db.docs == old(db.docs)
      else
        db.docs == old(db.docs)[k := Joined(old(db.docs)[k], user.id, now)]
        && res == Response(200, RoomJson(db.docs[k]))
  {
    if !Truthy(roomId) {
      return Response(400, Message("Room ID is required"));
    }
    if !dbUp {
      return Response(500, Message("Server error joining room"));
    }
    var found := IndexOfRoom(db.docs, ToUpper(roomId.value));
    if found.None? {
      return Response(404, Message("Room not found"));
    }
    var k := found.value;
    var room := db.docs[k];
    if !room.isActive {
      return Response(400, Message("This room is no longer active"));
    }
    var joined := Joined(room, user.id, now);
    ReplaceKeepsUnique(db.docs, k, joined);
    db.docs := db.docs[k := joined];
    res := Response(200, RoomJson(joined));
  }

  // ---------------------------------------------------------------------------
  // getMyRooms

  /** The rooms the user participates in, in stored order. */
  function RoomsWith(docs: seq<RoomDoc>, u: UserId): (r: seq<RoomDoc>)
    ensures forall x :: x in r <==> x in docs && u in x.participants
    ensures |r| <= |docs|
  {
    if docs == [] then []
    else (if u in docs[0].participants then [docs[0]] else []) + RoomsWith(docs[1..], u)
  }

  ghost predicate NewestFirst(s: seq<RoomDoc>) {
    forall i, j :: 0 <= i < j < |s| ==> s[i].updatedAt >= s[j].updatedAt
  }

  /** Inserting a room into a newest-first list. */
  function Insert(x: RoomDoc, s: seq<RoomDoc>): (r: seq<RoomDoc>)
    ensures |r| == |s| + 1
  {
    if s == [] || s[0].updatedAt <= x.updatedAt then [x] + s
    else [s[0]] + Insert(x, s[1..])
  }

  /** `.sort({ updatedAt: -1 })`. */
  function SortNewestFirst(s: seq<RoomDoc>): (r: seq<RoomDoc>)
    ensures |r| == |s|
  {
    if s == [] then [] else Insert(s[0], SortNewestFirst(s[1..]))
  }

  lemma {:induction false} InsertPermutes(x: RoomDoc, s: seq<RoomDoc>)
    ensures multiset(Insert(x, s)) == multiset(s) + multiset{x}
  {
    if s != [] && s[0].updatedAt > x.updatedAt {
      InsertPermutes(x, s[1..]);
      assert s == [s[0]] + s[1..];
    }
  }

  /** Every room of `s` and `x` itself is no newer than `bound`, so is every room of the insertion. */
  lemma InsertBounded(x: RoomDoc, s: seq<RoomDoc>, bound: int)
    requires x.updatedAt <= bound
    requires forall k :: 0 <= k < |s| ==> s[k].updatedAt <= bound
    ensures forall k :: 0 <= k < |Insert(x, s)| ==> Insert(x, s)[k].updatedAt <= bound
  {
    InsertPermutes(x, s);
    var t := Insert(x, s);
    forall k | 0 <= k < |t| ensures t[k].updatedAt <= bound {
      assert t[k] in multiset(t);
      if t[k] != x {
        assert t[k] in multiset(s);
        var m :| 0 <= m < |s| && s[m] == t[k];
      }
    }
  }

  lemma {:induction false} InsertNewestFirst(x: RoomDoc, s: seq<RoomDoc>)
    requires NewestFirst(s)
    ensures NewestFirst(Insert(x, s))
  {
    if s != [] && s[0].updatedAt > x.updatedAt {
      InsertNewestFirst(x, s[1..]);
      InsertBounded(x, s[1..], s[0].updatedAt);
      var t := Insert(x, s[1..]);
      assert Insert(x, s) == [s[0]] + t;
    }
  }

  /** The sort yields a newest-first arrangement of exactly the rooms it was given. */
  lemma SortIsNewestFirstPermutation(s: seq<RoomDoc>)
    ensures NewestFirst(SortNewestFirst(s))
    ensures multiset(SortNewestFirst(s)) == multiset(s)
  {
    SortIsNewestFirst(s);
    SortPermutes(s);
  }

  lemma {:induction false} SortIsNewestFirst(s: seq<RoomDoc>)
    ensures NewestFirst(SortNewestFirst(s))
  {
    if s != [] {
      SortIsNewestFirst(s[1..]);
      InsertNewestFirst(s[0], SortNewestFirst(s[1..]));
    }
  }

  lemma {:induction false} SortPermutes(s: seq<RoomDoc>)
    ensures multiset(SortNewestFirst(s)) == multiset(s)
  {
    if s != [] {
      SortPermutes(s[1..]);
      InsertPermutes(s[0], SortNewestFirst(s[1..]));
      assert s == [s[0]] + s[1..];
    }
  }

  function Summary(d: RoomDoc): (r: RoomSummary)
    ensures r.roomId == d.roomId && r.name == d.name && r.host == d.host
    ensures r.participants == d.participants && r.updatedAt == d.updatedAt && r.isActive == d.isActive
  {
    RoomSummary(d.roomId, d.name, d.host, d.participants, d.updatedAt, d.isActive)
  }

  function Summaries(s: seq<RoomDoc>): (r: seq<RoomSummary>)
    ensures |r| == |s|
    ensures forall i :: 0 <= i < |s| ==> r[i] == Summary(s[i])
  {
    if s == [] then [] else [Summary(s[0])] + Summaries(s[1..])
  }

  /** The listing: the user's rooms, newest first, at most ten. */
  function MyRooms(docs: seq<RoomDoc>, u: UserId): seq<RoomDoc> {
    var sorted := SortNewestFirst(RoomsWith(docs, u));
    if |sorted| <= MyRoomsLimit then sorted else sorted[..MyRoomsLimit]
  }

  /** The listing holds only the user's rooms, newest first, at most ten of them. */
  lemma MyRoomsAreNewestOfMine(docs: seq<RoomDoc>, u: UserId)
    ensures |MyRooms(docs, u)| <= MyRoomsLimit
    ensures forall x :: x in MyRooms(docs, u) ==> x in docs && u in x.participants
    ensures NewestFirst(MyRooms(docs, u))
  {
    var mine := RoomsWith(docs, u);
    var sorted := SortNewestFirst(mine);
    SortIsNewestFirstPermutation(mine);
    var r := MyRooms(docs, u);
    forall x | x in r ensures x in docs && u in x.participants {
      assert x in sorted;
      assert x in multiset(sorted);
    }
  }

  /** A room of the user that the listing leaves out is no newer than the last one
      shown, and is left out only when the listing is full. */
  lemma MyRoomsOmitOnlyOlder(docs: seq<RoomDoc>, u: UserId, x: RoomDoc)
    requires x in docs && u in x.participants && x !in MyRooms(docs, u)
    ensures |MyRooms(docs, u)| == MyRoomsLimit
    ensures x.updatedAt <= MyRooms(docs, u)[MyRoomsLimit - 1].updatedAt
  {
    var mine := RoomsWith(docs, u);
    var sorted := SortNewestFirst(mine);
    SortIsNewestFirstPermutation(mine);
    var r := MyRooms(docs, u);
    assert x in multiset(mine);
    assert x in sorted;
    var j :| 0 <= j < |sorted| && sorted[j] == x;
    assert forall m :: 0 <= m < |r| ==> r[m] == sorted[m] && sorted[m] in r;
  }

  method GetMyRooms(db: RoomCollection, user: AuthUser, dbUp: bool) returns (res: Response)
    ensures dbUp ==> res == Response(200, RoomList(Summaries(MyRooms(db.docs, user.id))))
    ensures !dbUp ==> res == Response(500, Message("Server error fetching rooms"))
  {
    if !dbUp {
      return Response(500, Message("Server error fetching rooms"));
    }
    res := Response(200, RoomList(Summaries(MyRooms(db.docs, user.id))));
  }

  // ---------------------------------------------------------------------------
  // deleteRoom and deleteAllRooms

  /** `participants.filter(p => p !== u)`. */
  function Without(ps: seq<UserId>, u: UserId): (r: seq<UserId>)
    ensures forall v :: v in r <==> v in ps && v != u
    ensures forall v :: multiset(r)[v] == if v == u then 0 else multiset(ps)[v]
    ensures |r| <= |ps|
  {
    if ps == [] then []
    else
      assert ps == [ps[0]] + ps[1..];
      (if ps[0] == u then [] else [ps[0]]) + Without(ps[1..], u)
  }

  /** The filter keeps order: filtering a concatenation filters each part in turn. */
  lemma {:induction false} WithoutAppend(a: seq<UserId>, b: seq<UserId>, u: UserId)
    ensures Without(a + b, u) == Without(a, u) + Without(b, u)
  {
    if a != [] {
      WithoutAppend(a[1..], b, u);
      assert (a + b)[0] == a[0] && (a + b)[1..] == a[1..] + b;
      var h := if a[0] == u then [] else [a[0]];
      assert Without(a + b, u) == h + (Without(a[1..], u) + Without(b, u));
      assert Without(a, u) == h + Without(a[1..], u);
    } else {
      assert a + b == b;
    }
  }

  lemma {:induction false} WithoutAbsent(ps: seq<UserId>, u: UserId)
    requires u !in ps
    ensures Without(ps, u) == ps
  {
    if ps != [] {
      WithoutAbsent(ps[1..], u);
      assert ps == [ps[0]] + ps[1..];
    }
  }

  method DeleteRoom(db: RoomCollection, user: AuthUser, roomId: string, dbUp: bool, now: int)
    returns (res: Response)
    requires db.Valid()
    modifies db
    ensures db.Valid()
    ensures old(NoEmptyRooms(db.docs)) ==> NoEmptyRooms(db.docs)
    ensures !dbUp ==> res == Response(500, Message("Server error")) && db.docs == old(db.docs)
    ensures dbUp && IndexOfRoom(old(db.docs), roomId).None? ==>
      res == Response(404, Message("Room not found")) && db.docs == old(db.docs)
    ensures dbUp && IndexOfRoom(old(db.docs), roomId).Some? ==>
      var k := IndexOfRoom(old(db.docs), roomId).value;
      var rest := Without(old(db.docs)[k].participants, user.id);
      && res == Response(200, Message("Room removed"))
      && (rest == [] ==> db.docs == RemoveAt(old(db.docs), k))
      && (rest != [] && user.id in old(db.docs)[k].participants ==>
            db.docs == old(db.docs)[k := old(db.docs)[k].(participants := rest, updatedAt := now)])
      && (rest != [] && user.id !in old(db.docs)[k].participants ==> db.docs == old(db.docs))
  {
    if !dbUp {
      return Response(500, Message("Server error"));
    }
    var found := IndexOfRoom(db.docs, roomId);
    if found.None? {
      return Response(404, Message("Room not found"));
    }
    var k := found.value;
    var rest := Without(db.docs[k].participants, user.id);
    if rest == [] {
      RemoveKeepsUnique(db.docs, k);
      db.docs := RemoveAt(db.docs, k);
    } else if user.id in db.docs[k].participants {
      // Reassigning an equal list leaves the document unmodified, and saving an
      // unmodified document writes nothing (not even updatedAt).
      var saved := db.docs[k].(participants := rest, updatedAt := now);
      ReplaceKeepsUnique(db.docs, k, saved);
      db.docs := db.docs[k := saved];
    }
    res := Response(200, Message("Room removed"));
  }

  /** `updateMany({ participants: u }, { $pull: { participants: u } })`. */
  function PullUser(docs: seq<RoomDoc>, u: UserId, now: int): (r: seq<RoomDoc>)
    ensures |r| == |docs|
    ensures forall i :: 0 <= i < |docs| ==> r[i].roomId == docs[i].roomId && u !in r[i].participants
    ensures forall i :: 0 <= i < |docs| && u !in docs[i].participants ==> r[i] == docs[i]
    ensures forall i :: 0 <= i < |docs| && u in docs[i].participants ==>
      r[i] == docs[i].(participants := Without(docs[i].participants, u), updatedAt := now)
  {
    if docs == [] then []
    else
      var d := docs[0];
      [if u in d.participants then d.(participants := Without(d.participants, u), updatedAt := now) else d]
      + PullUser(docs[1..], u, now)
  }

  /** `deleteMany({ participants: { $size: 0 } })`. */
  function DropEmpty(docs: seq<RoomDoc>): (r: seq<RoomDoc>)
    ensures forall x {:trigger x in r} :: x in r <==> x in docs && x.participants != []
  {
    if docs == [] then []
    else (if docs[0].participants == [] then [] else [docs[0]]) + DropEmpty(docs[1..])
  }

  /** The clean-up keeps the surviving rooms in their stored order. */
  lemma {:induction false} DropEmptyAppend(a: seq<RoomDoc>, b: seq<RoomDoc>)
    ensures DropEmpty(a + b) == DropEmpty(a) + DropEmpty(b)
  {
    if a != [] {
      DropEmptyAppend(a[1..], b);
      assert (a + b)[0] == a[0] && (a + b)[1..] == a[1..] + b;
      var h := if a[0].participants == [] then [] else [a[0]];
      assert DropEmpty(a + b) == h + (DropEmpty(a[1..]) + DropEmpty(b));
      assert DropEmpty(a) == h + DropEmpty(a[1..]);
    } else {
      assert a + b == b;
    }
  }

  lemma {:induction false} DropEmptyKeepsUnique(docs: seq<RoomDoc>)
    requires UniqueRoomIds(docs)
    ensures UniqueRoomIds(DropEmpty(docs))
  {
    if docs != [] {
      var t := docs[1..];
      UniqueTail(docs);
      DropEmptyKeepsUnique(t);
      if docs[0].participants == [] {
        assert [] + DropEmpty(t) == DropEmpty(t);
      } else {
        HeadIdUnused(docs);
        UniqueCons(docs[0], DropEmpty(t));
      }
    }
  }

  lemma UniqueTail(docs: seq<RoomDoc>)
    requires UniqueRoomIds(docs) && docs != []
    ensures UniqueRoomIds(docs[1..])
  {
    var t := docs[1..];
    forall i, j | 0 <= i < j < |t| ensures t[i].roomId != t[j].roomId {
      assert t[i] == docs[i + 1] && t[j] == docs[j + 1];
    }
  }

  /** No later document shares the first document's room id. */
  lemma HeadIdUnused(docs: seq<RoomDoc>)
    requires UniqueRoomIds(docs) && docs != []
    ensures forall x :: x in docs[1..] ==> x.roomId != docs[0].roomId
  {
    forall x | x in docs[1..] ensures x.roomId != docs[0].roomId {
      var m :| 0 <= m < |docs[1..]| && docs[1..][m] == x;
      assert docs[m + 1] == x;
    }
  }

  lemma UniqueCons(d: RoomDoc, rest: seq<RoomDoc>)
    requires UniqueRoomIds(rest) && forall x :: x in rest ==> x.roomId != d.roomId
    ensures UniqueRoomIds([d] + rest)
  {
    var r := [d] + rest;
    forall i, j | 0 <= i < j < |r| ensures r[i].roomId != r[j].roomId {
      assert r[j] == rest[j - 1];
      if i > 0 {
        assert r[i] == rest[i - 1];
      }
    }
  }

  lemma NoEmptyAfterDrop(docs: seq<RoomDoc>)
    ensures NoEmptyRooms(DropEmpty(docs))
  {
    var r := DropEmpty(docs);
    forall i | 0 <= i < |r| ensures r[i].participants != [] {
      assert r[i] in r;
    }
  }

  lemma PullUserKeepsUnique(docs: seq<RoomDoc>, u: UserId, now: int)
    requires UniqueRoomIds(docs)
    ensures UniqueRoomIds(PullUser(docs, u, now))
  {
  }

  /** After clearing the history the user is in no room, a room shared with others
      survives without the user, a room the user was never in is untouched, and no
      room is left without participants. */
  lemma ClearHistorySpec(docs: seq<RoomDoc>, u: UserId, now: int)
    requires NoEmptyRooms(docs)
    ensures forall x :: x in DropEmpty(PullUser(docs, u, now)) ==> u !in x.participants
    ensures forall x :: x in docs && u !in x.participants ==> x in DropEmpty(PullUser(docs, u, now))
    ensures forall x :: x in docs && u in x.participants && Without(x.participants, u) != [] ==>
      x.(participants := Without(x.participants, u), updatedAt := now) in DropEmpty(PullUser(docs, u, now))
    ensures NoEmptyRooms(DropEmpty(PullUser(docs, u, now)))
  {
    var p := PullUser(docs, u, now);
    forall x | x in DropEmpty(p) ensures u !in x.participants {
      var i :| 0 <= i < |p| && p[i] == x;
    }
    forall x | x in docs && u !in x.participants ensures x in DropEmpty(p) {
      var i :| 0 <= i < |docs| && docs[i] == x;
      assert p[i] == x;
    }
    forall x | x in docs && u in x.participants && Without(x.participants, u) != []
      ensures x.(participants := Without(x.participants, u), updatedAt := now) in DropEmpty(p)
    {
      var i :| 0 <= i < |docs| && docs[i] == x;
      assert p[i] == x.(participants := Without(x.participants, u), updatedAt := now);
    }
    NoEmptyAfterDrop(p);
  }

  /** The two writes run one after the other: `pullUp` says whether `updateMany`
      succeeds and `deleteUp` whether the following `deleteMany` does.  A failing
      delete answers 500 yet leaves the pulls stored. */
  method DeleteAllRooms(db: RoomCollection, user: AuthUser, pullUp: bool, deleteUp: bool, now: int)
    returns (res: Response)
    requires db.Valid()
    modifies db
    ensures db.Valid()
    ensures !pullUp ==> res == Response(500, Message("Server error")) && db.docs == old(db.docs)
    ensures pullUp && !deleteUp ==>
      res == Response(500, Message("Server error")) && db.docs == PullUser(old(db.docs), user.id, now)
    ensures pullUp && deleteUp ==>
      && res == Response(200, Message("All rooms cleared"))
      && db.docs == DropEmpty(PullUser(old(db.docs), user.id, now))
      && NoEmptyRooms(db.docs)
  {
    if !pullUp {
      return Response(500, Message("Server error"));
    }
    PullUserKeepsUnique(db.docs, user.id, now);
    db.docs := PullUser(db.docs, user.id, now);
    if !deleteUp {
      return Response(500, Message("Server error"));
    }
    DropEmptyKeepsUnique(db.docs);
    NoEmptyAfterDrop(db.docs);
    db.docs := DropEmpty(db.docs);
    res := Response(200, Message("All rooms cleared"));
  }

  /** A failing delete after a successful pull can leave a room without
      participants stored: the one-member room of the caller is emptied but kept. */
  lemma PartialClearLeavesEmptyRoom(d: RoomDoc, u: UserId, now: int)
    requires d.participants == [u]
    ensures !NoEmptyRooms(PullUser([d], u, now))
  {
    assert PullUser([d], u, now)[0].participants == [];
  }
}
