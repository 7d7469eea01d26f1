/** The persisted room record (the Mongoose `Room` schema) and the room
    collection, kept as an in-memory sequence of documents in natural order. */
module RoomRecord {
  import opened JsText
  import opened Wire

  type UserId = string

  datatype RoomDoc = RoomDoc(
    roomId: string,
    name: string,
    host: UserId,
    participants: seq<UserId>,
    isActive: bool,
    whiteboardObjects: seq<WhiteboardObject>,
    chatMessages: seq<ChatMessage>,
    codeData: string,
    createdAt: int,
    updatedAt: int)

  const DefaultRoomName: string := "Study Room"
  const DefaultCodeData: string := "// Start coding here..."

  /** The fields handed to `Room.create`; `None` is a field left undefined. */
  datatype CreateFields = CreateFields(
    roomId: Option<string>,
    name: Option<string>,
    host: Option<UserId>,
    participants: seq<UserId>)

  datatype DbError = RoomIdRequired | NameRequired | HostRequired | DuplicateKey

  datatype DbResult<T> = Ok(value: T) | Err(error: DbError)

  /** Casting and validating new-room fields against the schema: `roomId` and `name`
      are trimmed, a missing name takes its default, and a required string that is
      empty after trimming fails validation.  Every other field starts at its default. */
  function NewRoomDoc(f: CreateFields, now: int): (r: DbResult<RoomDoc>)
    ensures r.Ok? <==>
      && f.roomId.Some? && Trim(f.roomId.value) != ""
      && (f.name.None? || Trim(f.name.value) != "")
      && f.host.Some?
    ensures r.Ok? ==>
      && r.value.roomId == Trim(f.roomId.value)
      && (f.name.None? ==> r.value.name == DefaultRoomName)
      && (f.name.Some? ==> r.value.name == Trim(f.name.value))
      && r.value.host == f.host.value
      && r.value.participants == f.participants
      && r.value.isActive
      && r.value.whiteboardObjects == [] && r.value.chatMessages == []
      && r.value.codeData == DefaultCodeData
      && r.value.createdAt == now && r.value.updatedAt == now
  {
    var name := Trim(if f.name.Some? then f.name.value else DefaultRoomName);
    DefaultNameIsTrimmed();
    if f.roomId.None? || Trim(f.roomId.value) == "" then Err(RoomIdRequired)
    else if name == "" then Err(NameRequired)
    else if f.host.None? then Err(HostRequired)
    else Ok(RoomDoc(Trim(f.roomId.value), name, f.host.value, f.participants, true,
                    [], [], DefaultCodeData, now, now))
  }

  /** The default name has no surrounding whitespace, so trimming keeps it. */
  lemma DefaultNameIsTrimmed()
    ensures Trim(DefaultRoomName) == DefaultRoomName
  {
    assert TrimStart(DefaultRoomName) == DefaultRoomName;
    assert TrimEnd(DefaultRoomName) == DefaultRoomName;
  }

  // ---------------------------------------------------------------------------
  // Queries and updates on the collection (first match, as findOne/updateOne do)

  ghost predicate UniqueRoomIds(docs: seq<RoomDoc>) {
    forall i, j :: 0 <= i < j < |docs| ==> docs[i].roomId != docs[j].roomId
  }

  /** `findOne({ roomId })`: the position of the first document with that id. */
  function IndexOfRoom(docs: seq<RoomDoc>, roomId: string): (r: Option<nat>)
    ensures r.Some? ==> r.value < |docs| && docs[r.value].roomId == roomId
    ensures r.Some? ==> forall j :: 0 <= j < r.value ==> docs[j].roomId != roomId
    ensures r.None? ==> forall j :: 0 <= j < |docs| ==> docs[j].roomId != roomId
  {
    if docs == [] then None
    else if docs[0].roomId == roomId then Some(0)
    else match IndexOfRoom(docs[1..], roomId)
      case None => None
      case Some(k) => Some(k + 1)
  }

  predicate HasRoom(docs: seq<RoomDoc>, roomId: string) {
    IndexOfRoom(docs, roomId).Some?
  }

  /** Removing the document at position k (`deleteOne`). */
  function RemoveAt(docs: seq<RoomDoc>, k: nat): (r: seq<RoomDoc>)
    requires k < |docs|
    ensures |r| == |docs| - 1
    ensures forall i :: 0 <= i < k ==> r[i] == docs[i]
    ensures forall i :: k <= i < |r| ==> r[i] == docs[i + 1]
  {
    docs[..k] + docs[k + 1..]
  }

  /** Writing back a document under its own room id keeps the ids unique. */
  lemma ReplaceKeepsUnique(docs: seq<RoomDoc>, k: nat, d: RoomDoc)
    requires UniqueRoomIds(docs) && k < |docs| && d.roomId == docs[k].roomId
    ensures UniqueRoomIds(docs[k := d])
  {
    var r := docs[k := d];
    forall i, j | 0 <= i < j < |r| ensures r[i].roomId != r[j].roomId {
      assert r[i].roomId == docs[i].roomId && r[j].roomId == docs[j].roomId;
    }
  }

  /** Appending a document under an unused room id keeps the ids unique. */
  lemma AppendKeepsUnique(docs: seq<RoomDoc>, d: RoomDoc)
    requires UniqueRoomIds(docs) && forall j :: 0 <= j < |docs| ==> docs[j].roomId != d.roomId
    ensures UniqueRoomIds(docs + [d])
  {
    var r := docs + [d];
    forall i, j | 0 <= i < j < |r| ensures r[i].roomId != r[j].roomId {
      assert r[i] == docs[i];
      if j < |docs| {
        assert r[j] == docs[j];
      }
    }
  }

  /** Deleting a document keeps the ids unique. */
  lemma RemoveKeepsUnique(docs: seq<RoomDoc>, k: nat)
    requires UniqueRoomIds(docs) && k < |docs|
    ensures UniqueRoomIds(RemoveAt(docs, k))
  {
    var r := RemoveAt(docs, k);
    forall i, j | 0 <= i < j < |r| ensures r[i].roomId != r[j].roomId {
      var i', j' := if i < k then i else i + 1, if j < k then j else j + 1;
      assert r[i] == docs[i'] && r[j] == docs[j'];
    }
  }

  /** The room collection: Mongo's documents in natural (insertion) order. */
  class RoomCollection {
    var docs: seq<RoomDoc>

    ghost predicate Valid()
      reads this
    {
      UniqueRoomIds(docs)
    }

    constructor ()
      ensures Valid() && docs == []
    {
      docs := [];
    }

    /** `Room.create`: schema validation, then the unique index on `roomId`. */
    method Create(f: CreateFields, now: int) returns (r: DbResult<RoomDoc>)
      requires Valid()
      modifies this
      ensures Valid()
      ensures NewRoomDoc(f, now).Err? ==> r == NewRoomDoc(f, now) && docs == old(docs)
      ensures NewRoomDoc(f, now).Ok? && HasRoom(old(docs), NewRoomDoc(f, now).value.roomId) ==>
        r == Err(DuplicateKey) && docs == old(docs)
      ensures NewRoomDoc(f, now).Ok? && !HasRoom(old(docs), NewRoomDoc(f, now).value.roomId) ==>
        r == NewRoomDoc(f, now) && docs == old(docs) + [r.value]
    {
      r := NewRoomDoc(f, now);
      if r.Ok? {
        if HasRoom(docs, r.value.roomId) {
          r := Err(DuplicateKey);
        } else {
          var d := r.value;
          AppendKeepsUnique(docs, d);
          docs := docs + [d];
        }
      }
    }
  }
}
