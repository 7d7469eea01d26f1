/** The dashboard's formatting and list rules: the greeting, the first name,
    the age label and hue of a room card, the room-code input, the avatar row
    and the recent-rooms list after a removal. */
module Dashboard {
  import opened JsText

  // ---------------------------------------------------------------------------
  // Greeting and name

  /** The greeting for the local hour `h`. */
  function Greeting(h: int): (r: string)
    ensures r == "Good morning" <==> h < 12
    ensures r == "Good afternoon" <==> 12 <= h < 17
    ensures r == "Good evening" <==> h >= 17
  {
    if h < 12 then "Good morning"
    else if h < 17 then "Good afternoon"
    else "Good evening"
  }

  /** `s.split(sep)[0]`: the text before the first separator. */
  function BeforeFirst(s: string, sep: char): (r: string)
    ensures |r| <= |s| && r == s[..|r|]
    ensures sep !in r
    ensures |r| < |s| ==> s[|r|] == sep
  {
    if s == [] || s[0] == sep then [] else [s[0]] + BeforeFirst(s[1..], sep)
  }

  /** `user?.name?.split(" ")[0] || "there"`. */
  function FirstName(name: Option<string>): (r: string)
    ensures r != ""
    ensures ' ' !in r || r == "there"
  {
    if name.Some? then OrElse(Some(BeforeFirst(name.value, ' ')), "there") else "there"
  }

  /** A name without spaces greets with the whole name. */
  lemma FirstNameOfSingleWord(name: string)
    requires name != "" && ' ' !in name
    ensures FirstName(Some(name)) == name
  {
  }

  // ---------------------------------------------------------------------------
  // Age label

  datatype Unit = JustNow | Minutes | Hours | Days

  datatype Age = Age(count: nat, unit: Unit)

  const MinuteMs: int := 60000
  const HourMs: int := 3600000
  const DayMs: int := 86400000

  /** The age of a card whose last update was `elapsed` ms ago: whole minutes
      below an hour, whole hours below a day, whole days beyond. */
  function AgeOf(elapsed: int): (a: Age)
    ensures a.unit == JustNow <==> elapsed < MinuteMs
    ensures a.unit == Minutes ==> 1 <= a.count < 60 && a.count * MinuteMs <= elapsed < (a.count + 1) * MinuteMs
    ensures a.unit == Hours ==> 1 <= a.count < 24 && a.count * HourMs <= elapsed < (a.count + 1) * HourMs
    ensures a.unit == Days ==> 1 <= a.count && a.count * DayMs <= elapsed < (a.count + 1) * DayMs
  {
    // `Math.floor` of a quotient by a positive divisor is Dafny's `/`.
    var mins := elapsed / MinuteMs;
    if mins < 1 then Age(0, JustNow)
    else if mins < 60 then Age(mins, Minutes)
    else
      var hrs := mins / 60;
      if hrs < 24 then Age(hrs, Hours) else Age(hrs / 24, Days)
  }

  /** The text of an age. */
  function Label(a: Age): (r: string)
  {
    match a.unit
    case JustNow => "Just now"
    case Minutes => NatToString(a.count) + "m ago"
    case Hours => NatToString(a.count) + "h ago"
    case Days => NatToString(a.count) + "d ago"
  }

  /** The label of a card updated at `updatedAt` (`None` when the date does not
      parse), seen at `now`. */
  function AgoText(updatedAt: Option<int>, now: int): (r: string)
  {
    if updatedAt.None? then "NaNd ago" else Label(AgeOf(now - updatedAt.value))
  }

  /** The number at the head of a label is the age's count in its unit. */
  lemma LabelShowsCount(a: Age)
    ensures a.unit == JustNow <==> Label(a) == "Just now"
    ensures a.unit != JustNow ==> ParseInt10(Label(a)) == Some(a.count)
  {
    if a.unit != JustNow {
      var suffix := match a.unit case Minutes => "m ago" case Hours => "h ago" case _ => "d ago";
      assert Label(a) == NatToString(a.count) + suffix;
      ParseIntOfNatToStringThen(a.count, suffix);
      assert IsDigit(Label(a)[0]);
    }
  }

  // ---------------------------------------------------------------------------
  // Card hue

  /** `charCodeAt(0)` of one code point: the code point itself in the basic
      plane, its high surrogate beyond. */
  function CharCode(c: char): (r: nat)
    ensures r < 0x10000
    ensures c as int < 0x10000 ==> r == c as int
  {
    if c as int < 0x10000 then c as int else 0xD800 + (c as int - 0x10000) / 0x400
  }

  /** The `reduce` over the code points of the room id. */
  function CodeSum(s: string): (r: nat)
  {
    if s == [] then 0 else CodeSum(s[..|s| - 1]) + CharCode(s[|s| - 1])
  }

  /** The hue of a card. */
  function Hue(roomId: string): (r: nat)
    ensures r < 360
  {
    CodeSum(roomId) % 360
  }

  /** The sum splits over concatenation. */
  lemma {:induction false} CodeSumAppend(s: string, t: string)
    ensures CodeSum(s + t) == CodeSum(s) + CodeSum(t)
    decreases |t|
  {
    if t == [] {
      assert s + t == s;
    } else {
      var t' := t[..|t| - 1];
      assert (s + t)[..|s + t| - 1] == s + t';
      assert (s + t)[|s + t| - 1] == t[|t| - 1];
      CodeSumAppend(s, t');
    }
  }

  /** The hue depends on the characters and not on where the id is cut and
      rotated: `ab` and `ba` share a colour. */
  lemma HueOfRotation(s: string, t: string)
    ensures Hue(s + t) == Hue(t + s)
  {
    CodeSumAppend(s, t);
    CodeSumAppend(t, s);
  }

  // ---------------------------------------------------------------------------
  // Room-code input

  const CodeLength: nat := 6

  /** The input's value after typing `typed`: at most six characters, upper-cased. */
  function TypedCode(typed: string): (r: string)
    ensures |r| == if |typed| <= CodeLength then |typed| else CodeLength
    ensures forall i :: 0 <= i < |r| ==> r[i] == UpperChar(typed[i])
  {
    ToUpper(if |typed| <= CodeLength then typed else typed[..CodeLength])
  }

  /** Re-typing the shown value leaves it unchanged. */
  lemma TypedCodeIdempotent(typed: string)
    ensures TypedCode(TypedCode(typed)) == TypedCode(typed)
  {
  }

  /** The code sent to the server on submit, if any: the submit button (and so
      implicit submission) is enabled only when `roomCode.length`, counted in
      UTF-16 code units, is exactly six, and a code that trims to nothing is not
      sent. */
  function JoinRequest(code: string): (r: Option<string>)
    ensures r.Some? ==> r.value == code && Utf16Length(r.value) == CodeLength
    ensures r.None? <==> Utf16Length(code) != CodeLength || forall i :: 0 <= i < |code| ==> IsJsSpace(code[i])
  {
    TrimEmptyIff(code);
    if Utf16Length(code) != CodeLength then None
    else if Trim(code) == "" then None
    else Some(code)
  }

  /** The message shown when joining fails. */
  function JoinFailure(message: Option<string>): (r: string)
    ensures r != ""
    ensures Truthy(message) ==> r == message.value
  {
    OrElse(message, "Failed to join room")
  }

  // ---------------------------------------------------------------------------
  // Avatars

  datatype Member = Member(name: Option<string>, email: Option<string>)

  /** `room.participants?.slice(0, 3)`. */
  function ShownAvatars(ps: Option<seq<Member>>): (r: seq<Member>)
    ensures |r| <= 3
    ensures ps.None? ==> r == []
    ensures ps.Some? ==> |r| <= |ps.value| && r == ps.value[..|r|] && (|r| == 3 || r == ps.value)
  {
    if ps.None? then [] else if |ps.value| <= 3 then ps.value else ps.value[..3]
  }

  /** The `+n` badge after the avatars. */
  function Badge(ps: Option<seq<Member>>): (r: Option<string>)
  {
    if ps.Some? && |ps.value| > 3 then Some("+" + NatToString(|ps.value| - 3)) else None
  }

  /** The "0 Active" note. */
  predicate NoOneActive(ps: Option<seq<Member>>) {
    ps.None? || |ps.value| == 0
  }

  /** The avatars and the badge account for every participant, exactly; the
      note appears only when there are neither. */
  lemma AvatarsAccountForEveryone(ps: Option<seq<Member>>)
    ensures ps.Some? && Badge(ps).None? ==> |ShownAvatars(ps)| == |ps.value|
    ensures Badge(ps).Some? ==> ParseInt10(Badge(ps).value) == Some(|ps.value| - |ShownAvatars(ps)|)
    ensures NoOneActive(ps) <==> ShownAvatars(ps) == [] && Badge(ps).None?
  {
    if Badge(ps).Some? {
      PlusCountParses(|ps.value| - 3);
    }
  }

  lemma PlusCountParses(k: nat)
    ensures ParseInt10("+" + NatToString(k)) == Some(k)
  {
    var d := NatToString(k);
    var b := "+" + d;
    assert !IsJsSpace(b[0]);
    assert TrimStart(b) == b;
    assert b[1..] == d;
    assert d + "" == d;
    DigitsPrefixThen(d, "");
    NatToStringRoundTrip(k);
  }

  /** The name used for an avatar without a picture:
      `p.name || p.email?.split('@')[0] || "U"`. */
  function AvatarName(m: Member): (r: string)
    ensures r != ""
    ensures Truthy(m.name) ==> r == m.name.value
    ensures !Truthy(m.name) && m.email.None? ==> r == "U"
  {
    if Truthy(m.name) then m.name.value
    else if m.email.Some? then OrElse(Some(BeforeFirst(m.email.value, '@')), "U")
    else "U"
  }

  // ---------------------------------------------------------------------------
  // Recent rooms

  datatype Card = Card(roomId: string, name: string, updatedAt: Option<int>, participants: Option<seq<Member>>)

  datatype Note = Success(text: string) | Failure(text: string)

  /** `prev.filter(r => r.roomId !== roomId)`. */
  function WithoutRoom(rooms: seq<Card>, roomId: string): (r: seq<Card>)
    ensures |r| <= |rooms|
    ensures forall c {:trigger c in r} :: c in r <==> c in rooms && c.roomId != roomId
    ensures forall c {:trigger multiset(r)[c]} :: multiset(r)[c] == if c.roomId == roomId then 0 else multiset(rooms)[c]
  {
    if rooms == [] then []
    else
      assert rooms == [rooms[0]] + rooms[1..];
      (if rooms[0].roomId != roomId then [rooms[0]] else []) + WithoutRoom(rooms[1..], roomId)
  }

  /** The filter keeps the list's order: filtering a concatenation filters each part. */
  lemma {:induction false} WithoutRoomAppend(a: seq<Card>, b: seq<Card>, roomId: string)
    ensures WithoutRoom(a + b, roomId) == WithoutRoom(a, roomId) + WithoutRoom(b, roomId)
  {
    if a != [] {
      WithoutRoomAppend(a[1..], b, roomId);
      assert (a + b)[0] == a[0] && (a + b)[1..] == a[1..] + b;
      var h := if a[0].roomId == roomId then [] else [a[0]];
      assert WithoutRoom(a + b, roomId) == h + (WithoutRoom(a[1..], roomId) + WithoutRoom(b, roomId));
      assert WithoutRoom(a, roomId) == h + WithoutRoom(a[1..], roomId);
    } else {
      assert a + b == b;
    }
  }

  /** Removing a room that is not listed keeps the list as it is. */
  lemma {:induction false} WithoutAbsentRoom(rooms: seq<Card>, roomId: string)
    requires forall c :: c in rooms ==> c.roomId != roomId
    ensures WithoutRoom(rooms, roomId) == rooms
  {
    if rooms != [] {
      WithoutAbsentRoom(rooms[1..], roomId);
    }
  }

  /** A second removal of the same room changes nothing. */
  lemma WithoutRoomIdempotent(rooms: seq<Card>, roomId: string)
    ensures WithoutRoom(WithoutRoom(rooms, roomId), roomId) == WithoutRoom(rooms, roomId)
  {
    WithoutAbsentRoom(WithoutRoom(rooms, roomId), roomId);
  }

  /** `handleDeleteRoom`: the card leaves the list only once the server removed
      the room. */
  function DeleteRoom(rooms: seq<Card>, roomId: string, serverOk: bool): (r: (seq<Card>, Note))
    ensures serverOk ==> r.0 == WithoutRoom(rooms, roomId)
    ensures serverOk ==> forall c :: c in r.0 <==> c in rooms && c.roomId != roomId
    ensures !serverOk ==> r.0 == rooms
    ensures r.1.Success? <==> serverOk
  {
    if serverOk then (WithoutRoom(rooms, roomId), Success("Room removed"))
    else (rooms, Failure("Failed to remove room"))
  }

  /** `handleDeleteAll`: the list empties only once the server cleared it. */
  function DeleteAll(rooms: seq<Card>, serverOk: bool): (r: (seq<Card>, Note))
    ensures serverOk ==> r.0 == []
    ensures !serverOk ==> r.0 == rooms
    ensures r.1.Success? <==> serverOk
  {
    if serverOk then ([], Success("All rooms cleared"))
    else (rooms, Failure("Failed to clear rooms"))
  }
}
