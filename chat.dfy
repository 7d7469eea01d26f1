/** The chat log of one client: messages received from the room and messages
    this client sends, in the order they happen. */
module Chat {
  import opened JsText
  import opened Wire

  /** The message `handleSendMessage` builds from the draft, or `None` when the
      draft is blank.  `nowMs` is the clock reading that becomes its id and
      `time` the formatted local time. */
  function Outgoing(draft: string, userName: Option<string>, userId: Option<string>, nowMs: nat, time: string)
    : (r: Option<ChatMessage>)
    ensures r.None? <==> forall i :: 0 <= i < |draft| ==> IsJsSpace(draft[i])
    ensures r.Some? ==> r.value.text == Trim(draft) && r.value.text != ""
    ensures r.Some? ==> !r.value.isSystem && r.value.senderId == userId && r.value.timestamp == time
    ensures r.Some? ==> r.value.user == (if Truthy(userName) then userName.value else "Anonymous")
    ensures r.Some? ==> ParseInt10(r.value.messageId) == Some(nowMs)
  {
    TrimEmptyIff(draft);
    ParseIntOfNatToString(nowMs);
    if Trim(draft) == "" then None
    else Some(ChatMessage(NatToString(nowMs), Trim(draft), OrElse(userName, "Anonymous"), userId, time, false))
  }

  /** A sent text carries no surrounding whitespace, so trimming it on another
      client would change nothing. */
  lemma SentTextIsTrimmed(draft: string, userName: Option<string>, userId: Option<string>, nowMs: nat, time: string)
    requires Outgoing(draft, userName, userId, nowMs, time).Some?
    ensures var t := Outgoing(draft, userName, userId, nowMs, time).value.text;
      Trim(t) == t && !IsJsSpace(t[0]) && !IsJsSpace(t[|t| - 1])
  {
    var t := Outgoing(draft, userName, userId, nowMs, time).value.text;
    TrimmedEdges(draft, t);
  }

  lemma TrimmedEdges(draft: string, t: string)
    requires t == Trim(draft) && t != ""
    ensures Trim(t) == t && !IsJsSpace(t[0]) && !IsJsSpace(t[|t| - 1])
  {
    TrimIdempotent(draft);
  }

  class ChatLog {
    const roomId: string
    const userName: Option<string>
    const userId: Option<string>
    var messages: seq<ChatMessage>
    /** The input box. */
    var draft: string
    var outbox: seq<ClientMessage>

    /** The log starts from the room's saved messages, or empty when there are none. */
    constructor (roomId: string, userName: Option<string>, userId: Option<string>, saved: Option<seq<ChatMessage>>)
      ensures this.roomId == roomId && this.userName == userName && this.userId == userId
      ensures messages == (if saved.Some? then saved.value else []) && draft == "" && outbox == []
    {
      this.roomId := roomId;
      this.userName := userName;
      this.userId := userId;
      messages := if saved.Some? then saved.value else [];
      draft := "";
      outbox := [];
    }

    method Type(text: string)
      modifies this`draft
      ensures draft == text
    {
      draft := text;
    }

    /** `handleMessage`: a received message goes at the end. */
    method Receive(m: ChatMessage)
      modifies this`messages
      ensures messages == old(messages) + [m]
    {
      messages := messages + [m];
    }

    /** `handleSendMessage`: a blank draft is refused; otherwise the message is
        added to the log, then sent, and the input cleared. */
    method Send(nowMs: nat, time: string) returns (sent: bool)
      modifies this`messages, this`outbox, this`draft
      ensures var m := Outgoing(old(draft), userName, userId, nowMs, time);
        && sent == m.Some?
        && (m.None? ==> messages == old(messages) && outbox == old(outbox) && draft == old(draft))
        && (m.Some? ==> messages == old(messages) + [m.value]
                        && outbox == old(outbox) + [ChatMessageMsg(roomId, m.value)] && draft == "")
    {
      var m := Outgoing(draft, userName, userId, nowMs, time);
      if m.None? {
        return false;
      }
      messages := messages + [m.value];
      outbox := outbox + [ChatMessageMsg(roomId, m.value)];
      draft := "";
      sent := true;
    }
  }
}
