/** The shared code editor of one client: the code buffer and the editor showing
    it, the echo guard for remote updates, the code and caret emit throttles, the
    typing indicator, the remote caret table, the run output and the caret colour. */
module CodeEditor {
  import opened JsText
  import opened Wire

  /** The template a new or refreshed buffer holds. */
  const DefaultCode: string :=
    "#include <iostream>\nusing namespace std;\n\nint main() {\n    cout << \"Hello, VOXA!\" << endl;\n    return 0;\n}\n"

  /** Gaps, in milliseconds, below which an emit is dropped. */
  const CodeEmitGap: int := 100
  const CaretEmitGap: int := 80
  /** How long the typing indicator stays after the last remote change. */
  const TypingMs: int := 2000

  // ---------------------------------------------------------------------------
  // Throttles

  /** The times at which a throttle with the given gap emits, for a run of calls
      at `calls`, starting from a last emit at `last`. */
  function EmitTimes(calls: seq<int>, last: int, gap: int): (r: seq<int>)
    decreases |calls|
  {
    if calls == [] then []
    else if calls[0] - last >= gap then [calls[0]] + EmitTimes(calls[1..], calls[0], gap)
    else EmitTimes(calls[1..], last, gap)
  }

  /** Emits are at least `gap` apart, the first at least `gap` after the start,
      and each is one of the calls. */
  lemma {:induction false} EmitTimesSpaced(calls: seq<int>, last: int, gap: int)
    ensures var r := EmitTimes(calls, last, gap);
      && (r != [] ==> r[0] - last >= gap)
      && (forall i :: 1 <= i < |r| ==> r[i] - r[i - 1] >= gap)
      && (forall t :: t in r ==> t in calls)
      && |r| <= |calls|
    decreases |calls|
  {
    if calls != [] {
      if calls[0] - last >= gap {
        EmitTimesSpaced(calls[1..], calls[0], gap);
      } else {
        EmitTimesSpaced(calls[1..], last, gap);
      }
    }
  }

  /** A call `gap` or more after the last emit is never dropped. */
  lemma EmitTimesFirst(calls: seq<int>, last: int, gap: int)
    requires calls != [] && calls[0] - last >= gap
    ensures EmitTimes(calls, last, gap) != [] && EmitTimes(calls, last, gap)[0] == calls[0]
  {
  }

  // ---------------------------------------------------------------------------
  // Caret colour

  const CursorColors: seq<string> := ["#f97316", "#06b6d4", "#ec4899", "#84cc16", "#eab308", "#8b5cf6"]

  /** The string hash of `getUserColor`: `hash = code + ((hash << 5) - hash)` over
      the characters. */
  function NameHash(s: string): int
    decreases |s|
  {
    if s == [] then 0
    else
      var h := NameHash(s[..|s| - 1]);
      (s[|s| - 1] as int) + Shl(h, 5) - h
  }

  /** `getUserColor`: every name gets one of the six caret colours, chosen by its hash. */
  method UserColor(name: string) returns (c: string)
    ensures c == CursorColors[Abs(NameHash(name)) % |CursorColors|]
    ensures c in CursorColors
  {
    var hash := 0;
    var i := 0;
    while i < |name|
      invariant 0 <= i <= |name|
      invariant hash == NameHash(name[..i])
    {
      assert name[..i + 1][..i] == name[..i];
      hash := (name[i] as int) + Shl(hash, 5) - hash;
      i := i + 1;
    }
    assert name[..i] == name;
    c := CursorColors[Abs(hash) % |CursorColors|];
  }

  // ---------------------------------------------------------------------------
  // Run output

  /** The fields of the compile service's reply that the output depends on. */
  datatype CompileReply = CompileReply(
    compilerError: Option<string>,
    programOutput: Option<string>,
    programError: Option<string>,
    status: Option<string>,
    signal: Option<string>)

  /** The outcome of the request: a reply, or a failure with its message. */
  datatype RunResult = Replied(reply: CompileReply) | NetworkError(message: string)

  const RunningMsg: string := "\U{23F3} Compiling & running...\n"
  const CompileErrorHeader: string := "\U{274C} Compilation Error:\n"
  const StderrHeader: string := "\n\U{26A0}\U{FE0F} Stderr:\n"
  const SignalHeader: string := "\n\U{23F0} Signal: "
  const NoOutput: string := "(No output)"
  const UnexpectedReply: string := "\U{274C} Unexpected response"
  const NetworkErrorHeader: string := "\U{274C} Network error: "
  const StoppedNote: string := "\n\U{1F6D1} Stopped"

  /** A signal is reported when the exit status is not "0" and a signal is given. */
  predicate SignalShown(d: CompileReply) {
    d.status != Some("0") && Truthy(d.signal)
  }

  /** The text shown for a program that ran: its output, then its error stream
      and its signal when present. */
  function RanText(d: CompileReply): (r: string)
    requires d.programOutput.Some?
    ensures IsPrefix(d.programOutput.value, r)
    ensures r == "" <==> d.programOutput.value == "" && !Truthy(d.programError) && !SignalShown(d)
    ensures Truthy(d.programError) && !SignalShown(d) ==> EndsWith(r, StderrHeader + d.programError.value)
    ensures SignalShown(d) ==> EndsWith(r, SignalHeader + d.signal.value)
  {
    var base := d.programOutput.value;
    var withErr := if Truthy(d.programError) then base + StderrHeader + d.programError.value else base;
    assert IsPrefix(base, withErr);
    var full := if SignalShown(d) then withErr + SignalHeader + d.signal.value else withErr;
    assert IsPrefix(withErr, full);
    assert Truthy(d.programError) ==> withErr[|base|..] == StderrHeader + d.programError.value;
    assert SignalShown(d) ==> full[|withErr|..] == SignalHeader + d.signal.value;
    full
  }

  predicate EndsWith(s: string, suffix: string) {
    |suffix| <= |s| && s[|s| - |suffix|..] == suffix
  }

  /** The final output of `handleRun` for a reply: a compile error wins; otherwise
      a program that ran shows its text, or "(No output)" when that is empty;
      anything else is an unexpected reply. */
  function FormatReply(d: CompileReply): (r: string)
    ensures r != ""
    ensures Truthy(d.compilerError) ==> r == CompileErrorHeader + d.compilerError.value
    ensures !Truthy(d.compilerError) && d.programOutput.None? ==> r == UnexpectedReply
    ensures !Truthy(d.compilerError) && d.programOutput.Some? ==>
      (r == NoOutput && RanText(d) == "") || (r == RanText(d) && RanText(d) != "")
  {
    if Truthy(d.compilerError) then CompileErrorHeader + d.compilerError.value
    else if d.programOutput.Some? then
      var t := RanText(d);
      if t == "" then NoOutput else t
    else UnexpectedReply
  }

  /** A program that printed nothing, wrote nothing to its error stream and was
      not stopped by a signal reports "(No output)". */
  lemma SilentRunReportsNoOutput(d: CompileReply)
    requires !Truthy(d.compilerError) && d.programOutput == Some("")
    requires !Truthy(d.programError) && !SignalShown(d)
    ensures FormatReply(d) == NoOutput
  {
  }

  function FinalOutput(res: RunResult): (r: string)
    ensures r != ""
    ensures res.NetworkError? ==> r == NetworkErrorHeader + res.message
  {
    match res
    case Replied(d) => FormatReply(d)
    case NetworkError(msg) => NetworkErrorHeader + msg
  }

  // ---------------------------------------------------------------------------
  // The editor of one client

  datatype Caret = Caret(line: int, col: int)

  class Session {
    const roomId: string
    /** This client's user name, as it tags its code and caret messages. */
    const userName: Option<string>
    /** The `code` state. */
    var code: string
    /** The text in the mounted editor, `None` before the editor mounts. */
    var editorValue: Option<string>
    /** Set only while a remote change is being applied. */
    var isRemoteUpdate: bool
    var emitTimer: int
    var caretEmitTimer: int
    var typingUser: Option<string>
    /** When the typing indicator's timer fires, if one is pending. */
    var typingDeadline: Option<int>
    var remoteCarets: map<Option<string>, Caret>
    var output: string
    var isRunning: bool
    var showOutput: bool
    var outbox: seq<ClientMessage>

    /** Between events no remote change is in progress, and a mounted editor
        shows the buffer. */
    ghost predicate Valid()
      reads this
    {
      !isRemoteUpdate && (editorValue.Some? ==> editorValue.value == code)
    }

    constructor (roomId: string, userName: Option<string>, savedCode: Option<string>)
      ensures Valid() && this.roomId == roomId && this.userName == userName
      ensures code == (if Truthy(savedCode) then savedCode.value else DefaultCode)
      ensures editorValue.None? && emitTimer == 0 && caretEmitTimer == 0
      ensures typingUser.None? && typingDeadline.None? && remoteCarets == map[]
      ensures output == "" && !isRunning && showOutput && outbox == []
    {
      this.roomId := roomId;
      this.userName := userName;
      code := OrElse(savedCode, DefaultCode);
      editorValue := None;
      isRemoteUpdate := false;
      emitTimer := 0;
      caretEmitTimer := 0;
      typingUser := None;
      typingDeadline := None;
      remoteCarets := map[];
      output := "";
      isRunning := false;
      showOutput := true;
      outbox := [];
    }

    /** The editor mounts showing the buffer. */
    method MountEditor()
      requires Valid()
      modifies this`editorValue
      ensures Valid() && editorValue == Some(code)
    {
      editorValue := Some(code);
    }

    /** `emitCode`: dropped when fewer than 100 ms have passed since the last one
        sent; the timestamp moves only when a message goes out. */
    method EmitCode(newCode: string, now: int)
      modifies this`emitTimer, this`outbox
      ensures now - old(emitTimer) < CodeEmitGap ==> emitTimer == old(emitTimer) && outbox == old(outbox)
      ensures now - old(emitTimer) >= CodeEmitGap ==>
        emitTimer == now && outbox == old(outbox) + [CodeChangeMsg(roomId, newCode, userName)]
    {
      if now - emitTimer < CodeEmitGap {
        return;
      }
      emitTimer := now;
      outbox := outbox + [CodeChangeMsg(roomId, newCode, userName)];
    }

    /** `handleCodeChange`, the editor's change callback: the buffer follows the
        editor, and the change is sent unless a remote change is being applied. */
    method HandleCodeChange(value: Option<string>, now: int)
      modifies this`code, this`emitTimer, this`outbox
      ensures code == OrElse(value, "")
      ensures old(isRemoteUpdate) ==> emitTimer == old(emitTimer) && outbox == old(outbox)
      ensures !old(isRemoteUpdate) && now - old(emitTimer) < CodeEmitGap ==>
        emitTimer == old(emitTimer) && outbox == old(outbox)
      ensures !old(isRemoteUpdate) && now - old(emitTimer) >= CodeEmitGap ==>
        emitTimer == now && outbox == old(outbox) + [CodeChangeMsg(roomId, OrElse(value, ""), userName)]
    {
      code := OrElse(value, "");
      if !isRemoteUpdate {
        EmitCode(OrElse(value, ""), now);
      }
    }

    /** A local edit in the mounted editor. */
    method LocalEdit(value: string, now: int)
      requires Valid() && editorValue.Some?
      modifies this`code, this`editorValue, this`emitTimer, this`outbox
      ensures Valid() && code == value && editorValue == Some(value)
      ensures now - old(emitTimer) < CodeEmitGap ==> emitTimer == old(emitTimer) && outbox == old(outbox)
      ensures now - old(emitTimer) >= CodeEmitGap ==>
        emitTimer == now && outbox == old(outbox) + [CodeChangeMsg(roomId, value, userName)]
    {
      editorValue := Some(value);
      HandleCodeChange(Some(value), now);
    }

    /** The typing indicator's timer fires once its deadline has passed. */
    method Advance(now: int)
      modifies this`typingUser, this`typingDeadline
      ensures old(typingDeadline).Some? && old(typingDeadline).value <= now ==>
        typingUser.None? && typingDeadline.None?
      ensures !(old(typingDeadline).Some? && old(typingDeadline).value <= now) ==>
        typingUser == old(typingUser) && typingDeadline == old(typingDeadline)
    {
      if typingDeadline.Some? && typingDeadline.value <= now {
        typingUser := None;
        typingDeadline := None;
      }
    }

    /** The remote code-change handler: the buffer is replaced wholesale, the
        editor is reset only when it differs (its change callback then runs
        under the echo guard, so nothing is sent back), and a named sender shows
        as typing for two seconds. */
    method RemoteCodeChange(newCode: string, sender: Option<string>, now: int)
      requires Valid()
      modifies this`code, this`editorValue, this`isRemoteUpdate, this`emitTimer, this`outbox,
               this`typingUser, this`typingDeadline
      ensures Valid() && code == newCode
      ensures editorValue == (if old(editorValue).Some? then Some(newCode) else None)
      ensures outbox == old(outbox) && emitTimer == old(emitTimer)
      ensures Truthy(sender) ==> typingUser == sender && typingDeadline == Some(now + TypingMs)
      ensures !Truthy(sender) && old(typingDeadline).Some? && old(typingDeadline).value <= now ==>
        typingUser.None? && typingDeadline.None?
      ensures !Truthy(sender) && !(old(typingDeadline).Some? && old(typingDeadline).value <= now) ==>
        typingUser == old(typingUser) && typingDeadline == old(typingDeadline)
    {
      Advance(now);
      isRemoteUpdate := true;
      code := newCode;
      if editorValue.Some? && editorValue.value != newCode {
        editorValue := Some(newCode);
        HandleCodeChange(Some(newCode), now);
      }
      isRemoteUpdate := false;
      if Truthy(sender) {
        typingUser := sender;
        typingDeadline := Some(now + TypingMs);
      }
    }

    /** The remote code-output handler: another user's run is shown here too. */
    method RemoteOutput(text: string, running: bool)
      modifies this`output, this`isRunning, this`showOutput
      ensures output == text && isRunning == running && showOutput
    {
      output := text;
      isRunning := running;
      showOutput := true;
    }

    /** The remote caret handler: carets tagged with this client's own name are
        ignored, others are kept per user name, the latest winning. */
    method RemoteCaret(caretUser: Option<string>, line: int, col: int)
      modifies this`remoteCarets
      ensures caretUser == userName ==> remoteCarets == old(remoteCarets)
      ensures caretUser != userName ==> remoteCarets == old(remoteCarets)[caretUser := Caret(line, col)]
    {
      if caretUser == userName {
        return;
      }
      remoteCarets := remoteCarets[caretUser := Caret(line, col)];
    }

    /** The editor's caret callback: dropped when fewer than 80 ms have passed
        since the last caret sent. */
    method CaretMoved(line: int, col: int, now: int)
      modifies this`caretEmitTimer, this`outbox
      ensures now - old(caretEmitTimer) < CaretEmitGap ==>
        caretEmitTimer == old(caretEmitTimer) && outbox == old(outbox)
      ensures now - old(caretEmitTimer) >= CaretEmitGap ==>
        caretEmitTimer == now && outbox == old(outbox) + [CursorChangeMsg(roomId, userName, line, col)]
    {
      if now - caretEmitTimer < CaretEmitGap {
        return;
      }
      caretEmitTimer := now;
      outbox := outbox + [CursorChangeMsg(roomId, userName, line, col)];
    }

    /** `handleRun` up to the request: the output panel shows the running notice,
        which the room sees too. */
    method StartRun()
      modifies this`output, this`isRunning, this`showOutput, this`outbox
      ensures output == RunningMsg && isRunning && showOutput
      ensures outbox == old(outbox) + [CodeOutputMsg(roomId, RunningMsg, true)]
    {
      isRunning := true;
      showOutput := true;
      output := RunningMsg;
      outbox := outbox + [CodeOutputMsg(roomId, RunningMsg, true)];
    }

    /** `handleRun` once the compile service has answered (or the request has
        failed): whatever the output shows by then, including a stop note, is
        replaced by the final output, and the room is told the run is over. */
    method FinishRun(res: RunResult)
      modifies this`output, this`isRunning, this`outbox
      ensures output == FinalOutput(res) && !isRunning
      ensures outbox == old(outbox) + [CodeOutputMsg(roomId, FinalOutput(res), false)]
    {
      var final := FinalOutput(res);
      output := final;
      outbox := outbox + [CodeOutputMsg(roomId, final, false)];
      isRunning := false;
    }

    /** `handleStop`: a note is appended to the output; nothing is sent and the
        pending request is not cancelled, so a later `FinishRun` still runs. */
    method Stop()
      modifies this`output, this`isRunning
      ensures output == old(output) + StoppedNote && !isRunning
    {
      output := output + StoppedNote;
      isRunning := false;
    }

    /** `handleRefresh`: back to the template, with the output cleared.  Resetting
        a mounted editor runs its change callback, even when it already shows the
        template (a throttled send tagged with the user name); the template is
        then sent unthrottled and untagged. */
    method Refresh(now: int)
      requires Valid()
      modifies this`code, this`output, this`editorValue, this`emitTimer, this`outbox
      ensures Valid() && code == DefaultCode && output == ""
      ensures editorValue == (if old(editorValue).Some? then Some(DefaultCode) else None)
      ensures var changed := old(editorValue).Some? && now - old(emitTimer) >= CodeEmitGap;
        && outbox == old(outbox) + (if changed then [CodeChangeMsg(roomId, DefaultCode, userName)] else [])
                                 + [CodeChangeMsg(roomId, DefaultCode, None)]
        && emitTimer == (if changed then now else old(emitTimer))
    {
      code := DefaultCode;
      output := "";
      if editorValue.Some? {
        editorValue := Some(DefaultCode);
        HandleCodeChange(Some(DefaultCode), now);
      }
      outbox := outbox + [CodeChangeMsg(roomId, DefaultCode, None)];
    }
  }
}
