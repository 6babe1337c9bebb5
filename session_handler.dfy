/**
 * SessionHandler: the commands that drive the conversation session. Every send
 * first reconciles the session's working directory, then resets the permission
 * mode, then issues the prompt; a failed send is reported to the webview once.
 */
module Sessions {
  import opened Wrappers
  import opened Json
  import opened Host
  import opened BaseHandler

  const SupportedTypes: seq<string> := [
    "send_message",
    "send_message_with_attachments",
    "interrupt_session",
    "restart_session",
    "create_new_session"
  ]

  const DefaultContextLimit: nat := 200000

  const ModelContextLimits: map<string, nat> := map[
    "claude-sonnet-4-5" := 200000,
    "claude-opus-4-5-20251101" := 200000
  ]

  const DefaultPermissionMode: string := "default"
  const SendFailurePrefix: string := "发送失败: "
  const NewSessionStatus: string := "新会话已创建，可以开始提问"
  const AttachmentNamePrefix: string := "attachment-"
  const DefaultMediaType: string := "application/octet-stream"

  // ----- Pure decisions -----

  /** The token budget of a model: its table entry, or 200 000 for a model not in the table. */
  function GetModelContextLimit(model: string): (limit: nat)
    ensures model in ModelContextLimits ==> limit == ModelContextLimits[model]
    ensures model !in ModelContextLimits ==> limit == DefaultContextLimit
  {
    if model in ModelContextLimits then ModelContextLimits[model] else DefaultContextLimit
  }

  /** Every model in the table, and every model outside it, gets 200 000 tokens. */
  lemma EveryModelHas200000Tokens(model: string)
    ensures GetModelContextLimit(model) == 200000
  {
  }

  /**
   * The directory a send runs in, recomputed on every send: the project's base
   * path when there is one and it exists, otherwise the user's home directory.
   */
  function DetermineWorkingDirectory(env: Env): (dir: string)
    ensures env.basePath.Some? && env.basePath.value in env.existing ==> dir == env.basePath.value
    ensures dir == env.userHome || (env.basePath == Some(dir) && dir in env.existing)
  {
    if env.basePath.Some? && env.basePath.value in env.existing then env.basePath.value else env.userHome
  }

  /** The usage the webview shows after "create new session": nothing used, the model's whole budget. */
  function NewSessionUsage(model: string): (u: Usage)
    ensures u.percentage == 0 && u.totalTokens == 0 && u.usedTokens == 0
    ensures u.limit == u.maxTokens == GetModelContextLimit(model)
  {
    var maxTokens := GetModelContextLimit(model);
    Usage(0, 0, maxTokens, 0, maxTokens)
  }

  // ----- Reading the attachment payload -----

  /** A prompt with its attachments, as read from a send_message_with_attachments payload. */
  datatype Message = Message(text: string, attachments: seq<Attachment>)

  /**
   * A string member with a default: the default when the key is missing or the
   * value is JSON null, otherwise the value read as a string (None if that throws).
   */
  function StringField(fields: map<string, Json>, key: string, default: string): (r: Option<string>)
    ensures key !in fields || fields[key].JNull? ==> r == Some(default)
    ensures key in fields && !fields[key].JNull? ==> r == AsString(fields[key])
  {
    if key in fields && !fields[key].JNull? then AsString(fields[key]) else Some(default)
  }

  /** A member that is missing or JSON null, which the handler treats alike. */
  predicate Absent(fields: map<string, Json>, key: string) {
    key !in fields || fields[key].JNull?
  }

  /**
   * One element of the attachment array: it must be an object; a missing or null
   * fileName becomes "attachment-" followed by the clock's text, a missing or null
   * mediaType "application/octet-stream", a missing or null data "".
   */
  function DecodeAttachment(element: Json, stamp: string): (r: Option<Attachment>)
    ensures !element.JObject? ==> r == None
    ensures r.Some? ==> element.JObject?
    ensures r.Some? && Absent(element.fields, "fileName") ==> r.value.fileName == AttachmentNamePrefix + stamp
    ensures r.Some? && Absent(element.fields, "mediaType") ==> r.value.mediaType == DefaultMediaType
    ensures r.Some? && Absent(element.fields, "data") ==> r.value.data == ""
    ensures r.Some? && !Absent(element.fields, "data") ==> Some(r.value.data) == AsString(element.fields["data"])
    ensures element.JObject? ==>
              (r.Some? <==> && StringField(element.fields, "fileName", AttachmentNamePrefix + stamp).Some?
                            && StringField(element.fields, "mediaType", DefaultMediaType).Some?
                            && StringField(element.fields, "data", "").Some?)
    ensures r.Some? ==>
              && Some(r.value.fileName) == StringField(element.fields, "fileName", AttachmentNamePrefix + stamp)
              && Some(r.value.mediaType) == StringField(element.fields, "mediaType", DefaultMediaType)
              && Some(r.value.data) == StringField(element.fields, "data", "")
  {
    match element
    case JObject(fields) =>
      var fileName := StringField(fields, "fileName", AttachmentNamePrefix + stamp);
      var mediaType := StringField(fields, "mediaType", DefaultMediaType);
      var data := StringField(fields, "data", "");
      if fileName.Some? && mediaType.Some? && data.Some?
      then Some(Attachment(fileName.value, mediaType.value, data.value))
      else None
    case _ => None
  }

  /**
   * The attachment list: one attachment per element, in order, each read with the
   * clock's text at its position; nothing at all when any element cannot be read.
   */
  function DecodeAttachments(elements: seq<Json>, clock: nat -> string): (r: Option<seq<Attachment>>)
    ensures r.Some? <==> forall i :: 0 <= i < |elements| ==> DecodeAttachment(elements[i], clock(i)).Some?
    ensures r.Some? ==> |r.value| == |elements|
    ensures r.Some? ==> forall i :: 0 <= i < |elements| ==> DecodeAttachment(elements[i], clock(i)) == Some(r.value[i])
  {
    if forall i :: 0 <= i < |elements| ==> DecodeAttachment(elements[i], clock(i)).Some?
    then Some(seq(|elements|, i requires 0 <= i < |elements| => DecodeAttachment(elements[i], clock(i)).value))
    else None
  }

  /** Whether a payload object carries an attachment array. */
  predicate HasAttachmentArray(fields: map<string, Json>) {
    "attachments" in fields && fields["attachments"].JArray?
  }

  /**
   * The whole payload. None stands for an exception, which sends the raw content
   * as a plain prompt instead. Gson's null (empty content) reads as an empty text
   * with no attachments; a missing or null "text" reads as ""; without an
   * attachment array there are no attachments.
   */
  function DecodePayload(doc: Parsed, clock: nat -> string): (r: Option<Message>)
    ensures doc.Malformed? ==> r == None
    ensures doc.NoDocument? ==> r == Some(Message("", []))
    ensures doc.Document? && !doc.value.JObject? ==> r == None
    ensures doc.Document? && doc.value.JObject? && r.Some? ==>
              Some(r.value.text) == StringField(doc.value.fields, "text", "")
    ensures doc.Document? && doc.value.JObject? && !HasAttachmentArray(doc.value.fields) && r.Some? ==>
              r.value.attachments == []
    ensures doc.Document? && doc.value.JObject? && HasAttachmentArray(doc.value.fields) && r.Some? ==>
              Some(r.value.attachments) == DecodeAttachments(doc.value.fields["attachments"].elems, clock)
    ensures doc.Document? && doc.value.JObject? ==>
              (r.Some? <==> && StringField(doc.value.fields, "text", "").Some?
                            && (HasAttachmentArray(doc.value.fields) ==>
                                  DecodeAttachments(doc.value.fields["attachments"].elems, clock).Some?))
  {
    match doc
    case Malformed => None
    case NoDocument => Some(Message("", []))
    case Document(JObject(fields)) =>
      var text := StringField(fields, "text", "");
      var attachments := if HasAttachmentArray(fields)
                         then DecodeAttachments(fields["attachments"].elems, clock)
                         else Some([]);
      if text.Some? && attachments.Some? then Some(Message(text.value, attachments.value)) else None
    case Document(_) => None
  }

  /** The payload shape the webview sends: every member present and a string. */
  function AttachmentJson(a: Attachment): Json {
    JObject(map["fileName" := JString(a.fileName), "mediaType" := JString(a.mediaType), "data" := JString(a.data)])
  }

  function PayloadJson(m: Message): Json {
    JObject(map[
      "text" := JString(m.text),
      "attachments" := JArray(seq(|m.attachments|, i requires 0 <= i < |m.attachments| => AttachmentJson(m.attachments[i])))
    ])
  }

  /** A fully written payload is read back as exactly the message it encodes, whatever the clock says. */
  lemma PayloadRoundTrip(m: Message, clock: nat -> string)
    ensures DecodePayload(Document(PayloadJson(m)), clock) == Some(m)
  {
    var elems := seq(|m.attachments|, i requires 0 <= i < |m.attachments| => AttachmentJson(m.attachments[i]));
    forall i | 0 <= i < |elems|
      ensures DecodeAttachment(elems[i], clock(i)) == Some(m.attachments[i])
    {
      var fields := elems[i].fields;
      assert StringField(fields, "fileName", AttachmentNamePrefix + clock(i)) == Some(m.attachments[i].fileName);
      assert StringField(fields, "mediaType", DefaultMediaType) == Some(m.attachments[i].mediaType);
      assert StringField(fields, "data", "") == Some(m.attachments[i].data);
    }
    var r := DecodeAttachments(elems, clock);
    assert r.Some?;
    assert r.value == m.attachments;
  }

  /** The element with null fileName and mediaType and data "abc" gets both defaults. */
  lemma NullFieldsTakeDefaults(stamp: string)
    ensures DecodeAttachment(JObject(map["fileName" := JNull, "mediaType" := JNull, "data" := JString("abc")]), stamp)
            == Some(Attachment(AttachmentNamePrefix + stamp, DefaultMediaType, "abc"))
  {
  }

  /**
   * Reads the payload as lines 100-123 of the handler do: the text first, then
   * the attachment array element by element, stopping at the first exception.
   */
  method ReadPayload(doc: Parsed, clock: nat -> string) returns (message: Option<Message>)
    ensures message == DecodePayload(doc, clock)
  {
    match doc {
      case Malformed =>
        return None;
      case NoDocument =>
        return Some(Message("", []));
      case Document(payload) =>
        if !payload.JObject? {
          return None;
        }
        var fields := payload.fields;
        var text := StringField(fields, "text", "");
        if text.None? {
          return None;
        }
        var attachments: seq<Attachment> := [];
        if HasAttachmentArray(fields) {
          var read := ReadAttachments(fields["attachments"].elems, clock);
          if read.None? {
            return None;
          }
          attachments := read.value;
        }
        return Some(Message(text.value, attachments));
    }
  }

  /** The indexed loop that fills the attachment list. */
  method ReadAttachments(elements: seq<Json>, clock: nat -> string) returns (atts: Option<seq<Attachment>>)
    ensures atts == DecodeAttachments(elements, clock)
  {
    var list: seq<Attachment> := [];
    var i := 0;
    while i < |elements|
      invariant 0 <= i <= |elements|
      invariant |list| == i
      invariant forall j :: 0 <= j < i ==> DecodeAttachment(elements[j], clock(j)) == Some(list[j])
    {
      var a := DecodeAttachment(elements[i], clock(i));
      if a.None? {
        return None;
      }
      list := list + [a.value];
      i := i + 1;
    }
    assert list == DecodeAttachments(elements, clock).value;
    return Some(list);
  }

  // ----- The send sequence, as a function of the state before it -----

  /** The calls one send makes on the session: set cwd only if it differs, then the mode, then the prompt. */
  function SendCalls(dir: string, cwd: Option<string>, prompt: string, attachments: Option<seq<Attachment>>): (calls: seq<SessionCall>)
    ensures |calls| == (if cwd == Some(dir) then 2 else 3)
    ensures cwd != Some(dir) ==> calls[0] == CwdSet(dir)
    ensures calls[|calls| - 2] == ModeSet(DefaultPermissionMode) && calls[|calls| - 1] == Sent(prompt, attachments)
  {
    (if cwd != Some(dir) then [CwdSet(dir)] else []) + [ModeSet(DefaultPermissionMode), Sent(prompt, attachments)]
  }

  /** The error text of a failed send; Java prints a null message as "null". */
  function SendFailureText(message: Option<string>): string {
    SendFailurePrefix + (if message.Some? then message.value else "null")
  }

  /** What the webview sees of a send: nothing when delivered, one error message when not. */
  function SendReport(result: SendResult): (effects: seq<UiEffect>)
    ensures result.Delivered? <==> effects == []
    ensures result.SendFailed? ==> effects == [Call("addErrorMessage", [Escaped(Plain(SendFailureText(result.message)))])]
  {
    match result
    case Delivered => []
    case SendFailed(message) => [Call("addErrorMessage", [EscapeJs(Plain(SendFailureText(message)))])]
  }

  /** The state after one send of `prompt` (with `attachments` on the attachment path). */
  function AfterSend(st: State, env: Env, prompt: string, attachments: Option<seq<Attachment>>, result: SendResult): (after: State)
    ensures after.session.cwd == Some(DetermineWorkingDirectory(env))
    ensures after.session.permissionMode == DefaultPermissionMode
    ensures after.session.calls == st.session.calls + SendCalls(DetermineWorkingDirectory(env), st.session.cwd, prompt, attachments)
    ensures after.ui == st.ui + SendReport(result) && after.requests == st.requests
  {
    var dir := DetermineWorkingDirectory(env);
    State(
      SessionState(Some(dir), DefaultPermissionMode, st.session.calls + SendCalls(dir, st.session.cwd, prompt, attachments)),
      st.ui + SendReport(result),
      st.requests)
  }

  /** The state after the handler has handled a command of the given type. */
  function Step(st: State, msgType: string, content: string, env: Env, replies: Replies): (after: State)
    ensures after.requests == st.requests
    ensures |st.ui| <= |after.ui| && after.ui[..|st.ui|] == st.ui
    ensures |st.session.calls| <= |after.session.calls| && after.session.calls[..|st.session.calls|] == st.session.calls
    ensures msgType == "create_new_session" || msgType !in SupportedTypes ==> after.session == st.session
  {
    match msgType
    case "send_message" => AfterSend(st, env, content, None, replies.send)
    case "send_message_with_attachments" =>
      (match DecodePayload(replies.doc, replies.clock)
       case None => AfterSend(st, env, content, None, replies.send)
       case Some(m) => AfterSend(st, env, m.text, Some(m.attachments), replies.send))
    case "interrupt_session" => st.(session := st.session.(calls := st.session.calls + [Interrupted]))
    case "restart_session" => st.(session := st.session.(calls := st.session.calls + [Restarted]))
    case "create_new_session" =>
      st.(ui := st.ui + [Call("updateStatus", [EscapeJs(Plain(NewSessionStatus))]),
                         Execute(UsageUpdate(NewSessionUsage(env.currentModel)))])
    case _ => st
  }

  // ----- Properties of the send sequence and of the command steps -----

  /**
   * One send: the cwd is set exactly when the resolved directory differs from the
   * session's, and before anything else; then the mode "default"; then the prompt,
   * last. Afterwards the session's cwd is the resolved directory and its mode "default".
   */
  lemma SendReconcilesCwdFirst(st: State, env: Env, prompt: string, attachments: Option<seq<Attachment>>, result: SendResult)
    ensures var after := AfterSend(st, env, prompt, attachments, result);
            var dir := DetermineWorkingDirectory(env);
            var added := after.session.calls[|st.session.calls|..];
            && after.session.calls[..|st.session.calls|] == st.session.calls
            && after.session.cwd == Some(dir)
            && after.session.permissionMode == DefaultPermissionMode
            && (CwdSet(dir) in added <==> st.session.cwd != Some(dir))
            && (forall k :: 0 <= k < |added| && added[k].CwdSet? ==> k == 0 && added[k] == CwdSet(dir))
            && |added| >= 2
            && added[|added| - 2] == ModeSet(DefaultPermissionMode)
            && added[|added| - 1] == Sent(prompt, attachments)
            && after.requests == st.requests
  {
    var after := AfterSend(st, env, prompt, attachments, result);
    var dir := DetermineWorkingDirectory(env);
    var added := after.session.calls[|st.session.calls|..];
    assert added == SendCalls(dir, st.session.cwd, prompt, attachments);
  }

  /** A failed send produces exactly one "addErrorMessage" with the prefixed message; a delivered one none. */
  lemma SendFailureReportedOnce(st: State, env: Env, prompt: string, attachments: Option<seq<Attachment>>, result: SendResult)
    ensures var after := AfterSend(st, env, prompt, attachments, result);
            && after.ui[..|st.ui|] == st.ui
            && (result.Delivered? ==> after.ui == st.ui)
            && (result.SendFailed? ==>
                  after.ui == st.ui + [Call("addErrorMessage", [Escaped(Plain(SendFailurePrefix + (if result.message.Some? then result.message.value else "null")))])])
  {
  }

  /**
   * Two sends in a row, with the project path changing in between: the second
   * send runs in the second resolved directory, and sets the cwd again exactly
   * when that directory differs from the first.
   */
  lemma ConsecutiveSendsEachReconcile(st: State, env1: Env, env2: Env, p1: string, p2: string,
                                      a1: Option<seq<Attachment>>, a2: Option<seq<Attachment>>,
                                      r1: SendResult, r2: SendResult)
    ensures var mid := AfterSend(st, env1, p1, a1, r1);
            var last := AfterSend(mid, env2, p2, a2, r2);
            var d1 := DetermineWorkingDirectory(env1);
            var d2 := DetermineWorkingDirectory(env2);
            && last.session.cwd == Some(d2)
            && last.session.calls[..|mid.session.calls|] == mid.session.calls
            && (CwdSet(d2) in last.session.calls[|mid.session.calls|..] <==> d1 != d2)
  {
    var mid := AfterSend(st, env1, p1, a1, r1);
    var d2 := DetermineWorkingDirectory(env2);
    SendReconcilesCwdFirst(mid, env2, p2, a2, r2);
  }

  /**
   * When the attachment payload cannot be read, the command has exactly the
   * effect of send_message with the raw content as the prompt.
   */
  lemma UnreadablePayloadFallsBackToPlainSend(st: State, content: string, env: Env, replies: Replies)
    requires DecodePayload(replies.doc, replies.clock).None?
    ensures Step(st, "send_message_with_attachments", content, env, replies) == Step(st, "send_message", content, env, replies)
  {
  }

  /** Text that is not JSON at all takes the plain path with the raw content. */
  lemma NotJsonIsSentAsPlainPrompt(st: State, content: string, env: Env, replies: Replies)
    requires replies.doc.Malformed?
    ensures Step(st, "send_message_with_attachments", content, env, replies)
            == AfterSend(st, env, content, None, replies.send)
  {
  }

  /** "create new session" touches only the webview: a status line, then the zeroed usage with the model's budget. */
  lemma CreateNewSessionReportsZeroUsage(st: State, content: string, env: Env, replies: Replies)
    ensures var after := Step(st, "create_new_session", content, env, replies);
            && after.session == st.session && after.requests == st.requests
            && |after.ui| == |st.ui| + 2
            && after.ui[|st.ui| + 1] == Execute(UsageUpdate(Usage(0, 0, GetModelContextLimit(env.currentModel), 0, GetModelContextLimit(env.currentModel))))
  {
  }

  /** A type outside the five it supports leaves everything as it was. */
  lemma UnsupportedTypeChangesNothing(st: State, msgType: string, content: string, env: Env, replies: Replies)
    requires msgType !in SupportedTypes
    ensures Step(st, msgType, content, env, replies) == st
  {
  }

  // ----- The handler -----

  class SessionHandler {
    const context: HandlerContext

    constructor (context: HandlerContext)
      ensures this.context == context
    {
      this.context := context;
    }

    /** Claims exactly its five types; performs the command's step on the context. */
    method Handle(msgType: string, content: string, env: Env, replies: Replies) returns (handled: bool)
      modifies context, context.session
      ensures handled <==> msgType in SupportedTypes
      ensures !handled ==> unchanged(context, context.session)
      ensures context.Snapshot() == Step(old(context.Snapshot()), msgType, content, env, replies)
    {
      match msgType {
        case "send_message" =>
          HandleSendMessage(content, env, replies.send);
          return true;
        case "send_message_with_attachments" =>
          HandleSendMessageWithAttachments(content, env, replies);
          return true;
        case "interrupt_session" =>
          HandleInterruptSession();
          return true;
        case "restart_session" =>
          HandleRestartSession();
          return true;
        case "create_new_session" =>
          HandleCreateNewSession(env);
          return true;
        case _ =>
          return false;
      }
    }

    method HandleSendMessage(prompt: string, env: Env, result: SendResult)
      modifies context, context.session
      ensures context.Snapshot() == AfterSend(old(context.Snapshot()), env, prompt, None, result)
    {
      ReconcileAndSend(prompt, None, env, result);
    }

    method HandleSendMessageWithAttachments(content: string, env: Env, replies: Replies)
      modifies context, context.session
      ensures context.Snapshot() == Step(old(context.Snapshot()), "send_message_with_attachments", content, env, replies)
    {
      var message := ReadPayload(replies.doc, replies.clock);
      match message {
        case None => HandleSendMessage(content, env, replies.send);
        case Some(m) => SendMessageWithAttachments(m.text, m.attachments, env, replies.send);
      }
    }

    method SendMessageWithAttachments(prompt: string, attachments: seq<Attachment>, env: Env, result: SendResult)
      modifies context, context.session
      ensures context.Snapshot() == AfterSend(old(context.Snapshot()), env, prompt, Some(attachments), result)
    {
      ReconcileAndSend(prompt, Some(attachments), env, result);
    }

    /** The body both send paths run: reconcile the cwd, reset the mode, send, report a failure. */
    method ReconcileAndSend(prompt: string, attachments: Option<seq<Attachment>>, env: Env, result: SendResult)
      modifies context, context.session
      ensures context.Snapshot() == AfterSend(old(context.Snapshot()), env, prompt, attachments, result)
    {
      var currentWorkingDir := DetermineWorkingDirectory(env);
      var previousCwd := context.session.cwd;
      if Some(currentWorkingDir) != previousCwd {
        context.session.SetCwd(currentWorkingDir);
      }
      context.session.SetPermissionMode(DefaultPermissionMode);
      context.session.Send(prompt, attachments);
      if result.SendFailed? {
        CallJavaScript(context, "addErrorMessage", [EscapeJs(Plain(SendFailureText(result.message)))]);
      }
    }

    method HandleInterruptSession()
      modifies context.session
      ensures context.session.State() == old(context.session.State()).(calls := old(context.session.calls) + [Interrupted])
    {
      context.session.Interrupt();
    }

    method HandleRestartSession()
      modifies context.session
      ensures context.session.State() == old(context.session.State()).(calls := old(context.session.calls) + [Restarted])
    {
      context.session.Restart();
    }

    method HandleCreateNewSession(env: Env)
      modifies context
      ensures context.ui == old(context.ui) + [Call("updateStatus", [EscapeJs(Plain(NewSessionStatus))]),
                                               Execute(UsageUpdate(NewSessionUsage(env.currentModel)))]
      ensures context.requests == old(context.requests)
    {
      CallJavaScript(context, "updateStatus", [EscapeJs(Plain(NewSessionStatus))]);
      context.ExecuteJavaScriptOnEdt(UsageUpdate(NewSessionUsage(env.currentModel)));
    }
  }
}
