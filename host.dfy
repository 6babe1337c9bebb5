/**
 * The boundary the handlers work against: the conversation session object, the
 * shared handler context (webview bridge and the calls into other services), the
 * host environment read per command, and the answers the collaborators give.
 * None of these collaborators' own code is modelled; they record what the
 * handlers ask of them, in order, so that contracts can speak of it.
 */
module Host {
  import opened Wrappers
  import opened Json

  /** A file attached to a prompt (ClaudeSession.Attachment). */
  datatype Attachment = Attachment(fileName: string, mediaType: string, data: string)

  /**
   * One call made on the session, in the order made. `attachments` is None for the
   * plain `send(prompt)` overload and Some for `send(prompt, attachments)`.
   */
  datatype SessionCall =
    | CwdSet(path: string)
    | ModeSet(mode: string)
    | Sent(prompt: string, attachments: Option<seq<Attachment>>)
    | Interrupted
    | Restarted

  /** The part of the session the handlers see: cwd (null until first set), permission mode, calls. */
  datatype SessionState = SessionState(cwd: Option<string>, permissionMode: string, calls: seq<SessionCall>)

  /** The long-lived conversation session shared by all commands. */
  class Session {
    var cwd: Option<string>
    var permissionMode: string
    var calls: seq<SessionCall>

    constructor (cwd: Option<string>, permissionMode: string)
      ensures State() == SessionState(cwd, permissionMode, [])
    {
      this.cwd := cwd;
      this.permissionMode := permissionMode;
      calls := [];
    }

    function State(): SessionState
      reads this
    {
      SessionState(cwd, permissionMode, calls)
    }

    method SetCwd(path: string)
      modifies this
      ensures State() == SessionState(Some(path), old(permissionMode), old(calls) + [CwdSet(path)])
    {
      cwd := Some(path);
      calls := calls + [CwdSet(path)];
    }

    method SetPermissionMode(mode: string)
      modifies this
      ensures State() == SessionState(old(cwd), mode, old(calls) + [ModeSet(mode)])
    {
      permissionMode := mode;
      calls := calls + [ModeSet(mode)];
    }

    /** Issues a prompt; what the session does with it arrives later as a SendResult. */
    method Send(prompt: string, attachments: Option<seq<Attachment>>)
      modifies this
      ensures State() == SessionState(old(cwd), old(permissionMode), old(calls) + [Sent(prompt, attachments)])
    {
      calls := calls + [Sent(prompt, attachments)];
    }

    method Interrupt()
      modifies this
      ensures State() == SessionState(old(cwd), old(permissionMode), old(calls) + [Interrupted])
    {
      calls := calls + [Interrupted];
    }

    method Restart()
      modifies this
      ensures State() == SessionState(old(cwd), old(permissionMode), old(calls) + [Restarted])
    {
      calls := calls + [Restarted];
    }
  }

  /** A string handed to the webview bridge: plain text, or Gson's JSON text of a tree. */
  datatype Text = Plain(s: string) | JsonText(value: Json)

  /** The context's `escapeJs` applied to a text; how it escapes is not modelled. */
  datatype Escaped = Escaped(raw: Text)

  /** The token-usage record the webview shows. */
  datatype Usage = Usage(percentage: int, totalTokens: int, limit: int, usedTokens: int, maxTokens: int)

  /** Generated script run in the webview; only the data it carries is modelled, not its text. */
  datatype Script =
    | HistoryData(json: Escaped)
    | HistoryError(error: Escaped)
    | UsageUpdate(usage: Usage)

  /** One thing the webview is made to do, in the order it happens. */
  datatype UiEffect = Call(name: string, args: seq<Escaped>) | Execute(script: Script)

  /** Identity of a registered session-load callback (HistoryHandler.SessionLoadCallback). */
  datatype Callback = Callback(id: nat)

  /** One call into a collaborator the handlers do not own, in the order made. */
  datatype Request =
    | GetAllSkills(root: Option<string>)
    | ChooseSkillFiles
    | ImportSkills(paths: seq<string>, scope: string, root: Option<string>)
    | DeleteSkill(name: string, scope: string, enabled: bool, root: Option<string>)
    | ToggleSkill(name: string, scope: string, enabled: bool, root: Option<string>)
    | OpenInEditor(path: string)
    | ReadHistory(root: Option<string>)
    | LoadSession(callback: Callback, sessionId: string, projectPath: Option<string>)

  /** A value snapshot of a handler context and its session. */
  datatype State = State(session: SessionState, ui: seq<UiEffect>, requests: seq<Request>)

  /** The context every handler is built with (HandlerContext). */
  class HandlerContext {
    const session: Session
    var ui: seq<UiEffect>
    var requests: seq<Request>

    constructor (session: Session)
      ensures this.session == session && ui == [] && requests == []
    {
      this.session := session;
      ui := [];
      requests := [];
    }

    function Snapshot(): State
      reads this, session
    {
      State(session.State(), ui, requests)
    }

    /** Invokes a named webview function with already escaped arguments. */
    method CallJavaScript(name: string, args: seq<Escaped>)
      modifies this
      ensures ui == old(ui) + [Call(name, args)] && requests == old(requests)
    {
      ui := ui + [Call(name, args)];
    }

    method ExecuteJavaScriptOnEdt(script: Script)
      modifies this
      ensures ui == old(ui) + [Execute(script)] && requests == old(requests)
    {
      ui := ui + [Execute(script)];
    }

    /** Records a call into a collaborator. */
    method Record(request: Request)
      modifies this
      ensures requests == old(requests) + [request] && ui == old(ui)
    {
      requests := requests + [request];
    }
  }

  /**
   * The host values a command reads: the project's base path (null when there is
   * none), the paths that exist and those that are directories, the `user.home`
   * and `user.dir` properties, and the model currently selected.
   */
  datatype Env = Env(
    basePath: Option<string>,
    existing: set<string>,
    directories: set<string>,
    userHome: string,
    userDir: string,
    currentModel: string)

  /** How the session's asynchronous answer to a send ends; a failure carries the exception's message. */
  datatype SendResult = Delivered | SendFailed(message: Option<string>)

  /** A collaborator's answer, or the message of the exception it threw (null allowed). */
  datatype Reply<T> = Answer(value: T) | Raised(message: Option<string>)

  /** The outcome of the file chooser: cancelled, or approved with the selected paths in order. */
  datatype Dialog = Cancelled | Approved(files: seq<string>)

  /**
   * The answers the outside world gives while one command is handled:
   * what Gson made of the content, the message of an exception raised while
   * reading it, the clock's decimal text when attachment i is read, the send
   * result, the skill service's and the history reader's answers, the dialog.
   */
  datatype Replies = Replies(
    doc: Parsed,
    fault: Option<string>,
    clock: nat -> string,
    send: SendResult,
    skills: Reply<Json>,
    dialog: Dialog,
    history: Reply<string>)
}
