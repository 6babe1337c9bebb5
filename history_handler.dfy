/**
 * HistoryHandler: loading the project's conversation history into the webview,
 * and handing a chosen session to the replaceable load-session callback.
 */
module History {
  import opened Wrappers
  import opened Host
  import opened BaseHandler

  const SupportedTypes: seq<string> := [
    "load_history_data",
    "load_session"
  ]

  const UnknownError: string := "未知错误"

  /** The message the history error report carries: the exception's, or "未知错误" when it has none. */
  function ErrorMessage(message: Option<string>): (text: string)
    ensures message.Some? ==> text == message.value
    ensures message.None? ==> text == UnknownError
  {
    if message.Some? then message.value else UnknownError
  }

  /** Reads the project's history, then injects it, or reports why it could not be read. */
  function LoadHistoryStep(st: State, env: Env, replies: Replies): (after: State)
    ensures after.session == st.session
    ensures after.requests == st.requests + [ReadHistory(env.basePath)]
    ensures |after.ui| == |st.ui| + 1 && after.ui[..|st.ui|] == st.ui
    ensures replies.history.Answer? ==> after.ui[|st.ui|] == Execute(HistoryData(Escaped(Plain(replies.history.value))))
    ensures replies.history.Raised? ==> after.ui[|st.ui|] == Execute(HistoryError(Escaped(Plain(ErrorMessage(replies.history.message)))))
  {
    var script := match replies.history
                  case Answer(historyJson) => HistoryData(EscapeJs(Plain(historyJson)))
                  case Raised(message) => HistoryError(EscapeJs(Plain(ErrorMessage(message))));
    st.(requests := st.requests + [ReadHistory(env.basePath)], ui := st.ui + [Execute(script)])
  }

  /** Hands the session id and the project path to the callback, when one is set. */
  function LoadSessionStep(st: State, callback: Option<Callback>, sessionId: string, env: Env): (after: State)
    ensures after.session == st.session && after.ui == st.ui
    ensures callback.None? ==> after == st
    ensures callback.Some? ==> after.requests == st.requests + [LoadSession(callback.value, sessionId, env.basePath)]
  {
    match callback
    case None => st
    case Some(cb) => st.(requests := st.requests + [LoadSession(cb, sessionId, env.basePath)])
  }

  /** The state after the handler, holding `callback`, has handled a command of the given type. */
  function Step(st: State, callback: Option<Callback>, msgType: string, content: string, env: Env, replies: Replies): (after: State)
    ensures after.session == st.session
    ensures |st.ui| <= |after.ui| && after.ui[..|st.ui|] == st.ui
    ensures |st.requests| <= |after.requests| && after.requests[..|st.requests|] == st.requests
  {
    match msgType
    case "load_history_data" => LoadHistoryStep(st, env, replies)
    case "load_session" => LoadSessionStep(st, callback, content, env)
    case _ => st
  }

  /**
   * load_session invokes the callback that is set exactly once, with the content
   * as session id and the project's base path; with no callback it does nothing.
   */
  lemma LoadSessionCallsCallbackOnce(st: State, callback: Option<Callback>, content: string, env: Env, replies: Replies)
    ensures var after := Step(st, callback, "load_session", content, env, replies);
            && after.ui == st.ui && after.session == st.session
            && (callback.None? ==> after == st)
            && (callback.Some? ==> after.requests == st.requests + [LoadSession(callback.value, content, env.basePath)])
  {
  }

  /** A failed history load reports `{success: false, error: msg}` with the fallback message. */
  lemma FailedLoadReportsError(st: State, content: string, callback: Option<Callback>, env: Env, replies: Replies)
    requires replies.history.Raised?
    ensures var after := Step(st, callback, "load_history_data", content, env, replies);
            after.ui == st.ui + [Execute(HistoryError(Escaped(Plain(ErrorMessage(replies.history.message)))))]
  {
  }

  lemma UnsupportedTypeChangesNothing(st: State, callback: Option<Callback>, msgType: string, content: string, env: Env, replies: Replies)
    requires msgType !in SupportedTypes
    ensures Step(st, callback, msgType, content, env, replies) == st
  {
  }

  class HistoryHandler {
    const context: HandlerContext
    var sessionLoadCallback: Option<Callback>

    constructor (context: HandlerContext)
      ensures this.context == context && sessionLoadCallback == None
    {
      this.context := context;
      sessionLoadCallback := None;
    }

    /** Replaces the stored callback; later loads use this one. */
    method SetSessionLoadCallback(callback: Option<Callback>)
      modifies this
      ensures sessionLoadCallback == callback
    {
      sessionLoadCallback := callback;
    }

    /** Claims exactly its two types; performs the command's step on the context. */
    method Handle(msgType: string, content: string, env: Env, replies: Replies) returns (handled: bool)
      modifies context
      ensures handled <==> msgType in SupportedTypes
      ensures !handled ==> unchanged(context, context.session)
      ensures context.Snapshot() == Step(old(context.Snapshot()), sessionLoadCallback, msgType, content, env, replies)
    {
      match msgType {
        case "load_history_data" =>
          HandleLoadHistoryData(env, replies);
          return true;
        case "load_session" =>
          HandleLoadSession(content, env);
          return true;
        case _ =>
          return false;
      }
    }

    method HandleLoadHistoryData(env: Env, replies: Replies)
      modifies context
      ensures context.Snapshot() == LoadHistoryStep(old(context.Snapshot()), env, replies)
    {
      context.Record(ReadHistory(env.basePath));
      match replies.history {
        case Answer(historyJson) =>
          context.ExecuteJavaScriptOnEdt(HistoryData(EscapeJs(Plain(historyJson))));
        case Raised(message) =>
          var errorMsg := EscapeJs(Plain(ErrorMessage(message)));
          context.ExecuteJavaScriptOnEdt(HistoryError(errorMsg));
      }
    }

    method HandleLoadSession(sessionId: string, env: Env)
      modifies context
      ensures context.Snapshot() == LoadSessionStep(old(context.Snapshot()), sessionLoadCallback, sessionId, env)
    {
      var projectPath := env.basePath;
      if sessionLoadCallback.Some? {
        context.Record(LoadSession(sessionLoadCallback.value, sessionId, projectPath));
      }
    }
  }

  /** Setting a callback twice and then loading uses the second one only. */
  method LatestCallbackWins(handler: HistoryHandler, first: Callback, second: Callback, sessionId: string, env: Env, replies: Replies)
    modifies handler, handler.context
    ensures handler.context.requests == old(handler.context.requests) + [LoadSession(second, sessionId, env.basePath)]
    ensures handler.context.ui == old(handler.context.ui)
  {
    handler.SetSessionLoadCallback(Some(first));
    handler.SetSessionLoadCallback(Some(second));
    var handled := handler.Handle("load_session", sessionId, env, replies);
  }
}
