# Command routing and handlers of the Claude Code GUI plugin backend

The IntelliJ plugin's webview sends the Java side commands as `(type, content)`
string pairs. A `MessageDispatcher` holds an ordered list of `MessageHandler`s
and gives each command to the first handler whose `handle` claims it. This
project models the dispatcher and four handler classes:

- `SessionHandler` sends prompts, with or without attachments, and interrupts,
  restarts or resets the conversation session.
- `SkillHandler` lists, imports, deletes, toggles and opens skills.
- `HistoryHandler` loads the history and passes a chosen session to a
  load-session callback that can be replaced.
- `BaseMessageHandler` is the common base: type matching and helpers that
  forward to the handler context.

Files and modules:

- `json.dfy`, module `Json`: the Gson tree the handlers read (`Json`), what
  `fromJson(content, JsonObject.class)` gives back (`Parsed`), and Gson's
  `getAsString` and `getAsBoolean` readers. Module `Wrappers` holds `Option`;
  `None` stands for a Java `null` or an absent value.
- `host.dfy`, module `Host`: what the handlers work against.
  - `Session` is the conversation session: cwd, permission mode, and a log of
    the calls made on it.
  - `HandlerContext` records the JavaScript sent to the webview (`ui`) and the
    calls into services, dialogs, the editor and the callback (`requests`).
  - `Env` is the environment: project base path, the file system's `exists`
    and `isDirectory` as sets, `user.home`, `user.dir`, and the current model.
  - `Replies` holds what the collaborators answer: Gson's reading of the
    content, exception messages, the clock, the send outcome, service replies
    and the dialog result.
- `base_handler.dfy`, module `BaseHandler`: `matchesType` and the forwarding helpers.
- `session_handler.dfy`, module `Sessions`, with these parts:
  - working-directory resolution;
  - the model-to-context-limit table;
  - the attachment payload decoder with its per-field defaults;
  - the send sequence: reconcile the cwd, then set permission mode `"default"`,
    then send, then report a failure;
  - the fallback to a plain send;
  - the usage record sent on "create new session";
  - the `SessionHandler` class.
- `skill_handler.dfy`, module `Skills`:
  - option defaults (`scope` becomes `"global"`, `enabled` becomes true);
  - the error-result object;
  - the choice of which file `open_skill` opens;
  - the import path list;
  - the `SkillHandler` class.
- `history_handler.dfy`, module `History`: the `HistoryHandler` class, its
  callback field, and the error-message fallback.
- `dispatcher.dfy`, module `Dispatcher`:
  - `Handler` stands for the `MessageHandler` interface: one variant per
    handler class, plus `Other` for any other implementation, known only by its
    declared and its claimed types;
  - the `MessageDispatcher` class;
  - the routing properties: first match, nothing else runs, `hasHandlerFor`
    agrees with `dispatch`, and the declared type sets are disjoint.

Each handler method changes its context, and its `ensures` ties the new
`Snapshot()` to a pure step function of the state before. In these functions,
"the state" is the session's cwd, mode and call log, the webview effects, and
the collaborator requests. The lemmas state the handlers' promises about the
step functions.

The code decides these points:

- A JSON-null member counts as missing for the attachment fields
  (SessionHandler.java:112-120). The skill options are different: they are read
  whenever the key exists (SkillHandler.java:94, 145-146), so a null `scope` or
  `enabled` throws and takes the error path.
- An error message that is `null` prints as `"null"` after `"发送失败: "`. It
  becomes a JSON null member of the delete, toggle and import error objects,
  and `"未知错误"` in the history error.
- Interrupt and restart never report to the webview. `thenRun` runs only on
  success and does nothing visible (SessionHandler.java:157-170), so a failure
  is not reported either.
- An unreadable import or open command is only logged (SkillHandler.java:131-134,
  229-232). The webview gets no report and nothing else happens.
- The interface documents `getSupportedTypes` as type prefixes
  (MessageHandler.java:17-22). `hasHandlerFor` compares whole tags with
  `equals` (MessageDispatcher.java:42), and so does the model.

## Model

| member | source | states |
|---|---|---|
| Json.ObjectFields | src/main/java/com/github/claudecodegui/handler/SkillHandler.java:143 | reading a command as a JsonObject succeeds exactly on a document whose top level is an object, and yields its members |
| Json.AsString | src/main/java/com/github/claudecodegui/handler/SkillHandler.java:144 | getAsString gives a string primitive's value and throws on JSON null and on objects |
| Json.AsBoolean | src/main/java/com/github/claudecodegui/handler/SkillHandler.java:146 | getAsBoolean gives a boolean primitive's value and throws on JSON null and on objects |
| Json.ParseBoolean | src/main/java/com/github/claudecodegui/handler/SkillHandler.java:146 | Boolean.parseBoolean of a string `enabled`: true only for four-letter text that reads "true" letter by letter, ignoring case |
| Json.LowerAscii | src/main/java/com/github/claudecodegui/handler/SkillHandler.java:146 | upper-case ASCII letters map to the matching lower-case letter, every other character to itself |
| Json.LowerAsciiString | src/main/java/com/github/claudecodegui/handler/SkillHandler.java:146 | the same string with each character lowered |
| Json.ParseBooleanIsTrueIgnoringCase | src/main/java/com/github/claudecodegui/handler/SkillHandler.java:146 | for every string, parseBoolean is true iff its lower-case form is "true" |
| Json.ParseBooleanIgnoresCase | src/main/java/com/github/claudecodegui/handler/SkillHandler.java:146 | two strings that differ only in letter case parse to the same boolean |
| Json.ParseBooleanExamples | src/main/java/com/github/claudecodegui/handler/SkillHandler.java:146 | examples: "true", "TRUE" and "True" are true; "yes", "1" and "" are false |
| Host.Session.constructor | src/main/java/com/github/claudecodegui/handler/SessionHandler.java:78 | a session starts with the given cwd and mode and no calls |
| Host.Session.SetCwd | src/main/java/com/github/claudecodegui/handler/SessionHandler.java:81 | setCwd replaces the cwd and logs the call; the mode is unchanged |
| Host.Session.SetPermissionMode | src/main/java/com/github/claudecodegui/handler/SessionHandler.java:85 | setPermissionMode replaces the mode and logs the call; the cwd is unchanged |
| Host.Session.Send | src/main/java/com/github/claudecodegui/handler/SessionHandler.java:87 | send logs the prompt and its attachments and changes nothing else |
| Host.Session.Interrupt | src/main/java/com/github/claudecodegui/handler/SessionHandler.java:158 | interrupt is logged and changes nothing else |
| Host.Session.Restart | src/main/java/com/github/claudecodegui/handler/SessionHandler.java:167 | restart is logged and changes nothing else |
| Host.HandlerContext.constructor | src/main/java/com/github/claudecodegui/handler/BaseMessageHandler.java:9-13 | a context wraps its session, with no webview effects and no requests yet |
| Host.HandlerContext.CallJavaScript | src/main/java/com/github/claudecodegui/handler/BaseMessageHandler.java:19 | a call to a webview function is appended to the effects; requests are unchanged |
| Host.HandlerContext.ExecuteJavaScriptOnEdt | src/main/java/com/github/claudecodegui/handler/BaseMessageHandler.java:33 | a script is appended to the effects; requests are unchanged |
| Host.HandlerContext.Record | src/main/java/com/github/claudecodegui/handler/SkillHandler.java:71 | a call into a collaborator is appended to the requests; effects are unchanged |
| BaseHandler.MatchesType | src/main/java/com/github/claudecodegui/handler/BaseMessageHandler.java:39-46 | true iff the type equals one of the supported tags |
| BaseHandler.MatchesTypeIgnoresOrder | src/main/java/com/github/claudecodegui/handler/BaseMessageHandler.java:40-41 | the answer does not depend on the order of the tags |
| BaseHandler.NothingMatchesNoTypes | src/main/java/com/github/claudecodegui/handler/BaseMessageHandler.java:45 | no type matches an empty list of tags |
| BaseHandler.CallJavaScript | src/main/java/com/github/claudecodegui/handler/BaseMessageHandler.java:18-20 | forwards the function name and arguments to the context unchanged |
| BaseHandler.ExecuteJavaScript | src/main/java/com/github/claudecodegui/handler/BaseMessageHandler.java:32-34 | forwards the script to the context unchanged |
| Sessions.GetModelContextLimit | src/main/java/com/github/claudecodegui/handler/SessionHandler.java:212-214 | the model's table entry, or 200 000 for a model not in the table |
| Sessions.EveryModelHas200000Tokens | src/main/java/com/github/claudecodegui/handler/SessionHandler.java:29-33 | with the table as written, every model gets 200 000 tokens |
| Sessions.DetermineWorkingDirectory | src/main/java/com/github/claudecodegui/handler/SessionHandler.java:201-207 | the base path when it is non-null and exists, otherwise `user.home`; nothing else |
| Sessions.NewSessionUsage | src/main/java/com/github/claudecodegui/handler/SessionHandler.java:183-190 | percentage, totalTokens and usedTokens are 0; limit and maxTokens both equal the current model's limit |
| Sessions.StringField | src/main/java/com/github/claudecodegui/handler/SessionHandler.java:103-105 | a missing or null member gives the default; otherwise the member is read with getAsString |
| Sessions.DecodeAttachment | src/main/java/com/github/claudecodegui/handler/SessionHandler.java:111-121 | a non-object element throws; a missing or null fileName becomes "attachment-" plus the clock text, mediaType becomes "application/octet-stream", data becomes "" |
| Sessions.DecodeAttachments | src/main/java/com/github/claudecodegui/handler/SessionHandler.java:107-123 | one attachment per element, in order; fails iff some element fails |
| Sessions.DecodePayload | src/main/java/com/github/claudecodegui/handler/SessionHandler.java:100-123 | fails on malformed text and on a non-object document; a null payload gives an empty text and no attachments; text defaults to ""; attachments are empty without an attachment array, and otherwise decoded element by element |
| Sessions.PayloadRoundTrip | src/main/java/com/github/claudecodegui/handler/SessionHandler.java:103-122 | a payload written with every member as a string decodes back to exactly the message it encodes, whatever the clock says |
| Sessions.NullFieldsTakeDefaults | src/main/java/com/github/claudecodegui/handler/SessionHandler.java:112-117 | null fileName and mediaType members take their defaults |
| Sessions.ReadPayload | src/main/java/com/github/claudecodegui/handler/SessionHandler.java:100-124 | the step-by-step reading of the payload yields DecodePayload's result |
| Sessions.ReadAttachments | src/main/java/com/github/claudecodegui/handler/SessionHandler.java:107-122 | the indexed loop that fills the attachment list yields DecodeAttachments' result |
| Sessions.SendCalls | src/main/java/com/github/claudecodegui/handler/SessionHandler.java:80-87 | the calls one send makes on the session: setCwd first, only when the cwd differs; then setPermissionMode("default"); then send with the prompt |
| Sessions.SendReport | src/main/java/com/github/claudecodegui/handler/SessionHandler.java:87-92 | no effect for a delivered send; for a failed one, one addErrorMessage with the failure text |
| Sessions.AfterSend | src/main/java/com/github/claudecodegui/handler/SessionHandler.java:75-94 | after a send, the cwd is the resolved directory and the mode is "default"; the send's calls are appended, its report is added, and requests are unchanged |
| Sessions.Step | src/main/java/com/github/claudecodegui/handler/SessionHandler.java:45-196 | no session command calls a collaborator; the webview effects and the session's calls only grow; create_new_session and unsupported types leave the session alone |
| Sessions.SendReconcilesCwdFirst | src/main/java/com/github/claudecodegui/handler/SessionHandler.java:77-87 | earlier calls are kept; setCwd is called iff the resolved directory differs from the cwd, and then first; setPermissionMode("default") comes second to last and send last; afterwards the cwd is the resolved directory |
| Sessions.SendFailureReportedOnce | src/main/java/com/github/claudecodegui/handler/SessionHandler.java:87-92 | a failed send adds exactly one addErrorMessage with "发送失败: " and the message (or "null"); a delivered send adds no effect |
| Sessions.ConsecutiveSendsEachReconcile | src/main/java/com/github/claudecodegui/handler/SessionHandler.java:136-145 | over two sends the second runs in its own resolved directory, and sets the cwd again iff that directory differs from the first |
| Sessions.UnreadablePayloadFallsBackToPlainSend | src/main/java/com/github/claudecodegui/handler/SessionHandler.java:125-128 | an unreadable payload has exactly the effect of send_message with the raw content |
| Sessions.NotJsonIsSentAsPlainPrompt | src/main/java/com/github/claudecodegui/handler/SessionHandler.java:102 | content that is not JSON is sent as a plain prompt without attachments |
| Sessions.CreateNewSessionReportsZeroUsage | src/main/java/com/github/claudecodegui/handler/SessionHandler.java:175-196 | create_new_session leaves the session and the requests alone; it adds two effects, the last being the zeroed usage with the model's budget |
| Sessions.UnsupportedTypeChangesNothing | src/main/java/com/github/claudecodegui/handler/SessionHandler.java:67-68 | a type outside the five leaves the state as it was |
| Sessions.SessionHandler.constructor | src/main/java/com/github/claudecodegui/handler/SessionHandler.java:35-37 | the handler keeps the context it is given |
| Sessions.SessionHandler.Handle | src/main/java/com/github/claudecodegui/handler/SessionHandler.java:45-70 | returns true exactly on the five supported types; on any other type nothing changes; otherwise it performs that command's step |
| Sessions.SessionHandler.HandleSendMessage | src/main/java/com/github/claudecodegui/handler/SessionHandler.java:75-94 | the new state is the send of the prompt without attachments |
| Sessions.SessionHandler.HandleSendMessageWithAttachments | src/main/java/com/github/claudecodegui/handler/SessionHandler.java:99-129 | sends the decoded message with its attachments, or else falls back to the plain send of the content |
| Sessions.SessionHandler.SendMessageWithAttachments | src/main/java/com/github/claudecodegui/handler/SessionHandler.java:134-152 | the new state is the send of the prompt with the attachments |
| Sessions.SessionHandler.ReconcileAndSend | src/main/java/com/github/claudecodegui/handler/SessionHandler.java:136-150 | reconcile the cwd, set the mode, send, and report a failure, in that order |
| Sessions.SessionHandler.HandleInterruptSession | src/main/java/com/github/claudecodegui/handler/SessionHandler.java:157-161 | only the interrupt is added to the session's calls |
| Sessions.SessionHandler.HandleRestartSession | src/main/java/com/github/claudecodegui/handler/SessionHandler.java:166-170 | only the restart is added to the session's calls |
| Sessions.SessionHandler.HandleCreateNewSession | src/main/java/com/github/claudecodegui/handler/SessionHandler.java:175-196 | adds the updateStatus call, then the zeroed usage update; requests are unchanged |
| Skills.ScopeOption | src/main/java/com/github/claudecodegui/handler/SkillHandler.java:145 | "global" when the key is absent; otherwise the member read as a string |
| Skills.EnabledOption | src/main/java/com/github/claudecodegui/handler/SkillHandler.java:146 | true when the key is absent; otherwise the member read as a boolean |
| Skills.ReadSkillRef | src/main/java/com/github/claudecodegui/handler/SkillHandler.java:143-146 | succeeds iff the document is an object, its name reads as a string, and both options read; the defaults apply to absent keys |
| Skills.ReadImportScope | src/main/java/com/github/claudecodegui/handler/SkillHandler.java:93-94 | succeeds iff the document is an object and its scope reads; the scope is "global" when the key is absent |
| Skills.ReadSkillPath | src/main/java/com/github/claudecodegui/handler/SkillHandler.java:203-204 | a path is read only from an object's `path` member, as getAsString reads it |
| Skills.Child | src/main/java/com/github/claudecodegui/handler/SkillHandler.java:211-213 | `new File(dir, name)`: the directory, exactly one separator, then the name |
| Skills.AbsolutePath | src/main/java/com/github/claudecodegui/handler/SkillHandler.java:107 | getAbsolutePath keeps an absolute path, gives `user.dir` for the empty path, and otherwise resolves the path against `user.dir` |
| Skills.AbsolutePaths | src/main/java/com/github/claudecodegui/handler/SkillHandler.java:105-108 | one absolute path per selected file, in order |
| Skills.ErrorResult | src/main/java/com/github/claudecodegui/handler/SkillHandler.java:158-160 | the object has exactly `success: false` and `error`, which holds the message or JSON null |
| Skills.OpenTarget | src/main/java/com/github/claudecodegui/handler/SkillHandler.java:206-218 | a non-directory opens as is; for a directory, its skill.md if that exists, else its SKILL.md if that exists, else the directory itself; never any other file |
| Skills.ChooseOpenTarget | src/main/java/com/github/claudecodegui/handler/SkillHandler.java:206-218 | the reassignments of targetPath and skillMd choose OpenTarget's file |
| Skills.CollectPaths | src/main/java/com/github/claudecodegui/handler/SkillHandler.java:104-108 | the absolute path of each selected file, in selection order |
| Skills.GetAllStep | src/main/java/com/github/claudecodegui/handler/SkillHandler.java:68-85 | asks for the project's skills and makes one window.updateSkills report, carrying the listing when it succeeds |
| Skills.ImportStep | src/main/java/com/github/claudecodegui/handler/SkillHandler.java:90-135 | an unreadable command changes nothing; otherwise the dialog is shown; on approval, the import of the absolute paths with the scope is requested and its result reported |
| Skills.ChangeStep | src/main/java/com/github/claudecodegui/handler/SkillHandler.java:140-195 | a readable command asks the service to change the named skill with the scope and enabled read, and reports the service's result |
| Skills.OpenStep | src/main/java/com/github/claudecodegui/handler/SkillHandler.java:200-233 | never reports; an unreadable path changes nothing; otherwise asks the editor to open OpenTarget's file |
| Skills.Step | src/main/java/com/github/claudecodegui/handler/SkillHandler.java:43-63 | the webview effects and the collaborator requests only grow |
| Skills.StepLeavesSessionAlone | src/main/java/com/github/claudecodegui/handler/SkillHandler.java:43-63 | no skill command touches the session; an unsupported type changes nothing |
| Skills.FailedListingReportsEmptySkills | src/main/java/com/github/claudecodegui/handler/SkillHandler.java:78-83 | a failed listing reports `{"global":{},"local":{}}` to window.updateSkills |
| Skills.ChangeReportsOnce | src/main/java/com/github/claudecodegui/handler/SkillHandler.java:140-195 | delete and toggle report exactly once to their result function; an unreadable command reports the error object and asks no service; a service failure reports the error object carrying its message |
| Skills.ChangeDefaults | src/main/java/com/github/claudecodegui/handler/SkillHandler.java:144-146 | a command with only a name asks the service about the global, enabled skill |
| Skills.ImportOnlyWhenApproved | src/main/java/com/github/claudecodegui/handler/SkillHandler.java:102-117 | with a cancelled dialog or an unreadable command nothing is reported; an import is requested only after approval, with the absolute selected paths in order |
| Skills.SkillHandler.constructor | src/main/java/com/github/claudecodegui/handler/SkillHandler.java:32-35 | the handler keeps the context it is given |
| Skills.SkillHandler.Handle | src/main/java/com/github/claudecodegui/handler/SkillHandler.java:43-63 | returns true exactly on the five skill types; on any other type nothing changes; otherwise it performs that command's step |
| Skills.SkillHandler.HandleGetAllSkills | src/main/java/com/github/claudecodegui/handler/SkillHandler.java:68-85 | asks the service for the project's skills, then reports them or the empty fallback |
| Skills.SkillHandler.HandleImportSkill | src/main/java/com/github/claudecodegui/handler/SkillHandler.java:90-135 | reads the scope, shows the dialog, and only on approval imports the absolute paths and reports the result |
| Skills.SkillHandler.HandleDeleteSkill | src/main/java/com/github/claudecodegui/handler/SkillHandler.java:140-165 | deletes the named skill with the option defaults and reports the result, or else the error object |
| Skills.SkillHandler.HandleToggleSkill | src/main/java/com/github/claudecodegui/handler/SkillHandler.java:170-195 | toggles the named skill with the option defaults and reports the result, or else the error object |
| Skills.SkillHandler.HandleOpenSkill | src/main/java/com/github/claudecodegui/handler/SkillHandler.java:200-233 | opens the chosen target in the editor; silent when the path cannot be read |
| History.ErrorMessage | src/main/java/com/github/claudecodegui/handler/HistoryHandler.java:93 | the exception's message, or "未知错误" when it is null |
| History.LoadHistoryStep | src/main/java/com/github/claudecodegui/handler/HistoryHandler.java:59-101 | reads the project's history, then adds one script: the history data, or the error with ErrorMessage's text |
| History.LoadSessionStep | src/main/java/com/github/claudecodegui/handler/HistoryHandler.java:106-115 | calls the callback when one is set, with the session id and the base path; no webview effect |
| History.Step | src/main/java/com/github/claudecodegui/handler/HistoryHandler.java:41-54 | no history command touches the session; the effects and the requests only grow |
| History.LoadSessionCallsCallbackOnce | src/main/java/com/github/claudecodegui/handler/HistoryHandler.java:106-115 | load_session calls the set callback exactly once, with the content and the base path; with no callback nothing happens |
| History.FailedLoadReportsError | src/main/java/com/github/claudecodegui/handler/HistoryHandler.java:88-98 | a failed history load adds the error script carrying the fallback message |
| History.UnsupportedTypeChangesNothing | src/main/java/com/github/claudecodegui/handler/HistoryHandler.java:51-52 | any other type leaves the state as it was |
| History.HistoryHandler.constructor | src/main/java/com/github/claudecodegui/handler/HistoryHandler.java:27-29 | the handler keeps the context it is given and starts with no callback |
| History.HistoryHandler.SetSessionLoadCallback | src/main/java/com/github/claudecodegui/handler/HistoryHandler.java:31-33 | the stored callback is replaced |
| History.HistoryHandler.Handle | src/main/java/com/github/claudecodegui/handler/HistoryHandler.java:41-54 | returns true exactly on the two history types; on any other type nothing changes; otherwise it performs that command's step with the stored callback |
| History.HistoryHandler.HandleLoadHistoryData | src/main/java/com/github/claudecodegui/handler/HistoryHandler.java:59-101 | reads the project's history, then injects it or reports the error |
| History.HistoryHandler.HandleLoadSession | src/main/java/com/github/claudecodegui/handler/HistoryHandler.java:106-115 | calls the stored callback if one is set |
| History.LatestCallbackWins | src/main/java/com/github/claudecodegui/handler/HistoryHandler.java:31-33 | after two settings, a load uses the second callback only |
| Dispatcher.SupportedTypes | src/main/java/com/github/claudecodegui/handler/SessionHandler.java:21-27 | getSupportedTypes: each of the three classes declares a non-empty array without repeated tags; another handler's declared array as it is |
| Dispatcher.Claims | src/main/java/com/github/claudecodegui/handler/MessageDispatcher.java:29 | the value handle returns: true for a class's own declared types only |
| Dispatcher.Declares | src/main/java/com/github/claudecodegui/handler/MessageDispatcher.java:40-44 | true iff some tag of some handler equals the type |
| Dispatcher.FirstClaimant | src/main/java/com/github/claudecodegui/handler/MessageDispatcher.java:28-30 | the position of the first handler that claims the type: no earlier handler claims it, and it is the list's length when none does |
| Dispatcher.Invoke | src/main/java/com/github/claudecodegui/handler/MessageDispatcher.java:29 | a handler's handle claims per its class; it performs its step, and changes nothing when it does not claim |
| Dispatcher.MessageDispatcher.constructor | src/main/java/com/github/claudecodegui/handler/MessageDispatcher.java:12 | a dispatcher starts with no handlers |
| Dispatcher.MessageDispatcher.RegisterHandler | src/main/java/com/github/claudecodegui/handler/MessageDispatcher.java:17-19 | the new list is the old one followed by the handler, with no duplicate check |
| Dispatcher.MessageDispatcher.Dispatch | src/main/java/com/github/claudecodegui/handler/MessageDispatcher.java:27-34 | true iff some handler claims the type; only the first claimant's step happens, and nothing any other handler could change is changed; false and no change otherwise; the list itself never changes |
| Dispatcher.MessageDispatcher.HasHandlerFor | src/main/java/com/github/claudecodegui/handler/MessageDispatcher.java:39-48 | true iff some handler declares the type; changes nothing |
| Dispatcher.MessageDispatcher.GetHandlerCount | src/main/java/com/github/claudecodegui/handler/MessageDispatcher.java:53-55 | the number of registered handlers |
| Dispatcher.MessageDispatcher.Clear | src/main/java/com/github/claudecodegui/handler/MessageDispatcher.java:60-62 | the list becomes empty |
| Dispatcher.EmptyListClaimsNothing | src/main/java/com/github/claudecodegui/handler/MessageDispatcher.java:33 | an empty list has no claimant and declares nothing |
| Dispatcher.RegisteringKeepsEarlierClaims | src/main/java/com/github/claudecodegui/handler/MessageDispatcher.java:17-34 | a new handler is reached only for types no earlier handler claims |
| Dispatcher.BuiltInHandlersAreHonest | src/main/java/com/github/claudecodegui/handler/SessionHandler.java:39-70 | each of the three handler classes claims exactly the types it declares |
| Dispatcher.HasHandlerForAgreesWithDispatch | src/main/java/com/github/claudecodegui/handler/MessageDispatcher.java:27-48 | when every handler claims exactly its declared types, hasHandlerFor is true iff dispatch finds a claimant |
| Dispatcher.DishonestHandlerBreaksAgreement | src/main/java/com/github/claudecodegui/handler/MessageDispatcher.java:39-48 | without that condition the two can disagree: a declared type that no handle claims |
| Dispatcher.DeclaredTypesAreDisjoint | src/main/java/com/github/claudecodegui/handler/SkillHandler.java:22-28 | no type is declared by two of the three handler classes |
| Dispatcher.OwnTypesGoToOwnHandler | src/main/java/com/github/claudecodegui/handler/MessageDispatcher.java:27-34 | with only the three classes registered, in any order, each declared type is claimed by a handler of the class that declares it |
| Dispatcher.ClearedDispatcherHandlesNothing | src/main/java/com/github/claudecodegui/handler/MessageDispatcher.java:60-62 | after clear, dispatch returns false |

## Left out

- Asynchrony and threading: `CompletableFuture.runAsync`, `exceptionally`,
  `thenRun`, `SwingUtilities.invokeLater` and `ApplicationManager.invokeLater`
  are left out. Each command is one sequential step, and a send's outcome is
  an input (`SendResult`). The race between two sends reconciling the cwd
  concurrently is not modelled.
- Gson's parser and serialiser: what `fromJson` makes of the content is an
  input (`Parsed`). The JSON text Gson writes for a tree is kept as the tree
  (`JsonText`). So the model does not decide how a null `error` member is
  written out, which Gson's default configuration would omit.
- BaseHandler.EscapeJs: stands in for `context.escapeJs`
  (BaseMessageHandler.java:25-27). HandlerContext.java is not part of this
  model, so the function keeps the raw text (`Escaped`) and states nothing
  about the escaping itself.
- Script text: the JavaScript in HistoryHandler.java:71-83 and 94-96 and in
  SessionHandler.java:193 is modelled only by what it carries (`HistoryData`,
  `HistoryError`, `UsageUpdate`). The catch inside the history script runs in
  the browser and is not modelled.
- Environment: `System.currentTimeMillis` is the clock `replies.clock`, read
  with the element's position. `user.home`, `user.dir`, `File.exists`,
  `File.isDirectory` and the project's base path are fields of `Env`.
- File paths: `new File(dir, name)` and `getAbsolutePath` follow Unix rules
  (`Child`, `AbsolutePath`). Path normalisation is not modelled: repeated or
  trailing separators inside a path are kept, where java.io.File would
  collapse them.
- Foreign services: `SkillService`, `ClaudeHistoryReader`, `JFileChooser`,
  `FileEditorManager`, `LocalFileSystem`, and the internals of `ClaudeSession`
  and `HandlerContext`. Calls to them are logged as `Request`s or `Session`
  calls; their answers, including exception messages, come from `Replies`.
  Whether the editor finds the file (SkillHandler.java:222-227) is not modelled.
- `Dispatcher.Other`: a handler implementation outside these files is known
  only by its declared and claimed types. Its effects are not modelled.
- Dispatcher.MessageDispatcher.Dispatch: when the claimant is an `Other`
  handler, only the claim outcome and the no-change of the other handlers are
  stated.
- `MessageHandler.java` is an interface with no behaviour; `Handler`,
  `SupportedTypes` and `Claims` stand for it.
- The `mainPanel` of `SkillHandler` only parents the dialog and is not modelled.
- `ButtonArea.tsx`: webview rendering and event wiring.
- Null type tags and null content: Dafny strings cannot be null. In Java,
  `dispatch(null, c)` throws a NullPointerException at the first handler's
  `switch` (SessionHandler.java:46, SkillHandler.java:44, HistoryHandler.java:42).
  `hasHandlerFor(null)` returns false (MessageDispatcher.java:42).
- Logging through `System.out`, `System.err` and `printStackTrace`.
