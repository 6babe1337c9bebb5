/**
 * SkillHandler: listing, importing, deleting, toggling and opening skills. The
 * skill service, the file chooser and the editor are collaborators; the model
 * states what the handler asks of them, with which defaults, and what it reports.
 */
module Skills {
  import opened Wrappers
  import opened Json
  import opened Host
  import opened BaseHandler

  const SupportedTypes: seq<string> := [
    "get_all_skills",
    "import_skill",
    "delete_skill",
    "open_skill",
    "toggle_skill"
  ]

  const DefaultScope: string := "global"
  const EmptySkills: string := "{\"global\":{},\"local\":{}}"

  // ----- Command options -----

  /** The `scope` option: "global" when the key is absent, otherwise the value read as a string. */
  function ScopeOption(fields: map<string, Json>): (scope: Option<string>)
    ensures "scope" !in fields ==> scope == Some(DefaultScope)
    ensures "scope" in fields ==> scope == AsString(fields["scope"])
  {
    if "scope" in fields then AsString(fields["scope"]) else Some(DefaultScope)
  }

  /** The `enabled` option: true when the key is absent, otherwise the value read as a boolean. */
  function EnabledOption(fields: map<string, Json>): (enabled: Option<bool>)
    ensures "enabled" !in fields ==> enabled == Some(true)
    ensures "enabled" in fields ==> enabled == AsBoolean(fields["enabled"])
  {
    if "enabled" in fields then AsBoolean(fields["enabled"]) else Some(true)
  }

  /** The skill a delete or toggle command names. */
  datatype SkillRef = SkillRef(name: string, scope: string, enabled: bool)

  /**
   * Reads a delete or toggle command: an object with a `name` readable as a
   * string, and the two options; None when any read throws.
   */
  function ReadSkillRef(doc: Parsed): (r: Option<SkillRef>)
    ensures r.Some? <==>
              && ObjectFields(doc).Some?
              && "name" in ObjectFields(doc).value
              && AsString(ObjectFields(doc).value["name"]).Some?
              && ScopeOption(ObjectFields(doc).value).Some?
              && EnabledOption(ObjectFields(doc).value).Some?
    ensures r.Some? ==>
              var fields := ObjectFields(doc).value;
              && Some(r.value.name) == AsString(fields["name"])
              && ("scope" !in fields ==> r.value.scope == DefaultScope)
              && ("enabled" !in fields ==> r.value.enabled)
    ensures r.Some? ==>
              && Some(r.value.scope) == ScopeOption(ObjectFields(doc).value)
              && Some(r.value.enabled) == EnabledOption(ObjectFields(doc).value)
  {
    match ObjectFields(doc)
    case None => None
    case Some(fields) =>
      if "name" !in fields then None
      else
        var name := AsString(fields["name"]);
        var scope := ScopeOption(fields);
        var enabled := EnabledOption(fields);
        if name.Some? && scope.Some? && enabled.Some?
        then Some(SkillRef(name.value, scope.value, enabled.value))
        else None
  }

  /** Reads the scope of an import command; None when the read throws. */
  function ReadImportScope(doc: Parsed): (r: Option<string>)
    ensures r.Some? <==> ObjectFields(doc).Some? && ScopeOption(ObjectFields(doc).value).Some?
    ensures ObjectFields(doc).Some? && "scope" !in ObjectFields(doc).value ==> r == Some(DefaultScope)
    ensures ObjectFields(doc).Some? ==> r == ScopeOption(ObjectFields(doc).value)
  {
    match ObjectFields(doc)
    case None => None
    case Some(fields) => ScopeOption(fields)
  }

  /** Reads the path of an open command; None when the read throws. */
  function ReadSkillPath(doc: Parsed): (r: Option<string>)
    ensures r.Some? ==> ObjectFields(doc).Some? && "path" in ObjectFields(doc).value
                        && AsString(ObjectFields(doc).value["path"]) == r
    ensures ObjectFields(doc).Some? && "path" in ObjectFields(doc).value ==> r == AsString(ObjectFields(doc).value["path"])
  {
    match ObjectFields(doc)
    case None => None
    case Some(fields) => if "path" in fields then AsString(fields["path"]) else None
  }

  // ----- Results reported to the webview -----

  /** The error object `{success: false, error: message}`; a null message is a JSON null member. */
  function ErrorResult(message: Option<string>): (j: Json)
    ensures j.JObject? && j.fields.Keys == {"success", "error"} && j.fields["success"] == JBool(false)
    ensures j.fields["error"] == (if message.Some? then JString(message.value) else JNull)
  {
    JObject(map["success" := JBool(false), "error" := if message.Some? then JString(message.value) else JNull])
  }

  /** The service's answer as JSON text, or the error object built from its exception. */
  function ResultText(reply: Reply<Json>): Text {
    match reply
    case Answer(result) => JsonText(result)
    case Raised(message) => JsonText(ErrorResult(message))
  }

  // ----- Paths -----

  /** java.io.File(parent, child) on a Unix file system: one separator between the two. */
  function Child(dir: string, name: string): (path: string)
    ensures |dir| <= |path| && path[..|dir|] == dir
    ensures |name| <= |path| && path[|path| - |name|..] == name
    ensures |path| == |dir| + |name| + (if |dir| > 0 && dir[|dir| - 1] == '/' then 0 else 1)
    ensures |path| > |dir| + |name| ==> path[|dir|] == '/'
  {
    if |dir| > 0 && dir[|dir| - 1] == '/' then dir + name else dir + "/" + name
  }

  /**
   * File.getAbsolutePath on a Unix file system: an absolute path is kept, the
   * empty path is `user.dir`, and a relative path is resolved against `user.dir`.
   */
  function AbsolutePath(path: string, userDir: string): (absolute: string)
    ensures path != [] && path[0] == '/' ==> absolute == path
    ensures path == [] ==> absolute == userDir
    ensures path != [] && path[0] != '/' ==> absolute == Child(userDir, path)
  {
    if path == [] then userDir
    else if path[0] == '/' then path
    else Child(userDir, path)
  }

  /**
   * The file an open command shows: a path that is not a directory as it is; for a
   * directory its `skill.md` if that exists, else its `SKILL.md` if that exists,
   * else the directory itself.
   */
  function OpenTarget(path: string, env: Env): (target: string)
    ensures path !in env.directories ==> target == path
    ensures path in env.directories && Child(path, "skill.md") in env.existing ==>
              target == AbsolutePath(Child(path, "skill.md"), env.userDir)
    ensures path in env.directories && Child(path, "skill.md") !in env.existing && Child(path, "SKILL.md") in env.existing ==>
              target == AbsolutePath(Child(path, "SKILL.md"), env.userDir)
    ensures target == path || exists name :: name in ["skill.md", "SKILL.md"] && Child(path, name) in env.existing
                                                && target == AbsolutePath(Child(path, name), env.userDir)
  {
    if path !in env.directories then path
    else
      var lower := Child(path, "skill.md");
      var chosen := if lower in env.existing then lower else Child(path, "SKILL.md");
      if chosen in env.existing then AbsolutePath(chosen, env.userDir) else path
  }

  /** The reassignments of lines 206-218: start from the path, replace it by an existing skill file. */
  method ChooseOpenTarget(skillPath: string, env: Env) returns (targetPath: string)
    ensures targetPath == OpenTarget(skillPath, env)
  {
    targetPath := skillPath;
    if skillPath in env.directories {
      var skillMd := Child(skillPath, "skill.md");
      if skillMd !in env.existing {
        skillMd := Child(skillPath, "SKILL.md");
      }
      if skillMd in env.existing {
        targetPath := AbsolutePath(skillMd, env.userDir);
      }
    }
  }

  /** The absolute paths of the selected files, in selection order. */
  method CollectPaths(files: seq<string>, userDir: string) returns (paths: seq<string>)
    ensures paths == AbsolutePaths(files, userDir)
  {
    paths := [];
    for i := 0 to |files|
      invariant |paths| == i
      invariant forall j :: 0 <= j < i ==> paths[j] == AbsolutePath(files[j], userDir)
    {
      paths := paths + [AbsolutePath(files[i], userDir)];
    }
  }

  function AbsolutePaths(files: seq<string>, userDir: string): (paths: seq<string>)
    ensures |paths| == |files|
    ensures forall i :: 0 <= i < |files| ==> paths[i] == AbsolutePath(files[i], userDir)
  {
    seq(|files|, i requires 0 <= i < |files| => AbsolutePath(files[i], userDir))
  }

  // ----- Command steps -----

  /** The two commands that change one skill through the service. */
  datatype Change = Delete | Toggle

  function ChangeRequest(change: Change, skill: SkillRef, root: Option<string>): Request {
    match change
    case Delete => DeleteSkill(skill.name, skill.scope, skill.enabled, root)
    case Toggle => ToggleSkill(skill.name, skill.scope, skill.enabled, root)
  }

  function ChangeResultFunction(change: Change): string {
    match change
    case Delete => "window.skillDeleteResult"
    case Toggle => "window.skillToggleResult"
  }

  function GetAllStep(st: State, env: Env, replies: Replies): (after: State)
    ensures after.session == st.session
    ensures after.requests == st.requests + [GetAllSkills(env.basePath)]
    ensures |after.ui| == |st.ui| + 1 && after.ui[..|st.ui|] == st.ui && after.ui[|st.ui|].Call?
    ensures after.ui[|st.ui|].name == "window.updateSkills"
    ensures replies.skills.Answer? ==> after.ui[|st.ui|].args == [Escaped(JsonText(replies.skills.value))]
  {
    var shown := match replies.skills
                 case Answer(skills) => JsonText(skills)
                 case Raised(_) => Plain(EmptySkills);
    st.(requests := st.requests + [GetAllSkills(env.basePath)],
        ui := st.ui + [Call("window.updateSkills", [EscapeJs(shown)])])
  }

  function ImportStep(st: State, env: Env, replies: Replies): (after: State)
    ensures after.session == st.session
    ensures ReadImportScope(replies.doc).None? ==> after == st
    ensures ReadImportScope(replies.doc).Some? ==>
              |after.requests| > |st.requests| && after.requests[..|st.requests|] == st.requests
              && after.requests[|st.requests|] == ChooseSkillFiles
    ensures ReadImportScope(replies.doc).Some? && replies.dialog.Approved? ==>
              after.requests[|after.requests| - 1]
                == ImportSkills(AbsolutePaths(replies.dialog.files, env.userDir), ReadImportScope(replies.doc).value, env.basePath)
              && after.ui == st.ui + [Call("window.skillImportResult", [Escaped(ResultText(replies.skills))])]
  {
    match ReadImportScope(replies.doc)
    case None => st
    case Some(scope) =>
      match replies.dialog
      case Cancelled => st.(requests := st.requests + [ChooseSkillFiles])
      case Approved(files) =>
        st.(requests := st.requests + [ChooseSkillFiles, ImportSkills(AbsolutePaths(files, env.userDir), scope, env.basePath)],
            ui := st.ui + [Call("window.skillImportResult", [EscapeJs(ResultText(replies.skills))])])
  }

  function ChangeStep(st: State, change: Change, env: Env, replies: Replies): (after: State)
    ensures after.session == st.session
    ensures ReadSkillRef(replies.doc).Some? ==>
              after.requests == st.requests + [ChangeRequest(change, ReadSkillRef(replies.doc).value, env.basePath)]
              && after.ui == st.ui + [Call(ChangeResultFunction(change), [Escaped(ResultText(replies.skills))])]
  {
    match ReadSkillRef(replies.doc)
    case None =>
      st.(ui := st.ui + [Call(ChangeResultFunction(change), [EscapeJs(JsonText(ErrorResult(replies.fault)))])])
    case Some(skill) =>
      st.(requests := st.requests + [ChangeRequest(change, skill, env.basePath)],
          ui := st.ui + [Call(ChangeResultFunction(change), [EscapeJs(ResultText(replies.skills))])])
  }

  function OpenStep(st: State, env: Env, replies: Replies): (after: State)
    ensures after.session == st.session && after.ui == st.ui
    ensures ReadSkillPath(replies.doc).None? ==> after == st
    ensures ReadSkillPath(replies.doc).Some? ==>
              after.requests == st.requests + [OpenInEditor(OpenTarget(ReadSkillPath(replies.doc).value, env))]
  {
    match ReadSkillPath(replies.doc)
    case None => st
    case Some(path) => st.(requests := st.requests + [OpenInEditor(OpenTarget(path, env))])
  }

  /** The state after the handler has handled a command of the given type. */
  function Step(st: State, msgType: string, env: Env, replies: Replies): (after: State)
    ensures |st.ui| <= |after.ui| && after.ui[..|st.ui|] == st.ui
    ensures |st.requests| <= |after.requests| && after.requests[..|st.requests|] == st.requests
  {
    match msgType
    case "get_all_skills" => GetAllStep(st, env, replies)
    case "import_skill" => ImportStep(st, env, replies)
    case "delete_skill" => ChangeStep(st, Delete, env, replies)
    case "open_skill" => OpenStep(st, env, replies)
    case "toggle_skill" => ChangeStep(st, Toggle, env, replies)
    case _ => st
  }

  // ----- Properties of the steps -----

  /** Only the webview and the request log change; the session is never touched. */
  lemma StepLeavesSessionAlone(st: State, msgType: string, env: Env, replies: Replies)
    ensures Step(st, msgType, env, replies).session == st.session
    ensures msgType !in SupportedTypes ==> Step(st, msgType, env, replies) == st
  {
  }

  /** A failed listing still refreshes the webview, with empty global and local skill sets. */
  lemma FailedListingReportsEmptySkills(st: State, env: Env, replies: Replies)
    requires replies.skills.Raised?
    ensures Step(st, "get_all_skills", env, replies).ui == st.ui + [Call("window.updateSkills", [Escaped(Plain(EmptySkills))])]
  {
  }

  /**
   * Delete and toggle always report exactly once; on any failure the report is
   * `{success: false, error: message}`, and the service is asked only when the
   * command could be read.
   */
  lemma ChangeReportsOnce(st: State, change: Change, env: Env, replies: Replies)
    ensures var after := ChangeStep(st, change, env, replies);
            && |after.ui| == |st.ui| + 1 && after.ui[..|st.ui|] == st.ui
            && after.ui[|st.ui|].name == ChangeResultFunction(change)
            && (ReadSkillRef(replies.doc).None? ==>
                  after.requests == st.requests
                  && after.ui[|st.ui|].args == [Escaped(JsonText(ErrorResult(replies.fault)))])
            && (ReadSkillRef(replies.doc).Some? && replies.skills.Raised? ==>
                  after.ui[|st.ui|].args == [Escaped(JsonText(ErrorResult(replies.skills.message)))])
  {
  }

  /**
   * A delete or toggle without `scope` and `enabled` asks the service for the
   * global skill, taken to be enabled.
   */
  lemma ChangeDefaults(st: State, change: Change, env: Env, replies: Replies, name: string)
    requires replies.doc == Document(JObject(map["name" := JString(name)]))
    ensures ChangeStep(st, change, env, replies).requests
            == st.requests + [ChangeRequest(change, SkillRef(name, DefaultScope, true), env.basePath)]
  {
    assert ReadSkillRef(replies.doc) == Some(SkillRef(name, DefaultScope, true));
  }

  /**
   * Import asks the service only after an approved dialog, with the absolute
   * paths of the selection in order.
   */
  lemma ImportOnlyWhenApproved(st: State, env: Env, replies: Replies)
    ensures var after := ImportStep(st, env, replies);
            && (replies.dialog.Cancelled? || ReadImportScope(replies.doc).None? ==> after.ui == st.ui)
            && (forall k :: |st.requests| <= k < |after.requests| && after.requests[k].ImportSkills? ==>
                  && replies.dialog.Approved?
                  && |after.requests[k].paths| == |replies.dialog.files|
                  && (forall j :: 0 <= j < |replies.dialog.files| ==>
                        after.requests[k].paths[j] == AbsolutePath(replies.dialog.files[j], env.userDir)))
  {
  }

  // ----- The handler -----

  class SkillHandler {
    const context: HandlerContext

    constructor (context: HandlerContext)
      ensures this.context == context
    {
      this.context := context;
    }

    /** Claims exactly its five types; performs the command's step on the context. */
    method Handle(msgType: string, content: string, env: Env, replies: Replies) returns (handled: bool)
      modifies context
      ensures handled <==> msgType in SupportedTypes
      ensures !handled ==> unchanged(context, context.session)
      ensures context.Snapshot() == Step(old(context.Snapshot()), msgType, env, replies)
    {
      match msgType {
        case "get_all_skills" =>
          HandleGetAllSkills(env, replies);
          return true;
        case "import_skill" =>
          HandleImportSkill(env, replies);
          return true;
        case "delete_skill" =>
          HandleDeleteSkill(env, replies);
          return true;
        case "open_skill" =>
          HandleOpenSkill(env, replies);
          return true;
        case "toggle_skill" =>
          HandleToggleSkill(env, replies);
          return true;
        case _ =>
          return false;
      }
    }

    method HandleGetAllSkills(env: Env, replies: Replies)
      modifies context
      ensures context.Snapshot() == GetAllStep(old(context.Snapshot()), env, replies)
    {
      context.Record(GetAllSkills(env.basePath));
      match replies.skills {
        case Answer(skills) =>
          CallJavaScript(context, "window.updateSkills", [EscapeJs(JsonText(skills))]);
        case Raised(_) =>
          CallJavaScript(context, "window.updateSkills", [EscapeJs(Plain(EmptySkills))]);
      }
    }

    method HandleImportSkill(env: Env, replies: Replies)
      modifies context
      ensures context.Snapshot() == ImportStep(old(context.Snapshot()), env, replies)
    {
      var scope := ReadImportScope(replies.doc);
      if scope.None? {
        return;
      }
      context.Record(ChooseSkillFiles);
      if replies.dialog.Approved? {
        var paths := CollectPaths(replies.dialog.files, env.userDir);
        context.Record(ImportSkills(paths, scope.value, env.basePath));
        CallJavaScript(context, "window.skillImportResult", [EscapeJs(ResultText(replies.skills))]);
      }
    }

    method HandleDeleteSkill(env: Env, replies: Replies)
      modifies context
      ensures context.Snapshot() == ChangeStep(old(context.Snapshot()), Delete, env, replies)
    {
      var skill := ReadSkillRef(replies.doc);
      match skill {
        case None =>
          CallJavaScript(context, "window.skillDeleteResult", [EscapeJs(JsonText(ErrorResult(replies.fault)))]);
        case Some(s) =>
          context.Record(DeleteSkill(s.name, s.scope, s.enabled, env.basePath));
          CallJavaScript(context, "window.skillDeleteResult", [EscapeJs(ResultText(replies.skills))]);
      }
    }

    method HandleToggleSkill(env: Env, replies: Replies)
      modifies context
      ensures context.Snapshot() == ChangeStep(old(context.Snapshot()), Toggle, env, replies)
    {
      var skill := ReadSkillRef(replies.doc);
      match skill {
        case None =>
          CallJavaScript(context, "window.skillToggleResult", [EscapeJs(JsonText(ErrorResult(replies.fault)))]);
        case Some(s) =>
          context.Record(ToggleSkill(s.name, s.scope, s.enabled, env.basePath));
          CallJavaScript(context, "window.skillToggleResult", [EscapeJs(ResultText(replies.skills))]);
      }
    }

    method HandleOpenSkill(env: Env, replies: Replies)
      modifies context
      ensures context.Snapshot() == OpenStep(old(context.Snapshot()), env, replies)
    {
      var skillPath := ReadSkillPath(replies.doc);
      if skillPath.None? {
        return;
      }
      var targetPath := ChooseOpenTarget(skillPath.value, env);
      context.Record(OpenInEditor(targetPath));
    }
  }
}
