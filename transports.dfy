/**
  The two front ends around the shared `sftp_upload` logic: the stdio
  server returns a `{"status", "message"}` dictionary, the SSE server a
  single text item, and the SSE server's `call_tool` checks the tool name
  and the arguments before uploading.
 */
module Transports {
  import opened Wrappers
  import opened Upload

  // ---------------------------------------------------------------------
  // stdio server (mcp_transfer.py)
  // ---------------------------------------------------------------------

  /** What the stdio `sftp_upload` gives back: its dictionary, or the exception it lets escape. */
  datatype StdioReply = StatusDict(fields: map<string, string>) | StdioRaises(error: PyError)

  function StdioResult(o: Outcome): StdioReply {
    match o
    case Succeeded(m) => StatusDict(map["status" := "success", "message" := m])
    case Failed(m) => StatusDict(map["status" := "error", "message" := m])
    case Raised(e) => StdioRaises(e)
  }

  /** The stdio `sftp_upload(file_name, code)`. */
  function StdioSftpUpload(fileName: string, code: string, env: Env): StdioReply {
    StdioResult(SftpUpload(fileName, code, env).outcome)
  }

  /** Reading the dictionary back: "success" or "error" with its message. */
  function StdioOutcome(r: StdioReply): Option<Outcome> {
    match r
    case StdioRaises(e) => Some(Raised(e))
    case StatusDict(fields) =>
      if "status" !in fields || "message" !in fields then None
      else if fields["status"] == "success" then Some(Succeeded(fields["message"]))
      else if fields["status"] == "error" then Some(Failed(fields["message"]))
      else None
  }

  /**
    The dictionary has exactly the keys "status" and "message", and loses
    nothing: the outcome is read back from it unchanged.
   */
  lemma StdioResultRoundTrip(o: Outcome)
    ensures StdioResult(o).StatusDict? ==> StdioResult(o).fields.Keys == {"status", "message"}
    ensures StdioOutcome(StdioResult(o)) == Some(o)
  {
    match o
    case Succeeded(m) =>
      assert StdioResult(o).fields["status"] == "success";
    case Failed(m) =>
      assert StdioResult(o).fields["status"] == "error" != "success";
    case Raised(e) =>
  }

  // ---------------------------------------------------------------------
  // SSE server (mcp_transfer_sse.py)
  // ---------------------------------------------------------------------

  datatype TextContent = TextContent(kind: string, text: string)

  /** What the SSE `sftp_upload` or `call_tool` gives back: a list of text items, or an exception. */
  datatype SseReply = Contents(items: seq<TextContent>) | SseRaises(error: PyError)

  function SseResult(o: Outcome): SseReply {
    match o
    case Succeeded(m) => Contents([TextContent("text", m)])
    case Failed(m) => Contents([TextContent("text", m)])
    case Raised(e) => SseRaises(e)
  }

  /** The SSE `sftp_upload(file_name, code)`. */
  function SseSftpUpload(fileName: string, code: string, env: Env): SseReply {
    SseResult(SftpUpload(fileName, code, env).outcome)
  }

  /**
    Both servers report the same thing: the SSE reply is one text item
    holding the stdio dictionary's message, and both let the same
    exception escape.
   */
  lemma TransportsAgree(fileName: string, code: string, env: Env)
    ensures StdioSftpUpload(fileName, code, env).StatusDict? <==> SseSftpUpload(fileName, code, env).Contents?
    ensures StdioSftpUpload(fileName, code, env).StatusDict? ==>
      SseSftpUpload(fileName, code, env).items == [TextContent("text", StdioSftpUpload(fileName, code, env).fields["message"])]
    ensures StdioSftpUpload(fileName, code, env).StdioRaises? ==>
      SseSftpUpload(fileName, code, env).error == StdioSftpUpload(fileName, code, env).error
  {
  }

  /** stdio: an empty or non-mapping config gives status "error" and "Invalid config structure.", with no connection. */
  lemma StdioInvalidConfig(fileName: string, code: string, env: Env)
    requires env.config.Parsed? && (env.config.doc.NotMapping? || env.config.doc.hosts == [])
    ensures StdioSftpUpload(fileName, code, env) == StatusDict(map["status" := "error", "message" := InvalidConfigMessage])
    ensures !SftpUpload(fileName, code, env).connectAttempted
  {
    UploadInvalidConfig(fileName, code, env);
  }

  /** SSE: an empty or non-mapping config gives the single text item "Invalid config structure.", with no connection. */
  lemma SseInvalidConfig(fileName: string, code: string, env: Env)
    requires env.config.Parsed? && (env.config.doc.NotMapping? || env.config.doc.hosts == [])
    ensures SseSftpUpload(fileName, code, env) == Contents([TextContent("text", InvalidConfigMessage)])
    ensures !SftpUpload(fileName, code, env).connectAttempted
  {
    UploadInvalidConfig(fileName, code, env);
  }

  /** SSE: with neither key file nor password, the single text item "No login method provided in config." and no connection. */
  lemma SseNoLoginMethod(fileName: string, code: string, env: Env, alias: string, options: map<string, string>)
    requires UsableConfig(env, alias, options)
    requires !Truthy(options, "key_file_path") && !Truthy(options, "password")
    ensures SseSftpUpload(fileName, code, env) == Contents([TextContent("text", NoLoginMessage)])
    ensures !SftpUpload(fileName, code, env).connectAttempted
  {
    UploadNoLoginMethod(fileName, code, env, alias, options);
  }

  /** SSE: when every stage completes, the only list element is the success text with the key-before-password login kind. */
  lemma SseSuccess(fileName: string, code: string, env: Env, alias: string, options: map<string, string>)
    requires UsableConfig(env, alias, options) && LoginKind(options).Some?
    requires env.connect == Done && env.openSftp == Done && env.write == Done
    requires RemoteDirs.Ensure(env.server, Paths.Ancestors(options["remote_path"])).failedAt == None
    ensures SseSftpUpload(fileName, code, env) ==
      Contents([TextContent("text", SuccessMessage(LoginKind(options).value, alias, options["remote_path"], fileName))])
  {
    UploadSuccess(fileName, code, env, alias, options);
  }

  /** SSE: a failure inside the session is one text item holding the classified message of the first failing stage. */
  lemma SseFailureClassified(fileName: string, code: string, env: Env, alias: string, options: map<string, string>)
    requires UsableConfig(env, alias, options) && LoginKind(options).Some?
    requires FirstFault(Stages(options["remote_path"], env)).Some?
    ensures SseSftpUpload(fileName, code, env) ==
      Contents([TextContent("text", ErrorMessage(FirstFault(Stages(options["remote_path"], env)).value))])
  {
    UploadFollowsStages(fileName, code, env, alias, options);
  }

  // ---------------------------------------------------------------------
  // call_tool of the SSE server
  // ---------------------------------------------------------------------

  const MissingParameters := "Missing required parameters."

  /** A `call_tool` request: its reply, and the `sftp_upload` call it made, if any. */
  datatype ToolCall = ToolCall(reply: SseReply, upload: Option<Attempt>)

  /**
    `call_tool(name, arguments)`: only "sftp_upload" is served, and only
    when both `file_name` and `code` are present and non-empty; then the
    reply is exactly the upload's.
   */
  function CallTool(name: string, arguments: map<string, string>, env: Env): (c: ToolCall)
    ensures c.upload.Some? <==> name == "sftp_upload" && Truthy(arguments, "file_name") && Truthy(arguments, "code")
    ensures c.upload.Some? ==>
      c.upload.value == SftpUpload(arguments["file_name"], arguments["code"], env) && c.reply == SseResult(c.upload.value.outcome)
    ensures c.upload.None? ==> c.reply.SseRaises? && c.reply.error.ValueError?
  {
    if name == "sftp_upload" then
      if !Truthy(arguments, "file_name") || !Truthy(arguments, "code") then
        ToolCall(SseRaises(ValueError(MissingParameters)), None)
      else
        var a := SftpUpload(arguments["file_name"], arguments["code"], env);
        ToolCall(SseResult(a.outcome), Some(a))
    else
      ToolCall(SseRaises(ValueError("unknow: " + name)), None)
  }

  /**
    A missing or empty `file_name` or `code` raises "Missing required
    parameters." before any upload, whatever the environment.
   */
  lemma CallToolRejectsMissingArguments(arguments: map<string, string>, env: Env, env': Env)
    requires !Truthy(arguments, "file_name") || !Truthy(arguments, "code")
    ensures CallTool("sftp_upload", arguments, env) == CallTool("sftp_upload", arguments, env')
         == ToolCall(SseRaises(ValueError(MissingParameters)), None)
  {
  }

  /** Any other tool name raises, naming the tool, and nothing is uploaded. */
  lemma CallToolRejectsUnknownName(name: string, arguments: map<string, string>, env: Env)
    requires name != "sftp_upload"
    ensures CallTool(name, arguments, env) == ToolCall(SseRaises(ValueError("unknow: " + name)), None)
  {
  }
}
