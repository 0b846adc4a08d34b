# mcp-transfer: a Dafny model of the SFTP upload tool

The repository ships two MCP servers with one tool, `sftp_upload(file_name, code)`.
`mcp_transfer.py` serves it over stdio and answers with a `{"status", "message"}`
dictionary. `mcp_transfer_sse.py` serves it over SSE and answers with a list
holding one `TextContent`. Both copies of the tool:

1. read `sftp_config.yaml` and take its first host entry;
2. log in with the key file if one is set, else with the password;
3. open SFTP and run `ensure_remote_dir`, which creates the remote path and each
   missing ancestor, shallowest first;
4. write the code to `<remote_path>/<file_name>`;
5. turn every failure inside the SSH session into one of three error messages,
   always closing the client once it exists.

The SSE server's `call_tool` also checks the tool name and the two arguments.

This project models that core and proves its properties:

- `paths.dfy` (module `Paths`): POSIX `os.path.dirname`, the list of
  directories `ensure_remote_dir` collects (`Ancestors`), and the
  collecting `while` loop (`CollectDirs`).
- `remote_dirs.dfy` (module `RemoteDirs`): the abstract SFTP server, the
  stat/mkdir pass as a specification function (`Ensure`), and the class
  `RemoteFs`. Its methods change the server and the call log in place:
  `Stat` and `Mkdir` are specified by the server's state (`StatOf`,
  `MkdirAllowed`), and the loop methods `EnsureOne`, `EnsureAll` and
  `EnsureRemoteDir` are proved against `Ensure`.
- `upload.dfy` (module `Upload`): the control flow of `sftp_upload` as a pure
  function over abstract outcomes (`Env`). The config document, each remote
  step and `close` either complete or raise a classified fault.
- `transports.dfy` (module `Transports`): the stdio dictionary and the SSE
  text item wrapped around the shared result, and `call_tool`.
- `scenarios.dfy` (module `Scenarios`): two concrete calls. The first is a
  password login to an empty server with remote path "/a/b". The second is
  the same call with the login rejected.
- `wrappers.dfy` (module `Wrappers`): `Option`.

The two source files hold identical copies of `ensure_remote_dir`
(mcp_transfer.py:7-18 and mcp_transfer_sse.py:13-24). They also share the
decision sequence of `sftp_upload` (mcp_transfer.py:23-92 and
mcp_transfer_sse.py:27-94). Each is modelled once. Only the result adapter in
`Transports` differs.

Behaviours of the code worth noting:

- A first host entry that lacks `host`, `port`, `username` or `remote_path`
  is not turned into an error result. The lookups stand outside any `try`, so
  a `KeyError` escapes. A first entry that is not a mapping raises
  `TypeError`. Both are `Raised` outcomes, with no connection and no `close`.
- With no login method, no connection is made, but the SSH client has already
  been constructed. `if ssh:` is then true, so `close` is attempted on this
  path too.
- Only the SSE `call_tool` rejects a missing or empty `file_name` or `code`.
  The stdio `sftp_upload` itself checks neither: FastMCP's argument schema
  (not modelled) turns away a missing argument, but an empty one reaches the
  upload.
- A path beginning with "//" makes the collecting loop run forever (see
  Findings). The model stops at every all-slash path, and proves this
  changes nothing for any other path.

## Model

| member | source | states |
|---|---|---|
| Paths.SlashPrefixLen | mcp_transfer.py:12 | the length of the prefix ending at the last '/', with no '/' after it |
| Paths.StripTrailingSlashes | mcp_transfer.py:12 | a prefix of its input, not ending in '/', with only slashes removed |
| Paths.Dirname | mcp_transfer.py:12 | `dirname` is a prefix of its input, the identity on all-slash paths, and strictly shorter on every other non-empty path |
| Paths.Ancestors | mcp_transfer.py:9-12 | the collected list is empty exactly for a root path; otherwise it ends with the path itself |
| Paths.AncestorsChain | mcp_transfer.py:9-12 | shallowest first: each element is `dirname` of the next, `dirname` of the first is a root, and every element is a non-root prefix of the path |
| Paths.AncestorsStrictlyLonger | mcp_transfer.py:9-12 | the listed paths get strictly longer along the list |
| Paths.AncestorsMatchSourceLoop | mcp_transfer.py:10-12 | for paths not starting with "//": the list is empty iff the path is '', '/' or '.', `dirname` of its first element is one of those, and no element is one of those |
| Paths.DirnameKeepsDoubleSlash | mcp_transfer.py:12 | `dirname` of a path starting with "//" starts with "//" |
| Paths.SourceWalkNeverStops | mcp_transfer.py:10-12 | for a path starting with "//", no number of `dirname` steps reaches '', '/' or '.' |
| Paths.CollectDirs | mcp_transfer_sse.py:15-18 | the upward walk that prepends each path returns exactly `Ancestors(remoteDir)` |
| RemoteDirs.Ensure | mcp_transfer.py:14-18 | a failed `mkdir` names a path of the list |
| RemoteDirs.EnsureEffect | mcp_transfer.py:14-18 | a run removes no directory, adds none outside the list, and leaves every listed path a directory when no `mkdir` raised |
| RemoteDirs.EnsureStatsInOrder | mcp_transfer.py:14-18 | one `stat` per processed path in list order: all paths when nothing failed, else up to and including the failing one |
| RemoteDirs.EnsureMkdirsOnlyAfterFailedStat | mcp_transfer.py:14-18 | on a list without repetitions, the `mkdir` calls are exactly the processed paths whose `stat` raised, in order |
| RemoteDirs.EnsureSucceeds | mcp_transfer.py:14-18 | no `mkdir` raises when the server refuses none of the listed paths |
| RemoteDirs.ChainCreatesParentsFirst | mcp_transfer.py:14-18 | on a `dirname` chain whose first parent exists, every `mkdir` finds its parent present |
| RemoteDirs.AncestorsShape | mcp_transfer_sse.py:15-18 | the collected list is a `dirname` chain without repetitions whose first parent is a root |
| RemoteDirs.EnsureRemoteDirParentsFirst | mcp_transfer.py:7-18 | on any server, each `mkdir` that `ensure_remote_dir` issues finds its parent present |
| RemoteDirs.EnsureAllPresent | mcp_transfer.py:14-18 | when every listed path exists, the run issues only `stat`s and changes nothing |
| RemoteDirs.EnsureIdempotent | mcp_transfer_sse.py:20-24 | after a run without a failed `mkdir`, and when no listed path has a failing (denied) `stat`, a second run on the same list issues no `mkdir` and leaves the server unchanged |
| RemoteDirs.EnsureAllMissing | mcp_transfer_sse.py:20-24 | when no listed path exists, the calls are `stat` then `mkdir` for each path, shallowest first, and none fails |
| RemoteDirs.RemoteFs.Stat | mcp_transfer.py:16 | `sftp.stat` reports the server's state for the path and logs one `Stat` call |
| RemoteDirs.RemoteFs.Mkdir | mcp_transfer.py:18 | `sftp.mkdir` adds the directory unless the server refuses it, and logs one `Mkdir` call |
| RemoteDirs.RemoteFs.EnsureOne | mcp_transfer.py:15-18 | one loop iteration issues exactly the calls, and makes exactly the change, that `Ensure` prescribes for the first path |
| RemoteDirs.RemoteFs.EnsureAll | mcp_transfer.py:14-18 | the `for` loop leaves the server and call log as `Ensure` prescribes, and reports the path whose `mkdir` raised |
| RemoteDirs.RemoteFs.EnsureRemoteDir | mcp_transfer.py:7-18 | `ensure_remote_dir` leaves the server and call log as `Ensure` over `Ancestors(remoteDir)` prescribes |
| Upload.FirstMissing | mcp_transfer.py:47-50 | None iff every required option is present; otherwise a required option that is absent |
| Upload.FirstMissingIsFirst | mcp_transfer.py:47-50 | the option reported missing comes after required options that are all present |
| Upload.SftpUpload | mcp_transfer.py:23-92 | a completed write of `code` is recorded iff the call succeeds; success needs a connection and a directory run without a failed `mkdir`; `close` is attempted whenever `connect` was; an escaping exception precedes any connection and any `close` |
| Upload.ErrorMessageRoundTrip | mcp_transfer.py:78-83 | each of the three error messages is read back to its fault kind and detail |
| Upload.OtherMessagesAreNotFailures | mcp_transfer.py:41-83 | the success, invalid-config, no-login and read-failure messages never read as one of the three classified failures |
| Upload.FirstFault | mcp_transfer.py:55-83 | None iff every stage completes; otherwise the fault of a stage that raised |
| Upload.FirstFaultIsFirst | mcp_transfer.py:55-83 | the reported stage is preceded only by stages that completed |
| Upload.UploadFollowsStages | mcp_transfer.py:55-83 | with a usable config and a login method, the outcome is the message of the first failing stage, or success when all stages complete |
| Upload.UploadReadFailure | mcp_transfer.py:37-44 | an unreadable config gives "Failed to read config file: <reason>" and nothing remote happens |
| Upload.UploadInvalidConfig | mcp_transfer.py:40-41 | an empty or non-mapping config gives "Invalid config structure." with no connection, no `close` and no write |
| Upload.UploadMalformedEntry | mcp_transfer.py:47-50 | a non-mapping first entry raises `TypeError`, a missing required option raises `KeyError` for the first one; no connection, no `close` |
| Upload.UploadNoLoginMethod | mcp_transfer.py:59-67 | with neither key file nor password: "No login method provided in config.", no connection, `close` still attempted, no write |
| Upload.UploadKeyBeforePassword | mcp_transfer.py:59-65 | with a key file set the login is key-based, and changing the password changes nothing |
| Upload.UploadSuccess | mcp_transfer.py:69-76 | when every stage completes: the exact success message, `code` written to `<remote_path>/<file_name>`, and the remote path and its ancestors are directories |
| Upload.UploadFailureClassified | mcp_transfer.py:78-92 | every failure inside the session carries the message of the first stage that raised |
| Upload.UploadAuthFailure | mcp_transfer.py:78-79 | rejected credentials give the fixed authentication message, with no directory run, no write, and `close` attempted |
| Upload.UploadAlwaysCloses | mcp_transfer.py:55-89 | with a usable first entry, `close` is attempted on every exit (success, no login method, and every failing stage), and the connect step begins iff there is a login method |
| Upload.CloseErrorsSwallowed | mcp_transfer.py:84-89 | the outcome does not depend on what `close` does |
| Transports.StdioResultRoundTrip | mcp_transfer.py:41-92 | the dictionary has exactly the keys "status" and "message", and the outcome is read back from it unchanged |
| Transports.StdioInvalidConfig | mcp_transfer.py:40-41 | an empty or non-mapping config gives `{"status": "error", "message": "Invalid config structure."}` with no connection |
| Transports.TransportsAgree | mcp_transfer_sse.py:27-94 | the SSE reply is one text item holding the stdio dictionary's message, and both servers raise the same exception |
| Transports.SseInvalidConfig | mcp_transfer_sse.py:44-45 | an empty or non-mapping config gives the single text item "Invalid config structure." with no connection |
| Transports.SseNoLoginMethod | mcp_transfer_sse.py:63-71 | with neither key file nor password, the single text item "No login method provided in config." and no connection |
| Transports.SseSuccess | mcp_transfer_sse.py:73-79 | when every stage completes, the only list element is the success text |
| Transports.SseFailureClassified | mcp_transfer_sse.py:80-94 | a failure inside the session is one text item with the message of the first failing stage |
| Transports.CallTool | mcp_transfer_sse.py:121-130 | an upload runs iff the name is "sftp_upload" and both arguments are present and non-empty; then the reply is the upload's; otherwise a `ValueError` |
| Transports.CallToolRejectsMissingArguments | mcp_transfer_sse.py:123-127 | a missing or empty `file_name` or `code` raises "Missing required parameters." whatever the environment |
| Transports.CallToolRejectsUnknownName | mcp_transfer_sse.py:130 | any other tool name raises "unknow: <name>" and nothing is uploaded |
| Scenarios.AncestorsOfAB | mcp_transfer.py:9-12 | the walk from "/a/b" collects "/a" then "/a/b" |
| Scenarios.FreshServerRun | mcp_transfer.py:14-18 | on an empty server, "/a" is created, then "/a/b" |
| Scenarios.PasswordUploadToFreshServer | mcp_transfer.py:23-92 | password login to an empty server: `stat`/`mkdir` of "/a" then "/a/b", "print(1)" written to "/a/b/x.py", "[SFTP-password] Code written to prod: /a/b/x.py" |
| Scenarios.PasswordRejected | mcp_transfer.py:78-79 | the same call with the login rejected: the authentication message, no directory run, no write |

## Left out

- paramiko is not modelled: `SSHClient`, host-key policy, RSA key loading and the SFTP wire protocol. Loading the key file and `connect` together form the `connect` step of `Env`, whose outcome is a parameter; so are `open_sftp`, the write and `close`.
- Opening `sftp_config.yaml` and YAML parsing are not modelled. The model takes the outcome as a parameter: a read failure with its text, or a parsed document (not a mapping, or an ordered list of alias and entry pairs).
- Option values other than strings are not modelled (YAML numbers such as `port: 22`, nulls, lists). Truthiness is therefore "present and non-empty". A non-string `remote_path`, which would fail inside `dirname`, is left out. Host aliases are strings too: a YAML key such as `1:` or `true:`, which the success message would format as `1` or `True`, is not modelled.
- Upload.SftpUpload: the write step is one outcome. `sftp.open(..., 'w')` creates or truncates `<remote_path>/<file_name>` before `write` runs, so a failing write step may leave a new or emptied file on the server; `written` records only a completed write, and the server's files are not modelled.
- The text of the `TypeError` raised for a non-mapping entry is not modelled; only its kind is.
- Upload.SftpUpload: a `stat` that raises something other than an IOError is not modelled; every failing `stat` leads to `mkdir`. `Env.mkdirFault` is the classified fault a refused `mkdir` raises (an IOError as an unexpected error, a dropped channel as an SSH error), the same for every path.
- RemoteDirs.Ensure: the server compares paths as plain strings, without normalisation. A `remote_path` with a trailing '/' or a '.', '..' or '//' component names one directory by two spellings (for example "/a/b" and "/a/b/"), and the model then issues a `mkdir` for the second spelling that a real server, answering its `stat` with "exists", would not receive. The call-log lemmas (`EnsureAllMissing`, `EnsureMkdirsOnlyAfterFailedStat`) describe the real calls only for normalised paths.
- Failures on leaving the `with` blocks (closing the SFTP channel or the remote file) are not modelled. Only the client's `close` is.
- RemoteDirs.MkdirAllowed: the server's refusals are an abstract set, and a `mkdir` whose parent is absent is not refused by rule. Instead `RemoteDirs.EnsureRemoteDirParentsFirst` proves the walk never issues such a `mkdir`.
- Text encoding of the written content and the `print` logging are not modelled.
- FastMCP registration, the conversion of exceptions escaping a tool into protocol errors, `mcp.run`, and the Starlette/uvicorn/SSE wiring are transport glue and are not modelled. So is the constant `list_tools` schema (mcp_transfer_sse.py:98-120).
- `RemoteFs` records calls in a log; concurrent sessions on one server are not modelled.

## Findings

| source | as written | input that shows it | evidently intended | confidence | as-written member | corrected member |
|---|---|---|---|---|---|---|
| mcp_transfer.py:10-12 (and mcp_transfer_sse.py:16-18) | the upward walk stops only at '', '/' or '.'; `dirname` of a path starting with "//" keeps the leading "//", and `dirname("//")` is "//" | `remote_path` "//srv/up": the walk goes "//srv/up", "//srv", "//", "//", ... and never ends | stop at every root, including "//", which the source evidently did not expect `dirname` to return | not executed | Paths.SourceWalkNeverStops | Paths.AncestorsMatchSourceLoop |
