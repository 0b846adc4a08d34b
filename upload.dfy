/**
  The control flow of `sftp_upload`, shared by the stdio and the SSE
  server: read the config, take its first host entry, pick the login
  method (key file before password), connect, open SFTP, ensure the remote
  directory, write the file, and classify every failure. The SSH library,
  the YAML reader and the network are abstract outcomes in `Env`.
 */
module Upload {
  import opened Wrappers
  import opened Paths
  import RemoteDirs

  /** Python exceptions that escape `sftp_upload` (or `call_tool`) instead of becoming a message. */
  datatype PyError = KeyError(key: string) | TypeError | ValueError(message: string)

  /** A host entry of the config: a mapping of option names to text, or any other YAML value. */
  datatype Entry = Options(options: map<string, string>) | NotOptions

  /** The parsed config document: a mapping from host alias to entry (in file order), or any other YAML value. */
  datatype Document = NotMapping | Mapping(hosts: seq<(string, Entry)>)

  /** Opening and parsing the config file either fails with a message or yields a document. */
  datatype ConfigRead = ReadFailed(reason: string) | Parsed(doc: Document)

  /** The exceptions the SSH library raises, as the source's `except` clauses see them. */
  datatype Fault =
    | AuthFailure               // paramiko.AuthenticationException
    | SshFailure(detail: string)  // any other paramiko.SSHException, with str(e)
    | OtherFailure(detail: string) // any other Exception, with str(e)

  /** What one remote step does: complete, or raise. */
  datatype Step = Done | Fails(fault: Fault)

  /**
    Everything outside the function: the config file, loading the key and
    connecting, opening SFTP, the server (and the fault its `mkdir` raises
    when it refuses), writing the file, and closing the client.
   */
  datatype Env = Env(
    config: ConfigRead,
    connect: Step,
    openSftp: Step,
    server: RemoteDirs.Server,
    mkdirFault: Fault,
    write: Step,
    close: Step)

  /** How `sftp_upload` ends: a success or error message, or an exception it lets escape. */
  datatype Outcome = Succeeded(message: string) | Failed(message: string) | Raised(error: PyError)

  datatype RemoteFile = RemoteFile(path: string, content: string)

  /**
    One call of `sftp_upload`: how it ended, whether the connect step (key
    loading and `connect`) began,
    the directory run if `ensure_remote_dir` ran, the file written, and the
    outcome of `close` if `close` was called (that outcome is then ignored).
   */
  datatype Attempt = Attempt(
    outcome: Outcome,
    connectAttempted: bool,
    dirRun: Option<RemoteDirs.Run>,
    written: Option<RemoteFile>,
    closed: Option<Step>)

  const InvalidConfigMessage := "Invalid config structure."
  const NoLoginMessage := "No login method provided in config."
  /** The tag that begins each of the three failure messages. */
  const ErrorTag := "[Error] "
  const AuthFailedMessage := ErrorTag + "Authentication failed." + " Check your credentials."
  const SshErrorPrefix := ErrorTag + "SSH error: "
  const UnexpectedErrorPrefix := ErrorTag + "Unexpected error: "

  /** The options read with `cfg[...]`, in the order the source reads them. */
  const RequiredOptions := ["host", "port", "username", "remote_path"]

  function ReadFailedMessage(reason: string): string {
    "Failed to read config file: " + reason
  }

  function SuccessMessage(loginKind: string, alias: string, remotePath: string, fileName: string): string {
    "[SFTP-" + loginKind + "] Code written to " + alias + ": " + remotePath + "/" + fileName
  }

  /** The message of each `except` clause. */
  function ErrorMessage(f: Fault): string {
    match f
    case AuthFailure => AuthFailedMessage
    case SshFailure(d) => SshErrorPrefix + d
    case OtherFailure(d) => UnexpectedErrorPrefix + d
  }

  /**
    The first of `keys` absent from `options`: the key whose `cfg[key]`
    raises `KeyError`.
   */
  function FirstMissing(options: map<string, string>, keys: seq<string>): (k: Option<string>)
    ensures k == None <==> forall key | key in keys :: key in options
    ensures k.Some? ==> k.value in keys && k.value !in options
  {
    if keys == [] then None
    else if keys[0] !in options then Some(keys[0])
    else FirstMissing(options, keys[1..])
  }

  /** The key reported missing comes after keys that are all present. */
  lemma {:induction false} FirstMissingIsFirst(options: map<string, string>, keys: seq<string>)
    requires FirstMissing(options, keys).Some?
    ensures exists i | 0 <= i < |keys| :: keys[i] == FirstMissing(options, keys).value
              && forall j | 0 <= j < i :: keys[j] in options
  {
    if keys[0] in options {
      FirstMissingIsFirst(options, keys[1..]);
      var i :| 0 <= i < |keys[1..]| && keys[1..][i] == FirstMissing(options, keys).value
               && forall j | 0 <= j < i :: keys[1..][j] in options;
      assert keys[i + 1] == keys[1..][i];
    } else {
      assert keys[0] == FirstMissing(options, keys).value;
    }
  }

  /** Python truthiness of `cfg.get(key)` for a text option. */
  predicate Truthy(options: map<string, string>, key: string) {
    key in options && options[key] != ""
  }

  /** The login the source chooses: the key file if set, else the password, else none. */
  function LoginKind(options: map<string, string>): Option<string> {
    if Truthy(options, "key_file_path") then Some("key-based")
    else if Truthy(options, "password") then Some("password")
    else None
  }

  /** An attempt that ended before the SSH client existed. */
  function Early(o: Outcome): Attempt {
    Attempt(o, false, None, None, None)
  }

  /**
    The part of `sftp_upload` inside the second `try`: the client exists,
    so `close` is attempted on every way out, and its outcome is ignored.
   */
  function Session(alias: string, options: map<string, string>, fileName: string, code: string, env: Env): (a: Attempt)
    requires forall key | key in RequiredOptions :: key in options
  {
    var remotePath := options["remote_path"];
    var closed := Some(env.close);
    match LoginKind(options)
    case None => Attempt(Failed(NoLoginMessage), false, None, None, closed)
    case Some(kind) =>
      match env.connect
      case Fails(f) => Attempt(Failed(ErrorMessage(f)), true, None, None, closed)
      case Done =>
        match env.openSftp
        case Fails(f) => Attempt(Failed(ErrorMessage(f)), true, None, None, closed)
        case Done =>
          var run := RemoteDirs.Ensure(env.server, Ancestors(remotePath));
          if run.failedAt.Some? then
            Attempt(Failed(ErrorMessage(env.mkdirFault)), true, Some(run), None, closed)
          else
            match env.write
            case Fails(f) => Attempt(Failed(ErrorMessage(f)), true, Some(run), None, closed)
            case Done =>
              Attempt(Succeeded(SuccessMessage(kind, alias, remotePath, fileName)), true, Some(run),
                      Some(RemoteFile(remotePath + "/" + fileName, code)), closed)
  }

  /**
    `sftp_upload(file_name, code)`. A file is written exactly when the call
    succeeds; success needs a connection and a directory run in which no
    `mkdir` raised; `close` is attempted whenever `connect` was; an escaping
    exception happens before any connection.
   */
  function SftpUpload(fileName: string, code: string, env: Env): (a: Attempt)
    ensures a.written.Some? <==> a.outcome.Succeeded?
    ensures a.outcome.Succeeded? ==> a.connectAttempted && a.dirRun.Some? && a.dirRun.value.failedAt == None
    ensures a.connectAttempted ==> a.closed == Some(env.close)
    ensures a.outcome.Raised? ==> !a.connectAttempted && a.closed == None
  {
    match env.config
    case ReadFailed(reason) => Early(Failed(ReadFailedMessage(reason)))
    case Parsed(doc) =>
      if doc.NotMapping? || doc.hosts == [] then Early(Failed(InvalidConfigMessage))
      else
        var (alias, entry) := doc.hosts[0];
        match entry
        case NotOptions => Early(Raised(TypeError))
        case Options(options) =>
          match FirstMissing(options, RequiredOptions)
          case Some(key) => Early(Raised(KeyError(key)))
          case None => Session(alias, options, fileName, code, env)
  }

  /** The first host entry, when the document is a non-empty mapping whose first entry holds every required option. */
  predicate UsableConfig(env: Env, alias: string, options: map<string, string>) {
    && env.config.Parsed?
    && env.config.doc.Mapping?
    && env.config.doc.hosts != []
    && env.config.doc.hosts[0] == (alias, Options(options))
    && forall key | key in RequiredOptions :: key in options
  }

  // ---------------------------------------------------------------------
  // Reading the error text back: the three failure kinds are told apart
  // by their messages, and no other message looks like one of them.
  // ---------------------------------------------------------------------

  /** The failure an error message reports, if it is one of the three `except` messages. */
  function ParseErrorMessage(m: string): Option<Fault> {
    if m == AuthFailedMessage then Some(AuthFailure)
    else if SshErrorPrefix <= m then Some(SshFailure(m[|SshErrorPrefix|..]))
    else if UnexpectedErrorPrefix <= m then Some(OtherFailure(m[|UnexpectedErrorPrefix|..]))
    else None
  }

  /** The classification is recoverable from the text: kind and detail. */
  lemma ErrorMessageRoundTrip(f: Fault)
    ensures ParseErrorMessage(ErrorMessage(f)) == Some(f)
  {
    var m := ErrorMessage(f);
    match f
    case AuthFailure =>
    case SshFailure(d) =>
      assert m[8] == SshErrorPrefix[8] == 'S';
      assert |ErrorTag| == 8 && AuthFailedMessage[8] == 'A';
      assert m[|SshErrorPrefix|..] == d;
    case OtherFailure(d) =>
      assert m[8] == UnexpectedErrorPrefix[8] == 'U';
      assert |ErrorTag| == 8 && AuthFailedMessage[8] == 'A' && SshErrorPrefix[8] == 'S';
      assert m[|UnexpectedErrorPrefix|..] == d;
  }

  /** No message of a successful upload, nor of a config or login problem, reads as a classified failure. */
  lemma OtherMessagesAreNotFailures(kind: string, alias: string, remotePath: string, fileName: string, reason: string)
    ensures ParseErrorMessage(SuccessMessage(kind, alias, remotePath, fileName)) == None
    ensures ParseErrorMessage(InvalidConfigMessage) == None
    ensures ParseErrorMessage(NoLoginMessage) == None
    ensures ParseErrorMessage(ReadFailedMessage(reason)) == None
  {
    assert AuthFailedMessage[1] == SshErrorPrefix[1] == UnexpectedErrorPrefix[1] == ErrorTag[1] == 'E';
    var s := SuccessMessage(kind, alias, remotePath, fileName);
    assert s[1] == 'S';
    var r := ReadFailedMessage(reason);
    assert r[1] == 'a';
    assert InvalidConfigMessage[1] == 'n' && NoLoginMessage[1] == 'o';
  }

  // ---------------------------------------------------------------------
  // The session as a sequence of stages (connect, open SFTP, ensure the
  // directory, write): a reference definition of the result.
  // ---------------------------------------------------------------------

  /** The directory stage as a step: the fault of the failing `mkdir`, if any. */
  function DirStep(run: RemoteDirs.Run, mkdirFault: Fault): Step {
    if run.failedAt.Some? then Fails(mkdirFault) else Done
  }

  /** The stages of a session, in the order the source runs them. */
  function Stages(remotePath: string, env: Env): seq<Step> {
    [env.connect, env.openSftp, DirStep(RemoteDirs.Ensure(env.server, Ancestors(remotePath)), env.mkdirFault), env.write]
  }

  /** The first stage that raises; the later stages never run. */
  function FirstFault(stages: seq<Step>): (f: Option<Fault>)
    ensures f == None <==> forall i | 0 <= i < |stages| :: stages[i] == Done
    ensures f.Some? ==> Fails(f.value) in stages
  {
    if stages == [] then None
    else if stages[0].Fails? then Some(stages[0].fault)
    else FirstFault(stages[1..])
  }

  /** The stage reported is preceded only by stages that completed. */
  lemma {:induction false} FirstFaultIsFirst(stages: seq<Step>)
    requires FirstFault(stages).Some?
    ensures exists i | 0 <= i < |stages| :: stages[i] == Fails(FirstFault(stages).value)
              && forall j | 0 <= j < i :: stages[j] == Done
  {
    if stages[0] == Done {
      FirstFaultIsFirst(stages[1..]);
      var i :| 0 <= i < |stages[1..]| && stages[1..][i] == Fails(FirstFault(stages).value)
               && forall j | 0 <= j < i :: stages[1..][j] == Done;
      assert stages[i + 1] == stages[1..][i];
    } else {
      assert stages[0] == Fails(FirstFault(stages).value);
    }
  }

  /**
    With a usable config and a login method, the result is decided by the
    first failing stage: its classified message, or the success message
    when every stage completes.
   */
  lemma UploadFollowsStages(fileName: string, code: string, env: Env, alias: string, options: map<string, string>)
    requires UsableConfig(env, alias, options) && LoginKind(options).Some?
    ensures var a := SftpUpload(fileName, code, env);
      a.outcome == match FirstFault(Stages(options["remote_path"], env))
        case None => Succeeded(SuccessMessage(LoginKind(options).value, alias, options["remote_path"], fileName))
        case Some(f) => Failed(ErrorMessage(f))
  {
    assert FirstMissing(options, RequiredOptions) == None;
    var remotePath := options["remote_path"];
    var run := RemoteDirs.Ensure(env.server, Ancestors(remotePath));
    var stages := [env.connect, env.openSftp, DirStep(run, env.mkdirFault), env.write];
    assert Stages(remotePath, env) == stages;
    if env.connect.Done? {
      assert FirstFault(stages) == FirstFault(stages[1..]);
      if env.openSftp.Done? {
        assert FirstFault(stages[1..]) == FirstFault(stages[2..]);
        if run.failedAt == None {
          assert FirstFault(stages[2..]) == FirstFault(stages[3..]);
        }
      }
    }
  }

  // ---------------------------------------------------------------------
  // The properties of each branch.
  // ---------------------------------------------------------------------

  /** An unreadable config file ends the call with its message; nothing remote happens. */
  lemma UploadReadFailure(fileName: string, code: string, env: Env)
    requires env.config.ReadFailed?
    ensures SftpUpload(fileName, code, env) == Early(Failed(ReadFailedMessage(env.config.reason)))
  {
  }

  /** A document that is not a mapping, or an empty one, gives "Invalid config structure." with no connection and no `close`. */
  lemma UploadInvalidConfig(fileName: string, code: string, env: Env)
    requires env.config.Parsed? && (env.config.doc.NotMapping? || env.config.doc.hosts == [])
    ensures var a := SftpUpload(fileName, code, env);
      a.outcome == Failed(InvalidConfigMessage) && !a.connectAttempted && a.closed == None && a.written == None
  {
  }

  /**
    A first entry that is not a mapping, or lacks a required option, raises
    out of `sftp_upload` (the lookups stand outside any `try`): `TypeError`,
    or `KeyError` for the first missing option; nothing remote happens.
   */
  lemma UploadMalformedEntry(fileName: string, code: string, env: Env)
    requires env.config.Parsed? && env.config.doc.Mapping? && env.config.doc.hosts != []
    requires var entry := env.config.doc.hosts[0].1;
      entry.NotOptions? || FirstMissing(entry.options, RequiredOptions).Some?
    ensures var a := SftpUpload(fileName, code, env);
      var entry := env.config.doc.hosts[0].1;
      && a.outcome == (if entry.NotOptions? then Raised(TypeError)
                       else Raised(KeyError(FirstMissing(entry.options, RequiredOptions).value)))
      && !a.connectAttempted && a.closed == None
  {
  }

  /**
    With neither a key file nor a password the call fails with "No login
    method provided in config." without connecting; the client already
    exists, so `close` is still attempted.
   */
  lemma UploadNoLoginMethod(fileName: string, code: string, env: Env, alias: string, options: map<string, string>)
    requires UsableConfig(env, alias, options)
    requires !Truthy(options, "key_file_path") && !Truthy(options, "password")
    ensures var a := SftpUpload(fileName, code, env);
      a.outcome == Failed(NoLoginMessage) && !a.connectAttempted && a.closed == Some(env.close) && a.written == None
  {
    assert FirstMissing(options, RequiredOptions) == None;
  }

  /** A key file takes precedence: whatever the password option holds, the call is the same and logs in with the key. */
  lemma UploadKeyBeforePassword(fileName: string, code: string, env: Env, alias: string, options: map<string, string>, password: string)
    requires UsableConfig(env, alias, options) && Truthy(options, "key_file_path")
    ensures LoginKind(options) == Some("key-based")
    ensures var options' := options["password" := password];
      var env' := env.(config := Parsed(Mapping([(alias, Options(options'))] + env.config.doc.hosts[1..])));
      SftpUpload(fileName, code, env') == SftpUpload(fileName, code, env)
  {
    var options' := options["password" := password];
    var env' := env.(config := Parsed(Mapping([(alias, Options(options'))] + env.config.doc.hosts[1..])));
    assert UsableConfig(env', alias, options');
    assert FirstMissing(options, RequiredOptions) == None;
    assert FirstMissing(options', RequiredOptions) == None;
    assert options'["remote_path"] == options["remote_path"];
  }

  /**
    When every stage completes, the call succeeds with
    "[SFTP-<kind>] Code written to <alias>: <remote_path>/<file_name>",
    writes `code` to `<remote_path>/<file_name>`, and afterwards the remote
    path and each of its ancestors is a directory of the server.
   */
  lemma UploadSuccess(fileName: string, code: string, env: Env, alias: string, options: map<string, string>)
    requires UsableConfig(env, alias, options) && LoginKind(options).Some?
    requires env.connect == Done && env.openSftp == Done && env.write == Done
    requires RemoteDirs.Ensure(env.server, Ancestors(options["remote_path"])).failedAt == None
    ensures var a := SftpUpload(fileName, code, env);
      var remotePath := options["remote_path"];
      && a.outcome == Succeeded(SuccessMessage(LoginKind(options).value, alias, remotePath, fileName))
      && a.written == Some(RemoteFile(remotePath + "/" + fileName, code))
      && a.dirRun == Some(RemoteDirs.Ensure(env.server, Ancestors(remotePath)))
      && forall d | d in Ancestors(remotePath) :: d in a.dirRun.value.server.dirs
  {
    assert FirstMissing(options, RequiredOptions) == None;
    RemoteDirs.EnsureEffect(env.server, Ancestors(options["remote_path"]));
  }

  /**
    Once the first entry is usable the client exists, so `close` is attempted
    on every way out: success, no login method, and each failing stage.
    The connect step begins exactly when there is a login method.
   */
  lemma UploadAlwaysCloses(fileName: string, code: string, env: Env, alias: string, options: map<string, string>)
    requires UsableConfig(env, alias, options)
    ensures var a := SftpUpload(fileName, code, env);
      && a.closed == Some(env.close)
      && (a.connectAttempted <==> LoginKind(options).Some?)
  {
    assert FirstMissing(options, RequiredOptions) == None;
  }

  /** Every failure inside the session carries the classified message of the first stage that raised. */
  lemma UploadFailureClassified(fileName: string, code: string, env: Env, alias: string, options: map<string, string>)
    requires UsableConfig(env, alias, options) && LoginKind(options).Some?
    requires SftpUpload(fileName, code, env).outcome.Failed?
    ensures var m := SftpUpload(fileName, code, env).outcome.message;
      exists f :: FirstFault(Stages(options["remote_path"], env)) == Some(f) && m == ErrorMessage(f)
  {
    UploadFollowsStages(fileName, code, env, alias, options);
    var f := FirstFault(Stages(options["remote_path"], env));
    assert f.Some?;
  }

  /** An authentication failure yields the fixed message, and no directory or write call is issued. */
  lemma UploadAuthFailure(fileName: string, code: string, env: Env, alias: string, options: map<string, string>)
    requires UsableConfig(env, alias, options) && LoginKind(options).Some?
    requires env.connect == Fails(AuthFailure)
    ensures var a := SftpUpload(fileName, code, env);
      a.outcome == Failed(AuthFailedMessage) && a.dirRun == None && a.written == None && a.closed == Some(env.close)
  {
    assert FirstMissing(options, RequiredOptions) == None;
  }

  /** Errors from `close` are swallowed: the outcome does not depend on what `close` does. */
  lemma CloseErrorsSwallowed(fileName: string, code: string, env: Env, close: Step)
    ensures SftpUpload(fileName, code, env.(close := close)).outcome == SftpUpload(fileName, code, env).outcome
  {
    match env.config
    case ReadFailed(_) =>
    case Parsed(doc) =>
      if doc.Mapping? && doc.hosts != [] && doc.hosts[0].1.Options? {
        var options := doc.hosts[0].1.options;
        if FirstMissing(options, RequiredOptions) == None {
          var alias := doc.hosts[0].0;
          assert Session(alias, options, fileName, code, env.(close := close)).outcome
              == Session(alias, options, fileName, code, env).outcome;
        }
      }
  }
}
