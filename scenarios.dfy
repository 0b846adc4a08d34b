/**
  Two concrete calls of `sftp_upload`: a password login to a fresh server,
  and the same call with the login rejected.
 */
module Scenarios {
  import opened Wrappers
  import opened Paths
  import opened RemoteDirs
  import opened Upload

  /** One host "prod" at "h:22" as "u", with password "p", uploading into "/a/b". */
  function ProdOptions(): map<string, string> {
    map["host" := "h", "port" := "22", "username" := "u", "remote_path" := "/a/b", "password" := "p"]
  }

  function ProdEnv(connect: Step): Env {
    Env(Parsed(Mapping([("prod", Options(ProdOptions()))])), connect, Done,
        Server({}, {}, {}), OtherFailure(""), Done, Done)
  }

  /** The config is usable, its first host is "prod", and the password is the login method. */
  lemma ProdConfig(connect: Step)
    ensures UsableConfig(ProdEnv(connect), "prod", ProdOptions())
    ensures LoginKind(ProdOptions()) == Some("password")
    ensures ProdOptions()["remote_path"] == "/a/b"
  {
  }

  lemma AncestorsOfAB()
    ensures Ancestors("/a/b") == ["/a", "/a/b"]
  {
    assert SlashPrefixLen("/a/b") == 3;
    var head: string := "/a/b"[..3];
    assert head == "/a/" && head[1] != '/';
    assert StripTrailingSlashes("/a/") == "/a" by {
      assert "/a/"[..2] == "/a";
    }
    assert Dirname("/a/b") == "/a";
    assert SlashPrefixLen("/a") == 1;
    assert "/a"[..1] == "/";
    assert Dirname("/a") == "/";
  }

  /** On the empty server, "/a" is created, then "/a/b". */
  lemma FreshServerRun()
    ensures Ensure(Server({}, {}, {}), Ancestors("/a/b"))
         == Run(Server({"/a", "/a/b"}, {}, {}), [Stat("/a"), Mkdir("/a"), Stat("/a/b"), Mkdir("/a/b")], None)
  {
    AncestorsOfAB();
    var s := Server({}, {}, {});
    var s1 := s.(dirs := {"/a"});
    assert ["/a", "/a/b"][1..] == ["/a/b"];
    assert Ensure(s, ["/a", "/a/b"]) == Prefixed([Stat("/a"), Mkdir("/a")], Ensure(s1, ["/a/b"]));
    assert ["/a/b"][1..] == [];
    assert s1.dirs + {"/a/b"} == {"/a", "/a/b"};
    assert Ensure(s1, ["/a/b"]) == Run(s1.(dirs := {"/a", "/a/b"}), [Stat("/a/b"), Mkdir("/a/b")], None);
  }

  lemma ProdSuccessMessage()
    ensures SuccessMessage("password", "prod", "/a/b", "x.py") == "[SFTP-password] Code written to prod: /a/b/x.py"
  {
  }

  lemma ProdFilePath()
    ensures "/a/b" + "/" + "x.py" == "/a/b/x.py"
  {
  }

  /**
    On a server where neither "/a" nor "/a/b" exists, the call creates "/a"
    then "/a/b", writes "print(1)" to "/a/b/x.py", and reports success with
    the password login kind.
   */
  lemma PasswordUploadToFreshServer()
    ensures var a := SftpUpload("x.py", "print(1)", ProdEnv(Done));
      && a.dirRun.Some?
      && a.dirRun.value.events == [Stat("/a"), Mkdir("/a"), Stat("/a/b"), Mkdir("/a/b")]
      && a.written == Some(RemoteFile("/a/b/x.py", "print(1)"))
      && a.outcome == Succeeded("[SFTP-password] Code written to prod: /a/b/x.py")
  {
    var env := ProdEnv(Done);
    FreshServerRun();
    ProdConfig(Done);
    var options := ProdOptions();
    UploadSuccess("x.py", "print(1)", env, "prod", options);
    var a := SftpUpload("x.py", "print(1)", env);
    assert a.outcome == Succeeded(SuccessMessage("password", "prod", "/a/b", "x.py"));
    ProdSuccessMessage();
    ProdFilePath();
  }

  /** The same call with the login rejected: the authentication message, and no directory or write call. */
  lemma PasswordRejected()
    ensures var a := SftpUpload("x.py", "print(1)", ProdEnv(Fails(AuthFailure)));
      && a.outcome == Failed(AuthFailedMessage)
      && a.dirRun == None && a.written == None
  {
    var env := ProdEnv(Fails(AuthFailure));
    ProdConfig(Fails(AuthFailure));
    UploadAuthFailure("x.py", "print(1)", env, "prod", ProdOptions());
  }
}
