/**
 The replies to the commands the client sends hold no line break of their own, so each is one line on the
 control connection.
 */
module ReplyLines {
  import opened Client
  import opened SessionPaths
  import opened SessionSpec
  import Address
  import Decimal

  ghost predicate AllLinesPlain(replies: seq<Reply>) { forall i :: 0 <= i < |replies| ==> Readable(replies[i]) }

  // The part of the current directory below the user's root, all that PWD prints.
  ghost predicate PlainBelow(st: State) { st.root <= st.cwd && Plain(st.cwd[|st.root|..]) }

  // What a command without line breaks leaves.
  ghost predicate Tidy(o: Outcome) { AllLinesPlain(o.replies) && PlainBelow(o.st) }

  lemma Concat(a: string, b: string)
    ensures Plain(a + b) <==> Plain(a) && Plain(b)
  {
    assert forall i :: 0 <= i < |a| ==> a[i] == (a + b)[i];
    assert forall i :: 0 <= i < |b| ==> b[i] == (a + b)[|a| + i];
  }

  // ---------------------------------------------------------------- the fixed texts

  lemma PathTexts()
    ensures Plain("Path required") && Plain("Permission denied") && Plain("Invalid filename")
  {
  }

  lemma DirectoryTexts()
    ensures Plain("Directory changed.") && Plain("Directory not found: ")
    ensures Plain("\"") && Plain("\" is current directory")
  {
  }

  lemma DeleteTexts()
    ensures Plain("File deleted.") && Plain("Could not delete file.") && Plain("\" directory created.")
  {
  }

  lemma RemoveTexts()
    ensures Plain("Could not create directory.") && Plain("Directory removed.") && Plain("Could not remove directory.")
  {
  }

  lemma SourceTexts()
    ensures Plain("Ready for destination name.") && Plain("File not found.") && Plain("Send RNFR first")
  {
  }

  lemma RenameTexts()
    ensures Plain("File renamed.") && Plain("Could not rename.") && Plain("File not found: ")
  {
  }

  lemma OpeningTexts()
    ensures Plain("Opening data connection for ") && Plain("LIST") && Plain("RETR") && Plain("STOR")
  {
  }

  lemma DataTexts()
    ensures Plain("Cannot open data connection") && Plain("Directory listing complete.")
    ensures Plain("Exceeded storage allocation. Upload aborted.")
  {
  }

  lemma TransferTexts()
    ensures Plain("Upload complete") && Plain("Transfer complete")
    ensures Plain("Upload failed.") && Plain("Transfer aborted.")
  {
  }

  lemma PassiveTexts()
    ensures Plain("227 Entering Passive Mode (127,0,0,1,") && Plain(",") && Plain(")")
    ensures Plain("Cannot enter passive mode")
  {
  }

  lemma PasvTexts(port: nat)
    ensures Plain("Cannot enter passive mode") && Plain(Address.PasvResponse(port)[4..])
  {
    var a, b := Decimal.Print(port / 256), Decimal.Print(port % 256);
    assert Plain(a) by { assert forall i :: 0 <= i < |a| ==> Decimal.IsDigit(a[i]); }
    assert Plain(b) by { assert forall i :: 0 <= i < |b| ==> Decimal.IsDigit(b[i]); }
    hide Plain, Decimal.Print;
    PassiveTexts();
    var head := "227 Entering Passive Mode (127,0,0,1,";
    Concat(head, a);
    Concat(head + a, ",");
    Concat(head + a + ",", b);
    Concat(head + a + "," + b, ")");
    var resp := Address.PasvResponse(port);
    assert resp == resp[..4] + resp[4..];
    Concat(resp[..4], resp[4..]);
  }

  // ---------------------------------------------------------------- the handlers

  lemma ResolvedPlain(st: State, arg: string)
    requires PlainBelow(st) && Plain(arg)
    ensures var p := Resolve(st.root, st.cwd, arg); st.root <= p && Plain(p[|st.root|..])
  {
    var p, below, a := Resolve(st.root, st.cwd, arg), st.cwd[|st.root|..], Normalise(arg);
    assert st.cwd == st.root + below;
    if arg != "" {
      if a[0] == '\\' { assert p[|st.root|..] == a; } else { assert p[|st.root|..] == below + "\\" + a; }
    }
  }

  lemma PwdTidy(st: State)
    requires PlainBelow(st)
    ensures Tidy(Say(st, 257, "\"" + SessionPaths.Pwd(st.root, st.cwd) + "\" is current directory"))
  {
    DirectoryTexts();
    var path := SessionPaths.Pwd(st.root, st.cwd);
    assert Plain(path);
    hide Plain, SessionPaths.Pwd;
    Concat("\"", path);
    Concat("\"" + path, "\" is current directory");
  }

  lemma CwdTidy(st: State, arg: string, w: World)
    requires PlainBelow(st) && Plain(arg)
    ensures Tidy(HandleCwd(st, arg, w))
  {
    ResolvedPlain(st, arg);
    PathTexts();
    DirectoryTexts();
    Concat("Directory not found: ", arg);
    hide Plain, Resolve, WithinRoot;
  }

  lemma CallTidy(st: State, arg: string, yes: Reply, no: Reply, w: World)
    requires PlainBelow(st) && Readable(yes) && Readable(no)
    ensures Tidy(HandleFileCall(st, arg, yes, no, w))
  {
    PathTexts();
    hide Plain, Resolve, WithinRoot, SafeFilename;
  }

  lemma RenameTidy(st: State, arg: string, w: World)
    requires PlainBelow(st)
    ensures Tidy(HandleRnfr(st, arg, w)) && Tidy(HandleRnto(st, arg, w))
  {
    PathTexts();
    SourceTexts();
    RenameTexts();
    hide Plain, Resolve, WithinRoot, SafeFilename;
  }

  lemma PasvTidy(st: State, w: World)
    requires PlainBelow(st)
    ensures Tidy(HandlePasv(st, w))
  {
    hide Plain, Address.PasvResponse;
    PasvTexts(if w.passive.Listening? then w.passive.port else 0);
  }

  lemma ListTidy(st: State, w: World)
    requires PlainBelow(st)
    ensures Tidy(HandleListing(st, Reply(150, "Opening data connection for LIST"), "Directory listing complete.", w))
  {
    hide Plain;
    OpeningTexts();
    DataTexts();
    Concat("Opening data connection for ", "LIST");
    assert "Opening data connection for " + "LIST" == "Opening data connection for LIST";
  }

  lemma TransferTidy(st: State, storing: bool, arg: string, w: World)
    requires PlainBelow(st) && Plain(arg)
    ensures Tidy(HandleTransfer(st, storing, arg, w))
  {
    PathTexts();
    RenameTexts();
    OpeningTexts();
    DataTexts();
    TransferTexts();
    Concat("File not found: ", arg);
    Concat("Opening data connection for ", if storing then "STOR" else "RETR");
    hide Plain, Resolve, WithinRoot, SafeFilename;
  }

  predicate SentByClient(v: Verb) {
    v.PWD? || v.CWD? || v.DELE? || v.MKD? || v.RMD? || v.RNFR? || v.RNTO? || v.PASV? || v.LIST? || v.RETR? || v.STOR?
  }

  /** Every reply to a command of the client is one line, and the current directory stays free of line
      breaks below the user's root. */
  lemma RepliesAreLines(st: State, c: Command, w: World)
    requires PlainBelow(st) && Plain(c.argument) && SentByClient(c.verb)
    ensures Tidy(DispatchReady(st, c, w))
  {
    hide HandleCwd, HandlePasv, HandleListing, HandleTransfer, HandleFileCall, HandleRnfr, HandleRnto,
         SessionPaths.Pwd, Plain, Tidy, PlainBelow;
    var arg := c.argument;
    DeleteTexts();
    RemoveTexts();
    match c.verb
    case PWD => PwdTidy(st);
    case CWD => CwdTidy(st, arg, w);
    case PASV => PasvTidy(st, w);
    case LIST => ListTidy(st, w);
    case RETR => TransferTidy(st, false, arg, w);
    case STOR => TransferTidy(st, true, arg, w);
    case DELE => CallTidy(st, arg, Reply(250, "File deleted."), Reply(550, "Could not delete file."), w);
    case MKD =>
      DirectoryTexts();
      Concat("\"", arg);
      Concat("\"" + arg, "\" directory created.");
      CallTidy(st, arg, Reply(257, "\"" + arg + "\" directory created."), Reply(550, "Could not create directory."), w);
    case RMD => CallTidy(st, arg, Reply(250, "Directory removed."), Reply(550, "Could not remove directory."), w);
    case RNFR => RenameTidy(st, arg, w);
    case RNTO => RenameTidy(st, arg, w);
  }
}
