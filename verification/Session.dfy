/**
 The session as an object: its fields updated in place by one method a handler, its path helpers as loops
 over characters, and its command loop.  Every method is tied to SessionSpec.
 */
module Session {
  import opened SessionSpec
  import opened SessionPaths
  import S = SessionSpec
  import AuthManager
  import Credentials
  import LoginThrottle
  import Address
  import Transfer
  import Decimal

  class Session {
    const cfg: Config
    const auth: AuthManager.AuthManager  // shared by all sessions
    var state: Phase
    var username: string
    var userRootDir: string
    var currentDir: string
    var renameFrom: string
    var restartOffset: nat
    var sent: seq<Reply>          // the control socket's output
    var transfers: seq<Started>   // the transfers begun
    var login: Login              // a history

    ghost function View(): State
      reads this
    {
      State(state, username, userRootDir, currentDir, renameFrom, restartOffset, login)
    }

    // The object has moved as the outcome says.
    twostate predicate Did(o: Outcome)
      reads this
    {
      && View() == o.st && sent == old(sent) + o.replies
      && transfers == old(transfers) + (if o.started.Started? then [o.started] else [])
    }

    constructor (cfg: Config, auth: AuthManager.AuthManager)
      ensures View() == INITIAL.(phase := Connected) && sent == [] && transfers == []
      ensures this.cfg == cfg && this.auth == auth
    {
      this.cfg, this.auth := cfg, auth;
      state, username, userRootDir, currentDir := Connected, "", "", "";
      renameFrom, restartOffset, sent, transfers := "", 0, [], [];
      login := Nobody;
    }

    method SendReply(code: nat, text: string)
      modifies this`sent
      ensures sent == old(sent) + [Reply(code, text)]
    {
      sent := sent + [Reply(code, text)];
    }

    // A handler that only answers.
    method JustSay(code: nat, text: string)
      modifies this`sent
      ensures Did(Say(old(View()), code, text))
    {
      SendReply(code, text);
    }

    // ---------------------------------------------------------------- helpers that rewrite strings

    static method CleanCommand(cmd: string) returns (c: string)
      ensures c == Clean(cmd)
    {
      c := cmd;
      while c != "" && (c[|c| - 1] == '\r' || c[|c| - 1] == '\n')
        invariant StripEnd(c) == StripEnd(cmd)
        decreases |c|
      {
        c := c[..|c| - 1];
      }
      ghost var stripped := c;
      while c != "" && (c[0] == ' ' || c[0] == '\t')
        invariant StripStart(c) == StripStart(stripped)
        decreases |c|
      {
        c := c[1..];
      }
    }

    method ResolvePath(arg: string) returns (path: string)
      ensures path == Resolve(userRootDir, currentDir, arg)
    {
      if arg == "" { return currentDir; }
      var a := arg;
      var i := 0;
      while i < |a|
        invariant i <= |a| == |arg|
        invariant forall j :: 0 <= j < i ==> a[j] == NormaliseChar(arg[j])
        invariant forall j :: i <= j < |a| ==> a[j] == arg[j]
      {
        if a[i] == '/' { a := a[i := '\\']; }
        i := i + 1;
      }
      assert a == Normalise(arg);
      if a[0] == '\\' { return userRootDir + a; }
      return currentDir + "\\" + a;
    }

    method IsWithinRoot(path: string) returns (within: bool)
      ensures within == WithinRoot(userRootDir, path)
    {
      if |path| < |userRootDir| { return false; }
      return Lower(path[..|userRootDir|]) == Lower(userRootDir);
    }

    static method IsSafeFilename(name: string) returns (safe: bool)
      ensures safe == SafeFilename(name)
    {
      if name == "" { return false; }
      var i := 0;
      while i < |name|
        invariant i <= |name| && forall j :: 0 <= j < i ==> name[j] >= 0x20 as char
      {
        if name[i] < 0x20 as char { return false; }
        i := i + 1;
      }
      return true;
    }

    // ---------------------------------------------------------------- login

    method EnterHome()
      modifies this`userRootDir, this`currentDir, this`state, this`login
      ensures View() == LoggedIn(old(View()), cfg, username) && state == Ready
    {
      userRootDir := cfg.rootDir + "\\" + username;
      currentDir := userRootDir;
      state := Ready;
      login := As(username);
    }

    method HandleUser(arg: string)
      modifies this
      ensures Did(S.HandleUser(old(View()), cfg, arg))
    {
      if arg == "" { SendReply(501, "Username required"); return; }
      if (arg == "anonymous" || arg == "ftp") && cfg.allowAnonymous {
        username := "anonymous";
        EnterHome();
        SendReply(230, "Anonymous login OK.");
        return;
      }
      username := arg;
      state := WaitPass;
      login := Nobody;
      SendReply(331, "Password required for " + arg);
    }

    // What the other sessions have made of the shared tables since this one looked last.
    method Meanwhile(w: World)
      modifies auth`users, auth`rateMap
      ensures auth.users == w.users && auth.rateMap == w.rates
    {
      auth.users, auth.rateMap := w.users, w.rates;
    }

    // The check, the authentication and the record are three calls; no other session comes between them here.
    method HandlePass(arg: string, w: World)
      requires auth.users == w.users && auth.rateMap == w.rates
      modifies this, auth`rateMap, auth`totalFailed
      ensures Did(S.HandlePass(old(View()), cfg, arg, w))
      ensures old(state) != WaitPass ==> auth.rateMap == w.rates
      ensures old(state) == WaitPass ==>
                auth.rateMap
                == LoginThrottle.AfterPass(w.rates, w.ip, RightPassword(old(View()), arg, w), w.now, w.later)
      ensures auth.totalFailed == old(auth.totalFailed) + (if old(state) == WaitPass && state == WaitUser then 1 else 0)
    {
      hide LoggedIn, Credentials.Authenticates, LoginThrottle.AfterCheck, LoginThrottle.AfterFailure,
           LoginThrottle.AfterClear;
      if state != WaitPass { SendReply(503, "Send USER first"); return; }
      var limited := auth.IsRateLimited(w.ip, w.now);
      if limited {
        SendReply(421, "Too many failed attempts. Try again later.");
        state := Closed;
        return;
      }
      var ok := auth.Authenticate(username, arg);
      if ok {
        EnterHome();
        auth.ClearAttempts(w.ip);
        SendReply(230, "Welcome, " + username + ".");
      } else {
        auth.RecordFailedAttempt(w.ip, w.later);
        state := WaitUser;
        SendReply(530, "Login incorrect");
      }
    }

    // ---------------------------------------------------------------- directories

    method HandlePwd()
      modifies this`sent
      ensures Did(Say(old(View()), 257, "\"" + Pwd(userRootDir, currentDir) + "\" is current directory"))
    {
      var vpath := "/";
      if |currentDir| > |userRootDir| { vpath := currentDir[|userRootDir|..]; }
      ghost var start := vpath;
      var i := 0;
      while i < |vpath|
        invariant i <= |vpath| == |start|
        invariant forall j :: 0 <= j < i ==> vpath[j] == VirtualChar(start[j])
        invariant forall j :: i <= j < |vpath| ==> vpath[j] == start[j]
      {
        if vpath[i] == '\\' { vpath := vpath[i := '/']; }
        i := i + 1;
      }
      assert vpath == Virtual(start);
      SendReply(257, "\"" + vpath + "\" is current directory");
    }

    method HandleCwd(arg: string, w: World)
      modifies this`currentDir, this`sent
      ensures Did(S.HandleCwd(old(View()), arg, w))
    {
      if arg == "" { SendReply(501, "Path required"); return; }
      var p := ResolvePath(arg);
      var within := IsWithinRoot(p);
      if !within { SendReply(550, "Permission denied"); return; }
      if w.isDirectory {
        currentDir := p;
        SendReply(250, "Directory changed.");
      } else {
        SendReply(550, "Directory not found: " + arg);
      }
    }

    method HandleCdup()
      modifies this`currentDir, this`sent
      ensures Did(Say(old(View()).(cwd := Cdup(userRootDir, old(currentDir))), 250, "Directory changed to parent."))
    {
      var pos := |currentDir| - 1;
      while pos >= 0 && currentDir[pos] != '\\'
        invariant -1 <= pos < |currentDir| && forall j :: pos < j < |currentDir| ==> currentDir[j] != '\\'
      {
        pos := pos - 1;
      }
      LastIs(currentDir, '\\', pos);
      if pos >= 0 && currentDir != userRootDir {
        var parent := currentDir[..pos];
        var within := IsWithinRoot(parent);
        if within { currentDir := parent; }
      }
      SendReply(250, "Directory changed to parent.");
    }

    // ---------------------------------------------------------------- transfers

    method HandleListing(first: Reply, done: string, w: World)
      requires state == Ready
      modifies this`state, this`sent
      ensures Did(S.HandleListing(old(View()), first, done, w))
    {
      sent := sent + [first];
      if !w.dataOpens { SendReply(425, "Cannot open data connection"); return; }
      state := Transferring;
      state := Ready;
      SendReply(226, done);
    }

    method HandleRetr(arg: string, w: World)
      requires state == Ready
      modifies this`state, this`sent, this`restartOffset, this`transfers
      ensures Did(HandleTransfer(old(View()), false, arg, w))
    {
      hide SafeFilename, Resolve, WithinRoot, TransferReply;
      var safe := IsSafeFilename(arg);
      if !safe { SendReply(501, "Invalid filename"); return; }
      var path := ResolvePath(arg);
      var within := IsWithinRoot(path);
      if !within { SendReply(550, "Permission denied"); return; }
      if !w.present || w.isDirectory { SendReply(550, "File not found: " + arg); return; }
      var first := Reply(150, "Opening data connection for RETR");
      sent := sent + [first];
      assert first.text == "Opening data connection for " + if false then "STOR" else "RETR";
      if !w.dataOpens {
        SendReply(425, "Cannot open data connection");
        assert sent == old(sent) + [first, Reply(425, "Cannot open data connection")];
        return;
      }
      state := Transferring;
      transfers := transfers + [Started(path, restartOffset)];
      restartOffset := 0;
      FinishRetr(w.transfer);
      assert sent == old(sent) + [first, TransferReply(false, w.transfer)];
    }

    method FinishRetr(result: Transfer.Result)
      modifies this`state, this`sent
      ensures state == Ready && sent == old(sent) + [TransferReply(false, result)]
    {
      state := Ready;
      if result.ok {
        SendReply(226, "Transfer complete");
      } else {
        SendReply(426, "Transfer aborted.");
      }
    }

    method HandleStor(arg: string, w: World)
      requires state == Ready
      modifies this`state, this`sent, this`restartOffset, this`transfers
      ensures Did(HandleTransfer(old(View()), true, arg, w))
    {
      hide SafeFilename, Resolve, WithinRoot, TransferReply;
      var safe := IsSafeFilename(arg);
      if !safe { SendReply(501, "Invalid filename"); return; }
      var path := ResolvePath(arg);
      var within := IsWithinRoot(path);
      if !within { SendReply(550, "Permission denied"); return; }
      var first := Reply(150, "Opening data connection for STOR");
      sent := sent + [first];
      assert first.text == "Opening data connection for " + if true then "STOR" else "RETR";
      if !w.dataOpens {
        SendReply(425, "Cannot open data connection");
        assert sent == old(sent) + [first, Reply(425, "Cannot open data connection")];
        return;
      }
      state := Transferring;
      transfers := transfers + [Started(path, restartOffset)];
      restartOffset := 0;
      FinishStor(w.transfer);
      assert sent == old(sent) + [first, TransferReply(true, w.transfer)];
    }

    method FinishStor(result: Transfer.Result)
      modifies this`state, this`sent
      ensures state == Ready && sent == old(sent) + [TransferReply(true, result)]
    {
      if result.overflow {
        SendReply(552, "Exceeded storage allocation. Upload aborted.");
        state := Ready;
        return;
      }
      state := Ready;
      if result.ok {
        SendReply(226, "Upload complete");
      } else {
        SendReply(426, "Upload failed.");
      }
    }

    method HandleRest(arg: string)
      modifies this`restartOffset, this`sent
      ensures Did(S.HandleRest(old(View()), arg))
    {
      if arg == "" { SendReply(501, "Offset required"); return; }
      var offset := Transfer.ReadOffset(arg);
      if offset.InvalidOffset? { SendReply(501, "Invalid offset"); return; }
      restartOffset := offset.value;
      SendReply(350, "Restarting at " + Decimal.Print(offset.value) + ". Send RETR or STOR.");
    }

    // ---------------------------------------------------------------- files

    method HandleRnfr(arg: string, w: World)
      modifies this`renameFrom, this`sent
      ensures Did(S.HandleRnfr(old(View()), arg, w))
    {
      var safe := IsSafeFilename(arg);
      if !safe { SendReply(501, "Invalid filename"); return; }
      var p := ResolvePath(arg);
      var within := IsWithinRoot(p);
      if !within { SendReply(550, "Permission denied"); return; }
      if w.present {
        renameFrom := p;
        SendReply(350, "Ready for destination name.");
      } else {
        SendReply(550, "File not found.");
      }
    }

    method HandleRnto(arg: string, w: World)
      modifies this`renameFrom, this`sent
      ensures Did(S.HandleRnto(old(View()), arg, w))
    {
      if renameFrom == "" { SendReply(503, "Send RNFR first"); return; }
      var safe := IsSafeFilename(arg);
      if !safe { SendReply(501, "Invalid filename"); return; }
      var p := ResolvePath(arg);
      var within := IsWithinRoot(p);
      if !within { SendReply(550, "Permission denied"); return; }
      if w.done { SendReply(250, "File renamed."); } else { SendReply(550, "Could not rename."); }
      renameFrom := "";
    }

    // DELE, MKD and RMD.
    method HandleFileCall(arg: string, yes: Reply, no: Reply, w: World)
      modifies this`sent
      ensures Did(S.HandleFileCall(old(View()), arg, yes, no, w))
    {
      hide SafeFilename, Resolve, WithinRoot;
      var safe := IsSafeFilename(arg);
      if !safe { SendReply(501, "Invalid filename"); return; }
      var p := ResolvePath(arg);
      var within := IsWithinRoot(p);
      if !within { SendReply(550, "Permission denied"); return; }
      sent := sent + [if w.done then yes else no];
    }

    method HandleSize(arg: string, w: World)
      modifies this`sent
      ensures Did(S.HandleSize(old(View()), arg, w))
    {
      hide SafeFilename, Resolve, WithinRoot;
      var safe := IsSafeFilename(arg);
      if !safe { SendReply(501, "Invalid filename"); return; }
      var p := ResolvePath(arg);
      var within := IsWithinRoot(p);
      if !within { SendReply(550, "Permission denied"); return; }
      match w.size
      case Size(bytes) => SendReply(213, Decimal.Print(bytes));
      case NoSize => SendReply(550, "File not found");
    }

    method HandleMdtm(arg: string, w: World)
      modifies this`sent
      ensures Did(S.HandleMdtm(old(View()), arg, w))
    {
      hide SafeFilename, Resolve, WithinRoot;
      var safe := IsSafeFilename(arg);
      if !safe { SendReply(501, "Invalid filename"); return; }
      var p := ResolvePath(arg);
      var within := IsWithinRoot(p);
      if !within { SendReply(550, "Permission denied"); return; }
      if !w.present || w.isDirectory { SendReply(550, "File not found: " + arg); return; }
      if w.modTime == "" { SendReply(550, "Could not get modification time"); } else { SendReply(213, w.modTime); }
    }

    // ---------------------------------------------------------------- the data address

    method HandlePasv(w: World)
      modifies this`sent
      ensures Did(S.HandlePasv(old(View()), w))
    {
      match w.passive
      case NoListener => SendReply(425, "Cannot enter passive mode");
      case Listening(port) => SendReply(227, Address.PasvResponse(port)[4..]);
    }

    // Where the source leaves the language, the run stops in the phase Undefined.
    method HandlePort(arg: string)
      modifies this`sent, this`state
      ensures Did(S.HandlePort(old(View()), arg))
    {
      hide Address.Throws, Address.Numbers, Address.DottedQuad;
      if !Address.Throws(arg) && Address.Undefined(arg) { state := Undefined; return; }
      var threw, ip, port := Address.ParsePortCommand(arg);
      if threw { state := Aborted; return; }
      if port < 1024 {
        SendReply(504, "PORT to privileged port rejected");
      } else {
        SendReply(200, "PORT command successful");
      }
    }

    method HandleQuit()
      modifies this`sent, this`state
      ensures Did(Say(old(View()).(phase := Closed), 221, "Goodbye."))
    {
      SendReply(221, "Goodbye.");
      state := Closed;
    }

    method HandleFeat()
      modifies this`sent
      ensures Did(Outcome(old(View()), [FEATURES], NotStarted))
    {
      sent := sent + [Lines(211, "Extensions supported:", [" SIZE", " MDTM", " REST STREAM"], "End.")];
    }

    // ---------------------------------------------------------------- the command loop

    method Perform(c: Command, w: World)
      requires state == Ready
      modifies this
      ensures Did(DispatchReady(old(View()), c, w))
    {
      hide Did, S.HandleCwd, S.HandlePasv, S.HandlePort, S.HandleListing, HandleTransfer, S.HandleFileCall,
           S.HandleSize, S.HandleMdtm, S.HandleRest, S.HandleRnfr, S.HandleRnto, Cdup, Pwd;
      match c.verb
      case SYST => JustSay(215, "UNIX Type: L8");
      case TYPE => JustSay(200, "Type set to " + c.argument);
      case PWD => HandlePwd();
      case CWD => HandleCwd(c.argument, w);
      case CDUP => HandleCdup();
      case PASV => HandlePasv(w);
      case PORT => HandlePort(c.argument);
      case LIST => HandleListing(Reply(150, "Opening data connection for LIST"), "Directory listing complete.", w);
      case NLST => HandleListing(Reply(150, "Opening data connection for NLST"), "Name listing complete.", w);
      case RETR => HandleRetr(c.argument, w);
      case STOR => HandleStor(c.argument, w);
      case REST => HandleRest(c.argument);
      case DELE => HandleFileCall(c.argument, Reply(250, "File deleted."), Reply(550, "Could not delete file."), w);
      case MKD =>
        HandleFileCall(c.argument, Reply(257, "\"" + c.argument + "\" directory created."),
                       Reply(550, "Could not create directory."), w);
      case RMD =>
        HandleFileCall(c.argument, Reply(250, "Directory removed."), Reply(550, "Could not remove directory."), w);
      case RNFR => HandleRnfr(c.argument, w);
      case RNTO => HandleRnto(c.argument, w);
      case SIZE => HandleSize(c.argument, w);
      case MDTM => HandleMdtm(c.argument, w);
      case Unknown(name) => JustSay(502, "Command not implemented: " + name);
      case _ => JustSay(502, "Command not implemented: ");
    }

    method Dispatch(c: Command, w: World)
      requires state != Transferring && auth.users == w.users && auth.rateMap == w.rates
      modifies this, auth`rateMap, auth`totalFailed
      ensures Did(S.Dispatch(old(View()), cfg, c, w))
    {
      hide Did, S.DispatchReady, S.HandleUser, S.HandlePass, FEATURES;
      match c.verb
      case USER => HandleUser(c.argument);
      case PASS => HandlePass(c.argument, w);
      case QUIT => HandleQuit();
      case OPTS => JustSay(200, "OK");
      case NOOP => JustSay(200, "OK");
      case FEAT => HandleFeat();
      case _ =>
        if state != Ready { JustSay(530, "Please login first"); return; }
        Perform(c, w);
    }

    // One turn of the loop.
    method Receive(raw: string, w: World)
      requires state != Transferring
      modifies this, auth
      ensures Did(Turn(old(View()), cfg, raw, w))
    {
      hide S.Dispatch, Clean, Parse;
      if |raw| > MAX_CMD_LENGTH { SendReply(500, "Command too long"); return; }
      var cmd := CleanCommand(raw);
      if cmd == "" { return; }
      Meanwhile(w);
      Dispatch(Parse(cmd), w);
    }

    /** The whole session on what the client sends, up to its disconnecting: the fields, the replies on the
        wire and the transfers begun are those of the specification's run. */
    method Run(events: seq<Event>)
      requires View() == INITIAL.(phase := Connected) && sent == [] && transfers == []
      modifies this, auth
      ensures var last := S.Run(INITIAL, cfg, events);
              && View() == (if last.phase == Aborted || last.phase == Undefined then last else last.(phase := Closed))
              && Inv(last, cfg)
      ensures sent == [Reply(220, "FTP Server v2.0 ready.")] + Replies(INITIAL, cfg, events)
      ensures transfers == Starts(INITIAL, cfg, events)
    {
      hide Turn, Inside, S.Run, Replies, Starts;
      SendReply(220, "FTP Server v2.0 ready.");
      state := WaitUser;
      InitialInv(cfg);
      var i := 0;
      assert events[0..] == events;
      SessionInvariant(INITIAL, cfg, events);
      while i < |events| && state != Closed && state != Aborted && state != Undefined && events[i].raw != ""
        invariant 0 <= i <= |events| && Inv(View(), cfg)
        invariant S.Run(View(), cfg, events[i..]) == S.Run(INITIAL, cfg, events)
        invariant sent + Replies(View(), cfg, events[i..])
               == [Reply(220, "FTP Server v2.0 ready.")] + Replies(INITIAL, cfg, events)
        invariant transfers + Starts(View(), cfg, events[i..]) == Starts(INITIAL, cfg, events)
      {
        ghost var before, o := sent, Turn(View(), cfg, events[i].raw, events[i].world);
        ghost var begun, added := transfers, if o.started.Started? then [o.started] else [];
        TurnKeepsInv(View(), cfg, events[i].raw, events[i].world);
        OneTurn(View(), cfg, events[i..]);
        assert events[i..][1..] == events[i + 1..];
        Receive(events[i].raw, events[i].world);
        i := i + 1;
        Associate(before, o.replies, Replies(View(), cfg, events[i..]));
        Associate(begun, added, Starts(View(), cfg, events[i..]));
      }
      Ended(View(), cfg, events[i..]);
      if state != Aborted && state != Undefined { state := Closed; }
    }
  }

  lemma Associate<T>(a: seq<T>, b: seq<T>, c: seq<T>)
    ensures a + (b + c) == (a + b) + c
  {
  }

  lemma OneTurn(st: State, cfg: Config, events: seq<Event>)
    requires events != [] && !Over(st) && events[0].raw != ""
    ensures var o := Turn(st, cfg, events[0].raw, events[0].world);
            && S.Run(st, cfg, events) == S.Run(o.st, cfg, events[1..])
            && Replies(st, cfg, events) == o.replies + Replies(o.st, cfg, events[1..])
            && Starts(st, cfg, events)
               == (if o.started.Started? then [o.started] else []) + Starts(o.st, cfg, events[1..])
  {
    hide Turn;
  }

  lemma Ended(st: State, cfg: Config, events: seq<Event>)
    requires events == [] || Over(st) || events[0].raw == ""
    ensures S.Run(st, cfg, events) == st && Replies(st, cfg, events) == [] && Starts(st, cfg, events) == []
  {
  }

  lemma {:induction false} LastIs(s: string, c: char, i: int)
    requires -1 <= i < |s| && (i >= 0 ==> s[i] == c) && forall j :: i < j < |s| ==> s[j] != c
    ensures FindLast(s, c) == i
  {
    if |s| > 0 && i < |s| - 1 { LastIs(s[..|s| - 1], c, i); }
  }
}
