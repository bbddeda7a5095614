/**
 The session as a function from its state, one received command and what the outside answers to the next
 state and the replies sent, and what every run of it keeps.
 */
module SessionSpec {
  import opened SessionPaths
  import Address
  import Credentials
  import Decimal
  import LoginThrottle
  import Transfer

  // Aborted: an exception has left the command loop.  Undefined: the source has done something the language
  // leaves undefined, and nothing is said of what follows.
  datatype Phase = Connected | WaitUser | WaitPass | Ready | Transferring | Closed | Aborted | Undefined

  // Who has logged in since the last accepted USER; a history, read by no handler.
  datatype Login = Nobody | As(user: string)

  datatype State = State(
    phase: Phase, username: string, root: string, cwd: string, renameFrom: string, restart: nat, login: Login)

  datatype Config = Config(rootDir: string, allowAnonymous: bool)

  // One line, or several: the code and a hyphen open the first, the code and a blank the last.
  datatype Reply =
    | Reply(code: nat, text: string)
    | Lines(code: nat, first: string, inner: seq<string>, last: string)

  // What a handler finds outside: the shared tables of users and failed logins, the client's address, the
  // clock at the check and at the record, the file system, the sockets.
  datatype World = World(
    users: Credentials.Users, rates: LoginThrottle.RateMap, ip: string, now: int, later: int,
    isDirectory: bool, present: bool, done: bool, size: Size, modTime: string,
    passive: Passive, dataOpens: bool, transfer: Transfer.Result)
  datatype Size = NoSize | Size(bytes: nat)
  datatype Passive = NoListener | Listening(port: nat)

  // A transfer the command started: the path and the offset it began at.
  datatype Started = NotStarted | Started(path: string, offset: nat)

  datatype Outcome = Outcome(st: State, replies: seq<Reply>, started: Started)

  const MAX_CMD_LENGTH: nat := 512

  // ---------------------------------------------------------------- reading a command

  function StripEnd(s: string): string {
    if s != "" && (s[|s| - 1] == '\r' || s[|s| - 1] == '\n') then StripEnd(s[..|s| - 1]) else s
  }

  function StripStart(s: string): string {
    if s != "" && (s[0] == ' ' || s[0] == '\t') then StripStart(s[1..]) else s
  }

  function Clean(raw: string): string { StripStart(StripEnd(raw)) }

  function FirstSpace(s: string): (i: nat)
    ensures i <= |s| && (forall j :: 0 <= j < i ==> s[j] != ' ') && (i < |s| ==> s[i] == ' ')
  {
    if s == "" || s[0] == ' ' then 0 else 1 + FirstSpace(s[1..])
  }

  function Upper(s: string): string {
    seq(|s|, i requires 0 <= i < |s| => if 'a' <= s[i] <= 'z' then s[i] - 32 as char else s[i])
  }

  datatype Verb =
    | USER | PASS | QUIT | OPTS | NOOP | FEAT
    | SYST | TYPE | PWD | CWD | CDUP | PASV | PORT | LIST | NLST | RETR | STOR | REST
    | DELE | MKD | RMD | RNFR | RNTO | SIZE | MDTM | Unknown(name: string)

  function VerbOf(s: string): Verb {
    if s == "USER" then USER else if s == "PASS" then PASS else if s == "QUIT" then QUIT
    else if s == "OPTS" then OPTS else if s == "NOOP" then NOOP else if s == "FEAT" then FEAT
    else if s == "SYST" then SYST else if s == "TYPE" then TYPE else if s == "PWD" then PWD
    else if s == "CWD" then CWD else if s == "CDUP" then CDUP else if s == "PASV" then PASV
    else if s == "PORT" then PORT else if s == "LIST" then LIST else if s == "NLST" then NLST
    else if s == "RETR" then RETR else if s == "STOR" then STOR else if s == "REST" then REST
    else if s == "DELE" then DELE else if s == "MKD" then MKD else if s == "RMD" then RMD
    else if s == "RNFR" then RNFR else if s == "RNTO" then RNTO else if s == "SIZE" then SIZE
    else if s == "MDTM" then MDTM else Unknown(s)
  }

  datatype Command = Command(verb: Verb, argument: string)

  function Parse(cmd: string): Command {
    var sp := FirstSpace(cmd);
    if sp < |cmd| then Command(VerbOf(Upper(cmd[..sp])), cmd[sp + 1..]) else Command(VerbOf(Upper(cmd)), "")
  }

  // ---------------------------------------------------------------- the handlers

  function Say(st: State, code: nat, text: string): Outcome { Outcome(st, [Reply(code, text)], NotStarted) }

  predicate SafeFilename(name: string) {
    name != "" && forall i :: 0 <= i < |name| ==> name[i] >= 0x20 as char
  }

  function LoggedIn(st: State, cfg: Config, user: string): State {
    var root := cfg.rootDir + "\\" + user;
    st.(phase := Ready, username := user, root := root, cwd := root, login := As(user))
  }

  function HandleUser(st: State, cfg: Config, arg: string): (o: Outcome)
    ensures |o.replies| <= 2
  {
    if arg == "" then Say(st, 501, "Username required")
    else if (arg == "anonymous" || arg == "ftp") && cfg.allowAnonymous then
      Say(LoggedIn(st, cfg, "anonymous"), 230, "Anonymous login OK.")
    else
      Say(st.(username := arg, phase := WaitPass, login := Nobody), 331, "Password required for " + arg)
  }

  predicate Throttled(w: World) { LoginThrottle.Limited(w.rates, w.ip, w.now) }

  predicate RightPassword(st: State, password: string, w: World) {
    Credentials.Authenticates(w.users, st.username, password)
  }

  function HandlePass(st: State, cfg: Config, arg: string, w: World): (o: Outcome)
    ensures |o.replies| <= 2
  {
    if st.phase != WaitPass then Say(st, 503, "Send USER first")
    else if Throttled(w) then Say(st.(phase := Closed), 421, "Too many failed attempts. Try again later.")
    else if RightPassword(st, arg, w) then
      Say(LoggedIn(st, cfg, st.username), 230, "Welcome, " + st.username + ".")
    else Say(st.(phase := WaitUser), 530, "Login incorrect")
  }

  function HandleCwd(st: State, arg: string, w: World): (o: Outcome)
    ensures |o.replies| <= 2
  {
    if arg == "" then Say(st, 501, "Path required")
    else
      var p := Resolve(st.root, st.cwd, arg);
      if !WithinRoot(st.root, p) then Say(st, 550, "Permission denied")
      else if w.isDirectory then Say(st.(cwd := p), 250, "Directory changed.")
      else Say(st, 550, "Directory not found: " + arg)
  }

  function HandlePasv(st: State, w: World): (o: Outcome)
    ensures |o.replies| <= 2
  {
    match w.passive
    case NoListener => Say(st, 425, "Cannot enter passive mode")
    case Listening(port) => Say(st, 227, Address.PasvResponse(port)[4..])
  }

  // An argument with a field that is no int makes std::stoi throw out of the command loop.
  function HandlePort(st: State, arg: string): (o: Outcome)
    ensures |o.replies| <= 2
  {
    if Address.Throws(arg) then Outcome(st.(phase := Aborted), [], NotStarted)
    else if Address.Undefined(arg) then Outcome(st.(phase := Undefined), [], NotStarted)
    else if Address.Port(Address.Numbers(arg)) < 1024 then Say(st, 504, "PORT to privileged port rejected")
    else Say(st, 200, "PORT command successful")
  }

  function HandleListing(st: State, first: Reply, done: string, w: World): (o: Outcome)
    ensures |o.replies| <= 2
  {
    if w.dataOpens then Outcome(st.(phase := Ready), [first, Reply(226, done)], NotStarted)
    else Outcome(st, [first, Reply(425, "Cannot open data connection")], NotStarted)
  }

  // The replies to a transfer carry byte counts and speeds, which are left out of the text.
  function TransferReply(storing: bool, result: Transfer.Result): Reply {
    if storing && result.overflow then Reply(552, "Exceeded storage allocation. Upload aborted.")
    else if result.ok then Reply(226, if storing then "Upload complete" else "Transfer complete")
    else Reply(426, if storing then "Upload failed." else "Transfer aborted.")
  }

  function HandleTransfer(st: State, storing: bool, arg: string, w: World): (o: Outcome)
    ensures |o.replies| <= 2
  {
    if !SafeFilename(arg) then Say(st, 501, "Invalid filename")
    else
      var path := Resolve(st.root, st.cwd, arg);
      if !WithinRoot(st.root, path) then Say(st, 550, "Permission denied")
      else if !storing && (!w.present || w.isDirectory) then Say(st, 550, "File not found: " + arg)
      else
        var first := Reply(150, "Opening data connection for " + if storing then "STOR" else "RETR");
        if !w.dataOpens then Outcome(st, [first, Reply(425, "Cannot open data connection")], NotStarted)
        else
          Outcome(st.(phase := Ready, restart := 0), [first, TransferReply(storing, w.transfer)],
                  Started(path, st.restart))
  }

  // DELE, MKD and RMD: one call on the resolved path.
  function HandleFileCall(st: State, arg: string, yes: Reply, no: Reply, w: World): (o: Outcome)
    ensures |o.replies| <= 2
  {
    if !SafeFilename(arg) then Say(st, 501, "Invalid filename")
    else if !WithinRoot(st.root, Resolve(st.root, st.cwd, arg)) then Say(st, 550, "Permission denied")
    else Outcome(st, [if w.done then yes else no], NotStarted)
  }

  function HandleSize(st: State, arg: string, w: World): (o: Outcome)
    ensures |o.replies| <= 2
  {
    if !SafeFilename(arg) then Say(st, 501, "Invalid filename")
    else if !WithinRoot(st.root, Resolve(st.root, st.cwd, arg)) then Say(st, 550, "Permission denied")
    else if w.size.Size? then Say(st, 213, Decimal.Print(w.size.bytes))
    else Say(st, 550, "File not found")
  }

  function HandleMdtm(st: State, arg: string, w: World): (o: Outcome)
    ensures |o.replies| <= 2
  {
    if !SafeFilename(arg) then Say(st, 501, "Invalid filename")
    else if !WithinRoot(st.root, Resolve(st.root, st.cwd, arg)) then Say(st, 550, "Permission denied")
    else if !w.present || w.isDirectory then Say(st, 550, "File not found: " + arg)
    else if w.modTime == "" then Say(st, 550, "Could not get modification time")
    else Say(st, 213, w.modTime)
  }

  function HandleRnfr(st: State, arg: string, w: World): (o: Outcome)
    ensures |o.replies| <= 2
  {
    if !SafeFilename(arg) then Say(st, 501, "Invalid filename")
    else
      var p := Resolve(st.root, st.cwd, arg);
      if !WithinRoot(st.root, p) then Say(st, 550, "Permission denied")
      else if w.present then Say(st.(renameFrom := p), 350, "Ready for destination name.")
      else Say(st, 550, "File not found.")
  }

  function HandleRnto(st: State, arg: string, w: World): (o: Outcome)
    ensures |o.replies| <= 2
  {
    if st.renameFrom == "" then Say(st, 503, "Send RNFR first")
    else if !SafeFilename(arg) then Say(st, 501, "Invalid filename")
    else if !WithinRoot(st.root, Resolve(st.root, st.cwd, arg)) then Say(st, 550, "Permission denied")
    else Outcome(st.(renameFrom := ""),
                 [if w.done then Reply(250, "File renamed.") else Reply(550, "Could not rename.")], NotStarted)
  }

  function HandleRest(st: State, arg: string): (o: Outcome)
    ensures |o.replies| <= 2
  {
    if arg == "" then Say(st, 501, "Offset required")
    else
      match Transfer.ParseOffset(arg)
      case InvalidOffset => Say(st, 501, "Invalid offset")
      case Offset(n) =>
        Say(st.(restart := n), 350, "Restarting at " + Decimal.Print(n) + ". Send RETR or STOR.")
  }

  const FEATURES: Reply := Lines(211, "Extensions supported:", [" SIZE", " MDTM", " REST STREAM"], "End.")

  // USER, PASS, QUIT, OPTS, NOOP and FEAT are answered in every phase, the rest after a login only.
  function Dispatch(st: State, cfg: Config, c: Command, w: World): (o: Outcome)
    ensures |o.replies| <= 2
  {
    match c.verb
    case USER => HandleUser(st, cfg, c.argument)
    case PASS => HandlePass(st, cfg, c.argument, w)
    case QUIT => Say(st.(phase := Closed), 221, "Goodbye.")
    case OPTS => Say(st, 200, "OK")
    case NOOP => Say(st, 200, "OK")
    case FEAT => Outcome(st, [FEATURES], NotStarted)
    case _ =>
      if st.phase != Ready && st.phase != Transferring then Say(st, 530, "Please login first")
      else DispatchReady(st, c, w)
  }

  function DispatchReady(st: State, c: Command, w: World): (o: Outcome)
    ensures |o.replies| <= 2
  {
    var arg := c.argument;
    match c.verb
    case SYST => Say(st, 215, "UNIX Type: L8")
    case TYPE => Say(st, 200, "Type set to " + arg)
    case PWD => Say(st, 257, "\"" + Pwd(st.root, st.cwd) + "\" is current directory")
    case CWD => HandleCwd(st, arg, w)
    case CDUP => Say(st.(cwd := Cdup(st.root, st.cwd)), 250, "Directory changed to parent.")
    case PASV => HandlePasv(st, w)
    case PORT => HandlePort(st, arg)
    case LIST => HandleListing(st, Reply(150, "Opening data connection for LIST"), "Directory listing complete.", w)
    case NLST => HandleListing(st, Reply(150, "Opening data connection for NLST"), "Name listing complete.", w)
    case RETR => HandleTransfer(st, false, arg, w)
    case STOR => HandleTransfer(st, true, arg, w)
    case REST => HandleRest(st, arg)
    case DELE => HandleFileCall(st, arg, Reply(250, "File deleted."), Reply(550, "Could not delete file."), w)
    case MKD =>
      HandleFileCall(st, arg, Reply(257, "\"" + arg + "\" directory created."),
                     Reply(550, "Could not create directory."), w)
    case RMD => HandleFileCall(st, arg, Reply(250, "Directory removed."), Reply(550, "Could not remove directory."), w)
    case RNFR => HandleRnfr(st, arg, w)
    case RNTO => HandleRnto(st, arg, w)
    case SIZE => HandleSize(st, arg, w)
    case MDTM => HandleMdtm(st, arg, w)
    case Unknown(name) => Say(st, 502, "Command not implemented: " + name)
    case _ => Say(st, 502, "Command not implemented: ")  // answered by Dispatch
  }

  // One turn of the loop on what one receive delivered.
  function Turn(st: State, cfg: Config, raw: string, w: World): (o: Outcome)
    ensures |o.replies| <= 2
  {
    if |raw| > MAX_CMD_LENGTH then Say(st, 500, "Command too long")
    else if Clean(raw) == "" then Outcome(st, [], NotStarted)
    else Dispatch(st, cfg, Parse(Clean(raw)), w)
  }

  const INITIAL: State := State(WaitUser, "", "", "", "", 0, Nobody)

  // ---------------------------------------------------------------- what every run keeps

  datatype Event = Event(raw: string, world: World)

  predicate Over(st: State) { st.phase == Closed || st.phase == Aborted || st.phase == Undefined }

  function Run(st: State, cfg: Config, events: seq<Event>): State
    decreases |events|
  {
    if events == [] || Over(st) || events[0].raw == "" then st
    else Run(Turn(st, cfg, events[0].raw, events[0].world).st, cfg, events[1..])
  }

  // What a run sends after the greeting.
  function Replies(st: State, cfg: Config, events: seq<Event>): seq<Reply>
    decreases |events|
  {
    if events == [] || Over(st) || events[0].raw == "" then []
    else
      var o := Turn(st, cfg, events[0].raw, events[0].world);
      o.replies + Replies(o.st, cfg, events[1..])
  }

  ghost predicate Inv(st: State, cfg: Config) {
    && st.phase != Transferring && st.phase != Connected
    && Inside(st.root, st.cwd)
    && (st.phase == Ready ==> st.login == As(st.username) && st.root == cfg.rootDir + "\\" + st.username)
  }

  predicate Final(r: Reply) { 200 <= r.code < 600 }

  // The reply discipline of section 4.2 of RFC 959: one final reply, after at most one preliminary 150.
  predicate Disciplined(replies: seq<Reply>) {
    || (|replies| == 1 && Final(replies[0]))
    || (|replies| == 2 && replies[0].code == 150 && Final(replies[1]))
  }

  // What a command answered after login may do: it keeps the login, stays inside the root, answers by the
  // discipline, and uses up the offset exactly when it starts a transfer.
  ghost predicate Good(st: State, v: Verb, o: Outcome) {
    && o.st.username == st.username && o.st.root == st.root && o.st.login == st.login
    && Inside(o.st.root, o.st.cwd)
    && o.st.phase == Ready && Disciplined(o.replies)
    && (o.started.Started? ==>
          (o.started.offset == st.restart && o.st.restart == 0 && Inside(st.root, o.started.path)))
    && (o.started.NotStarted? && v != REST ==> o.st.restart == st.restart)
    && (|o.replies| == 2 ==> OpensData(v))
  }

  predicate OpensData(v: Verb) { v == LIST || v == NLST || v == RETR || v == STOR }

  lemma MovesGood(st: State, v: Verb, arg: string, w: World)
    requires st.phase == Ready && Inside(st.root, st.cwd)
    ensures Good(st, v, HandleCwd(st, arg, w))
    ensures Good(st, v, Say(st.(cwd := Cdup(st.root, st.cwd)), 250, "Directory changed to parent."))
  {
    ResolveInside(st.root, st.cwd, arg);
    CdupInside(st.root, st.cwd);
  }

  lemma DataGood(st: State, v: Verb, arg: string, first: Reply, done: string, w: World)
    requires st.phase == Ready && Inside(st.root, st.cwd) && first.code == 150 && OpensData(v)
    ensures Good(st, v, HandleTransfer(st, v == STOR, arg, w))
    ensures Good(st, v, HandleListing(st, first, done, w))
  {
    hide Resolve;
    ResolveInside(st.root, st.cwd, arg);
  }

  lemma CallsGood(st: State, v: Verb, arg: string, yes: Reply, no: Reply, w: World)
    requires st.phase == Ready && Inside(st.root, st.cwd) && Final(yes) && Final(no)
    ensures Good(st, v, HandleFileCall(st, arg, yes, no, w))
  {
    hide Resolve, Inside;
  }

  lemma FilesGood(st: State, v: Verb, arg: string, w: World)
    requires st.phase == Ready && Inside(st.root, st.cwd)
    ensures Good(st, v, HandleSize(st, arg, w)) && Good(st, v, HandleMdtm(st, arg, w))
  {
    hide Resolve, Inside;
  }

  lemma RenamesGood(st: State, v: Verb, arg: string, w: World)
    requires st.phase == Ready && Inside(st.root, st.cwd)
    ensures Good(st, v, HandleRnfr(st, arg, w)) && Good(st, v, HandleRnto(st, arg, w))
  {
    hide Resolve, Inside;
  }

  lemma SettingsGood(st: State, v: Verb, arg: string, w: World)
    requires st.phase == Ready && Inside(st.root, st.cwd)
    ensures Good(st, v, HandlePasv(st, w)) && Good(st, REST, HandleRest(st, arg))
    ensures !Address.Throws(arg) && !Address.Undefined(arg) ==> Good(st, v, HandlePort(st, arg))
  {
    hide Inside, Address.Throws, Address.Undefined, Address.Port, Address.Numbers;
  }

  // At most seven fields are read, and one of them is no int.
  predicate Throws(c: Command) { c.verb == PORT && Address.Throws(c.argument) }

  predicate LeavesLanguage(c: Command) { c.verb == PORT && Address.Undefined(c.argument) }

  lemma ReadyGood(st: State, c: Command, w: World)
    requires st.phase == Ready && Inside(st.root, st.cwd)
    ensures !Throws(c) && !LeavesLanguage(c) ==> Good(st, c.verb, DispatchReady(st, c, w))
    ensures Throws(c) ==> DispatchReady(st, c, w) == Outcome(st.(phase := Aborted), [], NotStarted)
    ensures !Throws(c) && LeavesLanguage(c) ==>
              DispatchReady(st, c, w) == Outcome(st.(phase := Undefined), [], NotStarted)
  {
    hide HandleCwd, HandlePasv, HandlePort, HandleListing, HandleTransfer, HandleFileCall, HandleSize, HandleMdtm,
         HandleRnfr, HandleRnto, HandleRest, Cdup, Pwd, Inside, Good, Address.Throws, Address.Undefined;
    var v, arg := c.verb, c.argument;
    match v
    case CWD => MovesGood(st, v, arg, w);
    case CDUP => MovesGood(st, v, arg, w);
    case PASV => SettingsGood(st, v, arg, w);
    case REST => SettingsGood(st, v, arg, w);
    case PORT => SettingsGood(st, v, arg, w); PortThrows(st, arg);
    case LIST => DataGood(st, v, arg, Reply(150, "Opening data connection for LIST"), "Directory listing complete.", w);
    case NLST => DataGood(st, v, arg, Reply(150, "Opening data connection for NLST"), "Name listing complete.", w);
    case RETR => DataGood(st, v, arg, Reply(150, ""), "", w);
    case STOR => DataGood(st, v, arg, Reply(150, ""), "", w);
    case DELE => CallsGood(st, v, arg, Reply(250, "File deleted."), Reply(550, "Could not delete file."), w);
    case MKD =>
      CallsGood(st, v, arg, Reply(257, "\"" + arg + "\" directory created."),
                Reply(550, "Could not create directory."), w);
    case RMD => CallsGood(st, v, arg, Reply(250, "Directory removed."), Reply(550, "Could not remove directory."), w);
    case RNFR => RenamesGood(st, v, arg, w);
    case RNTO => RenamesGood(st, v, arg, w);
    case SIZE => FilesGood(st, v, arg, w);
    case MDTM => FilesGood(st, v, arg, w);
    case _ => SayGood(st, c, w);
  }

  lemma PortThrows(st: State, arg: string)
    ensures Address.Throws(arg) ==> HandlePort(st, arg) == Outcome(st.(phase := Aborted), [], NotStarted)
    ensures !Address.Throws(arg) && Address.Undefined(arg) ==>
              HandlePort(st, arg) == Outcome(st.(phase := Undefined), [], NotStarted)
  {
    hide Address.Throws, Address.Undefined, Address.Port, Address.Numbers;
  }

  lemma SayGood(st: State, c: Command, w: World)
    requires st.phase == Ready && Inside(st.root, st.cwd)
    requires !(c.verb.CWD? || c.verb.CDUP? || c.verb.PASV? || c.verb.REST? || c.verb.PORT? || c.verb.LIST?
               || c.verb.NLST? || c.verb.RETR? || c.verb.STOR? || c.verb.DELE? || c.verb.MKD? || c.verb.RMD?
               || c.verb.RNFR? || c.verb.RNTO? || c.verb.SIZE? || c.verb.MDTM?)
    ensures Good(st, c.verb, DispatchReady(st, c, w))
  {
    hide Inside;
  }

  // The commands answered in every phase.
  predicate Always(v: Verb) { v.USER? || v.PASS? || v.QUIT? || v.OPTS? || v.NOOP? || v.FEAT? }

  lemma UserAnswers(st: State, cfg: Config, arg: string)
    requires Inv(st, cfg)
    ensures Plainly(st, cfg, HandleUser(st, cfg, arg))
    ensures HandleUser(st, cfg, arg).st.phase == Ready ==>
              (st.phase == Ready && arg == "" && HandleUser(st, cfg, arg).st == st)
              || (cfg.allowAnonymous && (arg == "anonymous" || arg == "ftp")
                  && HandleUser(st, cfg, arg).st.username == "anonymous")
  {
  }

  lemma PassAnswers(st: State, cfg: Config, arg: string, w: World)
    requires Inv(st, cfg)
    ensures var o := HandlePass(st, cfg, arg, w);
            && Plainly(st, cfg, o) && o.st.username == st.username
            && (o.st.phase == Ready ==>
                  st.phase == Ready || (st.phase == WaitPass && !Throttled(w) && RightPassword(st, arg, w)))
  {
    hide Throttled, RightPassword;
  }

  // One final reply, no transfer, the offset untouched, the invariant kept.
  ghost predicate Plainly(st: State, cfg: Config, o: Outcome) {
    && Inv(o.st, cfg) && |o.replies| == 1 && Final(o.replies[0])
    && o.started.NotStarted? && o.st.restart == st.restart
  }

  lemma AlwaysAnswered(st: State, cfg: Config, c: Command, w: World)
    requires Inv(st, cfg) && Always(c.verb)
    ensures Plainly(st, cfg, Dispatch(st, cfg, c, w))
  {
    hide HandleUser, HandlePass;
    UserAnswers(st, cfg, c.argument);
    PassAnswers(st, cfg, c.argument, w);
  }

  lemma Guarded(st: State, cfg: Config, c: Command, w: World)
    requires !Always(c.verb) && st.phase != Transferring
    ensures Dispatch(st, cfg, c, w) ==
            if st.phase == Ready then DispatchReady(st, c, w) else Say(st, 530, "Please login first")
  {
    hide DispatchReady;
  }

  lemma TurnKeepsInv(st: State, cfg: Config, raw: string, w: World)
    requires Inv(st, cfg)
    ensures Inv(Turn(st, cfg, raw, w).st, cfg)
  {
    hide Dispatch, DispatchReady, Parse, Clean, Disciplined;
    var c := Parse(Clean(raw));
    if Always(c.verb) {
      AlwaysAnswered(st, cfg, c, w);
    } else {
      Guarded(st, cfg, c, w);
      if st.phase == Ready { ReadyGood(st, c, w); }
    }
  }

  /** At every loop head the state is never TRANSFERRING; READY means a login since the last accepted USER
      and the root of that user; and the current directory is lexically inside the root. */
  lemma {:induction false} SessionInvariant(st: State, cfg: Config, events: seq<Event>)
    requires Inv(st, cfg)
    ensures Inv(Run(st, cfg, events), cfg)
    decreases |events|
  {
    if events != [] {
      TurnKeepsInv(st, cfg, events[0].raw, events[0].world);
      SessionInvariant(Turn(st, cfg, events[0].raw, events[0].world).st, cfg, events[1..]);
    }
  }

  lemma InitialInv(cfg: Config)
    ensures Inv(INITIAL, cfg)
  {
  }

  // What authenticates: a PASS in its place, not throttled and with the password the user table has for the
  // user, or a permitted anonymous USER.
  predicate Authenticates(st: State, cfg: Config, raw: string, w: World) {
    var c := Parse(Clean(raw));
    && |raw| <= MAX_CMD_LENGTH && Clean(raw) != ""
    && (|| (c.verb == PASS && st.phase == WaitPass && !Throttled(w) && RightPassword(st, c.argument, w))
        || (c.verb == USER && (c.argument == "anonymous" || c.argument == "ftp") && cfg.allowAnonymous))
  }

  // The user it logs in.
  function LoginName(st: State, raw: string): string {
    if Parse(Clean(raw)).verb == PASS then st.username else "anonymous"
  }

  lemma ReadyByAuthentication(st: State, cfg: Config, raw: string, w: World)
    requires Inv(st, cfg) && Turn(st, cfg, raw, w).st.phase == Ready
    ensures var t := Turn(st, cfg, raw, w).st;
            if Authenticates(st, cfg, raw, w) then t.username == LoginName(st, raw)
            else st.phase == Ready && t.username == st.username
  {
    hide Clean, Parse, Throttled, RightPassword, DispatchReady, HandleUser, HandlePass, Inside, Disciplined;
    var c := Parse(Clean(raw));
    UserAnswers(st, cfg, c.argument);
    PassAnswers(st, cfg, c.argument, w);
    if !Always(c.verb) {
      Guarded(st, cfg, c, w);
      if st.phase == Ready { InsideByInv(st, cfg); ReadyGood(st, c, w); }
    }
  }

  lemma InsideByInv(st: State, cfg: Config)
    requires Inv(st, cfg)
    ensures Inside(st.root, st.cwd)
  {
  }

  lemma {:induction false} LastTurn(st: State, cfg: Config, events: seq<Event>)
    requires events != [] && forall i :: 0 <= i < |events| ==> events[i].raw != ""
    ensures var before, last := Run(st, cfg, events[..|events| - 1]), events[|events| - 1];
            Run(st, cfg, events) == if Over(before) then before
                                    else Turn(before, cfg, last.raw, last.world).st
    decreases |events|
  {
    hide Turn;
    if !Over(st) {
      var next := Turn(st, cfg, events[0].raw, events[0].world).st;
      if |events| == 1 {
        assert Run(next, cfg, events[1..]) == next;
      } else {
        assert events[1..][..|events[1..]| - 1] == events[..|events| - 1][1..];
        LastTurn(next, cfg, events[1..]);
      }
    }
  }

  /** A session is READY only through an authentication: some command of the run authenticated the user it is
      logged in as, and from then on it has been READY as that user, in the user's own root. */
  lemma {:induction false} ReadyMeansAuthenticated(cfg: Config, events: seq<Event>) returns (i: nat)
    requires forall j :: 0 <= j < |events| ==> events[j].raw != ""
    requires Run(INITIAL, cfg, events).phase == Ready
    ensures i < |events|
    ensures var at, user := Run(INITIAL, cfg, events[..i]), Run(INITIAL, cfg, events).username;
            && Authenticates(at, cfg, events[i].raw, events[i].world) && LoginName(at, events[i].raw) == user
            && forall j :: i < j <= |events| ==>
                 (var st := Run(INITIAL, cfg, events[..j]);
                  st.phase == Ready && st.username == user && st.root == cfg.rootDir + "\\" + user)
    decreases |events|
  {
    hide Turn, Run, Authenticates, LoginName;
    var n := |events| - 1;
    assert events[..|events|] == events;
    InitialInv(cfg);
    SessionInvariant(INITIAL, cfg, events);
    if events == [] { NothingRun(cfg); assert false; }
    var before := Run(INITIAL, cfg, events[..n]);
    SessionInvariant(INITIAL, cfg, events[..n]);
    LastTurn(INITIAL, cfg, events);
    ReadyByAuthentication(before, cfg, events[n].raw, events[n].world);
    if Authenticates(before, cfg, events[n].raw, events[n].world) {
      i := n;
    } else {
      i := ReadyMeansAuthenticated(cfg, events[..n]);
      assert forall j :: 0 <= j <= n ==> events[..n][..j] == events[..j];
    }
  }

  lemma NothingRun(cfg: Config)
    ensures Run(INITIAL, cfg, []).phase == WaitUser
  {
  }

  /** Every command gets exactly one final reply, after at most one preliminary 150 and only for the four
      commands that open a data connection.  A blank line gets none, and of the commands exactly a PORT after
      login with a field that is no int among those read: it throws, which ends the session.  Arguments on
      which the source leaves the language are excluded. */
  lemma EveryCommandAnswered(st: State, cfg: Config, raw: string, w: World)
    requires Inv(st, cfg) && (st.phase == Ready ==> !LeavesLanguage(Parse(Clean(raw))))
    ensures var c, o := Parse(Clean(raw)), Turn(st, cfg, raw, w);
            if |raw| > MAX_CMD_LENGTH then o == Say(st, 500, "Command too long")
            else if Clean(raw) == "" then o.replies == [] && o.st == st
            else
              && (o.replies == [] <==> st.phase == Ready && Throws(c))
              && (o.replies == [] ==> o.st == st.(phase := Aborted))
              && (o.replies != [] ==> Disciplined(o.replies))
              && (|o.replies| == 2 ==> st.phase == Ready && OpensData(c.verb))
  {
    hide Clean, Parse, Address.Throws, Address.Undefined, Dispatch, DispatchReady, Inside;
    var c := Parse(Clean(raw));
    if Always(c.verb) {
      AlwaysAnswered(st, cfg, c, w);
    } else {
      Guarded(st, cfg, c, w);
      if st.phase == Ready { InsideByInv(st, cfg); ReadyGood(st, c, w); }
    }
  }

  /** A received PORT x throws: it gets no reply and ends the session. */
  lemma PortXThrows(st: State, cfg: Config, w: World)
    requires st.phase == Ready
    ensures Turn(st, cfg, "PORT x\r\n", w) == Outcome(st.(phase := Aborted), [], NotStarted)
  {
    hide Parse, Clean, Address.Throws, DispatchReady;
    assert "PORT" + " " + "x" + "\r\n" == "PORT x\r\n";
    PortIsName();
    LineRoundTrip("PORT", "x");
    BlankUnknown();
    XThrows();
    PortTurn(st, cfg, "PORT x\r\n", w);
  }

  lemma PortTurn(st: State, cfg: Config, raw: string, w: World)
    requires st.phase == Ready && |raw| <= MAX_CMD_LENGTH && Clean(raw) != ""
    requires Parse(Clean(raw)).verb == PORT && Address.Throws(Parse(Clean(raw)).argument)
    ensures Turn(st, cfg, raw, w) == Outcome(st.(phase := Aborted), [], NotStarted)
  {
    hide Parse, Clean, Address.Throws;
  }

  lemma PortIsName()
    ensures IsName("PORT") && VerbOf("PORT") == PORT
  {
    var port := "PORT";
    assert port[0] == 'P' && port[1] == 'O' && port[2] == 'R' && port[3] == 'T';
  }

  lemma BlankUnknown()
    ensures Parse("").verb == Unknown("")
  {
  }

  lemma XThrows()
    ensures Address.Throws("x")
  {
    assert "" + ['x'] == "x" && "x"[1..] == "";
    assert Address.Fields("x") == ["x"];
    assert !Address.IsSpace('x') && !Decimal.IsDigit('x');
    assert Address.Stoi(Address.Fields("x")[0]) == Address.NoInt;
  }

  /** Five numbers are enough: the sixth is then zero. */
  lemma FiveNumbersAnswered(st: State, octets: seq<nat>, w: World)
    requires |octets| == 5 && forall i :: 0 <= i < 5 ==> octets[i] < 256
    ensures DispatchReady(st, Command(PORT, Address.PrintNumbers(octets)), w) ==
            if octets[4] * 256 < 1024 then Say(st, 504, "PORT to privileged port rejected")
            else Say(st, 200, "PORT command successful")
  {
    Address.NumbersReadBack(octets);
    hide Address.Throws, Address.Overruns, Address.Numbers, Address.PrintNumbers;
  }

  /** Before a login nothing but the six always-answered commands has any effect. */
  lemma NothingBeforeLogin(st: State, cfg: Config, raw: string, w: World)
    requires Inv(st, cfg) && st.phase != Ready && Clean(raw) != "" && |raw| <= MAX_CMD_LENGTH
    requires !Always(Parse(Clean(raw)).verb)
    ensures Turn(st, cfg, raw, w) == Say(st, 530, "Please login first")
  {
    hide Clean, Parse, Dispatch;
    Guarded(st, cfg, Parse(Clean(raw)), w);
  }

  // ---------------------------------------------------------------- the restart offset

  function Starts(st: State, cfg: Config, events: seq<Event>): seq<Started>
    decreases |events|
  {
    if events == [] || Over(st) || events[0].raw == "" then []
    else
      var o := Turn(st, cfg, events[0].raw, events[0].world);
      (if o.started.Started? then [o.started] else []) + Starts(o.st, cfg, events[1..])
  }

  predicate IsRest(raw: string) { Parse(Clean(raw)).verb == REST }

  // Transfers only, each from the beginning of its file.
  predicate FromZero(starts: seq<Started>) {
    forall i :: 0 <= i < |starts| ==> starts[i].Started? && starts[i].offset == 0
  }

  /** The offset of REST is used by one transfer: from a state without one, and without another REST, every
      transfer of the run starts at 0, whatever fails in between and whoever logs in. */
  lemma {:induction false} OffsetUsedOnce(st: State, cfg: Config, events: seq<Event>)
    requires Inv(st, cfg) && st.restart == 0
    requires forall i :: 0 <= i < |events| ==> !IsRest(events[i].raw)
    ensures Run(st, cfg, events).restart == 0 && FromZero(Starts(st, cfg, events))
    decreases |events|
  {
    hide IsRest, Turn, Inv, FromZero;
    NothingStarted();
    if events != [] && !Over(st) && events[0].raw != "" {
      var raw, w := events[0].raw, events[0].world;
      var o := Turn(st, cfg, raw, w);
      assert !IsRest(raw);
      TurnKeepsInv(st, cfg, raw, w);
      OffsetAfterTurn(st, cfg, raw, w);
      OffsetUsedOnce(o.st, cfg, events[1..]);
      OneMoreStart(if o.started.Started? then [o.started] else [], Starts(o.st, cfg, events[1..]));
    }
  }

  lemma NothingStarted()
    ensures FromZero([])
  {
  }

  lemma OneMoreStart(first: seq<Started>, rest: seq<Started>)
    requires FromZero(rest) && (first == [] || (|first| == 1 && first[0].Started? && first[0].offset == 0))
    ensures FromZero(first + rest)
  {
  }

  lemma OffsetAfterTurn(st: State, cfg: Config, raw: string, w: World)
    requires Inv(st, cfg)
    ensures var o := Turn(st, cfg, raw, w);
            && (o.started.Started? ==> o.started.offset == st.restart && o.st.restart == 0)
            && (o.started.NotStarted? && !IsRest(raw) ==> o.st.restart == st.restart)
  {
    hide Clean, Parse, Dispatch, DispatchReady, Inside, Disciplined;
    var c := Parse(Clean(raw));
    if Always(c.verb) {
      AlwaysAnswered(st, cfg, c, w);
    } else {
      Guarded(st, cfg, c, w);
      if st.phase == Ready { InsideByInv(st, cfg); ReadyGood(st, c, w); }
    }
  }

  // ---------------------------------------------------------------- command lines

  lemma {:induction false} StripEndIs(s: string, tail: string)
    requires s != "" && s[|s| - 1] != '\r' && s[|s| - 1] != '\n'
    requires forall i :: 0 <= i < |tail| ==> tail[i] == '\r' || tail[i] == '\n'
    ensures StripEnd(s + tail) == s
    decreases |tail|
  {
    if tail == "" {
      assert s + tail == s;
    } else {
      assert (s + tail)[..|s + tail| - 1] == s + tail[..|tail| - 1];
      StripEndIs(s, tail[..|tail| - 1]);
    }
  }

  lemma {:induction false} FirstSpaceIs(s: string, i: nat)
    requires i < |s| && s[i] == ' ' && forall j :: 0 <= j < i ==> s[j] != ' '
    ensures FirstSpace(s) == i
  {
    if i > 0 { FirstSpaceIs(s[1..], i - 1); }
  }

  predicate IsName(name: string) { name != "" && forall i :: 0 <= i < |name| ==> 'A' <= name[i] <= 'Z' }

  /** A line of a verb, a space and an argument without line breaks is read as exactly those two. */
  lemma LineRoundTrip(name: string, arg: string)
    requires IsName(name) && '\r' !in arg && '\n' !in arg
    ensures Parse(Clean(name + " " + arg + "\r\n")) == Command(VerbOf(name), arg)
    ensures Parse(Clean(name + "\r\n")) == Command(VerbOf(name), "")
  {
    hide VerbOf;
    var line := name + " " + arg;
    assert Upper(name) == name;
    StripEndIs(line, "\r\n");
    assert StripStart(line) == line;
    FirstSpaceIs(line, |name|);
    assert line[..|name|] == name && line[|name| + 1..] == arg;
    StripEndIs(name, "\r\n");
    assert StripStart(name) == name;
    if FirstSpace(name) < |name| { assert false; }
  }
}
