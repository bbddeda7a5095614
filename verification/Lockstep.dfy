/**
 The client and the session as two parties that exchange commands, replies and data, every interleaving of
 them being a run.  The session answers by SessionSpec; the client runs a script of operations.
 */
module Lockstep {
  import opened SessionPaths
  import opened SessionSpec
  import Address
  import Client
  import Decimal
  import ReplyLines
  import Transfer

  type Bytes = Transfer.Bytes

  // ---------------------------------------------------------------- the two parties

  datatype LocalFile = Missing | Content(data: Bytes)

  datatype Op =
    | Pwd | Cd(dir: string) | Delete(file: string) | Mkdir(dir: string) | Rmdir(dir: string)
    | Rename(from: string, to: string)
    | List | Download(file: string, creatable: bool) | Upload(file: string, local: LocalFile)

  // Where the client is inside its operation; the reading ones wait in readReply.
  datatype Pc =
    | Begin | ReadOnly | ReadFrom | ReadTo | ReadPasv | Connecting(target: Address.Endpoint) | Attached
    | ReadFirst | Draining | Pushing(rest: Bytes) | ReadFinal

  // Where the session is inside a command; final is the reply it still owes.
  // What a store answers depends on how its receive ends.
  datatype Serving =
    | Idle | Opening(storing: bool, final: Reply, works: bool)
    | Sending(final: Reply, rest: Bytes) | Receiving | Finishing(final: Reply) | Closing

  // How a transfer goes on: undisturbed, or broken off by a failing call, by the size limit or by a local
  // file that cannot be opened.
  datatype Ending = Goes | Breaks | Overflows | Fails

  // The client's latest data connection, as the session sees it.
  datatype Link = Unlinked | Queued | Accepted | Dropped

  // A reply with the numbers of the first and the last command that were in what it answers.
  datatype Numbered = Numbered(from: nat, number: nat, reply: Reply)

  // Histories: how the latest transfer ended; and Behind once a download was abandoned, Astray after the first
  // reply read since.
  datatype Sync = InStep | Behind | Astray

  datatype State = State(
    ops: seq<Op>, pc: Pc, sent: nat,
    commands: seq<string>, replies: seq<Numbered>,
    st: SessionSpec.State, served: nat, serving: Serving, passive: bool, listener: Passive,
    link: Link, clientOpen: bool, wire: Bytes, put: Bytes, got: Bytes,
    ended: Ending, sync: Sync)

  datatype Env = Env(cfg: Config, capacity: nat)

  // ---------------------------------------------------------------- command lines

  function Line(name: string, arg: string): string { name + " " + arg + "\r\n" }
  function Bare(name: string): string { name + "\r\n" }

  predicate Reads(pc: Pc) {
    pc.ReadOnly? || pc.ReadFrom? || pc.ReadTo? || pc.ReadPasv? || pc.ReadFirst? || pc.ReadFinal?
  }

  // The places an operation passes through.
  predicate Fits(op: Op, pc: Pc) {
    match pc
    case Begin => true
    case ReadOnly => op.Pwd? || op.Cd? || op.Delete? || op.Mkdir? || op.Rmdir?
    case ReadFrom => op.Rename?
    case ReadTo => op.Rename?
    case Draining => op.List? || op.Download?
    case Pushing(_) => op.Upload? && op.local.Content?
    case _ => op.List? || op.Download? || (op.Upload? && op.local.Content?)
  }

  predicate Awaits(pc: Pc) { Reads(pc) && !pc.ReadFinal? }

  // The latest command of a client that waits for its first reply.
  function LineFor(op: Op, pc: Pc): string
    requires Fits(op, pc) && Awaits(pc)
  {
    match pc
    case ReadFrom => Line("RNFR", op.from)
    case ReadTo => Line("RNTO", op.to)
    case ReadPasv => Bare("PASV")
    case _ =>
      match op
      case Pwd => Bare("PWD")
      case Cd(d) => Line("CWD", d)
      case Delete(f) => Line("DELE", f)
      case Mkdir(d) => Line("MKD", d)
      case Rmdir(d) => Line("RMD", d)
      case List => Bare("LIST")
      case Download(f, _) => Line("RETR", f)
      case Upload(f, _) => Line("STOR", f)
  }

  function VerbFor(op: Op, pc: Pc): Verb
    requires Fits(op, pc) && Awaits(pc)
  {
    match pc
    case ReadFrom => RNFR
    case ReadTo => RNTO
    case ReadPasv => PASV
    case _ =>
      match op
      case Pwd => PWD
      case Cd(_) => CWD
      case Delete(_) => DELE
      case Mkdir(_) => MKD
      case Rmdir(_) => RMD
      case List => LIST
      case Download(_, _) => RETR
      case Upload(_, _) => STOR
  }

  predicate Short(name: string, arg: string) {
    '\r' !in arg && '\n' !in arg && |Line(name, arg)| <= MAX_CMD_LENGTH
  }

  // Operations whose commands fit in one receive and hold no line break.
  predicate Sendable(op: Op) {
    match op
    case Cd(d) => Short("CWD", d)
    case Delete(f) => Short("DELE", f)
    case Mkdir(d) => Short("MKD", d)
    case Rmdir(d) => Short("RMD", d)
    case Rename(f, t) => Short("RNFR", f) && Short("RNTO", t)
    case Download(f, _) => Short("RETR", f)
    case Upload(f, _) => Short("STOR", f)
    case _ => true
  }

  // The session accepts the name of the file, if there is one.
  predicate Acceptable(op: Op) { op.List? || ((op.Download? || op.Upload?) && SafeFilename(op.file)) }

  // openDataConnection on the text of the reply; no session of this model sends a 227 on which it throws.
  function Target(r: Reply): Address.Endpoint {
    var text := Client.FirstLine(r);
    if '(' !in text || ')' !in text then Address.NoEndpoint
    else TargetOf(Address.Parenthesised(text))
  }

  function TargetOf(text: string): Address.Endpoint {
    if Address.Throws(text) || Address.Undefined(text) then Address.NoEndpoint
    else Address.Endpoint(Address.DottedQuad(Address.Numbers(text)), Address.Port(Address.Numbers(text)))
  }

  // ---------------------------------------------------------------- the client's steps

  // connects: whether connectSocket succeeds; k: how many bytes one call moves on the data connection, and of
  // how many of the client's sends one receive takes the bytes on the control connection.
  datatype Action =
    | Client(connects: bool, k: nat)
    | Server(world: World, payload: Bytes, ending: Ending, k: nat)

  predicate ClientLegal(s: State, env: Env, k: nat) {
    && s.ops != [] && Fits(s.ops[0], s.pc)
    && match s.pc
       case Begin => true
       case Connecting(_) => true
       case Attached => true
       case Draining => if s.wire != [] then 1 <= k <= |s.wire| else k == 0 && s.link.Dropped?
       case Pushing(rest) =>
         (rest == [] && k == 0) || (1 <= k <= |rest| && (s.link.Dropped? || |s.wire| + k <= env.capacity))
       case _ => s.replies != []
  }

  function Send(s: State, pc: Pc): State
    requires s.ops != [] && Fits(s.ops[0], pc) && Awaits(pc)
  {
    s.(commands := s.commands + [LineFor(s.ops[0], pc)], sent := s.sent + 1, pc := pc)
  }

  // The destructor of the data socket runs when an operation returns.
  function Return(s: State): State
    requires s.ops != []
  {
    s.(ops := s.ops[1..], pc := Begin, clientOpen := false)
  }

  function ReadReply(s: State): State
    requires s.replies != []
  {
    s.(replies := s.replies[1..], sync := if s.sync.Behind? then Astray else s.sync)
  }

  function ClientNext(s: State, env: Env, connects: bool, k: nat): State
    requires ClientLegal(s, env, k)
  {
    match s.pc
    case Begin => BeginOp(s)
    case ReadOnly => Return(ReadReply(s))
    case ReadFrom => Send(ReadReply(s), ReadTo)
    case ReadTo => Return(ReadReply(s))
    case ReadPasv => AfterPasv(s)
    case Connecting(_) => Connect(s, connects)
    case Attached => Send(s, ReadFirst)
    case ReadFirst => AfterFirst(s)
    case Draining => Drain(s, k)
    case Pushing(_) => Push(s, k)
    case ReadFinal => Return(ReadReply(s))
  }

  function AfterPasv(s: State): State
    requires s.ops != [] && s.replies != []
  {
    var r := s.replies[0].reply;
    if r.code == 227 then ReadReply(s).(pc := Connecting(Target(r))) else Return(ReadReply(s))
  }

  function Connect(s: State, connects: bool): State
    requires s.ops != [] && s.pc.Connecting?
  {
    if connects && s.pc.target.Endpoint? && s.listener.Listening? && s.listener.port == s.pc.target.port then
      s.(pc := Attached, link := Queued, clientOpen := true, wire := [], put := [], got := [])
    else Return(s)
  }

  function Drain(s: State, k: nat): State
    requires k <= |s.wire|
  {
    if s.wire != [] then s.(wire := s.wire[k..], got := s.got + s.wire[..k]) else s.(pc := ReadFinal)
  }

  function Push(s: State, k: nat): State
    requires s.pc.Pushing? && k <= |s.pc.rest|
  {
    var rest := s.pc.rest;
    if rest == [] then s.(pc := ReadFinal, clientOpen := false)
    else if s.link.Dropped? then s.(pc := Pushing(rest[k..]))
    else s.(pc := Pushing(rest[k..]), wire := s.wire + rest[..k], put := s.put + rest[..k])
  }

  function BeginOp(s: State): State
    requires s.ops != []
  {
    match s.ops[0]
    case Rename(_, _) => Send(s, ReadFrom)
    case List => Send(s, ReadPasv)
    case Download(_, _) => Send(s, ReadPasv)
    case Upload(_, local) => if local.Missing? then Return(s) else Send(s, ReadPasv)
    case _ => Send(s, ReadOnly)
  }

  // A download that was promised data but whose local file cannot be created.
  predicate Abandons(op: Op, r: Reply) { op.Download? && r.code == 150 && !op.creatable }

  predicate AbandonsNow(s: State) {
    s.pc.ReadFirst? && s.ops != [] && s.replies != [] && Abandons(s.ops[0], s.replies[0].reply)
  }

  function AfterFirst(s: State): State
    requires s.ops != [] && Fits(s.ops[0], ReadFirst) && s.replies != []
  {
    var op, r := s.ops[0], s.replies[0].reply;
    if op.List? then ReadReply(s).(pc := Draining)
    else if r.code != 150 then Return(ReadReply(s))
    else if op.Upload? then ReadReply(s).(pc := Pushing(op.local.data))
    else if op.creatable then ReadReply(s).(pc := Draining)
    else Return(ReadReply(s)).(sync := if s.sync.InStep? then Behind else Astray)
  }

  // ---------------------------------------------------------------- the session's steps

  predicate ServerLegal(s: State, env: Env, w: World, ending: Ending, k: nat) {
    match s.serving
    case Idle =>
      && 1 <= k <= |s.commands| && !Over(s.st)
      && (w.passive.Listening? ==> w.passive.port < 0x1_0000)
      && (k >= 2 ==> !w.isDirectory)  // no name of a directory holds a line break
    case Opening(_, _, _) => s.passive && s.listener.Listening? ==> s.link.Queued?
    case Sending(_, rest) =>
      !ending.Goes? || (rest == [] && k == 0)
      || (1 <= k <= |rest| && (s.clientOpen ==> |s.wire| + k <= env.capacity))
    case Receiving =>
      match ending {
        case Goes => if s.wire != [] then 1 <= k <= |s.wire| else k == 0 && !s.clientOpen
        case Breaks => true
        case Overflows => s.wire != []
        case Fails => s.got == []
      }
    case _ => true
  }

  // A connection waiting at a listener is reset with it.
  function CloseListener(s: State): State {
    s.(listener := NoListener, link := if s.link.Queued? then Dropped else s.link)
  }

  function NumberAll(from: nat, number: nat, replies: seq<Reply>): seq<Numbered> {
    seq(|replies|, i requires 0 <= i < |replies| => Numbered(from, number, replies[i]))
  }

  function Joined(commands: seq<string>): string {
    if commands == [] then "" else commands[0] + Joined(commands[1..])
  }

  const RECEIVE_SIZE: nat := MAX_CMD_LENGTH + 1

  // What one receive takes of the commands under way, and what it leaves.
  function Taken(commands: seq<string>, sends: nat): string
    requires sends <= |commands|
  {
    var bytes := Joined(commands[..sends]);
    if |bytes| > RECEIVE_SIZE then bytes[..RECEIVE_SIZE] else bytes
  }

  function LeftOver(commands: seq<string>, sends: nat): (left: seq<string>)
    requires 1 <= sends <= |commands|
    ensures |left| <= |commands|
  {
    var bytes := Joined(commands[..sends]);
    if |bytes| > RECEIVE_SIZE then [bytes[RECEIVE_SIZE..]] + commands[sends..] else commands[sends..]
  }

  function Receive(s: State, cfg: Config, w: World, sends: nat): State
    requires 1 <= sends <= |s.commands|
  {
    var left := LeftOver(s.commands, sends);
    Handle(s.(commands := left, served := s.served + |s.commands| - |left|), cfg, Taken(s.commands, sends),
           s.served + 1, s.served + sends, w)
  }

  // One turn of the session's loop, on bytes of the commands from `from` to `number`.
  function Handle(s: State, cfg: Config, raw: string, from: nat, number: nat, w: World): State {
    var v, o := Parse(Clean(raw)).verb, Turn(s.st, cfg, raw, w);
    if |o.replies| == 2 then
      s.(st := o.st, replies := s.replies + [Numbered(from, number, o.replies[0])],
         serving := Opening(v == STOR, o.replies[1], w.dataOpens))
    else
      var heard := if o.replies == [] then [] else Client.Heard(o.replies[0]);
      var t := s.(st := o.st, replies := s.replies + NumberAll(from, number, heard));
      if s.st.phase == Ready && |raw| <= MAX_CMD_LENGTH then Listen(t, v, o.replies, w) else t
  }

  // PASV and an accepted PORT close the listener, and PASV opens another.
  function Listen(s: State, v: Verb, replies: seq<Reply>, w: World): State {
    if v == PASV then CloseListener(s).(listener := w.passive, passive := s.passive || w.passive.Listening?)
    else if v == PORT && |replies| == 1 && replies[0].code == 200 then CloseListener(s).(passive := false)
    else s
  }

  function Open(s: State, payload: Bytes): State
    requires s.serving.Opening?
  {
    var final := s.serving.final;
    if s.passive && s.listener.Listening? && s.serving.works then
      s.(listener := NoListener, link := Accepted, ended := Goes,
         serving := if s.serving.storing then Receiving else Sending(final, payload))
    else if s.passive then CloseListener(s).(serving := Finishing(final), ended := Fails)
    else s.(serving := Finishing(final), ended := Fails)
  }

  function SendSome(s: State, ending: Ending, k: nat): State
    requires s.serving.Sending? && (ending.Goes? ==> k <= |s.serving.rest|)
  {
    var final, rest := s.serving.final, s.serving.rest;
    if !ending.Goes? then s.(serving := Finishing(final), ended := ending)
    else if rest == [] then s.(serving := Finishing(final))
    else if s.clientOpen then
      s.(serving := Sending(final, rest[k..]), wire := s.wire + rest[..k], put := s.put + rest[..k])
    else s.(serving := Sending(final, rest[k..]))
  }

  // The loop of a store does not tell a failing receive from the end of the stream.
  function StoreReply(got: Bytes, ending: Ending): Reply {
    TransferReply(true, Transfer.Result(|got|, ending.Goes? || ending.Breaks?, ending.Overflows?))
  }

  function TakeSome(s: State, ending: Ending, k: nat): State
    requires s.serving.Receiving? && (ending.Goes? ==> k <= |s.wire|)
  {
    if ending.Goes? && s.wire != [] then s.(wire := s.wire[k..], got := s.got + s.wire[..k])
    else s.(serving := Finishing(StoreReply(s.got, ending)), ended := ending)
  }

  function Finish(s: State): State
    requires s.serving.Finishing?
  {
    s.(serving := Closing, replies := s.replies + [Numbered(s.served, s.served, s.serving.final)])
  }

  function CloseData(s: State): State {
    s.(serving := Idle, link := if s.link.Accepted? then Dropped else s.link)
  }

  function ServerNext(s: State, env: Env, w: World, payload: Bytes, ending: Ending, k: nat): State
    requires ServerLegal(s, env, w, ending, k)
  {
    match s.serving
    case Idle => Receive(s, env.cfg, w, k)
    case Opening(_, _, _) => Open(s, payload)
    case Sending(_, _) => SendSome(s, ending, k)
    case Receiving => TakeSome(s, ending, k)
    case Finishing(_) => Finish(s)
    case Closing => CloseData(s)
  }

  predicate Legal(s: State, env: Env, a: Action) {
    match a
    case Client(_, k) => ClientLegal(s, env, k)
    case Server(w, _, ending, k) => ServerLegal(s, env, w, ending, k)
  }

  function Next(s: State, env: Env, a: Action): State
    requires Legal(s, env, a)
  {
    match a
    case Client(connects, k) => ClientNext(s, env, connects, k)
    case Server(w, payload, ending, k) => ServerNext(s, env, w, payload, ending, k)
  }

  // After the login, with a script to run.
  ghost predicate Initial(s: State, env: Env) {
    && s.pc == Begin && s.commands == [] && s.replies == [] && s.sent == s.served
    && SessionSpec.Inv(s.st, env.cfg) && s.st.phase == Ready && ReplyLines.PlainBelow(s.st)
    && s.serving == Idle && !s.passive && s.listener == NoListener
    && s.link == Unlinked && !s.clientOpen && s.wire == [] && s.put == [] && s.got == [] && s.sync == InStep
    && forall i :: 0 <= i < |s.ops| ==> Sendable(s.ops[i])
  }

  // ---------------------------------------------------------------- the invariant

  predicate Placed(s: State) { s.pc.Begin? || (s.ops != [] && Fits(s.ops[0], s.pc)) }

  predicate Between(s: State) { s.serving.Idle? || s.serving.Closing? }

  predicate Closes(r: Reply) { r.code != 227 && r.code != 150 }

  // The session has answered 150 and owes the final reply.
  predicate Busy(s: State, storing: bool) {
    match s.serving
    case Opening(d, final, works) =>
      && d == storing && s.passive && s.listener.Listening? && s.link.Queued?
      && Closes(final) && (!works ==> final.code == 425)
    case Sending(final, _) => !storing && s.link.Accepted? && Closes(final)
    case Receiving => storing && s.link.Accepted?
    case Finishing(final) => (s.link.Accepted? || s.link.Dropped?) && Closes(final) && (storing ==> Tells(s, final))
    case _ => false
  }

  // A store is answered 226 exactly if its receive came to the end of the stream or broke off.
  predicate Tells(s: State, r: Reply) { r.code == 226 <==> s.ended.Goes? || s.ended.Breaks? }

  // The final reply of a data command has been sent.
  predicate Answered(s: State) {
    (s.link.Dropped? && Between(s)) || (s.link.Accepted? && s.serving.Closing?)
  }

  // The reply of a listener that is still open.
  predicate Offers(s: State, r: Reply) {
    r.code == 227 ==>
      && s.passive && s.listener.Listening? && s.listener.port < 0x1_0000
      && r == Reply(227, Address.PasvResponse(s.listener.port)[4..])
  }

  // What has been sent and answered at each place of the client.
  predicate Together(s: State) {
    Placed(s) &&
    match s.pc
    case Begin => s.commands == [] && s.replies == [] && Between(s)
    case Connecting(target) =>
      && s.commands == [] && s.replies == [] && s.serving.Idle? && s.passive && s.listener.Listening?
      && target == Address.Endpoint("127.0.0.1", s.listener.port)
    case Attached =>
      && s.commands == [] && s.replies == [] && s.serving.Idle? && s.passive && s.listener.Listening? && s.link.Queued?
    case ReadFirst =>
      || (s.commands == [LineFor(s.ops[0], s.pc)] && s.replies == [] && s.serving.Idle? && s.passive
          && s.listener.Listening? && s.link.Queued?)
      || (s.commands == [] && |s.replies| == 1 && s.replies[0].reply.code != 150 && s.serving.Idle? && !s.ops[0].List?)
      || (s.commands == [] && |s.replies| == 1 && s.replies[0].reply.code == 150 && Acceptable(s.ops[0])
          && Busy(s, s.ops[0].Upload?))
      || (s.commands == [] && |s.replies| == 2 && s.replies[0].reply.code == 150 && Acceptable(s.ops[0])
          && Answered(s) && Closes(s.replies[1].reply) && (s.ops[0].Upload? ==> Tells(s, s.replies[1].reply)))
    case Draining => s.commands == [] && Rest(s)
    case Pushing(_) => s.commands == [] && Rest(s)
    case ReadFinal => s.commands == [] && Rest(s)
    case _ =>
      || (s.commands == [LineFor(s.ops[0], s.pc)] && s.replies == [] && Between(s))
      || (s.commands == [] && |s.replies| == 1 && s.serving.Idle? && (s.pc.ReadPasv? ==> Offers(s, s.replies[0].reply)))
  }

  // The rest of a data command, once its 150 has been read.
  predicate Rest(s: State)
    requires s.ops != []
  {
    || (s.replies == [] && Busy(s, s.ops[0].Upload?))
    || (|s.replies| == 1 && Answered(s) && Closes(s.replies[0].reply)
        && (s.ops[0].Upload? ==> Tells(s, s.replies[0].reply)))
  }

  // The receive of a store is over.
  predicate Stored(s: State)
    requires Placed(s)
  {
    && (s.pc.ReadFirst? || s.pc.Pushing? || s.pc.ReadFinal?) && s.ops[0].Upload?
    && s.commands == [] && !s.serving.Receiving? && !s.serving.Opening?
    && (s.pc.ReadFirst? ==> s.replies != [] && s.replies[0].reply.code == 150)
  }

  // What has crossed the data connection.
  predicate Conserved(s: State) {
    && Placed(s)
    && s.put == s.got + s.wire
    && s.clientOpen == (s.pc.Attached? || s.pc.ReadFirst? || s.pc.Draining? || s.pc.Pushing?
                        || (s.pc.ReadFinal? && !s.ops[0].Upload?))
    && (s.pc.Attached? || (s.pc.ReadFirst? && s.ops[0].Upload?) ==> s.put == [])
    && (s.pc.Pushing? && !s.link.Dropped? ==> s.put + s.pc.rest == s.ops[0].local.data)
    && (s.pc.ReadFinal? && s.ops[0].Upload? && !s.link.Dropped? ==> s.put == s.ops[0].local.data)
    && (s.pc.ReadFinal? && !s.ops[0].Upload? ==> s.link.Dropped? && s.wire == [])
    && ((s.pc.Pushing? || s.pc.ReadFinal?) && s.ops[0].Upload? ==> s.put <= s.ops[0].local.data)
    && (Stored(s) && s.ended.Goes? ==> s.pc.ReadFinal? && s.wire == [] && s.put == s.ops[0].local.data)
  }

  // One final reply is on its way that no operation will ask for.
  predicate OneBehind(s: State) {
    && Placed(s)
    && !s.clientOpen
    && if s.pc.Begin? then
         s.commands == [] && Late(s) && (s.replies != [] ==> s.replies[0].number == s.sent)
       else
         && (s.pc.ReadOnly? || s.pc.ReadFrom? || s.pc.ReadPasv?)
         && (|| (s.commands == [LineFor(s.ops[0], s.pc)] && Late(s))
             || (s.commands == [] && |s.replies| == 2 && s.serving.Idle?))
         && (s.replies != [] ==> s.replies[0].number + 1 == s.sent)
  }

  predicate Late(s: State) {
    || (s.replies == [] && Busy(s, false))
    || (|s.replies| == 1 && Answered(s) && Closes(s.replies[0].reply))
  }

  ghost predicate Common(s: State, env: Env) {
    && SessionSpec.Inv(s.st, env.cfg) && s.st.phase == Ready && ReplyLines.PlainBelow(s.st)
    && (forall i :: 0 <= i < |s.ops| ==> Sendable(s.ops[i]))
    && Placed(s)
    && s.served + |s.commands| == s.sent
  }

  predicate OwnReplies(s: State) {
    forall i :: 0 <= i < |s.replies| ==> s.replies[i].from <= s.replies[i].number == s.sent
  }

  ghost predicate InStepInv(s: State, env: Env) {
    Common(s, env) && OwnReplies(s) && Together(s) && Conserved(s)
  }

  ghost predicate Inv(s: State, env: Env) {
    match s.sync
    case InStep => InStepInv(s, env)
    case Behind => Common(s, env) && OneBehind(s)
    case Astray => true
  }

  lemma InitialInv(s: State, env: Env)
    requires Initial(s, env)
    ensures Inv(s, env)
  {
  }

  // ---------------------------------------------------------------- the session answers the client

  lemma NamedLine(name: string, arg: string)
    requires IsName(name) && '\r' !in arg && '\n' !in arg && !VerbOf(name).Unknown?
    ensures Parse(Clean(Line(name, arg))) == Command(VerbOf(name), arg) && Clean(Line(name, arg)) != ""
    ensures Parse(Clean(Bare(name))) == Command(VerbOf(name), "") && Clean(Bare(name)) != ""
  {
    hide Parse, Clean, VerbOf;
    LineRoundTrip(name, arg);
    BlankUnknown();
  }

  // The name on the line of a waiting client, and its argument.
  function NameFor(op: Op, pc: Pc): string
    requires Fits(op, pc) && Awaits(pc)
  {
    match pc
    case ReadFrom => "RNFR"
    case ReadTo => "RNTO"
    case ReadPasv => "PASV"
    case _ =>
      match op
      case Pwd => "PWD"
      case Cd(_) => "CWD"
      case Delete(_) => "DELE"
      case Mkdir(_) => "MKD"
      case Rmdir(_) => "RMD"
      case List => "LIST"
      case Download(_, _) => "RETR"
      case Upload(_, _) => "STOR"
  }

  lemma AreNames()
    ensures IsName("PWD") && IsName("CWD") && IsName("MKD") && IsName("RMD") && IsName("DELE") && IsName("PASV")
    ensures IsName("RNFR") && IsName("RNTO") && IsName("LIST") && IsName("RETR") && IsName("STOR")
  {
  }

  lemma DirectoryNames()
    ensures VerbOf("PWD") == PWD && VerbOf("CWD") == CWD && VerbOf("MKD") == MKD && VerbOf("RMD") == RMD
  {
  }

  lemma FileNames()
    ensures VerbOf("DELE") == DELE && VerbOf("PASV") == PASV
  {
    var dele, pasv := "DELE", "PASV";
    assert dele[0] == 'D' && pasv[0] == 'P' && pasv[1] == 'A' && pasv[2] == 'S' && pasv[3] == 'V';
  }

  lemma RenameNames()
    ensures VerbOf("RNFR") == RNFR && VerbOf("RNTO") == RNTO
  {
    var rnfr, rnto := "RNFR", "RNTO";
    assert rnfr[0] == 'R' && rnfr[1] == 'N' && rnfr[2] == 'F' && rnfr[3] == 'R';
    assert rnto[0] == 'R' && rnto[1] == 'N' && rnto[2] == 'T' && rnto[3] == 'O';
  }

  lemma TransferNames()
    ensures VerbOf("LIST") == LIST && VerbOf("RETR") == RETR && VerbOf("STOR") == STOR
  {
    var list, retr, stor := "LIST", "RETR", "STOR";
    assert list[0] == 'L' && retr[1] == 'E' && stor[0] == 'S' && stor[1] == 'T';
  }

  lemma NameIs(op: Op, pc: Pc)
    requires Fits(op, pc) && Awaits(pc)
    ensures IsName(NameFor(op, pc)) && VerbOf(NameFor(op, pc)) == VerbFor(op, pc)
  {
    hide IsName, VerbOf;
    AreNames();
    DirectoryNames();
    FileNames();
    RenameNames();
    TransferNames();
  }

  lemma LineOfName(op: Op, pc: Pc) returns (arg: string)
    requires Fits(op, pc) && Awaits(pc) && Sendable(op)
    ensures '\r' !in arg && '\n' !in arg
    ensures var line, name := LineFor(op, pc), NameFor(op, pc);
            (line == Line(name, arg) || line == Bare(name)) && |line| <= MAX_CMD_LENGTH
  {
    hide Line, IsName, VerbOf;
    arg := match pc
      case ReadFrom => op.from
      case ReadTo => op.to
      case ReadPasv => ""
      case _ =>
        match op
        case Cd(d) => d
        case Delete(f) => f
        case Mkdir(d) => d
        case Rmdir(d) => d
        case Download(f, _) => f
        case Upload(f, _) => f
        case _ => "";
  }

  lemma LineParses(op: Op, pc: Pc)
    requires Fits(op, pc) && Awaits(pc) && Sendable(op)
    ensures Parse(Clean(LineFor(op, pc))).verb == VerbFor(op, pc)
    ensures Client.Plain(Parse(Clean(LineFor(op, pc))).argument)
    ensures |LineFor(op, pc)| <= MAX_CMD_LENGTH && Clean(LineFor(op, pc)) != ""
  {
    hide Line, Bare, LineFor, NameFor, VerbFor, Clean, Parse, IsName, VerbOf, Sendable, Fits;
    NameIs(op, pc);
    VerbsSent(op, pc);
    var arg := LineOfName(op, pc);
    NamedLine(NameFor(op, pc), arg);
  }

  lemma ReadyTurn(st: SessionSpec.State, cfg: Config, line: string, w: World)
    requires st.phase == Ready && |line| <= MAX_CMD_LENGTH && Clean(line) != ""
    requires var v := Parse(Clean(line)).verb;
             !(v.USER? || v.PASS? || v.QUIT? || v.OPTS? || v.NOOP? || v.FEAT?)
    ensures Turn(st, cfg, line, w) == DispatchReady(st, Parse(Clean(line)), w)
  {
    hide Clean, Parse, DispatchReady;
  }

  lemma PasvAndList(st: SessionSpec.State, c: Command, w: World)
    ensures c.verb == PASV ==> DispatchReady(st, c, w).replies == HandlePasv(st, w).replies
    ensures c.verb == LIST ==> |DispatchReady(st, c, w).replies| == 2
  {
    hide HandlePasv;
  }

  lemma VerbsSent(op: Op, pc: Pc)
    requires Fits(op, pc) && Awaits(pc)
    ensures var v := VerbFor(op, pc);
            && !(v.USER? || v.PASS? || v.QUIT? || v.OPTS? || v.NOOP? || v.FEAT? || v.PORT? || v.Unknown?)
            && ReplyLines.SentByClient(v)
            && (OpensData(v) ==> pc.ReadFirst?) && (op.List? && pc.ReadFirst? ==> v == LIST)
            && (v == PASV <==> pc.ReadPasv?) && (v == STOR <==> pc.ReadFirst? && op.Upload?)
  {
  }

  // No reply but the one to PASV is a 227, and without a data connection the second is 425.
  predicate Coded(o: Outcome, other: bool, w: World) {
    && (other ==> forall i :: 0 <= i < |o.replies| ==> o.replies[i].code != 227)
    && (|o.replies| == 2 && !w.dataOpens ==> o.replies[1].code == 425)
  }

  lemma SentCoded(st: SessionSpec.State, c: Command, w: World)
    requires ReplyLines.SentByClient(c.verb)
    ensures Coded(DispatchReady(st, c, w), c.verb != PASV, w)
  {
    hide Resolve, WithinRoot, SafeFilename, SessionPaths.Pwd, Cdup, Address.PasvResponse, Transfer.ParseOffset;
  }

  lemma DataParses(op: Op)
    requires Fits(op, ReadFirst) && Sendable(op) && !op.List?
    ensures Parse(Clean(LineFor(op, ReadFirst))).argument == op.file
  {
    hide Parse, Clean, VerbOf, IsName, Line;
    AreNames();
    TransferNames();
    NamedLine(if op.Upload? then "STOR" else "RETR", op.file);
  }

  lemma OnlyAccepted(st: SessionSpec.State, c: Command, w: World)
    requires c.verb == RETR || c.verb == STOR
    ensures |DispatchReady(st, c, w).replies| == 2 ==> SafeFilename(c.argument)
  {
    hide SafeFilename, Resolve, WithinRoot;
  }

  lemma Served(st: SessionSpec.State, cfg: Config, op: Op, pc: Pc, w: World)
    requires Fits(op, pc) && Awaits(pc) && Sendable(op)
    requires SessionSpec.Inv(st, cfg) && st.phase == Ready && ReplyLines.PlainBelow(st)
    ensures var o := Turn(st, cfg, LineFor(op, pc), w);
            && SessionSpec.Inv(o.st, cfg) && o.st.phase == Ready && Disciplined(o.replies) && ReplyLines.Tidy(o)
            && (|o.replies| == 2 ==> pc.ReadFirst? && Acceptable(op))
            && (op.List? && pc.ReadFirst? ==> |o.replies| == 2)
            && (pc.ReadPasv? ==> o.replies == HandlePasv(st, w).replies)
            && Coded(o, !pc.ReadPasv?, w)
  {
    hide Parse, Clean, SessionSpec.Inv, VerbFor, LineFor, Fits, Sendable, Turn, DispatchReady, HandlePasv, Disciplined,
         Coded, Address.Throws, Address.Undefined, ReplyLines.PlainBelow, ReplyLines.Tidy, SafeFilename, Client.Plain;
    LineParses(op, pc);
    VerbsSent(op, pc);
    var line := LineFor(op, pc);
    var c := Parse(Clean(line));
    TurnKeepsInv(st, cfg, line, w);
    ReadyTurn(st, cfg, line, w);
    PasvAndList(st, c, w);
    SentCoded(st, c, w);
    InsideOf(st, cfg);
    ReadyGood(st, c, w);
    ReplyLines.RepliesAreLines(st, c, w);
    if pc.ReadFirst? && !op.List? { AcceptedOnly(st, op, w); }
  }

  lemma AcceptedOnly(st: SessionSpec.State, op: Op, w: World)
    requires Fits(op, ReadFirst) && Sendable(op) && !op.List?
    ensures |DispatchReady(st, Parse(Clean(LineFor(op, ReadFirst))), w).replies| == 2 ==> Acceptable(op)
  {
    hide Parse, Clean, LineFor, Sendable, DispatchReady, SafeFilename;
    LineParses(op, ReadFirst);
    DataParses(op);
    OnlyAccepted(st, Parse(Clean(LineFor(op, ReadFirst))), w);
  }

  lemma InsideOf(st: SessionSpec.State, cfg: Config)
    requires SessionSpec.Inv(st, cfg)
    ensures Inside(st.root, st.cwd)
  {
  }

  lemma ReplyPrefix(resp: string, head: string, tail: string)
    requires resp == head + tail && head == "227 Entering Passive Mode "
    ensures "227" + " " + resp[4..] == resp
  {
    assert head[..4] == "227" + " ";
    assert resp[..4] == head[..4];
  }

  lemma OfferText(port: nat)
    ensures "227" + " " + Address.PasvResponse(port)[4..] == Address.PasvResponse(port)
  {
    hide Decimal.Print;
    var a, b := Decimal.Print(port / 256), Decimal.Print(port % 256);
    var head := "227 Entering Passive Mode ";
    var text := "127,0,0,1," + a + "," + b;
    Address.ReplyText(port, head, text);
    hide Address.PasvResponse;
    assert head + "(" + text + ")" == head + ("(" + text + ")");
    ReplyPrefix(Address.PasvResponse(port), head, "(" + text + ")");
  }

  lemma TargetOfOffer(s: State, r: Reply)
    requires Offers(s, r) && r.code == 227
    ensures Target(r) == Address.Endpoint("127.0.0.1", s.listener.port)
  {
    hide Address.Throws, Address.Undefined, Address.Parenthesised, Address.Numbers, Address.Port, Address.DottedQuad,
         Decimal.Print, Address.PasvResponse;
    CodeText();
    OfferText(s.listener.port);
    Address.PasvRoundTrip(s.listener.port);
  }

  lemma CodeText()
    ensures Decimal.Print(227) == "227"
  {
    assert Decimal.Print(22) == "22";
  }

  // ---------------------------------------------------------------- every step keeps it

  lemma OpenKeeps(s: State, env: Env, payload: Bytes)
    requires s.serving.Opening? && (s.passive && s.listener.Listening? ==> s.link.Queued?)
    ensures InStepInv(s, env) ==> InStepInv(Open(s, payload), env)
    ensures Common(s, env) && OneBehind(s) ==> Common(Open(s, payload), env) && OneBehind(Open(s, payload))
  {
    hide SessionSpec.Inv, Sendable, LineFor, Fits;
  }

  lemma SendKeeps(s: State, env: Env, ending: Ending, k: nat)
    requires s.serving.Sending? && (ending.Goes? ==> k <= |s.serving.rest|)
    ensures InStepInv(s, env) ==> InStepInv(SendSome(s, ending, k), env)
    ensures Common(s, env) && OneBehind(s) ==> Common(SendSome(s, ending, k), env) && OneBehind(SendSome(s, ending, k))
  {
    hide SessionSpec.Inv, Sendable, LineFor, ReplyLines.PlainBelow, Together, Conserved, OneBehind;
    SendsTogether(s, ending, k);
    SendsConserved(s, ending, k);
    SendsBehind(s, ending, k);
  }

  lemma SendsTogether(s: State, ending: Ending, k: nat)
    requires s.serving.Sending? && (ending.Goes? ==> k <= |s.serving.rest|)
    ensures Together(s) ==> Together(SendSome(s, ending, k))
  {
    hide LineFor, Acceptable;
  }

  lemma SendsConserved(s: State, ending: Ending, k: nat)
    requires s.serving.Sending? && (ending.Goes? ==> k <= |s.serving.rest|)
    ensures Together(s) && Conserved(s) ==> Conserved(SendSome(s, ending, k))
  {
    hide LineFor, Acceptable, Tells, Closes;
  }

  lemma SendsBehind(s: State, ending: Ending, k: nat)
    requires s.serving.Sending? && (ending.Goes? ==> k <= |s.serving.rest|)
    ensures OneBehind(s) ==> OneBehind(SendSome(s, ending, k))
  {
    hide LineFor;
  }

  lemma TakeKeeps(s: State, env: Env, ending: Ending, k: nat)
    requires s.serving.Receiving? && InStepInv(s, env)
    requires ending.Goes? ==> k <= |s.wire| && (s.wire == [] ==> !s.clientOpen)
    ensures InStepInv(TakeSome(s, ending, k), env)
  {
    hide SessionSpec.Inv, Sendable, LineFor, Fits;
    if ending.Goes? && s.wire != [] {
      assert s.got + s.wire[..k] + s.wire[k..] == s.got + s.wire;
    } else {
      StoreEnds(s, env, ending);
    }
  }

  function AfterStore(s: State, ending: Ending): State {
    s.(serving := Finishing(StoreReply(s.got, ending)), ended := ending)
  }

  lemma StoreEnds(s: State, env: Env, ending: Ending)
    requires s.serving.Receiving? && InStepInv(s, env)
    requires ending.Goes? ==> s.wire == [] && !s.clientOpen
    ensures InStepInv(AfterStore(s, ending), env)
  {
    StoreEndsTogether(s, ending);
    StoreEndsConserved(s, ending);
    hide SessionSpec.Inv, Sendable, LineFor, Together, Conserved, Fits;
  }

  lemma StoreEndsTogether(s: State, ending: Ending)
    requires s.serving.Receiving? && Together(s)
    ensures Together(AfterStore(s, ending))
  {
    hide LineFor;
  }

  lemma StoreEndsConserved(s: State, ending: Ending)
    requires s.serving.Receiving? && Together(s) && Conserved(s)
    requires ending.Goes? ==> s.wire == [] && !s.clientOpen
    ensures Conserved(AfterStore(s, ending))
  {
    hide LineFor, StoreReply;
    assert s.wire == [] ==> s.got + s.wire == s.got;
  }

  lemma FinishKeeps(s: State, env: Env)
    requires s.serving.Finishing?
    ensures InStepInv(s, env) ==> InStepInv(Finish(s), env)
    ensures Common(s, env) && OneBehind(s) ==> Common(Finish(s), env) && OneBehind(Finish(s))
  {
    hide SessionSpec.Inv, Sendable, LineFor, Fits;
  }

  lemma CloseKeeps(s: State, env: Env)
    requires s.serving.Closing?
    ensures InStepInv(s, env) ==> InStepInv(CloseData(s), env)
    ensures Common(s, env) && OneBehind(s) ==> Common(CloseData(s), env) && OneBehind(CloseData(s))
  {
    hide SessionSpec.Inv, Sendable, LineFor, Fits, ReplyLines.PlainBelow, Acceptable, Together, Conserved, OneBehind;
    ClosesTogether(s);
    ClosesBehind(s);
  }

  lemma ClosesTogether(s: State)
    requires s.serving.Closing?
    ensures Together(s) && Conserved(s) ==> Together(CloseData(s)) && Conserved(CloseData(s))
  {
    hide LineFor, Fits, Acceptable;
  }

  lemma ClosesBehind(s: State)
    requires s.serving.Closing?
    ensures OneBehind(s) ==> OneBehind(CloseData(s))
  {
    hide LineFor, Fits;
  }

  // A receive that takes one whole command, answered by single lines.
  lemma ReceiveOne(s: State, cfg: Config, w: World)
    requires s.commands != [] && |s.commands[0]| <= MAX_CMD_LENGTH && s.st.phase == Ready
    requires ReplyLines.AllLinesPlain(Turn(s.st, cfg, s.commands[0], w).replies)
    ensures var n, v, o := s.served + 1, Parse(Clean(s.commands[0])).verb, Turn(s.st, cfg, s.commands[0], w);
            var t := s.(commands := s.commands[1..], served := n, st := o.st);
            Receive(s, cfg, w, 1) ==
              if |o.replies| == 2 then
                t.(replies := s.replies + [Numbered(n, n, o.replies[0])],
                   serving := Opening(v == STOR, o.replies[1], w.dataOpens))
              else Listen(t.(replies := s.replies + NumberAll(n, n, o.replies)), v, o.replies, w)
  {
    hide Turn, Parse, Clean, Listen, Client.Heard, Client.Readable;
    OneTaken(s.commands);
    var o := Turn(s.st, cfg, s.commands[0], w);
    if |o.replies| == 1 {
      Client.HeardWhole(o.replies[0]);
      assert [o.replies[0]] == o.replies;
    }
  }

  lemma OneTaken(commands: seq<string>)
    requires commands != [] && |commands[0]| <= RECEIVE_SIZE
    ensures Taken(commands, 1) == commands[0] && LeftOver(commands, 1) == commands[1..]
  {
    assert commands[..1] == [commands[0]];
    assert Joined([commands[0]]) == commands[0] + Joined([]);
  }

  lemma ReceiveKeeps(s: State, env: Env, w: World, ending: Ending, k: nat)
    requires InStepInv(s, env) && s.serving.Idle? && ServerLegal(s, env, w, ending, k)
    ensures InStepInv(Receive(s, env.cfg, w, k), env)
  {
    hide Turn, Parse, Clean, LineFor, VerbFor, SessionSpec.Inv, Sendable, Fits, Receive, ReplyLines.PlainBelow,
         Client.Readable, SafeFilename;
    var op := s.ops[0];
    Served(s.st, env.cfg, op, s.pc, w);
    LineParses(op, s.pc);
    VerbsSent(op, s.pc);
    ReceiveOne(s, env.cfg, w);
  }

  lemma SendKeepsCommand(s: State, env: Env, pc: Pc)
    requires InStepInv(s, env) && s.ops != [] && Fits(s.ops[0], pc)
    requires ((pc.ReadOnly? || pc.ReadFrom? || pc.ReadPasv?) && s.pc.Begin?) || (pc.ReadFirst? && s.pc.Attached?)
    ensures InStepInv(Send(s, pc), env)
  {
    hide SessionSpec.Inv, Sendable, LineFor;
  }

  lemma OneReplyKeeps(s: State, env: Env)
    requires InStepInv(s, env) && s.ops != [] && s.replies != [] && !s.sync.Behind?
    requires s.pc.ReadOnly? || s.pc.ReadTo? || s.pc.ReadFinal?
    ensures InStepInv(Return(ReadReply(s)), env)
  {
    hide SessionSpec.Inv, Sendable, LineFor;
  }

  lemma RenameKeeps(s: State, env: Env)
    requires InStepInv(s, env) && s.ops != [] && s.replies != [] && !s.sync.Behind? && s.pc.ReadFrom?
    ensures InStepInv(Send(ReadReply(s), ReadTo), env)
  {
    hide SessionSpec.Inv, Sendable, LineFor;
  }

  lemma PasvKeeps(s: State, env: Env)
    requires InStepInv(s, env) && s.ops != [] && s.replies != [] && !s.sync.Behind? && s.pc.ReadPasv?
    ensures InStepInv(AfterPasv(s), env)
  {
    hide SessionSpec.Inv, Sendable, LineFor, Target, Address.PasvResponse;
    if s.replies[0].reply.code == 227 { TargetOfOffer(s, s.replies[0].reply); }
  }

  lemma ConnectKeeps(s: State, env: Env, connects: bool)
    requires InStepInv(s, env) && s.ops != [] && s.pc.Connecting?
    ensures InStepInv(Connect(s, connects), env)
  {
    hide SessionSpec.Inv, Sendable, LineFor;
  }

  lemma FirstKeeps(s: State, env: Env)
    requires InStepInv(s, env) && s.ops != [] && s.replies != [] && !s.sync.Behind? && s.pc.ReadFirst?
    ensures var t := AfterFirst(s);
            if Abandons(s.ops[0], s.replies[0].reply) then Common(t, env) && OneBehind(t)
            else InStepInv(t, env)
  {
    if Abandons(s.ops[0], s.replies[0].reply) { AbandonKeeps(s, env); }
    else if s.replies[0].reply.code != 150 { RefusalKeeps(s, env); }
    else { PromiseKeeps(s, env); }
  }

  lemma AbandonKeeps(s: State, env: Env)
    requires InStepInv(s, env) && s.ops != [] && s.replies != [] && !s.sync.Behind? && s.pc.ReadFirst?
    requires Abandons(s.ops[0], s.replies[0].reply)
    ensures Common(AfterFirst(s), env) && OneBehind(AfterFirst(s))
  {
    hide SessionSpec.Inv, Sendable, LineFor, Conserved, Tells;
  }

  lemma RefusalKeeps(s: State, env: Env)
    requires InStepInv(s, env) && s.ops != [] && s.replies != [] && !s.sync.Behind? && s.pc.ReadFirst?
    requires s.replies[0].reply.code != 150
    ensures InStepInv(AfterFirst(s), env)
  {
    hide SessionSpec.Inv, Sendable, LineFor, Tells;
  }

  predicate Promised(s: State) {
    && s.pc.ReadFirst? && s.ops != [] && Fits(s.ops[0], s.pc) && s.replies != []
    && s.replies[0].reply.code == 150 && !Abandons(s.ops[0], s.replies[0].reply)
  }

  lemma PromiseKeeps(s: State, env: Env)
    requires InStepInv(s, env) && !s.sync.Behind? && Promised(s)
    ensures InStepInv(AfterFirst(s), env)
  {
    PromiseTogether(s);
    PromiseConserved(s);
    hide SessionSpec.Inv, Sendable, LineFor, Together, Conserved, Tells;
  }

  lemma PromiseTogether(s: State)
    requires Together(s) && Promised(s)
    ensures Together(AfterFirst(s))
  {
    hide LineFor, Stored;
  }

  lemma PromiseConserved(s: State)
    requires Together(s) && Conserved(s) && Promised(s)
    ensures Conserved(AfterFirst(s))
  {
    hide LineFor, Tells;
    assert s.ops[0].Upload? ==> [] + s.ops[0].local.data == s.ops[0].local.data;
  }

  lemma DrainKeeps(s: State, env: Env, k: nat)
    requires InStepInv(s, env) && s.ops != [] && s.pc.Draining? && k <= |s.wire| && (s.wire == [] ==> s.link.Dropped?)
    ensures InStepInv(Drain(s, k), env)
  {
    hide SessionSpec.Inv, Sendable, LineFor;
  }

  lemma PushKeeps(s: State, env: Env, k: nat)
    requires InStepInv(s, env) && s.ops != [] && s.pc.Pushing? && k <= |s.pc.rest|
    ensures InStepInv(Push(s, k), env)
  {
    PushTogether(s, k);
    PushConserved(s, k);
    hide SessionSpec.Inv, Sendable, LineFor, ReplyLines.PlainBelow, Together, Conserved;
  }

  lemma PushTogether(s: State, k: nat)
    requires Together(s) && s.pc.Pushing? && k <= |s.pc.rest|
    ensures Together(Push(s, k))
  {
    hide LineFor;
  }

  lemma PushConserved(s: State, k: nat)
    requires Together(s) && Conserved(s) && s.pc.Pushing? && k <= |s.pc.rest|
    ensures Conserved(Push(s, k))
  {
    hide LineFor, Busy, Tells, Answered, Closes;
    PartMoves(s.put, s.pc.rest, k);
    Regrouped(s.got, s.wire, s.pc.rest[..k]);
  }

  lemma PartMoves(put: Bytes, rest: Bytes, k: nat)
    requires k <= |rest|
    ensures put + rest[..k] + rest[k..] == put + rest && put + rest[..k] <= put + rest
    ensures rest == [] ==> put + rest == put
  {
  }

  lemma Regrouped(got: Bytes, wire: Bytes, part: Bytes)
    ensures got + (wire + part) == got + wire + part
  {
  }

  // ---------------------------------------------------------------- one reply behind

  lemma ReceiveKeepsBehind(s: State, env: Env, w: World, ending: Ending, k: nat)
    requires Common(s, env) && OneBehind(s) && s.serving.Idle? && ServerLegal(s, env, w, ending, k)
    ensures Common(Receive(s, env.cfg, w, k), env) && OneBehind(Receive(s, env.cfg, w, k))
  {
    hide Turn, Parse, Clean, LineFor, VerbFor, SessionSpec.Inv, Sendable, Fits, Receive, ReplyLines.PlainBelow,
         Client.Readable, SafeFilename;
    var op := s.ops[0];
    Served(s.st, env.cfg, op, s.pc, w);
    LineParses(op, s.pc);
    VerbsSent(op, s.pc);
    ReceiveOne(s, env.cfg, w);
  }

  lemma BeginKeepsBehind(s: State, env: Env)
    requires Common(s, env) && OneBehind(s) && s.pc.Begin? && s.ops != []
    ensures Common(BeginOp(s), env) && OneBehind(BeginOp(s))
  {
    hide SessionSpec.Inv, Sendable, LineFor;
  }

  lemma BeginKeeps(s: State, env: Env)
    requires InStepInv(s, env) && s.pc.Begin? && s.ops != []
    ensures InStepInv(BeginOp(s), env)
  {
    hide SessionSpec.Inv, Sendable, LineFor, InStepInv;
    match s.ops[0]
    case Rename(_, _) => SendKeepsCommand(s, env, ReadFrom);
    case Upload(_, local) =>
      if local.Missing? { ReturnKeepsBegin(s, env); } else { SendKeepsCommand(s, env, ReadPasv); }
    case List => SendKeepsCommand(s, env, ReadPasv);
    case Download(_, _) => SendKeepsCommand(s, env, ReadPasv);
    case _ => SendKeepsCommand(s, env, ReadOnly);
  }

  lemma ReturnKeepsBegin(s: State, env: Env)
    requires InStepInv(s, env) && s.pc.Begin? && s.ops != []
    ensures InStepInv(Return(s), env)
  {
    hide SessionSpec.Inv, Sendable, LineFor;
  }

  lemma ServerKeepsStep(s: State, env: Env, w: World, payload: Bytes, ending: Ending, k: nat)
    requires InStepInv(s, env) && ServerLegal(s, env, w, ending, k)
    ensures InStepInv(ServerNext(s, env, w, payload, ending, k), env)
  {
    hide InStepInv, Open, SendSome, TakeSome, Finish, CloseData, Receive;
    match s.serving
    case Idle => ReceiveKeeps(s, env, w, ending, k);
    case Opening(_, _, _) => OpenKeeps(s, env, payload);
    case Sending(_, _) => SendKeeps(s, env, ending, k);
    case Receiving => TakeKeeps(s, env, ending, k);
    case Finishing(_) => FinishKeeps(s, env);
    case Closing => CloseKeeps(s, env);
  }

  lemma ServerKeepsBehind(s: State, env: Env, w: World, payload: Bytes, ending: Ending, k: nat)
    requires Common(s, env) && OneBehind(s) && ServerLegal(s, env, w, ending, k)
    ensures var t := ServerNext(s, env, w, payload, ending, k); Common(t, env) && OneBehind(t)
  {
    hide OneBehind, Common, Open, SendSome, TakeSome, Finish, CloseData, Receive;
    NotReceiving(s);
    match s.serving
    case Idle => ReceiveKeepsBehind(s, env, w, ending, k);
    case Opening(_, _, _) => OpenKeeps(s, env, payload);
    case Sending(_, _) => SendKeeps(s, env, ending, k);
    case Finishing(_) => FinishKeeps(s, env);
    case Closing => CloseKeeps(s, env);
  }

  lemma ServerKeepsInv(s: State, env: Env, w: World, payload: Bytes, ending: Ending, k: nat)
    requires Inv(s, env) && ServerLegal(s, env, w, ending, k)
    ensures var t := ServerNext(s, env, w, payload, ending, k); t.sync == s.sync && Inv(t, env)
  {
    hide InStepInv, OneBehind, Common, ServerNext, ServerLegal;
    SyncStays(s, env, w, payload, ending, k);
    match s.sync
    case InStep => ServerKeepsStep(s, env, w, payload, ending, k);
    case Behind => ServerKeepsBehind(s, env, w, payload, ending, k);
    case Astray =>
  }

  lemma SyncStays(s: State, env: Env, w: World, payload: Bytes, ending: Ending, k: nat)
    requires ServerLegal(s, env, w, ending, k)
    ensures var t := ServerNext(s, env, w, payload, ending, k); t.sync == s.sync && t.ops == s.ops
  {
    hide Receive;
    if s.serving.Idle? { ReceiveShape(s, env.cfg, w, k); }
  }

  // What a step of the client leaves alone.
  predicate Shape(s: State, t: State) {
    && t.st == s.st && t.serving == s.serving
    && (t.replies == s.replies || (s.replies != [] && t.replies == s.replies[1..]))
    && (t.ops == s.ops || (s.ops != [] && t.ops == s.ops[1..]))
    && (s.sync.Astray? ==> t.sync.Astray?) && (t.sync.InStep? ==> s.sync.InStep?)
  }

  lemma ReadShape(s: State)
    requires s.ops != [] && s.replies != [] && Fits(s.ops[0], s.pc)
    ensures Shape(s, Return(ReadReply(s))) && Shape(s, AfterPasv(s))
    ensures s.pc.ReadFirst? ==> Shape(s, AfterFirst(s))
    ensures s.pc.ReadFrom? ==> Shape(s, Send(ReadReply(s), ReadTo))
  {
    hide LineFor, Target;
  }

  lemma BeginShape(s: State)
    requires s.ops != [] && s.pc.Begin?
    ensures Shape(s, BeginOp(s))
  {
    hide LineFor;
  }

  lemma DataShape(s: State, connects: bool, k: nat)
    requires s.ops != [] && Fits(s.ops[0], s.pc)
    ensures s.pc.Connecting? ==> Shape(s, Connect(s, connects))
    ensures s.pc.Attached? ==> Shape(s, Send(s, ReadFirst))
    ensures s.pc.Draining? && k <= |s.wire| ==> Shape(s, Drain(s, k))
    ensures s.pc.Pushing? && k <= |s.pc.rest| ==> Shape(s, Push(s, k))
  {
    hide LineFor;
  }

  lemma ClientShape(s: State, env: Env, connects: bool, k: nat)
    requires ClientLegal(s, env, k)
    ensures Shape(s, ClientNext(s, env, connects, k))
  {
    hide BeginOp, AfterPasv, AfterFirst, Connect, Drain, Push, Send, Return, ReadReply, Shape;
    if Reads(s.pc) { ReadShape(s); } else if s.pc.Begin? { BeginShape(s); } else { DataShape(s, connects, k); }
  }

  lemma NotReceiving(s: State)
    requires OneBehind(s)
    ensures !s.serving.Receiving?
  {
    hide LineFor, Fits;
  }

  // In step, or in step again.
  lemma ClientKeepsStep(s: State, env: Env, connects: bool, k: nat)
    requires InStepInv(s, env) && !s.sync.Behind? && ClientLegal(s, env, k)
    ensures var t := ClientNext(s, env, connects, k);
            if AbandonsNow(s) then Common(t, env) && OneBehind(t) else InStepInv(t, env)
  {
    hide InStepInv, OneBehind, Common, Abandons, BeginOp, AfterPasv, AfterFirst, Connect, Drain, Push, Send,
         Return, ReadReply;
    match s.pc
    case Begin => BeginKeeps(s, env);
    case ReadFrom => RenameKeeps(s, env);
    case ReadPasv => PasvKeeps(s, env);
    case Connecting(_) => ConnectKeeps(s, env, connects);
    case Attached => SendKeepsCommand(s, env, ReadFirst);
    case ReadFirst => FirstKeeps(s, env);
    case Draining => DrainKeeps(s, env, k);
    case Pushing(_) => PushKeeps(s, env, k);
    case _ => OneReplyKeeps(s, env);
  }

  lemma ClientKeepsInv(s: State, env: Env, connects: bool, k: nat)
    requires Inv(s, env) && ClientLegal(s, env, k)
    ensures var t := ClientNext(s, env, connects, k); Inv(t, env) && t.sync == SyncAfter(s)
  {
    ClientSync(s, env, connects, k);
    hide InStepInv, OneBehind, Common, Abandons, BeginOp, AfterPasv, AfterFirst, Connect, Drain, Push, Send,
         Return, ReadReply;
    if s.sync.InStep? {
      ClientKeepsStep(s, env, connects, k);
    } else if s.sync.Behind? {
      BehindReads(s);
      if s.pc.Begin? { BeginKeepsBehind(s, env); }
    }
  }

  // The history after a step of the client.
  function SyncAfter(s: State): Sync {
    if s.sync.InStep? then (if AbandonsNow(s) then Behind else InStep)
    else if s.sync.Behind? && !Reads(s.pc) then Behind else Astray
  }

  lemma ClientSync(s: State, env: Env, connects: bool, k: nat)
    requires ClientLegal(s, env, k)
    ensures ClientNext(s, env, connects, k).sync == SyncAfter(s)
  {
    hide LineFor, Target, AfterPasv, AfterFirst;
    if Reads(s.pc) { ReadSync(s); }
  }

  lemma ReadSync(s: State)
    requires s.ops != [] && s.replies != [] && Fits(s.ops[0], s.pc) && Reads(s.pc)
    ensures !s.pc.ReadFirst? ==> ReadReply(s).sync == SyncAfter(s)
    ensures s.pc.ReadPasv? ==> AfterPasv(s).sync == SyncAfter(s)
    ensures s.pc.ReadFirst? ==> AfterFirst(s).sync == SyncAfter(s)
  {
    hide LineFor, Target;
  }

  lemma BehindReads(s: State)
    requires OneBehind(s)
    ensures s.pc.Begin? || s.pc.ReadOnly? || s.pc.ReadFrom? || s.pc.ReadPasv?
  {
  }

  /** Every legal step of either party keeps the invariant. */
  lemma StepKeepsInv(s: State, env: Env, a: Action)
    requires Inv(s, env) && Legal(s, env, a)
    ensures Inv(Next(s, env, a), env)
  {
    hide Inv, ClientNext, ServerNext, ClientLegal, ServerLegal;
    match a
    case Client(connects, k) => ClientKeepsInv(s, env, connects, k);
    case Server(w, payload, ending, k) => ServerKeepsInv(s, env, w, payload, ending, k);
  }

  // ---------------------------------------------------------------- every run

  ghost predicate LegalRun(s: State, env: Env, actions: seq<Action>)
    decreases |actions|
  {
    actions == [] || (Legal(s, env, actions[0]) && LegalRun(Next(s, env, actions[0]), env, actions[1..]))
  }

  ghost function After(s: State, env: Env, actions: seq<Action>): State
    requires LegalRun(s, env, actions)
    decreases |actions|
  {
    if actions == [] then s else After(Next(s, env, actions[0]), env, actions[1..])
  }

  lemma {:induction false} RunKeepsInv(s: State, env: Env, actions: seq<Action>)
    requires Inv(s, env) && LegalRun(s, env, actions)
    ensures Inv(After(s, env, actions), env)
    decreases |actions|
  {
    hide Inv, Legal, Next;
    if actions != [] {
      StepKeepsInv(s, env, actions[0]);
      RunKeepsInv(Next(s, env, actions[0]), env, actions[1..]);
    }
  }

  // The states of all runs of a script after a login.
  ghost predicate Reachable(s: State, env: Env) {
    exists s0: State, actions: seq<Action> ::
      Initial(s0, env) && LegalRun(s0, env, actions) && s == After(s0, env, actions)
  }

  lemma ReachableInv(s: State, env: Env)
    requires Reachable(s, env)
    ensures Inv(s, env)
  {
    var s0: State, actions: seq<Action> :|
      Initial(s0, env) && LegalRun(s0, env, actions) && s == After(s0, env, actions);
    InitialInv(s0, env);
    hide *;
    RunKeepsInv(s0, env, actions);
  }

  // ---------------------------------------------------------------- in step

  /** The reply a readReply is about to return answers the client's latest command exactly as long as no
      download has been abandoned; the first reply read after one answers the command before. */
  lemma ReplyIsOwnIff(s: State, env: Env)
    requires Reachable(s, env) && !s.sync.Astray? && Reads(s.pc) && s.replies != []
    ensures s.replies[0].number == s.sent <==> s.sync.InStep?
    ensures s.sync.Behind? ==> s.replies[0].number == s.sent - 1
  {
    hide Reachable, Together, Conserved, Common;
    ReachableInv(s, env);
  }

  /** When an operation has ended, no reply is left over, no command is unanswered and the session owes
      nothing, exactly if no download has been abandoned. */
  lemma NothingLeftOverIff(s: State, env: Env)
    requires Reachable(s, env) && !s.sync.Astray? && s.pc.Begin?
    ensures s.commands == []
    ensures s.replies == [] && Between(s) <==> s.sync.InStep?
  {
    hide Reachable, Conserved, Common, LineFor;
    ReachableInv(s, env);
  }

  /** The port a client connects to is that of the listener the session has open, and when the session comes
      to accept on a listener, the client's connection is already waiting there. */
  lemma OpenFindsConnection(s: State, env: Env)
    requires Reachable(s, env) && !s.sync.Astray?
    ensures s.pc.Connecting? ==>
              s.listener.Listening? && s.pc.target == Address.Endpoint("127.0.0.1", s.listener.port)
    ensures s.serving.Opening? ==> s.passive && s.listener.Listening? && s.link.Queued?
  {
    hide Reachable, Conserved, Common, LineFor;
    ReachableInv(s, env);
  }

  /** When a list or a download ends the client holds exactly the bytes the session put on this connection,
      and a store that reaches the end of the stream has exactly the client's file. */
  lemma Delivered(s: State, env: Env)
    requires Reachable(s, env) && s.sync.InStep?
    ensures s.pc.ReadFinal? ==> s.ops != []
    ensures s.pc.ReadFinal? && !s.ops[0].Upload? ==> s.got == s.put && s.wire == []
    ensures s.serving.Receiving? && s.wire == [] && !s.clientOpen ==>
              s.ops != [] && s.ops[0].Upload? && s.ops[0].local.Content? && s.got == s.ops[0].local.data
  {
    hide Reachable, Common, LineFor;
    ReachableInv(s, env);
  }

  /** The final reply an uploading client is about to read is a 226 exactly if the session's receive came to
      the end of the stream or broke off.  At the end of the stream the session holds the whole file; after a
      break it holds the part that had arrived (BrokenStore in AbandonedDownload: possibly nothing). */
  lemma StoreAnswered(s: State, env: Env)
    requires Reachable(s, env) && s.sync.InStep?
    requires s.pc.ReadFinal? && s.replies != [] && s.ops != [] && s.ops[0].Upload?
    ensures s.ops[0].local.Content?
    ensures s.replies[0].reply.code == 226 <==> s.ended.Goes? || s.ended.Breaks?
    ensures s.got <= s.ops[0].local.data && (s.ended.Goes? ==> s.got == s.ops[0].local.data)
  {
    hide Reachable, Common, LineFor;
    ReachableInv(s, env);
  }

  // ---------------------------------------------------------------- the bytes of the replies

  ghost predicate Lines(s: State) {
    && (forall i :: 0 <= i < |s.replies| ==> Client.Readable(s.replies[i].reply))
    && (!Between(s) && !s.serving.Receiving? ==> Client.Readable(s.serving.final))
  }

  lemma ReceiveKeepsLines(s: State, env: Env, w: World, ending: Ending, k: nat)
    requires Inv(s, env) && !s.sync.Astray? && Lines(s) && s.serving.Idle? && ServerLegal(s, env, w, ending, k)
    ensures Lines(Receive(s, env.cfg, w, k))
  {
    hide Inv, Lines, LineFor, VerbFor, Sendable, Fits, Turn, Parse, Clean, Receive, ReplyLines.PlainBelow,
         ReplyLines.AllLinesPlain, SessionSpec.Inv, Disciplined, Coded, HandlePasv, Acceptable, Awaits, Placed, Over;
    WaitingLine(s, env);
    Served(s.st, env.cfg, s.ops[0], s.pc, w);
    LineParses(s.ops[0], s.pc);
    OneKeepsLines(s, env.cfg, w);
  }

  lemma OneKeepsLines(s: State, cfg: Config, w: World)
    requires Lines(s) && s.serving.Idle? && s.st.phase == Ready && s.commands != []
    requires |s.commands[0]| <= MAX_CMD_LENGTH && ReplyLines.AllLinesPlain(Turn(s.st, cfg, s.commands[0], w).replies)
    ensures Lines(Receive(s, cfg, w, 1))
  {
    hide Turn, Parse, Clean, Receive, Client.Readable;
    ReceiveOne(s, cfg, w);
  }

  // A command under way is the one the client waits for.
  lemma WaitingLine(s: State, env: Env)
    requires Inv(s, env) && !s.sync.Astray? && s.commands != [] && s.serving.Idle?
    ensures s.ops != [] && Fits(s.ops[0], s.pc) && Awaits(s.pc) && Sendable(s.ops[0])
    ensures s.commands == [LineFor(s.ops[0], s.pc)] && Common(s, env)
  {
    hide LineFor, Sendable, Fits, Conserved, SessionSpec.Inv;
  }

  lemma StepKeepsLines(s: State, env: Env, a: Action)
    requires Inv(s, env) && !s.sync.Astray? && Lines(s) && Legal(s, env, a)
    ensures Lines(Next(s, env, a))
  {
    match a
    case Client(connects, k) => ClientKeepsLines(s, env, connects, k);
    case Server(w, payload, ending, k) =>
      if s.serving.Idle? {
        ReceiveKeepsLines(s, env, w, ending, k);
      } else {
        ServerKeepsLines(s, env, w, payload, ending, k);
      }
  }

  lemma ClientKeepsLines(s: State, env: Env, connects: bool, k: nat)
    requires Lines(s) && ClientLegal(s, env, k)
    ensures Lines(ClientNext(s, env, connects, k))
  {
    ClientShape(s, env, connects, k);
    hide Client.Readable, ClientNext, ClientLegal;
  }

  lemma ServerKeepsLines(s: State, env: Env, w: World, payload: Bytes, ending: Ending, k: nat)
    requires Lines(s) && !s.serving.Idle? && ServerLegal(s, env, w, ending, k)
    ensures Lines(ServerNext(s, env, w, payload, ending, k))
  {
    hide Client.Readable, Receive, StoreReply;
    StoreReplyReadable(s.got, ending);
  }

  lemma StoreReplyReadable(got: Bytes, ending: Ending)
    ensures Client.Readable(StoreReply(got, ending))
  {
    hide Client.Plain;
    ReplyLines.DataTexts();
    ReplyLines.TransferTexts();
  }

  lemma {:induction false} RunKeepsLines(s: State, env: Env, actions: seq<Action>)
    requires Inv(s, env) && (s.sync.Astray? || Lines(s)) && LegalRun(s, env, actions)
    ensures After(s, env, actions).sync.Astray? || Lines(After(s, env, actions))
    decreases |actions|
  {
    hide Inv, Legal, Next, Lines;
    if actions != [] {
      StepKeepsInv(s, env, actions[0]);
      if s.sync.Astray? { ScriptShrinks(s, env, actions[0]); } else { StepKeepsLines(s, env, actions[0]); }
      RunKeepsLines(Next(s, env, actions[0]), env, actions[1..]);
    }
  }

  function Sent(replies: seq<Numbered>): seq<Reply> {
    seq(|replies|, i requires 0 <= i < |replies| => replies[i].reply)
  }

  lemma ReachableLines(s: State, env: Env)
    requires Reachable(s, env) && !s.sync.Astray?
    ensures Lines(s)
  {
    hide LegalRun, After, Inv, SessionSpec.Inv, Sendable, ReplyLines.PlainBelow;
    var s0: State, actions: seq<Action> :|
      Initial(s0, env) && LegalRun(s0, env, actions) && s == After(s0, env, actions);
    InitialInv(s0, env);
    RunKeepsLines(s0, env, actions);
  }

  /** What readReply takes from the bytes on the control connection is the reply the protocol says it takes:
      the line of the first reply under way, leaving the bytes of the others. */
  lemma RepliesOnTheWire(s: State, env: Env)
    requires Reachable(s, env) && !s.sync.Astray? && s.replies != []
    ensures var bytes, first := Client.AllWire(Sent(s.replies)), s.replies[0].reply;
            && Client.Complete(bytes)
            && Client.LineOf(bytes) == Client.FirstLine(first)
            && Client.ReplyCode(Client.LineOf(bytes)) == first.code
            && Client.AfterReply(bytes) == Client.AllWire(Sent(s.replies[1..]))
  {
    hide Reachable, Client.Readable, Client.Wire, Client.Complete, Client.LineOf, Client.AfterReply, Client.ReplyCode,
         Decimal.Print, Client.FirstLine;
    ReachableLines(s, env);
    var all := Sent(s.replies);
    assert all[1..] == Sent(s.replies[1..]);
    var rest := Client.AllWire(all[1..]);
    assert Client.AllWire(all) == Client.Wire(all[0]) + rest;
    Client.ReadsBack(all[0], rest);
  }

  // ---------------------------------------------------------------- never stuck, and always ending

  predicate Finished(s: State) { s.ops == [] && s.pc.Begin? && s.serving.Idle? && s.commands == [] }

  // Neither party gives up: no connection attempt fails and no transfer is cut short.
  predicate Undisturbed(a: Action) {
    match a
    case Client(connects, _) => connects
    case Server(_, _, ending, _) => ending.Goes?
  }

  function SomeWorld(): World {
    World(map[], map[], "", 0, 0, false, false, false, NoSize, "", NoListener, false, Transfer.Result(0, true, false))
  }

  // Some step without a fault that one of the parties can take.
  ghost predicate CanMove(s: State, env: Env) {
    exists a: Action :: Legal(s, env, a) && Undisturbed(a)
  }

  lemma ServerMoves(s: State, env: Env, k: nat)
    requires ServerLegal(s, env, SomeWorld(), Goes, k)
    ensures CanMove(s, env)
  {
    assert Legal(s, env, Server(SomeWorld(), [], Goes, k));
  }

  lemma ClientMoves(s: State, env: Env, k: nat)
    requires ClientLegal(s, env, k)
    ensures CanMove(s, env)
  {
    assert Legal(s, env, Client(true, k));
  }

  lemma StepMoves(s: State, env: Env)
    requires InStepInv(s, env) && env.capacity >= 1 && !Finished(s)
    ensures CanMove(s, env)
  {
    hide CanMove, LineFor;
    match s.serving
    case Opening(_, _, _) => ServerMoves(s, env, 0);
    case Finishing(_) => ServerMoves(s, env, 0);
    case Closing => ServerMoves(s, env, 0);
    case Idle => if s.commands != [] { ServerMoves(s, env, 1); } else { IdleMoves(s, env); }
    case Receiving => ReceivingMoves(s, env);
    case Sending(_, rest) =>
      if rest == [] { ServerMoves(s, env, 0); }
      else if !s.clientOpen || |s.wire| + 1 <= env.capacity { ServerMoves(s, env, 1); }
      else if s.pc.Draining? { ClientMoves(s, env, 1); }
      else { ClientMoves(s, env, 0); }
  }

  lemma IdleMoves(s: State, env: Env)
    requires InStepInv(s, env) && s.serving.Idle? && s.commands == [] && !Finished(s) && env.capacity >= 1
    ensures CanMove(s, env)
  {
    hide CanMove, LineFor;
    match s.pc
    case Draining => ClientMoves(s, env, if s.wire != [] then 1 else 0);
    case Pushing(rest) => ClientMoves(s, env, if rest != [] then 1 else 0);
    case _ => ClientMoves(s, env, 0);
  }

  lemma ReceivingMoves(s: State, env: Env)
    requires InStepInv(s, env) && s.serving.Receiving? && env.capacity >= 1
    ensures CanMove(s, env)
  {
    hide CanMove, LineFor;
    if s.wire != [] { ServerMoves(s, env, 1); }
    else if !s.clientOpen { ServerMoves(s, env, 0); }
    else if s.pc.Pushing? { ClientMoves(s, env, if s.pc.rest != [] then 1 else 0); }
    else { ClientMoves(s, env, 0); }
  }

  lemma BehindMoves(s: State, env: Env)
    requires Common(s, env) && OneBehind(s) && !Finished(s)
    ensures CanMove(s, env)
  {
    hide CanMove, LineFor;
    match s.serving
    case Idle => if s.commands != [] { ServerMoves(s, env, 1); } else { ClientMoves(s, env, 0); }
    case Sending(_, rest) => ServerMoves(s, env, if rest == [] then 0 else 1);
    case _ => ServerMoves(s, env, 0);
  }

  /** The two never wait for each other: until the script is finished one of them can take a step, however
      small the socket buffers are. */
  lemma NeverStuck(s: State, env: Env)
    requires Reachable(s, env) && !s.sync.Astray? && env.capacity >= 1 && !Finished(s)
    ensures CanMove(s, env)
  {
    hide Reachable, CanMove, InStepInv, OneBehind, Common;
    ReachableInv(s, env);
    if s.sync.InStep? { StepMoves(s, env); } else { BehindMoves(s, env); }
  }

  // What is left to do outside the data connection, and on it.
  function PcRank(pc: Pc): nat {
    match pc
    case Begin => 0
    case ReadPasv => 100
    case Connecting(_) => 80
    case Attached => 70
    case ReadFrom => 60
    case ReadFirst => 40
    case ReadFinal => 10
    case _ => 20
  }

  function ServingRank(serving: Serving): nat {
    match serving
    case Idle => 0
    case Closing => 1
    case Finishing(_) => 3
    case Opening(_, _, _) => 5
    case _ => 4
  }

  function ClientRank(s: State): nat {
    200 * (if s.ops == [] || s.pc.Begin? then |s.ops| else |s.ops| - 1) + PcRank(s.pc)
  }

  // What the session has still to receive.
  function Unreceived(s: State): nat { |Joined(s.commands)| + |s.commands| }

  function Minor(s: State): nat {
    var sending := if s.serving.Sending? then |s.serving.rest| else 0;
    var pushing := if s.pc.Pushing? then |s.pc.rest| else 0;
    2 * (sending + pushing) + |s.wire|
  }

  predicate Falls(s: State, t: State) {
    || ClientRank(t) < ClientRank(s)
    || (ClientRank(t) == ClientRank(s)
        && (|| Unreceived(t) < Unreceived(s)
            || (Unreceived(t) == Unreceived(s)
                && (|| ServingRank(t.serving) < ServingRank(s.serving)
                    || (ServingRank(t.serving) == ServingRank(s.serving) && Minor(t) < Minor(s))))))
  }

  lemma {:induction false} JoinedSplits(commands: seq<string>, n: nat)
    requires n <= |commands|
    ensures Joined(commands) == Joined(commands[..n]) + Joined(commands[n..])
  {
    if n == 0 {
      assert commands[0..] == commands;
    } else {
      JoinedSplits(commands[1..], n - 1);
      assert commands[..n][1..] == commands[1..][..n - 1] && commands[1..][n - 1..] == commands[n..];
    }
  }

  lemma ReceiveFalls(s: State, env: Env, w: World, k: nat)
    requires 1 <= k <= |s.commands|
    ensures Falls(s, Receive(s, env.cfg, w, k))
  {
    hide Joined, Receive;
    ReceiveShape(s, env.cfg, w, k);
    JoinedSplits(s.commands, k);
    LeftJoined(s.commands, k);
  }

  lemma LeftJoined(commands: seq<string>, k: nat)
    requires 1 <= k <= |commands|
    ensures var left := LeftOver(commands, k);
            |Joined(left)| + |left| < |Joined(commands[..k])| + |Joined(commands[k..])| + |commands|
  {
    var bytes := Joined(commands[..k]);
    if |bytes| > RECEIVE_SIZE {
      var left := [bytes[RECEIVE_SIZE..]] + commands[k..];
      assert left[1..] == commands[k..];
    }
  }

  lemma ReceiveShape(s: State, cfg: Config, w: World, k: nat)
    requires 1 <= k <= |s.commands|
    ensures var t := Receive(s, cfg, w, k);
            t.sync == s.sync && t.ops == s.ops && t.pc == s.pc && t.commands == LeftOver(s.commands, k)
  {
    hide Turn, Parse, Clean, Client.Heard, Taken, LeftOver;
  }

  lemma ServerFalls(s: State, env: Env, w: World, payload: Bytes, ending: Ending, k: nat)
    requires ServerLegal(s, env, w, ending, k)
    ensures Falls(s, ServerNext(s, env, w, payload, ending, k))
  {
    hide Receive, Open, SendSome, TakeSome, Finish, CloseData, Falls;
    match s.serving
    case Idle => ReceiveFalls(s, env, w, k);
    case Sending(_, _) => SendFalls(s, ending, k);
    case Receiving => TakeFalls(s, ending, k);
    case _ => StageFalls(s, payload);
  }

  lemma SendFalls(s: State, ending: Ending, k: nat)
    requires s.serving.Sending? && (ending.Goes? ==> (k <= |s.serving.rest| && (s.serving.rest != [] ==> k >= 1)))
    ensures Falls(s, SendSome(s, ending, k))
  {
  }

  lemma TakeFalls(s: State, ending: Ending, k: nat)
    requires s.serving.Receiving? && (ending.Goes? ==> (k <= |s.wire| && (s.wire != [] ==> k >= 1)))
    ensures Falls(s, TakeSome(s, ending, k))
  {
  }

  lemma StageFalls(s: State, payload: Bytes)
    ensures s.serving.Opening? ==> Falls(s, Open(s, payload))
    ensures s.serving.Finishing? ==> Falls(s, Finish(s))
    ensures s.serving.Closing? ==> Falls(s, CloseData(s))
  {
  }

  lemma BeginFalls(s: State)
    requires s.ops != [] && s.pc.Begin?
    ensures Falls(s, BeginOp(s))
  {
    hide LineFor;
  }

  lemma ReadFalls(s: State)
    requires s.ops != [] && s.replies != [] && Fits(s.ops[0], s.pc)
    ensures !s.pc.Begin? ==> Falls(s, Return(ReadReply(s)))
    ensures s.pc.ReadPasv? ==> Falls(s, AfterPasv(s))
    ensures s.pc.ReadFirst? ==> Falls(s, AfterFirst(s))
    ensures s.pc.ReadFrom? ==> Falls(s, Send(ReadReply(s), ReadTo))
  {
    hide LineFor, Target;
  }

  lemma DataFalls(s: State, connects: bool)
    requires s.ops != [] && Fits(s.ops[0], s.pc)
    ensures s.pc.Connecting? ==> Falls(s, Connect(s, connects))
    ensures s.pc.Attached? ==> Falls(s, Send(s, ReadFirst))
  {
    hide LineFor, Joined;
  }

  lemma BytesFall(s: State, k: nat)
    ensures s.pc.Draining? && (s.wire == [] || k >= 1) && k <= |s.wire| ==> Falls(s, Drain(s, k))
    ensures s.ops != [] && s.pc.Pushing? && (s.pc.rest == [] || k >= 1) && k <= |s.pc.rest| ==> Falls(s, Push(s, k))
  {
    hide LineFor, Joined;
  }

  lemma ClientFalls(s: State, env: Env, connects: bool, k: nat)
    requires ClientLegal(s, env, k)
    ensures Falls(s, ClientNext(s, env, connects, k))
  {
    hide BeginOp, AfterPasv, AfterFirst, Connect, Drain, Push, Send, Return, ReadReply, Falls;
    match s.pc
    case Begin => BeginFalls(s);
    case Connecting(_) => DataFalls(s, connects);
    case Attached => DataFalls(s, connects);
    case Draining => BytesFall(s, k);
    case Pushing(_) => BytesFall(s, k);
    case _ => ReadFalls(s);
  }

  lemma StepFalls(s: State, env: Env, a: Action)
    requires Legal(s, env, a)
    ensures Falls(s, Next(s, env, a))
  {
    hide Falls, ClientNext, ServerNext, ClientLegal, ServerLegal;
    match a
    case Client(connects, k) => ClientFalls(s, env, connects, k);
    case Server(w, payload, ending, k) => ServerFalls(s, env, w, payload, ending, k);
  }

  ghost predicate Steps(s: State, env: Env, t: State) {
    exists a: Action :: Legal(s, env, a) && t == Next(s, env, a)
  }

  /** No run goes on for ever, whatever files are sent and however the steps of the two interleave: so every
      run that stays in step comes to the end of its script. */
  lemma {:induction false} EveryRunEnds(run: nat -> State, env: Env, i: nat)
    ensures exists j: nat :: j >= i && !Steps(run(j), env, run(j + 1))
    decreases ClientRank(run(i)), Unreceived(run(i)), ServingRank(run(i).serving), Minor(run(i))
  {
    hide ClientRank, Unreceived, ServingRank, Minor, Legal, Next;
    if Steps(run(i), env, run(i + 1)) {
      var a: Action :| Legal(run(i), env, a) && run(i + 1) == Next(run(i), env, a);
      StepFalls(run(i), env, a);
      EveryRunEnds(run, env, i + 1);
    }
  }

  // ---------------------------------------------------------------- whole scripts

  lemma {:induction false} RunExtends(s0: State, env: Env, actions: seq<Action>, a: Action)
    requires LegalRun(s0, env, actions) && Legal(After(s0, env, actions), env, a)
    ensures LegalRun(s0, env, actions + [a])
    ensures After(s0, env, actions + [a]) == Next(After(s0, env, actions), env, a)
    decreases |actions|
  {
    hide Legal, Next;
    if actions == [] {
      assert actions + [a] == [a] && [a][1..] == [];
    } else {
      assert (actions + [a])[1..] == actions[1..] + [a];
      RunExtends(Next(s0, env, actions[0]), env, actions[1..], a);
    }
  }

  lemma ReachableStep(s: State, env: Env, a: Action)
    requires Reachable(s, env) && Legal(s, env, a)
    ensures Reachable(Next(s, env, a), env)
  {
    hide Initial, LegalRun, After, Legal, Next;
    var s0: State, actions: seq<Action> :|
      Initial(s0, env) && LegalRun(s0, env, actions) && s == After(s0, env, actions);
    RunExtends(s0, env, actions, a);
    assert Initial(s0, env) && LegalRun(s0, env, actions + [a]);
  }

  // Every local file a download writes can be created.
  predicate Creatable(ops: seq<Op>) { forall i :: 0 <= i < |ops| ==> !ops[i].Download? || ops[i].creatable }

  // Out of step the client stays out of step.
  lemma ScriptShrinks(s: State, env: Env, a: Action)
    requires Legal(s, env, a)
    ensures var t := Next(s, env, a);
            && (t.ops == s.ops || (s.ops != [] && t.ops == s.ops[1..]))
            && (t.sync.InStep? ==> s.sync.InStep?) && (s.sync.Astray? ==> t.sync.Astray?)
  {
    hide ClientNext, ClientLegal, ServerNext, ServerLegal;
    match a
    case Client(connects, k) => ClientShape(s, env, connects, k);
    case Server(w, payload, ending, k) => SyncStays(s, env, w, payload, ending, k);
  }

  lemma CreatableStep(s: State, env: Env, a: Action)
    requires s.sync.InStep? && Creatable(s.ops) && Legal(s, env, a)
    ensures Next(s, env, a).sync.InStep? && Creatable(Next(s, env, a).ops)
  {
    hide ClientNext, ServerNext, ClientLegal, ServerLegal;
    ScriptShrinks(s, env, a);
    match a
    case Client(connects, k) => ClientSync(s, env, connects, k);
    case Server(w, payload, ending, k) => SyncStays(s, env, w, payload, ending, k);
  }

  // The run goes on as long as some step is possible.
  ghost predicate Maximal(run: nat -> State, env: Env) {
    forall i: nat :: CanMove(run(i), env) ==> Steps(run(i), env, run(i + 1))
  }

  /** A script of operations with creatable local files is always finished, in step, and by every maximal
      run: no schedule, no fault of the network or the file system and no size of file or buffer keeps the
      client and the session from getting to its end. */
  lemma {:induction false} EveryScriptFinishes(run: nat -> State, env: Env, i: nat)
    requires Reachable(run(i), env) && run(i).sync.InStep? && Creatable(run(i).ops)
    requires env.capacity >= 1 && Maximal(run, env)
    ensures exists j: nat :: j >= i && Finished(run(j)) && run(j).sync.InStep? && Reachable(run(j), env)
    decreases ClientRank(run(i)), Unreceived(run(i)), ServingRank(run(i).serving), Minor(run(i))
  {
    hide ClientRank, Unreceived, ServingRank, Minor, Legal, Next, Reachable, CanMove, Finished, Creatable;
    if !Finished(run(i)) {
      NeverStuck(run(i), env);
      assert Steps(run(i), env, run(i + 1));
      var a: Action :| Legal(run(i), env, a) && run(i + 1) == Next(run(i), env, a);
      StepFalls(run(i), env, a);
      ReachableStep(run(i), env, a);
      CreatableStep(run(i), env, a);
      EveryScriptFinishes(run, env, i + 1);
    }
  }
}
