/**
 The files behind the two parties: uploads go through the receive loop into the server's files, downloads
 come out of them, and what was uploaded is what the next download returns.
 */
module FileTransfers {
  import opened Lockstep
  import opened SessionPaths
  import S = SessionSpec
  import ReplyLines
  import Transfer

  // ---------------------------------------------------------------- the server's files

  // job: the transfer the latest command started; chunks: what its receive loop has been given.
  datatype Full = Full(s: State, files: map<string, Bytes>, job: S.Started, chunks: seq<Bytes>)

  // A step of either party; files: what a command on the file system leaves of the files.
  datatype Step = Step(action: Action, files: map<string, Bytes>)

  function Content(files: map<string, Bytes>, path: string): Bytes { if path in files then files[path] else [] }

  // What a download from an offset reads.
  function Tail(content: Bytes, offset: nat): Bytes { if offset <= |content| then content[offset..] else [] }

  predicate ChangesFiles(v: S.Verb) { v.DELE? || v.MKD? || v.RMD? || v.RNTO? }

  function Verb(s: State, k: nat): S.Verb
    requires k <= |s.commands|
  {
    S.Parse(S.Clean(Taken(s.commands, k))).verb
  }

  // The chunks of an upload respect the limit, and it overflows with the first one that does not.
  predicate StepLegal(x: Full, env: Env, limit: nat, p: Step) {
    && Legal(x.s, env, p.action)
    && match p.action
       case Client(_, _) => true
       case Server(w, payload, ending, k) => ServerFits(x, limit, payload, ending, k, p.files)
  }

  predicate ServerFits(x: Full, limit: nat, payload: Bytes, ending: Ending, k: nat, files: map<string, Bytes>) {
    if x.s.serving.Idle? then k <= |x.s.commands| && (ChangesFiles(Verb(x.s, k)) || files == x.files)
    else if x.s.serving.Opening? then
      !x.s.serving.storing && x.job.Started? ==> payload == Tail(Content(x.files, x.job.path), x.job.offset)
    else if x.s.serving.Receiving? then
      && (ending.Goes? && x.s.wire != [] ==> limit == 0 || |x.s.got| + k <= limit)
      && (ending.Overflows? ==> 1 <= k <= |x.s.wire| && limit > 0 && |x.s.got| + k > limit)
    else true
  }

  function StepNext(x: Full, env: Env, limit: nat, p: Step): Full
    requires StepLegal(x, env, limit, p)
  {
    match p.action
    case Client(_, _) => x.(s := Next(x.s, env, p.action))
    case Server(w, payload, ending, k) =>
      AfterServer(x.(s := ServerNext(x.s, env, w, payload, ending, k)), x, env.cfg, limit, w, ending, k, p.files)
  }

  // y: with the state after the step.
  function AfterServer(y: Full, x: Full, cfg: S.Config, limit: nat, w: S.World, ending: Ending, k: nat,
                       files: map<string, Bytes>): Full
    requires x.s.serving.Idle? ==> k <= |x.s.commands|
    requires x.s.serving.Receiving? && (ending.Overflows? || (ending.Goes? && x.s.wire != [])) ==> k <= |x.s.wire|
  {
    if x.s.serving.Idle? then
      y.(files := files, job := S.Turn(x.s.st, cfg, Taken(x.s.commands, k), w).started, chunks := [])
    else if x.s.serving.Receiving? then
      if ending.Goes? && x.s.wire != [] then y.(chunks := x.chunks + [x.s.wire[..k]])
      else y.(files := AfterReceive(x, limit, ending, k))
    else y
  }

  // The files when the receive loop has ended; a file that cannot be opened stays as it is.
  function AfterReceive(x: Full, limit: nat, ending: Ending, k: nat): map<string, Bytes>
    requires ending.Overflows? ==> k <= |x.s.wire|
  {
    if ending.Fails? || x.job.NotStarted? then x.files
    else
      var arrived := x.chunks + if ending.Overflows? then [x.s.wire[..k]] else [];
      match Transfer.AfterUpload(Content(x.files, x.job.path), x.job.offset, arrived, limit)
      case Absent => x.files - {x.job.path}
      case Present(content) => x.files[x.job.path := content]
  }

  ghost predicate Run(x: Full, env: Env, limit: nat, steps: seq<Step>)
    decreases |steps|
  {
    steps == []
    || (StepLegal(x, env, limit, steps[0]) && Run(StepNext(x, env, limit, steps[0]), env, limit, steps[1..]))
  }

  ghost function End(x: Full, env: Env, limit: nat, steps: seq<Step>): Full
    requires Run(x, env, limit, steps)
    decreases |steps|
  {
    if steps == [] then x else End(StepNext(x, env, limit, steps[0]), env, limit, steps[1..])
  }

  // After the login, before any REST.
  ghost predicate Start(x: Full, env: Env) { Initial(x.s, env) && x.s.st.restart == 0 }

  // ---------------------------------------------------------------- what every step keeps

  // A data operation that has been promised data.
  predicate InTransfer(s: State) {
    || (s.pc.ReadFirst? && s.replies != [] && s.replies[0].reply.code == 150)
    || s.pc.Draining? || s.pc.Pushing? || s.pc.ReadFinal?
  }

  // The session has opened the data connection, or is going to.
  predicate Opens(s: State) {
    if s.serving.Opening? then s.serving.works
    else s.serving.Sending? || s.serving.Receiving? || !s.ended.Fails?
  }

  // The path a file has for the session now.
  function PathOf(s: State, file: string): string { Resolve(s.st.root, s.st.cwd, file) }

  predicate JobIs(x: Full, file: string) { x.job == S.Started(PathOf(x.s, file), 0) }

  // The chunks that have arrived are what has been got, within the limit.
  predicate Arrived(x: Full, limit: nat) {
    Transfer.Flatten(x.chunks) == x.s.got && Transfer.Fitting(x.chunks, 0, limit) == |x.chunks|
  }

  predicate Uploading(x: Full, limit: nat)
    requires x.job.Started?
  {
    if x.s.serving.Opening? then x.s.got == [] && x.chunks == []
    else if x.s.serving.Receiving? then Arrived(x, limit)
    else
      && (x.s.ended.Goes? || x.s.ended.Breaks? ==> x.job.path in x.files && x.files[x.job.path] == x.s.got)
      && (x.s.ended.Overflows? ==> x.job.path !in x.files)
  }

  predicate Downloading(x: Full)
    requires x.job.Started?
  {
    var content := Content(x.files, x.job.path);
    if x.s.serving.Opening? then x.s.put == []
    else if x.s.serving.Sending? then x.s.put + x.s.serving.rest == content
    else x.s.ended.Goes? ==> x.s.put == content
  }

  predicate Stands(x: Full, limit: nat)
    requires x.s.ops != []
  {
    var op := x.s.ops[0];
    if op.Upload? then Opens(x.s) ==> JobIs(x, op.file) && Uploading(x, limit)
    else if op.Download? then Opens(x.s) ==> JobIs(x, op.file) && Downloading(x)
    else true
  }

  ghost predicate FileInv(x: Full, env: Env, limit: nat) {
    && InStepInv(x.s, env) && x.s.st.restart == 0
    && (x.s.pc.ReadFirst? && x.s.commands != [] ==> x.s.put == [] && x.s.got == [])
    && (InTransfer(x.s) ==> Stands(x, limit))
  }

  // Nothing a transfer rests on changes.
  predicate Rests(x: Full, y: Full)
    requires x.s.ops != []
  {
    && y.files == x.files && y.job == x.job && y.chunks == x.chunks
    && y.s.ops == x.s.ops && y.s.st == x.s.st && y.s.serving == x.s.serving && y.s.ended == x.s.ended
    && (if x.s.ops[0].Upload? then y.s.got == x.s.got else y.s.put == x.s.put)
  }

  lemma StillStands(x: Full, y: Full, limit: nat)
    requires x.s.ops != [] && Rests(x, y) && Stands(x, limit)
    ensures Stands(y, limit)
  {
    hide Resolve, Transfer.Flatten, Transfer.Fitting;
  }

  // A step of the client inside a transfer.
  predicate Moves(s: State, t: State) {
    && t.st == s.st && (t.pc.ReadFirst? && t.commands != [] ==> t.put == [] && t.got == [])
    && (InTransfer(t) ==>
          && InTransfer(s) && s.ops != [] && t.ops == s.ops && t.serving == s.serving && t.ended == s.ended
          && (if s.ops[0].Upload? then t.got == s.got else t.put == s.put))
  }

  lemma ReadMoves(s: State)
    requires s.ops != [] && s.replies != [] && Fits(s.ops[0], s.pc)
    ensures !s.pc.ReadFirst? ==> Moves(s, Return(ReadReply(s)))
    ensures s.pc.ReadPasv? ==> Moves(s, AfterPasv(s))
    ensures s.pc.ReadFirst? && (s.ops[0].List? ==> s.replies[0].reply.code == 150) ==> Moves(s, AfterFirst(s))
    ensures s.pc.ReadFrom? ==> Moves(s, Send(ReadReply(s), ReadTo))
  {
    hide LineFor, Target;
  }

  lemma DataMoves(s: State, connects: bool, k: nat)
    requires s.ops != [] && Fits(s.ops[0], s.pc) && (s.pc.Attached? ==> s.put == s.got == [] && s.replies == [])
    ensures s.pc.Connecting? ==> Moves(s, Connect(s, connects))
    ensures s.pc.Attached? ==> Moves(s, Send(s, ReadFirst))
    ensures s.pc.Draining? && k <= |s.wire| ==> Moves(s, Drain(s, k))
    ensures s.pc.Pushing? && k <= |s.pc.rest| ==> Moves(s, Push(s, k))
  {
    hide LineFor;
  }

  lemma BeginMoves(s: State)
    requires s.ops != [] && s.pc.Begin?
    ensures Moves(s, BeginOp(s))
  {
    hide LineFor;
  }

  lemma ListPromised(s: State, env: Env)
    requires InStepInv(s, env)
    ensures s.pc.Attached? ==> s.put == [] && s.got == [] && s.replies == []
    ensures s.pc.ReadFirst? && s.ops != [] && s.ops[0].List? && s.replies != [] ==> s.replies[0].reply.code == 150
  {
    hide S.Inv, Sendable, LineFor, ReplyLines.PlainBelow, Busy, Answered, Tells, Stored;
  }

  lemma ClientMoves(s: State, env: Env, connects: bool, k: nat)
    requires InStepInv(s, env) && ClientLegal(s, env, k)
    ensures Moves(s, ClientNext(s, env, connects, k))
  {
    hide InStepInv, Moves, BeginOp, AfterPasv, AfterFirst, Connect, Drain, Push, Send, Return, ReadReply;
    ListPromised(s, env);
    if Reads(s.pc) { ReadMoves(s); } else if s.pc.Begin? { BeginMoves(s); } else { DataMoves(s, connects, k); }
  }

  lemma ClientKeepsFiles(x: Full, env: Env, limit: nat, connects: bool, k: nat)
    requires FileInv(x, env, limit) && !x.s.sync.Behind? && ClientLegal(x.s, env, k) && !AbandonsNow(x.s)
    ensures FileInv(x.(s := ClientNext(x.s, env, connects, k)), env, limit)
  {
    hide InStepInv, ClientNext, ClientLegal, Stands;
    ClientKeepsStep(x.s, env, connects, k);
    ClientMoves(x.s, env, connects, k);
    var y := x.(s := ClientNext(x.s, env, connects, k));
    if InTransfer(y.s) { StillStands(x, y, limit); }
  }

  // ---------------------------------------------------------------- a data command is taken

  lemma TransferBegins(st: S.State, cfg: S.Config, op: Op, w: S.World)
    requires Fits(op, ReadFirst) && Sendable(op) && !op.List? && S.Inv(st, cfg) && st.phase == S.Ready
    ensures var o := S.Turn(st, cfg, LineFor(op, ReadFirst), w);
            |o.replies| == 2 ==>
              && o.st.root == st.root && o.st.cwd == st.cwd
              && (w.dataOpens ==> o.started == S.Started(Resolve(st.root, st.cwd, op.file), st.restart))
  {
    hide S.Turn, S.Parse, S.Clean, S.DispatchReady, LineFor, Sendable, S.Inv, ReplyLines.SentByClient;
    LineParses(op, ReadFirst);
    VerbsSent(op, ReadFirst);
    DataParses(op);
    ReadyTurn(st, cfg, LineFor(op, ReadFirst), w);
    JobStarted(st, S.Parse(S.Clean(LineFor(op, ReadFirst))), w);
  }

  lemma JobStarted(st: S.State, c: S.Command, w: S.World)
    requires c.verb == S.RETR || c.verb == S.STOR
    ensures var o := S.DispatchReady(st, c, w);
            |o.replies| == 2 ==>
              && o.st.root == st.root && o.st.cwd == st.cwd
              && (w.dataOpens ==> o.started == S.Started(Resolve(st.root, st.cwd, c.argument), st.restart))
  {
    hide S.SafeFilename, Resolve, WithinRoot;
  }

  lemma NoRestart(st: S.State, cfg: S.Config, op: Op, pc: Pc, w: S.World)
    requires Fits(op, pc) && Awaits(pc) && Sendable(op) && S.Inv(st, cfg) && st.phase == S.Ready && st.restart == 0
    ensures S.Turn(st, cfg, LineFor(op, pc), w).st.restart == 0
  {
    hide S.Turn, S.Parse, S.Clean, LineFor, Sendable, S.Inv, Fits;
    LineParses(op, pc);
    VerbsSent(op, pc);
    S.OffsetAfterTurn(st, cfg, LineFor(op, pc), w);
  }

  // The command under way is the one the client waits for.
  lemma TheCommand(s: State, env: Env)
    requires InStepInv(s, env) && s.serving.Idle? && s.commands != []
    ensures s.ops != [] && Fits(s.ops[0], s.pc) && Awaits(s.pc) && Sendable(s.ops[0]) && s.replies == []
    ensures s.commands == [LineFor(s.ops[0], s.pc)] && Common(s, env)
    ensures |LineFor(s.ops[0], s.pc)| <= S.MAX_CMD_LENGTH
  {
    hide LineFor, Sendable, Fits, Conserved, S.Inv, ReplyLines.PlainBelow;
    LineParses(s.ops[0], s.pc);
  }

  // What a receive leaves of the session, for the files.
  predicate TakenAs(s: State, t: State, o: S.Outcome, works: bool)
    requires o.replies != []
  {
    && t.st == o.st && t.commands == [] && t.ops == s.ops && t.pc == s.pc && t.put == s.put && t.got == s.got
    && (if |o.replies| == 2 then t.serving.Opening? && t.serving.works == works else t.serving.Idle?)
    && |t.replies| == 1 && t.replies[0].reply == o.replies[0]
  }

  lemma ReceiveTakes(s: State, env: Env, w: S.World, k: nat)
    requires InStepInv(s, env) && s.serving.Idle? && ServerLegal(s, env, w, Goes, k)
    ensures k == 1 && Taken(s.commands, 1) == LineFor(s.ops[0], s.pc)
    ensures var o := S.Turn(s.st, env.cfg, LineFor(s.ops[0], s.pc), w);
            o.replies != [] && TakenAs(s, Receive(s, env.cfg, w, 1), o, w.dataOpens)
  {
    hide S.Turn, S.Parse, S.Clean, LineFor, VerbFor, S.Inv, Sendable, Fits, Receive, ReplyLines.PlainBelow,
         S.SafeFilename, InStepInv, Awaits, Coded, Acceptable, S.HandlePasv, ReplyLines.AllLinesPlain, Taken;
    TheCommand(s, env);
    Served(s.st, env.cfg, s.ops[0], s.pc, w);
    ReceiveOne(s, env.cfg, w);
    OneTaken(s.commands);
  }

  lemma ReceiveKeepsFiles(x: Full, env: Env, limit: nat, w: S.World, k: nat, files: map<string, Bytes>)
    requires FileInv(x, env, limit) && x.s.serving.Idle? && ServerLegal(x.s, env, w, Goes, k)
    ensures var o := S.Turn(x.s.st, env.cfg, Taken(x.s.commands, k), w);
            FileInv(Full(Receive(x.s, env.cfg, w, k), files, o.started, []), env, limit)
  {
    hide InStepInv, S.Turn, LineFor, Sendable, S.Inv, Receive, ReplyLines.PlainBelow, Taken, Fits, Resolve;
    TheCommand(x.s, env);
    ReceiveTakes(x.s, env, w, k);
    ReceiveKeeps(x.s, env, w, Goes, k);
    var op := x.s.ops[0];
    NoRestart(x.s.st, env.cfg, op, x.s.pc, w);
    Served(x.s.st, env.cfg, op, x.s.pc, w);
    if x.s.pc.ReadFirst? && !op.List? { TransferBegins(x.s.st, env.cfg, op, w); }
  }

  // ---------------------------------------------------------------- the transfer

  lemma ChunkArrives(chunks: seq<Bytes>, got: Bytes, chunk: Bytes, limit: nat)
    requires Transfer.Flatten(chunks) == got && Transfer.Fitting(chunks, 0, limit) == |chunks|
    ensures Transfer.Flatten(chunks + [chunk]) == got + chunk
    ensures Transfer.Fitting(chunks + [chunk], 0, limit) == |chunks| + 1 <==> limit == 0 || |got| + |chunk| <= limit
  {
    hide Transfer.Flatten, Transfer.Fitting;
    Transfer.FlattenOneMore(chunks + [chunk], |chunks|);
    assert (chunks + [chunk])[..|chunks|] == chunks && (chunks + [chunk])[..|chunks| + 1] == chunks + [chunk];
    Transfer.FittingWithinLimit(chunks + [chunk], 0, limit);
  }

  lemma TakeStands(x: Full, limit: nat, ending: Ending, k: nat)
    requires x.s.ops != [] && x.s.ops[0].Upload? && x.s.serving.Receiving? && Stands(x, limit) && Opens(x.s)
    requires ending.Goes? && x.s.wire != [] && k <= |x.s.wire| && (limit == 0 || |x.s.got| + k <= limit)
    ensures Stands(x.(s := TakeSome(x.s, ending, k), chunks := x.chunks + [x.s.wire[..k]]), limit)
  {
    hide Resolve, Transfer.Flatten, Transfer.Fitting;
    ChunkArrives(x.chunks, x.s.got, x.s.wire[..k], limit);
  }

  lemma StoreStands(x: Full, limit: nat, ending: Ending, k: nat)
    requires x.s.ops != [] && x.s.ops[0].Upload? && x.s.serving.Receiving? && Stands(x, limit) && Opens(x.s)
    requires ending.Goes? ==> x.s.wire == [] && k == 0
    requires ending.Overflows? ==> k <= |x.s.wire| && limit > 0 && |x.s.got| + k > limit
    ensures Stands(x.(s := TakeSome(x.s, ending, k), files := AfterReceive(x, limit, ending, k)), limit)
  {
    hide Resolve, Transfer.Flatten, Transfer.Fitting, StoreReply;
    if ending.Overflows? {
      ChunkArrives(x.chunks, x.s.got, x.s.wire[..k], limit);
    } else {
      assert x.chunks + [] == x.chunks && [] + x.s.got == x.s.got;
    }
  }

  lemma OpenStands(x: Full, limit: nat, payload: Bytes)
    requires x.s.ops != [] && x.s.serving.Opening? && Stands(x, limit)
    requires !x.s.serving.storing && x.job.Started? ==> payload == Tail(Content(x.files, x.job.path), x.job.offset)
    requires x.s.serving.storing == x.s.ops[0].Upload?
    ensures Stands(x.(s := Open(x.s, payload)), limit)
  {
    hide Resolve;
    assert [] + payload == payload;
  }

  lemma SendStands(x: Full, limit: nat, ending: Ending, k: nat)
    requires x.s.ops != [] && x.s.serving.Sending? && Stands(x, limit) && (ending.Goes? ==> k <= |x.s.serving.rest|)
    requires !x.s.ops[0].Upload? && x.s.clientOpen
    ensures SendSome(x.s, ending, k).ops == x.s.ops && Stands(x.(s := SendSome(x.s, ending, k)), limit)
  {
    hide Resolve, Uploading, Content;
    var rest := x.s.serving.rest;
    if ending.Goes? {
      assert (x.s.put + rest[..k]) + rest[k..] == x.s.put + rest;
      assert rest == [] ==> x.s.put + rest == x.s.put;
    }
  }

  // What the session is doing for the client's data operation.
  lemma ServesOp(x: Full, env: Env, limit: nat)
    requires FileInv(x, env, limit) && !Between(x.s)
    ensures InTransfer(x.s) && x.s.ops != [] && Busy(x.s, x.s.ops[0].Upload?)
    ensures !x.s.ops[0].Upload? ==> x.s.clientOpen || x.s.serving.Finishing?
  {
    hide S.Inv, Sendable, LineFor, ReplyLines.PlainBelow, Stands, Stored;
  }

  lemma ServerKeepsFiles(x: Full, env: Env, limit: nat, w: S.World, payload: Bytes, ending: Ending, k: nat,
                         files: map<string, Bytes>)
    requires FileInv(x, env, limit) && ServerLegal(x.s, env, w, ending, k)
    requires ServerFits(x, limit, payload, ending, k, files)
    ensures FileInv(StepNext(x, env, limit, Step(Server(w, payload, ending, k), files)), env, limit)
  {
    if x.s.serving.Idle? {
      hide FileInv, Receive;
      ReceiveKeepsFiles(x, env, limit, w, k, files);
    } else {
      hide FileInv, ServerNext, ServerLegal, ServerFits, AfterServer;
      BusyKeepsFiles(x, env, limit, w, payload, ending, k, files);
    }
  }

  lemma BusyKeepsFiles(x: Full, env: Env, limit: nat, w: S.World, payload: Bytes, ending: Ending, k: nat,
                       files: map<string, Bytes>)
    requires FileInv(x, env, limit) && !x.s.serving.Idle? && ServerLegal(x.s, env, w, ending, k)
    requires ServerFits(x, limit, payload, ending, k, files)
    ensures var y := x.(s := ServerNext(x.s, env, w, payload, ending, k));
            FileInv(AfterServer(y, x, env.cfg, limit, w, ending, k, files), env, limit)
  {
    hide InStepInv, Stands, ServerNext, AfterReceive, ServerFits, InTransfer;
    ServerKeepsStep(x.s, env, w, payload, ending, k);
    ServerShape(x.s, env, w, payload, ending, k);
    if InTransfer(ServerNext(x.s, env, w, payload, ending, k)) {
      OpOf(x.s, env);
      if !Between(x.s) { ServesOp(x, env, limit); }
      StageStands(x, env, limit, w, payload, ending, k, files);
    }
  }

  lemma ServerShape(s: State, env: Env, w: S.World, payload: Bytes, ending: Ending, k: nat)
    requires InStepInv(s, env) && !s.serving.Idle? && ServerLegal(s, env, w, ending, k)
    ensures var t := ServerNext(s, env, w, payload, ending, k);
            && t.st == s.st && t.pc == s.pc && t.ops == s.ops && t.commands == s.commands
            && (InTransfer(t) ==> InTransfer(s)) && (s.pc.ReadFirst? ==> s.commands == [])
            && (s.replies != [] ==> t.replies != [])
  {
    hide InStepInv, ServerNext, ServerLegal;
    if s.pc.ReadFirst? { ReadsFirst(s, env); }
    ServerAppends(s, env, w, payload, ending, k);
  }

  lemma ReadsFirst(s: State, env: Env)
    requires InStepInv(s, env) && !s.serving.Idle? && s.pc.ReadFirst?
    ensures s.commands == [] && s.replies != []
  {
    hide S.Inv, Sendable, LineFor, ReplyLines.PlainBelow, Conserved, Tells;
  }

  lemma ServerAppends(s: State, env: Env, w: S.World, payload: Bytes, ending: Ending, k: nat)
    requires !s.serving.Idle? && ServerLegal(s, env, w, ending, k)
    ensures var t := ServerNext(s, env, w, payload, ending, k);
            && t.st == s.st && t.pc == s.pc && t.ops == s.ops && t.commands == s.commands
            && |s.replies| <= |t.replies| && (s.replies != [] ==> t.replies[0] == s.replies[0])
  {
    hide Receive, StoreReply;
  }

  lemma StageStands(x: Full, env: Env, limit: nat, w: S.World, payload: Bytes, ending: Ending, k: nat,
                    files: map<string, Bytes>)
    requires x.s.ops != [] && Stands(x, limit) && !x.s.serving.Idle? && ServerLegal(x.s, env, w, ending, k)
    requires ServerFits(x, limit, payload, ending, k, files)
    requires !Between(x.s) ==> Busy(x.s, x.s.ops[0].Upload?)
    requires x.s.serving.Sending? ==> x.s.clientOpen
    ensures var y := x.(s := ServerNext(x.s, env, w, payload, ending, k));
            var z := AfterServer(y, x, env.cfg, limit, w, ending, k, files);
            z.s.ops == x.s.ops && Stands(z, limit)
  {
    hide Stands, Open, SendSome, TakeSome, Finish, CloseData, AfterReceive, Receive, Tells, Content, Tail, ServerFits,
         Resolve, Opens;
    if x.s.serving.Receiving? { ReceivingStands(x, limit, payload, ending, k, files); }
    else if x.s.serving.Sending? { SendStands(x, limit, ending, k); }
    else if x.s.serving.Opening? { OpeningStands(x, limit, payload, ending, k, files); }
    else { StillDone(x, limit); }
  }

  lemma OpeningStands(x: Full, limit: nat, payload: Bytes, ending: Ending, k: nat, files: map<string, Bytes>)
    requires x.s.ops != [] && Stands(x, limit) && x.s.serving.Opening? && x.s.serving.storing == x.s.ops[0].Upload?
    requires ServerFits(x, limit, payload, ending, k, files)
    ensures Open(x.s, payload).ops == x.s.ops && Stands(x.(s := Open(x.s, payload)), limit)
  {
    OpenStands(x, limit, payload);
    hide Stands;
  }

  lemma ReceivingStands(x: Full, limit: nat, payload: Bytes, ending: Ending, k: nat, files: map<string, Bytes>)
    requires x.s.ops != [] && Stands(x, limit) && x.s.serving.Receiving? && x.s.ops[0].Upload?
    requires ending.Goes? ==> if x.s.wire != [] then k <= |x.s.wire| else k == 0
    requires ServerFits(x, limit, payload, ending, k, files)
    ensures var t := TakeSome(x.s, ending, k);
            && t.ops == x.s.ops
            && (ending.Goes? && x.s.wire != [] ==>
                  Stands(x.(s := t, chunks := x.chunks + [x.s.wire[..k]]), limit))
            && (!(ending.Goes? && x.s.wire != []) ==>
                  Stands(x.(s := t, files := AfterReceive(x, limit, ending, k)), limit))
  {
    hide Stands, AfterReceive, StoreReply;
    if ending.Goes? && x.s.wire != [] { TakeStands(x, limit, ending, k); } else { StoreStands(x, limit, ending, k); }
  }

  lemma OpOf(s: State, env: Env)
    requires InStepInv(s, env) && InTransfer(s)
    ensures s.ops != []
  {
    hide Together, Conserved, S.Inv, Sendable;
  }

  lemma StillDone(x: Full, limit: nat)
    requires x.s.ops != [] && Stands(x, limit)
    ensures x.s.serving.Finishing? ==> Finish(x.s).ops == x.s.ops && Stands(x.(s := Finish(x.s)), limit)
    ensures x.s.serving.Closing? ==> CloseData(x.s).ops == x.s.ops && Stands(x.(s := CloseData(x.s)), limit)
  {
    hide Resolve, Transfer.Flatten, Transfer.Fitting;
  }

  // ---------------------------------------------------------------- every run

  // As long as the client is in step.
  ghost predicate WhileInStep(x: Full, env: Env, limit: nat) { x.s.sync.InStep? ==> FileInv(x, env, limit) }

  lemma StepKeepsFiles(x: Full, env: Env, limit: nat, p: Step)
    requires WhileInStep(x, env, limit) && StepLegal(x, env, limit, p)
    ensures WhileInStep(StepNext(x, env, limit, p), env, limit)
  {
    hide FileInv, ClientNext, ServerNext, ClientLegal, ServerLegal, ServerFits, AfterReceive;
    match p.action
    case Client(connects, k) =>
      ClientSync(x.s, env, connects, k);
      if x.s.sync.InStep? && !AbandonsNow(x.s) { ClientKeepsFiles(x, env, limit, connects, k); }
    case Server(w, payload, ending, k) =>
      SyncStays(x.s, env, w, payload, ending, k);
      if x.s.sync.InStep? { ServerKeepsFiles(x, env, limit, w, payload, ending, k, p.files); }
  }

  lemma {:induction false} RunKeepsFiles(x: Full, env: Env, limit: nat, steps: seq<Step>)
    requires WhileInStep(x, env, limit) && Run(x, env, limit, steps)
    ensures WhileInStep(End(x, env, limit, steps), env, limit)
    decreases |steps|
  {
    hide WhileInStep, StepLegal, StepNext;
    if steps != [] {
      StepKeepsFiles(x, env, limit, steps[0]);
      RunKeepsFiles(StepNext(x, env, limit, steps[0]), env, limit, steps[1..]);
    }
  }

  lemma StartsWell(x: Full, env: Env, limit: nat)
    requires Start(x, env)
    ensures WhileInStep(x, env, limit)
  {
    hide S.Inv, Sendable, ReplyLines.PlainBelow, Stands;
  }

  // The states of all runs that are in step.
  ghost predicate Reached(x: Full, env: Env, limit: nat) {
    x.s.sync.InStep? && exists x0: Full, steps: seq<Step> ::
      Start(x0, env) && Run(x0, env, limit, steps) && x == End(x0, env, limit, steps)
  }

  lemma ReachedInv(x: Full, env: Env, limit: nat)
    requires Reached(x, env, limit)
    ensures FileInv(x, env, limit) && x.s.sync.InStep?
  {
    hide Start, Run, End, FileInv;
    var x0: Full, steps: seq<Step> :|
      Start(x0, env) && Run(x0, env, limit, steps) && x == End(x0, env, limit, steps);
    StartsWell(x0, env, limit);
    RunKeepsFiles(x0, env, limit, steps);
  }

  // An operation is about to end, its transfer undisturbed.
  predicate Ends(s: State) { s.pc.ReadFinal? && s.ops != [] && s.replies != [] && s.ended.Goes? }

  /** When an upload whose receive came to the end of the stream is about to read its final reply, the server
      has exactly the client's file under the name's path; after one that broke, what had arrived; and
      after one over the limit, no file there. */
  lemma UploadStores(x: Full, env: Env, limit: nat)
    requires Reached(x, env, limit) && x.s.pc.ReadFinal? && x.s.replies != [] && x.s.ops != [] && x.s.ops[0].Upload?
    ensures x.s.ops[0].local.Content?
    ensures var path := PathOf(x.s, x.s.ops[0].file);
            && (x.s.ended.Goes? ==> path in x.files && x.files[path] == x.s.ops[0].local.data)
            && (x.s.ended.Breaks? ==> path in x.files && x.files[path] == x.s.got <= x.s.ops[0].local.data)
            && (x.s.ended.Overflows? ==> path !in x.files)
  {
    hide Reached, FileInv, S.Inv, Sendable, ReplyLines.PlainBelow, Resolve, LineFor;
    ReachedInv(x, env, limit);
    FinalStands(x, env, limit);
  }

  // With the final reply the session is through with the transfer.
  lemma FinalStands(x: Full, env: Env, limit: nat)
    requires FileInv(x, env, limit) && x.s.pc.ReadFinal? && x.s.replies != []
    ensures x.s.ops != [] && Between(x.s) && Stands(x, limit) && Conserved(x.s) && x.s.commands == []
    ensures !x.s.ops[0].Upload? ==> x.s.got == x.s.put
    ensures x.s.ops[0].Upload? ==>
              && x.s.ops[0].local.Content? && x.s.got <= x.s.ops[0].local.data
              && (x.s.ended.Goes? ==> x.s.got == x.s.ops[0].local.data)
  {
    hide S.Inv, Sendable, ReplyLines.PlainBelow, LineFor, Stands;
  }

  /** A download that was not disturbed has given the client exactly the file under the name's path. */
  lemma DownloadReturns(x: Full, env: Env, limit: nat)
    requires Reached(x, env, limit) && Ends(x.s) && x.s.ops[0].Download?
    ensures x.s.got == Content(x.files, PathOf(x.s, x.s.ops[0].file))
  {
    hide Reached, FileInv, Resolve;
    ReachedInv(x, env, limit);
    FinalReturns(x, env, limit);
  }

  // ---------------------------------------------------------------- an upload, and then a download

  lemma StepStates(x: Full, env: Env, limit: nat, p: Step)
    requires StepLegal(x, env, limit, p)
    ensures StepNext(x, env, limit, p).s == Next(x.s, env, p.action)
  {
    hide ClientNext, ServerNext, ClientLegal, ServerLegal, ServerFits, AfterReceive;
  }

  lemma {:induction false} RunShrinks(x: Full, env: Env, limit: nat, steps: seq<Step>)
    requires Run(x, env, limit, steps)
    ensures var y := End(x, env, limit, steps); |y.s.ops| <= |x.s.ops| && (y.s.sync.InStep? ==> x.s.sync.InStep?)
    decreases |steps|
  {
    hide Legal, Next, ServerFits, ServerNext, AfterServer;
    if steps != [] {
      StepStates(x, env, limit, steps[0]);
      ScriptShrinks(x.s, env, steps[0].action);
      RunShrinks(StepNext(x, env, limit, steps[0]), env, limit, steps[1..]);
    }
  }

  // The server has these data where the download at the head of `rest` will look, from the end of the
  // operation before it on.
  ghost predicate Holds(x: Full, env: Env, limit: nat, rest: seq<Op>, path: string, data: Bytes) {
    && FileInv(x, env, limit) && x.s.sync.InStep? && rest != [] && rest[0].Download?
    && path == PathOf(x.s, rest[0].file) && path in x.files && x.files[path] == data
    && (x.s.ops == rest
        || (x.s.ops != [] && x.s.ops[1..] == rest && x.s.pc.ReadFinal? && x.s.replies != []))
  }

  lemma DownloadCommands(st: S.State, cfg: S.Config, op: Op, pc: Pc, w: S.World)
    requires op.Download? && Fits(op, pc) && Awaits(pc) && Sendable(op) && S.Inv(st, cfg) && st.phase == S.Ready
    ensures var o := S.Turn(st, cfg, LineFor(op, pc), w); o.st.root == st.root && o.st.cwd == st.cwd
    ensures !ChangesFiles(S.Parse(S.Clean(LineFor(op, pc))).verb)
  {
    hide S.Turn, S.Parse, S.Clean, S.DispatchReady, LineFor, Sendable, S.Inv, ReplyLines.SentByClient;
    LineParses(op, pc);
    VerbsSent(op, pc);
    ReadyTurn(st, cfg, LineFor(op, pc), w);
    KeepsDirectory(st, S.Parse(S.Clean(LineFor(op, pc))), w);
  }

  lemma KeepsDirectory(st: S.State, c: S.Command, w: S.World)
    requires c.verb == S.PASV || c.verb == S.RETR
    ensures var o := S.DispatchReady(st, c, w); o.st.root == st.root && o.st.cwd == st.cwd
  {
    hide S.SafeFilename, Resolve, WithinRoot;
  }

  lemma ReceiveHolds(x: Full, env: Env, limit: nat, rest: seq<Op>, w: S.World, k: nat, files: map<string, Bytes>)
    requires FileInv(x, env, limit) && x.s.ops == rest != [] && rest[0].Download? && x.s.serving.Idle?
    requires ServerLegal(x.s, env, w, Goes, k) && (ChangesFiles(Verb(x.s, k)) || files == x.files)
    ensures var t := Receive(x.s, env.cfg, w, k); t.st.root == x.s.st.root && t.st.cwd == x.s.st.cwd && files == x.files
  {
    hide InStepInv, S.Turn, S.Parse, S.Clean, LineFor, Sendable, S.Inv, Receive, ReplyLines.PlainBelow, Taken, Fits;
    TheCommand(x.s, env);
    ReceiveTakes(x.s, env, w, k);
    DownloadCommands(x.s.st, env.cfg, x.s.ops[0], x.s.pc, w);
  }

  lemma ServerHolds(x: Full, env: Env, limit: nat, rest: seq<Op>, path: string, data: Bytes, w: S.World, payload: Bytes,
                    ending: Ending, k: nat, files: map<string, Bytes>)
    requires Holds(x, env, limit, rest, path, data) && ServerLegal(x.s, env, w, ending, k)
    requires ServerFits(x, limit, payload, ending, k, files)
    ensures var y := StepNext(x, env, limit, Step(Server(w, payload, ending, k), files));
            && y.files == x.files && PathOf(y.s, rest[0].file) == path
            && (x.s.ops != rest ==> y.s.pc.ReadFinal? && y.s.replies != [])
  {
    hide FileInv, Receive, AfterReceive, Resolve, Stands;
    if x.s.ops != rest { FinalStands(x, env, limit); }
    if x.s.serving.Idle? {
      IdleHasCommand(x.s, env, w, ending, k);
      ReceiveHolds(x, env, limit, rest, w, k, files);
    } else {
      StepOf(x, env, limit);
      if !Between(x.s) { ServesOp(x, env, limit); }
      ServerShape(x.s, env, w, payload, ending, k);
    }
  }

  lemma StepOf(x: Full, env: Env, limit: nat)
    requires FileInv(x, env, limit)
    ensures InStepInv(x.s, env)
  {
  }

  lemma IdleHasCommand(s: State, env: Env, w: S.World, ending: Ending, k: nat)
    requires s.serving.Idle? && ServerLegal(s, env, w, ending, k)
    ensures s.commands != [] && ServerLegal(s, env, w, Goes, k)
  {
  }

  lemma ClientHolds(x: Full, env: Env, limit: nat, rest: seq<Op>, connects: bool, k: nat)
    requires FileInv(x, env, limit) && ClientLegal(x.s, env, k) && x.s.pc.ReadFinal? && x.s.ops != []
    requires x.s.ops[1..] == rest
    ensures ClientNext(x.s, env, connects, k).ops == rest
  {
  }

  lemma StepHolds(x: Full, env: Env, limit: nat, rest: seq<Op>, path: string, data: Bytes, p: Step)
    requires Holds(x, env, limit, rest, path, data) && StepLegal(x, env, limit, p)
    requires var y := StepNext(x, env, limit, p); y.s.sync.InStep? && |y.s.ops| >= |rest|
    ensures Holds(StepNext(x, env, limit, p), env, limit, rest, path, data)
  {
    hide FileInv, ClientNext, ServerNext, ClientLegal, ServerLegal, ServerFits, AfterReceive, Resolve;
    StepKeepsFiles(x, env, limit, p);
    StepStates(x, env, limit, p);
    ScriptShrinks(x.s, env, p.action);
    match p.action
    case Client(connects, k) =>
      StepOf(x, env, limit);
      ClientShape(x.s, env, connects, k);
      if x.s.ops != rest { ClientHolds(x, env, limit, rest, connects, k); }
    case Server(w, payload, ending, k) =>
      SyncStays(x.s, env, w, payload, ending, k);
      ServerHolds(x, env, limit, rest, path, data, w, payload, ending, k, p.files);
  }

  lemma {:induction false} RunHolds(x: Full, env: Env, limit: nat, rest: seq<Op>, path: string, data: Bytes,
                                    steps: seq<Step>)
    requires Holds(x, env, limit, rest, path, data) && Run(x, env, limit, steps)
    requires var y := End(x, env, limit, steps); y.s.sync.InStep? && y.s.ops == rest
    ensures Holds(End(x, env, limit, steps), env, limit, rest, path, data)
    decreases |steps|
  {
    hide Holds, StepLegal, StepNext;
    if steps != [] {
      var y := StepNext(x, env, limit, steps[0]);
      RunShrinks(y, env, limit, steps[1..]);
      StepHolds(x, env, limit, rest, path, data, steps[0]);
      RunHolds(y, env, limit, rest, path, data, steps[1..]);
    }
  }

  /** What has been uploaded is what the next operation downloads: after an upload whose receive came to the
      end of the stream, a download of the same name that is not disturbed gives the client exactly the bytes
      uploaded, under every interleaving in between. */
  lemma UploadThenDownload(x: Full, env: Env, limit: nat, steps: seq<Step>)
    requires Reached(x, env, limit) && Ends(x.s) && x.s.ops[0].Upload? && Run(x, env, limit, steps)
    requires |x.s.ops| >= 2 && x.s.ops[1].Download? && x.s.ops[1].file == x.s.ops[0].file
    ensures x.s.ops[0].local.Content?
    ensures var y := End(x, env, limit, steps);
            y.s.sync.InStep? && y.s.ops == x.s.ops[1..] && Ends(y.s) ==> y.s.got == x.s.ops[0].local.data
  {
    hide Reached, FileInv, Run, End, Resolve, Stands;
    UploadStores(x, env, limit);
    ReachedInv(x, env, limit);
    var y, rest := End(x, env, limit, steps), x.s.ops[1..];
    var path, data := PathOf(x.s, x.s.ops[0].file), x.s.ops[0].local.data;
    if y.s.sync.InStep? && y.s.ops == rest && Ends(y.s) {
      RunHolds(x, env, limit, rest, path, data, steps);
      FinalReturns(y, env, limit);
    }
  }

  lemma FinalReturns(x: Full, env: Env, limit: nat)
    requires FileInv(x, env, limit) && Ends(x.s) && x.s.ops[0].Download?
    ensures x.s.got == Content(x.files, PathOf(x.s, x.s.ops[0].file))
  {
    hide FileInv, Resolve;
    FinalStands(x, env, limit);
  }
}
