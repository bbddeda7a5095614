/**
 Which scripts can leave the session accepting for ever: exactly those in which, after a download whose local
 file cannot be created, two data operations follow each other.  The client then takes the reply to one PASV
 for the reply to the next, connects to a listener the session is about to replace, and leaves the session
 accepting on one that nobody will connect to.
 */
module AbandonedDownload {
  import opened Lockstep
  import opened Skewed
  import S = SessionSpec
  import Address
  import Client
  import ReplyLines
  import SessionPaths
  import Transfer

  // ---------------------------------------------------------------- runs from a given start

  ghost predicate From(s0: State, env: Env, s: State) {
    exists actions: seq<Action> :: LegalRun(s0, env, actions) && s == After(s0, env, actions)
  }

  lemma FromStart(s0: State, env: Env)
    ensures From(s0, env, s0)
  {
    assert LegalRun(s0, env, []) && After(s0, env, []) == s0;
  }

  // What one step leads to.
  lemma Go(s0: State, s: State, env: Env, a: Action) returns (t: State)
    requires From(s0, env, s) && Legal(s, env, a)
    ensures t == Next(s, env, a) && From(s0, env, t)
  {
    hide LegalRun, After, Legal, Next;
    var actions: seq<Action> :| LegalRun(s0, env, actions) && s == After(s0, env, actions);
    RunExtends(s0, env, actions, a);
    assert LegalRun(s0, env, actions + [a]);
    t := Next(s, env, a);
  }

  // ---------------------------------------------------------------- the session takes one command

  function Outside(passive: S.Passive): S.World {
    S.World(map[], map[], "", 0, 0, false, true, false, S.NoSize, "", passive, true, Transfer.Result(0, true, false))
  }

  ghost predicate SessionReady(s: State, env: Env) {
    S.Inv(s.st, env.cfg) && s.st.phase == S.Ready && ReplyLines.PlainBelow(s.st)
  }

  function Offer(port: nat): S.Reply { S.Reply(227, Address.PasvResponse(port)[4..]) }

  ghost predicate Takes(s: State, env: Env, line: string) {
    SessionReady(s, env) && s.serving.Idle? && s.commands != [] && s.commands[0] == line
  }

  // A PASV opens another listener.
  lemma PasvTaken(s0: State, s: State, env: Env, port: nat) returns (t: State)
    requires From(s0, env, s) && Takes(s, env, PASSIVE) && port < 0x1_0000
    ensures From(s0, env, t) && SessionReady(t, env)
    ensures t == s.(commands := s.commands[1..], served := s.served + 1, st := t.st,
                    replies := s.replies + [Numbered(s.served + 1, s.served + 1, Offer(port))],
                    listener := S.Listening(port), passive := true, link := if s.link.Queued? then Dropped else s.link)
  {
    hide S.Turn, S.Parse, S.Clean, S.Inv, Receive, Client.Readable, PASSIVE, Address.PasvResponse, From, LineFor,
         VerbFor,
         ReplyLines.SentByClient;
    var w := Outside(S.Listening(port));
    t := Go(s0, s, env, Server(w, [], Goes, 1));
    PassiveLine(List);
    LineParses(List, ReadPasv);
    VerbsSent(List, ReadPasv);
    Served(s.st, env.cfg, List, ReadPasv, w);
    ReceiveOne(s, env.cfg, w);
    var n := s.served + 1;
    assert NumberAll(n, n, [Offer(port)]) == [Numbered(n, n, Offer(port))];
  }

  // A command that opens no data connection gets one reply, and changes nothing about the listener.
  lemma OtherTaken(s0: State, s: State, env: Env, op: Op, pc: Pc) returns (t: State)
    requires From(s0, env, s) && Fits(op, pc) && Awaits(pc) && !pc.ReadFirst? && !pc.ReadPasv? && Sendable(op)
    requires Takes(s, env, LineFor(op, pc))
    ensures From(s0, env, t) && SessionReady(t, env) && |t.replies| == |s.replies| + 1
    ensures t == s.(commands := s.commands[1..], served := s.served + 1, st := t.st,
                    replies := s.replies + [t.replies[|s.replies|]])
    ensures t.replies[|s.replies|].reply.code != 227
  {
    hide S.Turn, S.Parse, S.Clean, S.Inv, Receive, Client.Readable, From, LineFor, VerbFor, ReplyLines.SentByClient,
         Sendable;
    var w := Outside(S.NoListener);
    t := Go(s0, s, env, Server(w, [], Goes, 1));
    LineParses(op, pc);
    VerbsSent(op, pc);
    Served(s.st, env.cfg, op, pc, w);
    ReceiveOne(s, env.cfg, w);
  }

  // Data operations that may be promised data.
  predicate Fetches(op: Op) { Sendable(op) && IsData(op) && Acceptable(op) }

  function DataLine(op: Op): string
    requires IsData(op)
  {
    LineFor(op, ReadFirst)
  }

  lemma DataTaken(s0: State, s: State, env: Env, op: Op) returns (t: State, final: S.Reply)
    requires IsData(op) && Takes(s, env, DataLine(op)) && From(s0, env, s) && Fetches(op)
    ensures From(s0, env, t) && SessionReady(t, env) && |t.replies| == |s.replies| + 1
    ensures t.replies[|s.replies|].reply.code == 150 && t.serving == Opening(op.Upload?, final, true)
    ensures final.code == 226
    ensures t == s.(commands := s.commands[1..], served := s.served + 1, st := t.st,
                    replies := s.replies + [t.replies[|s.replies|]], serving := t.serving)
  {
    hide S.Turn, S.Parse, S.Clean, S.Inv, Receive, Client.Readable, From, LineFor, VerbFor, ReplyLines.SentByClient,
         Sendable, S.SafeFilename;
    var w := Outside(S.NoListener);
    t := Go(s0, s, env, Server(w, [], Goes, 1));
    LineParses(op, ReadFirst);
    VerbsSent(op, ReadFirst);
    Served(s.st, env.cfg, op, ReadFirst, w);
    ReceiveOne(s, env.cfg, w);
    TwoReplies(s.st, env.cfg, op);
    final := t.serving.final;
  }

  predicate Promises(o: S.Outcome) { |o.replies| == 2 && o.replies[1].code == 226 }

  lemma TwoReplies(st: S.State, cfg: S.Config, op: Op)
    requires IsData(op) && S.Inv(st, cfg) && st.phase == S.Ready && Fetches(op)
    ensures Promises(S.Turn(st, cfg, DataLine(op), Outside(S.NoListener)))
  {
    hide S.Parse, S.Clean, LineFor, VerbFor, S.SafeFilename, S.Turn, S.DispatchReady, S.Inv, Sendable,
         ReplyLines.SentByClient;
    var line := LineFor(op, ReadFirst);
    LineParses(op, ReadFirst);
    FetchParses(op);
    VerbsSent(op, ReadFirst);
    ReadyTurn(st, cfg, line, Outside(S.NoListener));
    InsideOf(st, cfg);
    FetchReplies(st, S.Parse(S.Clean(line)));
  }

  lemma FetchParses(op: Op)
    requires IsData(op) && Fetches(op)
    ensures var c := S.Parse(S.Clean(DataLine(op)));
            c.verb == S.LIST || ((c.verb == S.RETR || c.verb == S.STOR) && S.SafeFilename(c.argument))
  {
    hide S.Parse, S.Clean, S.SafeFilename, S.VerbOf, S.IsName, Line, Bare;
    AreNames();
    TransferNames();
    match op
    case List => NamedLine("LIST", "");
    case Download(file, _) => NamedLine("RETR", file);
    case Upload(file, _) => NamedLine("STOR", file);
  }

  lemma FetchReplies(st: S.State, c: S.Command)
    requires SessionPaths.Inside(st.root, st.cwd)
    requires c.verb == S.LIST || ((c.verb == S.RETR || c.verb == S.STOR) && S.SafeFilename(c.argument))
    ensures Promises(S.DispatchReady(st, c, Outside(S.NoListener)))
  {
    hide S.SafeFilename, SessionPaths.Resolve, SessionPaths.WithinRoot, SessionPaths.Inside;
    SessionPaths.ResolveInside(st.root, st.cwd, c.argument);
  }

  // ---------------------------------------------------------------- passing an operation

  // Where a run is: the session is logged in and at this point, the client has this much of the script
  // left, and these commands and replies are under way.
  ghost predicate At(s0: State, s: State, env: Env, ops: seq<Op>, pc: Pc, commands: seq<string>, codes: seq<nat>,
                     serving: Serving)
  {
    && From(s0, env, s) && SessionReady(s, env)
    && s.ops == ops && s.pc == pc && s.commands == commands && s.serving == serving
    && |s.replies| == |codes| && forall i :: 0 <= i < |codes| ==> s.replies[i].reply.code == codes[i]
  }

  // The session answers the command the client waits for.
  lemma Asked(s0: State, s: State, env: Env, ops: seq<Op>, pc: Pc, late: seq<nat>) returns (t: State, code: nat)
    requires ops != [] && Fits(ops[0], pc) && Awaits(pc) && !pc.ReadFirst? && !pc.ReadPasv? && Sendable(ops[0])
    requires At(s0, s, env, ops, pc, [LineFor(ops[0], pc)], late, Idle)
    ensures At(s0, t, env, ops, pc, [], late + [code], Idle) && t.sync == s.sync && code != 227
  {
    hide S.Inv, ReplyLines.PlainBelow, LineFor, From, Sendable, Fits;
    t := OtherTaken(s0, s, env, ops[0], pc);
    code := t.replies[|late|].reply.code;
  }

  // The client reads a reply, and may send the next command.
  lemma Answered(s0: State, s: State, env: Env, ops: seq<Op>, pc: Pc, codes: seq<nat>) returns (t: State)
    requires ops != [] && Fits(ops[0], pc) && (pc.ReadOnly? || pc.ReadFrom? || pc.ReadTo?) && codes != []
    requires At(s0, s, env, ops, pc, [], codes, Idle)
    ensures pc.ReadFrom? ==> At(s0, t, env, ops, ReadTo, [LineFor(ops[0], ReadTo)], codes[1..], Idle)
    ensures !pc.ReadFrom? ==> At(s0, t, env, ops[1..], Begin, [], codes[1..], Idle)
    ensures s.sync == InStep ==> t.sync == InStep
  {
    hide S.Inv, ReplyLines.PlainBelow, LineFor, From, ServerNext, ServerLegal;
    t := Go(s0, s, env, Client(true, 0));
  }

  // An operation that opens no data connection, with `late` replies unread before and after it.
  lemma PassOther(s0: State, s: State, env: Env, ops: seq<Op>, late: seq<nat>) returns (t: State, after: seq<nat>)
    requires ops != [] && !IsData(ops[0]) && !Silent(ops[0]) && Sendable(ops[0]) && |late| <= 1
    requires At(s0, s, env, ops, Begin, [], late, Idle)
    ensures At(s0, t, env, ops[1..], Begin, [], after, Idle) && |after| == |late| && 227 !in after
    ensures s.sync == InStep ==> t.sync == InStep
  {
    var pc: Pc := if ops[0].Rename? then ReadFrom else ReadOnly;
    t := Asks(s0, s, env, ops, pc, late);
    hide At, Sendable;
    var code: nat;
    t, code := Asked(s0, t, env, ops, pc, late);
    t := Answered(s0, t, env, ops, pc, late + [code]);
    after := (late + [code])[1..];
    if ops[0].Rename? {
      var last: nat;
      t, last := Asked(s0, t, env, ops, ReadTo, after);
      t := Answered(s0, t, env, ops, ReadTo, after + [last]);
      after := (after + [last])[1..];
    }
  }

  lemma Asks(s0: State, s: State, env: Env, ops: seq<Op>, pc: Pc, late: seq<nat>) returns (t: State)
    requires ops != [] && !IsData(ops[0]) && !Silent(ops[0]) && pc == if ops[0].Rename? then ReadFrom else ReadOnly
    requires At(s0, s, env, ops, Begin, [], late, Idle)
    ensures Fits(ops[0], pc) && At(s0, t, env, ops, pc, [LineFor(ops[0], pc)], late, Idle) && t.sync == s.sync
  {
    hide S.Inv, ReplyLines.PlainBelow, LineFor, From, ServerNext, ServerLegal;
    t := Go(s0, s, env, Client(true, 0));
  }

  lemma PassSilent(s0: State, s: State, env: Env, ops: seq<Op>, late: seq<nat>) returns (t: State)
    requires ops != [] && Silent(ops[0]) && At(s0, s, env, ops, Begin, [], late, Idle)
    ensures At(s0, t, env, ops[1..], Begin, [], late, Idle)
    ensures t == s.(ops := ops[1..], clientOpen := false)
  {
    hide S.Inv, ReplyLines.PlainBelow, From, ServerNext, ServerLegal;
    t := Go(s0, s, env, Client(true, 0));
  }

  // A data operation whose connection fails.
  lemma PassData(s0: State, s: State, env: Env, ops: seq<Op>) returns (t: State)
    requires ops != [] && IsData(ops[0]) && At(s0, s, env, ops, Begin, [], [], Idle) && s.sync == InStep
    ensures At(s0, t, env, ops[1..], Begin, [], [], Idle) && t.sync == InStep
  {
    hide S.Inv, ReplyLines.PlainBelow, From, Target, PASSIVE, Address.PasvResponse, ServerNext, ServerLegal;
    PassiveLine(ops[0]);
    t := Go(s0, s, env, Client(true, 0));
    t := PasvTaken(s0, t, env, PORT);
    t := Go(s0, t, env, Client(true, 0));
    t := Go(s0, t, env, Client(false, 0));
  }

  // Any first operation of a script can be passed in step.
  lemma PassInStep(s0: State, s: State, env: Env, ops: seq<Op>) returns (t: State)
    requires ops != [] && Sendable(ops[0]) && At(s0, s, env, ops, Begin, [], [], Idle) && s.sync == InStep
    ensures At(s0, t, env, ops[1..], Begin, [], [], Idle) && t.sync == InStep
  {
    hide At, Sendable;
    if Silent(ops[0]) {
      t := PassSilent(s0, s, env, ops, []);
    } else if IsData(ops[0]) {
      t := PassData(s0, s, env, ops);
    } else {
      var after: seq<nat>;
      t, after := PassOther(s0, s, env, ops, []);
      assert after == [];
    }
  }

  // ---------------------------------------------------------------- the download is abandoned

  // The client takes a 227 for the answer to its PASV, and connects.
  lemma FollowsOffer(s0: State, s: State, env: Env, ops: seq<Op>, commands: seq<string>, port: nat) returns (t: State)
    requires ops != [] && IsData(ops[0]) && At(s0, s, env, ops, ReadPasv, commands, [227], Idle) && port < 0x1_0000
    requires s.replies[0].reply == Offer(port) && s.listener == S.Listening(port) && s.passive
    ensures At(s0, t, env, ops, Attached, commands, [], Idle) && (s.sync == InStep ==> t.sync == InStep)
    ensures t.passive && t.listener == s.listener && t.link == Queued
    ensures t.wire == [] && t.put == [] && t.got == [] && t.clientOpen
  {
    hide S.Inv, ReplyLines.PlainBelow, Target, Address.PasvResponse, From, ServerNext, ServerLegal;
    TargetOfOffer(s, s.replies[0].reply);
    t := Go(s0, s, env, Client(true, 0));
    t := Go(s0, t, env, Client(true, 0));
  }

  // PASV, its reply and the connection: the client stands before its data command.
  lemma Joins(s0: State, s: State, env: Env, ops: seq<Op>, port: nat) returns (t: State)
    requires ops != [] && IsData(ops[0]) && port < 0x1_0000
    requires At(s0, s, env, ops, Begin, [], [], Idle)
    ensures At(s0, t, env, ops, Attached, [], [], Idle) && (s.sync == InStep ==> t.sync == InStep)
    ensures t.passive && t.listener == S.Listening(port) && t.link == Queued
    ensures t.wire == [] && t.put == [] && t.got == [] && t.clientOpen
  {
    hide S.Inv, ReplyLines.PlainBelow, PASSIVE, Target, Address.PasvResponse, From, ServerNext, ServerLegal;
    PassiveLine(ops[0]);
    t := Go(s0, s, env, Client(true, 0));
    t := PasvTaken(s0, t, env, port);
    t := FollowsOffer(s0, t, env, ops, [], port);
  }

  // The download is abandoned after its 150.
  lemma Abandons150(s0: State, s: State, env: Env, ops: seq<Op>) returns (t: State)
    requires ops != [] && ops[0].Download? && !ops[0].creatable && Fetches(ops[0])
    requires At(s0, s, env, ops, Attached, [], [], Idle)
    requires s.passive && s.listener.Listening? && s.link == Queued
    ensures t.serving.Opening? && At(s0, t, env, ops[1..], Begin, [], [], t.serving)
    ensures t.serving.works && !t.serving.storing && t.serving.final.code == 226
    ensures t.passive && t.listener.Listening? && t.link == Queued && !t.clientOpen
    ensures s.sync == InStep ==> t.sync == Behind
  {
    hide S.Inv, ReplyLines.PlainBelow, LineFor, From, ServerNext, ServerLegal, Sendable;
    t := Go(s0, s, env, Client(true, 0));
    var final: S.Reply;
    t, final := DataTaken(s0, t, env, ops[0]);
    t := Go(s0, t, env, Client(true, 0));
  }

  // The session transfers an empty file to nobody and sends its 226.
  lemma SendsToNobody(s0: State, s: State, env: Env, ops: seq<Op>) returns (t: State)
    requires s.serving.Opening? && At(s0, s, env, ops, Begin, [], [], s.serving)
    requires s.serving.works && !s.serving.storing && s.serving.final.code == 226
    requires s.passive && s.listener.Listening? && s.link == Queued && !s.clientOpen
    ensures At(s0, t, env, ops, Begin, [], [226], Idle) && t.sync == s.sync
  {
    hide S.Inv, ReplyLines.PlainBelow, From, Receive;
    var step := Server(Outside(S.NoListener), [], Goes, 0);
    t := Go(s0, s, env, step);
    t := Go(s0, t, env, step);
    t := Go(s0, t, env, step);
    t := Go(s0, t, env, step);
  }

  // ---------------------------------------------------------------- two data operations

  // The client takes the late reply for the answer to its PASV and gives up the operation: at once, or because
  // it finds no listener; its own PASV opens one.
  lemma MissesOffer(s0: State, s: State, env: Env, ops: seq<Op>, code: nat) returns (t: State)
    requires ops != [] && IsData(ops[0]) && At(s0, s, env, ops, Begin, [], [code], Idle)
    ensures At(s0, t, env, ops[1..], Begin, [], [227], Idle)
    ensures t.replies[0].reply == Offer(PORT) && t.listener == S.Listening(PORT) && t.passive
  {
    hide S.Inv, ReplyLines.PlainBelow, PASSIVE, Target, Address.PasvResponse, From, ServerNext, ServerLegal;
    PassiveLine(ops[0]);
    t := Go(s0, s, env, Client(true, 0));
    t := Go(s0, t, env, Client(true, 0));
    if code == 227 { t := Go(s0, t, env, Client(false, 0)); }
    t := PasvTaken(s0, t, env, PORT);
  }

  // For the second it takes the late 227, and connects before the session replaces that listener.
  lemma TakesLateOffer(s0: State, s: State, env: Env, ops: seq<Op>, port: nat, next: nat) returns (t: State)
    requires ops != [] && IsData(ops[0]) && At(s0, s, env, ops, Begin, [], [227], Idle)
    requires s.replies[0].reply == Offer(port) && s.listener == S.Listening(port) && s.passive
    requires port < 0x1_0000 && next < 0x1_0000
    ensures At(s0, t, env, ops, Attached, [], [227], Idle)
    ensures t.link == Dropped && t.passive && t.listener == S.Listening(next) && t.wire == []
  {
    t := ConnectsLate(s0, s, env, ops, port);
    hide S.Inv, ReplyLines.PlainBelow, PASSIVE, From, Address.PasvResponse;
    t := PasvTaken(s0, t, env, next);
  }

  lemma ConnectsLate(s0: State, s: State, env: Env, ops: seq<Op>, port: nat) returns (t: State)
    requires ops != [] && IsData(ops[0]) && At(s0, s, env, ops, Begin, [], [227], Idle) && port < 0x1_0000
    requires s.replies[0].reply == Offer(port) && s.listener == S.Listening(port) && s.passive
    ensures At(s0, t, env, ops, Attached, [PASSIVE], [], Idle) && t.link == Queued && t.wire == [] && t.passive
  {
    hide S.Inv, ReplyLines.PlainBelow, PASSIVE, Target, Address.PasvResponse, From, ServerNext, ServerLegal;
    PassiveLine(ops[0]);
    t := Go(s0, s, env, Client(true, 0));
    t := FollowsOffer(s0, t, env, ops, [PASSIVE], port);
  }

  // The session accepts where nobody will connect; the client has only replies that are no offers to read.
  predicate Blocked(s: State) {
    && s.serving.Opening? && s.passive && s.listener.Listening? && s.link == Dropped && s.wire == []
    && (forall i :: 0 <= i < |s.replies| ==> s.replies[i].reply.code != 227)
    && !s.pc.Connecting? && !s.pc.Attached? && !s.pc.ReadFirst? && !s.pc.Pushing?
  }

  // It takes the next 227 for the reply to its data command, which the session has gone to accept for.
  lemma Blocks(s0: State, s: State, env: Env, ops: seq<Op>) returns (t: State)
    requires ops != [] && Fetches(ops[0]) && At(s0, s, env, ops, Attached, [], [227], Idle)
    requires s.link == Dropped && s.passive && s.listener.Listening? && s.wire == []
    ensures From(s0, env, t) && Blocked(t)
  {
    hide S.Inv, ReplyLines.PlainBelow, LineFor, From, ServerNext, ServerLegal, Sendable;
    t := Go(s0, s, env, Client(true, 0));
    var final: S.Reply;
    t, final := DataTaken(s0, t, env, ops[0]);
    t := Go(s0, t, env, Client(true, 0));
  }

  // Neither party can take a step and the script is not finished: the session is caught in a call, and the
  // client waits for a reply or has nothing left to do.
  ghost predicate Stuck(s: State, env: Env) { !Finished(s) && forall a: Action :: !Legal(s, env, a) }

  lemma BlockedStays(s: State, env: Env, a: Action)
    requires Blocked(s) && Legal(s, env, a)
    ensures Blocked(Next(s, env, a))
  {
    hide BeginOp, AfterPasv, AfterFirst, Connect, Push, Send, Return, ReadReply, ServerNext;
    if Reads(s.pc) { BlockedReads(s); } else if s.pc.Begin? { BlockedBegins(s); }
  }

  lemma BlockedReads(s: State)
    requires Blocked(s) && s.ops != [] && s.replies != [] && Fits(s.ops[0], s.pc)
    ensures Blocked(Return(ReadReply(s))) && AfterPasv(s) == Return(ReadReply(s))
    ensures s.pc.ReadFrom? ==> Blocked(Send(ReadReply(s), ReadTo))
  {
    hide LineFor, Target;
  }

  lemma BlockedBegins(s: State)
    requires Blocked(s) && s.ops != [] && s.pc.Begin?
    ensures Blocked(BeginOp(s))
  {
    hide LineFor;
  }

  lemma {:induction false} RunsOut(s0: State, s: State, env: Env) returns (t: State)
    requires From(s0, env, s) && Blocked(s)
    ensures From(s0, env, t) && Stuck(t, env) && t.serving.Opening?
    decreases ClientRank(s), Unreceived(s), ServingRank(s.serving), Minor(s)
  {
    if a: Action :| Legal(s, env, a) {
      hide From, Blocked, Legal, Next, ClientRank, Unreceived, ServingRank, Minor;
      BlockedStays(s, env, a);
      StepFalls(s, env, a);
      t := Go(s0, s, env, a);
      t := RunsOut(s0, t, env);
    } else {
      t := s;
    }
  }

  // ---------------------------------------------------------------- exactly the unsafe scripts

  const PORT: nat := 50000

  ghost predicate AllSendable(ops: seq<Op>) { forall i :: 0 <= i < |ops| ==> Sendable(ops[i]) }

  // One reply behind: `code` is the late one.
  lemma {:induction false} UnsafeRestSticks(s0: State, s: State, env: Env, ops: seq<Op>, code: nat) returns (t: State)
    requires AllSendable(ops) && !SafeAfter(code == 227, ops) && At(s0, s, env, ops, Begin, [], [code], Idle)
    requires code == 227 ==> s.replies[0].reply == Offer(PORT) && s.listener == S.Listening(PORT) && s.passive
    ensures From(s0, env, t) && Stuck(t, env) && t.serving.Opening?
    decreases |ops|
  {
    hide At, Acceptable, Sendable, From, Stuck, Blocked, Address.PasvResponse;
    if Silent(ops[0]) {
      t := PassSilent(s0, s, env, ops, [code]);
      t := UnsafeRestSticks(s0, t, env, ops[1..], code);
    } else if IsData(ops[0]) {
      if code == 227 && Acceptable(ops[0]) {
        t := TakesLateOffer(s0, s, env, ops, PORT, PORT + 1);
        t := Blocks(s0, t, env, ops);
        t := RunsOut(s0, t, env);
      } else {
        t := MissesOffer(s0, s, env, ops, code);
        t := UnsafeRestSticks(s0, t, env, ops[1..], 227);
      }
    } else {
      var after: seq<nat>;
      t, after := PassOther(s0, s, env, ops, [code]);
      assert after == [after[0]];
      t := UnsafeRestSticks(s0, t, env, ops[1..], after[0]);
    }
  }

  lemma {:induction false} UnsafeScriptSticks(s0: State, s: State, env: Env, ops: seq<Op>) returns (t: State)
    requires AllSendable(ops) && !SafeScript(ops) && At(s0, s, env, ops, Begin, [], [], Idle) && s.sync == InStep
    ensures From(s0, env, t) && Stuck(t, env) && t.serving.Opening?
    decreases |ops|
  {
    hide At, Acceptable, Sendable, From, Stuck, SafeAfter;
    if Lost(ops[0]) && !SafeAfter(false, ops[1..]) {
      t := Joins(s0, s, env, ops, PORT);
      t := Abandons150(s0, t, env, ops);
      t := SendsToNobody(s0, t, env, ops[1..]);
      t := UnsafeRestSticks(s0, t, env, ops[1..], 226);
    } else {
      t := PassInStep(s0, s, env, ops);
      t := UnsafeScriptSticks(s0, t, env, ops[1..]);
    }
  }

  ghost predicate CanStick(s0: State, env: Env) { exists t: State :: From(s0, env, t) && Stuck(t, env) }

  // The session accepts for ever.
  ghost predicate CanHang(s0: State, env: Env) {
    exists t: State :: From(s0, env, t) && Stuck(t, env) && t.serving.Opening?
  }

  lemma UnsafeScriptHangs(s0: State, env: Env)
    requires Initial(s0, env) && !SafeScript(s0.ops)
    ensures CanHang(s0, env)
  {
    hide Initial, At, SafeScript, From, Stuck, Sendable;
    StartsAt(s0, env);
    var t := UnsafeScriptSticks(s0, s0, env, s0.ops);
    assert From(s0, env, t) && Stuck(t, env) && t.serving.Opening?;
  }

  /** From a login, a script in which two commands in a row fit in one receive can get stuck, and then with the
      session left accepting, if and only if it is not safe: if, after a download the session may promise data
      and whose local file cannot be created, a data operation with an acceptable name follows another data
      operation. */
  lemma ScriptSticksIff(s0: State, env: Env)
    requires Initial(s0, env) && env.capacity >= 1 && Roomy(0, s0.ops)
    ensures CanStick(s0, env) <==> !SafeScript(s0.ops)
    ensures CanHang(s0, env) <==> !SafeScript(s0.ops)
  {
    hide Initial, SafeScript, From, Stuck, Roomy;
    if !SafeScript(s0.ops) {
      UnsafeScriptHangs(s0, env);
    } else {
      forall t: State | From(s0, env, t) ensures !Stuck(t, env) { SafeNeverSticks(s0, env, t); }
    }
  }

  lemma StartsAt(s0: State, env: Env)
    requires Initial(s0, env)
    ensures At(s0, s0, env, s0.ops, Begin, [], [], Idle) && s0.sync == InStep && AllSendable(s0.ops)
  {
    hide From, LegalRun, After, S.Inv, Sendable, ReplyLines.PlainBelow;
    FromStart(s0, env);
  }

  lemma SafeNeverSticks(s0: State, env: Env, t: State)
    requires Initial(s0, env) && SafeScript(s0.ops) && Roomy(0, s0.ops) && env.capacity >= 1 && From(s0, env, t)
    ensures !Stuck(t, env)
  {
    hide Initial, LegalRun, After, SafeScript, Roomy, Safe;
    StartsSafe(s0, env);
    var actions: seq<Action> :| LegalRun(s0, env, actions) && t == After(s0, env, actions);
    SafeRun(s0, env, actions);
    if !Finished(t) { SafeMoves(t, env); }
  }

  // ---------------------------------------------------------------- two commands too long for one receive

  // A receive cuts the second line before its last six characters.
  lemma CutLines(dir: string)
    requires |dir| == 500
    ensures var commands := [Line("CWD", dir), Line("MKD", "aaaPASV")];
            |Taken(commands, 2)| > S.MAX_CMD_LENGTH && LeftOver(commands, 2) == [PASSIVE]
  {
    var a, b := Line("CWD", dir), Line("MKD", "aaaPASV");
    var commands := [a, b];
    assert commands[..2] == commands && commands[1..] == [b] && [b][1..] == [] && commands[2..] == [];
    assert Joined([b]) == b + Joined([]) == b && Joined(commands) == a + Joined([b]);
    assert b[7..] == PASSIVE;
    assert (a + b)[RECEIVE_SIZE..] == b[7..];
    assert [PASSIVE] + commands[2..] == [PASSIVE];
  }

  lemma LongLinesCut(s0: State, s: State, env: Env, ops: seq<Op>, dir: string) returns (t: State)
    requires At(s0, s, env, ops, Begin, [], [226], Idle) && |dir| == 500
    requires ops == [Cd(dir), Mkdir("aaaPASV"), List]
    ensures At(s0, t, env, ops[1..], ReadOnly, [PASSIVE], [500], Idle)
  {
    hide S.Inv, ReplyLines.PlainBelow, From, ServerNext, ServerLegal, Line, Client.Heard, Client.Plain;
    t := Go(s0, s, env, Client(true, 0));
    t := Go(s0, t, env, Client(true, 0));
    t := Go(s0, t, env, Client(true, 0));
    assert t.commands == [Line("CWD", dir), Line("MKD", "aaaPASV")];
    CutLines(dir);
    t := TooLong(s0, t, env);
  }

  lemma TooLong(s0: State, s: State, env: Env) returns (t: State)
    requires From(s0, env, s) && SessionReady(s, env) && s.serving.Idle? && |s.commands| >= 2
    requires |Taken(s.commands, 2)| > S.MAX_CMD_LENGTH
    ensures From(s0, env, t) && SessionReady(t, env)
    ensures t == s.(commands := LeftOver(s.commands, 2), served := t.served, replies := t.replies)
    ensures |t.replies| == |s.replies| + 1 && t.replies[..|s.replies|] == s.replies
    ensures t.replies[|s.replies|].reply.code == 500
  {
    hide S.Inv, ReplyLines.PlainBelow, From, Client.Heard, Client.Plain, Taken, LeftOver, S.Parse, S.Clean, S.Dispatch;
    TooLongText();
    Client.HeardWhole(S.Reply(500, "Command too long"));
    t := Go(s0, s, env, Server(Outside(S.NoListener), [], Goes, 2));
  }

  lemma TooLongText()
    ensures Client.Plain("Command too long")
  {
  }

  /** Without room for two commands in one receive a safe script can get stuck: a receive takes 513 bytes of a
      long CWD and a MKD and answers 500; the rest of the directory's name is then taken for a PASV, whose 227
      the listing takes for its own. */
  lemma LongLinesStick(s0: State, env: Env, file: string, dir: string)
    requires Initial(s0, env) && |dir| == 500 && S.SafeFilename(file)
    requires s0.ops == [Download(file, false), Cd(dir), Mkdir("aaaPASV"), List]
    ensures SafeScript(s0.ops) && !Roomy(0, s0.ops) && CanHang(s0, env)
  {
    hide Initial, At, SafeScript, Roomy, Sendable, From, Stuck;
    StartsAt(s0, env);
    LongScript(file, dir);
    assert Sendable(s0.ops[0]);
    var t := LongLinesRun(s0, env, s0.ops, dir);
  }

  lemma LongScript(file: string, dir: string)
    requires |dir| == 500
    ensures var ops := [Download(file, false), Cd(dir), Mkdir("aaaPASV"), List];
            SafeScript(ops) && !Roomy(0, ops)
  {
    hide S.SafeFilename;
    var ops := [Download(file, false), Cd(dir), Mkdir("aaaPASV"), List];
    var rest := ops[1..];
    assert rest == [Cd(dir), Mkdir("aaaPASV"), List] && rest[1..] == [Mkdir("aaaPASV"), List];
    assert rest[1..][1..] == [List] && [List][1..] == [];
    assert SafeAfter(false, [List]) && SafeAfter(false, rest[1..]) && SafeAfter(false, rest);
    SafeAfterIsSafe(rest);
    assert |Line("CWD", dir)| == 506 && |Line("MKD", "aaaPASV")| == 13;
    assert !Roomy(|Line("CWD", dir)|, rest[1..]);
    assert !Roomy(|LineFor(ops[0], ReadFirst)|, rest);
  }

  lemma LongLinesRun(s0: State, env: Env, ops: seq<Op>, dir: string) returns (t: State)
    requires |ops| == 4 && Lost(ops[0]) && Fetches(ops[0]) && |dir| == 500
    requires ops[1..] == [Cd(dir), Mkdir("aaaPASV"), List]
    requires At(s0, s0, env, ops, Begin, [], [], Idle) && s0.sync == InStep
    ensures From(s0, env, t) && Stuck(t, env) && t.serving.Opening?
  {
    assert Fetches(List);
    hide At, Stuck, Blocked, From, Sendable, Acceptable, Address.PasvResponse;
    t := Joins(s0, s0, env, ops, PORT);
    t := Abandons150(s0, t, env, ops);
    t := SendsToNobody(s0, t, env, ops[1..]);
    t := LongLinesCut(s0, t, env, ops[1..], dir);
    assert ops[1..][1..] == [Mkdir("aaaPASV"), List] && ops[1..][1..][1..] == [List];
    t := LateOfferOnly(s0, t, env, ops[1..][1..]);
    t := TakesLateOffer(s0, t, env, [List], PORT, PORT + 1);
    t := Blocks(s0, t, env, [List]);
    t := RunsOut(s0, t, env);
  }

  // The rest of a line is taken for a PASV.
  lemma LateOfferOnly(s0: State, s: State, env: Env, ops: seq<Op>) returns (t: State)
    requires ops != [] && ops[0].Mkdir? && At(s0, s, env, ops, ReadOnly, [PASSIVE], [500], Idle)
    ensures At(s0, t, env, ops[1..], Begin, [], [227], Idle)
    ensures t.replies[0].reply == Offer(PORT) && t.listener == S.Listening(PORT) && t.passive
  {
    hide S.Inv, ReplyLines.PlainBelow, From, ServerNext, ServerLegal, PASSIVE, Address.PasvResponse;
    t := PasvTaken(s0, s, env, PORT);
    t := Go(s0, t, env, Client(true, 0));
  }

  // ---------------------------------------------------------------- a store broken off

  // The store is promised before its first byte has arrived, and the receive breaks at once.
  lemma StoreBreaks(s0: State, s: State, env: Env, ops: seq<Op>) returns (t: State)
    requires ops != [] && ops[0].Upload? && Fetches(ops[0]) && At(s0, s, env, ops, Attached, [], [], Idle)
    requires s.sync == InStep && s.passive && s.listener.Listening? && s.link == Queued && s.got == []
    ensures At(s0, t, env, ops, Pushing(ops[0].local.data), [], [226], Idle) && t.sync == InStep
    ensures t.link == Dropped && t.got == [] && t.ended == Breaks
  {
    t := StorePromised(s0, s, env, ops);
    hide S.Inv, ReplyLines.PlainBelow, LineFor, From, Sendable, Receive, Fetches;
    var step := Server(Outside(S.NoListener), [], Breaks, 0);
    t := Go(s0, t, env, step);
    t := Go(s0, t, env, step);
    t := Go(s0, t, env, step);
    t := Go(s0, t, env, step);
  }

  lemma StorePromised(s0: State, s: State, env: Env, ops: seq<Op>) returns (t: State)
    requires ops != [] && ops[0].Upload? && Fetches(ops[0]) && At(s0, s, env, ops, Attached, [], [], Idle)
    requires s.sync == InStep && s.passive && s.listener.Listening? && s.link == Queued && s.got == []
    ensures t.serving.Opening? && At(s0, t, env, ops, Pushing(ops[0].local.data), [], [], t.serving)
    ensures t.serving.storing && t.serving.works && t.sync == InStep
    ensures t.passive && t.listener.Listening? && t.link == Queued && t.got == []
  {
    hide S.Inv, ReplyLines.PlainBelow, LineFor, From, Sendable, ServerNext, ServerLegal;
    t := Go(s0, s, env, Client(true, 0));
    var final: S.Reply;
    t, final := DataTaken(s0, t, env, ops[0]);
    t := Go(s0, t, env, Client(true, 0));
  }

  /** After a broken receive the 226 says nothing: for any file but the empty one, the client can read it
      while the session has stored not a byte. */
  lemma BrokenStore(s0: State, env: Env, file: string, data: Bytes) returns (t: State)
    requires Initial(s0, env) && s0.ops == [Upload(file, Content(data))] && data != [] && Fetches(s0.ops[0])
    ensures Reachable(t, env) && t.sync == InStep && t.pc.ReadFinal? && t.ended == Breaks
    ensures t.replies != [] && t.replies[0].reply.code == 226 && t.got == [] != data
  {
    hide S.Inv, ReplyLines.PlainBelow, From, Sendable, ServerNext, ServerLegal, LineFor;
    FromStart(s0, env);
    StartsAt(s0, env);
    t := Joins(s0, s0, env, s0.ops, PORT);
    t := StoreBreaks(s0, t, env, s0.ops);
    t := Go(s0, t, env, Client(true, |data|));
    t := Go(s0, t, env, Client(true, 0));
    FromIsReachable(s0, env, t);
  }

  lemma FromIsReachable(s0: State, env: Env, t: State)
    requires Initial(s0, env) && From(s0, env, t)
    ensures Reachable(t, env)
  {
    hide Initial, LegalRun, After;
    var actions: seq<Action> :| LegalRun(s0, env, actions) && t == After(s0, env, actions);
  }
}
