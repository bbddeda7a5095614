/**
 Scripts after an abandoned download.  The client then takes every reply one command late, or is in step
 again once the session has taken two of its commands for one.  As long as it never takes the reply to a
 PASV for the reply to the next one and is then promised data, the script still comes to its end.
 */
module Skewed {
  import opened Lockstep
  import Client
  import JoinedCommands
  import ReplyLines
  import S = SessionSpec

  // ---------------------------------------------------------------- the scripts

  predicate IsData(op: Op) { op.List? || op.Download? || (op.Upload? && op.local.Content?) }

  predicate Silent(op: Op) { op.Upload? && op.local.Missing? }

  // With `offered`, the late reply may be the one to a PASV: no data operation comes next that the session
  // would promise data.
  predicate SafeAfter(offered: bool, ops: seq<Op>)
    decreases |ops|
  {
    ops == []
    || if Silent(ops[0]) then SafeAfter(offered, ops[1..])
       else if IsData(ops[0]) then !(offered && Acceptable(ops[0])) && SafeAfter(true, ops[1..])
       else SafeAfter(false, ops[1..])
  }

  // A download the session may promise data and the client cannot store.
  predicate Lost(op: Op) { op.Download? && !op.creatable && Acceptable(op) }

  // After no such download does a data operation with an acceptable name follow another data operation, with
  // at most data operations without one and uploads of missing files between them.
  predicate SafeScript(ops: seq<Op>) {
    ops == [] || ((Lost(ops[0]) ==> SafeAfter(false, ops[1..])) && SafeScript(ops[1..]))
  }

  // Where an operation waits for the replies to its first and to its last command.
  function FirstWait(op: Op): (pc: Pc)
    ensures Awaits(pc) && (!Silent(op) ==> Fits(op, pc))
  {
    if op.Rename? then ReadFrom else if IsData(op) then ReadPasv else ReadOnly
  }

  function LastWait(op: Op): (pc: Pc)
    ensures Awaits(pc) && (!Silent(op) ==> Fits(op, pc))
  {
    if op.Rename? then ReadTo else if IsData(op) then ReadFirst else ReadOnly
  }

  // Any two commands in a row fit in one receive, the first one after a command of this length.
  predicate Roomy(last: nat, ops: seq<Op>)
    decreases |ops|
  {
    ops == []
    || if Silent(ops[0]) then Roomy(last, ops[1..])
       else
         var first, end := LineFor(ops[0], FirstWait(ops[0])), LineFor(ops[0], LastWait(ops[0]));
         && last + |first| <= S.MAX_CMD_LENGTH
         && (FirstWait(ops[0]) != LastWait(ops[0]) ==> |first| + |end| <= S.MAX_CMD_LENGTH)
         && Roomy(|end|, ops[1..])
  }

  lemma {:induction false} LessOffered(ops: seq<Op>)
    requires SafeAfter(true, ops)
    ensures SafeAfter(false, ops)
  {
    if ops != [] && Silent(ops[0]) { LessOffered(ops[1..]); }
  }

  lemma {:induction false} SafeAfterIsSafe(ops: seq<Op>)
    requires SafeAfter(false, ops)
    ensures SafeScript(ops)
  {
    hide Acceptable;
    if ops != [] {
      if IsData(ops[0]) { LessOffered(ops[1..]); }
      SafeAfterIsSafe(ops[1..]);
    }
  }

  lemma {:induction false} MoreRoom(last: nat, less: nat, ops: seq<Op>)
    requires Roomy(last, ops) && less <= last
    ensures Roomy(less, ops)
  {
    hide LineFor;
    if ops != [] && Silent(ops[0]) { MoreRoom(last, less, ops[1..]); }
  }

  // ---------------------------------------------------------------- the invariant one reply behind

  const PASSIVE: string := Bare("PASV")

  // A command the client may have sent: of the data commands only those that are refused.
  ghost predicate KnownLine(line: string) {
    exists op: Op, pc: Pc ::
      Fits(op, pc) && Awaits(pc) && Sendable(op) && (pc.ReadFirst? ==> !Acceptable(op)) && line == LineFor(op, pc)
  }

  // The replies the client will still get, in order; true for those that may be a 227.
  function Due(s: State): (due: seq<bool>)
    ensures |due| == (if Between(s) then 0 else 1) + |s.replies| + |s.commands|
  {
    (if Between(s) then [] else [false])
    + seq(|s.replies|, i requires 0 <= i < |s.replies| => s.replies[i].reply.code == 227)
    + seq(|s.commands|, i requires 0 <= i < |s.commands| => s.commands[i] == PASSIVE)
  }

  predicate Owing(s: State) { Between(s) || (s.replies == [] && Busy(s, false)) }

  ghost predicate UnderWay(s: State) {
    && (forall i :: 0 <= i < |s.commands| ==> KnownLine(s.commands[i]))
    && (|s.commands| == 2 ==> |s.commands[0]| + |s.commands[1]| <= S.MAX_CMD_LENGTH)
  }

  // Each reply answers the command before the one it will be taken for.
  predicate OneLate(s: State) {
    forall i :: 0 <= i < |s.replies| ==>
      && s.replies[i].from <= s.sent + 1 + i - |Due(s)| <= s.replies[i].number
      && s.replies[i].reply.code != 150
  }

  function Pending(s: State): nat { if s.commands == [] then 0 else |s.commands[|s.commands| - 1]| }

  predicate Latest(s: State)
    requires s.ops != [] && Fits(s.ops[0], s.pc) && Awaits(s.pc)
  {
    s.commands != [] ==> s.commands[|s.commands| - 1] == LineFor(s.ops[0], s.pc)
  }

  // A data operation that has taken a late offer, and will be refused.
  predicate Misled(s: State) {
    && Between(s) && s.ops != [] && IsData(s.ops[0]) && !Acceptable(s.ops[0])
    && SafeAfter(false, s.ops) && Roomy(0, s.ops)
  }

  // An operation that waits for the reply to its first or its second command.
  predicate Asks(s: State)
    requires s.ops != [] && Fits(s.ops[0], s.pc) && Awaits(s.pc)
  {
    && |Due(s)| == 2 && !s.clientOpen && Latest(s) && (Due(s)[1] ==> s.pc.ReadPasv?)
    && (s.pc.ReadPasv? && Due(s)[0] ==> !Acceptable(s.ops[0]))
    && SafeAfter(false, s.ops) && Roomy(0, s.ops)
  }

  predicate Waits(s: State)
    requires Placed(s)
  {
    match s.pc
    case Begin => |Due(s)| == 1 && !s.clientOpen && SafeAfter(Due(s)[0], s.ops) && Roomy(Pending(s), s.ops)
    case Connecting(_) =>
      Misled(s) && |Due(s)| == 1 && !s.clientOpen && (s.commands != [] ==> s.commands == [PASSIVE])
    case Attached => Misled(s) && |Due(s)| == 1 && s.clientOpen && (s.commands != [] ==> s.commands == [PASSIVE])
    case ReadFirst =>
      Misled(s) && |Due(s)| == 2 && s.clientOpen && Latest(s) && (|s.commands| == 2 ==> s.commands[0] == PASSIVE)
    case Draining => false
    case Pushing(_) => false
    case ReadFinal => false
    case _ => Asks(s)
  }

  ghost predicate Skew(s: State, env: Env) {
    && !s.sync.InStep? && Common(s, env) && Owing(s) && UnderWay(s) && OneLate(s) && Waits(s)
    && s.put == s.got + s.wire && (s.sync.Behind? && Between(s) ==> s.replies != [])
  }

  // In step, or in step again, with a safe script.
  ghost predicate Level(s: State, env: Env) {
    !s.sync.Behind? && InStepInv(s, env) && SafeScript(s.ops) && Roomy(0, s.ops)
  }

  ghost predicate Safe(s: State, env: Env) { Level(s, env) || Skew(s, env) }

  // ---------------------------------------------------------------- how it begins

  /** It starts with the abandoned download. */
  lemma AbandonSkews(s: State, env: Env)
    requires Common(s, env) && OneBehind(s) && !s.sync.InStep? && s.pc.Begin? && s.put == s.got + s.wire
    requires SafeAfter(false, s.ops) && Roomy(0, s.ops)
    requires s.replies != [] ==> s.replies[0].from <= s.sent
    ensures Skew(s, env)
  {
    hide S.Inv, Sendable, SafeAfter, Roomy, ReplyLines.PlainBelow;
  }

  // ---------------------------------------------------------------- the session's steps

  // Nothing changes for the client but that fewer replies may be a 227 than before.
  predicate Quieter(s: State, t: State) {
    && t.pc == s.pc && t.ops == s.ops && t.sync == s.sync && t.sent == s.sent && t.clientOpen == s.clientOpen
    && t.wire == s.wire && t.put == s.put && t.got == s.got
    && |Due(t)| == |Due(s)| && (forall i :: 0 <= i < |Due(s)| ==> (Due(t)[i] ==> Due(s)[i]))
    && (t.commands == s.commands || t.commands == [] || (s.commands != [] && t.commands == s.commands[1..]))
  }

  lemma QuieterWaits(s: State, t: State, env: Env)
    requires Skew(s, env) && Quieter(s, t) && Common(t, env) && Owing(t) && OneLate(t)
    requires Between(s) ==> Between(t)
    requires s.sync.Behind? && Between(t) ==> t.replies != []
    ensures Skew(t, env)
  {
    hide S.Inv, Sendable, Due, Owing, KnownLine, SafeAfter, Roomy, LineFor, Acceptable, OneLate, ReplyLines.PlainBelow,
         Between;
    if s.pc.Begin? {
      if SafeAfter(true, s.ops) { LessOffered(s.ops); }
      MoreRoom(Pending(s), Pending(t), s.ops);
    }
  }

  // On its way to the final reply of the abandoned download.
  lemma OwedKeepsSkew(s: State, env: Env, w: S.World, payload: Bytes, ending: Ending, k: nat)
    requires Skew(s, env) && !s.serving.Idle? && ServerLegal(s, env, w, ending, k)
    ensures Skew(ServerNext(s, env, w, payload, ending, k), env)
  {
    hide S.Inv, Sendable, SafeAfter, Roomy, KnownLine, LineFor, Fits, ServerNext, ServerLegal, Owing, Acceptable,
         ReplyLines.PlainBelow, Between, Due, OneLate;
    var t := ServerNext(s, env, w, payload, ending, k);
    SkewPlaces(s, env);
    OwedShape(s, env, w, payload, ending, k);
    OwedDue(s, t);
    OwedLate(s, t);
    QuieterWaits(s, t, env);
  }

  lemma SkewPlaces(s: State, env: Env)
    requires Skew(s, env)
    ensures !s.pc.Draining? && !s.pc.Pushing? && !s.pc.ReadFinal?
    ensures |s.commands| <= |Due(s)| <= 2 && (s.clientOpen ==> Between(s))
  {
    hide S.Inv, Sendable, SafeAfter, Roomy, KnownLine, LineFor, Fits, Due, Acceptable, ReplyLines.PlainBelow;
  }

  // The final reply, if one is sent.
  predicate SendsFinal(s: State, t: State) {
    if Between(s) then Between(t) && t.replies == s.replies
    else if Between(t) then
      |t.replies| == 1 && Closes(t.replies[0].reply) && t.replies[0].from == s.served == t.replies[0].number
    else t.replies == s.replies
  }

  lemma OwedShape(s: State, env: Env, w: S.World, payload: Bytes, ending: Ending, k: nat)
    requires Owing(s) && (s.clientOpen ==> Between(s)) && !s.serving.Idle? && ServerLegal(s, env, w, ending, k)
    ensures var t := ServerNext(s, env, w, payload, ending, k);
            && Owing(t) && SendsFinal(s, t) && t.clientOpen == s.clientOpen && t.pc == s.pc && t.ops == s.ops
            && t.sync == s.sync && t.st == s.st && t.commands == s.commands && t.served == s.served
            && t.sent == s.sent && t.wire == s.wire && t.put == s.put && t.got == s.got
  {
    hide Receive;
  }

  lemma OwedDue(s: State, t: State)
    requires Owing(s) && t.commands == s.commands && SendsFinal(s, t)
    ensures Due(t) == Due(s)
  {
    if !Between(s) && Between(t) {
      assert s.replies == [];
    }
  }

  lemma OwedLate(s: State, t: State)
    requires Owing(s) && OneLate(s) && SendsFinal(s, t) && t.sent == s.sent && |Due(t)| == |Due(s)|
    requires t.commands == s.commands && s.served + |s.commands| == s.sent
    ensures OneLate(t) && (Between(t) && !Between(s) ==> t.replies != [])
  {
    hide Due;
  }

  // A reply is a 227 only if the command was a PASV.
  lemma SingleTaken(s: State, env: Env, w: S.World)
    requires Skew(s, env) && s.serving.Idle? && ServerLegal(s, env, w, Goes, 1)
    ensures var t := Receive(s, env.cfg, w, 1);
            && Common(t, env) && t.serving.Idle? && t == s.(commands := s.commands[1..], served := s.served + 1,
                 st := t.st, replies := t.replies, listener := t.listener, passive := t.passive, link := t.link)
            && |t.replies| == |s.replies| + 1 && t.replies[..|s.replies|] == s.replies
            && var last := t.replies[|s.replies|];
               && last.from == s.served + 1 == last.number && last.reply.code != 150
               && (last.reply.code == 227 ==> s.commands[0] == PASSIVE)
  {
    hide S.Turn, S.Parse, S.Clean, S.Inv, LineFor, VerbFor, Sendable, Fits, SafeAfter, Roomy, Due, Receive, Acceptable,
         ReplyLines.PlainBelow, Client.Readable, OneLate, Waits;
    assert KnownLine(s.commands[0]);
    var op: Op, pc: Pc :|
      && Fits(op, pc) && Awaits(pc) && Sendable(op) && (pc.ReadFirst? ==> !Acceptable(op))
      && s.commands[0] == LineFor(op, pc);
    Served(s.st, env.cfg, op, pc, w);
    LineParses(op, pc);
    VerbsSent(op, pc);
    ReceiveOne(s, env.cfg, w);
    if pc.ReadPasv? { PassiveLine(op); }
  }

  lemma PassiveLine(op: Op)
    requires Fits(op, ReadPasv)
    ensures LineFor(op, ReadPasv) == PASSIVE
  {
  }

  lemma SingleKeepsSkew(s: State, env: Env, w: S.World)
    requires Skew(s, env) && s.serving.Idle? && ServerLegal(s, env, w, Goes, 1)
    ensures Skew(Receive(s, env.cfg, w, 1), env)
  {
    hide S.Inv, Sendable, SafeAfter, Roomy, Receive, KnownLine, LineFor, Fits, Acceptable, ReplyLines.PlainBelow, Waits;
    SingleTaken(s, env, w);
    var t := Receive(s, env.cfg, w, 1);
    assert Due(s)[|s.replies|] == (s.commands[0] == PASSIVE);
    forall i | 0 <= i < |t.replies|
      ensures (Due(t)[i] ==> Due(s)[i]) && t.replies[i].from <= s.sent + 1 + i - |Due(s)| <= t.replies[i].number
              && t.replies[i].reply.code != 150
    {
      if i < |s.replies| { assert t.replies[i] == s.replies[i]; }
    }
    QuieterWaits(s, t, env);
  }

  lemma BothTaken(a: string, b: string)
    requires |a| + |b| <= RECEIVE_SIZE
    ensures Taken([a, b], 2) == a + b && LeftOver([a, b], 2) == []
  {
    var both := [a, b];
    assert both[..2] == both && both[1..] == [b] && [b][1..] == [];
    assert Joined([b]) == b + Joined([]) && Joined(both) == a + Joined([b]);
  }

  ghost predicate TwoUnderWay(s: State) {
    && s.serving.Idle? && s.st.phase == S.Ready && |s.commands| == 2 && s.served + 2 == s.sent && s.replies == []
    && KnownLine(s.commands[0]) && KnownLine(s.commands[1])
    && |s.commands[0]| + |s.commands[1]| <= S.MAX_CMD_LENGTH
  }

  lemma AreTwo(s: State, env: Env, w: S.World)
    requires Skew(s, env) && s.serving.Idle? && ServerLegal(s, env, w, Goes, 2)
    ensures TwoUnderWay(s) && |Due(s)| == 2 && !w.isDirectory
  {
    hide S.Inv, Sendable, SafeAfter, Roomy, KnownLine, LineFor, Fits, Acceptable, ReplyLines.PlainBelow, Due;
  }

  // A receive that takes both commands under way: they are refused, in one line or in two.
  lemma BothRefused(s: State, cfg: S.Config, w: S.World)
    requires TwoUnderWay(s) && !w.isDirectory
    ensures var t := Receive(s, cfg, w, 2);
            && t == s.(commands := [], served := s.sent, replies := t.replies)
            && 1 <= |t.replies| <= 2 && (s.commands[0] == PASSIVE ==> |t.replies| == 2)
            && forall i :: 0 <= i < |t.replies| ==>
                 t.replies[i].from == s.sent - 1 && t.replies[i].number == s.sent && Closes(t.replies[i].reply)
  {
    hide S.Turn, S.Parse, S.Clean, LineFor, Sendable, Fits, Acceptable, Client.Heard, Taken, LeftOver, PASSIVE, Awaits,
         Receive;
    var op: Op, pc: Pc :| Fits(op, pc) && Awaits(pc) && Sendable(op) && s.commands[0] == LineFor(op, pc);
    var next: Op, after: Pc :|
      Fits(next, after) && Awaits(after) && Sendable(next) && s.commands[1] == LineFor(next, after);
    assert s.commands == [s.commands[0], s.commands[1]];
    BothTaken(s.commands[0], s.commands[1]);
    JoinedCommands.JoinedTurn(s.st, cfg, op, pc, next, after, w);
    NamesPasv(op, pc);
    RefusedHandled(s, cfg, w);
  }

  lemma RefusedHandled(s: State, cfg: S.Config, w: S.World)
    requires |s.commands| == 2 && s.served + 2 == s.sent && s.st.phase == S.Ready && s.serving.Idle?
    requires Taken(s.commands, 2) == s.commands[0] + s.commands[1] && LeftOver(s.commands, 2) == []
    requires JoinedCommands.Refused(s.st, S.Turn(s.st, cfg, s.commands[0] + s.commands[1], w))
    requires var v := S.Parse(S.Clean(s.commands[0] + s.commands[1])).verb; v != S.PASV && v != S.PORT
    ensures var t, o := Receive(s, cfg, w, 2), S.Turn(s.st, cfg, s.commands[0] + s.commands[1], w);
            && t == s.(commands := [], served := s.sent, replies := t.replies)
            && t.replies == s.replies + NumberAll(s.sent - 1, s.sent, Client.Heard(o.replies[0]))
  {
    hide S.Turn, S.Parse, S.Clean, Taken, LeftOver, Client.Heard;
  }

  lemma NamesPasv(op: Op, pc: Pc)
    requires Fits(op, pc) && Awaits(pc)
    ensures LineFor(op, pc) == PASSIVE <==> pc.ReadPasv?
  {
    if pc.ReadPasv? { PassiveLine(op); } else { OtherLine(op, pc); }
  }

  lemma OtherLine(op: Op, pc: Pc)
    requires Fits(op, pc) && Awaits(pc) && !pc.ReadPasv?
    ensures LineFor(op, pc) != PASSIVE
  {
    var line := LineFor(op, pc);
    assert PASSIVE[0] == 'P' && PASSIVE[1] == 'A';
    assert line[0] != 'P' || line[1] == 'W';
  }

  // Two lines keep the client one reply behind, and one brings it in step again.
  lemma BothKeepSafe(s: State, env: Env, w: S.World)
    requires Skew(s, env) && s.serving.Idle? && ServerLegal(s, env, w, Goes, 2)
    ensures Safe(Receive(s, env.cfg, w, 2), env)
  {
    hide S.Inv, Sendable, SafeAfter, Roomy, Receive, KnownLine, LineFor, Fits, Acceptable, ReplyLines.PlainBelow, Waits,
         Level, Skew;
    AreTwo(s, env, w);
    BothRefused(s, env.cfg, w);
    var t := Receive(s, env.cfg, w, 2);
    if |t.replies| == 2 { TwoLinesKeep(s, t, env); } else { OneLineCures(s, t, env); }
  }

  lemma TwoLinesKeep(s: State, t: State, env: Env)
    requires Skew(s, env) && s.serving.Idle? && |s.commands| == 2 && |Due(s)| == 2
    requires t == s.(commands := [], served := s.sent, replies := t.replies) && |t.replies| == 2
    requires forall i :: 0 <= i < |t.replies| ==>
               t.replies[i].from == s.sent - 1 && t.replies[i].number == s.sent && Closes(t.replies[i].reply)
    ensures Skew(t, env)
  {
    hide S.Inv, Sendable, SafeAfter, Roomy, KnownLine, LineFor, Fits, Acceptable, ReplyLines.PlainBelow, Waits;
    QuieterWaits(s, t, env);
  }

  lemma OneLineCures(s: State, t: State, env: Env)
    requires Skew(s, env) && s.serving.Idle? && |s.commands| == 2 && |Due(s)| == 2 && s.commands[0] != PASSIVE
    requires t == s.(commands := [], served := s.sent, replies := t.replies) && |t.replies| == 1
    requires t.replies[0].from <= t.replies[0].number == s.sent && Closes(t.replies[0].reply)
    ensures Level(t, env)
  {
    hide S.Inv, Sendable, SafeAfter, Roomy, KnownLine, LineFor, Acceptable, ReplyLines.PlainBelow, PASSIVE, SafeScript;
    SafeAfterIsSafe(s.ops);
  }

  lemma ServerKeepsSafe(s: State, env: Env, w: S.World, payload: Bytes, ending: Ending, k: nat)
    requires Skew(s, env) && ServerLegal(s, env, w, ending, k)
    ensures Safe(ServerNext(s, env, w, payload, ending, k), env)
  {
    hide Skew, Level, Receive, LeftOver;
    if s.serving.Idle? {
      SkewPlaces(s, env);
      if k == 1 { SingleKeepsSkew(s, env, w); } else { BothKeepSafe(s, env, w); }
    } else {
      OwedKeepsSkew(s, env, w, payload, ending, k);
    }
  }

  // ---------------------------------------------------------------- the client's steps

  lemma SentDue(s: State, pc: Pc)
    requires s.ops != [] && Fits(s.ops[0], pc) && Awaits(pc)
    ensures Due(Send(s, pc)) == Due(s) + [pc.ReadPasv?]
  {
    hide LineFor, PASSIVE;
    NamesPasv(s.ops[0], pc);
  }

  // A send of another command: the one before it, if still under way, is not too long.
  lemma SendUnderWay(s: State, env: Env, pc: Pc)
    requires Common(s, env) && UnderWay(s) && OneLate(s) && |s.commands| <= 1
    requires s.ops != [] && Fits(s.ops[0], pc) && Awaits(pc) && (pc.ReadFirst? ==> !Acceptable(s.ops[0]))
    requires Pending(s) + |LineFor(s.ops[0], pc)| <= S.MAX_CMD_LENGTH
    ensures var t := Send(s, pc); Common(t, env) && UnderWay(t) && OneLate(t) && t.commands != []
    ensures var t := Send(s, pc); t.commands[|t.commands| - 1] == LineFor(s.ops[0], pc)
  {
    SentDue(s, pc);
    assert Sendable(s.ops[0]) && KnownLine(LineFor(s.ops[0], pc));
    hide S.Inv, Sendable, LineFor, Fits, Due, KnownLine, ReplyLines.PlainBelow;
  }

  lemma BeginKeepsSkew(s: State, env: Env)
    requires Skew(s, env) && s.pc.Begin? && s.ops != [] && !Silent(s.ops[0])
    ensures Skew(Send(s, FirstWait(s.ops[0])), env)
  {
    var op, pc := s.ops[0], FirstWait(s.ops[0]);
    SentDue(s, pc);
    SafeNow(Due(s)[0], s.ops);
    MoreRoom(Pending(s), 0, s.ops);
    SendUnderWay(s, env, pc);
    hide S.Inv, Sendable, LineFor, Fits, Due, SafeAfter, Roomy, KnownLine, Acceptable, ReplyLines.PlainBelow,
         UnderWay, OneLate, Common, Silent;
  }

  lemma SafeNow(offered: bool, ops: seq<Op>)
    requires SafeAfter(offered, ops)
    ensures SafeAfter(false, ops)
    ensures ops != [] && IsData(ops[0]) && offered ==> !Acceptable(ops[0])
  {
    if offered { LessOffered(ops); }
  }

  // What is left of a script once its first operation is over.
  lemma RestOfScript(ops: seq<Op>, offered: bool, last: nat)
    requires SafeAfter(false, ops) && Roomy(0, ops) && ops != [] && !Silent(ops[0])
    requires offered ==> IsData(ops[0])
    requires last <= |LineFor(ops[0], LastWait(ops[0]))|
    ensures SafeAfter(offered, ops[1..]) && Roomy(last, ops[1..])
  {
    hide LineFor, Acceptable;
    if IsData(ops[0]) { LessOffered(ops[1..]); }
    MoreRoom(|LineFor(ops[0], LastWait(ops[0]))|, last, ops[1..]);
  }

  lemma PassiveShort(op: Op)
    requires IsData(op)
    ensures LineFor(op, ReadPasv) == PASSIVE && |PASSIVE| <= |LineFor(op, ReadFirst)|
  {
  }

  // Reading takes the first reply that is due.
  lemma ReadTakesFirst(s: State, env: Env)
    requires Skew(s, env) && Reads(s.pc) && s.replies != []
    ensures Between(s) && |Due(s)| == 2 && Due(ReadReply(s)) == [Due(s)[1]] && OneLate(ReadReply(s))
    ensures Due(s)[0] == (s.replies[0].reply.code == 227) && s.replies[0].reply.code != 150
  {
    hide S.Inv, Sendable, LineFor, Fits, SafeAfter, Roomy, KnownLine, Acceptable, ReplyLines.PlainBelow;
    assert Due(ReadReply(s)) == Due(s)[1..];
  }

  // The operation in which the client waits.
  lemma WaitingOp(s: State, env: Env)
    requires Skew(s, env) && Reads(s.pc) && s.replies != []
    ensures s.ops != [] && Fits(s.ops[0], s.pc) && Awaits(s.pc) && !Silent(s.ops[0]) && |s.commands| <= 1
    ensures SafeAfter(false, s.ops) && Roomy(0, s.ops) && Latest(s) && |Due(s)| == 2
    ensures Due(s)[1] ==> s.pc.ReadPasv? || s.pc.ReadFirst?
    ensures (s.pc.ReadPasv? || s.pc.ReadFirst?) ==> IsData(s.ops[0])
    ensures s.pc.ReadFirst? ==> !s.ops[0].List?
    ensures s.pc.ReadFrom? <==> s.ops[0].Rename? && s.pc != LastWait(s.ops[0])
  {
    hide S.Inv, Sendable, LineFor, SafeAfter, Roomy, KnownLine, S.SafeFilename, ReplyLines.PlainBelow, Due;
  }

  lemma ReturnKeepsSkew(s: State, env: Env)
    requires Skew(s, env) && Reads(s.pc) && !s.pc.ReadFrom? && s.replies != []
    ensures Skew(Return(ReadReply(s)), env)
  {
    hide S.Inv, Sendable, LineFor, Fits, SafeAfter, Roomy, KnownLine, Due, Acceptable, ReplyLines.PlainBelow, PASSIVE,
         Owing, UnderWay, OneLate, Between, LastWait, IsData, Silent;
    ReadTakesFirst(s, env);
    WaitingOp(s, env);
    LastRoom(s);
    RestOfScript(s.ops, Due(s)[1], Pending(s));
    ReadCommon(s, env);
    SameDue(ReadReply(s), Return(ReadReply(s)));
  }

  lemma LastRoom(s: State)
    requires s.ops != [] && Fits(s.ops[0], s.pc) && Awaits(s.pc) && Latest(s) && !s.pc.ReadFrom?
    ensures Pending(s) <= |LineFor(s.ops[0], LastWait(s.ops[0]))|
  {
    hide LineFor, PASSIVE;
    if s.pc.ReadPasv? { PassiveShort(s.ops[0]); }
  }

  lemma RenameKeepsSkew(s: State, env: Env)
    requires Skew(s, env) && s.pc.ReadFrom? && s.replies != []
    ensures Skew(Send(ReadReply(s), ReadTo), env)
  {
    ReadTakesFirst(s, env);
    WaitingOp(s, env);
    var r := ReadReply(s);
    RenameRoom(s);
    ReadCommon(s, env);
    SentDue(r, ReadTo);
    SendUnderWay(r, env, ReadTo);
    hide S.Inv, Sendable, LineFor, Fits, SafeAfter, Roomy, KnownLine, Due, Acceptable, ReplyLines.PlainBelow, OneLate,
         UnderWay, Common;
  }

  lemma RenameRoom(s: State)
    requires s.ops != [] && s.ops[0].Rename? && s.pc.ReadFrom? && Roomy(0, s.ops) && Latest(s)
    ensures Pending(s) + |LineFor(s.ops[0], ReadTo)| <= S.MAX_CMD_LENGTH
  {
    hide LineFor;
  }

  lemma ReadCommon(s: State, env: Env)
    requires Common(s, env) && UnderWay(s) && s.replies != []
    ensures Common(ReadReply(s), env) && UnderWay(ReadReply(s))
  {
    hide S.Inv, Sendable, Fits, KnownLine, ReplyLines.PlainBelow;
  }

  // A late offer taken for the answer to the PASV of an operation that will be refused.
  lemma OfferKeepsSkew(s: State, env: Env)
    requires Skew(s, env) && s.pc.ReadPasv? && s.replies != [] && s.replies[0].reply.code == 227
    ensures Skew(AfterPasv(s), env)
  {
    hide S.Inv, Sendable, LineFor, SafeAfter, Roomy, KnownLine, Due, Acceptable, ReplyLines.PlainBelow, PASSIVE, Owing,
         UnderWay, OneLate, Between, Target;
    ReadTakesFirst(s, env);
    WaitingOp(s, env);
    PassiveShort(s.ops[0]);
    ReadCommon(s, env);
    SameDue(ReadReply(s), AfterPasv(s));
  }

  lemma ConnectKeepsSkew(s: State, env: Env, connects: bool)
    requires Skew(s, env) && s.pc.Connecting?
    ensures Skew(Connect(s, connects), env)
  {
    hide S.Inv, Sendable, LineFor, SafeAfter, Roomy, KnownLine, Due, Acceptable, ReplyLines.PlainBelow, PASSIVE, Owing,
         UnderWay, OneLate;
    var t := Connect(s, connects);
    SameDue(s, t);
    if t.pc.Begin? {
      PassiveShort(s.ops[0]);
      RestOfScript(s.ops, Due(s)[0], Pending(s));
    }
  }

  lemma SameDue(s: State, t: State)
    requires t.commands == s.commands && t.replies == s.replies && t.serving == s.serving && t.sent == s.sent
    requires Between(s)
    ensures Due(t) == Due(s) && (OneLate(s) ==> OneLate(t)) && (UnderWay(s) ==> UnderWay(t)) && Owing(t)
  {
    hide KnownLine;
  }

  lemma RequestKeepsSkew(s: State, env: Env)
    requires Skew(s, env) && s.pc.Attached?
    ensures Skew(Send(s, ReadFirst), env)
  {
    PassiveShort(s.ops[0]);
    RequestRoom(s);
    SentDue(s, ReadFirst);
    SendUnderWay(s, env, ReadFirst);
    hide S.Inv, Sendable, LineFor, SafeAfter, Roomy, KnownLine, Due, Acceptable, ReplyLines.PlainBelow, OneLate,
         UnderWay, Common, PASSIVE;
  }

  lemma RequestRoom(s: State)
    requires Misled(s) && (s.commands != [] ==> s.commands == [PASSIVE])
    ensures Pending(s) + |LineFor(s.ops[0], ReadFirst)| <= S.MAX_CMD_LENGTH
  {
    hide LineFor, PASSIVE;
    PassiveShort(s.ops[0]);
  }

  lemma SilentKeepsSkew(s: State, env: Env)
    requires Skew(s, env) && s.pc.Begin? && s.ops != [] && Silent(s.ops[0])
    ensures Skew(Return(s), env)
  {
    hide S.Inv, Sendable, LineFor, KnownLine, Acceptable, ReplyLines.PlainBelow;
    assert Due(Return(s)) == Due(s);
  }

  lemma ClientKeepsSkew(s: State, env: Env, connects: bool, k: nat)
    requires Skew(s, env) && ClientLegal(s, env, k)
    ensures Skew(ClientNext(s, env, connects, k), env)
  {
    SkewPlaces(s, env);
    hide Return, ReadReply, Send, LineFor, Skew, Connect, Target;
    match s.pc
    case Begin => if Silent(s.ops[0]) { SilentKeepsSkew(s, env); } else { BeginKeepsSkew(s, env); }
    case ReadFrom => RenameKeepsSkew(s, env);
    case ReadPasv =>
      if s.replies[0].reply.code == 227 { OfferKeepsSkew(s, env); } else { ReturnKeepsSkew(s, env); }
    case Connecting(_) => ConnectKeepsSkew(s, env, connects);
    case Attached => RequestKeepsSkew(s, env);
    case ReadFirst => ReadTakesFirst(s, env); WaitingOp(s, env); ReturnKeepsSkew(s, env);
    case _ => ReturnKeepsSkew(s, env);
  }

  /** One reply behind with a safe rest of the script, every legal step keeps it so, or brings the client in
      step again. */
  lemma StepKeepsSkew(s: State, env: Env, a: Action)
    requires Skew(s, env) && Legal(s, env, a)
    ensures Safe(Next(s, env, a), env)
  {
    hide Skew, Level, ClientNext, ServerNext, ClientLegal, ServerLegal;
    match a
    case Client(connects, k) => ClientKeepsSkew(s, env, connects, k);
    case Server(w, payload, ending, k) => ServerKeepsSafe(s, env, w, payload, ending, k);
  }

  // ---------------------------------------------------------------- in step

  lemma SafeShrinks(ops: seq<Op>)
    requires SafeScript(ops) && Roomy(0, ops) && ops != []
    ensures SafeScript(ops[1..]) && Roomy(0, ops[1..])
  {
    hide LineFor, Lost;
    if !Silent(ops[0]) { MoreRoom(|LineFor(ops[0], LastWait(ops[0]))|, 0, ops[1..]); }
  }

  lemma LevelStays(s: State, env: Env, a: Action)
    requires Level(s, env) && Legal(s, env, a) && !(a.Client? && AbandonsNow(s))
    ensures Level(Next(s, env, a), env)
  {
    hide InStepInv, ClientNext, ServerNext, ClientLegal, ServerLegal, SafeScript, Roomy;
    ScriptShrinks(s, env, a);
    if Next(s, env, a).ops != s.ops { SafeShrinks(s.ops); }
    match a
    case Client(connects, k) =>
      ClientKeepsStep(s, env, connects, k);
      NotAbandoned(s, env, connects, k);
    case Server(w, payload, ending, k) =>
      ServerKeepsStep(s, env, w, payload, ending, k);
      SyncStays(s, env, w, payload, ending, k);
  }

  lemma NotAbandoned(s: State, env: Env, connects: bool, k: nat)
    requires ClientLegal(s, env, k) && !AbandonsNow(s) && !s.sync.Behind?
    ensures ClientNext(s, env, connects, k).sync == s.sync
  {
    hide ClientNext;
    ClientSync(s, env, connects, k);
  }

  lemma AbandonedSafely(s: State, env: Env, connects: bool, k: nat)
    requires Level(s, env) && ClientLegal(s, env, k) && AbandonsNow(s)
    ensures Skew(ClientNext(s, env, connects, k), env)
  {
    PromisedAcceptable(s);
    SafeShrinks(s.ops);
    hide S.Inv, Sendable, LineFor, Together, OneBehind, Common, SafeScript, SafeAfter, Roomy, Skew, Acceptable;
    FirstKeeps(s, env);
    AbandonSkews(AfterFirst(s), env);
  }

  lemma PromisedAcceptable(s: State)
    requires Together(s) && AbandonsNow(s)
    ensures Lost(s.ops[0])
  {
    hide LineFor, Acceptable;
  }

  lemma SafeStays(s: State, env: Env, a: Action)
    requires Safe(s, env) && Legal(s, env, a)
    ensures Safe(Next(s, env, a), env)
  {
    hide Skew, Level, ClientLegal, ServerLegal, ClientNext, ServerNext;
    if Skew(s, env) {
      StepKeepsSkew(s, env, a);
    } else if a.Client? && AbandonsNow(s) {
      AbandonedSafely(s, env, a.connects, a.k);
    } else {
      LevelStays(s, env, a);
    }
  }

  // ---------------------------------------------------------------- every run of a safe script

  lemma {:induction false} SafeRun(s: State, env: Env, actions: seq<Action>)
    requires Safe(s, env) && LegalRun(s, env, actions)
    ensures Safe(After(s, env, actions), env)
    decreases |actions|
  {
    hide Safe, Legal, Next;
    if actions != [] {
      SafeStays(s, env, actions[0]);
      SafeRun(Next(s, env, actions[0]), env, actions[1..]);
    }
  }

  lemma StartsSafe(s: State, env: Env)
    requires Initial(s, env) && SafeScript(s.ops) && Roomy(0, s.ops)
    ensures Safe(s, env)
  {
    hide Sendable, S.Inv, Roomy, SafeScript, ReplyLines.PlainBelow;
    InitialInv(s, env);
  }

  /** The client is never more than one command late: whatever reply it is about to read in a run of a safe
      script answers its latest command or the one before. */
  lemma NeverTwoLate(s0: State, env: Env, actions: seq<Action>)
    requires Initial(s0, env) && SafeScript(s0.ops) && Roomy(0, s0.ops) && LegalRun(s0, env, actions)
    ensures var s := After(s0, env, actions);
            Reads(s.pc) && s.replies != [] ==>
              s.replies[0].number == s.sent || s.replies[0].from <= s.sent - 1 <= s.replies[0].number
  {
    hide Initial, LegalRun, After, Safe, SafeScript, Roomy;
    StartsSafe(s0, env);
    SafeRun(s0, env, actions);
    var s := After(s0, env, actions);
    if Reads(s.pc) && s.replies != [] { LateByOne(s, env); }
  }

  lemma LateByOne(s: State, env: Env)
    requires Safe(s, env) && Reads(s.pc) && s.replies != []
    ensures s.replies[0].number == s.sent || s.replies[0].from <= s.sent - 1 <= s.replies[0].number
  {
    hide S.Inv, Sendable, LineFor, SafeAfter, Roomy, KnownLine, Acceptable, ReplyLines.PlainBelow, Due, Together,
         Conserved, SafeScript;
    if Skew(s, env) { WaitingOp(s, env); }
  }

  // ---------------------------------------------------------------- and the script is finished

  lemma SkewMoves(s: State, env: Env)
    requires Skew(s, env) && !Finished(s)
    ensures CanMove(s, env)
  {
    hide S.Inv, Sendable, LineFor, KnownLine, SafeAfter, Roomy, CanMove, Acceptable, ReplyLines.PlainBelow;
    match s.serving
    case Opening(_, _, _) => ServerMoves(s, env, 0);
    case Finishing(_) => ServerMoves(s, env, 0);
    case Closing => ServerMoves(s, env, 0);
    case Sending(_, rest) => SkewPlaces(s, env); ServerMoves(s, env, if rest == [] then 0 else 1);
    case Idle =>
      if s.commands != [] { ServerMoves(s, env, 1); } else { ClientMoves(s, env, 0); }
  }

  lemma SafeMoves(s: State, env: Env)
    requires Safe(s, env) && env.capacity >= 1 && !Finished(s)
    ensures CanMove(s, env)
  {
    hide Skew, InStepInv, CanMove, Finished, SafeScript, Roomy;
    if Skew(s, env) { SkewMoves(s, env); } else { StepMoves(s, env); }
  }

  /** Every maximal run of a safe script in which two commands in a row fit in one receive reaches its end: no
      schedule, no way the session's receives cut the client's commands and no fault of the network or the
      file system keeps it from doing so. */
  lemma {:induction false} SafeScriptFinishes(run: nat -> State, env: Env, i: nat)
    requires Safe(run(i), env) && env.capacity >= 1 && Maximal(run, env)
    ensures exists j: nat :: j >= i && Finished(run(j)) && Safe(run(j), env)
    decreases ClientRank(run(i)), Unreceived(run(i)), ServingRank(run(i).serving), Minor(run(i))
  {
    hide ClientRank, Unreceived, ServingRank, Minor, Legal, Next, Safe, CanMove, Finished;
    if !Finished(run(i)) {
      SafeMoves(run(i), env);
      assert Steps(run(i), env, run(i + 1));
      var a: Action :| Legal(run(i), env, a) && run(i + 1) == Next(run(i), env, a);
      StepFalls(run(i), env, a);
      SafeStays(run(i), env, a);
      SafeScriptFinishes(run, env, i + 1);
    }
  }
}
