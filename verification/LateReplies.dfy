/**
 Which scripts let the client take a reply for the wrong command: exactly those with a download that may be
 promised data and whose local file cannot be created, and with an operation after it that sends a command.
 */
module LateReplies {
  import opened AbandonedDownload
  import opened Lockstep
  import opened Skewed
  import ReplyLines
  import S = SessionSpec

  ghost predicate LosesStep(ops: seq<Op>) {
    exists i: nat, j: nat :: i < j < |ops| && Lost(ops[i]) && !Silent(ops[j])
  }

  // The reply the client is about to read does not answer its latest command.
  predicate Misreads(s: State) { Reads(s.pc) && s.replies != [] && s.replies[0].number != s.sent }

  ghost predicate CanMisread(s0: State, env: Env) { exists t: State :: From(s0, env, t) && Misreads(t) }

  // ---------------------------------------------------------------- only such scripts

  // What has been run of the script lost a download, unless the client is in step.
  ghost predicate Traced(ops: seq<Op>, s: State) {
    && Placed(s) && |s.ops| <= |ops| && s.ops == ops[|ops| - |s.ops|..]
    && (s.sync.InStep? || exists i: nat :: i < |ops| - |s.ops| && Lost(ops[i]))
  }

  lemma ReadPlaced(s: State)
    requires s.ops != [] && s.replies != [] && Fits(s.ops[0], s.pc) && !s.pc.Begin?
    ensures Placed(Return(ReadReply(s)))
    ensures s.pc.ReadPasv? ==> Placed(AfterPasv(s))
    ensures s.pc.ReadFirst? ==> Placed(AfterFirst(s))
    ensures s.pc.ReadFrom? ==> Placed(Send(ReadReply(s), ReadTo))
  {
    hide LineFor, Target;
  }

  lemma ClientPlaced(s: State, env: Env, connects: bool, k: nat)
    requires ClientLegal(s, env, k)
    ensures Placed(ClientNext(s, env, connects, k))
  {
    hide AfterPasv, AfterFirst, LineFor;
    if Reads(s.pc) { ReadPlaced(s); }
  }

  lemma ServerPlaced(s: State, env: Env, w: S.World, payload: Bytes, ending: Ending, k: nat)
    requires Placed(s) && ServerLegal(s, env, w, ending, k)
    ensures Placed(ServerNext(s, env, w, payload, ending, k))
  {
    hide Receive;
    if s.serving.Idle? { ReceiveShape(s, env.cfg, w, k); }
  }

  lemma StepPlaced(s: State, env: Env, a: Action)
    requires Placed(s) && Legal(s, env, a)
    ensures Placed(Next(s, env, a))
  {
    hide Placed, ClientNext, ServerNext, ClientLegal, ServerLegal;
    match a
    case Client(connects, k) => ClientPlaced(s, env, connects, k);
    case Server(w, payload, ending, k) => ServerPlaced(s, env, w, payload, ending, k);
  }

  // The client leaves step with a download it has lost, and passes on.
  lemma LeavesStep(s: State, env: Env, a: Action)
    requires Inv(s, env) && s.sync.InStep? && Legal(s, env, a)
    ensures Next(s, env, a).sync.InStep? || (s.ops != [] && Lost(s.ops[0]) && Next(s, env, a).ops == s.ops[1..])
  {
    hide InStepInv, ClientNext, ServerNext, ServerLegal;
    match a
    case Client(connects, k) =>
      ClientKeepsInv(s, env, connects, k);
      if AbandonsNow(s) { LosesDownload(s, env, connects, k); }
    case Server(w, payload, ending, k) => SyncStays(s, env, w, payload, ending, k);
  }

  lemma LosesDownload(s: State, env: Env, connects: bool, k: nat)
    requires InStepInv(s, env) && ClientLegal(s, env, k) && AbandonsNow(s)
    ensures Lost(s.ops[0]) && ClientNext(s, env, connects, k).ops == s.ops[1..]
  {
    hide Common, Together, Conserved;
    PromisedAcceptable(s);
  }

  lemma StepTraced(ops: seq<Op>, s: State, env: Env, a: Action)
    requires Traced(ops, s) && Inv(s, env) && Legal(s, env, a)
    ensures Traced(ops, Next(s, env, a)) && Inv(Next(s, env, a), env)
  {
    hide Inv, Legal, Next, Placed, Lost;
    StepKeepsInv(s, env, a);
    StepPlaced(s, env, a);
    ScriptShrinks(s, env, a);
    var t, n := Next(s, env, a), |ops| - |s.ops|;
    if s.ops != [] { assert ops[n + 1..] == s.ops[1..] && s.ops[0] == ops[n]; }
    if s.sync.InStep? { LeavesStep(s, env, a); }
    if !s.sync.InStep? {
      var i: nat :| i < n && Lost(ops[i]);
      assert i < |ops| - |t.ops| && Lost(ops[i]);
    }
  }

  lemma {:induction false} RunTraced(ops: seq<Op>, s: State, env: Env, actions: seq<Action>)
    requires Traced(ops, s) && Inv(s, env) && LegalRun(s, env, actions)
    ensures Traced(ops, After(s, env, actions)) && Inv(After(s, env, actions), env)
    decreases |actions|
  {
    hide Traced, Inv, Legal, Next;
    if actions != [] {
      StepTraced(ops, s, env, actions[0]);
      RunTraced(ops, Next(s, env, actions[0]), env, actions[1..]);
    }
  }

  lemma MisreadLoses(ops: seq<Op>, s: State, env: Env)
    requires Traced(ops, s) && Inv(s, env) && Misreads(s)
    ensures LosesStep(ops)
  {
    hide Common, Together, Conserved, OneBehind, Lost;
    var n := |ops| - |s.ops|;
    assert s.ops != [] && s.ops[0] == ops[n] && !Silent(ops[n]);
    var i: nat :| i < n && Lost(ops[i]);
    assert i < n < |ops| && Lost(ops[i]) && !Silent(ops[n]);
  }

  lemma StartsTraced(s0: State, env: Env)
    requires Initial(s0, env)
    ensures Traced(s0.ops, s0) && Inv(s0, env)
  {
    hide S.Inv, Sendable, ReplyLines.PlainBelow, Lost;
    InitialInv(s0, env);
    assert s0.ops[0..] == s0.ops;
  }

  lemma MisreadsOnlyIf(s0: State, env: Env, t: State)
    requires Initial(s0, env) && From(s0, env, t) && Misreads(t)
    ensures LosesStep(s0.ops)
  {
    hide Initial, LegalRun, After, Inv, LosesStep, Misreads, Placed;
    StartsTraced(s0, env);
    var actions: seq<Action> :| LegalRun(s0, env, actions) && t == After(s0, env, actions);
    RunTraced(s0.ops, s0, env, actions);
    MisreadLoses(s0.ops, t, env);
  }

  // ---------------------------------------------------------------- and every such script

  // Past the operations before the download that is lost.
  lemma {:induction false} ReachesLoss(s0: State, s: State, env: Env, ops: seq<Op>, i: nat) returns (t: State)
    requires AllSendable(ops) && i < |ops| && At(s0, s, env, ops, Begin, [], [], Idle) && s.sync == InStep
    ensures At(s0, t, env, ops[i..], Begin, [], [], Idle) && t.sync == InStep
    decreases i
  {
    hide At, Sendable, From;
    if i == 0 {
      assert ops[0..] == ops;
      t := s;
    } else {
      t := PassInStep(s0, s, env, ops);
      t := ReachesLoss(s0, t, env, ops[1..], i - 1);
      assert ops[1..][i - 1..] == ops[i..];
    }
  }

  lemma Loses(s0: State, s: State, env: Env, ops: seq<Op>) returns (t: State)
    requires ops != [] && Lost(ops[0]) && Sendable(ops[0]) && At(s0, s, env, ops, Begin, [], [], Idle)
    requires s.sync == InStep
    ensures At(s0, t, env, ops[1..], Begin, [], [226], Idle) && t.sync == Behind
  {
    hide At, Sendable, From, Acceptable;
    t := Joins(s0, s, env, ops, PORT);
    t := Abandons150(s0, t, env, ops);
    t := SendsToNobody(s0, t, env, ops[1..]);
  }

  // The next operation that sends a command reads the late reply.
  lemma {:induction false} ReadsLate(s0: State, s: State, env: Env, ops: seq<Op>, j: nat) returns (t: State)
    requires j < |ops| && !Silent(ops[j]) && At(s0, s, env, ops, Begin, [], [226], Idle) && s.sync == Behind
    ensures From(s0, env, t) && Reads(t.pc) && t.replies != [] && t.sync == Behind
    decreases j
  {
    if Silent(ops[0]) {
      hide At, From, Silent;
      t := PassSilent(s0, s, env, ops, [226]);
      t := ReadsLate(s0, t, env, ops[1..], j - 1);
    } else {
      hide S.Inv, ReplyLines.PlainBelow, From, LineFor;
      t := Go(s0, s, env, Client(true, 0));
    }
  }

  lemma LossMisreads(s0: State, env: Env, i: nat, j: nat) returns (t: State)
    requires Initial(s0, env) && i < j < |s0.ops| && Lost(s0.ops[i]) && !Silent(s0.ops[j])
    ensures From(s0, env, t) && Misreads(t)
  {
    hide Initial, At, Sendable, From, Reachable, Lost, Silent;
    var ops := s0.ops;
    StartsAt(s0, env);
    t := ReachesLoss(s0, s0, env, ops, i);
    t := Loses(s0, t, env, ops[i..]);
    assert ops[i..][1..] == ops[i + 1..];
    t := ReadsLate(s0, t, env, ops[i + 1..], j - i - 1);
    FromIsReachable(s0, env, t);
    ReplyIsOwnIff(t, env);
  }

  /** From a login, the client can come to read a reply that does not answer its latest command if and only if
      the script holds a download that may be promised data and whose local file cannot be created, and after
      it an operation that sends a command. */
  lemma MisreadsIff(s0: State, env: Env)
    requires Initial(s0, env)
    ensures CanMisread(s0, env) <==> LosesStep(s0.ops)
  {
    hide Initial, From, Misreads, Lost, Silent;
    if LosesStep(s0.ops) {
      var i: nat, j: nat :| i < j < |s0.ops| && Lost(s0.ops[i]) && !Silent(s0.ops[j]);
      var t := LossMisreads(s0, env, i, j);
    }
    forall t: State | From(s0, env, t) && Misreads(t) ensures LosesStep(s0.ops) { MisreadsOnlyIf(s0, env, t); }
  }
}
