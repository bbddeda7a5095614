/**
 What the session makes of two commands of the client that one receive takes together: the first one with a
 broken argument or name, refused in one line or in two.
 */
module JoinedCommands {
  import opened Lockstep
  import Client
  import Decimal
  import ReplyLines
  import S = SessionSpec
  import SessionPaths

  // ---------------------------------------------------------------- the two lines

  // A command without its line end: no blank in front, and not the start of a multi-line reply.
  predicate CommandText(text: string) {
    Client.Plain(text) && |text| >= 3 && 'A' <= text[0] <= 'Z' && !Client.Opens(text)
  }

  lemma NameLength(op: Op, pc: Pc)
    requires Fits(op, pc) && Awaits(pc)
    ensures |NameFor(op, pc)| >= 3
  {
  }

  lemma TextOfLine(op: Op, pc: Pc) returns (text: string)
    requires Fits(op, pc) && Awaits(pc) && Sendable(op)
    ensures LineFor(op, pc) == text + "\r\n" && CommandText(text)
  {
    hide LineFor, NameFor, Sendable, Fits, S.VerbOf, VerbFor;
    NameIs(op, pc);
    NameLength(op, pc);
    var arg := LineOfName(op, pc);
    var name := NameFor(op, pc);
    text := if LineFor(op, pc) == Line(name, arg) then name + " " + arg else name;
    NamedText(name, arg);
  }

  lemma NamedText(name: string, arg: string)
    requires S.IsName(name) && |name| >= 3 && '\r' !in arg && '\n' !in arg
    ensures CommandText(name + " " + arg) && CommandText(name)
  {
  }

  lemma CleanJoined(line: string, text: string)
    requires line != "" && line[0] != ' ' && line[0] != '\t' && CommandText(text)
    ensures S.Clean(line + (text + "\r\n")) == line + text
  {
    S.StripEndIs(line + text, "\r\n");
    assert line + (text + "\r\n") == line + text + "\r\n";
  }

  lemma LineJoined(name: string, arg: string, text: string)
    requires S.IsName(name) && CommandText(text)
    ensures S.Parse(S.Clean(Line(name, arg) + (text + "\r\n")))
            == S.Command(S.VerbOf(name), arg + "\r\n" + text)
    ensures S.Clean(Line(name, arg) + (text + "\r\n")) != ""
  {
    hide S.VerbOf, S.Clean, CommandText;
    CleanJoined(Line(name, arg), text);
    var cmd := Line(name, arg) + text;
    assert S.Upper(name) == name;
    S.FirstSpaceIs(cmd, |name|);
    assert cmd[..|name|] == name && cmd[|name| + 1..] == arg + "\r\n" + text;
  }

  lemma BareJoined(name: string, text: string)
    requires S.IsName(name) && CommandText(text)
    ensures S.Parse(S.Clean(Bare(name) + (text + "\r\n"))).verb == S.Unknown(name + "\r\n" + Word(text))
    ensures S.Clean(Bare(name) + (text + "\r\n")) != ""
  {
    hide S.VerbOf, S.Clean, CommandText;
    CleanJoined(Bare(name), text);
    var cmd, i := Bare(name) + text, |name| + 2 + S.FirstSpace(text);
    assert S.FirstSpace(cmd) == i by { SpaceJoined(name, text); }
    var word := text[..S.FirstSpace(text)];
    assert cmd[..i] == name + "\r\n" + word;
    assert S.Upper(name + "\r\n" + word) == name + "\r\n" + Word(text);
    UnknownVerb(name + "\r\n" + Word(text), |name|);
    assert cmd[..|cmd|] == cmd;
  }

  // The text up to the first blank, as a verb.
  function Word(text: string): string { S.Upper(text[..S.FirstSpace(text)]) }

  lemma SpaceJoined(name: string, text: string)
    requires S.IsName(name)
    ensures S.FirstSpace(Bare(name) + text) == |name| + 2 + S.FirstSpace(text)
  {
    hide S.FirstSpace;
    var cmd, i := Bare(name) + text, |name| + 2 + S.FirstSpace(text);
    assert forall j :: 0 <= j < |text| ==> cmd[|name| + 2 + j] == text[j];
    assert forall j :: 0 <= j < i ==> cmd[j] != ' ';
    assert i < |cmd| ==> cmd[i] == ' ';
  }

  lemma UnknownVerb(name: string, i: nat)
    requires i < |name| && name[i] == '\r'
    ensures S.VerbOf(name) == S.Unknown(name)
  {
    if |name| == 3 {
      assert i == 0 || i == 1 || i == 2;
    } else if |name| == 4 {
      assert i == 0 || i == 1 || i == 2 || i == 3;
    }
  }

  // ---------------------------------------------------------------- the answer

  // One reply, heard as one line or as two, none of them an offer or a promise.
  predicate Refused(st: S.State, o: S.Outcome) {
    && o.st == st && |o.replies| == 1 && o.replies[0].Reply? && Closes(o.replies[0])
    && var heard := Client.Heard(o.replies[0]);
       1 <= |heard| <= 2 && forall i :: 0 <= i < |heard| ==> Closes(heard[i])
  }

  predicate TakesName(v: S.Verb) {
    v.CWD? || v.DELE? || v.MKD? || v.RMD? || v.RNFR? || v.RNTO? || v.RETR? || v.STOR?
  }

  lemma NoBreakInNames(arg: string, text: string)
    ensures !S.SafeFilename(arg + "\r\n" + text)
  {
    assert (arg + "\r\n" + text)[|arg|] == '\r';
  }

  lemma NameRefused(st: S.State, v: S.Verb, arg: string, text: string, w: S.World)
    requires TakesName(v) && '\r' !in arg && '\n' !in arg && CommandText(text) && !w.isDirectory
    ensures Refused(st, S.DispatchReady(st, S.Command(v, arg + "\r\n" + text), w))
  {
    hide CommandText, Refused, S.SafeFilename, S.HandleCwd, S.HandleFileCall, S.HandleRnfr, S.HandleRnto,
         S.HandleTransfer, SessionPaths.Pwd, S.HandlePasv, S.HandlePort, S.HandleListing, SessionPaths.Cdup;
    var name := arg + "\r\n" + text;
    if v.CWD? {
      DirectoryRefused(st, arg, text, w);
    } else {
      NoBreakInNames(arg, text);
      FileRefused(st, name, S.Reply(250, "File deleted."), S.Reply(550, "Could not delete file."), w);
      FileRefused(st, name, S.Reply(257, "\"" + name + "\" directory created."),
                  S.Reply(550, "Could not create directory."), w);
      FileRefused(st, name, S.Reply(250, "Directory removed."), S.Reply(550, "Could not remove directory."), w);
    }
  }

  lemma FileRefused(st: S.State, name: string, yes: S.Reply, no: S.Reply, w: S.World)
    requires !S.SafeFilename(name)
    ensures Refused(st, S.HandleFileCall(st, name, yes, no, w))
    ensures Refused(st, S.HandleRnfr(st, name, w)) && Refused(st, S.HandleRnto(st, name, w))
    ensures Refused(st, S.HandleTransfer(st, false, name, w)) && Refused(st, S.HandleTransfer(st, true, name, w))
  {
    PlainlyRefused(st, 501, "Invalid filename");
    PlainlyRefused(st, 503, "Send RNFR first");
    hide Refused, S.SafeFilename, SessionPaths.Resolve, SessionPaths.WithinRoot;
  }

  lemma DirectoryRefused(st: S.State, arg: string, text: string, w: S.World)
    requires '\r' !in arg && '\n' !in arg && CommandText(text) && !w.isDirectory
    ensures Refused(st, S.HandleCwd(st, arg + "\r\n" + text, w))
  {
    PlainlyRefused(st, 550, "Permission denied");
    NotFound(st, arg, text);
    hide CommandText, Refused, SessionPaths.Resolve, SessionPaths.WithinRoot;
  }

  lemma PlainlyRefused(st: S.State, code: nat, text: string)
    requires 100 <= code < 1000 && code != 150 && code != 227
    requires text == "Invalid filename" || text == "Send RNFR first" || text == "Permission denied"
    ensures Refused(st, S.Say(st, code, text))
  {
    hide Client.Heard, Client.Plain;
    ReplyLines.PathTexts();
    ReplyLines.SourceTexts();
    Client.HeardWhole(S.Reply(code, text));
  }

  lemma NotFound(st: S.State, arg: string, text: string)
    requires '\r' !in arg && '\n' !in arg && CommandText(text)
    ensures Refused(st, S.Say(st, 550, "Directory not found: " + (arg + "\r\n" + text)))
  {
    ReplyLines.DirectoryTexts();
    ReplyLines.Concat("Directory not found: ", arg);
    var first := "Directory not found: " + arg;
    assert "Directory not found: " + (arg + "\r\n" + text) == first + "\r\n" + text;
    TwoLines(st, 550, first, text);
  }

  lemma TwoLines(st: S.State, code: nat, first: string, second: string)
    requires 100 <= code < 1000 && code != 150 && code != 227 && Client.Plain(first) && Client.Plain(second)
    requires !Client.Opens(second) && second != "" && 'A' <= second[0] <= 'Z'
    ensures var o := S.Say(st, code, first + "\r\n" + second);
            Refused(st, o) && |Client.Heard(o.replies[0])| == 2
  {
    hide Client.Heard, Client.Plain;
    Client.HeardBroken(code, first, second);
    if |second| >= 3 { assert !Decimal.IsDigit(second[..3][0]); }
  }

  lemma BareRefused(st: S.State, name: string, text: string)
    requires S.IsName(name) && CommandText(text)
    ensures var o := S.Say(st, 502, "Command not implemented: " + (name + "\r\n" + Word(text)));
            Refused(st, o) && |Client.Heard(o.replies[0])| == 2
  {
    WordOpens(text);
    NotImplementedText();
    var first := "Command not implemented: " + name;
    ReplyLines.Concat("Command not implemented: ", name);
    assert "Command not implemented: " + (name + "\r\n" + Word(text)) == first + "\r\n" + Word(text);
    TwoLines(st, 502, first, Word(text));
  }

  lemma NotImplementedText()
    ensures Client.Plain("Command not implemented: ")
  {
  }

  lemma WordOpens(text: string)
    requires CommandText(text)
    ensures var word := Word(text);
            Client.Plain(word) && !Client.Opens(word) && word != "" && 'A' <= word[0] <= 'Z'
  {
  }

  lemma UnknownTurn(st: S.State, cfg: S.Config, raw: string, w: S.World)
    requires st.phase == S.Ready && |raw| <= S.MAX_CMD_LENGTH && S.Clean(raw) != ""
    requires S.Parse(S.Clean(raw)).verb.Unknown?
    ensures S.Turn(st, cfg, raw, w)
            == S.Say(st, 502, "Command not implemented: " + S.Parse(S.Clean(raw)).verb.name)
  {
    hide S.Parse, S.Clean;
  }

  lemma WithName(op: Op, pc: Pc)
    requires Fits(op, pc) && Awaits(pc) && LineFor(op, pc) != Bare(NameFor(op, pc))
    ensures TakesName(VerbFor(op, pc)) && !pc.ReadPasv?
  {
  }

  /** Two commands taken together get one refusal: a receive of the client's lines never changes the session
      then.  The client hears one line, and has lost a reply; or two lines, as many as it waits for. */
  lemma JoinedTurn(st: S.State, cfg: S.Config, op: Op, pc: Pc, next: Op, after: Pc, w: S.World)
    requires Fits(op, pc) && Awaits(pc) && Sendable(op)
    requires Fits(next, after) && Awaits(after) && Sendable(next)
    requires st.phase == S.Ready && !w.isDirectory && |LineFor(op, pc) + LineFor(next, after)| <= S.MAX_CMD_LENGTH
    ensures var raw := LineFor(op, pc) + LineFor(next, after);
            var o, v := S.Turn(st, cfg, raw, w), S.Parse(S.Clean(raw)).verb;
            && Refused(st, o) && v != S.PASV && v != S.PORT
            && (pc.ReadPasv? ==> |Client.Heard(o.replies[0])| == 2)
  {
    hide S.Parse, S.Clean, S.VerbOf, S.DispatchReady, LineFor, NameFor, VerbFor, Sendable, Fits, Refused, CommandText,
         Client.Heard, Client.Plain, Word, S.Dispatch, S.Turn;
    var text := TextOfLine(next, after);
    var arg := LineOfName(op, pc);
    var name := NameFor(op, pc);
    var raw := LineFor(op, pc) + LineFor(next, after);
    NameIs(op, pc);
    if LineFor(op, pc) == Bare(name) {
      BareJoined(name, text);
      BareRefused(st, name, text);
      UnknownTurn(st, cfg, raw, w);
    } else {
      LineJoined(name, arg, text);
      WithName(op, pc);
      NameRefused(st, VerbFor(op, pc), arg, text, w);
      ReadyTurn(st, cfg, raw, w);
    }
  }
}
