/**
 The client's end of the control connection: replies are read back from the byte stream one character at a
 time, and whole sequences of them, single- and multi-line, come out as they were sent.
 */
module Client {
  import opened Decimal
  import opened SessionSpec

  // sendReply.
  function Wire(r: Reply): string {
    match r
    case Reply(code, text) => Print(code) + " " + text + "\r\n"
    case Lines(code, first, inner, last) =>
      Print(code) + "-" + first + "\r\n" + (AllLines(inner) + (Print(code) + " " + last + "\r\n"))
  }

  function AllLines(lines: seq<string>): string {
    if lines == [] then "" else lines[0] + "\r\n" + AllLines(lines[1..])
  }

  // The line readReply returns.
  function FirstLine(r: Reply): string {
    match r
    case Reply(code, text) => Print(code) + " " + text
    case Lines(code, first, _, _) => Print(code) + "-" + first
  }

  function AllWire(replies: seq<Reply>): string {
    if replies == [] then "" else Wire(replies[0]) + AllWire(replies[1..])
  }

  // The characters up to the first line feed or the end of the stream, without carriage returns.
  function LineOf(s: string): string {
    if s == "" || s[0] == '\n' then "" else if s[0] == '\r' then LineOf(s[1..]) else [s[0]] + LineOf(s[1..])
  }

  function AfterLine(s: string): (rest: string)
    ensures |rest| <= |s| && (s != "" ==> |rest| < |s|)
  {
    if s == "" then "" else if s[0] == '\n' then s[1..] else AfterLine(s[1..])
  }

  predicate Opens(line: string) { |line| >= 4 && line[3] == '-' }

  predicate Ends(code: string, line: string) { |line| >= 4 && line[..3] == code && line[3] == ' ' }

  // Some line of the stream ends the multi-line reply with this code.
  predicate HasEnd(code: string, s: string)
    decreases |s|
  {
    s != "" && (Ends(code, LineOf(s)) || HasEnd(code, AfterLine(s)))
  }

  function AfterEnd(code: string, s: string): (rest: string)
    requires HasEnd(code, s)
    ensures |rest| < |s|
    decreases |s|
  {
    if Ends(code, LineOf(s)) then AfterLine(s) else AfterEnd(code, AfterLine(s))
  }

  predicate Complete(s: string) { Opens(LineOf(s)) ==> HasEnd(LineOf(s)[..3], AfterLine(s)) }

  function AfterReply(s: string): (rest: string)
    requires Complete(s)
    ensures s != "" ==> |rest| < |s|
  {
    if Opens(LineOf(s)) then AfterEnd(LineOf(s)[..3], AfterLine(s)) else AfterLine(s)
  }

  // The stream after n turns of the loop over the lines of a multi-line reply.
  function AfterLines(s: string, n: nat): string
    decreases n
  {
    if n == 0 then s else AfterLines(AfterLine(s), n - 1)
  }

  // One of the first n turns reads the line that ends the loop.
  predicate EndsWithin(code: string, s: string, n: nat)
    decreases n
  {
    n > 0 && (Ends(code, LineOf(s)) || EndsWithin(code, AfterLine(s), n - 1))
  }

  // getReplyCode, for text whose first three characters are digits or contain none to start with.
  function ReplyCode(reply: string): nat {
    if |reply| >= 3 && Numeric(reply[..3]) then Value(reply[..3]) else 0
  }

  class FTPClient {
    var input: string  // what the control socket has still to deliver

    constructor (input: string)
      ensures this.input == input
    {
      this.input := input;
    }

    // recvData of one character.
    method Receive() returns (got: bool, c: char)
      modifies this
      ensures got <==> old(input) != ""
      ensures got ==> c == old(input)[0] && input == old(input)[1..]
      ensures !got ==> input == old(input)
    {
      got, c := input != "", ' ';
      if got { c, input := input[0], input[1..]; }
    }

    method ReadLine() returns (line: string)
      modifies this
      ensures line == LineOf(old(input)) && input == AfterLine(old(input))
    {
      line := "";
      var got, c := Receive();
      while got && c != '\n'
        invariant got ==> line + LineOf([c] + input) == LineOf(old(input))
                          && AfterLine([c] + input) == AfterLine(old(input))
        invariant !got ==> line == LineOf(old(input)) && input == "" == AfterLine(old(input))
        decreases |input|, got
      {
        assert ([c] + input)[1..] == input;
        if c != '\r' { line := line + [c]; }
        got, c := Receive();
      }
    }

    // The loop of the source has no bound; here it gives up after `turns` turns, and ReadReplyReturnsIff
    // says which streams it would ever leave it on.
    method ReadReply(turns: nat) returns (returned: bool, reply: string)
      modifies this
      ensures reply == LineOf(old(input))
      ensures returned <==> (Opens(reply) ==> EndsWithin(reply[..3], AfterLine(old(input)), turns))
      ensures returned ==> Complete(old(input)) && input == AfterReply(old(input))
      ensures !returned ==> input == AfterLines(AfterLine(old(input)), turns)
    {
      reply := ReadLine();
      returned := true;
      if |reply| >= 4 && reply[3] == '-' {
        var code := reply[..3];
        ghost var start := input;
        var n := 0;
        returned := false;
        while n < turns && !returned
          invariant n <= turns
          invariant !returned ==> (HasEnd(code, input) <==> HasEnd(code, start))
          invariant !returned ==> input == AfterLines(start, n)
          invariant !returned ==> (EndsWithin(code, input, turns - n) <==> EndsWithin(code, start, turns))
          invariant !returned && HasEnd(code, start) ==> AfterEnd(code, input) == AfterEnd(code, start)
          invariant returned ==> EndsWithin(code, start, turns)
          invariant returned ==> HasEnd(code, start) && input == AfterEnd(code, start)
          decreases turns - n, !returned
        {
          OneTurn(code, start, input, n);
          var line := ReadLine();
          returned := |line| >= 4 && line[..3] == code && line[3] == ' ';
          n := n + 1;
        }
      }
    }
  }

  // A turn reads a line, and none at the end of the stream.
  lemma {:induction false} OneTurn(code: string, start: string, s: string, n: nat)
    requires s == AfterLines(start, n)
    ensures AfterLine(s) == AfterLines(start, n + 1)
    ensures !Ends(code, LineOf(s)) ==> (HasEnd(code, AfterLine(s)) <==> HasEnd(code, s))
    ensures Ends(code, LineOf(s)) ==> s != ""
    decreases n
  {
    if n > 0 { OneTurn(code, AfterLine(start), s, n - 1); }
  }

  lemma {:induction false} EndsWithinLength(code: string, s: string)
    ensures HasEnd(code, s) <==> EndsWithin(code, s, |s|)
    decreases |s|
  {
    if s != "" && !Ends(code, LineOf(s)) {
      EndsWithinLength(code, AfterLine(s));
      MoreTurns(code, AfterLine(s), |AfterLine(s)|, |s| - 1);
    }
  }

  // Turns past the length of the stream read nothing.
  lemma {:induction false} MoreTurns(code: string, s: string, n: nat, m: nat)
    requires n <= m
    ensures EndsWithin(code, s, n) ==> EndsWithin(code, s, m)
    ensures |s| <= n && EndsWithin(code, s, m) ==> EndsWithin(code, s, n)
    decreases m
  {
    if m > 0 {
      if n > 0 { MoreTurns(code, AfterLine(s), n - 1, m - 1); } else if s == "" { NothingEnds(code, m); }
    }
  }

  lemma {:induction false} NothingEnds(code: string, n: nat)
    ensures !EndsWithin(code, "", n)
  {
    if n > 0 { NothingEnds(code, n - 1); }
  }

  lemma EndsEventually(code: string, s: string, n: nat)
    requires EndsWithin(code, s, n)
    ensures HasEnd(code, s)
  {
    EndsWithinLength(code, s);
    if n <= |s| { MoreTurns(code, s, n, |s|); } else { MoreTurns(code, s, |s|, n); }
  }

  // Some number of turns is enough.
  ghost predicate EndsEver(code: string, s: string) { exists n: nat :: EndsWithin(code, s, n) }

  /** readReply returns if and only if the stream is complete: after some number of turns exactly then, and
      on any other stream, however long, after none. */
  lemma ReadReplyReturnsIff(s: string)
    requires Opens(LineOf(s))
    ensures Complete(s) <==> EndsEver(LineOf(s)[..3], AfterLine(s))
  {
    hide LineOf, AfterLine, HasEnd;
    EndsEverIff(LineOf(s)[..3], AfterLine(s));
  }

  lemma EndsEverIff(code: string, s: string)
    ensures HasEnd(code, s) <==> EndsEver(code, s)
  {
    EndsWithinLength(code, s);
    if n: nat :| EndsWithin(code, s, n) { EndsEventually(code, s, n); }
  }

  /** A connection that ends after the first line of a multi-line greeting keeps it reading for ever. */
  lemma GreetingCutShort(n: nat)
    ensures LineOf("220-Welcome\r\n") == "220-Welcome" && AfterLine("220-Welcome\r\n") == ""
    ensures !Complete("220-Welcome\r\n") && !EndsWithin("220", "", n)
  {
    hide LineOf, AfterLine;
    var line := "220-Welcome";
    WelcomePlain();
    LineThen(line, "");
    assert line + "\r\n" + "" == "220-Welcome\r\n";
    assert line[..3] == "220" && line[3] == '-';
    NothingEnds("220", n);
  }

  lemma WelcomePlain()
    ensures Plain("220-Welcome")
  {
  }

  // Without line breaks.
  predicate Plain(s: string) { forall i :: 0 <= i < |s| ==> s[i] != '\r' && s[i] != '\n' }

  // Three digits and no line break; and no inner line that looks like the last.
  predicate Readable(r: Reply) {
    && 100 <= r.code < 1000
    && match r
       case Reply(_, text) => Plain(text)
       case Lines(code, first, inner, last) =>
         && Plain(first) && Plain(last)
         && forall i :: 0 <= i < |inner| ==> Plain(inner[i]) && !Ends(Print(code), inner[i])
  }

  lemma {:induction false} LineThen(line: string, rest: string)
    requires Plain(line)
    ensures LineOf(line + "\r\n" + rest) == line && AfterLine(line + "\r\n" + rest) == rest
  {
    var s := line + "\r\n" + rest;
    if line == "" {
      assert s[0] == '\r' && s[1..][0] == '\n' && s[1..][1..] == rest;
    } else {
      assert s[1..] == line[1..] + "\r\n" + rest;
      LineThen(line[1..], rest);
    }
  }

  lemma ThreeDigits(code: nat)
    requires 100 <= code < 1000
    ensures |Print(code)| == 3 && Value(Print(code)) == code && Plain(Print(code))
  {
    ValueOfPrint(code);
    assert |Print(code / 10 / 10)| == 1 && |Print(code / 10)| == 2;
    assert forall i :: 0 <= i < |Print(code)| ==> IsDigit(Print(code)[i]);
  }

  lemma {:induction false} EndIsFound(code: string, lines: seq<string>, last: string, rest: string)
    requires Plain(last) && Ends(code, last)
    requires forall i :: 0 <= i < |lines| ==> Plain(lines[i]) && !Ends(code, lines[i])
    ensures var s := AllLines(lines) + (last + "\r\n" + rest);
            HasEnd(code, s) && AfterEnd(code, s) == rest
  {
    var s := AllLines(lines) + (last + "\r\n" + rest);
    if lines == [] {
      assert s == last + "\r\n" + rest;
      LineThen(last, rest);
    } else {
      var after := AllLines(lines[1..]) + (last + "\r\n" + rest);
      assert s == lines[0] + "\r\n" + after;
      LineThen(lines[0], after);
      EndIsFound(code, lines[1..], last, rest);
    }
  }

  /** A multi-line reply is consumed exactly up to its last line, the first that starts with its code and a
      space, however many lines it has. */
  lemma MultiLineReadsBack(first: string, lines: seq<string>, last: string, rest: string)
    requires Plain(first) && Opens(first) && Plain(last) && Ends(first[..3], last)
    requires forall i :: 0 <= i < |lines| ==> Plain(lines[i]) && !Ends(first[..3], lines[i])
    ensures var s := first + "\r\n" + (AllLines(lines) + (last + "\r\n" + rest));
            Complete(s) && LineOf(s) == first && AfterReply(s) == rest
  {
    LineThen(first, AllLines(lines) + (last + "\r\n" + rest));
    EndIsFound(first[..3], lines, last, rest);
  }

  /** readReply undoes sendReply: the first line, with its code, and nothing of what follows the reply. */
  lemma ReadsBack(r: Reply, rest: string)
    requires Readable(r)
    ensures var s := Wire(r) + rest;
            && Complete(s) && LineOf(s) == FirstLine(r) && AfterReply(s) == rest
            && ReplyCode(FirstLine(r)) == r.code
  {
    hide Print, AllLines, Complete, LineOf, AfterReply, Plain, Wire, Numeric, Ends;
    var digits := Print(r.code);
    ThreeDigits(r.code);
    assert FirstLine(r)[..3] == digits;
    WireIs(r, rest);
    if r.Reply? {
      OneLineReadsBack(digits, r.text, rest);
    } else {
      LinesReadBack(digits, r.first, r.inner, r.last, rest);
    }
  }

  lemma WireIs(r: Reply, rest: string)
    ensures Wire(r) + rest ==
            if r.Reply? then FirstLine(r) + "\r\n" + rest
            else FirstLine(r) + "\r\n" + (AllLines(r.inner) + (Print(r.code) + " " + r.last + "\r\n" + rest))
  {
    hide Print, AllLines;
  }

  lemma LinesReadBack(digits: string, first: string, inner: seq<string>, last: string, rest: string)
    requires |digits| == 3 && Plain(digits) && Plain(first) && Plain(last)
    requires forall i :: 0 <= i < |inner| ==> Plain(inner[i]) && !Ends(digits, inner[i])
    ensures var s := digits + "-" + first + "\r\n" + (AllLines(inner) + (digits + " " + last + "\r\n" + rest));
            Complete(s) && LineOf(s) == digits + "-" + first && AfterReply(s) == rest
  {
    hide AllLines, Complete, LineOf, AfterReply, Plain;
    AfterDigits(digits, "-", first);
    AfterDigits(digits, " ", last);
    MultiLineReadsBack(digits + "-" + first, inner, digits + " " + last, rest);
  }

  lemma AfterDigits(digits: string, mark: string, text: string)
    requires |digits| == 3 && |mark| == 1 && Plain(digits) && Plain(mark) && Plain(text)
    ensures var line := digits + mark + text; Plain(line) && line[..3] == digits && line[3] == mark[0]
  {
  }

  lemma OneLineReadsBack(digits: string, text: string, rest: string)
    requires |digits| == 3 && Plain(digits) && Plain(text)
    ensures var s := digits + " " + text + "\r\n" + rest;
            Complete(s) && LineOf(s) == digits + " " + text && AfterReply(s) == rest
  {
    LineThen(digits + " " + text, rest);
  }

  /** The reply to FEAT, four lines and an end, is read back whole. */
  lemma FeaturesReadBack(rest: string)
    ensures Readable(FEATURES)
    ensures Complete(Wire(FEATURES) + rest) && AfterReply(Wire(FEATURES) + rest) == rest
  {
    hide Print, Complete, AfterReply, Wire, Plain, IsDigit;
    ThreeDigits(211);
    FeatureEnds();
    FeatureLines(Print(211));
    ReadsBack(FEATURES, rest);
  }

  lemma FeatureEnds()
    ensures Plain("Extensions supported:") && Plain("End.")
  {
  }

  // The inner lines start with a blank, not with digits.
  lemma FeatureLines(digits: string)
    requires |digits| == 3 && Numeric(digits)
    ensures forall i :: 0 <= i < 3 ==> Plain(FEATURES.inner[i]) && !Ends(digits, FEATURES.inner[i])
  {
    FeatureTexts();
    hide Plain;
    assert IsDigit(digits[0]);
    forall i | 0 <= i < 3 ensures Plain(FEATURES.inner[i]) && !Ends(digits, FEATURES.inner[i]) {
      assert FEATURES.inner[i][0] == ' ';
    }
  }

  lemma FeatureTexts()
    ensures Plain(" SIZE") && Plain(" MDTM") && Plain(" REST STREAM")
  {
  }

  // What successive readReplys get from the bytes of one reply: a line break in its text ends the first.
  function Heard(r: Reply): seq<Reply> { if r.Lines? then [r] else ReadAll(Wire(r)) }

  function ReadAll(s: string): seq<Reply>
    decreases |s|
  {
    if s == "" || !Complete(s) then []
    else [Reply(ReplyCode(LineOf(s)), TextOf(LineOf(s)))] + ReadAll(AfterReply(s))
  }

  function TextOf(line: string): string { if |line| >= 4 then line[4..] else "" }

  lemma HeardWhole(r: Reply)
    requires Readable(r)
    ensures Heard(r) == [r]
  {
    if r.Reply? {
      hide Complete, LineOf, AfterReply, Readable, ReplyCode, Print, AfterEnd, HasEnd, AfterLine;
      CodedLine(r.code, r.text);
      ReadsBack(r, "");
      assert Wire(r) + "" == Wire(r) != "";
      assert ReadAll(Wire(r)) == [Reply(r.code, r.text)] + ReadAll("");
    }
  }

  lemma CodedLine(code: nat, text: string)
    requires 100 <= code < 1000
    ensures TextOf(Print(code) + " " + text) == text && ReplyCode(Print(code) + " " + text) == code
  {
    hide Print, Plain, Value, Numeric;
    ThreeDigits(code);
    assert (Print(code) + " " + text)[..3] == Print(code);
  }

  /** A reply with one line break in its text is taken for two, the second without a code of its own. */
  lemma HeardBroken(code: nat, first: string, second: string)
    requires 100 <= code < 1000 && Plain(first) && Plain(second) && !Opens(second)
    ensures Heard(Reply(code, first + "\r\n" + second))
            == [Reply(code, first), Reply(ReplyCode(second), TextOf(second))]
  {
    hide LineOf, ReplyCode, Print, AfterEnd, HasEnd, AfterLine, Plain, TextOf;
    var line, rest := Print(code) + " " + first, second + "\r\n";
    var bytes := line + "\r\n" + rest;
    assert Wire(Reply(code, first + "\r\n" + second)) == bytes;
    ThreeDigits(code);
    OneLineReadsBack(Print(code), first, rest);
    CodedLine(code, first);
    LineThen(second, "");
    assert rest + "" == rest;
    assert ReadAll(rest) == [Reply(ReplyCode(second), TextOf(second))];
  }

  // What n readReplys leave, and what the next one returns.
  function AfterReplies(s: string, n: nat): string
    decreases n
  {
    if n == 0 then s else if Complete(s) then AfterReplies(AfterReply(s), n - 1) else ""
  }

  /** After any number of readReplys the next one returns the next reply sent, and the stream holds exactly
      those still unread. */
  lemma {:induction false} RepliesReadBack(replies: seq<Reply>, rest: string, n: nat)
    requires n <= |replies| && forall i :: 0 <= i < |replies| ==> Readable(replies[i])
    ensures var s := AfterReplies(AllWire(replies) + rest, n);
            && s == AllWire(replies[n..]) + rest
            && (n < |replies| ==> LineOf(s) == FirstLine(replies[n]) && ReplyCode(LineOf(s)) == replies[n].code)
    decreases n
  {
    hide Wire, FirstLine, Complete, LineOf, AfterReply, Readable, ReplyCode, Print;
    var s := AllWire(replies) + rest;
    if replies == [] {
      assert replies[n..] == [];
    } else {
      var others := AllWire(replies[1..]) + rest;
      assert s == Wire(replies[0]) + others;
      ReadsBack(replies[0], others);
      if n == 0 {
        assert replies[0..] == replies;
      } else {
        RepliesReadBack(replies[1..], rest, n - 1);
        assert AfterReplies(s, n) == AfterReplies(others, n - 1);
        assert replies[1..][n - 1..] == replies[n..];
      }
    }
  }
}
