/**
 The address texts of section 4.1.2 of RFC 959: the PORT argument and the reply to PASV, through the
 decimal print and parse loops and the split of a port into two octets.
 */
module Address {
  import opened Decimal
  import opened Text

  // One character at a time, with `tmp` holding the field read so far.
  function SplitFrom(tmp: string, rest: string): (fields: seq<string>)
    ensures |fields| > 0
    decreases |rest|
  {
    if rest == "" then [tmp]
    else if rest[0] == ',' then [tmp] + SplitFrom("", rest[1..])
    else SplitFrom(tmp + [rest[0]], rest[1..])
  }

  function Join(fields: seq<string>): string
    requires fields != []
  {
    if |fields| == 1 then fields[0] else fields[0] + "," + Join(fields[1..])
  }

  lemma {:induction false} SplitTakesField(tmp: string, field: string, rest: string)
    requires ',' !in field
    ensures SplitFrom(tmp, field + rest) == SplitFrom(tmp + field, rest)
    decreases |field|
  {
    if field == "" {
      assert field + rest == rest && tmp + field == tmp;
    } else {
      assert (field + rest)[1..] == field[1..] + rest;
      SplitTakesField(tmp + [field[0]], field[1..], rest);
      assert tmp + [field[0]] + field[1..] == tmp + field;
    }
  }

  lemma {:induction false} SplitUndoesJoin(fields: seq<string>)
    requires fields != [] && forall i :: 0 <= i < |fields| ==> ',' !in fields[i]
    ensures SplitFrom("", Join(fields)) == fields
  {
    var first := fields[0];
    if |fields| == 1 {
      assert first + "" == first && "" + first == first;
      SplitTakesField("", first, "");
    } else {
      var rest := "," + Join(fields[1..]);
      assert Join(fields) == first + rest && "" + first == first;
      SplitTakesField("", first, rest);
      assert rest[1..] == Join(fields[1..]);
      SplitUndoesJoin(fields[1..]);
    }
  }

  // ---------------------------------------------------------------- std::stoi

  const INT_LIMIT: int := 0x8000_0000

  predicate InInt(v: int) { -INT_LIMIT <= v < INT_LIMIT }

  // What std::stoi returns, or NoInt for either exception.
  datatype Int = NoInt | Int(value: int)

  predicate IsSpace(c: char) { c == ' ' || 9 as char <= c <= 13 as char }

  function AfterBlanks(s: string): string {
    if s != "" && IsSpace(s[0]) then AfterBlanks(s[1..]) else s
  }

  function LeadingDigits(s: string): (digits: string)
    ensures forall i :: 0 <= i < |digits| ==> IsDigit(digits[i])
  {
    if s != "" && IsDigit(s[0]) then [s[0]] + LeadingDigits(s[1..]) else ""
  }

  // Leading blanks and one sign are skipped, and what follows the digits is ignored.
  function Stoi(s: string): Int {
    var t := AfterBlanks(s);
    var signed := t != "" && (t[0] == '-' || t[0] == '+');
    var digits := LeadingDigits(if signed then t[1..] else t);
    var v := if signed && t[0] == '-' then -(Value(digits) as int) else Value(digits);
    if digits == "" || !InInt(v) then NoInt else Int(v)
  }

  lemma {:induction false} BlanksSkipped(blanks: string, rest: string)
    requires forall i :: 0 <= i < |blanks| ==> IsSpace(blanks[i])
    requires rest != "" && !IsSpace(rest[0])
    ensures AfterBlanks(blanks + rest) == rest
  {
    if blanks == "" {
      assert blanks + rest == rest;
    } else {
      assert (blanks + rest)[1..] == blanks[1..] + rest;
      BlanksSkipped(blanks[1..], rest);
    }
  }

  lemma {:induction false} DigitsTaken(digits: string, rest: string)
    requires forall i :: 0 <= i < |digits| ==> IsDigit(digits[i])
    requires rest == "" || !IsDigit(rest[0])
    ensures LeadingDigits(digits + rest) == digits
  {
    if digits == "" {
      assert digits + rest == rest;
    } else {
      assert (digits + rest)[1..] == digits[1..] + rest;
      DigitsTaken(digits[1..], rest);
    }
  }

  /** Blanks, a sign, digits and anything after them are read as the signed number, if it is an int. */
  lemma StoiReads(blanks: string, sign: string, digits: string, rest: string)
    requires forall i :: 0 <= i < |blanks| ==> IsSpace(blanks[i])
    requires sign == "" || sign == "+" || sign == "-"
    requires Numeric(digits) && (rest == "" || !IsDigit(rest[0]))
    ensures var v := if sign == "-" then -(Value(digits) as int) else Value(digits);
            Stoi(blanks + sign + digits + rest) == if InInt(v) then Int(v) else NoInt
  {
    hide Value;
    assert IsDigit(digits[0]);
    var t := sign + (digits + rest);
    assert blanks + sign + digits + rest == blanks + t;
    assert t[0] == if sign == "" then digits[0] else sign[0];
    BlanksSkipped(blanks, t);
    assert sign != "" ==> t[1..] == digits + rest;
    assert sign == "" ==> t == digits + rest;
    DigitsTaken(digits, rest);
  }

  lemma StoiOfPrint(n: nat)
    requires n < INT_LIMIT
    ensures Stoi(Print(n)) == Int(n)
  {
    hide Print, Stoi, Value;
    StoiReads("", "", Print(n), "");
    assert "" + "" + Print(n) + "" == Print(n);
    ValueOfPrint(n);
  }

  // ---------------------------------------------------------------- int nums[6] = {0}

  function Fields(text: string): (fields: seq<string>)
    ensures |fields| > 0
  {
    SplitFrom("", text)
  }

  // Some field that is read, one after the other and the seventh last, is no int.
  predicate Throws(text: string) {
    exists i :: 0 <= i < |Fields(text)| && i <= 6 && Stoi(Fields(text)[i]).NoInt?
  }

  // A seventh number would be written behind the array: nothing is said of what happens then.
  predicate Overruns(text: string) { |Fields(text)| > 6 && !Throws(text) }

  // Fields that are missing stay zero.
  function Numbers(text: string): (nums: seq<int>)
    requires !Throws(text) && !Overruns(text)
    ensures |nums| == 6
  {
    var fields := Fields(text);
    seq(6, i requires 0 <= i < 6 => if i < |fields| then Stoi(fields[i]).value else 0)
  }

  function Port(nums: seq<int>): int
    requires |nums| == 6
  {
    nums[4] * 256 + nums[5]
  }

  // Arguments on which the source does something that the language leaves undefined: the write behind the
  // array, or the sum for the port leaving int.
  predicate Undefined(text: string) {
    || Overruns(text)
    || (!Throws(text) && !(InInt(Numbers(text)[4] * 256) && InInt(Port(Numbers(text)))))
  }

  function PrintInt(n: int): string { if n < 0 then "-" + Print(-n) else Print(n) }

  function DottedQuad(nums: seq<int>): string
    requires |nums| == 6
  {
    PrintInt(nums[0]) + "." + PrintInt(nums[1]) + "." + PrintInt(nums[2]) + "." + PrintInt(nums[3])
  }

  function PrintNumbers(nums: seq<nat>): string
    requires nums != []
  {
    Join(seq(|nums|, i requires 0 <= i < |nums| => Print(nums[i])))
  }

  /** Up to six ints, printed with commas between them, are read back, and the missing ones are zero. */
  lemma NumbersReadBack(nums: seq<nat>)
    requires 1 <= |nums| <= 6 && forall i :: 0 <= i < |nums| ==> nums[i] < INT_LIMIT
    ensures var text := PrintNumbers(nums);
            && !Throws(text) && !Overruns(text)
            && Numbers(text) == seq(6, i requires 0 <= i < 6 => if i < |nums| then nums[i] else 0)
  {
    hide Stoi, Print, Join, SplitFrom;
    var fields := seq(|nums|, i requires 0 <= i < |nums| => Print(nums[i]));
    forall i | 0 <= i < |fields| ensures ',' !in fields[i] && Stoi(fields[i]) == Int(nums[i]) { StoiOfPrint(nums[i]); }
    SplitUndoesJoin(fields);
  }

  // The loop both parsers share, filling the array.
  method ReadNumbers(text: string) returns (threw: bool, nums: array<int>)
    requires !Overruns(text)
    ensures fresh(nums) && nums.Length == 6
    ensures threw <==> Throws(text)
    ensures !threw ==> nums[..] == Numbers(text)
  {
    hide Stoi, SplitFrom, Throws, Overruns, Numbers;
    ghost var fields, done := Fields(text), [];
    nums := new int[6](_ => 0);
    var idx, tmp, i := 0, "", 0;
    assert text[0..] == text;
    while i < |text|
      invariant 0 <= i <= |text| && idx == |done| <= 6
      invariant fields == done + SplitFrom(tmp, text[i..])
      invariant forall j :: 0 <= j < idx ==> Stoi(fields[j]) == Int(nums[j])
      invariant forall j :: idx <= j < 6 ==> nums[j] == 0
    {
      assert text[i..][1..] == text[i + 1..];
      FieldStep(done, tmp, text[i..]);
      if text[i] == ',' {
        assert fields[idx] == tmp;
        var n := Stoi(tmp);
        FieldRead(text, idx);
        if n.NoInt? { return true, nums; }
        nums[idx] := n.value;
        idx := idx + 1;
        done := done + [tmp];
        tmp := "";
      } else {
        tmp := tmp + [text[i]];
      }
      i := i + 1;
    }
    assert text[i..] == "";
    FieldsEnd(done, tmp);
    assert fields[idx] == tmp;
    var n := Stoi(tmp);
    FieldRead(text, idx);
    if n.NoInt? { return true, nums; }
    nums[idx] := n.value;
    AllFieldsRead(text, nums[..]);
    threw := false;
  }

  // One field more is no int, or has a place in the array.
  lemma FieldRead(text: string, idx: nat)
    requires !Overruns(text) && idx < |Fields(text)| && idx <= 6
    requires forall j :: 0 <= j < idx ==> Stoi(Fields(text)[j]).Int?
    ensures if Stoi(Fields(text)[idx]).NoInt? then Throws(text) else idx < 6
  {
    hide Stoi, Fields;
  }

  lemma AllFieldsRead(text: string, nums: seq<int>)
    requires |nums| == 6 && |Fields(text)| <= 6
    requires forall j :: 0 <= j < |Fields(text)| ==> Stoi(Fields(text)[j]) == Int(nums[j])
    requires forall j :: |Fields(text)| <= j < 6 ==> nums[j] == 0
    ensures !Throws(text) && nums == Numbers(text)
  {
    hide Stoi, Fields;
  }

  lemma SplitStep(tmp: string, rest: string)
    requires rest != ""
    ensures SplitFrom(tmp, rest) ==
            if rest[0] == ',' then [tmp] + SplitFrom("", rest[1..]) else SplitFrom(tmp + [rest[0]], rest[1..])
  {
  }

  lemma FieldStep(done: seq<string>, tmp: string, rest: string)
    requires rest != ""
    ensures done + SplitFrom(tmp, rest) ==
            if rest[0] == ',' then (done + [tmp]) + SplitFrom("", rest[1..])
            else done + SplitFrom(tmp + [rest[0]], rest[1..])
    ensures rest[0] == ',' ==> (done + SplitFrom(tmp, rest))[|done|] == tmp
  {
    hide SplitFrom;
    SplitStep(tmp, rest);
    if rest[0] == ',' {
      var more := SplitFrom("", rest[1..]);
      assert done + ([tmp] + more) == (done + [tmp]) + more;
    }
  }

  lemma FieldsEnd(done: seq<string>, tmp: string)
    ensures done + SplitFrom(tmp, "") == done + [tmp]
  {
  }

  method ParsePortCommand(arg: string) returns (threw: bool, ip: string, port: int)
    requires !Undefined(arg)
    ensures threw <==> Throws(arg)
    ensures !threw ==> ip == DottedQuad(Numbers(arg)) && port == Port(Numbers(arg))
  {
    hide Throws, Overruns, Numbers, PrintInt;
    var nums;
    threw, nums := ReadNumbers(arg);
    if threw { return true, "", 0; }
    ghost var all := Numbers(arg);
    assert nums[0] == all[0] && nums[1] == all[1] && nums[2] == all[2] && nums[3] == all[3];
    assert nums[4] == all[4] && nums[5] == all[5];
    ip := PrintInt(nums[0]) + "." + PrintInt(nums[1]) + "." + PrintInt(nums[2]) + "." + PrintInt(nums[3]);
    port := nums[4] * 256 + nums[5];
  }

  /** Printing six octets and parsing them as a PORT argument gives back the address and the port. */
  lemma PortRoundTrip(octets: seq<nat>)
    requires |octets| == 6 && forall i :: 0 <= i < 6 ==> octets[i] < 256
    ensures var arg := PrintNumbers(octets);
            && !Throws(arg) && !Undefined(arg)
            && Numbers(arg) == octets && 0 <= Port(Numbers(arg)) < 0x1_0000
  {
    NumbersReadBack(octets);
    hide Throws, Overruns, Numbers, PrintNumbers;
  }

  function PasvResponse(port: nat): string {
    "227 Entering Passive Mode (127,0,0,1," + Print(port / 256) + "," + Print(port % 256) + ")"
  }

  datatype Endpoint = NoEndpoint | Endpoint(ip: string, port: int)

  // reply.substr(s + 1, e - s - 1), where a length that wraps around means the rest of the string.
  function Parenthesised(reply: string): string
    requires '(' in reply && ')' in reply
  {
    var s, e := Find(reply, '(', 0), Find(reply, ')', 0);
    if s == |reply| then "" else if s < e then reply[s + 1..e] else reply[s + 1..]
  }

  method ParsePasvReply(reply: string) returns (threw: bool, endpoint: Endpoint)
    requires '(' in reply && ')' in reply ==> !Undefined(Parenthesised(reply))
    ensures '(' !in reply || ')' !in reply ==> !threw && endpoint == NoEndpoint
    ensures '(' in reply && ')' in reply ==> (threw <==> Throws(Parenthesised(reply)))
    ensures '(' in reply && ')' in reply && !threw ==>
              var nums := Numbers(Parenthesised(reply)); endpoint == Endpoint(DottedQuad(nums), Port(nums))
  {
    hide Throws, Undefined;
    var s, e := Find(reply, '(', 0), Find(reply, ')', 0);
    if s == |reply| || e == |reply| { return false, NoEndpoint; }
    var ip, port;
    threw, ip, port := ParsePortCommand(Parenthesised(reply));
    endpoint := if threw then NoEndpoint else Endpoint(ip, port);
  }

  /** The client's parser undoes the server's reply to PASV, for every port. */
  lemma PasvRoundTrip(port: nat)
    requires port < 0x1_0000
    ensures var reply := PasvResponse(port);
            && '(' in reply && ')' in reply
            && !Throws(Parenthesised(reply)) && !Undefined(Parenthesised(reply))
            && DottedQuad(Numbers(Parenthesised(reply))) == "127.0.0.1"
            && Port(Numbers(Parenthesised(reply))) == port
  {
    hide PrintNumbers, DottedQuad, Throws, Undefined, Overruns, Numbers, Find, Print;
    var octets := [127, 0, 0, 1, port / 256, port % 256];
    var head, text := "227 Entering Passive Mode ", PrintNumbers(octets);
    PortRoundTrip(octets);
    OctetText(port);
    ReplyText(port, head, text);
    CutParenthesised(head, text);
  }

  lemma ReplyText(port: nat, head: string, text: string)
    requires head == "227 Entering Passive Mode "
    requires text == "127,0,0,1," + Print(port / 256) + "," + Print(port % 256)
    ensures PasvResponse(port) == head + "(" + text + ")"
    ensures '(' !in head && ')' !in head && '(' !in text && ')' !in text
  {
    hide Print, Find, IsDigit;
    assert head + "(" + "127,0,0,1," == "227 Entering Passive Mode (127,0,0,1,";
    NoParentheses(head, Print(port / 256), Print(port % 256));
  }

  lemma NoParentheses(head: string, a: string, b: string)
    requires head == "227 Entering Passive Mode " && Numeric(a) && Numeric(b)
    ensures '(' !in head && ')' !in head
    ensures var text := "127,0,0,1," + a + "," + b; '(' !in text && ')' !in text
  {
    assert forall i :: 0 <= i < |a| ==> IsDigit(a[i]);
    assert forall i :: 0 <= i < |b| ==> IsDigit(b[i]);
  }

  lemma CutParenthesised(head: string, text: string)
    requires '(' !in head && ')' !in head && '(' !in text && ')' !in text
    ensures var reply := head + "(" + text + ")";
            '(' in reply && ')' in reply && Parenthesised(reply) == text
  {
    var reply := head + "(" + text + ")";
    assert reply == "" + head + ['('] + (text + ")");
    FindBetween("", head, '(', text + ")");
    assert reply == "" + (head + "(" + text) + [')'] + "";
    FindBetween("", head + "(" + text, ')', "");
    assert reply[|head| + 1..|head| + 1 + |text|] == text;
  }

  lemma JoinStep(first: string, rest: seq<string>)
    requires rest != []
    ensures Join([first] + rest) == first + "," + Join(rest)
  {
    assert ([first] + rest)[1..] == rest;
  }

  lemma JoinSix(s: seq<string>)
    requires |s| == 6
    ensures Join(s) == s[0] + "," + (s[1] + "," + (s[2] + "," + (s[3] + "," + (s[4] + "," + s[5]))))
  {
    assert s == [s[0]] + ([s[1]] + ([s[2]] + ([s[3]] + ([s[4]] + [s[5]]))));
    JoinStep(s[4], [s[5]]);
    JoinStep(s[3], [s[4]] + [s[5]]);
    JoinStep(s[2], [s[3]] + ([s[4]] + [s[5]]));
    JoinStep(s[1], [s[2]] + ([s[3]] + ([s[4]] + [s[5]])));
    JoinStep(s[0], [s[1]] + ([s[2]] + ([s[3]] + ([s[4]] + [s[5]]))));
  }

  lemma SmallNumbers()
    ensures Print(127) == "127" && Print(0) == "0" && Print(1) == "1"
  {
    assert Print(12) == "12";
  }

  lemma OctetText(port: nat)
    ensures PrintNumbers([127, 0, 0, 1, port / 256, port % 256]) ==
            "127,0,0,1," + Print(port / 256) + "," + Print(port % 256)
    ensures DottedQuad([127, 0, 0, 1, port / 256, port % 256]) == "127.0.0.1"
  {
    var octets := [127, 0, 0, 1, port / 256, port % 256];
    var texts := seq(6, i requires 0 <= i < 6 => Print(octets[i]));
    SmallNumbers();
    hide Join, Print;
    JoinSix(texts);
    LocalPrefix(texts[4], texts[5]);
  }

  lemma LocalPrefix(a: string, b: string)
    ensures "127" + "," + ("0" + "," + ("0" + "," + ("1" + "," + (a + "," + b)))) == "127,0,0,1," + a + "," + b
  {
    var x := a + "," + b;
    assert "1" + "," + x == "1," + x;
    assert "0" + "," + ("1," + x) == "0,1," + x;
    assert "0" + "," + ("0,1," + x) == "0,0,1," + x;
    assert "127" + "," + ("0,0,1," + x) == "127,0,0,1," + x;
    assert "127,0,0,1," + x == "127,0,0,1," + a + "," + b;
  }
}
