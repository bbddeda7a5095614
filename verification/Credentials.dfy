/**
 The credentials file: its line format, how it is loaded, and what authenticating against it means.
 */
module Credentials {
  import Sha256
  import opened Text

  datatype UserRecord = UserRecord(hashed: bool, salt: string, stored: string)
  type Users = map<string, UserRecord>

  datatype Entry = NoEntry | Entry(user: string, record: UserRecord)

  // ---------------------------------------------------------------- digests of strings

  // The octets of a std::string.
  function Octets(s: string): (b: seq<Sha256.byte>)
    ensures |b| == |s|
  {
    seq(|s|, i requires 0 <= i < |s| => (s[i] as int % 256) as Sha256.byte)
  }

  function HexDigest(s: string): string { Sha256.Hex(Sha256.Words(Sha256.Digest(Octets(s)))) }

  function Salted(salt: string, password: string): string { salt + ":" + password }

  function HashedPassword(password: string, salt: string): string {
    "sha256:" + salt + ":" + HexDigest(Salted(salt, password))
  }

  /** Salt and password can be read back from what is digested, so distinct pairs digest distinct strings. */
  lemma SaltedInjective(salt: string, password: string, salt': string, password': string)
    requires ':' !in salt && ':' !in salt'
    requires Salted(salt, password) == Salted(salt', password')
    ensures salt == salt' && password == password'
  {
    assert Salted(salt, password) == "" + salt + [':'] + password;
    assert Salted(salt', password') == "" + salt' + [':'] + password';
    FindBetween("", salt, ':', password);
    FindBetween("", salt', ':', password');
  }

  // ---------------------------------------------------------------- the file

  function WithoutCr(line: string): string {
    if line != "" && line[|line| - 1] == '\r' then line[..|line| - 1] else line
  }

  const HASH_PREFIX: string := "sha256:"

  function ParseLine(raw: string): Entry {
    var line := WithoutCr(raw);
    if line == "" || line[0] == '#' then NoEntry
    else
      var eq := Find(line, '=', 0);
      if eq == |line| then NoEntry
      else ParseEntry(line[..eq], line[eq + 1..])
  }

  function ParseEntry(user: string, value: string): Entry {
    if user == "" || value == "" then NoEntry
    else if HASH_PREFIX <= value then
      var p1 := Find(value, ':', 7);
      if p1 == |value| then NoEntry
      else Entry(user, UserRecord(true, value[7..p1], value[p1 + 1..]))
    else Entry(user, UserRecord(false, "", value))
  }

  // The lines std::getline yields: a final newline does not start another line.
  function Lines(text: string): seq<string>
    decreases |text|
  {
    if text == "" then []
    else
      var n := Find(text, '\n', 0);
      if n == |text| then [text] else [text[..n]] + Lines(text[n + 1..])
  }

  function Unlines(lines: seq<string>): string {
    if lines == [] then "" else lines[0] + "\n" + Unlines(lines[1..])
  }

  lemma {:induction false} LinesUnlines(lines: seq<string>)
    requires forall i :: 0 <= i < |lines| ==> '\n' !in lines[i]
    ensures Lines(Unlines(lines)) == lines
  {
    if lines != [] {
      var text, n := Unlines(lines), |lines[0]|;
      assert text[0..n] == lines[0] && text[n] == '\n';
      FindIs(text, '\n', 0, n);
      assert text[n + 1..] == Unlines(lines[1..]);
      LinesUnlines(lines[1..]);
    }
  }

  function AddLine(users: Users, line: string): Users {
    var e := ParseLine(line);
    if e.NoEntry? then users else users[e.user := e.record]
  }

  function Load(users: Users, lines: seq<string>): Users
    decreases |lines|
  {
    if lines == [] then users else Load(AddLine(users, lines[0]), lines[1..])
  }

  function Count(lines: seq<string>): nat {
    if lines == [] then 0 else (if ParseLine(lines[0]).Entry? then 1 else 0) + Count(lines[1..])
  }

  lemma FirstLine(users: Users, line: string, rest: seq<string>)
    ensures Load(users, [line] + rest) == Load(AddLine(users, line), rest)
    ensures Count([line] + rest) == (if ParseLine(line).Entry? then 1 else 0) + Count(rest)
  {
    assert ([line] + rest)[1..] == rest;
  }

  lemma {:induction false} LoadAppends(users: Users, a: seq<string>, b: seq<string>)
    ensures Load(users, a + b) == Load(Load(users, a), b)
    decreases |a|
  {
    if a == [] {
      assert a + b == b;
    } else {
      assert (a + b)[0] == a[0] && (a + b)[1..] == a[1..] + b;
      LoadAppends(AddLine(users, a[0]), a[1..], b);
    }
  }

  ghost predicate NotAbout(lines: seq<string>, user: string) {
    forall i :: 0 <= i < |lines| ==> ParseLine(lines[i]).NoEntry? || ParseLine(lines[i]).user != user
  }

  lemma {:induction false} LaterLinesKeep(users: Users, lines: seq<string>, user: string)
    requires NotAbout(lines, user) && user in users
    ensures user in Load(users, lines) && Load(users, lines)[user] == users[user]
    decreases |lines|
  {
    if lines != [] {
      assert forall i :: 0 <= i < |lines[1..]| ==> lines[1..][i] == lines[i + 1];
      LaterLinesKeep(AddLine(users, lines[0]), lines[1..], user);
    }
  }

  function Authenticates(users: Users, user: string, password: string): bool {
    user in users &&
    if users[user].hashed then HexDigest(Salted(users[user].salt, password)) == users[user].stored
    else users[user].stored == password
  }

  predicate GoodUser(user: string) { user != "" && '=' !in user && '\n' !in user && user[0] != '#' }

  lemma ParseLineIs(user: string, value: string)
    requires GoodUser(user) && value != "" && value[|value| - 1] != '\r'
    ensures ParseLine(user + "=" + value) == ParseEntry(user, value)
  {
    hide ParseEntry;
    var line := user + "=" + value;
    assert line == "" + user + ['='] + value && line[0] == user[0] && line[|line| - 1] == value[|value| - 1];
    FindBetween("", user, '=', value);
  }

  lemma ParseHashedEntry(user: string, salt: string, digest: string)
    requires user != "" && ':' !in salt
    ensures ParseEntry(user, HASH_PREFIX + salt + ":" + digest) == Entry(user, UserRecord(true, salt, digest))
  {
    var value := HASH_PREFIX + salt + ":" + digest;
    FindBetween(HASH_PREFIX, salt, ':', digest);
    assert |HASH_PREFIX| == 7 && HASH_PREFIX <= value;
  }

  lemma DigestShape(s: string)
    ensures |HexDigest(s)| == 64 && HexDigest(s)[63] != '\r' && '\n' !in HexDigest(s)
  {
    hide Sha256.Digest, Sha256.Hex, Octets;
    Sha256.HexRoundTrip(Sha256.Words(Sha256.Digest(Octets(s))));
    assert Sha256.IsHexDigit(HexDigest(s)[63]);
  }

  /** Loading a file whose last line for a user holds hashPassword(pw, salt) makes a password p
      authenticate exactly when the salted digests of p and pw agree; in particular pw itself does. */
  lemma HashedCredentialRoundTrip(before: seq<string>, after: seq<string>, user: string, salt: string, pw: string,
                                  p: string)
    requires GoodUser(user) && salt != "" && ':' !in salt && '\n' !in salt && NotAbout(after, user)
    requires forall i :: 0 <= i < |before| ==> '\n' !in before[i]
    requires forall i :: 0 <= i < |after| ==> '\n' !in after[i]
    ensures var text := Unlines(before + [user + "=" + HashedPassword(pw, salt)] + after);
            Authenticates(Load(map[], Lines(text)), user, p)
            <==> HexDigest(Salted(salt, p)) == HexDigest(Salted(salt, pw))
  {
    hide ParseLine, ParseEntry, HexDigest, Lines, Load, Unlines;
    var digest := HexDigest(Salted(salt, pw));
    var value := HashedPassword(pw, salt);
    assert value == HASH_PREFIX + salt + ":" + digest;
    DigestShape(Salted(salt, pw));
    assert value[|value| - 1] == digest[63] && '\n' !in value;
    ParseLineIs(user, value);
    ParseHashedEntry(user, salt, digest);
    LastLineDecides(before, user + "=" + value, after, user);
  }

  /** The legacy plain form: exactly the stored text authenticates. */
  lemma PlainCredentialRoundTrip(before: seq<string>, after: seq<string>, user: string, pw: string, p: string)
    requires GoodUser(user) && pw != "" && '\n' !in pw && pw[|pw| - 1] != '\r' && !(HASH_PREFIX <= pw)
    requires NotAbout(after, user)
    requires forall i :: 0 <= i < |before| ==> '\n' !in before[i]
    requires forall i :: 0 <= i < |after| ==> '\n' !in after[i]
    ensures var text := Unlines(before + [user + "=" + pw] + after);
            Authenticates(Load(map[], Lines(text)), user, p) <==> p == pw
  {
    hide ParseLine, Lines, Load, Unlines;
    ParseLineIs(user, pw);
    LastLineDecides(before, user + "=" + pw, after, user);
  }

  lemma LastLineDecides(before: seq<string>, line: string, after: seq<string>, user: string)
    requires ParseLine(line).Entry? && ParseLine(line).user == user && '\n' !in line && NotAbout(after, user)
    requires forall i :: 0 <= i < |before| ==> '\n' !in before[i]
    requires forall i :: 0 <= i < |after| ==> '\n' !in after[i]
    ensures var users := Load(map[], Lines(Unlines(before + [line] + after)));
            user in users && users[user] == ParseLine(line).record
  {
    hide ParseLine, Lines, Unlines;
    LinesUnlines(before + [line] + after);
    LoadAppends(map[], before + [line], after);
    LoadAppends(map[], before, [line]);
    var users := Load(map[], before);
    assert Load(users, [line]) == Load(AddLine(users, line), []) by { assert [line][1..] == []; }
    LaterLinesKeep(AddLine(users, line), after, user);
  }
}
