/**
 The authentication manager as the object the sessions share: the user table, the throttle table and the
 failure counter, each changed in place by its own critical section.
 */
module AuthManager {
  import opened Credentials
  import opened LoginThrottle
  import Sha256
  import opened Text

  datatype File = Unreadable | Readable(text: string)

  class AuthManager {
    var users: Users
    var rateMap: RateMap
    var totalFailed: nat

    constructor ()
      ensures users == map[] && rateMap == map[] && totalFailed == 0
    {
      users, rateMap, totalFailed := map[], map[], 0;
    }

    method LoadUsers(file: File) returns (ok: bool)
      modifies this`users
      ensures file.Unreadable? ==> !ok && users == old(users)
      ensures file.Readable? ==> users == Load(map[], Lines(file.text)) && (ok <==> Count(Lines(file.text)) > 0)
    {
      if file.Unreadable? { return false; }
      users := map[];
      var count := 0;
      var rest := file.text;
      while rest != ""
        invariant Load(users, Lines(rest)) == Load(map[], Lines(file.text))
        invariant count + Count(Lines(rest)) == Count(Lines(file.text))
        decreases |rest|
      {
        hide ParseLine, Load, Count;
        var n := Find(rest, '\n', 0);
        var line, after := rest[..n], if n == |rest| then "" else rest[n + 1..];
        if n == |rest| { assert line == rest && Lines(after) == []; }
        assert Lines(rest) == [line] + Lines(after);
        FirstLine(users, line, Lines(after));
        var added := LoadLine(line);
        if added { count := count + 1; }
        rest := after;
      }
      return count > 0;
    }

    // The body of the loop over the lines.
    method LoadLine(raw: string) returns (added: bool)
      modifies this`users
      ensures users == AddLine(old(users), raw) && (added <==> ParseLine(raw).Entry?)
    {
      var line := raw;
      if line != "" && line[|line| - 1] == '\r' { line := line[..|line| - 1]; }
      if line == "" || line[0] == '#' { return false; }
      var eq := Find(line, '=', 0);
      if eq == |line| { return false; }
      var user, value := line[..eq], line[eq + 1..];
      if user == "" || value == "" { return false; }
      if |value| >= 7 && value[..7] == HASH_PREFIX {
        var p1 := Find(value, ':', 7);
        if p1 == |value| { return false; }
        users := users[user := UserRecord(true, value[7..p1], value[p1 + 1..])];
      } else {
        users := users[user := UserRecord(false, "", value)];
      }
      return true;
    }

    method Authenticate(user: string, pass: string) returns (ok: bool)
      ensures ok <==> Authenticates(users, user, pass)
    {
      if user !in users { return false; }
      var rec := users[user];
      if rec.hashed {
        var digest := Sha256.Compute(Octets(rec.salt + ":" + pass));
        return digest == rec.stored;
      } else {
        return rec.stored == pass;
      }
    }

    // `generated` is what the random source yields, used when no salt is given.
    static method HashPassword(password: string, saltIn: string, generated: string) returns (entry: string)
      ensures entry == HashedPassword(password, if saltIn == "" then generated else saltIn)
    {
      var salt := if saltIn == "" then generated else saltIn;
      var hash := Sha256.Compute(Octets(salt + ":" + password));
      entry := "sha256:" + salt + ":" + hash;
    }

    method IsRateLimited(ip: string, now: int) returns (limited: bool)
      modifies this`rateMap
      ensures limited == Limited(old(rateMap), ip, now)
      ensures rateMap == AfterCheck(old(rateMap), ip, now)
    {
      if ip !in rateMap { return false; }
      if rateMap[ip].failedAttempts >= MAX_ATTEMPTS {
        if now < rateMap[ip].blockedUntil { return true; }
        rateMap := rateMap[ip := RateInfo(0, 0)];
      }
      return false;
    }

    method RecordFailedAttempt(ip: string, now: int)
      modifies this`rateMap, this`totalFailed
      ensures rateMap == AfterFailure(old(rateMap), ip, now) && totalFailed == old(totalFailed) + 1
    {
      var info := if ip in rateMap then rateMap[ip] else RateInfo(0, 0);
      info := info.(failedAttempts := info.failedAttempts + 1);
      totalFailed := totalFailed + 1;
      if info.failedAttempts >= MAX_ATTEMPTS {
        info := info.(blockedUntil := now + BLOCK_SECS);
      }
      rateMap := rateMap[ip := info];
    }

    method ClearAttempts(ip: string)
      modifies this`rateMap
      ensures rateMap == AfterClear(old(rateMap), ip)
    {
      rateMap := map x | x in rateMap && x != ip :: rateMap[x];
    }
  }
}
