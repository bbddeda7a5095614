/**
 The transfer loops: receiving an upload in chunks with a size limit, and the buffered send from an
 offset.  A socket is its sequence of results: the chunks it delivers, or what each send accepts.
 */
module Transfer {
  import opened Decimal

  type Bytes = seq<nat>
  const CHUNK_SIZE: nat := 65536

  function Flatten(chunks: seq<Bytes>): Bytes {
    if chunks == [] then [] else chunks[0] + Flatten(chunks[1..])
  }

  lemma {:induction false} FlattenAppends(a: seq<Bytes>, b: seq<Bytes>)
    ensures Flatten(a + b) == Flatten(a) + Flatten(b)
  {
    if a == [] {
      assert a + b == b;
    } else {
      assert (a + b)[1..] == a[1..] + b;
      FlattenAppends(a[1..], b);
    }
  }

  // ---------------------------------------------------------------- receiving

  datatype Result = Result(bytes: nat, ok: bool, overflow: bool)

  // How many whole chunks fit the limit; zero means no limit.
  function Fitting(chunks: seq<Bytes>, sofar: nat, limit: nat): (n: nat)
    ensures n <= |chunks|
  {
    if chunks == [] || (limit > 0 && sofar + |chunks[0]| > limit) then 0
    else 1 + Fitting(chunks[1..], sofar + |chunks[0]|, limit)
  }

  lemma {:induction false} FittingWithinLimit(chunks: seq<Bytes>, sofar: nat, limit: nat)
    requires limit > 0 ==> sofar <= limit
    ensures limit > 0 ==> sofar + |Flatten(chunks[..Fitting(chunks, sofar, limit)])| <= limit
    ensures Fitting(chunks, sofar, limit) == |chunks| <==> (limit == 0 || sofar + |Flatten(chunks)| <= limit)
    decreases |chunks|
  {
    var n := Fitting(chunks, sofar, limit);
    if chunks != [] {
      if n > 0 {
        FittingWithinLimit(chunks[1..], sofar + |chunks[0]|, limit);
        assert chunks[..n][0] == chunks[0] && chunks[..n][1..] == chunks[1..][..n - 1];
      }
    }
  }

  // What the file holds after the open: the mode is append exactly when the offset is positive.
  function Opened(existing: Bytes, appendOffset: nat): Bytes {
    if appendOffset > 0 then existing else []
  }

  class FileStore {
    var files: map<string, Bytes>
    const blocked: set<string>  // paths that cannot be opened for writing

    constructor (files: map<string, Bytes>, blocked: set<string>)
      ensures this.files == files && this.blocked == blocked
    {
      this.files, this.blocked := files, blocked;
    }

    ghost function Existing(path: string): Bytes
      reads this
    {
      if path in files then files[path] else []
    }

    method RecvFile(path: string, appendOffset: nat, chunks: seq<Bytes>, maxFileSize: nat) returns (result: Result)
      modifies this`files
      ensures path in blocked ==> files == old(files) && result == Result(0, false, false)
      ensures path !in blocked ==>
                var n := Fitting(chunks, 0, maxFileSize);
                var data := Flatten(chunks[..n]);
                && result == Result(|data|, n == |chunks|, n < |chunks|)
                && files == if n == |chunks| then old(files)[path := old(Opened(Existing(path), appendOffset)) + data]
                            else old(files) - {path}
    {
      if path in blocked { return Result(0, false, false); }
      ghost var base := Opened(Existing(path), appendOffset);
      if appendOffset > 0 {
        if path !in files { files := files[path := []]; }
      } else {
        files := files[path := []];
      }
      assert files == old(files)[path := base];
      result := AppendChunks(path, chunks, maxFileSize);
      if result.overflow {
        DeleteFile(path);
      }
    }

    // The receive loop, with the file open.
    method AppendChunks(path: string, chunks: seq<Bytes>, maxFileSize: nat) returns (result: Result)
      requires path in files
      modifies this`files
      ensures var n := Fitting(chunks, 0, maxFileSize);
              var data := Flatten(chunks[..n]);
              && result == Result(|data|, n == |chunks|, n < |chunks|)
              && files == old(files)[path := old(files)[path] + data]
    {
      var data: Bytes := [];
      var i: nat := 0;
      ghost var fits := Fitting(chunks, 0, maxFileSize);
      ghost var start := files[path];
      assert chunks[0..] == chunks && start + [] == start;
      while i < |chunks|
        invariant i <= fits && i + Fitting(chunks[i..], |data|, maxFileSize) == fits
        invariant data == Flatten(chunks[..i])
        invariant files == old(files)[path := start + data]
      {
        if maxFileSize > 0 && |data| + |chunks[i]| > maxFileSize {
          return Result(|data|, false, true);
        }
        files := files[path := files[path] + chunks[i]];
        assert start + data + chunks[i] == start + (data + chunks[i]);
        FlattenOneMore(chunks, i);
        data := data + chunks[i];
        assert chunks[i..][1..] == chunks[i + 1..];
        i := i + 1;
      }
      result := Result(|data|, true, false);
    }

    method DeleteFile(path: string)
      modifies this`files
      ensures files == old(files) - {path}
    {
      files := map p | p in files && p != path :: files[p];
    }
  }

  lemma FlattenOneMore(chunks: seq<Bytes>, i: nat)
    requires i < |chunks|
    ensures Flatten(chunks[..i + 1]) == Flatten(chunks[..i]) + chunks[i]
  {
    FlattenAppends(chunks[..i], [chunks[i]]);
    assert chunks[..i + 1] == chunks[..i] + [chunks[i]];
    assert Flatten([chunks[i]][1..]) == [];
  }

  // The file after an upload, as a value: absent after an overflow.
  datatype Stored = Absent | Present(content: Bytes)

  function AfterUpload(existing: Bytes, appendOffset: nat, chunks: seq<Bytes>, limit: nat): Stored {
    if Fitting(chunks, 0, limit) < |chunks| then Absent
    else Present(Opened(existing, appendOffset) + Flatten(chunks))
  }

  /** A single upload that is not aborted adds at most a positive maxFileSize, and it is aborted exactly
      when what arrives would exceed it. */
  lemma UploadWithinLimit(existing: Bytes, appendOffset: nat, chunks: seq<Bytes>, limit: nat)
    ensures var stored := AfterUpload(existing, appendOffset, chunks, limit);
            && (stored.Present? && limit > 0 ==> |stored.content| <= |Opened(existing, appendOffset)| + limit)
            && (stored.Absent? <==> limit > 0 && |Flatten(chunks)| > limit)
  {
    FittingWithinLimit(chunks, 0, limit);
    assert chunks[..|chunks|] == chunks;
  }

  function Zeros(n: nat): Bytes { seq(n, _ => 0) }

  // The file up to the offset, filled with zeros where it is shorter.
  function UpTo(existing: Bytes, offset: nat): (b: Bytes)
    ensures |b| == offset
  {
    if offset <= |existing| then existing[..offset] else existing + Zeros(offset - |existing|)
  }

  // Two readings of a restart in section 5 of RFC 3659: what follows the offset is replaced by the data, or
  // is overwritten by it as far as it reaches, which no data at all leaves alone.
  function Replaced(existing: Bytes, offset: nat, data: Bytes): Bytes { UpTo(existing, offset) + data }

  function Overwritten(existing: Bytes, offset: nat, data: Bytes): Bytes {
    if data == [] then existing
    else UpTo(existing, offset) + data + if offset + |data| < |existing| then existing[offset + |data|..] else []
  }

  /** The code appends at the end of the file, whatever the positive offset.  Under the first reading that is
      the restart exactly when the offset is the size of the file, under the second also when no data came. */
  lemma RestartMeetsRfcIff(existing: Bytes, offset: nat, chunks: seq<Bytes>, limit: nat)
    requires 0 < offset && AfterUpload(existing, offset, chunks, limit).Present?
    ensures var content, data := AfterUpload(existing, offset, chunks, limit).content, Flatten(chunks);
            && content == existing + data
            && (content == Replaced(existing, offset, data) <==> offset == |existing|)
            && (content == Overwritten(existing, offset, data) <==> offset == |existing| || data == [])
  {
    hide Fitting, Flatten;
    var data := Flatten(chunks);
    if offset == |existing| { assert existing[..offset] == existing; }
    if data == [] { assert existing + data == existing; }
    assert |Replaced(existing, offset, data)| == offset + |data|;
  }

  // ---------------------------------------------------------------- the REST argument

  const UINT64: nat := 0x1_0000_0000_0000_0000

  datatype Offset = InvalidOffset | Offset(value: nat)

  // The digit loop of handleRest, in 64-bit arithmetic, from the last character back.
  function ParseDigits(arg: string): Offset {
    if arg == "" then Offset(0)
    else
      var before := ParseDigits(arg[..|arg| - 1]);
      var c := arg[|arg| - 1];
      if before.InvalidOffset? || !IsDigit(c) then InvalidOffset
      else Offset((before.value * 10 + DigitValue(c)) % UINT64)
  }

  function ParseOffset(arg: string): Offset {
    if arg == "" then InvalidOffset else ParseDigits(arg)
  }

  method ReadOffset(arg: string) returns (offset: Offset)
    ensures offset == ParseOffset(arg)
  {
    if arg == "" { return InvalidOffset; }
    var value: nat, i: nat := 0, 0;
    while i < |arg|
      invariant i <= |arg| && ParseDigits(arg[..i]) == Offset(value)
    {
      assert arg[..i + 1][..i] == arg[..i] && arg[..i + 1][i] == arg[i];
      if arg[i] < '0' || arg[i] > '9' {
        InvalidStays(arg, i + 1);
        return InvalidOffset;
      }
      value := (value * 10 + (arg[i] as nat - '0' as nat)) % UINT64;
      i := i + 1;
    }
    assert arg[..i] == arg;
    offset := Offset(value);
  }

  lemma {:induction false} InvalidStays(arg: string, i: nat)
    requires i <= |arg| && ParseDigits(arg[..i]) == InvalidOffset
    ensures ParseDigits(arg) == InvalidOffset
    decreases |arg|
  {
    if i == |arg| {
      assert arg[..i] == arg;
    } else {
      assert arg[..|arg| - 1][..i] == arg[..i];
      InvalidStays(arg[..|arg| - 1], i);
    }
  }

  /** The offset text parses back to the number printed; longer digit strings are taken modulo 2^64. */
  lemma {:induction false} OffsetOfDigits(arg: string)
    requires forall i :: 0 <= i < |arg| ==> IsDigit(arg[i])
    ensures ParseDigits(arg) == Offset(Value(arg) % UINT64)
  {
    if arg != "" {
      OffsetOfDigits(arg[..|arg| - 1]);
      ModShift(Value(arg[..|arg| - 1]), DigitValue(arg[|arg| - 1]));
    }
  }

  lemma ModShift(v: nat, d: nat)
    ensures (v % UINT64 * 10 + d) % UINT64 == (v * 10 + d) % UINT64
  {
    var q := v / UINT64;
    assert v * 10 + d == (v % UINT64 * 10 + d) + UINT64 * (10 * q);
    ModMultiple(v % UINT64 * 10 + d, 10 * q);
  }

  lemma {:induction false} ModMultiple(x: nat, q: nat)
    ensures (x + UINT64 * q) % UINT64 == x % UINT64
  {
    if q > 0 { ModMultiple(x, q - 1); }
  }

  lemma OffsetRoundTrip(n: nat)
    requires n < UINT64
    ensures ParseOffset(Print(n)) == Offset(n)
  {
    hide Print, ParseDigits, Value;
    ValueOfPrint(n);
    OffsetOfDigits(Print(n));
  }

  // ---------------------------------------------------------------- resuming an upload

  // Each attempt after the first sends "REST <current size>" and then STOR of the rest of the source.
  function Resume(content: Bytes, attempts: seq<seq<Bytes>>, limit: nat): Stored
    decreases |attempts|
  {
    if attempts == [] then Present(content)
    else
      var offset := ParseOffset(Print(|content|));
      if offset.InvalidOffset? then Absent
      else
        var stored := AfterUpload(content, offset.value, attempts[0], limit);
        if stored.Absent? then Absent else Resume(stored.content, attempts[1..], limit)
  }

  // The network delivers some prefix of what was sent, within the limit.
  ghost predicate Plausible(content: Bytes, source: Bytes, attempts: seq<seq<Bytes>>, limit: nat)
    decreases |attempts|
  {
    attempts != [] ==>
      && content + Flatten(attempts[0]) <= source
      && (limit > 0 ==> |Flatten(attempts[0])| <= limit)
      && Plausible(content + Flatten(attempts[0]), source, attempts[1..], limit)
  }

  function Delivered(attempts: seq<seq<Bytes>>): nat {
    if attempts == [] then 0 else |Flatten(attempts[0])| + Delivered(attempts[1..])
  }

  lemma {:induction false} ResumeKeepsPrefix(content: Bytes, source: Bytes, attempts: seq<seq<Bytes>>, limit: nat)
    requires content <= source && |source| < UINT64 && Plausible(content, source, attempts, limit)
    ensures var stored := Resume(content, attempts, limit);
            stored.Present? && stored.content <= source && |stored.content| == |content| + Delivered(attempts)
    decreases |attempts|
  {
    if attempts != [] {
      OffsetRoundTrip(|content|);
      UploadWithinLimit(content, |content|, attempts[0], limit);
      assert Opened(content, |content|) == content;
      ResumeKeepsPrefix(content + Flatten(attempts[0]), source, attempts[1..], limit);
    }
  }

  /** For any number of interruptions, STOR from 0 and then REST with the current size and STOR of the rest
      each time leaves a prefix of the source, and exactly the source once every byte has arrived. */
  lemma ResumeReassembles(previous: Bytes, source: Bytes, first: seq<Bytes>, attempts: seq<seq<Bytes>>, limit: nat)
    requires |source| < UINT64 && Plausible([], source, [first] + attempts, limit)
    ensures var start := AfterUpload(previous, 0, first, limit);
            && start == Present(Flatten(first))
            && var stored := Resume(start.content, attempts, limit);
               && stored.Present? && stored.content <= source
               && (stored.content == source <==> |Flatten(first)| + Delivered(attempts) == |source|)
  {
    assert ([first] + attempts)[0] == first && ([first] + attempts)[1..] == attempts;
    assert [] + Flatten(first) == Flatten(first);
    UploadWithinLimit(previous, 0, first, limit);
    ResumeKeepsPrefix(Flatten(first), source, attempts, limit);
  }

  // ---------------------------------------------------------------- the buffered send

  // The i-th send fails, or takes the first `accepts(i)` bytes of its chunk.
  type Sends = nat -> int

  function ChunkLength(rest: Bytes): nat { if |rest| < CHUNK_SIZE then |rest| else CHUNK_SIZE }

  // What the peer receives when the rest of the file is sent from the i-th send on.
  function Sent(rest: Bytes, accepts: Sends, i: nat): Bytes
    decreases |rest|
  {
    if rest == [] || accepts(i) < 0 then []
    else
      var n := ChunkLength(rest);
      var m := if accepts(i) < n then accepts(i) else n;
      rest[..m] + Sent(rest[n..], accepts, i + 1)
  }

  // Every send that is made takes its whole chunk.
  predicate EverySendCompletes(rest: Bytes, accepts: Sends, i: nat)
    decreases |rest|
  {
    rest == [] || (accepts(i) >= ChunkLength(rest) && EverySendCompletes(rest[ChunkLength(rest)..], accepts, i + 1))
  }

  // What is added to the count of bytes sent: the whole chunk, however much of it the send took.
  function Counted(rest: Bytes, accepts: Sends, i: nat): nat
    decreases |rest|
  {
    if rest == [] || accepts(i) < 0 then 0
    else ChunkLength(rest) + Counted(rest[ChunkLength(rest)..], accepts, i + 1)
  }

  // Every send up to the first failing one takes its whole chunk.
  predicate NoneCutShort(rest: Bytes, accepts: Sends, i: nat)
    decreases |rest|
  {
    rest == [] || accepts(i) < 0
    || (accepts(i) >= ChunkLength(rest) && NoneCutShort(rest[ChunkLength(rest)..], accepts, i + 1))
  }

  method SendFileBuffered(file: Bytes, offset: nat, accepts: Sends) returns (received: Bytes, bytes: nat)
    ensures var rest := if offset <= |file| then file[offset..] else [];
            && received == Sent(rest, accepts, 0) && bytes == Counted(rest, accepts, 0)
            && (bytes == |received| <==> NoneCutShort(rest, accepts, 0))
  {
    hide Sent, Counted, NoneCutShort;
    var position := if offset <= |file| then offset else |file|;
    ghost var rest := file[position..];
    received, bytes := [], 0;
    var i: nat := 0;
    assert [] + Sent(rest, accepts, 0) == Sent(rest, accepts, 0);
    CountMatchesIff(rest, accepts, 0);
    while position < |file|
      invariant position <= |file|
      invariant received + Sent(file[position..], accepts, i) == Sent(rest, accepts, 0)
      invariant bytes + Counted(file[position..], accepts, i) == Counted(rest, accepts, 0)
    {
      var left := file[position..];
      SendStep(left, accepts, i);
      var n := ChunkLength(left);
      if accepts(i) < 0 { break; }
      var m := if accepts(i) < n then accepts(i) else n;
      Regroup(received, left[..m], Sent(left[n..], accepts, i + 1));
      received := received + left[..m];
      bytes := bytes + n;
      position := position + n;
      assert left[n..] == file[position..];
      i := i + 1;
    }
    SendStep([], accepts, i);
    assert position == |file| ==> file[position..] == [];
  }

  lemma Regroup(a: Bytes, b: Bytes, c: Bytes)
    ensures a + (b + c) == (a + b) + c
  {
  }

  // One turn of the loop.
  lemma SendStep(rest: Bytes, accepts: Sends, i: nat)
    ensures rest == [] || accepts(i) < 0 ==> Sent(rest, accepts, i) == [] && Counted(rest, accepts, i) == 0
    ensures rest != [] && accepts(i) >= 0 ==>
              var n := ChunkLength(rest);
              var m := if accepts(i) < n then accepts(i) else n;
              && Sent(rest, accepts, i) == rest[..m] + Sent(rest[n..], accepts, i + 1)
              && Counted(rest, accepts, i) == n + Counted(rest[n..], accepts, i + 1)
  {
  }

  /** The count is never too low, and right exactly if no send before a failing one was cut short. */
  lemma {:induction false} CountMatchesIff(rest: Bytes, accepts: Sends, i: nat)
    ensures |Sent(rest, accepts, i)| <= Counted(rest, accepts, i) <= |rest|
    ensures Counted(rest, accepts, i) == |Sent(rest, accepts, i)| <==> NoneCutShort(rest, accepts, i)
    decreases |rest|
  {
    if rest != [] && accepts(i) >= 0 { CountMatchesIff(rest[ChunkLength(rest)..], accepts, i + 1); }
  }

  lemma {:induction false} SentAtMost(rest: Bytes, accepts: Sends, i: nat)
    ensures |Sent(rest, accepts, i)| <= |rest|
    ensures EverySendCompletes(rest, accepts, i) ==> Sent(rest, accepts, i) == rest
    ensures !EverySendCompletes(rest, accepts, i) ==> |Sent(rest, accepts, i)| < |rest|
    decreases |rest|
  {
    if rest != [] && accepts(i) >= 0 {
      var n := ChunkLength(rest);
      SentAtMost(rest[n..], accepts, i + 1);
      assert rest == rest[..n] + rest[n..];
    }
  }

  /** The first k bytes plus a buffered send from offset k make up the file exactly when every send takes
      its whole chunk: a send that takes less is counted as complete and its remainder is lost. */
  lemma DownloadReassemblesIff(file: Bytes, k: nat, accepts: Sends)
    requires k <= |file|
    ensures file[..k] + Sent(file[k..], accepts, 0) == file <==> EverySendCompletes(file[k..], accepts, 0)
  {
    SentAtMost(file[k..], accepts, 0);
    assert file == file[..k] + file[k..];
  }
}
