# A verified model of the FTP server and client

This project models the parts of the FTP server and its client in which something can go wrong that no single
function shows: threads that could sleep for ever, handlers that interleave, two programs that could lose step with
each other, bytes that could be lost between two uploads. Each component is a Dafny module. Code that changes objects
in place is a class whose methods are proved against functions on values; what the system promises is then proved of
those functions, over every run, every interleaving and every input.

| module | what it holds |
|---|---|
| `PoolProtocol`, `ThreadPool` | the worker pool over the semaphore condition variable: a transition system over every atomic step, and the objects that take those steps |
| `Sha256`, `Sha256Constants` | SHA-256 as FIPS 180-4 defines it, the byte-and-loop implementation that refines it, and the origin of its constants |
| `LoginThrottle`, `AuthManager`, `Credentials`, `Text` | the throttle under interleaved PASS handlers, the user table, the credentials file |
| `SessionPaths`, `SessionSpec`, `Session` | the virtual directory, the session as a function of what it receives, and the session object with its handlers and command loop |
| `Client`, `ReplyLines`, `Lockstep`, `FileTransfers` | replies read back from bytes, client and session composed over every interleaving, and the files behind the two |
| `JoinedCommands`, `Skewed`, `LateReplies`, `AbandonedDownload` | what an abandoned download does to the two: commands that one receive takes together, replies read late, and exactly which scripts can leave the session accepting for ever |
| `Bandwidth`, `Transfer`, `DataChannel` | the rate limiter, the transfer loops and the ownership of sockets |
| `Address`, `Decimal` | the address texts of PORT and PASV |
| `RemoveTree` | recursive directory removal |

Conventions. A *history* (`accepted`, `ended`, `log`, `login`, `sync`) records what has happened and is read by no step.
What the operating system, the clock, the network and the file system do is a parameter: a `World`, a `Faults`, clock
readings, the chunks a socket delivers. A reply is its code and its text, or its code and its lines. The handlers of
`Session.Session` are methods that change the fields in place, each proved to move the object as its function in
`SessionSpec` says; the table lists those with loops or calls of other components, and `Run`, which rests on all of
them. Where a property turned out to hold under a
condition only, the condition is part of the statement, as an equivalence.

## What the proofs show about the code

- The hand-built condition variable never loses a wakeup although tokens go stale and late sleepers steal them, and
  although the shutdown flag flips outside the lock. Every schedule quiesces, and what is quiescent is done.
- The throttle admits more than `kMaxAttempts` failures in a window when handlers interleave: up to
  `kMaxAttempts - 1 + k` with k handlers, and that number is reached (`BoundAttained`). Only k = 1 gives the limit that
  the constant's name promises.
- The permission test `isWithinRoot` never refuses a path that `resolvePath` produced (`ResolveInside`): containment is
  lexical, and `..` is not interpreted by either.
- Exactly one command after login goes without a reply: a PORT of which some number that is read is no `int`. It throws
  out of the command loop (`EveryCommandAnswered`, `PortXThrows`). Fewer than six numbers are answered, the missing ones
  counting as zero (`FiveNumbersAnswered`).
- A control connection that ends inside a multi-line reply keeps the client's `readReply` in its loop for ever, and
  nothing else does: it returns if and only if some line of the stream ends the reply (`ReadReplyReturnsIff`,
  `GreetingCutShort`).
- REST with a positive offset appends at the end of the file, whatever the offset; the comment above the handler
  describes the restart of RFC 3659. If a restart replaces what follows the offset, the two agree exactly when the
  offset is the size of the file; if it overwrites in place, also when no data came (`RestartMeetsRfcIff`).
- A send that takes only part of a chunk is counted as complete and the remainder is lost: the count is right exactly
  if no send before a failing one was cut short (`CountMatchesIff`), and the buffered download is whole exactly when
  every send takes its whole chunk (`DownloadReassemblesIff`).
- A store is answered 226 also after a failing receive. After the end of the stream the session holds the whole file
  (`StoreAnswered`); after a break the client can read 226 with not a byte stored (`BrokenStore`).
- The client falls out of step in one way only: the 150 of a download whose local file cannot be created. A script can
  come to a reply read for the wrong command exactly if it holds such a download, of a name the session accepts, and an
  operation that sends a command after it (`MisreadsIff`).
- From then on two commands can be under way, and one receive may take both. The session refuses them together, in two
  lines or in one; the one line brings the client in step again (`JoinedTurn`).
- For scripts in which two commands in a row fit in one receive, the script alone decides whether the session can be left
  accepting for ever: exactly if, after such a download, a data operation with an acceptable name follows another data
  operation (`ScriptSticksIff`). Every other such script is finished by every schedule, however commands are joined and
  despite every fault of the network or the files (`SafeScriptFinishes`), and no reply is ever more than one command
  late (`NeverTwoLate`). The hypothesis is needed: with a longer line the cut end of a directory's name can be taken for
  a PASV (`LongLinesStick`). Scripts whose local files can all be created are finished in step without it
  (`EveryScriptFinishes`).
- While the two are in step, what an upload left at the end of its stream is what the next download of the name returns
  (`UploadThenDownload`).

## Model

| member | source | states |
|---|---|---|
| `PoolProtocol.StepKeepsInv` | src/server/thread_pool.cpp:25-88 | every atomic step of a worker, a submitter or a shutdown caller keeps the mutex, thread, wakeup and history invariants |
| `PoolProtocol.ReachableInv` | src/server/thread_pool.cpp:25-88 | so every reachable state has them, with any number of threads of each kind |
| `PoolProtocol.NoLostWakeup` | src/common/win32_threads.h:52-60 | with the lock free, `waiters_` is the sleepers plus the woken, and tokens plus woken cover min(queue, sleepers + woken), despite stale and stolen tokens |
| `PoolProtocol.QueueNeverStuck` | src/server/thread_pool.cpp:61-80 | a non-empty queue with a worker always has an enabled step: a worker's if the lock is free, the holder's otherwise |
| `PoolProtocol.NeverTakesFromEmptyQueue` | src/server/thread_pool.cpp:78-79 | `front()` and `pop()` are reached with a task in the queue only, and take the first |
| `PoolProtocol.ActiveCountExact` | src/server/thread_pool.cpp:82-86 | `activeTasks_` is the number of workers between increment and decrement; the guard of `dec` never acts |
| `PoolProtocol.MeasureFalls` | src/server/thread_pool.cpp:61-88 | every step inside the pool lowers a measure, and a call raises it by a fixed amount |
| `PoolProtocol.EveryRunQuiesces` | src/server/thread_pool.cpp:61-88 | under any schedule the number of steps is bounded by the calls made: nothing spins |
| `PoolProtocol.QuiescentMeansDone` | src/server/thread_pool.cpp:25-88 | when no step is enabled every accepted task has run exactly once, and after shutdown all workers have exited and all callers returned |
| `PoolProtocol.FlagLeadsToNotify` | src/server/thread_pool.cpp:37-44 | between the flip of the flag and `notify_all` the winning caller is waiting for the mutex or holds it |
| `PoolProtocol.ShutdownReachesEveryWorker` | src/server/thread_pool.cpp:37-50 | after `notify_all` tokens suffice for all sleepers in every later state, nobody starts to wait and nothing is accepted |
| `PoolProtocol.AcceptedInOrder` | src/server/thread_pool.cpp:25-35 | accepted == dequeued ++ queue always; dequeued tasks are the ended ones and those in flight; empty once a worker leaves |
| `PoolProtocol.EmptyForEverAfterExit` | src/server/thread_pool.cpp:72-76 | after the first exit the queue is empty in every later state of every run |
| `PoolProtocol.ShutdownDrains` | src/server/thread_pool.cpp:37-50 | when the winning `shutdown` returns every accepted task has run exactly once, with one worker in submit order, and nothing is accepted or run afterwards |
| `ThreadPool.CondVar.BeginWait` | src/common/win32_threads.h:52-54 | counts the waiter in and touches no token |
| `ThreadPool.CondVar.TakeToken` | src/common/win32_threads.h:55 | the semaphore is passed by taking one token |
| `ThreadPool.CondVar.EndWait` | src/common/win32_threads.h:56-57 | counts the waiter out |
| `ThreadPool.CondVar.NotifyOne` | src/common/win32_threads.h:59 | one token if anyone waits, none otherwise |
| `ThreadPool.CondVar.NotifyAll` | src/common/win32_threads.h:60 | as many tokens as waiters |
| `ThreadPool.ThreadPool.constructor` | src/server/thread_pool.cpp:10-19 | a new pool is an initial state of the protocol |
| `ThreadPool.ThreadPool.LoopStep` | src/server/thread_pool.cpp:61-79 | lock, the two tests, front and pop, leave: the object's whole new state is the protocol's next state, and reachable |
| `ThreadPool.ThreadPool.WaitStep` | src/server/thread_pool.cpp:68-70 | the five steps of `cv_.wait` likewise |
| `ThreadPool.ThreadPool.TaskStep` | src/server/thread_pool.cpp:80-87 | unlock, count in, run or throw, count out likewise |
| `ThreadPool.ThreadPool.Submit` | src/server/thread_pool.cpp:25-26 | a call of `submit` begins |
| `ThreadPool.ThreadPool.SubmitterStep` | src/server/thread_pool.cpp:26-35 | lock, flag test, push, notify under the lock, unlock likewise |
| `ThreadPool.ThreadPool.Shutdown` | src/server/thread_pool.cpp:37-38 | the exchange outside the lock: only the caller that finds the flag clear goes on |
| `ThreadPool.ThreadPool.CloserStep` | src/server/thread_pool.cpp:41-49 | lock, `notify_all`, unlock and the joins likewise |
| `Sha256.Compute` | src/common/sha256.h:37-103 | the loops over bytes, blocks, schedule and rounds return the hexadecimal FIPS 180-4 digest, 64 characters; from 2^61 bytes on the length field wraps in code and specification alike |
| `Sha256.PadMessage` | src/common/sha256.h:42-54 | the grown buffer is the padding of section 5.1.1, the bit length kept in 64 bits |
| `Sha256.PadZeros` | src/common/sha256.h:50-51 | appends exactly the zero bytes that reach 56 modulo 64 |
| `Sha256.AppendLength` | src/common/sha256.h:52-54 | appends the 64-bit length, most significant byte first |
| `Sha256.LoadWords` | src/common/sha256.h:60-65 | the first 16 words are the block in big-endian order |
| `Sha256.PrepareSchedule` | src/common/sha256.h:58-70 | the array `w` holds the 64-word schedule of section 6.2.2 |
| `Sha256.MixSchedule` | src/common/sha256.h:67-69 | one schedule word through the shift form of the two small sigmas |
| `Sha256.MixRound` | src/common/sha256.h:77-82 | the two temporaries of a round through the shift form of the two big sigmas |
| `Sha256.CompressBlock` | src/common/sha256.h:72-92 | eight variables rotated in place compute 64 rounds and the feed-forward |
| `Sha256.ShiftsBig0` | src/common/sha256.h:14-16 | `rotr32` by two shifts is the rotation, in the sigma of line 80 |
| `Sha256.ShiftsBig1` | src/common/sha256.h:77 | the same for line 77 |
| `Sha256.ShiftsSmall0` | src/common/sha256.h:67 | the same for line 67 |
| `Sha256.ShiftsSmall1` | src/common/sha256.h:68 | the same for line 68 |
| `Sha256.PadMinimal` | src/common/sha256.h:47-54 | the padded length is the least multiple of 64 that holds message, marker and length |
| `Sha256.UnpadPad` | src/common/sha256.h:43-54 | padding can be undone under 2^61 bytes, hence is injective |
| `Sha256.BigEndianRoundTrip` | src/common/sha256.h:53-54 | the length field reads back |
| `Sha256.HexRoundTrip` | src/common/sha256.h:95-102 | the output is lowercase hexadecimal digits that decode back to the eight words |
| `Sha256.RoundsBijective` | src/common/sha256.h:76-88 | for a fixed schedule the 64 rounds are a bijection, with the inverse given |
| `Sha256.ScheduleRewinds` | src/common/sha256.h:66-70 | any 16 consecutive schedule words determine the block |
| `Sha256Constants.RoundConstantsAreCubeRoots` | src/common/sha256.h:18-35 | each K is the first 32 fraction bits of the cube root of its prime |
| `Sha256Constants.InitialHashIsSquareRoots` | src/common/sha256.h:38-40 | each initial word is that of the square root of its prime |
| `LoginThrottle.StepKeepsInv` | src/server/auth.cpp:111-152 | every interleaved check, authentication, record or clear keeps the throttle invariant of every address |
| `LoginThrottle.InterleavedBound` | src/server/session.cpp:215-229 | with at most k handlers of an address at once, attempts plus pending handlers never exceed kMaxAttempts - 1 + k, nor do the failures in any half-open window |
| `LoginThrottle.SerialBound` | src/server/auth.cpp:111-147 | one at a time, any window of kBlockSecs holds at most kMaxAttempts failures |
| `LoginThrottle.AdmittedOnlyAfterBlock` | src/server/auth.cpp:111-129 | a check admits below the limit, or kBlockSecs after the last counted failure |
| `LoginThrottle.OtherAddressesUnaffected` | src/server/auth.cpp:111-152 | a step for one address changes nothing about any other |
| `LoginThrottle.TotalCountsFailures` | src/server/auth.cpp:131-135 | `totalFailed_` is the number of recorded failures |
| `LoginThrottle.BoundAttained` | src/server/session.cpp:215-229 | with k handlers some run records kMaxAttempts - 1 + k failures within a second |
| `LoginThrottle.PassIsARun` | src/server/session.cpp:215-229 | a handler that nobody interrupts is a run of the interleaved machine, with the table `AfterPass` gives |
| `AuthManager.AuthManager.LoadUsers` | src/server/auth.cpp:39-90 | an unreadable file keeps the table; otherwise it is replaced by the file's entries, true if there were any |
| `AuthManager.AuthManager.LoadLine` | src/server/auth.cpp:52-86 | one line adds its entry or nothing |
| `AuthManager.AuthManager.Authenticate` | src/server/auth.cpp:93-106 | true exactly if the user is known and digest or plain text agrees |
| `AuthManager.AuthManager.HashPassword` | src/server/auth.cpp:27-32 | the stored form, with the salt given or a generated one |
| `AuthManager.AuthManager.IsRateLimited` | src/server/auth.cpp:111-129 | refuses inside a block, resets an expired one |
| `AuthManager.AuthManager.RecordFailedAttempt` | src/server/auth.cpp:131-147 | counts the failure and blocks from the limit on |
| `AuthManager.AuthManager.ClearAttempts` | src/server/auth.cpp:149-152 | forgets this address only |
| `Credentials.SaltedInjective` | src/common/sha256.h:111-113 | salt:password is an injective encoding for salts without a colon |
| `Credentials.LinesUnlines` | src/server/auth.cpp:51-52 | the lines of a written file are read back |
| `Credentials.LoadAppends` | src/server/auth.cpp:52-86 | loading distributes over concatenation, so a later line of a user wins |
| `Credentials.HashedCredentialRoundTrip` | src/server/auth.cpp:27-106 | with hashPassword(pw, salt) on the user's last line, p authenticates exactly when the digests of salt:p and salt:pw agree |
| `Credentials.PlainCredentialRoundTrip` | src/server/auth.cpp:76-105 | with plain text on it, exactly that text authenticates |
| `SessionPaths.ResolveInside` | src/server/session.cpp:167-188 | resolving any argument stays lexically inside the root and passes the permission test |
| `SessionPaths.CdupInside` | src/server/session.cpp:266-273 | so does CDUP |
| `SessionPaths.PwdRoundTrip` | src/server/session.cpp:245-264 | CWD to what PWD printed gives the same PWD from any directory |
| `SessionPaths.CwdCdupIdentity` | src/server/session.cpp:254-273 | CWD to a separator-free name and CDUP is the identity |
| `SessionPaths.CdupReachesRoot` | src/server/session.cpp:266-273 | CDUP repeated once for each component below the root, or more often, is at the root |
| `SessionSpec.ReadyGood` | src/server/session.cpp:97-117 | any command after login keeps login and root, stays inside, answers by section 4.2 of RFC 959, and uses the offset exactly when it starts a transfer; or is a PORT that throws, or one on which the source leaves the language |
| `SessionSpec.TurnKeepsInv` | src/server/session.cpp:50-118 | one turn of the loop on any received bytes keeps the session invariant |
| `SessionSpec.InitialInv` | src/server/session.cpp:45-48 | the greeting establishes it |
| `SessionSpec.SessionInvariant` | src/server/session.cpp:45-120 | in every run the loop head is never TRANSFERRING, READY means a login since the last accepted USER with that user's root, and the directory is inside it |
| `SessionSpec.ReadyByAuthentication` | src/server/session.cpp:191-234 | a turn ends in READY only by authenticating its user, or from READY with the same user |
| `SessionSpec.ReadyMeansAuthenticated` | src/server/session.cpp:191-234 | in every run a READY session was authenticated as its user by one command, a PASS whose argument the user table accepts for that user and whose address was not throttled, or a permitted anonymous USER, and has been READY in that user's root ever since |
| `SessionSpec.EveryCommandAnswered` | src/server/session.cpp:50-118 | every command gets one final reply after at most one 150, and 500 if too long; of the commands on which the source keeps to the language exactly a PORT after login with a number that is no int gets none |
| `SessionSpec.PortXThrows` | src/server/session.cpp:321-323 | the received line `PORT x` throws: no reply, and the session is over |
| `SessionSpec.FiveNumbersAnswered` | src/server/session.cpp:321-328 | any five octets are answered, by 200 or 504 |
| `SessionSpec.NothingBeforeLogin` | src/server/session.cpp:91-95 | before login all but six commands get 530 and change nothing |
| `SessionSpec.OffsetAfterTurn` | src/server/session.cpp:369-429 | a transfer starts at the offset and clears it; nothing else but REST touches it |
| `SessionSpec.OffsetUsedOnce` | src/server/session.cpp:490-502 | in every run without REST from a zero offset all transfers start at zero, across failures and logins |
| `SessionSpec.LineRoundTrip` | src/server/session.cpp:68-79 | a line of verb, space and argument is read as those two |
| `Session.Session.CleanCommand` | src/server/session.cpp:141-149 | strips line ends behind and blanks in front, by loops |
| `Session.Session.IsSafeFilename` | src/server/session.cpp:155-164 | non-empty and without control characters |
| `Session.Session.ResolvePath` | src/server/session.cpp:167-177 | the in-place normalisation resolves as specified |
| `Session.Session.IsWithinRoot` | src/server/session.cpp:179-188 | the case-insensitive prefix test |
| `Session.Session.HandlePass` | src/server/session.cpp:211-234 | calls `isRateLimited`, `authenticate` on its argument and `clearAttempts` or `recordFailedAttempt` of the shared manager: the four outcomes, the table and the counter afterwards |
| `Session.Session.HandlePwd` | src/server/session.cpp:245-252 | prints the directory below the root with forward slashes |
| `Session.Session.HandleCdup` | src/server/session.cpp:266-273 | the backward search for the separator and the guarded move |
| `Session.Session.HandlePort` | src/server/session.cpp:321-328 | parses its argument by the shared loop: 200, 504 for a port below 1024, or the throw |
| `Session.Session.HandleRest` | src/server/session.cpp:490-502 | the digit loop sets the offset or refuses |
| `Session.Session.Receive` | src/server/session.cpp:60-117 | one turn of the loop is the specified turn |
| `Session.Session.Run` | src/server/session.cpp:45-120 | the object's run on any received bytes, with other sessions changing the shared tables in between, ends in the specified state, having sent the specified replies and begun the specified transfers; the invariant holds at its end |
| `Client.FTPClient.ReadLine` | src/client/ftp_client.cpp:56-60 | the byte loop takes exactly one line and leaves the rest |
| `Client.FTPClient.ReadReply` | src/client/ftp_client.cpp:53-78 | takes exactly one reply, single- or multi-line; what is left when it has not returned after a number of turns of its loop |
| `Client.ReadReplyReturnsIff` | src/client/ftp_client.cpp:64-76 | a multi-line reply is returned after some number of turns if and only if some line of the stream ends it |
| `Client.GreetingCutShort` | src/client/ftp_client.cpp:64-76 | on `220-Welcome` and the end of the connection, after none |
| `Client.ReadsBack` | src/server/session.cpp:127-131 | `readReply` undoes `sendReply`, for replies of one line and of several, and `getReplyCode` its code |
| `Client.RepliesReadBack` | src/client/ftp_client.cpp:53-83 | after n `readReply`s of a stream the next returns the n-th reply sent |
| `Client.MultiLineReadsBack` | src/client/ftp_client.cpp:63-76 | a multi-line reply is consumed up to its first closing line, however long |
| `Client.FeaturesReadBack` | src/server/session.cpp:304-312 | the reply to FEAT is consumed whole |
| `ReplyLines.RepliesAreLines` | src/server/session.cpp:245-484 | every reply to the client's commands is one line, whatever the names |
| `Address.SplitUndoesJoin` | src/server/data_channel.h:69-74 | splitting at commas one character at a time undoes joining |
| `Address.ReadNumbers` | src/server/data_channel.h:67-74 | the loop over `nums[6]` both parsers share: throws exactly if a field it reads is no int, else fills the array |
| `Address.ParsePortCommand` | src/server/data_channel.h:65-78 | address and port of a PORT argument, or the throw |
| `Address.StoiReads` | src/server/data_channel.h:71-74 | `std::stoi` on blanks, a sign, digits and anything after them |
| `Address.NumbersReadBack` | src/server/data_channel.h:67-74 | one to six ints printed with commas are read back, the missing ones as zero |
| `Address.PortRoundTrip` | src/server/data_channel.h:65-78 | so are address and port |
| `Address.ParsePasvReply` | src/client/ftp_client.cpp:92-106 | the client's cut at the parentheses and its numbers, or the throw |
| `Address.PasvRoundTrip` | src/server/data_channel.h:81-85 | the client's parser undoes `pasvResponse` for every port |
| `Decimal.ValueOfPrint` | src/server/data_channel.h:83-84 | decimal printing reads back |
| `Lockstep.Served` | src/server/session.cpp:50-118 | every command line of the client gets its replies: two only for data commands, two always for LIST |
| `Lockstep.TargetOfOffer` | src/client/ftp_client.cpp:89-108 | the port the client connects to is the one behind the 227 it read |
| `Lockstep.StepKeepsInv` | src/client/ftp_client.cpp:116-186 | every step of client or session, under any interleaving and fault, keeps the two-party invariant |
| `Lockstep.ReplyIsOwnIff` | src/client/ftp_client.cpp:53-78 | a `readReply` returns a reply to the client's latest command exactly as long as no download was abandoned; the first one after that returns a reply to the command before |
| `Lockstep.NothingLeftOverIff` | src/client/ftp_client.cpp:116-186 | between operations nothing is unread, unanswered or owed, exactly if no download was abandoned |
| `Lockstep.OpenFindsConnection` | src/server/data_channel.h:49-53 | whenever the session comes to accept, the client's connection to the current listener is waiting; the client connects to no other |
| `Lockstep.Delivered` | src/client/ftp_client.cpp:118-184 | a list or download ends with exactly the bytes the session put on this connection; a store that reaches the end of the stream has exactly the client's file |
| `Lockstep.StoreAnswered` | src/server/transfer.h:172-194 | a store is answered 226 exactly if its receive ended or broke; at the end of the stream the session has the whole file, otherwise a prefix |
| `Lockstep.RepliesOnTheWire` | src/client/ftp_client.cpp:53-78 | the same on bytes: what `readReply` cuts from the control stream is the first reply under way, leaving the others |
| `Lockstep.NeverStuck` | src/client/ftp_client.cpp:118-184 | until the script is finished one party can take a step without any fault's help, with buffers of any size from one byte |
| `Lockstep.StepFalls` | src/client/ftp_client.cpp:116-186 | every step lowers a measure of what is left to say and to move |
| `Lockstep.EveryRunEnds` | src/client/ftp_client.cpp:116-186 | no run of the two is infinite |
| `Lockstep.CreatableStep` | src/client/ftp_client.cpp:151-152 | with creatable local files the two stay in step |
| `Lockstep.EveryScriptFinishes` | src/client/ftp_client.cpp:116-186 | then every maximal run, whatever the schedule and the faults, reaches the end of its script in step |
| `FileTransfers.StepKeepsFiles` | src/server/transfer.h:146-202 | every step in step keeps what the files, the transfer and the data connection have to do with each other, chunk by chunk and within the size limit |
| `FileTransfers.UploadStores` | src/server/session.cpp:398-429 | after an upload the server has the client's whole file under the name's path if its receive came to the end of the stream, what had arrived if it broke, no file if it went over the limit |
| `FileTransfers.DownloadReturns` | src/server/session.cpp:369-396 | an undisturbed download gives the client exactly the file under the name's path |
| `FileTransfers.UploadThenDownload` | src/client/ftp_client.cpp:145-186 | after an upload to the end of the stream, an undisturbed download of the same name as the next operation returns the bytes uploaded, under every interleaving |
| `Client.HeardBroken` | src/client/ftp_client.cpp:53-62 | `readReply` takes a reply with a line break in its text for two |
| `JoinedCommands.JoinedTurn` | src/server/session.cpp:50-139 | two commands of the client taken by one receive are refused together and change nothing; the client hears one line or two, none of them 227 or 150, and two if the first was PASV |
| `LateReplies.MisreadsIff` | src/client/ftp_client.cpp:145-186 | from a login a reply to another command than the latest can be about to be read if and only if the script holds a download with an acceptable name whose local file cannot be created, and after it an operation that sends a command |
| `Skewed.StepKeepsSkew` | src/client/ftp_client.cpp:116-186 | one reply behind, with a safe rest of the script, every step keeps it so or brings the client in step again, whether a receive takes one command or two |
| `Skewed.NeverTwoLate` | src/client/ftp_client.cpp:53-78 | in every run of a safe script the reply about to be read answers the latest command or the one before |
| `Skewed.SafeScriptFinishes` | src/client/ftp_client.cpp:116-186 | every maximal run of a safe script whose commands fit two to a receive, abandoned downloads included, is finished |
| `AbandonedDownload.ScriptSticksIff` | src/client/ftp_client.cpp:145-186 | from a login a script whose commands fit two to a receive can reach a state in which neither party has a step, equally one in which the session accepts for ever, if and only if after a download that may be promised data and whose local file cannot be created a data operation with an acceptable name follows another |
| `AbandonedDownload.UnsafeScriptHangs` | src/server/data_channel.h:49-53 | that a script which is not safe can leave the session accepting for ever holds for lines of any length |
| `AbandonedDownload.LongLinesStick` | src/server/session.cpp:133-139 | a safe script with a CWD of 506 bytes and a MKD after it can: one receive takes 513 bytes of the two, and what it leaves is a PASV |
| `AbandonedDownload.BrokenStore` | src/server/transfer.h:172-194 | for every file but the empty one the client can read 226 while nothing is stored |
| `AbandonedDownload.PasvTaken` | src/server/session.cpp:315-319 | taking a PASV replaces the listener, resets a connection waiting there, and queues the 227 |
| `AbandonedDownload.DataTaken` | src/server/session.cpp:331-404 | taking a LIST, a RETR of an existing file or a STOR queues the 150 and goes to accept |
| `Bandwidth.WindowBound` | src/server/transfer.h:36-74 | a closed window lasted a millisecond at least and carried at most limit × (duration + 2 ms) |
| `Bandwidth.ThroughputBound` | src/server/transfer.h:36-74 | over any calls, bytes ≤ limit × (elapsed + 2 ms × (closed windows + 1)) and ≤ limit × (3 × elapsed + 2 ms) |
| `Bandwidth.SleepFits` | src/server/transfer.h:51-53 | the sleep fits its 32-bit count for chunks of the transfer loops |
| `Bandwidth.RateLimiter.constructor` | src/server/transfer.h:32-33 | an empty window from now |
| `Bandwidth.RateLimiter.ThrottleBytes` | src/server/transfer.h:36-74 | window start and bytes after one call, through both reset paths |
| `Bandwidth.RateLimiter.SetLimit` | src/server/transfer.h:76 | changes the limit only |
| `Transfer.FileStore.RecvFile` | src/server/transfer.h:146-202 | what the file system and the result are after an upload: kept, replaced, appended to, or deleted on overflow |
| `Transfer.FileStore.AppendChunks` | src/server/transfer.h:172-181 | the loop writes exactly the chunks that fit |
| `Transfer.FileStore.DeleteFile` | src/common/platform.cpp:275-281 | removes this file only |
| `Transfer.UploadWithinLimit` | src/server/transfer.h:172-191 | an upload not aborted adds at most a positive maxFileSize; aborted exactly when more arrives |
| `Transfer.RestartMeetsRfcIff` | src/server/transfer.h:157-166 | appending is the restart of RFC 3659 that replaces the rest exactly when the offset is the file's size, and the one that overwrites in place also when no data came |
| `Transfer.ReadOffset` | src/server/session.cpp:490-499 | the digit loop of REST, in 64-bit arithmetic |
| `Transfer.OffsetOfDigits` | src/server/session.cpp:494-497 | any digit string is read modulo 2^64 |
| `Transfer.OffsetRoundTrip` | src/server/session.cpp:490-501 | a printed offset is read back |
| `Transfer.ResumeReassembles` | src/server/transfer.h:146-202 | STOR from zero and then REST with the size and STOR of the rest, any number of times, leaves a prefix of the source, the source exactly when all has arrived |
| `Transfer.SendFileBuffered` | src/server/transfer.h:239-259 | what the peer receives and what is counted, for any results of the sends |
| `Transfer.CountMatchesIff` | src/server/transfer.h:253-255 | the count is never too low, and right exactly if no send before a failing one was cut short |
| `Transfer.DownloadReassemblesIff` | src/server/transfer.h:239-259 | first k bytes and a send from k make the file exactly when every send takes its chunk |
| `DataChannel.ManagedSocket.Close` | src/common/platform.h:69 | closes a held socket once and holds none |
| `DataChannel.ManagedSocket.Take` | src/common/platform.h:62-65 | closes what it held and empties the source |
| `DataChannel.DataChannel.constructor` | src/server/data_channel.h:92-96 | nothing held |
| `DataChannel.DataChannel.ClosePassive` | src/server/data_channel.h:90 | no listener is left |
| `DataChannel.DataChannel.EnterPassive` | src/server/data_channel.h:17-37 | one new listener exactly if no call fails; none leaked otherwise |
| `DataChannel.DataChannel.EnterActive` | src/server/data_channel.h:40-46 | the listener is closed |
| `DataChannel.DataChannel.Open` | src/server/data_channel.h:49-62 | a data socket exactly if the call succeeds; the listener accepted on is closed |
| `DataChannel.DataChannel.Run` | src/server/session.cpp:315-429 | a command leaves only the listener held |
| `DataChannel.DataChannel.RunSession` | src/server/session.cpp:315-429 | over any commands and failures every socket created is closed exactly once, none is left, no other is touched, no listener accepts twice |
| `RemoveTree.FileSystem.DeleteFile` | src/common/platform.cpp:275-281 | removes a file that may be removed, or changes nothing |
| `RemoveTree.FileSystem.RemoveDir` | src/common/platform.cpp:291-297 | removes an empty directory that may be removed, or changes nothing |
| `RemoveTree.FileSystem.ListDirectory` | src/common/platform.cpp:219-254 | each child once with its kind |
| `RemoveTree.FileSystem.RemoveEntry` | src/common/platform.cpp:311-316 | one entry by its kind |
| `RemoveTree.FileSystem.RemoveEntries` | src/common/platform.cpp:310-317 | the loop, entry after entry, stopping at the first failure |
| `RemoveTree.FileSystem.RemoveDirRecursive` | src/common/platform.cpp:307-319 | terminates; true exactly if nothing at or below the path stands in the way, and then the subtree is gone; everything outside is unchanged either way |

## Left out

- Thread pool: the semaphore's cap of 0x7FFFFFFF tokens, tasks that never end, failing thread creation, and the standard condition variable of other platforms.
- Lockstep.NeverStuck: says nothing once the client is astray; `ScriptSticksIff` says for which scripts it fails then.
- Lockstep.ReplyIsOwnIff: says nothing of the replies after the first stale one; `NeverTwoLate` does for safe scripts.
- Lockstep.Served: lines over 512 bytes and names with a line break, which the client sends as they are.
- Lockstep.EveryScriptFinishes: QUIT, lost connections and timeouts are not steps of the model; a send to a closed peer returns an error, which needs SIGPIPE to be ignored where the source does not ignore it.
- Lockstep.StepKeepsInv: a receive takes any number of whole sends, cut at 513 bytes; the network does not split one send.
- Lockstep.Delivered: a session that stops early delivers what it sent or took until then.
- JoinedCommands.JoinedTurn: no directory has a line break in its name, so that a CWD with a joined argument fails.
- Skewed.StepKeepsSkew: two commands in a row fit in 512 bytes, and one send is not split, as two can be under way.
- Skewed.SafeScriptFinishes: the same; `LongLinesStick` shows what longer lines can do.
- AbandonedDownload.ScriptSticksIff: the same; for longer lines `UnsafeScriptHangs` gives one direction.
- AbandonedDownload.LongLinesStick: one script; which safe scripts with longer lines can get stuck is not characterised.
- FileTransfers.UploadThenDownload: other sessions that write the file meanwhile, operations between the two, and failing writes.
- Client.FTPClient.ReadReply: gives up after a given number of turns where the loop of the source has no bound; `ReadReplyReturnsIff` covers all numbers.
- Client.ReadsBack: `getReplyCode` on text whose first three characters are not digits.
- SessionSpec.EveryCommandAnswered: a PORT with a seventh number, written behind the array, or with a port sum outside `int`; the language leaves both undefined, and the run stops in the phase `Undefined`.
- Address.ReadNumbers: requires that the array is not overrun, as do ParsePortCommand and ParsePasvReply.
- Session.Session.HandlePass: its three calls follow each other without another session in between; their interleaving is the subject of LoginThrottle.
- Session.Session.Run: the constructor's socket options and counters, and the exception itself: a throwing PORT ends the run in the phase `Aborted`.
- SessionSpec.ReadyGood: byte counts and speeds in the texts of 226, the bytes of a listing, the creation of the user's directory, log lines.
- SessionPaths.ResolveInside: `..`, links and the disk: paths are compared as text, as in the source.
- Transfer.FileStore.RecvFile: failed writes, the calls to the limiter inside the loop and a failing deletion after an overflow.
- Transfer.SendFileBuffered: the conversion of the offset to `long`, and the zero-copy path tried before it.
- Bandwidth.ThroughputBound: times and budgets are exact, without the rounding of doubles; the limit stays the same during a run, and `clock()` is taken to count sleep.
- LoginThrottle.InterleavedBound: the window counts failures since the address last logged in successfully, as the code does.
- AuthManager.AuthManager.HashPassword: the generation of salts is a parameter.
- Sha256.Compute: collision resistance; the primality of the table in Sha256Constants.
- DataChannel.DataChannel.Run: the control socket, and the retries of system calls.
- RemoveTree.FileSystem.DeleteFile: refuses every directory, where POSIX `remove` also takes an empty one; nothing here calls it on one.
- RemoveTree.FileSystem.RemoveDirRecursive: links, and other processes changing the tree meanwhile.
- The admin server, configuration, logging, time formats, command-line programs, and the older single-file programs under server/ and client/.
