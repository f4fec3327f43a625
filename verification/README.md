# A Dafny model of STSS, the Simple TimeStamp Server

STSS signs document hashes together with the current time. Users log in over many concurrent
connections, buy tokens, and spend one token per signature; every signature is kept as a record
under the user's name and the time it was issued.

The project models the server as a labelled transition system over any number of connections, one
step per access to shared state, and proves what holds after every run: of the set of logged-in
usernames, the token accounts, the history table, the replies on each connection, the clock and
shutdown. The handlers and database operations are also written as the loops and methods they are,
and proved to follow the transition system whatever the other connections do at each await. The
command-line client, the clock correction and the chunked file reader are modelled next to it.

| file | content |
|---|---|
| `MachineInts.dfy`, `Bytes.dfy`, `Wrappers.dfy` | machine integers, big-endian bytes and BLOB order, Option and Result |
| `ServerProtocol.dfy` | messages, limits, the signed digest; cryptography as functions with stated assumptions |
| `TimeOracle.dfy` | offset computation, corrected clock, synchronisation loop |
| `Database.dfy` | history query over bytes against its numeric meaning; audit of an existing database |
| `Machine.dfy` | the transition system and its runs |
| `Safety.dfy` | the invariant every step keeps |
| `Scenario.dfy` | stretches of a run on one connection, from which concrete runs are put together |
| `Locks.dfy`, `Ledger.dfy`, `Exchange.dfy`, `Authority.dfy`, `Shutdown.dfy`, `HoldUp.dfy`, `Stamps.dfy`, `Receipts.dfy`, `Service.dfy` | theorems over whole runs |
| `ConnectionHandler.dfy`, `AcceptLoop.dfy` | the handlers and the accept loop as imperative code that follows the transition system |
| `Client.dfy` | the menu-driven client and its agreement with the server |
| `SafeRead.dfy` | chunked reading and hashing |

## What is assumed

- Of the cryptographic libraries (`ServerProtocol.Crypto.Sound`): a signature made with the server's
  key verifies under the matching public key (RSASSA-PKCS1-v1_5, section 8.2 of RFC 8017), is 256
  bytes long, and an Argon2 hash of a password parses and accepts that password. The streaming
  SHA-256 hasher hashes the concatenation of what it was fed.
- Of SQLite: a failed statement or commit has no effect, `ORDER BY` on BLOBs compares byte by byte,
  and PRIMARY KEY and CHECK are enforced. SELECT and commit of one transaction are separate steps,
  so nothing is assumed about isolation between transactions.
- Of the network: messages are delivered unchanged and in order, or the stream ends.
- `SystemTime` has the range of the standard library's representation on Unix.
- Tasks do not panic. A process stop is the step `Restart`, possible anywhere, which empties the
  connections and the logged-in set and starts again on the database that was left.

What the environment decides (requests, failures of SQL, signing, serialising and sending, clock
readings, salts, the steps of other connections) is part of a step's label, so the theorems hold
for all of it.

## Where the code falls short of what one might expect

- `logged_users` can keep a name nobody holds: when the reply to a successful login cannot be
  serialised or sent, the name stays locked until the process restarts (`Locks.LoggedExactly` says
  exactly which names are locked, `Locks.StrandedUntilRestart` and `Locks.StrandingHappens` show the
  effect).
- The audit at start-up reads balances as 32-bit numbers although balances up to 2^63 - 1 are sold.
  With a decoder that refuses what does not fit, the server starts again exactly when no balance
  exceeds 2^31 - 1 (`Ledger.RestartsExactlyWhenSmall`), and a single purchase is enough to prevent
  it (`Ledger.LargePurchaseBlocksRestart`).
- A user can pay for a signature and get neither token nor record. The record is refused exactly
  when the clock had issued the same timestamp for the same user before and that one was recorded in
  between (`Stamps.RefusedExactlyWhenRepeated`); in terms of the clock, when the offset went back by
  as much as the machine's clock advanced (`Stamps.RefusalMeansOffsetWentBack`). A re-sync can do
  that although the machine's clock only advances (`Stamps.ResyncBurnsToken` is such a run). It does
  not happen to a user whose timestamps are later than the user's records
  (`Stamps.ForwardClockNeverCollides`), in particular not under one offset and an advancing clock
  (`Stamps.SteadyClockNeverCollides`).
- Clients can hold up a graceful shutdown. The TLS handshake and the sending of replies are not under
  the cancel token and have no time limit, so a client that does not finish its handshake or does
  not read its reply keeps the accept loop from returning (`Shutdown.ClientHoldsUpShutdown`;
  `Shutdown.HandshakeHoldsUp` and `Shutdown.UnreadReplyHoldsUp` are runs where it happens). Nothing
  else does, provided SQL and signing end: a cancelled server stands still exactly when every task that has not ended waits for
  its client in one of these ways (`Shutdown.HeldUpExactlyByClients`), and clients who do nothing
  can bring that about exactly when, at cancellation, some task is shaking hands, sending a reply or
  working on a request that can still be answered (`HoldUp.HeldUpExactlyWhenUnsettled`).
- Corrected timestamps can go backwards under one offset, at the end of the representable range
  (`TimeOracle.IssuedTimesIncrease` says exactly when, `TimeOracle.FallbackCanGoBackwards` is an
  instance).

## Model

| member | source | states |
|---|---|---|
| Ledger.RunIsSequentialAccount | server/src/database.rs:277-357 | for every run of any number of interleaved connections and every user, the run projected on the user is a run of an account that does one thing at a time: every count reported is its balance, every refusal is justified, and the stored balance is where it stands |
| Ledger.CommitBooks | server/src/database.rs:332-356 | a commit that acts on a balance read in an earlier step still books correctly, given what the lock guarantees |
| Ledger.TheLockIsNeeded | server/src/database.rs:284-313 | with two sessions of one user the second buyer would be told a wrong balance: the username lock, not the transaction, makes check-then-update sound |
| Ledger.TokensAreConserved | server/src/connection_handler.rs:591-734 | after every run and for every user: tokens bought = balance + records + debit in flight (0 or 1) + tokens given up, where tokens are given up only on a clock before 1970, a failed record insert, a failed refund or a process stop |
| Ledger.RefundAlwaysFits | server/src/connection_handler.rs:684-693 | in every reachable state a refund meets neither overflow nor a missing user nor a failed CHECK |
| Ledger.BalancesInRange | server/src/database.rs:299-341 | balances stay between 0 and 2^63 - 1 in every run, restarts included |
| Ledger.CheckIsEnforced | server/src/database.rs:535-541 | the database refuses an update that would leave a negative balance, in any state |
| Ledger.SmallBalancesRestart | server/src/database.rs:584-621 | a database left by any run with balances up to 2^31 - 1 passes the audit |
| Ledger.RestartsExactlyWhenSmall | server/src/database.rs:594-618 | with a narrowing decoder, the audit passes if and only if no balance exceeds 2^31 - 1 |
| Ledger.LargePurchaseBlocksRestart | server/src/database.rs:594-618 | a concrete run, with one purchase of any amount from 2^31 on, after which the audit fails |
| Locks.AtMostOneHolder | server/src/connection_handler.rs:373-383 | after every run no two connections hold one username |
| Locks.LoggedExactly | server/src/connection_handler.rs:373-481 | after every run the logged-in set is exactly the held usernames plus the stranded ones, and these are disjoint |
| Locks.LeavingReleasesOwnName | server/src/connection_handler.rs:459-481 | every way out of a session removes its own username and no other; the only way to stop holding one without removing it is a failed login reply |
| Locks.StrandedUntilRestart | server/src/connection_handler.rs:450-457 | a stranded name stays locked in every continuation without restart and every login with it is refused |
| Locks.StrandingHappens | server/src/connection_handler.rs:337-457 | a concrete run that strands a name |
| Safety.StepKeepsInv | server/src/connection_handler.rs:321-821 | every step of the server keeps the invariant: locks, tables, and what each task relies on at its program counter |
| Safety.OriginOfStep | server/src/connection_handler.rs:337-807 | the only positions from which shared state is written, and exactly what is written there |
| Exchange.RepliesAnswerRequests | server/src/connection_handler.rs:337-821 | on every connection of every run the k-th reply answers the k-th request in the mode the first k exchanges led to; only a task that failed leaves a request unanswered, and at most one |
| Service.UnansweredOnlyByFailure | server/src/connection_handler.rs:321-821 | over every run, if a task has ended with its last request unanswered, then after the step that took this very request its connection met the outside failure that the exit reports |
| Service.ExitHasCause | server/src/connection_handler.rs:224-821 | a task begins to leave exactly on an interrupt or end of stream, a failed handshake, fetch, send, serialisation, SQL statement or hashing, or a clock before 1970, with the exit that belongs to it, and otherwise goes on; a refund never ends a session |
| Service.EveryReplyWasTrue | server/src/connection_handler.rs:337-821 | every reply received in a run was decided on between the step that took its request and the step that sent it, by a step at which it was true: too long credentials, unknown name or wrong password, name in use or taken, balance 0, balance plus amount above 2^63 - 1, failed signing, or the counts and records of the tables |
| Service.TurnedAwayExactly | server/src/connection_handler.rs:272-288 | a guest's credentials are looked at exactly if name and password have at most 32 bytes each |
| Service.EveryOutcomeIsPossible | server/src/connection_handler.rs:224-821 | in every reachable state, exactly which events can meet a task: SQL can fail at every statement, every request can arrive between requests, every send can fail |
| Service.RefundEndsInReply | server/src/connection_handler.rs:684-698 | whatever happens to a refund, the client is told that the operation failed |
| Service.SorryOnlyIfSigningFailed | server/src/connection_handler.rs:667-698 | a session is told so only if signing failed for that very request |
| Service.WorkerEndCancels | server/src/server.rs:474-479 | the server is cancelled by a sync event exactly if the event ends the time worker |
| Service.CancelledExactly | server/src/server.rs:454-480 | after every run the server is cancelled if and only if it was told to stop or its time worker ended since the last start |
| Service.RestartIsFresh | server/src/server.rs:454-480 | a process started again has the tables it left and nothing else: nobody logged in, offset 0, not cancelled |
| Exchange.TokenRepliesAreBacked | server/src/connection_handler.rs:591-665 | a Token reply about to be sent refers to a committed record of the requester, verifies for the requested hash, and was paid by exactly one debit and no refund |
| Receipts.EveryTokenIsBacked | server/src/connection_handler.rs:591-665 | every Token reply a connection has received in a run answers a request for that hash, was sent when its request had cost one debit, one record and no refund, and its record under the user then logged in is there now with a signature that verifies |
| Receipts.TokenSentOnce | server/src/connection_handler.rs:642-665 | over a whole run, restarts included, one record is handed out at most once |
| Receipts.TokensAreDistinct | server/src/connection_handler.rs:642-665 | different Token replies, on one connection or on two, stand for different records |
| Exchange.RepliesAreTrue | server/src/connection_handler.rs:703-765 | token counts sent are the user's balance; a history reply holds the newest records in descending order, all of them up to 100 and 100 beyond that |
| Authority.WritesAreAuthorised | server/src/connection_handler.rs:354-448 | a step that changes a user's balance or history is taken by a connection that matched that user's password, then took that user's lock, and has not ended the session since; all other users' rows and all password hashes stay |
| Authority.HashesArePermanent | server/src/database.rs:218-254 | accounts are never removed and keep the password hash stored at sign-up, through any run |
| Authority.RecordsArePermanent | server/src/database.rs:359-396 | records are never removed or altered |
| Authority.InternalFaultsUnreachable | server/src/connection_handler.rs:601-798 | starting from an empty database no task ends on a missing user, a negative balance, a damaged record or an unparsable password hash |
| Shutdown.CancelWaitsForRequests | server/src/connection_handler.rs:232-238 | a task can be interrupted exactly when cancelled and between requests; elsewhere cancellation makes no difference to it |
| Shutdown.ReturnedIsQuiet | server/src/server.rs:654-662 | when the accept loop has returned: cancelled, every task ended, only stranded names locked, nothing in flight, tokens conserved, nothing can move |
| Shutdown.StepsAreBounded | server/src/connection_handler.rs:321-821 | over every stretch of every run without a process stop, the task steps taken are at most the work at hand plus eight per request and two per connection that came in |
| Shutdown.EveryScheduleReturns | server/src/server.rs:522-662 | once cancelled, under every schedule: the task steps are so bounded, no connection is added after the loop stopped accepting, until the loop has returned either its next step or a task step that needs no further request is possible, and nothing moves without the clients exactly when every task left waits for its client |
| Shutdown.WaitsExactlyAtClient | server/src/connection_handler.rs:224-270 | in a cancelled server a task that has not ended can go on without its client if and only if it is neither shaking hands nor sending a reply |
| Shutdown.HeldUpExactlyByClients | server/src/server.rs:522-662 | a cancelled server stands still without having returned if and only if it has stopped accepting and every task left waits for its client, at least one being left |
| Shutdown.ClientHoldsUpShutdown | server/src/connection_handler.rs:455-457 | a task in the handshake or sending a reply has only what its client brings about ahead of it, cancelled or not, and until it moves no continuation returns from the accept loop |
| Shutdown.HandshakeHoldsUp | server/src/server.rs:556-570 | a concrete run held up by a client that does not shake hands |
| Shutdown.UnreadReplyHoldsUp | server/src/connection_handler.rs:450-457 | a concrete run held up by a client that does not read its reply |
| HoldUp.HeldUpExactlyWhenUnsettled | server/src/server.rs:522-662 | from every reachable cancelled state, some schedule in which no client does anything ends held up if and only if some task is shaking hands, sending a reply or working on a request, other than one whose record is refused |
| HoldUp.RunKeepsSettled | server/src/connection_handler.rs:224-270 | tasks between requests or on their way out stay so and end without their clients |
| Shutdown.ShutdownCanKeepTokens | server/src/server.rs:522-662 | from every reachable cancelled state without a taken record key there is a way to return on which every debit in flight ends as a record or on its balance |
| Stamps.RefusedExactlyWhenRepeated | server/src/connection_handler.rs:617-658 | after every run, a signed timestamp cannot be recorded if and only if it had been issued for the same user before and recorded in between; then the only way on gives up the token |
| Stamps.HistoryIsWhatWasRecorded | server/src/database.rs:359-396 | after every run a user's records are exactly those some step of the run stored |
| Stamps.CarriedWasTaken | server/src/connection_handler.rs:617-658 | between taking a timestamp and recording it nobody else changes the user's records |
| Stamps.RefusalMeansOffsetWentBack | server/src/time_oracle.rs:137-151 | behind every refused record are two clock readings for its user, the second by its own connection, that both gave the refused timestamp, the first recorded before the second; between them the offset went back by as much as the machine's clock advanced, unless a correction was not representable |
| Stamps.ForwardClockNeverCollides | server/src/database.rs:543-551 | if each timestamp taken for a user is later than the user's records, through re-syncs and restarts and whatever other users are given, no record insert of the user is refused |
| Stamps.ForwardClockKeepsKeysFree | server/src/database.rs:543-551 | if so for every user, no task of the reached state faces a taken key |
| Stamps.SteadyClockNeverCollides | server/src/time_oracle.rs:137-151 | after any run at all, once the corrected clock is not behind a user's stored and carried timestamps, no record of the user is refused while the machine's clock advances and the user's timestamps are taken under one offset |
| Stamps.TimestampsTrackNtp | server/src/time_oracle.rs:137-255 | after the server took an NTP reply N at local time L, through any run without another reply or a process stop, a timestamp given out at local time L' is N + (L' - L), with the refusal, fallback and clamping cases exact |
| Stamps.UncorrectedUntilFirstReply | server/src/time_oracle.rs:137-151 | until the first reply since the start a timestamp is what the machine's clock says |
| Stamps.RefusalBurnsToken | server/src/connection_handler.rs:642-658 | a record insert that fails adds one to the tokens given up |
| Stamps.ResyncBurnsToken | server/src/time_oracle.rs:239-255 | a concrete run with an advancing machine clock in which a re-sync makes the oracle issue a timestamp again, so that the user's second token is lost |
| ConnectionHandler.Connection.ConnHandlerCore | server/src/connection_handler.rs:321-483 | whatever the others do at each await, the handler takes exactly the steps the transition system allows: it follows every possible script to its end, the run that results is the script's, it ends where that system says, and never on an internal fault |
| ConnectionHandler.Connection.HandlerLoop | server/src/connection_handler.rs:337-483 | the guest loop, including every exit of a session it started |
| ConnectionHandler.Connection.SessionHandler | server/src/connection_handler.rs:549-821 | the session loop ends logged out, with the stream closed or with a fault, each at the matching position with the name still to be released |
| ConnectionHandler.Connection.FetchNextRequest | server/src/connection_handler.rs:224-270 | request, end of stream or cancel, or a network error |
| ConnectionHandler.Connection.SubtractOneToken | server/src/database.rs:316-357 | check on the value read, then update; the count returned is the balance; each error at its position |
| ConnectionHandler.Connection.AddUserTokens | server/src/database.rs:277-314 | narrowing of the amount, checked sum, then update; the count returned is the balance; each error at its position |
| ConnectionHandler.Connection.VerifyUserPassword | server/src/database.rs:186-216 | the four outcomes of a password check, each with what the users table then says about name and hash, and the position that follows |
| ConnectionHandler.Connection.TryRegisterUser | server/src/database.rs:218-254 | succeeds only on a free name and then adds nothing but a row with balance 0 and a hash of the password, which accepts it; "already exists" only if the name is taken; every error leaves the tables as found |
| ConnectionHandler.Connection.GetUserTokens | server/src/database.rs:256-275 | the stored balance, or which error and why; over a database the server wrote only SQL can fail |
| ConnectionHandler.Connection.AddUserRecord | server/src/database.rs:359-396 | adds nothing but the signature under (username, big-endian timestamp), only for a user who exists and under a free key; every error leaves the tables as found |
| ConnectionHandler.Connection.GetUserHistory | server/src/database.rs:398-449 | over a database the server wrote, the newest records of the user, all of them up to 100 and 100 beyond that, and only SQL can fail; the position that follows in every case |
| ConnectionHandler.Connection.SignHashArm | server/src/connection_handler.rs:591-701 | debit, clock, signature, record and reply, with the refund path and every error exit |
| AcceptLoop.Listener.Run | server/src/server.rs:497-663 | started on an empty database or one an earlier process left, the loop returns only after cancellation and after every task it spawned has ended, with no debit in flight |
| AcceptLoop.Listener.Accept | server/src/server.rs:522-652 | every connection that comes in gets a tracked task; leaves only on the cancel token |
| Database.QueryDecodesToLatest | server/src/database.rs:413-446 | whatever the engine returns for the byte-wise query on a table the server wrote decodes to the newest records of the numeric map |
| Database.QueryHasAnswer | server/src/database.rs:413-421 | the byte-wise query always has a result |
| Database.LatestIsLatest | server/src/database.rs:413-421 | the newest n records: descending, min(n, size) many, all stored, every one left out older |
| Database.LatestIsUnique | server/src/database.rs:413-421 | these conditions determine the result |
| Database.ReadRecords | server/src/database.rs:426-448 | decodes all rows if every timestamp has 16 bytes and every signature 256, or fails on the first damaged one with its bytes |
| Database.Validate | server/src/database.rs:561-621 | accepts if and only if the listing works, the tables are the expected ones, the test queries work and every row arrives with a non-negative, readable balance; for each error what it means |
| Database.AuditIsOfTheTable | server/src/database.rs:600-618 | the verdict does not depend on the order in which rows arrive |
| ServerProtocol.TimestampBytes | shared_library/src/server_protocol.rs:134-150 | 16 big-endian bytes and timestamps are in order-preserving bijection |
| Bytes.BlobOrderIsNumeric | server/src/database.rs:24-31 | comparing equally long big-endian BLOBs byte by byte compares the numbers |
| ServerProtocol.SignWithTimestamp | shared_library/src/server_protocol.rs:179-200 | signs the digest of 48 bytes, the first 32 of which are the hash and the last 16 the big-endian timestamp; the public key accepts the signature |
| ServerProtocol.VerifyTimestampSignature | shared_library/src/server_protocol.rs:204-220 | accepts exactly what verifies for the digest of those same 48 bytes, in particular what was signed for them |
| ServerProtocol.BindingIsOfBoth | shared_library/src/server_protocol.rs:184-188 | the digest bound to a hash and a timestamp is that of the bytes that stand for both |
| ServerProtocol.BindingIsInjective | shared_library/src/server_protocol.rs:184-188 | one digest for two different hashes or timestamps takes a SHA-256 collision between the messages that stand for them |
| TimeOracle.ComputeOffsetRefinesSubtraction | server/src/time_oracle.rs:155-195 | the offset is the difference, in nanoseconds at 10^9 to the NTP second, clamped to 64 bits; both error conditions exactly; both fallback values are dead |
| TimeOracle.WorkerOffsetNeverOverflows | server/src/time_oracle.rs:239-250 | for 32-bit inputs neither the overflow error nor the upper clamp occurs |
| TimeOracle.IssuedTimeTracksNtp | server/src/time_oracle.rs:137-151 | after a sync at NTP time N and local time L, a timestamp at local time L' is N + (L' - L); when it is refused and when the fallback applies, exactly |
| TimeOracle.LastReplyGoverns | server/src/time_oracle.rs:219-282 | whatever came before and however syncing fails afterwards, the last NTP reply determines the offset |
| TimeOracle.IssuedTimesIncrease | server/src/time_oracle.rs:137-151 | exactly when an increasing local clock yields increasing timestamps under one offset |
| TimeOracle.FallbackCanGoBackwards | server/src/time_oracle.rs:137-151 | an instance in which it does not |
| TimeOracle.IssuedAcrossOffsets | server/src/time_oracle.rs:137-151 | exactly when a timestamp taken under a second offset is later than, and when it equals, one taken under a first |
| TimeOracle.TimeOracle.TimeNow | server/src/time_oracle.rs:137-151 | local time plus offset if representable, else local time |
| TimeOracle.TimeOracle.StartSyncing | server/src/time_oracle.rs:211-282 | the loop leaves the offset of the last reply; it runs on if and only if no event is a lost host, a fatal error or a machine clock before 1970, and otherwise stops on the first of these with its error |
| Client.MenuFitsProtocol | client_cli/src/main.rs:88-368 | each menu choice leads to the request it names with what was entered, unless credentials exceed 32 bytes, and each mode offers exactly the requests that make sense in it |
| Client.FlagIsServerMode | client_cli/src/main.rs:86-156 | when all replies have arrived and been understood and the server waits, the client's flag is the server's mode |
| Client.MenuIsNeverRefused | client_cli/src/main.rs:88-190 | a client object that keeps to its menu and can read what it receives, on a connection of any run that delivers in order as far as it delivers, never receives NotLoggedIn, nor that a session is open, nor that its credentials are too long |
| Client.UnreadableLogoutMisleads | client_cli/src/main.rs:88-190 | without that: after an unreadable reply to a logout the menu offers what the server refuses |
| Client.Cli.Turn | client_cli/src/main.rs:88-368 | one turn sends at most one request, which is on the menu, and takes at most one reply; the flag stays what the exchanges amount to, also when serialising, sending or receiving fails, as long as every reply could be read |
| Client.Cli.SendRequest | client_core/src/client.rs:155-167 | one request out and exactly one reply in; nothing happens if it cannot be serialised; if it cannot be sent or the stream ends, the stream is lost; an unreadable reply is consumed and reported as an error |
| SafeRead.SafeFileReader.NextChunk | shared_library/src/safe_read.rs:104-116 | the buffer holds the next bytes of the file, the limit shrinks by as many |
| SafeRead.SafeFileReader.SafeReadAll | shared_library/src/safe_read.rs:120-146 | the file's first min(declared, available) bytes for every schedule of short reads; only a failing read prevents it; with a chunk size of zero, nothing |
| SafeRead.HashFile | client_core/src/file_hasher.rs:13-28 | the digest of those same bytes |
| SafeRead.SplittingDoesNotMatter | client_core/src/file_hasher.rs:17-25 | two readers with any chunk sizes and schedules agree on bytes and digest |

## Left out

- TLS, TCP (binding the listener included), tokio scheduling and framing: a stream delivers requests, ends or fails.
- Serialisation of messages: taken as an inverse pair on the server's side; serialising can fail at both ends, and the client may fail to read a reply.
- The texts of `OperationError` and of log messages, and which NetworkError a send fails with; `SignInError::AlreadyLoggedIn` is called `SessionOpen` in the model.
- ConnectionHandler.Connection.SubtractOneToken: the amount is fixed to 1, because the source calls `subtract_user_tokens` only with 1.
- In-memory databases: a restart keeps the tables, which a database on disk does.
- Rows written by other programs, such as fractional balances that SQLite would store: runs start from an empty database.
- `client.verify` from the menu, file output and date formatting of the client: no request is sent and no shared state is touched.
- Opening files, extensions and metadata, allocation failure in `safe_read`: library calls whose errors are passed on.
- Certification authority, rekeying, certificates, configuration files and the terraform crate: thin wrappers over libraries.
- Fairness: proved is that every schedule of a shutdown is bounded and when it can stand still; that an awaited SQL statement or signature ends at all is up to the environment.
