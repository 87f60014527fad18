# Seckill: a verified model

Fifty units of one good are sold over gRPC. A request reserves a unit in Redis with an
optimistic transaction, buys it in MySQL with a pessimistic one, and counts a failed
purchase in memory, so that a later request can put the unit back on sale in Redis. Twenty
threads run these requests side by side, behind an admission gate and on pooled connections.
Users are recognised by an MD5 digest. A client audits the outcome of a sale.

The model has one module per part:

- `Purchase` is the purchase protocol as a state machine. Every Redis command, SQL statement
  and lock operation of every request is a step of its own, the outcome of a command (success,
  error, no reply, aborted transaction) is part of the step, and requests with and without a
  Redis connection run together. A `Ledger` keeps the history that the program does not keep.
- `PurchaseInvariant` proves what every step keeps. `PurchaseTheorems` draws the guarantees
  from it, `PurchaseShop` shows that every interleaving is a sequence of atomic sales,
  `PurchaseIndex` says whose names the duplicate index in Redis holds, `PurchaseLife` bounds
  requests and schedules and shows that the locks never close a cycle, and `PurchaseWitness`
  gives concrete runs for what does not hold.
- `WorkerCode` is the program of a `Worker` as it is written, with its response, its
  branches, its nested calls and its retry recursion. What the rest of the world does before
  each command, and how the command ends, is an arbitrary script; each method is proved
  against the state machine for every script.
- `Server` adds the threads, the admission gate, the work list and the life of the `Worker`
  objects, and the pool of MySQL connections the threads draw on. Its runs project to runs
  of `Purchase`. `ServerWitness` is a run from beginning to end.
- `Md5Spec` is RFC 1321 on 32-bit words, and `Md5Vectors` two values from its test suite.
  `Md5Words`, `Md5Process` and `Md5` are the program, which computes on 64-bit words and takes
  its input in pieces. `Md5Text` is the text form of a digest.
- `PoolSpec` says on values what a get and a close do, `MysqlPool` and `RedisPool` are the
  two classes proved against it.
- `Client` is the audit.

`Base` holds counting lemmas for maps and sets.

Main results, hardest first:

- Units are conserved exactly, in every reachable state of every interleaving, mixed runs
  included (`PurchaseTheorems.Conservation`). The commands that move the balance of Redis
  against MySQL down or up are named exactly, by the guards of their branches
  (`SurplusMovesIff`); with Redis available to every request nothing moves it up, so Redis
  never promises more than MySQL holds (`RedisNeverOverpromises`).
- Every interleaving is a run of an atomic shop: the commits, in order, each find stock and
  a user without an order (`PurchaseShop.RunRefinesShop`).
- At most fifty answers "1", each with the one order row of its user under the registered
  key, none to the same user twice; and the program always comes to an answer, which is "1"
  exactly if its own transaction put the row there (`AnswersAreOrders`,
  `WorkerCode.Worker.Proceed`).
- Streaming MD5 on 64-bit words with garbage in the high halves gives the RFC 1321 digest of
  the whole message, for every way of cutting it into chunks of less than 2^29 bytes
  (`Md5.DigestOfChunks`), which is anchored in the values of section A.5 for the empty message
  and for eighty digits (`Md5Vectors`); for one call of any length the bit counter stays right if and only
  if `CarryRight` holds (`HighCountsIff`).
- The process lock, the row lock and uncommitted order rows never close a cycle: as long as a
  request is under way, one of them is kept waiting by nobody (`PurchaseLife.StuckIffQuiet`),
  every schedule of n requests ends after at most 158 n commands (`EveryScheduleEnds`), and
  all requests can be answered without any of them getting past a lock on an error
  (`CanFinish`).
- A user is in the duplicate index of Redis if and only if a unit was taken for one of the
  user's requests, and is there without an order if and only if none of those requests has
  won (`PurchaseIndex.IndexedIff`); an entry stays for good (`IndexedForGood`).
- The gate: an upper bound on what it admits (`Server.AdmissionBound`), and that it opens if
  and only if the announced Workers and the sales stay below 50 (`GateOpensIff`); the one
  listening `Worker`, one answer per request, and MySQL connections that never meet their cap.
- Both pools are first in, first out (`PoolSpec.FirstInFirstOut`); the MySQL pool gives the
  first connection that is alive (`MysqlGivesFirstAlive`).
- The audit passes on an answered sale if and only if the conversion of user names to numbers
  tells the customers apart (`Client.AuditPassesIff`), and then a change to any one of count,
  stock and orders is detected, unless no order is left (`AuditDetects`).

Where the repository's documentation and code differ, the model follows the code. README.md:9
of the repository says that a purchase that fails in MySQL is recorded and added to Redis
again. In the code a failed SELECT records nothing, so the unit is lost
(`SelectErrorLosesUnit`); and the refund is a SET that writes over whatever is on sale by then
(`RefundLosesUnits`, a run in which Redis answers every command). `SurplusMovesIff` says
exactly when units are lost. README.md:8 has the duplicate check look for repeated
orders; in the code it finds repeated reservations, so that a user whose purchase failed
counts as a buyer (`FailedUserStaysIndexed`). `IndexedIff` says exactly who does, and
`TurnedAwayIff` which requests are turned away for it. README.md:12 says that without Redis
everything is done in MySQL; each such sale then leaves a unit too many on sale in Redis
(`FallbackOverpromises`), although never in MySQL.

## Model

| member | source | states |
|---|---|---|
| `PurchaseTheorems.Conservation` | GRPC/src/Worker.cc:234-305 | In every reachable state, runs with and without Redis mixed: `total_count` + refundable failures + reservations in flight + units overwritten by refunds + reservations dropped on a failed SELECT = committed stock + sales and counted failures that bypassed Redis; `total_count` and `*failedCount_` are never negative. While a refund is visible in `total_count`, `*failedCount_` counts as 0. |
| `PurchaseTheorems.SurplusMovesIff` | GRPC/src/Worker.cc:286-305 | A command lowers the balance of Redis against MySQL exactly if it is a refund over a positive `total_count`, or a SELECT that fails or finds no stock after a reservation; it raises it exactly if it is a sale or a counted failure of a request without Redis. |
| `PurchaseTheorems.RedisNeverOverpromises` | GRPC/src/Worker.cc:205-387 | With Redis available to every request, Redis never promises more than MySQL holds; the gap is exactly what was overwritten or dropped. |
| `PurchaseShop.RunRefinesShop` | GRPC/src/Worker.cc:309-387 | The commits of any run, in order, form a run of the atomic operation "sell one to u" from 50 units and no orders, each step finding stock and no order of u, and end in exactly the committed tables. |
| `PurchaseTheorems.AnswersAreOrders` | GRPC/src/Worker.cc:342-385 | At most 50 requests won; they are as many as the orders and as the units gone from stock; each owns an order row under the registered key; no user won twice; every order row has its winner. |
| `WorkerCode.Worker.Proceed` | GRPC/src/Worker.cc:26-68 | Whatever the other requests do and however the commands end, it comes to its end with the response set; the response is the answer the machine recorded, and is "1" if and only if this request's own transaction placed the order of its user; the row of the user with the submitted key is then in the table. |
| `Md5.DigestOfChunks` | GRPC/src/Md5.cc:29-225 | For every message and every way of cutting it into chunks of less than 2^29 bytes, the result is the RFC 1321 digest of the whole message. |
| `Md5Vectors.DigestOfEmpty` | GRPC/src/Md5.cc:29-225 | The digest of the empty message is d41d8cd98f00b204e9800998ecf8427e, as in section A.5 of RFC 1321. |
| `Md5Vectors.DigestOfDigits` | GRPC/src/Md5.cc:29-225 | The digest of the eighty digits of section A.5, a message of two blocks, is 57edf4a22be3c955ac49da2e2107b67a. |
| `Md5.HighCountsIff` | GRPC/src/Md5.cc:171-175 | The high counter word stays right if and only if the length of the call is below 2^29 (modulo 2^61) or the low word carries anyway. |
| `PurchaseLife.StuckIffQuiet` | GRPC/src/Worker.cc:289-387 | In a reachable state, the process lock, the row lock on the stock and uncommitted order rows keep every request from issuing its next command, with the outcome it has when nothing goes wrong, if and only if every request has its answer already. |
| `PurchaseLife.EveryScheduleEnds` | GRPC/src/Worker.cc:205-307 | Once nobody arrives any more, every schedule of commands, with any outcomes, is at most 158 times as long as there are requests. |
| `PurchaseLife.CanFinish` | GRPC/src/Worker.cc:289-387 | From every reachable state there is a schedule that answers all requests, in which no request gets past a lock on an error: EXEC fails only on a broken watch, INSERT only on a taken key. |
| `PurchaseIndex.IndexedIff` | GRPC/src/Worker.cc:133-147 | In every reachable state a user is in `order_info` of Redis if and only if a unit was taken in Redis for some request of the user; and is there without an order if and only if, moreover, no request of the user has won. |
| `Server.AdmissionBound` | GRPC/src/seckill_server.cc:103-125 | While fewer than 50 sales are counted and Redis answers: requests under way + sales + threads past the gate that have not announced a request <= 49 + 20. |
| `Server.GateOpensIff` | GRPC/src/seckill_server.cc:103-121 | From every reachable state without a missing answer, a thread at the head of its loop gets past the gate in its next three steps if and only if the announced Workers and the sales together are below 50. |
| `Server.GateAdmitsIff` | GRPC/src/seckill_server.cc:103-121 | The single steps of the gate: with 50 sales nobody is asked; no answer to LLEN admits; an answer n admits if and only if n + sales < 50; otherwise the thread starts over. |
| `ServerWitness.OneThreadServes` | GRPC/src/seckill_server.cc:51-127 | A run of one thread from the prepared state: a request is let in on an empty work list, sold to, answered "1" and cleaned up; the stock is 49, the connection idle again, and the successor listens. |
| `Client.AuditPassesIff` | GRPC/src/seckill_client.cc:96-161 | Once every request is answered, the audit passes if and only if the conversion of names to numbers tells the ordering users apart. |
| `PurchaseTheorems.ExecsBounded` | GRPC/src/Worker.cc:216-256 | `total_count` never goes below 0, and successful EXECs never exceed 50 plus the counted rollbacks, over any run. |
| `PurchaseTheorems.ExecReadsCurrent` | GRPC/src/Worker.cc:216-248 | An EXEC that succeeds finds `total_count` at the positive value its request read, and leaves one less. |
| `PurchaseTheorems.ReservedFindsStock` | GRPC/src/Worker.cc:318-351 | With Redis available to every request, one whose EXEC succeeded finds stock in MySQL: it gives up, and its unit is dropped, only if the SELECT failed. |
| `PurchaseTheorems.AfterGetIff` | GRPC/src/Worker.cc:216-239 | After GET a request buys if and only if WATCH succeeded and at least one unit was read; is over with "0" if and only if WATCH failed or GET got no reply; refunds if and only if no unit was left or GET ended in an error. |
| `PurchaseTheorems.AfterRoundIff` | GRPC/src/Worker.cc:262-281 | After a lost round there is another if and only if fewer than 20 were begun. |
| `PurchaseTheorems.RefundIff` | GRPC/src/Worker.cc:290-300 | A refund puts exactly the counted failures on sale if there are any and SET succeeds, and changes nothing otherwise. |
| `PurchaseTheorems.IndexCoversOrders` | GRPC/src/Worker.cc:139-146 | Every order placed through Redis is in `order_info` of Redis under the submitted key; with Redis available to every request, every committed order is. |
| `PurchaseIndex.EntersByExec` | GRPC/src/Worker.cc:243-248 | A command adds a user to the index if and only if it is an EXEC that succeeds, of a request of that user, who was not in it; no command removes one. |
| `PurchaseIndex.IndexedForGood` | GRPC/src/Worker.cc:244-247 | Over every run, whoever is in the index stays in it. |
| `PurchaseIndex.TurnedAwayIff` | GRPC/src/Worker.cc:133-147 | The check in Redis finishes a request with "0" if and only if HGET is answered and a unit was taken for some request of the same user, whatever became of it; otherwise the request goes on. |
| `PurchaseIndex.TurnedAwayInMysqlIff` | GRPC/src/Worker.cc:149-202 | Without Redis the check turns a request away if and only if it is answered and a request of the same user has won. |
| `PurchaseIndex.OrderedIff` | GRPC/src/Worker.cc:359-384 | A user has an order if and only if a request of the user has won. |
| `PurchaseIndex.AdmittedIff` | GRPC/src/Worker.cc:81-130 | The first check lets a request through if and only if it is answered and the submitted key is the registered one, with Redis and without. |
| `PurchaseTheorems.QuietBooks` | GRPC/src/Worker.cc:342-387 | When all requests have answers: no lock is held, `*successNum_` = winners = orders = 50 - stock, the units balance without any in flight, and every EXEC became a sale, a counted failure or a dropped unit. |
| `PurchaseTheorems.OverpromiseIff` | GRPC/src/Worker.cc:370-384 | In any run, Redis promises at most the stock if and only if the sales and failures booked without Redis are at most what was overwritten or dropped. |
| `PurchaseInvariant.InitialInv` | GRPC/src/seckill_server.cc:137-291 | What the preparation leaves behind satisfies the whole invariant. |
| `PurchaseInvariant.ExecuteKeeps` | GRPC/src/Worker.cc:243-253 | EXEC keeps what its own request, the stores and all other requests rely on; in particular a watched version that is current still means that the value read is current. |
| `PurchaseInvariant.RefundSetKeeps` | GRPC/src/Worker.cc:289-301 | The SET of a refund and the zeroing of the counter keep it, under the lock. |
| `PurchaseInvariant.WriteKeeps` | GRPC/src/Worker.cc:352-367 | UPDATE and INSERT keep it, whatever their outcome: while the transaction can still commit, its request holds the row lock and its copy of the stock is the committed stock less one. |
| `PurchaseInvariant.DecidedKeeps` | GRPC/src/Worker.cc:370-384 | Commit and rollback keep it. |
| `PurchaseInvariant.FrameKeepsOthers` | GRPC/src/Worker.cc:205-387 | Whatever one command does within its frame leaves the invariant of every other request intact. |
| `PurchaseInvariant.CommandKeepsInv` | GRPC/src/Worker.cc:205-387 | Every command with every outcome keeps the whole invariant: watch, row lock, answers, lock owners and all accounts. |
| `PurchaseInvariant.RunKeepsInv` | GRPC/src/Worker.cc:19-79 | The invariant holds after every run of arrivals and commands. |
| `PurchaseInvariant.RefundingIsLocked` | GRPC/src/Worker.cc:289-301 | At most one request is between the SET and the zeroing, and it is the holder of the lock. |
| `PurchaseShop.CommitSells` | GRPC/src/Worker.cc:318-384 | A commit sells one unit to its user from the stock as it is at that moment, although the stock was read commands earlier. |
| `PurchaseShop.OthersSellNothing` | GRPC/src/Worker.cc:309-387 | No other command changes committed stock or orders, or makes a request win. |
| `PurchaseShop.WinsByCommitting` | GRPC/src/Worker.cc:370-384 | A request wins by a command if and only if that command sells one unit to its own user. |
| `PurchaseLife.RequestBounded` | GRPC/src/Worker.cc:212-284 | In any run, whatever the others do, a request issues at most 158 commands, at most 20 of them WATCH, and begins at most one purchase in MySQL. |
| `PurchaseWitness.TwentyRounds` | GRPC/src/Worker.cc:212-284 | A run in which one request issues exactly 20 WATCHes and then gives up with "0": the bound is reached. |
| `PurchaseLife.SomeoneCanMove` | GRPC/src/Worker.cc:289-387 | In every reachable state with a request under way, some request that no lock keeps waiting can issue its next command, with the outcome it has when nothing goes wrong. |
| `PurchaseLife.Drive` | GRPC/src/Worker.cc:19-68 | A request that finds no lock and no uncommitted order of its user in its way is answered on its own, in the same sense. |
| `PurchaseWitness.FallbackOverpromises` | GRPC/src/Worker.cc:83-86 | A run in which one sale without Redis makes Redis promise more than MySQL holds. |
| `PurchaseWitness.SelectErrorLosesUnit` | GRPC/src/Worker.cc:320-351 | A run in which Redis answers every command and that ends with all requests answered, no order, full stock and no counted failure, while Redis offers 49. |
| `PurchaseWitness.RefundLosesUnits` | GRPC/src/Worker.cc:286-305 | A run in which Redis answers every command and that ends with all requests answered, no order, full stock and no counted failure, while Redis offers 1: a refund of 1 wrote over 49. |
| `PurchaseWitness.FailedUserStaysIndexed` | GRPC/src/Worker.cc:243-247 | A run in which Redis answers every command, after which a user without an order is in the index; that the entry stays is `PurchaseIndex.IndexedForGood`. |
| `WorkerCode.OthersLeave` | GRPC/src/Worker.cc:13-17 | Any run of the other requests leaves the record of this one as it is. |
| `WorkerCode.Worker.Lock` | GRPC/src/Worker.cc:289-373 | The lock is always had in the end: at once if it is free, and otherwise when its holder has given it back. |
| `WorkerCode.HolderGoesOn` | GRPC/src/Worker.cc:289-301 | The holder of the lock is another request, waits for nobody, and comes nearer to giving the lock back with every command, however that ends. |
| `WorkerCode.Worker.Issue` | GRPC/src/Worker.cc:19-79 | A command meets exactly the state that the other requests leave, and ends exactly as the world has it, if it can end that way. |
| `WorkerCode.Worker.CheckUserInfo` | GRPC/src/Worker.cc:81-130 | The request goes on if and only if the check says so, and then its key is the registered one; otherwise it is finished with "0". |
| `WorkerCode.Worker.CheckUserHasGot` | GRPC/src/Worker.cc:133-202 | A repeated purchase is finished with "0"; otherwise the request is at its first round in Redis, or at its MySQL transaction. |
| `WorkerCode.Worker.Statements` | GRPC/src/Worker.cc:311-367 | With stock the statements run through to the decision, whatever happens to UPDATE and INSERT, and the local `isSuc` is the machine's; without stock the answer is "0". |
| `WorkerCode.Worker.Conclude` | GRPC/src/Worker.cc:370-385 | After commit and counting the sale the response is "1", after rollback and counting the failure it is "0". |
| `WorkerCode.Worker.SeckillGoodsMysql` | GRPC/src/Worker.cc:309-387 | The purchase ends with the response that the machine recorded, "1" exactly for a commit. |
| `WorkerCode.Worker.GiveBack` | GRPC/src/Worker.cc:286-305 | The sold-out branch gets the lock, refunds, gives the lock back and ends with the response "0". |
| `WorkerCode.Worker.Round` | GRPC/src/Worker.cc:212-305 | One round reserves a unit, fails and may be retried with one round used up, or is over with the response "0". |
| `WorkerCode.Worker.SeckillGoods` | GRPC/src/Worker.cc:205-307 | The retry recursion ends with a response after at most 20 rounds; its counter is the number of WATCHes issued. |
| `Server.OneListener` | GRPC/src/Worker.cc:21-34 | Exactly one Worker listens or is taken and not yet replaced; no two threads work for one Worker; a request is never begun twice. |
| `Server.AnsweredOnce` | GRPC/src/Worker.cc:64-77 | No request is answered twice; those answered are exactly those whose Worker has called Finish or is deleted, each with its final "0" or "1". |
| `Server.ConnectionsOwned` | GRPC/src/Worker.cc:29-65 | In every reachable state the MySQL connections handed out are exactly those of the threads between the start of Proceed and Finish, each of one thread, at most 20, and with the idle ones at most 30. |
| `Server.ReachableKeeps` | GRPC/src/seckill_server.cc:51-127 | Life cycle and admission bound hold in every reachable state, from one listening Worker and an empty work list on, and the requests are in a reachable state of the protocol. |
| `Server.ConnectionsInUse` | GRPC/src/seckill_server.cc:76-82 | A thread that asks for a MySQL connection finds at most 19 others holding one. |
| `Server.ThreadsNeverMeetCap` | GRPC/src/seckill_server.cc:16-23 | In every run with 20 threads and a cap of 30, a thread that takes a request gets no connection if and only if no idle connection is alive and connecting fails. |
| `Server.TakesFirstAlive` | GRPC/src/Worker.cc:29-30 | A thread that takes a request gets the first idle connection that is alive. |
| `Server.TakesAliveOrNew` | GRPC/src/Worker.cc:29-30 | What it gets answers a ping, or was just made. |
| `Md5Words.LoStep` | GRPC/src/Md5.cc:60-65 | The macro P on 64-bit words, high halves arbitrary, agrees with the 32-bit step of section 3.4 of RFC 1321 on the low halves. |
| `Md5Words.LoRotate` | GRPC/src/Md5.cc:60-60 | The shift with an unmasked left half is the 32-bit rotation on the low half. |
| `Md5Words.LoMix` | GRPC/src/Md5.cc:72-135 | The four rewritten auxiliary functions are F, G, H and I of the RFC on the low halves. |
| `Md5Process.GetLongsStandForWords` | GRPC/src/Md5.cc:11-58 | The words read from a block are the little-endian words of the RFC. |
| `Md5Process.P` | GRPC/src/Md5.cc:62-65 | One line of the program, with the word, shift and constant of step i, updates the register that step i of the RFC updates, to the same low half. |
| `Md5Process.Quad` | GRPC/src/Md5.cc:74-77 | Four consecutive lines, the registers taking turns, are four consecutive steps. |
| `Md5Process.Transform` | GRPC/src/Md5.cc:67-152 | The 64 lines, each with its word, shift and constant, are the 64 steps of the RFC on the low halves. |
| `Md5.Context.Process` | GRPC/src/Md5.cc:39-160 | md5_process updates the chaining words by one block of the RFC, modulo 2^32. |
| `Md5.Context.Starts` | GRPC/src/Md5.cc:29-37 | The context starts with nothing seen and the initial words of section 3.3. |
| `Md5.Context.CountBits` | GRPC/src/Md5.cc:171-175 | The two counter words after a call, with the program's carry and 64-bit wrap-around. |
| `Md5.OneCallCountsIff` | GRPC/src/Md5.cc:171-175 | For one call with any int as length the counter is right if and only if the length is from 0 to 2^29 - 1. |
| `Md5.Context.TopUp` | GRPC/src/Md5.cc:177-184 | A block begun in the buffer is completed and digested. |
| `Md5.Context.WholeFrom` | GRPC/src/Md5.cc:186-191 | Whole blocks are digested from the input; what remains is the input modulo 64 bytes. |
| `Md5.Context.Absorb` | GRPC/src/Md5.cc:177-196 | Together: everything seen is digested up to the last whole block, and the buffer begins with exactly the rest. |
| `Md5.Context.Update` | GRPC/src/Md5.cc:162-197 | For any length: all bytes seen so far are digested up to the last whole block, the buffer holds exactly the rest, the low counter word is right, and both copies stay inside the buffer. |
| `Md5.PaddingIs` | GRPC/src/Md5.cc:215-216 | The padding, 1 to 64 bytes, is that of section 3.1. |
| `Md5.CounterIsLengthField` | GRPC/src/Md5.cc:212-213 | A right counter is written as the length field of section 3.2. |
| `Md5.Context.Finish` | GRPC/src/Md5.cc:207-225 | The digest of everything seen, with the length field the counter gives; the RFC 1321 digest whenever the counter is right. |
| `Md5.MD5.GenerateMD5` | GRPC/src/Md5.cc:227-233 | For any int as length, a negative one being huge: the first 16 bytes of `m_data` become the digest of that many bytes with the length field the counter gives, which is the RFC 1321 digest from 0 to 2^29 - 1 bytes; the other 16 stay. |
| `Md5Text.ToString` | GRPC/src/Md5.cc:330-336 | Two lower-case hex digits for each byte, in order. |
| `Md5Text.Httoi` | GRPC/src/Md5.cc:245-292 | The value of the longest run of hex digits, after an optional "0X", modulo 2^32. |
| `Md5Text.FromText` | GRPC/src/Md5.cc:295-310 | The empty text gives zeros; otherwise each byte is the low byte of the number in its own buffer: two characters from memory, then whatever was there. |
| `Md5Text.RestoresIff` | GRPC/src/Md5.cc:295-310 | Reading gives back every printed digest if and only if in none of the 16 buffers the two characters are followed by a hex digit. |
| `Md5Text.RoundTrip` | GRPC/src/Md5.cc:295-336 | Under that condition a printed digest reads back as itself, whatever lies in memory after the text. |
| `Md5Text.PrintsApart` | GRPC/src/Md5.cc:330-336 | Two digests with the same printed form are the same. |
| `PoolSpec.LiveIsSuffix` | GRPC/src/mysqlpool.cc:118-123 | The purge removes exactly the longest dead prefix and keeps the order of the rest. |
| `PoolSpec.MysqlGivesFirstAlive` | GRPC/src/mysqlpool.cc:112-144 | If an idle connection is alive, a get gives the first such, closes those before it and leaves those behind it. |
| `PoolSpec.MysqlGivesNew` | GRPC/src/mysqlpool.cc:118-141 | If none is alive, all are closed, and a new one is given if there is room and connecting succeeds. |
| `PoolSpec.GivenIsAlive` | GRPC/src/mysqlpool.cc:112-144 | A connection given from the queue is alive. |
| `PoolSpec.MysqlNullIff` | GRPC/src/mysqlpool.cc:112-144 | A get gives nothing if and only if every idle connection is dead, and the cap is reached by those handed out or connecting fails. |
| `PoolSpec.MysqlCap` | GRPC/src/mysqlpool.cc:112-156 | Over every sequence of gets and closes: open = idle + handed out <= MAX_CONNECT, nothing idle twice, or idle and handed out. |
| `PoolSpec.FirstInFirstOut` | GRPC/src/redispool.cc:88-126 | Over every sequence of gets and closes of either pool, what was taken from the queue followed by what is in it is what was given back, in that order. |
| `PoolSpec.RedisGivesFront` | GRPC/src/redispool.cc:88-114 | A get gives the front of the queue, and a new connection only if the queue is empty. |
| `PoolSpec.RedisHighWater` | GRPC/src/redispool.cc:88-126 | The Redis pool has opened exactly as many connections as were ever handed out at once, and closed none. |
| `PoolSpec.PeakIsBound` | GRPC/src/redispool.cc:88-126 | The high-water mark is no less than what is handed out at any moment of a run. |
| `PoolSpec.PeakIsReached` | GRPC/src/redispool.cc:88-126 | At some moment of the run it is that number. |
| `PoolSpec.RedisCapIff` | GRPC/src/redispool.cc:88-126 | The cap of the Redis pool holds over every sequence of gets and closes if and only if it is 0. |
| `PoolSpec.RedisHasNoCap` | GRPC/src/redispool.cc:47-57 | With any other cap, any number of connections can be made and handed out at once. |
| `MysqlPool.Pool.GetOneConnect` | GRPC/src/mysqlpool.cc:112-144 | Queue, counter and result are those of `PoolSpec.MysqlGet`, and connect_count = idle + handed out <= MAX_CONNECT is kept. |
| `MysqlPool.Pool.Close` | GRPC/src/mysqlpool.cc:148-156 | A connection goes from handed out to the back of the queue; a null one changes nothing. |
| `MysqlPool.Pool.Destroy` | GRPC/src/mysqlpool.cc:204-212 | All idle connections are closed; those handed out stay counted. |
| `RedisPool.Pool.GetOneConnect` | GRPC/src/redispool.cc:88-114 | Queue and result are those of `PoolSpec.RedisGet`; the counter stays 0 and what is open is the most that was ever handed out. |
| `RedisPool.Pool.Close` | GRPC/src/redispool.cc:118-126 | As for MySQL. |
| `RedisPool.Pool.Destroy` | GRPC/src/redispool.cc:131-139 | All idle connections are freed, and the counter wraps around below zero by their number. |
| `Client.ContainsDuplicate` | GRPC/src/seckill_client.cc:84-94 | The vector ends up sorted; the result is true if and only if it had a repeated value, and there is none if and only if the vector is empty, where the first comparison is outside it. |
| `Client.CheckSeckillInfo` | GRPC/src/seckill_client.cc:96-161 | The audit passes if and only if at most 50 succeeded, 50 - stock = successes, and a non-empty order list has that length and no repetition; what that detects is stated by the next five. |
| `Client.CountIsAudited` | GRPC/src/seckill_client.cc:104-133 | Whatever was read, the audit passes with at most one count, at most 50; if the SELECT failed, only with 50. |
| `Client.StockIsAudited` | GRPC/src/seckill_client.cc:110-133 | With one count it passes with at most one stock. |
| `Client.OrdersAreAudited` | GRPC/src/seckill_client.cc:135-157 | A non-empty order list of another length, or with a repetition, fails. |
| `Client.ConsistentPasses` | GRPC/src/seckill_client.cc:96-161 | A count up to 50 with the stock that belongs to it passes with as many different orders, and also with an empty or unreadable list; 50 passes with a failed SELECT. |
| `Client.AuditDetects` | GRPC/src/seckill_client.cc:96-161 | After any answered sale, another count, another stock, or another order list that is not as many different orders fails; an empty list passes. |
| `Client.AtMostFiftyOnes` | GRPC/src/Worker.cc:370-384 | At most 50 responses "1" are ever handed to gRPC, over any run of the server, and only to winners. |
| `Client.OnesAreOrders` | GRPC/src/seckill_client.cc:103-133 | Once every request is answered, responses "1" = orders = 50 - stock. |
| `Server.StepProjects` | GRPC/src/seckill_server.cc:99-127 | A step of a thread is a step of the purchase protocol or does not concern it. |
| `Server.ShapeStep` | GRPC/src/seckill_server.cc:99-127 | Every step keeps the life cycle of Workers, requests, responses and the work list in order. |
| `PurchaseLife.CommandAdvances` | GRPC/src/Worker.cc:205-307 | Which command can follow which; WATCH begins a round, and UNWATCH leads to another only while rounds are left. |
| `MysqlPool.Pool.CreateOneConnect` | GRPC/src/mysqlpool.cc:53-80 | Only a connection that succeeds is counted. |
| `MysqlPool.Pool.SetParameter` | GRPC/src/mysqlpool.cc:13-31 | The pool starts empty with its cap. |
| `RedisPool.Pool.SetParameter` | GRPC/src/redispool.cc:13-25 | The pool starts empty with its cap. |
| `WorkerCode.Worker.SelectStock` | GRPC/src/Worker.cc:318-351 | With stock, the request goes on to UPDATE with one unit less than it read; otherwise it gives up with "0". |
| `WorkerCode.Worker.Write` | GRPC/src/Worker.cc:352-367 | A failed statement clears `isSuc` and stops nothing. |
| `WorkerCode.Worker.EndTransaction` | GRPC/src/Worker.cc:370-384 | Commit leads to the answer "1" and to counting the sale, rollback to counting the failure. |
| `WorkerCode.Worker.CountFailure` | GRPC/src/Worker.cc:373-377 | The failure is always counted, between lock and unlock, and the answer is then "0". |
| `WorkerCode.Worker.GetTotalCount` | GRPC/src/Worker.cc:218-234 | Without a reply to GET, or after a WATCH that failed, the request is over with "0"; an error reply counts as 0 units; the sign of the number read decides the branch. |
| `WorkerCode.Worker.Reserve` | GRPC/src/Worker.cc:237-256 | The transaction in Redis takes a unit, or the round has failed; either way the round counter is as before. |
| `WorkerCode.Worker.Transaction` | GRPC/src/Worker.cc:237-256 | MULTI or EXEC that fails leads to UNWATCH, EXEC that succeeds to the purchase. |
| `WorkerCode.Worker.Unwatch` | GRPC/src/Worker.cc:262-281 | Another round exactly while fewer than 20 were begun, otherwise "0". |
| `WorkerCode.Worker.SetTotalCount` | GRPC/src/Worker.cc:290-300 | The counter is zeroed next exactly if there was something to refund and SET succeeded. |
| `WorkerCode.Worker.RefundFailures` | GRPC/src/Worker.cc:290-303 | From the lock to the answer "0". |
| `Md5Process.Half1` | GRPC/src/Md5.cc:74-81 | Lines 1 to 8 of round 1 are steps 0 to 7. |
| `Md5Process.Half2` | GRPC/src/Md5.cc:82-89 | Lines 9 to 16 of round 1 are steps 8 to 15. |
| `Md5Process.Half3` | GRPC/src/Md5.cc:95-102 | Lines 1 to 8 of round 2 are steps 16 to 23. |
| `Md5Process.Half4` | GRPC/src/Md5.cc:103-110 | Lines 9 to 16 of round 2 are steps 24 to 31. |
| `Md5Process.Half5` | GRPC/src/Md5.cc:116-123 | Lines 1 to 8 of round 3 are steps 32 to 39. |
| `Md5Process.Half6` | GRPC/src/Md5.cc:124-131 | Lines 9 to 16 of round 3 are steps 40 to 47. |
| `Md5Process.Half7` | GRPC/src/Md5.cc:137-144 | Lines 1 to 8 of round 4 are steps 48 to 55. |
| `Md5Process.Half8` | GRPC/src/Md5.cc:145-152 | Lines 9 to 16 of round 4 are steps 56 to 63. |
| `Client.SortedSorts` | GRPC/src/seckill_client.cc:86-86 | Sorting gives an ascending permutation. |

## Left out

Assumptions of the purchase model:

- A command answered with an error, or not answered, has changed nothing; autocommit, commit
  and rollback take effect (their results are ignored in the source).
- `++*successNum_`, which is not under the lock, is atomic. The counters do not overflow.
- usr_info is one constant map, the same in Redis and MySQL, seeded by code whose string
  building is not modelled. User names and keys are only compared, so MySQL collation,
  quoting and buffer sizes are not modelled.
- Every request has a MySQL connection. A request without a Redis connection follows the NULL
  tests of the three functions that have one; the LPUSH on that connection is not modelled.
- The row lock that the duplicate check without Redis takes and gives back within one call is
  one step here; it waits for nothing in between. Other requests may then do more than in the
  source, never less.
- A pooled Redis connection that comes back with an old WATCH only makes EXEC fail, which is
  possible here at any time.
- `WorkerCode.Worker.Lock` assumes that the holder of the lock is scheduled until it gives the
  lock back, and that the lock then goes to the request that waits; that a lock is fair among
  several that wait is not part of this model.
- MySQL may refuse a statement at any time, as on a lock timeout or a deadlock, except in the
  results about locks, where only the duplicate key does.

Others:

- Progress of the admission gate as a whole: threads may all be held at it while a finish
  event waits, so that the work list does not get shorter.
- The bound of the admission gate once Redis has failed to answer a command on work_list.
- `Md5.Context.Update`: the input is a sequence of its own, so a caller that passes a piece of
  the context's buffer as input is not covered.
- `Client.ContainsDuplicate`: the int index, which would overflow in a vector of more than
  2^31 elements, is not modelled; nor is the algorithm of std::sort, only its result.
- `MD5::operator +` and `operator ==`, the singletons, `executeSql`, logging, leaks of reply
  objects, the test data of the client, gRPC, hiredis and libmysqlclient themselves.
