# A verified model of the in-memory key-value server

The server answers Redis-style commands over TCP. One reactor thread cuts each
connection's byte stream into lines, stamps every line with a sequence number and puts
commands into a bounded queue; workers execute them on a sharded store in any order; the
reactor puts the replies back into order. A log of the writes is replayed at startup, and
a timing wheel sweeps expired keys. This project models that path from socket bytes to
ordered reply bytes and on to the replayed log, and proves what the parts promise each other.

`dafny verify dfyconfig.toml` checks everything.

## How the model is built

Each component has a specification on values and, where the program changes state in
place, a class whose methods carry out the program's own steps and are proved equal to
that specification.

| file | content |
|---|---|
| `Text`, `Framing`, `Commands`, `Resp` | tokens and decimal integers, line framing, the nine commands with printer and factory, reply encoding and a RESP2 client |
| `Store`, `Flat`, `Laws` | commands and sweeps on one table of entries, its refinement of a flat map, and what clients observe of the commands |
| `Replay`, `PerKey`, `Late` | replay of the log; which orders of its lines replay can cope with; logging outside the lock |
| `Hasher`, `Engine`, `Allocator` | MurmurHash3, shards, router, `execute` and the replay loop, arena accounting |
| `Aof`, `Wheel`, `Pool` | double-buffered log, timing wheel and sweeper, worker pool and completion queue |
| `Reassembly`, `Protocol`, `ProtocolConn`, `ProtocolInv` | reply reordering; reactor, pipeline and pool as one step machine with its invariant |
| `Guarantees`, `Reuse`, `Drops`, `Order`, `Progress`, `Backpressure` | consequences for all runs; exactly when reusing a socket handle is safe; discarded requests; order of execution; every request can still be answered; who is read, and that reading goes on |
| `System`, `LateSystem`, `Accounting`, `Serving` | the machine with store, sweeper and log, on any startup file, and with logging as late as the code does it; what became of every accepted command; runs that serve a request |
| `Turns`, `Reactor` | handlers and turns of the event loop as functions of the machine's state; the reactor's own methods |
| `Server` | router, logger, pool and reactor as objects that together carry out the whole machine |

Threads are steps of a machine: every critical section, and every call the reactor thread
makes between two of them, is one step, and any interleaving is a run. Whatever comes from
outside is a parameter: bytes received, how much `send` takes, accepted handles, poll
events, the rate limiter's verdict, running out of memory, the clock (nanoseconds, not
going back), and in the methods of `Reactor` also what the workers do meanwhile.

## Where the code and its documentation differ, and assumptions

- `LPUSH` appends (`app/src/core/command.cpp:94`) although `app/include/core/command.h:71` and
  the command table of the repository's own documentation say prepend. The model appends.
- `DEL` counts an entry that has expired but has not been swept
  (`app/src/engine/shard.cpp:52`). `Flat.ExecRefines` proves that this is the only reply in
  which the store differs from a flat map.
- Results find their connection by socket handle alone (`app/src/network/reactor.cpp:195`).
  The protocol needs a handle returned by `accept` to have nothing outstanding.
  `Guarantees.HandleMustBeUnused` proves that this is exactly what the invariant needs, and
  `Reuse.ReuseIsSafeExactlyIfUnused` that it is exactly what clients need: with anything of
  an earlier connection under way, some run answers the new client more often than it asked.
- A line is erased before the limits are tested (`app/src/network/reactor.cpp:146-161`), so
  each limiter firing discards one request without a reply; `Drops.RequestIsDropped` is such
  a run. Histories record discarded lines; "every request is answered" is stated for stamped
  lines. `Guarantees.LinesOfTheStream` says exactly when those are the requests of the whole
  stream, and `Drops.WindowPreventsDepthLimit` how a client keeps the pipeline limit from firing.
- Requests of one connection may be executed out of order, and only replies are ordered:
  `Order.TwoWorkersOvertake` is such a run. With a single worker execution follows the order
  of issue (`Order.OneWorkerExecutesInIssueOrder`).
- SET, DEL and the sweeper log after releasing the shard's lock
  (`app/src/core/command.cpp:22-23`, `app/src/core/command.cpp:50-51`,
  `app/src/daemons/timing_wheel.cpp:46-51`), LPUSH and HSET while holding it. Lines of
  different keys may end up in any order. `PerKey.ShuffledLogRebuilds` proves that a restart
  is right as long as each key's lines from its last SET or DEL on keep the order in which
  they took effect, and `Late.InOrderRebuilds` that this holds as long as no line overtakes
  an earlier one of its key. When lines do overtake, `Late.OvertakingRebuilds` says exactly
  when a key whose last logged line is a SET or DEL is rebuilt, and `PerKey.ListsDecide` and
  `PerKey.HashesDecide` when one is that ends in LPUSHes or HSETs. The code does nothing to
  rule overtaking out; `Late.SetsOvertake` is such a run. `LateSystem.InOrderRestart` and
  `LateSystem.OvertakingRestart` state the same for the whole server.
- Replay does not rebuild a table when an LPUSH or HSET landed on an expired, unswept entry:
  nothing in the log says that the old value was gone. `Replay.RestartRebuilds` proves that
  this is the only way to diverge, and `Replay.ExpiredValueComesBack` gives such runs.
- An entry a whole turn of the wheel ahead is visited early and forgotten, and the default
  TTL of 86400 seconds is exactly one turn. No source file calls
  `TimingWheel::schedule`, so wheel timing is stated as a contract of the component.
- The log is written in binary mode (`app/src/daemons/aof_logger.cpp:19`) and read back by a
  text-mode stream (`app/src/core/server_builder.cpp:47`). On Windows, for which the server is
  written, text mode ends the file at a byte 0x1A, which a client may send in any word.
  `Replay.LogReadsBack` proves that the log is read back if and only if none was logged, and
  `Replay.CtrlZLosesLog` gives the input that loses the rest of the log. All restart theorems
  read the file in text mode.
- A file that ends in the middle of a line swallows the first line appended to it:
  `Framing.AppendedTextFile` proves that appended lines read back if and only if it does not
  and has no byte 0x1A.
- With a queue limit of zero nothing is ever accepted (`Pool.NoRoomNeverAccepts`) and every
  command is answered "server busy"; the claims about the queue are for a limit of at least one.

## Model

| member | source | states |
|---|---|---|
| Text.Tokenize | app/src/network/pipeline.cpp:34-36 | The token loop yields the whitespace-separated words of the line, in order |
| Text.SpacesAre | app/src/network/pipeline.cpp:34-36 | Words are separated by ASCII 9 to 13 and 32 |
| Text.TokensSkipSpaces | app/src/network/pipeline.cpp:34-36 | Whitespace of any kind and length in front of a word does not count |
| Text.TokensAreWords | app/src/core/server_builder.cpp:54-57 | Whatever the line, no token is empty or contains whitespace |
| Text.TokensOfJoin | app/src/network/pipeline.cpp:34-36 | Words joined by single blanks are tokenized back into exactly those words |
| Text.ScanOfToString | app/src/core/command.cpp:40 | A printed integer followed by any non-digit is read back, and its extent is known |
| Text.StollOfToString | app/src/core/command.cpp:237 | Reading back a printed number is the identity on all 64-bit values, INT64_MIN included |
| Text.PrintedNumbers | app/src/core/command.cpp:40 | Numbers are printed with the most significant digit first and a minus in front |
| Text.StollReadsPrefix | app/src/core/command.cpp:237 | A number is read from the front of a word, what follows is ignored, and beyond 64 bits there is no value |
| Text.StollOfPlus | app/src/core/command.cpp:237 | A plus sign is allowed |
| Text.StollOfNoNumber | app/src/core/command.cpp:237 | A word that starts with neither a digit nor a sign and a digit has no value |
| Framing.RequestsOfAppend | app/src/network/reactor.cpp:142-149 | Bytes that arrive later only extend the unfinished last line; requests already cut stay as they were |
| Framing.RequestsOfLine | app/src/network/reactor.cpp:146-149 | A line may end in LF or CR LF; one CR is dropped, and an empty line is no request |
| Framing.ChunkingIsIrrelevant | app/src/network/reactor.cpp:142-149 | However a stream is cut into received chunks, the same requests and the same remainder come out |
| Framing.FileLinesOfFileText | app/src/core/server_builder.cpp:52 | Lines written with a newline each are read back by the `getline` loop unchanged |
| Framing.AppendedFile | app/src/daemons/aof_logger.cpp:19 | As bytes: lines appended to an existing file are read back after its own if and only if it did not end in the middle of a line |
| Framing.TextLinesOfFileText | app/src/core/server_builder.cpp:47-52 | A written file is read back in text mode if and only if no line holds a byte 0x1A or ends in CR |
| Framing.AppendedTextFile | app/src/core/server_builder.cpp:47-52 | In text mode: lines appended to an existing file are read back after its own if and only if it ended with a whole line and has no byte 0x1A |
| Framing.NothingAfterCtrlZ | app/src/core/server_builder.cpp:47-52 | Whatever is appended to a file that holds a byte 0x1A is never read |
| Commands.RoundTrip | app/src/core/command.cpp:230-263 | Printing, tokenizing and parsing a command gives it back if and only if the factory could have built it |
| Commands.ParsedIsFactoryMade | app/src/core/command.cpp:230-263 | A command built from any line has word arguments, and the default TTL where the syntax has none |
| Commands.TypedCommands | app/src/core/command.cpp:230-263 | Names in lower and mixed case, surplus words ignored, 86400 seconds for SET, LPUSH and HSET without a TTL |
| Commands.TypedRange | app/src/core/command.cpp:251-256 | LRANGE is a command exactly if both bounds are readable 64-bit numbers |
| Commands.NoCommands | app/src/core/command.cpp:230-263 | Too few words are no command |
| Commands.UnknownName | app/src/core/command.cpp:262 | Nor is any other name |
| Commands.TtlOfSet | app/src/core/command.cpp:234-240 | A SET without a TTL, or with one that is no readable number, lives for 86400 seconds; a readable one is taken as it is |
| Commands.SetLines | app/src/core/command.cpp:234-240 | As lines: `SET k v`, `SET k v 86400` and `SET k v` with a word that is no number, whatever follows, are the same command |
| Commands.SerializedIsOneLine | app/src/core/command.cpp:29-31 | A logged command is one non-empty line that does not end in whitespace |
| Resp.DecodeOfEncode | app/src/core/command.cpp:139-145 | A RESP2 client, which tells the null bulk string from the null array, recovers any sendable reply exactly and leaves the following bytes alone |
| Resp.WireFormat | app/src/core/command.cpp:22-52 | The kinds of reply byte by byte; nothing is `$-1` and not `*-1` |
| Resp.WireFormatOfArrays | app/src/core/command.cpp:139-145 | Arrays byte by byte |
| Resp.DecodeExtends | app/src/core/command.cpp:139-145 | Once a value decodes, more bytes do not change it |
| Resp.PrefixFree | app/src/core/command.cpp:139-145 | No proper prefix of a reply decodes |
| Resp.StreamDecodes | app/src/network/reactor.cpp:203 | From any received part of concatenated replies exactly the complete ones are recovered |
| Resp.WholeStreamDecodes | app/src/network/reactor.cpp:203 | Concatenated replies are uniquely decodable |
| Store.ExpiredIsDeadlinePassed | app/src/memory/variant_type.cpp:45-51 | Comparing truncated elapsed seconds with the TTL is the same as the clock having reached the deadline |
| Store.RangeIsBetween | app/src/core/command.cpp:132-137 | For all 64-bit bounds the clamped slice holds exactly the elements whose index lies between the two bounds |
| Store.WholeList | app/src/core/command.cpp:132-137 | From 0 to -1 is the whole list |
| Store.NegativeBounds | app/src/core/command.cpp:133-134 | The bound -i selects what the bound length - i selects, as start and as stop |
| Store.BoundsBeforeTheList | app/src/core/command.cpp:133-137 | A start before the list acts as 0, and a stop before it leaves nothing |
| Store.PlainBounds | app/src/core/command.cpp:135-137 | Bounds that are not negative: both included, a stop behind the list acts as the last, nothing from behind it |
| Store.RepliesAreSendable | app/src/core/command.cpp:21-27 | Every reply of every command can be encoded without breaking the protocol |
| Store.LRangeReplyDecodes | app/src/core/command.cpp:132-145 | The client of an LRANGE on a live list decodes exactly the elements between the bounds, negative ones counted from the end |
| Store.ExecKeepsTableOk | app/src/core/command.cpp:84-107 | Commands never store an integer, an empty list or hash, a non-word key, or a creation time in the future |
| Store.SweepKeepsTableOk | app/src/engine/shard.cpp:66-75 | Nor does sweeping |
| Flat.ExecRefines | app/src/engine/shard.cpp:11-63 | Every command keeps the table an image of one flat map with deadlines, and replies as that map does if and only if it is not a DEL of an expired, unswept key |
| Flat.SweepRefines | app/src/engine/shard.cpp:66-75 | Sweeping a key leaves the flat map the table stands for unchanged |
| Flat.RunRefines | app/src/engine/hasher.cpp:83-97 | Over any run of commands and sweeps the store is the flat map, replies included, stale DEL counts aside |
| Flat.SweepingIsUnobservable | app/src/daemons/timing_wheel.cpp:43-52 | Removing every sweep from a run changes a reply if and only if it is the count of a DEL that finds its key expired and unswept in exactly one of the two |
| Flat.StaleDelHappens | app/src/engine/shard.cpp:52 | From an empty server: a SET that expires, then DEL, is counted without a sweep in between and not counted with one |
| Flat.SetRevives | app/src/engine/shard.cpp:18-20 | A SET on a deleted or expired key makes it readable until exactly its own deadline |
| Laws.GetReplies | app/src/core/command.cpp:37-41 | GET answers a bulk string, `$-1` exactly if the key is deleted, expired or absent |
| Laws.GetOfContainers | app/src/engine/shard.cpp:33-44 | GET of a list or a hash answers `(list)` or `(hash)` |
| Laws.ExistsIffFound | app/src/core/command.cpp:61-63 | EXISTS answers 1 if GET would find the key, else 0 |
| Laws.SetLivesADay | app/src/core/command.cpp:234-240 | After the line `SET k v`, GET finds v for exactly 86400 seconds |
| Laws.SetWithTtl | app/src/memory/variant_type.cpp:45-51 | With a TTL: for exactly so many seconds if it is not negative, for ever if it is |
| Laws.DeletedIsGone | app/src/engine/shard.cpp:48-55 | A deleted key is gone for every reader at any later time, and a second DEL counts nothing |
| Laws.DelReplies | app/src/core/command.cpp:49-53 | DEL answers 1 exactly for a key stored and not yet deleted |
| Laws.PushedIsRead | app/src/core/command.cpp:77-108 | Values pushed to a new list are read back in the order they were pushed, for a day; each push answers the length so far |
| Laws.SetFieldIsRead | app/src/core/command.cpp:157-192 | A field that was set is read back, and all other fields answer what they answered before |
| Laws.HSetReplies | app/src/core/command.cpp:176-188 | HSET answers 1 exactly for a field that had no value |
| Laws.HGetReplies | app/src/core/command.cpp:203-224 | HGET answers a bulk string, `$-1` exactly if key or field is not there, or the wrong-type error exactly for a key of another kind |
| Laws.WrongType | app/src/core/command.cpp:91-93 | List and hash commands on a key of the other kind answer the wrong-type error, byte by byte, and change nothing |
| Laws.OutOfMemory | app/src/core/command.cpp:81-82 | Out of memory, the writing commands answer so, change nothing and log nothing |
| Laws.ChangeKeepsDeadline | app/src/core/command.cpp:90-97 | Pushing and setting fields neither lengthen nor shorten the life of what is there |
| Laws.LoggedIfChanged | app/src/core/command.cpp:49-53 | A command is logged exactly if its reply says that it changed something |
| Laws.SweepRemoves | app/src/daemons/timing_wheel.cpp:43-52 | The sweeper removes a key exactly if no reader can see it, logs exactly that, and touches no other key |
| Laws.LogText | app/src/core/command.cpp:110 | The logged text of DEL, LPUSH and HSET, word by word, without TTL |
| Laws.LogTextOfSet | app/src/core/command.cpp:29-31 | The logged text of SET, word by word, with its TTL |
| Replay.LoggedCommandTracks | app/src/core/command.cpp:90-104 | A logged command does to its key what its replay does, if and only if it does not diverge |
| Replay.EventTracks | app/src/core/server_builder.cpp:58-59 | The lines one command or sweep logs carry the replayed table along, if and only if it does not diverge |
| Replay.RestartRebuilds | app/src/core/server_builder.cpp:46-65 | A restart after any event of a run rebuilds data, TTL and live-or-deleted status of every key, if and only if no event of the run diverges |
| Replay.RunKeepsTableOk | app/src/core/command.cpp:84-107 | In every reachable table: word keys, no integers, no empty lists or hashes |
| Replay.LogReadsBack | app/src/core/server_builder.cpp:47-52 | The log of any run, written as a file, is read back in text mode line for line if and only if no logged word holds a byte 0x1A |
| Replay.FileRebuilds | app/src/core/server_builder.cpp:52-60 | From an empty server through the file, read in text mode, to the restarted one: same table, when the run never diverges and logs no byte 0x1A |
| Replay.CtrlZLosesLog | app/src/core/server_builder.cpp:47-52 | The input that loses the log: a value 0x1A; neither its key nor any key written after it is rebuilt |
| Replay.ExpiredValueComesBack | app/src/core/command.cpp:99-104 | Counterexample family: an expired, unswept string that is pushed to comes back after a restart |
| Replay.ReplayedWithMemory | app/src/core/server_builder.cpp:52-60 | The startup loop that may run out of memory is the one the replay theorems speak of, as long as it does not |
| PerKey.ReplayPerKey | app/src/core/server_builder.cpp:52-60 | A replay in which nothing expires treats each key by its own lines alone, independently of the clock |
| PerKey.OnlyTailMatters | app/src/core/server_builder.cpp:58-59 | For each key only its lines from the last SET or DEL on count |
| PerKey.TailOrderSuffices | app/src/core/server_builder.cpp:52-60 | Two logs that agree, key by key, from the last SET or DEL on rebuild the same table, at any clocks |
| PerKey.PerKeyOrderSuffices | app/src/core/server_builder.cpp:52-60 | In particular two logs with the same order for every key, whatever the order between keys |
| PerKey.TableIsKeyRun | app/src/core/command.cpp:90-104 | As long as no event diverges, each key of the table is what its own log lines make of it |
| PerKey.ShuffledLogRebuilds | app/src/daemons/aof_logger.cpp:13-16 | A restart rebuilds the table from any log that keeps, for every key, the order of its lines since its last SET or DEL |
| PerKey.LastLineDecides | app/src/core/command.cpp:22-23 | In any log order and any run, a key whose last line is a SET or DEL is rebuilt if and only if that line is the last one applied to it |
| PerKey.TailsTell | app/src/core/server_builder.cpp:58-59 | A key is rebuilt if and only if its applied and its logged lines since the last SET or DEL lead to the same data and TTL |
| PerKey.ListsDecide | app/src/core/command.cpp:94-103 | For a key whose lines end in LPUSHes, SET or DEL before them or not: rebuilt if and only if the log has, after its last SET or DEL, the values pushed since the one that took effect last, in order, with no lasting SET in front |
| PerKey.HashesDecide | app/src/core/command.cpp:176-187 | For a key whose lines end in HSETs, SET or DEL before them or not: rebuilt if and only if both agree on the value each field was set to last, with no lasting SET in front |
| PerKey.AnyGenerationRebuilds | app/src/core/server_builder.cpp:46-67 | A server that started from any file, itself rebuilt by replay, and appended its log: the next restart rebuilds its table |
| PerKey.ReplayKeepsTableOk | app/src/core/server_builder.cpp:52-60 | Whatever the file holds, the table it rebuilds is well formed |
| Late.StepRecorded | app/src/core/command.cpp:49-53 | With pending lines: table, applied lines and log stay in step, and no line is lost or duplicated |
| Late.PendingAreResets | app/src/core/command.cpp:94-103 | Only SET and DEL lines ever wait to be logged: LPUSH and HSET log before they let go of the lock |
| Late.InOrderRebuilds | app/src/daemons/timing_wheel.cpp:46-51 | As long as no line overtakes an earlier one of its key, a restart at any moment rebuilds every key that has no line pending |
| Late.OvertakingRebuilds | app/src/core/command.cpp:22-23 | Whatever overtakes what, a key whose last logged line is a SET or DEL is rebuilt if and only if that line was the last to take effect |
| Late.SetsOvertake | app/src/core/command.cpp:22-23 | Such a run from an empty server: two SETs of a key, logged the other way round; the key is rebuilt only if both wrote the same value |
| Hasher.MurmurHash3 | app/src/engine/hasher.cpp:10-56 | Block loop, fall-through tail and finaliser compute MurmurHash3_x86_32 as defined by recursion on the bytes |
| Hasher.MixBlockInjective | app/src/engine/hasher.cpp:25-31 | A block step is injective in the state for each block, and in the block for each state |
| Hasher.FinalizeInjective | app/src/engine/hasher.cpp:49-53 | The finaliser is injective on 32 bits |
| Hasher.OneBlockDiffers | app/src/engine/hasher.cpp:21-32 | Keys that differ in one aligned block only have different hashes |
| Hasher.OnlyTailDiffers | app/src/engine/hasher.cpp:35-45 | Keys of equal length that differ in their tail bytes only have different hashes |
| Hasher.LengthMatters | app/src/engine/hasher.cpp:48 | A zero byte added to the tail, which no block notices, changes the hash, because the length is mixed in |
| Hasher.EmptyKey | app/src/engine/hasher.cpp:10-56 | The published values of the empty key for three seeds |
| Hasher.PublishedTails | app/src/engine/hasher.cpp:35-45 | The published values of keys of one to three bytes |
| Hasher.PublishedBlock | app/src/engine/hasher.cpp:20-32 | The published value of a key of one block, read little-endian |
| Hasher.NumberNext | app/src/engine/hasher.cpp:73-75 | The index is the number the masked word stands for: counted up from zero |
| Hasher.MaskedIndexInBounds | app/src/engine/hasher.cpp:73-75 | The masked hash is always the index of a shard |
| Hasher.MaskIsModulo | app/src/engine/hasher.cpp:60-64 | For a power-of-two shard count, masking is the remainder by the shard count |
| Engine.Shard.Set | app/src/engine/shard.cpp:11-24 | Stores a fresh, live entry, or fails for lack of memory and changes nothing |
| Engine.Shard.Get | app/src/engine/shard.cpp:26-45 | The text of the entry if it is neither deleted nor expired, else nothing |
| Engine.Shard.Del | app/src/engine/shard.cpp:48-55 | Succeeds exactly on stored, not yet deleted entries, and leaves a tombstone |
| Engine.Shard.Exists | app/src/engine/shard.cpp:57-63 | True exactly for entries neither deleted nor expired |
| Engine.Shard.EvictExpired | app/src/engine/shard.cpp:66-75 | Erases exactly deleted or expired entries and says so |
| Engine.ShardRouter.constructor | app/src/engine/hasher.cpp:60-71 | As many separate, empty shards as the count says, each with an equal share of the memory |
| Engine.ShareIsFair | app/src/engine/hasher.cpp:66 | The shares use up the memory but for less than one byte a shard |
| Engine.ShardIndexIsModulo | app/src/engine/hasher.cpp:73-75 | The shard of a key is the hash of its bytes, with seed 0, modulo the number of shards |
| Engine.KeyOfShard17 | app/src/engine/hasher.cpp:73-75 | Of 64 shards the key `k` is in shard 17 |
| Engine.ShardRouter.ShardForKey | app/src/engine/hasher.cpp:77-79 | The one shard in which the key can be stored |
| Engine.ShardRouter.Set | app/src/engine/hasher.cpp:83-85 | All shards together change as one table; every key stays in the shard its hash selects |
| Engine.ShardRouter.Get | app/src/engine/hasher.cpp:87-89 | Reads the one table |
| Engine.ShardRouter.Del | app/src/engine/hasher.cpp:91-93 | Tombstones the key in the one table; placement is kept |
| Engine.ShardRouter.Exists | app/src/engine/hasher.cpp:95-97 | Visibility in the one table |
| Engine.ShardRouter.EvictExpired | app/src/daemons/timing_wheel.cpp:44-47 | Sweeps the key from the one table; placement is kept |
| Engine.ExecuteSet | app/src/core/command.cpp:21-27 | Table step, reply bytes and log line of SET, with no line while replaying or after running out of memory |
| Engine.ExecuteDel | app/src/core/command.cpp:49-53 | Table step, reply bytes and log line of DEL; nothing is logged if nothing was removed |
| Engine.ExecuteGet | app/src/core/command.cpp:37-41 | The reply bytes of GET on the one table |
| Engine.ExecuteExists | app/src/core/command.cpp:61-63 | The reply bytes of EXISTS on the one table |
| Engine.ExecuteLPush | app/src/core/command.cpp:77-108 | Table step (an append, or a fresh list), reply bytes, log line and the error cases of LPUSH |
| Engine.PutAndLog | app/src/core/command.cpp:102-103 | What LPUSH and HSET do under the lock: one entry stored in its shard and one line logged |
| Engine.ExecuteHSet | app/src/core/command.cpp:157-192 | Table step, added-or-updated count, log line and the error cases of HSET |
| Engine.ExecuteLRange | app/src/core/command.cpp:117-146 | The reply bytes of LRANGE, with the error case and the empty array for absent keys |
| Engine.RangeReply | app/src/core/command.cpp:132-145 | Clamping and the element loop yield the encoded array of the elements between the bounds |
| Engine.ElementsReply | app/src/core/command.cpp:139-145 | The loop reads existing indices only and writes the encoded array of the slice |
| Engine.ExecuteHGet | app/src/core/command.cpp:203-224 | The reply bytes of HGET, absent keys, absent fields and the error case included |
| Engine.Execute | app/src/core/worker_pool.cpp:80 | Every command does to the sharded store what it does to the one table, and its response is the encoded reply |
| Engine.ReplayFile | app/src/core/server_builder.cpp:46-65 | The startup loop executes exactly the lines that are commands of the file as text mode shows it, in order, memory running out or not, and leaves the logger untouched |
| Engine.ReplayOne | app/src/core/server_builder.cpp:53-59 | One line: executed if it is a command, skipped otherwise, and nothing logged |
| Allocator.WrapPassesTest | app/src/memory/pmr_allocator.cpp:30 | A request that does not fit passes the 64-bit test exactly when the sum wraps below the capacity |
| Allocator.AllocateKeepsInv | app/src/memory/pmr_allocator.cpp:29-43 | Behind an upstream bounded by its buffer, a request succeeds only if it fits, and failure changes nothing |
| Allocator.DeallocateKeepsInv | app/src/memory/pmr_allocator.cpp:45-48 | The saturating branch is never taken and the counter stays the sum of the live blocks |
| Allocator.AllocateThenDeallocate | app/src/memory/pmr_allocator.cpp:29-48 | Deallocating what was just allocated restores the tracker |
| Allocator.FullRefusesAll | app/src/memory/pmr_allocator.cpp:25-27 | The hard limit is reached exactly when no request of at least one byte can succeed any more |
| Allocator.RunKeepsInv | app/src/memory/pmr_allocator.cpp:29-48 | Over any run on all shards every counter is exact and within its capacity |
| Allocator.MemoryLimitHolds | app/src/engine/hasher.cpp:66-70 | Usage over all shards never exceeds the memory limit |
| Allocator.SharesAreFair | app/src/engine/hasher.cpp:66 | The capacities of the shards use up the memory but for less than one byte a shard |
| Allocator.TrackingMemoryResource.DoAllocate | app/src/memory/pmr_allocator.cpp:29-43 | Succeeds exactly if upstream does and the request fits; keeps the accounting exact |
| Allocator.TrackingMemoryResource.DoDeallocate | app/src/memory/pmr_allocator.cpp:45-48 | Gives back exactly the size of a live block |
| Allocator.TrackingMemoryResource.IsHardLimitReached | app/src/memory/pmr_allocator.cpp:25-27 | True exactly when every request would be refused |
| Aof.NothingLost | app/src/daemons/aof_logger.cpp:13-59 | In every interleaving: file, unwritten part of the flush buffer, active buffer make up the accepted commands in order, and the flush buffer is empty at each swap |
| Aof.ShutdownWritesEverything | app/src/daemons/aof_logger.cpp:26-37 | Once shutdown has returned, the file holds every accepted command exactly once |
| Aof.AcceptedIsTaken | app/src/daemons/aof_logger.cpp:13-16 | The accepted commands are those logged while running, in order |
| Aof.StoppedTakesNothing | app/src/daemons/aof_logger.cpp:13-16 | Nothing is accepted after the logger has stopped |
| Aof.AofLogger.LogCommand | app/src/daemons/aof_logger.cpp:13-16 | Appends to the active buffer if running |
| Aof.AofLogger.Begin | app/src/daemons/aof_logger.cpp:18-24 | Starts accepting commands, with nothing accepted before |
| Aof.AofLogger.SwapBuffers | app/src/daemons/aof_logger.cpp:46-49 | What was active is now to be flushed, and the other buffer, empty, becomes active |
| Aof.AofLogger.WriteBufferToDisk | app/src/daemons/aof_logger.cpp:54-59 | The file grows by exactly what is left of the flush buffer, whatever is logged, and whether or not the logger is stopped, between any two lines |
| Aof.AofLogger.FlushRound | app/src/daemons/aof_logger.cpp:40-51 | After one round the file is exactly everything accepted up to the swap |
| Aof.AofLogger.FlushLoop | app/src/daemons/aof_logger.cpp:39-52 | The flush thread only extends the file; after a round everything accepted before the loop is in it; a stop may come at any moment, and the thread returns only when stopped |
| Aof.AofLogger.FlushAndCloseFile | app/src/daemons/aof_logger.cpp:30-31 | After the last flush the file is the accepted commands |
| Aof.AofLogger.Join | app/src/daemons/aof_logger.cpp:29 | With the flag cleared the flush thread finishes from wherever it is, the middle of a write included, and returns |
| Aof.AofLogger.Shutdown | app/src/daemons/aof_logger.cpp:26-32 | Wherever the flush thread is, the file ends as all accepted commands; a second call does nothing |
| Wheel.HandledExactlyOnce | app/src/daemons/timing_wheel.cpp:33-53 | Whatever else is scheduled, an entry is handed out exactly once, within 86400 ticks |
| Wheel.HandledOnTime | app/src/daemons/timing_wheel.cpp:13-18 | An entry d seconds ahead is handled by exactly the call that advances the tick from d to d+1, if and only if d is within one turn of the wheel |
| Wheel.DueOnTime | app/src/daemons/timing_wheel.cpp:63-69 | An entry a whole turn or more ahead is visited early |
| Wheel.SecondsAreFull | app/src/daemons/timing_wheel.cpp:63-69 | The distance of an expiry is its full seconds from the start, and 0 if it lies before |
| Wheel.DefaultTtlIsForgotten | app/src/daemons/timing_wheel.cpp:33-53 | An entry created with the default TTL is always a whole turn ahead: it is handed out early, exactly once; a visit sweeps nothing exactly when it comes before the deadline, and no later tick hands it out again |
| Wheel.OnTimeIsExpired | app/src/daemons/timing_wheel.cpp:63-69 | If tick d does not run before start + d + 1 seconds, the entry scheduled for it is expired |
| Wheel.SweeperNeverEarly | app/src/daemons/timing_wheel.cpp:55-61 | Sleeping a second before each tick guarantees that |
| Wheel.TimingWheel.ScheduleKey | app/src/daemons/timing_wheel.cpp:13-18 | Adds the entry to the bucket of its expiry second and to no other |
| Wheel.TimingWheel.TakeBucket | app/src/daemons/timing_wheel.cpp:34-41 | The critical section takes out exactly the current bucket and moves on by one tick |
| Wheel.TimingWheel.AdvanceTick | app/src/daemons/timing_wheel.cpp:33-53 | Empties one bucket, sweeps its keys in order and logs a DEL for exactly those that went |
| Wheel.TimingWheel.SweepBatch | app/src/daemons/timing_wheel.cpp:43-52 | The loop sweeps every key of the batch in order |
| Wheel.TimingWheel.SweepKey | app/src/daemons/timing_wheel.cpp:44-51 | Evicts and logs, or does neither |
| Pool.StepConserves | app/src/core/worker_pool.cpp:68-83 | Every step keeps: accepted = queued + at workers + finished + produced |
| Pool.AcceptedIsConserved | app/src/core/worker_pool.cpp:32-83 | At every moment each accepted task is queued, at a worker, or has its one result |
| Pool.ShutdownDrains | app/src/core/worker_pool.cpp:56-83 | Once all workers have returned, the queue is empty, every accepted task has exactly one result, and no later one is accepted |
| Pool.NoRoomNeverAccepts | app/src/core/worker_pool.cpp:35 | With a queue limit of zero no run ever accepts or produces anything |
| Pool.CompletionQueue.PushResult | app/src/core/worker_pool.cpp:7-10 | Appends the result |
| Pool.CompletionQueue.Drain | app/src/core/worker_pool.cpp:12-18 | Moves out everything, oldest first |
| Pool.WorkerPool.SubmitOne | app/src/core/worker_pool.cpp:32-40 | Accepts if and only if running and not full |
| Pool.WorkerPool.WorkOne | app/src/core/worker_pool.cpp:76-81 | Takes the oldest task and posts one result with its handle and number |
| Pool.WorkerPool.WorkerLoop | app/src/core/worker_pool.cpp:68-83 | Runs the queue dry, one result per task in order, and returns exactly if the pool was stopped |
| Pool.WorkerPool.ShutdownAll | app/src/core/worker_pool.cpp:56-65 | Whatever the workers are in the middle of, all return, and every accepted task has its one result; a second call does nothing |
| Reassembly.FlushEarly | app/src/network/reactor.cpp:202-208 | Flushing before a further result arrives makes no difference |
| Reassembly.DeliverAllIsOneFlush | app/src/network/reactor.cpp:194-209 | Any number of deliveries amounts to buffering everything and flushing once |
| Reassembly.DeliveryOrderIsIrrelevant | app/src/network/reactor.cpp:199-208 | On one connection the order of results does not matter |
| Reassembly.DrainPerConnection | app/src/network/reactor.cpp:194-198 | A drain does to each connection what its own results do, and discards those of dropped ones |
| Reassembly.RoundsAreOneDrain | app/src/network/reactor.cpp:190-210 | Splitting results over drains makes no difference |
| Reassembly.ReassemblyIsConfluent | app/src/network/reactor.cpp:190-210 | The same results, permuted and split over any number of drains, leave every connection in the same state |
| ProtocolInv.StepKeepsInv | app/src/network/reactor.cpp:134-210 | Every step of reactor, pipeline and workers keeps the whole invariant |
| ProtocolInv.RunKeepsInv | app/src/network/reactor.cpp:47-103 | So does every run, in every interleaving |
| Guarantees.RepliesInOrder | app/src/network/reactor.cpp:163-210 | Bytes sent and buffered are the replies to requests 0, 1, 2, ... in issue order, each the pipeline's own answer to its line or given by a worker to a command line |
| Guarantees.ClientDecodesPrefix | app/src/network/reactor.cpp:175-179 | However sends are split, the client decodes exactly the replies sent in full, in order, and what is left is less than one more reply |
| Guarantees.ExactlyOnePlace | app/src/network/reactor.cpp:152-208 | Every stamped request is in exactly one of: dispatcher, queue, worker, completion queue, reorder buffer, flushed; and nothing else is |
| Guarantees.InFlightIsExact | app/src/network/reactor.cpp:204-206 | The in-flight counter is issued less expected and at most 256; the guard on its decrement never saves anything |
| Guarantees.QuietMeansAnswered | app/src/network/reactor.cpp:190-210 | When queues and workers are empty, every stamped request has been answered in full |
| Guarantees.SubmitNeverRefuses | app/src/network/reactor.cpp:158-165 | A line that passed the 90% check finds room: "server busy" is unreachable, and the queue stays within 9*max/10 + 1 |
| Guarantees.PipelineAnswers | app/src/network/pipeline.cpp:22-65 | What the pipeline answers by itself, byte by byte, and when: limited, only blanks, no command, and never to a command |
| Guarantees.AcceptedBelowLimit | app/src/network/reactor.cpp:115-120 | A connection is taken on exactly while there are fewer than 10000 |
| Guarantees.ConnectionsAreCounted | app/src/network/reactor.cpp:108-132 | The counter is the number of connections, at most 10000; paused handles are live; write-pending means a non-empty write buffer |
| Guarantees.LinesOfTheStream | app/src/network/reactor.cpp:142-166 | Stamped and discarded lines with those still buffered are the requests of the whole stream, each limiter firing discarding exactly one; the stamped lines are those requests if and only if none was discarded and none is buffered |
| Drops.RequestIsDropped | app/src/network/reactor.cpp:146-161 | A run from a fresh server in which a client sends a command twice and the second is discarded |
| Drops.StampedExactlyIfRoom | app/src/network/reactor.cpp:151-164 | A request is stamped exactly if fewer than 256 are in flight and the queue is at most nine tenths full; otherwise it is discarded and the connection paused |
| Drops.WindowPreventsDepthLimit | app/src/network/reactor.cpp:151-155 | A client with at most 256 requests without a decoded reply, the one being read included, is never stopped by the pipeline limit; only a full queue can discard its request |
| Order.OneWorkerExecutesInIssueOrder | app/src/core/worker_pool.cpp:68-83 | With one worker, in every run, a request is executed after all those executed before it on its connection were issued |
| Order.TwoWorkersOvertake | app/src/core/worker_pool.cpp:68-83 | With two workers some run executes the second command of a connection before the first |
| Progress.BecomesQuiet | app/src/network/reactor.cpp:53-98 | From every reachable state of a running server with a worker some run leaves nothing under way and keeps all connections and stamped lines |
| Progress.EveryRequestCanBeAnswered | app/src/network/reactor.cpp:163-210 | From every such state some run sends a live client the replies to all its requests, in order and in full |
| Backpressure.PolledForReading | app/src/network/reactor.cpp:57-69 | In every reachable state at rest: below seven tenths of the queue every connection is polled for reading; at or above, one is left out exactly if it was paused and still has 256 requests in flight |
| Backpressure.PolledForWriting | app/src/network/reactor.cpp:226-227 | A connection is polled for writing exactly if it has not been sent all replies that are next in order |
| Backpressure.PolledOnce | app/src/network/reactor.cpp:221-230 | Every connection is polled, in one entry |
| Backpressure.FurtherLineIsStamped | app/src/network/reactor.cpp:57-69 | From every reachable state of a running server with a worker some run comes to a point where nobody is paused, and there takes in and stamps a further line of any live connection |
| Guarantees.HandleMustBeUnused | app/src/network/reactor.cpp:128-131 | Accepting a handle keeps the invariant if and only if nothing of an earlier connection with it is outstanding |
| Guarantees.ReusedHandleMisdelivers | app/src/network/reactor.cpp:195-199 | The immediate case: a result numbered 0 that waits in the completion queue is written to the new client |
| Reuse.OutstandingMisleads | app/src/network/reactor.cpp:195-208 | Whatever number is outstanding, and wherever: some run from the accept on answers the new client more requests than it made |
| Reuse.ReuseIsSafeExactlyIfUnused | app/src/network/reactor.cpp:128-131 | In reachable states such a run exists if and only if something of an earlier connection with the handle is outstanding |
| Reuse.HandleCanBeOutstanding | app/src/network/reactor.cpp:182-187 | Such states are reachable: a client sends a command and leaves before it is executed |
| System.SysStepKeepsOk | app/src/core/worker_pool.cpp:80-81 | Server steps on the store, and sweeps, keep protocol, log and table in agreement |
| System.OneOrderExplainsAll | app/src/core/worker_pool.cpp:68-83 | However workers interleave, one order of executions explains all replies, the table and the log, and each executed request is a different event of it |
| System.RunExtends | app/src/core/worker_pool.cpp:80 | The order only grows: a request executed later stands later, and nothing is taken back |
| Accounting.AcceptedIsExecutedOnce | app/src/core/worker_pool.cpp:32-83 | In every reachable state the accepted commands are exactly those queued, those at workers and those executed on the store, each once |
| System.ReachableTableOk | app/src/core/command.cpp:84-107 | The table of any reachable server is well formed |
| System.RepliesOfTheStore | app/src/network/reactor.cpp:163-210 | Sent and buffered bytes are the replies in issue order, each the pipeline's own answer or what its command returned at its own place in the one order |
| System.RestartAnyReachable | app/src/core/server_builder.cpp:46-65 | Restarting any reachable server, started from any file, whose run never diverged rebuilds its table from that file and its log, in any order that keeps each key's lines since the last SET or DEL, when neither holds a byte 0x1A |
| LateSystem.RunProjects | app/src/core/command.cpp:22-23 | Every run of the whole server that logs late is, for its log, a run of the late log alone |
| LateSystem.InOrderRestart | app/src/daemons/timing_wheel.cpp:46-51 | The whole server, logging late: as long as no line overtakes an earlier one of its key, a restart at any moment rebuilds every key that has no line pending |
| LateSystem.OvertakingRestart | app/src/core/command.cpp:22-23 | The whole server, whatever overtakes what: a key whose last written line is a SET or DEL is rebuilt if and only if that line was the last to take effect on it |
| Serving.RequestCanBeServed | app/src/network/reactor.cpp:108-210 | With a worker and a queue, any command line on a fresh server can be received, stamped, executed, delivered and sent: a run ends at rest with exactly the command's reply on the wire, its change in the table and its line in the log |
| Serving.ReachableServes | app/src/core/server_builder.cpp:42-80 | So do servers that started from any file |
| Turns.DrainLeads | app/src/network/reactor.cpp:190-210 | Emptying the completion queue and delivering everything is a run of the machine's single deliveries |
| Turns.DisconnectOnlyOnce | app/src/network/reactor.cpp:182-187 | Disconnecting keeps the invariant if and only if the handle is connected or nobody is: a second disconnect of a handle would miscount |
| Turns.WroteSends | app/src/network/reactor.cpp:175-179 | What the socket takes goes out, and nothing else; an error ends the connection |
| Reactor.Reactor.OthersWork | app/src/core/worker_pool.cpp:76-81 | What workers do beside the reactor is the given schedule, and leaves connections alone |
| Reactor.Reactor.AcceptConnection | app/src/network/reactor.cpp:108-132 | An accept step of the machine: a new empty connection, or a rejection that changes nothing at the limit |
| Reactor.Reactor.Disconnect | app/src/network/reactor.cpp:182-187 | Forgets the handle and lowers the counter, whatever the handle; a disconnect step of the machine if it is connected |
| Reactor.Reactor.Process | app/src/network/pipeline.cpp:22-82 | The four handlers answer or pass on, and exactly one thing happens: one reply posted or one task submitted |
| Reactor.Reactor.HandleLine | app/src/network/reactor.cpp:145-166 | One turn of the read loop cuts one line and skips, discards or dispatches it, exactly as the machine does; the loop ends only when paused or without a complete line |
| Reactor.Reactor.HandleLines | app/src/network/reactor.cpp:144-166 | The read loop, with workers moving before every line, has exactly the effect of its turns one after the other, and is a run of the machine |
| Reactor.Reactor.HandleRead | app/src/network/reactor.cpp:134-167 | Reading takes in the received bytes once and leaves no complete line unless paused; an error disconnects, connected or not; bytes for an unknown handle change nothing |
| Reactor.Reactor.TakeBytes | app/src/network/reactor.cpp:139-142 | The receive step of the machine |
| Reactor.Reactor.HandleWrite | app/src/network/reactor.cpp:169-180 | Sends a prefix of the write buffer and keeps the rest, disconnects on an error, does nothing for an unknown handle |
| Reactor.Reactor.FlushReplies | app/src/network/reactor.cpp:202-208 | The inner loop moves exactly the contiguous replies |
| Reactor.Reactor.DeliverResult | app/src/network/reactor.cpp:194-209 | One result is delivered, or dropped with its connection |
| Reactor.Reactor.DrainCompletionQueue | app/src/network/reactor.cpp:190-210 | Empties the queue, delivers all its results and changes nothing else, as a run of the machine |
| Reactor.Reactor.UnpauseReads | app/src/network/reactor.cpp:57-69 | The unpause step of the machine, whose effect `Backpressure.PolledForReading` states |
| Reactor.Reactor.RebuildPollSet | app/src/network/reactor.cpp:213-231 | One entry per connection; reads unless paused, writes exactly when there are bytes to send |
| Reactor.Reactor.HandleEvent | app/src/network/reactor.cpp:89-97 | An event disconnects, or reads and then writes, as the machine does: a hang-up disconnects, bytes of a polled connection are taken in, others are left alone, and it disconnects at most once |
| Reactor.Reactor.HandleEvents | app/src/network/reactor.cpp:81-98 | The events take effect one after the other; exactly the handles reported as closed are gone, each once, every hang-up among them, and whoever is still connected has had its bytes taken |
| Reactor.Reactor.Prepare | app/src/network/reactor.cpp:54-71 | The first part of a turn is exactly drain, unpause and the poll set of the state reached |
| Reactor.Reactor.Serve | app/src/network/reactor.cpp:81-98 | The second part accepts a client while there is room, then handles every event |
| Reactor.Reactor.Tick | app/src/network/reactor.cpp:53-98 | A turn of the event loop is exactly drain, unpause, poll set, accept and the events in poll order; it is a run of the machine, keeps its invariant, takes the bytes of every ready connection, and disconnects each polled handle at most once and every hang-up. The accepted handle needs nothing outstanding after the drain |
| Reactor.Reactor.CloseAll | app/src/network/reactor.cpp:101-102 | Every connection is forgotten |
| Server.ExecuteOnStore | app/src/core/worker_pool.cpp:80 | A command on the real shards and logger does the table's step, logs its line and answers with the encoding of its reply |
| Server.Server.constructor | app/src/core/server_builder.cpp:42-75 | Replay, logger, pool and reactor as objects start in the initial state of the system machine for that file |
| Server.Server.AcceptClient | app/src/network/reactor.cpp:108-132 | Objects and machine accept in step |
| Server.Server.Receive | app/src/network/reactor.cpp:134-142 | Objects and machine receive the given bytes in step |
| Server.Server.ReadLine | app/src/network/reactor.cpp:145-166 | One line, dispatched to the real pool, is a run of the system machine; workers may move before the next |
| Server.Server.Send | app/src/network/reactor.cpp:169-180 | Objects and machine write in step |
| Server.Server.DeliverResults | app/src/network/reactor.cpp:190-210 | Objects and machine deliver in step |
| Server.Server.Disconnect | app/src/network/reactor.cpp:182-187 | Objects and machine disconnect in step |
| Server.Server.UnpauseReads | app/src/network/reactor.cpp:57-69 | Objects and machine unpause in step, as `Backpressure.PolledForReading` says |
| Server.Server.StopReactor | app/src/network/reactor.cpp:101-102 | Objects and machine stop in step |
| Server.Server.TakeTask | app/src/core/worker_pool.cpp:76-77 | The worker takes the oldest task, as the machine's pop does |
| Server.Server.ExecuteTask | app/src/core/worker_pool.cpp:80-81 | The real execution on shards and logger is the machine's execution: same reply, contents equal the table, accepted lines equal the log |
| Server.Server.PostResult | app/src/core/worker_pool.cpp:81 | The worker's result is posted, as the machine's push does |
| Server.Server.SweepKey | app/src/daemons/timing_wheel.cpp:44-51 | The real eviction and its log line are the machine's sweep |
| Server.Server.FinishWorker | app/src/core/worker_pool.cpp:68-83 | After the flag is cleared a worker finishes what it has, works the queue off on the store and returns |
| Server.Server.ShutdownPool | app/src/core/worker_pool.cpp:56-65 | All workers return and the queue is empty, as a run of the machine |
| Server.Server.Finish | app/src/core/server_builder.cpp:85-91 | Reactor stopped, pool shut down, logger shut down: every command ever accepted has been executed exactly once, and the file is the log of exactly those executions and the sweeps, in order |
| Server.Server.ShutdownLogger | app/src/daemons/aof_logger.cpp:26-32 | The file written is the machine's log, and the startup file with it appended rebuilds the contents of the shards, if the run never diverged |

## Left out

- Sockets, poll, threads, mutexes and condition variables as primitives: oracles and atomic steps; fairness and the memory model are not stated.
- Progress while reads are paused: lines left in a read buffer wait for the next recv, and the code does not promise that one comes.
- RateLimiter: its token bucket is unreachable code; its verdict is an arbitrary boolean.
- Memory: one boolean per operation stands for the hard limit and a failed allocation; which allocations an operation makes is not modelled, nor are the soft limit, `utilization`, `estimated_memory_usage` and `touch`.
- Pools, monotonic buffers and alignment of `std::pmr`: replaced by the rule that upstream hands out no more than its buffer; buffers are at most 2^63-1 bytes, as `std::vector` allows.
- Integer widths: sequence numbers, sizes, counters and deadlines are unbounded except where a wrap is modelled (hash words, allocator sums, 64-bit command arguments).
- Replies are carried as values whose encoding is the response string; `Server.ExecuteOnStore` recovers the value by decoding the string, which `Engine.Execute` proves to be its encoding.
- Hasher.MurmurHash3: for keys shorter than 2^31 bytes, because the source keeps the length in a signed 32-bit integer.
- Engine.ShardRouter.constructor: takes the shard count less one as a 32-bit mask, so counts above 2^32 and a count of zero are not modelled.
- Engine.ReplayFile: the AOF file can be opened, and an unterminated last line is executed as `getline` delivers it.
- Replay.RestartRebuilds: memory does not run out and no entry that lives at least a second expires during the replay, and the table rebuilt is compared without creation times.
- System.RestartAnyReachable: the logger accepts throughout the run; what the sweeper logs after the logger has been shut down is lost, since the wheel is stopped last.
- Aof.AofLogger.FlushLoop: watches any finite number of rounds; a failed file write is not modelled, and the file is this session's output.
- Wheel: a second `start`, and entries scheduled before `start` moves the start time, are not modelled; the shard index argument of `schedule` is unused in the source.
- Reactor.Reactor.Tick: one turn of the loop; runs of many turns are runs of the machine.
- PerKey.ListsDecide: keys with both LPUSH and HSET lines since the last SET or DEL have only the general condition of `PerKey.TailsTell`; without overtaking they do not arise.
- Server: threads are interleaved between the methods of its objects, so inside a drain or a write no worker moves; the step machine has those interleavings. Its objects log in the step that changes the store; late logging is `LateSystem`.
- The message to clients rejected at the connection limit is sent and forgotten, so no state of the model records it.
- A logger is always given to commands, as `build_and_run` does; the null logger is not modelled.
- PubSub, builder setters, `parse_memory_limit`, signals, console output, scripts and benchmarks.
