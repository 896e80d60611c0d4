# Verified models of YuTuTui!'s measuring, release and export tools

The hard logic of the repository's tools lives in a handful of small programs: a sampler that must
stop a whole process tree before it can call a measurement clean, a lock-free counting allocator, an
exporter that may run beside a live owner of the same files, a hand-written Rust lexer, and several
encoders whose output somebody else reads. Each of them is modelled here in Dafny, with the same
branches, constants and error conditions as the code, and proved against what it is for.

- **Process tree** (`ProcessWorld`, `ProcessTree`, `SystemCalls`, `FinalInventory`, `Shutdown`): the process
  table as a world whose processes fork, execute, exit, change groups and sessions, are adopted and have their
  numbers reused between any two system calls, and in which a death makes the kernel signal the groups it
  orphans. The freeze loop, the group signals and both shutdown paths run in that world.
- **Allocation counters** (`AllocCounters`): every atomic operation of the allocator is one step of any number
  of threads; counters are 64-bit words, compare-and-swap may fail for no reason.
- **Data export** (`ExportFlow`): the exporter's methods with the rest of the system moving between any two
  operations: owners that hold the writer lease, older primaries that ignore it, requests served late.
- **Rust sources and the recovery audit** (`RustLexer`, `RustPrinter`, `EnumParser`, `EnumPrinter`,
  `RecoveryAudit`): the lexer and parser with their loops, printers for everything they must read back, and
  the audit over both.
- **Codecs** (`WindowsQuote`, `EnvironmentBlock`, `Varint`, `Utf8`, `Rings`, `Centroid`, `Atlas`, `AtlasWriter`):
  writers with independently written readers: the Remarks of Microsoft's documentation of CommandLineToArgvW,
  DWARF 5 section 7.6 for LEB128, RFC 3629 section 3 for UTF-8.
- **Streams and accumulators** (`IpcClient`, `Buffering`, `CpuWindow`, `Artwork`): object models of code that
  updates fields, proved against a definition that looks at the whole history at once.
- **Transactions and accounting** (`Outputs`, `ExportAccounting`): files and rows that are neither lost nor
  counted twice, with any operation allowed to fail.

`Text` and `Sorting` hold what several of these share. A method models code that works by changing
things; its `ensures` ties it to a function or predicate, and the lemmas beside that say what it means.
Nondeterminism (`*` and such-that choices) stands for the environment: system calls that fail, chunks,
timeouts, other processes.

## Where the code falls short of its aim

- **A process that rewrites itself during the shutdown can be left running**, that is, one that executes another
  program or writes over its arguments. The freeze loop caches executables by process number and start second,
  the final inventory therefore describes the old image, and `hard_kill_frozen_descendant` takes the mismatch for
  a process that is gone and returns success. `Shutdown.ShutdownTree` promises that every inventoried identity
  whose number is not rewritten is dead, so that with no rewriting at all everything is gone
  (`Shutdown.QuietMeansGone`). `Shutdown.ExecBeforeStopEscapes` is a scene in which a descendant executes between
  its record and its stop; in `Shutdown.WokenEscapes` the owner's death orphans a stopped group, whose member the
  kernel continues before its exact kill.
- **The peak of a measuring window can come from before it.** The reset reads `LIVE` and then stores it, and an
  update already in flight still writes its own value. `AllocCounters.CarriedPeak` is a concrete run;
  `AllocCounters.PeakIsWindowMaximum` gives the exact condition.
- **The quoter escapes the program name like an argument**, but the reader does not unescape it:
  `WindowsQuote.ReadUndoesJoin` gives exactly the argument lists that come back.
- **`unwrap` shifts once a step**, so a step of more than one and a half turns stays long
  (`Rings.UnwrappedSteps`); longitudes within one turn never make one.
- **A reader of signed varints gets another number exactly outside 32 bits** (`Varint.ReadsBackExactly`,
  `Varint.WideValuesChange`); the file format's 16-bit coordinates keep every delta inside.
- **The label of a ring at the date line can be put on its western side.** The code turns -18000 into 18000 before
  it rounds; `Centroid.LabelOnDateLine` says exactly when the rounded longitude is -18000 all the same, and
  `Centroid.LabelPutWest` is such a ring.
- **The lease binds only owners that take it.** Older primaries do not, and one that starts after the endpoint
  check can write between two reads (`ExportFlow.OlderPrimaryTears`); `ExportFlow.Exporter.ExportFromDisk`
  promises a coherent snapshot unless one that started after the check began has written since, and
  `ExportFlow.SnapshotIsState` says at which moments, if any, the stores held what was read.

## Model

| member | source | states |
|---|---|---|
| `ProcessTree.DescendantPids` | examples/tui_perf_sampler.rs:1318-1337 | terminates on every parent relation, cyclic ones included, and returns in ascending order without duplicates exactly the root and the processes whose parent links lead to it |
| `ProcessTree.ClosedCoversDescent` | examples/tui_perf_sampler.rs:1320-1333 | a set with the root that is closed under parent links holds every process that descends from the root |
| `ProcessTree.Sorted` | examples/tui_perf_sampler.rs:1334-1335 | the ascending list of exactly the elements of the set |
| `ProcessWorld.ApplyKeepsWorld` | examples/tui_perf_sampler.rs:2161-2224 | forks, exits, stops, continuations, rewriting of program or arguments, changes of group, session and death signal, and reuse of numbers keep a possible process table possible |
| `ProcessWorld.Entrants` | examples/tui_perf_sampler.rs:2161-2224 | nobody joins the owner's family in one move but a child forked by a member, or a process that takes the owner's number |
| `ProcessWorld.RunKeeps` | examples/tui_perf_sampler.rs:2161-2224 | over any run, the world stays possible, the dead stay dead, what is known of a process stays true until it rewrites itself, and quelled or stopped processes that no death disturbs stay as they are |
| `ProcessWorld.FrozenForever` | examples/tui_perf_sampler.rs:2161-2224 | once every member of the family is stopped or dead, no run of the rest of the system starts one or adds a member, unless a death makes the kernel signal one |
| `FinalInventory.Discover` | examples/tui_perf_sampler.rs:1647-1749 | nothing exactly if the owner is gone or some executable can be read neither now nor from the cache; otherwise exactly the owner's descendants and, but for the sampler, the members of its group, each as observed or under the executable it was first seen with |
| `FinalInventory.TakeInventory` | examples/tui_perf_sampler.rs:2180-2215 | a snapshot adds to the inventory exactly whom the discovery looks for and drops exactly the recorded descendants it no longer shows; every entry has a source in the log |
| `FinalInventory.ExactOwnerGroup` | examples/tui_perf_sampler.rs:2072-2113 | names the group if and only if it is the owner's own and not the sampler's and the table shows the owner exactly as it was; then the owner is unreaped |
| `FinalInventory.WaitForGroupStop` | examples/tui_perf_sampler.rs:2135-2159 | success means that in one snapshot the group has members and every one of them is stopped |
| `FinalInventory.StopRecorded` | examples/tui_perf_sampler.rs:2194-2204 | signals recorded identities that the snapshot shows exactly and nobody else; if all signals were sent, each of these is stopped or dead for good; if nobody else acts, all are sent |
| `FinalInventory.Round` | examples/tui_perf_sampler.rs:2179-2219 | one round keeps everything recorded stopped; if all of it had been before, the inventory is final; if nobody else acts and every executable can be read, it succeeds and lists the recorded still there and everybody looked for |
| `FinalInventory.RoundOnCourse` | examples/tui_perf_sampler.rs:2179-2219 | a round that nobody disturbs finds what the one before it has found, so the count of equal rounds goes up |
| `FinalInventory.Freeze` | examples/tui_perf_sampler.rs:2161-2224 | success means that every process reachable from the owner by live parent links, or in its group, is in the inventory and stopped, that no later move adds to them unless a death disturbs them, and that each entry is the truth about a process that does not rewrite itself; whoever is stopped was recorded or shown below the owner or in its group before; and it does succeed if the owner is there as captured, all its family can be read, nobody else acts and there is time |
| `FinalInventory.EqualInventoriesAreFinal` | examples/tui_perf_sampler.rs:2196-2215 | if all that the merged inventory lists had been stopped before the snapshot, it holds the whole family and the family is frozen |
| `FinalInventory.MatchedOrCached` | examples/tui_perf_sampler.rs:1694-1725 | every entry of a merged inventory is matched by the snapshot or was described from the cache |
| `FinalInventory.DiscoveredIsTrue` | examples/tui_perf_sampler.rs:1694-1725 | entries and cached executables describe each process for as long as it does not rewrite itself |
| `FinalInventory.FrozenNow` | examples/tui_perf_sampler.rs:2161-2224 | at any later time that no death disturbs, nobody in the family runs and everybody in it was in it |
| `SystemCalls.LawfulSignal` | examples/tui_perf_sampler.rs:2115-2133 | after an exact check the owner's group may be stopped, and killed if it was stopped before: the log stays lawful |
| `SystemCalls.StopGroupKeeps` | examples/tui_perf_sampler.rs:2115-2133 | a stop of the owner's group leaves none of its members running |
| `SystemCalls.KillKeeps` | examples/tui_perf_sampler.rs:2227-2263 | after a kill, with orphans adopted by a living ancestor or init and the kernel's signals to orphaned groups and tied children, nobody has joined the owner's family |
| `SystemCalls.Kernel.StopOwnerGroup` | examples/tui_perf_sampler.rs:2115-2133 | signals the owner's group, which is not the sampler's, right after an exact check; then no member of it runs and the owner is quelled |
| `SystemCalls.Kernel.KillOwnerGroup` | examples/tui_perf_sampler.rs:2115-2133 | allowed only right after an exact check, after a stop of the same group and before the owner is reaped; logged exactly if sent, it kills exactly the members, and the kernel signals exactly the groups and children their deaths concern |
| `SystemCalls.Kernel.TryWait` | examples/tui_perf_sampler.rs:2322-2340 | reports an exit exactly when the owner has been collected, and collects only a dead one |
| `SystemCalls.Kernel.StopProcess` | examples/tui_perf_sampler.rs:2195-2199 | a single process is stopped only while the latest snapshot shows it to be exactly the given identity; the signal is logged exactly if sent |
| `SystemCalls.Kernel.KillProcess` | examples/tui_perf_sampler.rs:2237-2241 | likewise for a kill, which kills exactly the holder of that number |
| `Shutdown.ValidateChild` | examples/tui_perf_sampler.rs:2322-2362 | an owner is confirmed only if it is unreaped, is the spawned process and leads its own group |
| `Shutdown.CaptureOwner` | examples/tui_perf_sampler.rs:2265-2320 | a captured identity is that of the spawned owner, leading its group, as the table shows it |
| `Shutdown.HardKill` | examples/tui_perf_sampler.rs:2227-2263 | kills only directly after a snapshot that shows the process to be exactly the recorded identity, and no other process, inventoried or not; of a frozen inventory it kills exactly the undisturbed stopped process that still matches, or nobody; on success the identity is dead unless its number is rewritten during the shutdown; if nobody else acts it succeeds |
| `Shutdown.KillConfirmedGroup` | examples/tui_perf_sampler.rs:2584-2656 | without an error exactly the recorded members of the owner's group are hit, after one more confirmation and after their stop, and no single process is signalled; a group that is there as captured and that nobody disturbs is killed |
| `Shutdown.ReapOwner` | examples/tui_perf_sampler.rs:2584-2656 | without an error the owner has been collected, and nothing recorded is disturbed; only the unreaped owner is killed |
| `Shutdown.KillRecorded` | examples/tui_perf_sampler.rs:2584-2656 | every single process it kills is the one its record describes; without an error, of the undisturbed recorded identities exactly those survive that were stopped, not hit before and no longer matched, and every one whose number is not rewritten is dead |
| `Shutdown.KillAndReap` | examples/tui_perf_sampler.rs:2584-2656 | the kills after the freeze: without an error what `CleanedUp` and `Gone` say of the final inventory |
| `Shutdown.ShutdownTree` | examples/tui_perf_sampler.rs:2584-2656 | in every run each group signal is lawful and directly follows an exact check, and every signal to a single process goes to one that the latest snapshot shows exactly as recorded and that was recorded before or shown below the owner or in its group, or to the unreaped owner; without an error the owner is reaped, every identity of the final inventory whose number is not rewritten during the shutdown is dead, and of those no death disturbs exactly the escaped ones are alive; there is no error if the family is there to be read, nobody else acts and no system call fails |
| `Shutdown.EmergencyShutdown` | examples/tui_perf_sampler.rs:2391-2424 | the same for the path that starts without a recorded inventory, success included, if the child is there as it was spawned |
| `Shutdown.QuietMeansGone` | examples/tui_perf_sampler.rs:2584-2656 | if nobody rewrites itself during the shutdown, every inventoried identity is dead |
| `Shutdown.ExecBeforeStopEscapes` | examples/tui_perf_sampler.rs:2196-2263 | a scene in which a descendant in its own session executes another image before its stop, is in the final inventory and escapes |
| `Shutdown.WokenEscapes` | examples/tui_perf_sampler.rs:2227-2263 | a scene in which a matching child in the owner's session is continued by the kernel when the owner dies, executes another image and escapes |
| `AllocCounters.NextKeeps` | examples/tui_render_perf.rs:69-118 | every step of every thread, spurious failures included, keeps the invariant that ties counters, live blocks and peak together |
| `AllocCounters.RunHolds` | examples/tui_render_perf.rs:69-118 | every state any threads reach in any interleaving satisfies it |
| `AllocCounters.LiveNeverUnderflows` | examples/tui_render_perf.rs:84-104 | a subtraction from `LIVE` finds at least that much in it and does not wrap |
| `AllocCounters.QuiescentCounters` | examples/tui_render_perf.rs:69-106 | with nothing in flight `LIVE` is the total size of live blocks and is `ALLOCATED` minus `DEALLOCATED`, also modulo 2^64 |
| `AllocCounters.LiveMoves` | examples/tui_render_perf.rs:75-104 | an operation on `LIVE` moves it by exactly what the block's share changes, without wrapping |
| `AllocCounters.UpdateKeepsPeak` | examples/tui_render_perf.rs:109-118 | a step of the update loop keeps every published value at or below the peak or in flight, and never lowers the peak |
| `AllocCounters.PeakOnlyGrows` | examples/tui_render_perf.rs:109-118 | only a reset ever lowers the peak |
| `AllocCounters.PeakIsMaximum` | examples/tui_render_perf.rs:109-118 | with no update in flight the peak is the maximum of the reset value, the values published since, and those the updates in flight at the reset were going to write |
| `AllocCounters.PeakIsWindowMaximum` | examples/tui_render_perf.rs:596-597 | it is the maximum of the window's own values if and only if nothing carried over the reset tops them |
| `AllocCounters.PeakIsLargestLive` | examples/tui_render_perf.rs:596-597 | if nothing moves `LIVE` during a reset and no update is in flight at the reset or at the end, the peak is the largest value `LIVE` has had since the reset |
| `AllocCounters.CarriedPeak` | examples/tui_render_perf.rs:596-597 | a run of two threads that ends with a peak nothing in the window published |
| `ExportFlow.AtMostOneKept` | src/remote/client.rs:301-343 | serving, dropping or deduplicating requests keeps the exports made and still possible at one |
| `ExportFlow.AtMostOneForever` | src/remote/client.rs:301-343 | however the system goes on, there is never a second export |
| `ExportFlow.MaySendKept` | src/remote/client.rs:301-343 | a request that may be sent may still be sent after any move of the system |
| `ExportFlow.MaySendAgain` | src/remote/client.rs:307-331 | a request the server retains may be sent once more |
| `ExportFlow.StoresKeptUnderLease` | src/data_cli.rs:241-280 | while the lease is ours and no older primary runs, no run of the system changes the stores |
| `ExportFlow.OlderPrimaryTears` | src/data_cli.rs:266-275 | an older primary that starts between two reads makes the snapshot a state the stores never had |
| `ExportFlow.SnapshotIsState` | src/data_export.rs:436-462 | what was read store by store is the state of the stores at a moment of the lease if no store is written between its read and that moment; and, where writes bring new contents, only then |
| `ExportFlow.KeptExactly` | src/data_cli.rs:241-280 | under the lease a store keeps its content as long as no older primary writes it, and a fresh write changes it for good |
| `ExportFlow.Exporter.PrimaryEndpointsAbsent` | src/remote/client.rs:198-228 | success under the lease means that unless an older primary started since the check began, none runs |
| `ExportFlow.Exporter.InstanceWithCapability` | src/remote/client.rs:176-188 | absence is reported only after a check found every endpoint dead, and under the lease that check is one the exporter may read by |
| `ExportFlow.Exporter.InitializePersistenceWriter` | src/persist/writer_lease.rs:321-348 | granted means held; a lease already held is granted again |
| `ExportFlow.Exporter.SendAttempt` | src/remote/client.rs:372-414 | an attempt that failed before the payload was written has delivered nothing, and a confirmed one was executed; every attempt is on record |
| `ExportFlow.Exporter.SendTo` | src/remote/client.rs:285-343 | a failed connection is reported only if nothing was delivered, in either attempt; an ambiguous attempt is repeated exactly if the server retains outcomes, and then only a replay counts |
| `ExportFlow.Exporter.ExportThroughOwner` | src/data_cli.rs:319-355 | a reported path belongs to the one export made, by that owner; recovery is allowed if and only if the first attempt reached no server, and then nothing was delivered |
| `ExportFlow.Exporter.ReadStore` | src/data_export.rs:436-462 | a store is read only under a clear check, the read is on record with what the store held, and it continues a prefix of one state of the stores unless an older primary has written to them since |
| `ExportFlow.Exporter.ExportFromDisk` | src/data_export.rs:436-462 | the snapshot is what the stores held at a clear check, unless an older primary that started after the check began has written to them since; no request was ever sent |
| `ExportFlow.Exporter.ExportOfflineAfterStaleDescriptor` | src/data_cli.rs:286-313 | reads the stores only under the lease and after the check |
| `ExportFlow.Exporter.ExportOfflineWithGuard` | src/data_cli.rs:241-281 | the same, after one more lookup; with the lease elsewhere it never reads them |
| `ExportFlow.Exporter.ExportThroughOwnerOrRecoverStale` | src/data_cli.rs:397-417 | goes to the disk only when no request was ever sent, in either attempt; if the first attempt reached no server, it fails only for an obstacle met after that one, and succeeds when nothing fails and nobody interferes |
| `ExportFlow.Exporter.RunExport` | src/data_cli.rs:207-221 | in every run: reads are guarded, a disk export is coherent unless an older primary that started during it wrote to the stores, no request precedes it, a reported export is the one made, there is at most one now and for ever, and a failure means an obstacle was met or the path is not UTF-8; if nothing fails and nobody interferes, it succeeds through an owner of a supported version that answers, or from the disk if the lease can be had |
| `RustLexer.RawStringEnd` | scripts/check-recovery-state-budget.py:74-94 | the end of a raw or byte string, or none, or an unterminated one, as the span function says |
| `RustLexer.QuotedEnd` | scripts/check-recovery-state-budget.py:97-107 | the end of an escaped string |
| `RustLexer.CharLiteralEnd` | scripts/check-recovery-state-budget.py:110-129 | the end of a character literal, or none for a lifetime |
| `RustLexer.BlockCommentEnd` | scripts/check-recovery-state-budget.py:146-164 | the end of a comment nested to any depth |
| `RustLexer.RustTokens` | scripts/check-recovery-state-budget.py:132-197 | terminates on every text with the tokens or the error of the lexing function |
| `RustLexer.IdentifierIs` | scripts/check-recovery-state-budget.py:14 | an identifier is a letter or underscore followed by letters, digits and underscores, or such a name of its own after `r#` |
| `RustPrinter.CommentScans` | scripts/check-recovery-state-budget.py:146-164 | a printed block comment, nested to any depth, is skipped as a whole |
| `RustPrinter.RawSkips` | scripts/check-recovery-state-budget.py:74-94 | a printed raw string with any number of hashes is skipped as a whole |
| `RustPrinter.CharSkips` | scripts/check-recovery-state-budget.py:110-129 | a printed character literal is skipped and not taken for a lifetime |
| `RustPrinter.LexUndoesPrint` | scripts/check-recovery-state-budget.py:132-197 | for every list of words and marks laid out with whitespace, comments, strings and character literals in between, the lexer returns exactly that list |
| `EnumParser.EnumBodyStart` | scripts/check-recovery-state-budget.py:200-220 | the opening brace of the body, with generics and bounds passed over, or the error |
| `EnumParser.MatchingBrace` | scripts/check-recovery-state-budget.py:223-232 | the brace that closes it |
| `EnumParser.StripOuterAttributes` | scripts/check-recovery-state-budget.py:235-253 | the segment without its attributes |
| `EnumParser.SplitSegments` | scripts/check-recovery-state-budget.py:256-285 | the segments between top-level commas |
| `EnumParser.CountVariants` | scripts/check-recovery-state-budget.py:256-296 | the number of variants, or the error |
| `EnumParser.ParseSource` | scripts/check-recovery-state-budget.py:299-316 | `parse_enums` as the parsing function says |
| `EnumParser.DiscoverSource` | scripts/check-recovery-state-budget.py:319-334 | `discover_enum_names` likewise |
| `EnumParser.NamesAgree` | scripts/check-recovery-state-budget.py:299-334 | whenever parsing succeeds, discovery finds the same names in the same order |
| `EnumPrinter.HeadScans` | scripts/check-recovery-state-budget.py:200-220 | a printed enum head of any bracket structure leads to its body |
| `EnumPrinter.BracesScan` | scripts/check-recovery-state-budget.py:223-232 | a balanced body is scanned to its own closing brace |
| `EnumPrinter.AttributesStrip` | scripts/check-recovery-state-budget.py:235-253 | printed attributes are stripped, and nothing else |
| `EnumPrinter.CountUndoesPrint` | scripts/check-recovery-state-budget.py:256-296 | a printed body has exactly its variants counted, and is rejected exactly if some variant has a discriminant, that is a top-level `=` |
| `EnumPrinter.ParseUndoesPrint` | scripts/check-recovery-state-budget.py:299-316 | a file of enum-free tokens and printed enums, raw names included, parses to each bare name with its count, and is rejected exactly if an enum has a discriminant |
| `EnumPrinter.SourceReadsBack` | scripts/check-recovery-state-budget.py:132-316 | the same for every layout of the text, and discovery finds the names: printing, lexing and parsing compose |
| `RecoveryAudit.ParsedIsDiscovered` | scripts/check-recovery-state-budget.py:471-475 | names taken from a parsed file are those discovery would find |
| `RecoveryAudit.ControlEnumIs` | scripts/check-recovery-state-budget.py:337-354 | which names count as control enums: by what they contain, begin with and end with, and by whether the file is budgeted or its path names recovery or resume |
| `RecoveryAudit.MetIs` | scripts/check-recovery-state-budget.py:429-460 | an entry is met exactly by a file that can be read and parsed and has one declaration of the enum, of the expected size |
| `RecoveryAudit.CheckEntries` | scripts/check-recovery-state-budget.py:429-460 | if every file was read, no error exactly if every entry has one declaration with the expected count, and then the totals are the manifest's |
| `RecoveryAudit.CheckDiscovery` | scripts/check-recovery-state-budget.py:462-497 | if every file was read, no error exactly if every control-named enum in the discovery paths is budgeted |
| `RecoveryAudit.Audit` | scripts/check-recovery-state-budget.py:405-499 | reports no error if and only if both hold, and its totals then are the manifest's |
| `WindowsQuote.QuoteWindowsArgument` | examples/tui_perf_conpty.rs:508-535 | the loop over a run of backslashes computes the quoted form |
| `WindowsQuote.QuotedOnlyIfNeeded` | examples/tui_perf_conpty.rs:509-515 | exactly the arguments that are not empty and have no blank and no mark are written as they are |
| `WindowsQuote.EscapedReads` | examples/tui_perf_conpty.rs:516-534 | inside quotes, reading undoes escaping: runs of backslashes before a mark and at the end included |
| `WindowsQuote.QuotedReads` | examples/tui_perf_conpty.rs:508-535 | reading undoes quoting for every argument and leaves the rest of the line |
| `WindowsQuote.TailReads` | examples/tui_perf_conpty.rs:431-435 | joined arguments read back as the list |
| `WindowsQuote.QuotedProgramReads` | examples/tui_perf_conpty.rs:431-435 | a program name without marks reads back with its trailing backslashes doubled if it had to be quoted |
| `WindowsQuote.ReadUndoesJoin` | examples/tui_perf_conpty.rs:431-440 | the parsed command line is the argument list if and only if the list is not empty, holds no NUL, and its program name has no mark and no trailing backslash when quoted |
| `EnvironmentBlock.LoadEnvironment` | examples/tui_perf_conpty.rs:471-486 | accepts exactly the non-empty environments in which no name is empty or holds `=` and no name or value holds a NUL |
| `EnvironmentBlock.UnicodeEnvironmentBlock` | examples/tui_perf_conpty.rs:488-506 | fails exactly if two names agree in upper case; otherwise the block holds the environment's entries in strictly increasing order |
| `EnvironmentBlock.NeighboursShowClash` | examples/tui_perf_conpty.rs:495-499 | looking at sorted neighbours finds every clash |
| `EnvironmentBlock.DecodeUndoesBlock` | examples/tui_perf_conpty.rs:500-506 | the receiver of a block finds exactly its entries |
| `EnvironmentBlock.ReceiverSees` | examples/tui_perf_conpty.rs:471-506 | a loaded environment arrives with the same bindings |
| `Varint.ZigzagNotNegative` | scripts/atlas-geometry.py:43-44 | exclusive or of unbounded integers never leaves a negative number, so the byte loop ends for every value |
| `Varint.ZigzagIs` | scripts/atlas-geometry.py:43-44 | on 32-bit values it is the zigzag code |
| `Varint.ZigzagVarint` | scripts/atlas-geometry.py:43-53 | terminates for every integer with the LEB128 bytes of its code |
| `Varint.ReadUndoesVarint` | scripts/atlas-geometry.py:43-53 | reading undoes writing for every 32-bit value, whatever follows |
| `Varint.PrefixFree` | scripts/atlas-geometry.py:43-53 | no encoding is a prefix of another, so none is shared |
| `Varint.ReadsBackExactly` | scripts/atlas-geometry.py:43-53 | an integer of any size reads back as itself if and only if it lies from -2^31 to 2^31 - 1 |
| `Varint.WideValuesChange` | scripts/atlas-geometry.py:43-53 | from 2^31 to 2^32 every value reads back as another one |
| `Utf8.DecodeUndoesEncode` | scripts/atlas-geometry.py:56-60 | strict decoding undoes encoding, before any further bytes |
| `Utf8.CharBytes` | scripts/atlas-geometry.py:57 | the bytes of a character in its one to four byte forms |
| `Utf8.EncodeUndoesDecode` | scripts/atlas-geometry.py:58-63 | strict decoding accepts nothing but the encoding of what it returns: no overlong form, no surrogate, nothing beyond U+10FFFF |
| `Utf8.CutCharFails` | scripts/atlas-geometry.py:57-63 | a character cut short does not decode |
| `Utf8.CutDecodes` | scripts/atlas-geometry.py:57-63 | a cut encoding decodes exactly at the end of the longest fitting prefix |
| `Utf8.FittingIsLongest` | scripts/atlas-geometry.py:57 | that prefix fits and one more character does not |
| `Utf8.EncodeName` | scripts/atlas-geometry.py:56-63 | a name without surrogates becomes the encoding of its longest prefix within 60 bytes |
| `Rings.Dedup` | scripts/atlas-geometry.py:84-91 | the points that differ from their predecessor in the input, opened if closed |
| `Rings.TurnsInOrder` | scripts/atlas-geometry.py:86-89 | exactly the points that differ from the one before them stay, in their order |
| `Rings.RingIsSimple` | scripts/atlas-geometry.py:84-92 | no two neighbours of a ring are alike, the last and first included, and no position is lost |
| `Rings.Unwrap` | scripts/atlas-geometry.py:13-25 | each point moves by full turns only and each step is the raw one shortened at most once |
| `Rings.UnwrappedIs` | scripts/atlas-geometry.py:13-25 | the steps determine the unwrapped ring |
| `Rings.UnwrappedSteps` | scripts/atlas-geometry.py:13-25 | a step is at most half a turn if and only if the raw one is at most one and a half; within one turn always |
| `Rings.Normalised` | scripts/atlas-geometry.py:101-102 | the same longitude within one turn, the date line on its eastern side |
| `Centroid.EdgesAreFan` | scripts/atlas-geometry.py:28-40 | the loop's sums over edges are the sums over the triangles of a fan, each counted with its area and the mean of its corners: what is computed is the centroid |
| `Centroid.CentroidIsMean` | scripts/atlas-geometry.py:28-40 | the centroid is the mean of the centroids of these triangles, each as heavy as its signed area |
| `Centroid.CentroidMoves` | scripts/atlas-geometry.py:28-40 | a ring that moves as a whole keeps its area and takes its centroid along |
| `Centroid.SignedAreaAndCentroid` | scripts/atlas-geometry.py:28-40 | the signed area and the centroid, or the first point of a ring without an area |
| `Centroid.Rounded` | scripts/atlas-geometry.py:104 | the nearest integer, and from the middle the even one |
| `Centroid.Largest` | scripts/atlas-geometry.py:99 | the first of the rings with the largest area |
| `Centroid.SizeIsArea` | scripts/atlas-geometry.py:99 | rings are compared by the area their triangles enclose, its sign aside |
| `Centroid.Centre` | scripts/atlas-geometry.py:99-104 | the loops over rings put the label at the rounded centroid of that ring |
| `Centroid.LabelIs` | scripts/atlas-geometry.py:99-104 | the label lies within half a unit of the centroid of the first of the largest rings, whole turns of the globe aside |
| `Centroid.TurnsMakeNoDifference` | scripts/atlas-geometry.py:99-102 | a ring given on another turn of the globe has the same size and the same longitude for its label |
| `Centroid.LabelOnDateLine` | scripts/atlas-geometry.py:101-104 | the label's longitude always fits, and is the western side of the date line exactly if the centroid is within half a unit east of it |
| `Centroid.LabelPutWest` | scripts/atlas-geometry.py:99-104 | a ring whose label is put there |
| `Atlas.ReadRingUndoes` | scripts/atlas-geometry.py:106-113 | a counted ring of a first point and deltas is recovered exactly |
| `Atlas.ReadFeatureUndoes` | scripts/atlas-geometry.py:103-113 | so is a whole feature |
| `Atlas.ReadFileUndoes` | scripts/atlas-geometry.py:68-117 | a reader of the file gets every feature back |
| `AtlasWriter.BoxIsTight` | scripts/atlas-geometry.py:93-98 | the bounding box holds every point and touches one on each side |
| `AtlasWriter.BoxOfRings` | scripts/atlas-geometry.py:93-98 | the box written for a feature holds every point of its rings, and west, south, east and north are those of one of them |
| `AtlasWriter.CodeIs` | scripts/atlas-geometry.py:72-73 | two bytes of the code, padded with spaces; `-99` becomes two hyphens, and anything else that is not ASCII fails |
| `AtlasWriter.FeatureFits` | scripts/atlas-geometry.py:93-112 | a box that can be packed means that every coordinate, and so every delta, is in range |
| `AtlasWriter.KeptRingsAreRings` | scripts/atlas-geometry.py:81-92 | every kept ring has at least three points and no repetition |
| `AtlasWriter.KeptInOrder` | scripts/atlas-geometry.py:81-92 | exactly the rings that keep three points are kept, in their order |
| `AtlasWriter.EncodableIs` | scripts/atlas-geometry.py:71-113 | which features can be written, in numbers: code, characters, counts of rings and points, coordinates and the latitude of the label |
| `AtlasWriter.EncodeRing` | scripts/atlas-geometry.py:106-113 | the loop over deltas writes the bytes of the ring |
| `AtlasWriter.EncodeFeature` | scripts/atlas-geometry.py:71-113 | succeeds exactly for the sources every packing step accepts, and writes the feature with its box, its label and its rings |
| `AtlasWriter.EncodeAtlas` | scripts/atlas-geometry.py:66-117 | succeeds exactly if every source does and there are fewer than 2^16, and the file reads back as their features |
| `Buffering.StallTimeAfter` | examples/tui_perf_control.rs:403-417 | after the last event the value holds for every further instant |
| `Buffering.OneMoreEvent` | examples/tui_perf_control.rs:403-417 | an event changes nothing before it |
| `Buffering.Telemetry.RecordBuffering` | examples/tui_perf_control.rs:403-417 | with events in time order, what was added up, with the open interval, stays the stalled time so far, clipped to the cutoff; in any order, at most one window for every event counted |
| `Buffering.Telemetry.RecordTimePos` | examples/tui_perf_control.rs:419-426 | keeps the first and the last position up to the cutoff |
| `Buffering.Telemetry.Record` | examples/tui_perf_control.rs:358-401 | keeps both invariants over the history, whatever the event |
| `Buffering.Telemetry.Finish` | examples/tui_perf_control.rs:428-436 | with events in time order, the total is the number of instants before the cutoff, or before now, whose latest value is true, and the events are its rising edges before the cutoff |
| `CpuWindow.CpuIntervalOverlap` | examples/tui_perf_sampler.rs:633-645 | a sample taken in warm-up overlaps the window by nothing, and no overlap exceeds the window |
| `CpuWindow.AreaNext` | examples/tui_perf_sampler.rs:965-972 | a sample adds its value at every instant of its interval inside the window |
| `CpuWindow.CoveredNext` | examples/tui_perf_sampler.rs:965-972 | consecutive overlaps add up |
| `CpuWindow.TalliedNext` | examples/tui_perf_sampler.rs:1152-1158 | skipping samples in warm-up loses nothing |
| `CpuWindow.MeanBelowLargest` | examples/tui_perf_sampler.rs:579-588 | the mean never exceeds the largest sample counted |
| `CpuWindow.Aggregate.Push` | examples/tui_perf_sampler.rs:572-577 | adds one sample to every field |
| `CpuWindow.Measure` | examples/tui_perf_sampler.rs:938-1247 | sampling stops at the first round at the deadline; the mean is the average over the instants of the window, the tree's overlaps add up to its observed part, and the other fields are the number, the sum and the maximum of resident sizes over exactly the samples after warm-up that have the role |
| `IpcClient.ServeIsStable` | scripts/probe-mpv-032.py:705-740 | once the bytes decide a request, further bytes change nothing |
| `IpcClient.ChunkingDoesNotMatter` | scripts/probe-mpv-032.py:876-909 | clients that read different amounts of one stream agree once they are decided |
| `IpcClient.SkippedServe` | scripts/probe-mpv-032.py:734-737 | lines that answer another request only put their items first |
| `IpcClient.Transport.ReceiveLine` | scripts/probe-mpv-032.py:824-867 | lines handed out and the buffer are always the bytes received; a line is whole |
| `IpcClient.Transport.SendLine` | scripts/probe-mpv-032.py:810-822 | all bytes go out in order, or a prefix and an error that something refused the rest |
| `IpcClient.IpcClient.Handle` | scripts/probe-mpv-032.py:723-737 | a line ends the request or becomes the next event |
| `IpcClient.IpcClient.Request` | scripts/probe-mpv-032.py:705-737 | returns its own answer and stores every other item in order, as the bytes say however they were cut; giving up loses nothing; over all requests of a session, events and answers, in order, are exactly the items of the lines received; it times out only after all its waits, and blames the process, the stream or the transport only for what has just gone wrong there |
| `IpcClient.IpcClient.Poll` | scripts/probe-mpv-032.py:714-729 | one wait keeps the account of the session |
| `IpcClient.OneMoreLine` | scripts/probe-mpv-032.py:705-740 | a line becomes an event, the answer of the request that waits, or its failure, and the account of the session goes on |
| `Outputs.PickArtifact` | scripts/download-release-artifacts.py:90-118 | picks the only unexpired artifact of the name, or there is none that qualifies |
| `Outputs.GoodInventoryIs` | scripts/download-release-artifacts.py:150-198 | which archives pass: regular files, each once, under exactly the expected names, none of them empty, a dot name or with a separator |
| `Outputs.StageZipMembers` | scripts/download-release-artifacts.py:150-208 | succeeds exactly if the archive holds the expected files and nothing else, each name once and none staged before, and they can be staged; then exactly these are staged, each under its member's name with that member's content |
| `Outputs.Destination.CreateFrom` | scripts/download-release-artifacts.py:220-222 | creates a file only under a free name, filled or in part; only a fault or a taken name keeps it from being complete |
| `Outputs.Destination.Rollback` | scripts/download-release-artifacts.py:223-228 | removes what was created in order; exactly the first file that cannot be removed and those after it are left |
| `Outputs.Destination.WriteOutputs` | scripts/download-release-artifacts.py:211-229 | all names with their staged bytes, or a failure that has a cause and leaves none, or exactly what was created from the first file on that cannot be removed; never anyone else's file |
| `Outputs.Kept` | scripts/download-release-artifacts.py:223-228 | nothing is left exactly if every created file can be removed |
| `Outputs.Stage` | scripts/download-release-artifacts.py:247-257 | succeeds exactly if every artifact is listed, downloads with its digest and holds its files, with no name twice and none that cannot be staged; every member of each archive is then staged under its name with its content |
| `Outputs.DownloadReleaseArtifacts` | scripts/download-release-artifacts.py:232-260 | the destination ends extended by exactly the expected names, each member of a verified archive with its content under its name, or there is a cause of failure and nothing is left but what was created from the first file on that cannot be removed |
| `Artwork.Watch.Fetch` | src/artwork.rs:66-71 | replaces the slot; the request it held is overwritten if nobody had borrowed it |
| `Artwork.Watch.Changed` | src/artwork.rs:103 | succeeds while a value is unseen, also after the senders are gone; waits only with nothing unseen |
| `Artwork.Watch.BorrowAndUpdate` | src/artwork.rs:104 | returns the newest value, which need not be the one that woke the actor |
| `Artwork.ServedNext` | src/artwork.rs:103-149 | borrowing the newest request processes it and leaves those it replaced unprocessed for good |
| `Artwork.RunActor` | src/artwork.rs:84-150 | a request is processed, once and in order, if and only if it was not overwritten before it was borrowed, and its result is what fetching it came to, or no image where a client is missing; whenever the actor waits, and when it ends, its last result is for the last request sent |
| `ExportAccounting.OnlyPortableIdentities` | src/data_export.rs:907-938 | a local file or a server row gets no identity unless it has a YouTube id |
| `ExportAccounting.IdentityIs` | src/data_export.rs:904-938 | a song has exactly the identity that identifies it: a YouTube id, or what follows its own catalog's prefix in a row that is no local file |
| `ExportAccounting.BuildCatalogMap` | src/data_export.rs:877-902 | an id has the identity of the last song that has it, and only such ids have one |
| `ExportAccounting.ProjectTracks` | src/data_export.rs:809-875 | one track a song, and the shared counter grows by those without an identity |
| `ExportAccounting.PortableTells` | src/data_export.rs:809-875 | a track shows the identity of its own song, whether that is a file, and its source |
| `ExportAccounting.ProjectSignals` | src/data_export.rs:940-1061 | every signal and event is exported once, signals in order, or counted as omitted |
| `ExportAccounting.SignalsTell` | src/data_export.rs:964-1030 | the exported signals are exactly those of the rows that can be named, field by field, missing counts as 0 and large ones capped |
| `ExportAccounting.EventsTell` | src/data_export.rs:1030-1061 | the exported events are exactly the well-formed pairs of the log that can be named |
| `ExportAccounting.SignalBeforeIs` | src/data_export.rs:1006-1011 | signals are in order of their source's key, and of one source in order of identity |
| `ExportAccounting.NothingLost` | src/data_export.rs:940-1061 | with serialisable signals, exported and omitted rows add up to the source's |
| `ExportAccounting.NewAt` | src/data_export.rs:111-162 | every list has one track a song with that song's identity, the counter is the number of tracks without one in all of them, and the signals account for every row |
| `ExportAccounting.LimitedWriter.Write` | src/data_export.rs:1463-1480 | never passes on more than the limit, and records when a write would have |

## Left out

Assumptions about what the code talks to:

- Process tree: snapshots of the process table are atomic, a process number and a start second name one process, a zombie shows no executable, the owner stays in its own group, outsiders do not join it, and executables on disk do not change. SIGSTOP and SIGKILL take effect before the call that sends them returns, so that two equal rounds already make an inventory final; the program waits 20 ms between rounds and asks for three. A stopped process is continued or killed only by the kernel, when a death orphans its group (the consequences of process termination under `_Exit` in POSIX.1-2017) or signals a child tied to its parent; nobody else sends such signals.
- Allocation counters: atomic operations are sequentially consistent, although the program asks for relaxed ordering only, under which a load of the peak from before a reset could end an update early; the system allocator keeps its contract (a block has one user at a time) and all blocks together fit in an address space; `ALLOCS`, `REALLOCS` and failed allocations, which are not counted, are not part of this model.
- Data export: the locks of the separate persistence roots are one lease, a server that advertises retained outcomes executes a request identity once, a primary of an older version listens on a canonical endpoint while it runs, and a confirmed reply is for an executed command; the fields of the descriptor, the check of the returned path and the contents of the stores are abstract.
- Environment block: the names' upper case is a parameter, and a string's UTF-16 form is taken to be its characters.
- IPC client: JSON decoding and the comparison of `request_id` with the request's number are parameters, so that a value Python calls equal (`true` and 1) counts as the answer; a deadline is the number of waits it leaves room for.
- Outputs: other processes add files but do not touch those just created; the listing, the downloads, the digest and the archive format are parameters, and so are the files that cannot be staged, copied or removed in a run; an exception other than an I/O error leaves no guarantee in the code either.
- Artwork: what the n-th fetch and its decoding come to is a parameter, and both end.

What the models do not say:

- RecoveryAudit.Audit: does not model the manifest's parser, the text and order of error messages, or lower-casing beyond ASCII.
- FinalInventory.Freeze: does not model the list of mpv identities kept beside the descendants; deadlines are the length of the environment's script.
- Buffering.Telemetry.Record: for events out of time order, which two producers on one channel do not exclude, promises no more than a bound on the total; follows buffering and positions only, not the other properties it stores or the records it writes.
- CpuWindow.Measure: follows one role at a time, since roles do not influence each other, and uses exact percentages instead of floating point.
- AtlasWriter.EncodeAtlas: takes coordinates as already quantised, computes centroids exactly and not in floating point, and does not say which exception a failure raises.
- ExportAccounting.NewAt: does not model settings, station, artist weights and the sanitised text fields; sanitising checks before it filters.
- Sorting.Sort: does not say in which order equal elements come out, although the library's sort is stable.
- `latency_histogram`, `percentile`, `burst_target_offset`, `wait_for_seek`, `query_mpv_property` and the I/O and volume aggregates would add only easy members.
- The sampler's live identity files, controller handshake and cache inventory; terminal, ConPTY and job-object calls; the release script's argument parsing.
- The playback modules, data import, the publish step of the export, crossfade, equaliser, configuration and command line.
