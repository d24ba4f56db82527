# Verification model of a Model 2A re-implementation

The repository re-implements an arcade board and its tooling in C and Python. This project models
the parts that keep a property over whole runs, and proves it:

- **The sound board's voice ledger** (`VoiceLedger`, `VoiceTheory`, `VoiceRuns`, `Boot`, `BootOps`,
  `FullStop`, `VoiceOps`). 32 voices, two shared counters and two age bytes per voice that are really two
  key-on-ordered queues. The paths that key voices on, expire them, tear them down, steal or stop them
  keep the ages a bijection onto `0..counter-1` in key-on order, each under an exact condition. The history of key-ons and key-offs
  is kept as a ghost log, and the ages are proved to be positions in the queues that log plays out.
- **The PCM stream walker** (`Walker`, `LoopLaw`, `WalkerTheory`, `WalkerRuns`, `WalkerLedger`,
  `WalkerOps`). 32 stream records, each a state machine that copies 512-byte pages into its own 8 KiB
  window; what a service does to the ledger is proved to be one of the ledger's own steps.
- **The command ring and UART assembler** (`Ring`, `Uart`, `RingRuns`, `Fifo`, `RingOps`). Three
  producers and a consumer on a 4 KiB ring with byte counts, and a running-status parser.
- **The i960 analyser**: control-flow recovery (`Cfg`, `CfgTheory`, `CfgDiscovery`, `CfgExact`,
  `CfgBlocks`, `CfgOps`), constant propagation (`Semantics`, `Folding`, `Worklist`, `FixPoint`, `Facts`,
  `Overflow`, `SemanticsOps`), and both together on the executions of an image (`ImageFacts`).
- **The geometry processor's streams** (`TgpCommands`, `TgpStrips`, `TgpGeometry`, `TgpOps`).
- **SHA-1 and CRC-32** (`Sha1`, `Sha1Ops`, `Crc`), against RFC 3174, RFC 1952 section 8 and RFC 1662
  appendix C.
- **The sound chip's renderer** (`Scsp`, `ScspMix`, `ScspOps`) and **coverage accounting**
  (`Coverage`).

Each component has specification functions on values, lemmas about them, and, where the C code works
in place (or the Python by loops), a class or methods over arrays with the source's loops, proved to
compute those functions (`*Ops` files, and the methods inside `Crc`, `TgpCommands` and `Coverage`).
`Arithmetic` and `Bytes` hold shared facts about division, bytes and bits, `Wrappers` and `Chunks` two
shared definitions; `SoundBoard` is the board's memory and how the ledger lies in it.
`dafny verify dfyconfig.toml` checks everything.

## Where the code falls short of the plain statement

Each of these is proved as an exact condition or with a concrete input.

- The UART filing path does not test for a full count. The FIFO law for it holds exactly when the
  count is below 255 (`Fifo.UartExact`); at 255 the byte count wraps and every pending packet is lost
  (`Ring.PushOverruns`).
- The full stop (`7F`) ends with `$151e` = 0 exactly when every live drum still has flag bit 4
  (`FullStop.FullStopClears`); keying a drum on through the looping engine arm clears that bit
  (`Boot.LoopingDrumMiscounts`). It keeps the ledger exactly when no drum sounds
  (`FullStop.FullStopExact`): `Boot.StopLosesLedger` keys a drum on after reset and stops it, and `$152e`
  stays 1.
- The walker follows the ideal looped sample for ever exactly when the first pass is longer than one
  page and the loop is at least one page (`LoopLaw.LawExact`; `LoopLaw.ShortLoopFails` is a loop of 100
  bytes). The copy refuses a page at an odd address: inside ROM none is refused exactly when the sample's
  start, its loop's length and the distance from the first pass's end to the loop's start are even
  (`WalkerRuns.PagesCopied`).
- The reaper keeps the ledger exactly when no voice is idle (`VoiceRuns.ReapExact`), and the allocator
  that enters it scans 32 records from a stored cursor without wrapping at the table's end. It keeps the
  ledger exactly when a scan that runs out of records finds the board full (`VoiceRuns.AllocateExact`,
  `VoiceRuns.ExhaustedExact`). The public setup author authors any voice without looking at it and keeps
  the ledger exactly when that voice is idle (`VoiceRuns.AuthorExact`). `Boot.AllocatorLosesLedger` is a
  run of the board's public functions from reset, authoring by call and a refused key-down, after which
  the next key-down loses the ledger. Key-down commands alone cannot lead there: the allocator's only door
  is voice 0, so in a run of commands and interrupts no other voice is keyed on, and from reset such a run
  keeps the ledger exactly when no full stop of it comes while a drum sounds (`Boot.CommandedExact`).
- The propagation is seeded at the block with the lowest address, which is the function's entry exactly
  when no reachable instruction lies below it (`CfgBlocks.FirstBlockExact`). The recorded facts hold on
  every execution from the entry exactly when the entry block was reached and claims nothing that is not
  so on entry (`Facts.FactsExact`, `ImageFacts.ImageFactsExact`), as it is when the entry is lowest
  (`Facts.FirstIsEntry`). `ImageFacts.EntryAboveFails` is an image of three instructions whose entry is the
  second, on which they do not hold.
- The propagation queue holds `8 * blocks + 1` entries. An analysis pushes a block at most once and once
  more for every register the function writes (`Worklist.PushesPerBlock`), so that at most seven written
  registers are safe (`Worklist.AllocatedSuffices`); a queue loses a push exactly when more are needed than
  there are slots (`Worklist.SuppressedExactly`). `Overflow.CapacityLosesAPush` is a two-block function,
  laid out as the block builder would lay it (`Overflow.LoopingIsLaidOut`), that loses one and ends at no
  post-fixpoint.
- Constants are folded in 64 bits and shift counts taken modulo 32, so a folded shift is not always what
  the machine computes. `Folding.FoldExact` gives the condition for every operation; it fails for shro of
  -1 by 1, shri of 0x80000000 by 1 and any shift of 1 by 32 (`Folding.OrdinalFoldedWrongly`,
  `Folding.IntegerFoldedWrongly`, `Folding.CountFoldedWrongly`).
- The analyser updates one destination of ldl, ldt, ldq, movl, movt, movq, emul and ediv. The facts
  survive exactly when none is left on the further registers (`Facts.QuietExact`);
  `Facts.PairLoadUnsound` is a ldl that leaves a stale constant.
- Discovery marks exactly the reachable instructions exactly when no two of them overlap
  (`CfgExact.MarksExact`): a two-word instruction overwrites the mark of its second word, as in
  `CfgExact.OverlayLosesAnInstruction`.
- A recorded successor is the start of a block exactly when it is word aligned
  (`CfgBlocks.SuccessorsAreBlocks`); a branch to address 2 records one that is not
  (`CfgBlocks.SkewedSuccessor`).
- A printed command stream of unmeasured opcodes parses back exactly when no payload word looks like
  a header (`TgpCommands.RoundTrip`; `FirmwareRoundTrip` and `MeasuredRoundTrip` are its cases for the
  firmware's counts and for measured opcodes).
- The unit sizes of a coverage report add up to the program size exactly when no two counted
  functions overlap (`Coverage.UnitsCoverExactly`).

## Model

| member | source | states |
|---|---|---|
| Boot.CommandedExact | src/hardware/sound_board.c:4117-4191 | from reset a run of key-ups, key-downs, full stops, voice interrupts, walker visits and chip writes keeps the invariant and the drum limit at every step exactly when no full stop of it comes while a drum sounds, whatever lies past the voice table; then no voice but voice 0 is ever keyed on and the allocator's cursor stays in the table |
| Boot.AllocatorLosesLedger | src/hardware/sound_board.c:3842-3860 | from reset, authoring voices 31 to 1 through the public setup author and then a refused key-down keep the ledger and leave the cursor at voice 1; with a busy-looking record behind the table the next key-down breaks it |
| Boot.StopLosesLedger | src/hardware/sound_board.c:4888-4993 | a drum keyed on by the first command after reset and then a full stop: the drum counter stays 1 and the silent voice keeps age 0xff |
| BootOps.Initialize | src/hardware/sound_board.c:438-468 | the stores of initialize leave the ring cursors and counts 0, the cursor at the table, and every voice and stream record as reset |
| BootOps.ResetLedgerIsGood | src/hardware/sound_board.c:438-457 | the RAM initialize leaves holds the reset ledger, which satisfies the invariant |
| BootOps.ResetWalls | src/hardware/sound_board.c:458-468 | after initialize every stream record is placed, which is what the walker's theorems start from |
| BootOps.ResetRingIsSound | src/hardware/sound_board.c:438-442 | after initialize the ring is sound and empty |
| Boot.LoopingDrumMiscounts | src/hardware/sound_board.c:3599-3661 | keying a drum on through the looping arm is a legal state from which the full stop leaves the counter non-zero |
| VoiceRuns.RunKeeps | src/hardware/sound_board.c:1295-1413 | over every run of voice expiry, teardown, release, setup, allocation, Loop-B, calls of the setup author, full stops, walker hand-backs and chip writes in which each of these finds what it assumes the ledger invariant and the five-drum limit persist |
| VoiceRuns.RunExact | src/hardware/sound_board.c:4102-4191 | the runs that keep the invariant and the drum limit at every step are exactly those in which an allocator scan that runs out of records finds the board full, the setup author is called for idle voices only and for drums below five, and a full stop finds no drum |
| VoiceRuns.ApplyExact | src/hardware/sound_board.c:4102-4191 | each path keeps the invariant and the drum limit: a key-down exactly when an allocator scan that runs out of records finds the board full, a call of the setup author exactly for an idle voice with fewer than five drums if it asks for one, a full stop exactly when no drum sounds, the others always |
| VoiceRuns.AuthorExact | src/hardware/sound_board.c:3842-3860 | authoring any voice keeps the invariant exactly when the voice is idle, since a sounding one would stand in the queues twice |
| VoiceRuns.RanksAreBijections | src/hardware/sound_board.c:3192-3426 | the age bytes of normals and the rank bytes of drums are bijections onto 0..counter-1, and a lower one was keyed on earlier |
| VoiceRuns.StealsTheOldest | src/hardware/sound_board.c:4018-4100 | with all voices busy, or five drums, the voice stolen was keyed on before every other of its class |
| VoiceTheory.DropNormalKeeps | src/hardware/sound_board.c:1346-1404 | removing a normal voice deletes exactly its entry from the normal queue and keeps the rest in order |
| VoiceTheory.DropDrumKeeps | src/hardware/sound_board.c:2640-2672 | removing a drum deletes exactly its entry from the drum queue and keeps the rest in order |
| VoiceTheory.MaintainKeeps | src/hardware/sound_board.c:1346-1404 | the voice interrupt's expiry sweep over all voices keeps the invariant |
| VoiceTheory.Sub11d0Keeps | src/hardware/sound_board.c:2582-2674 | the 0x11d0 teardown of a live voice keeps the invariant, whether it defers or removes |
| VoiceTheory.ReleaseKeeps | src/hardware/sound_board.c:2811-2858 | the release scan over all voices keeps the invariant |
| VoiceTheory.SetupScanKeeps | src/hardware/sound_board.c:3971-4016 | the setup scan keeps the invariant and the drum count |
| VoiceTheory.AuthorKeeps | src/hardware/sound_board.c:3192-3426 | authoring a voice appends it to the queue of its class and keeps the invariant |
| VoiceTheory.StealNormalIsDrop | src/hardware/sound_board.c:4213-4254 | with every voice busy the reaper's blind decrement is an ordinary removal of the queue head |
| VoiceTheory.StealDrumIsDrop | src/hardware/sound_board.c:4050-4094 | Loop-B's blind decrement is an ordinary removal of the drum queue's head |
| VoiceRuns.ReaperFindsHead | src/hardware/sound_board.c:4213-4254 | the reaper's scan cannot run out: it stops at the head of the normal queue, so the silent-drop exit is unreachable |
| VoiceRuns.LoopBFindsHead | src/hardware/sound_board.c:4018-4100 | at five drums Loop-B's scan cannot miss: it stops at the head of the drum queue |
| VoiceRuns.LoopBKeeps | src/hardware/sound_board.c:4018-4100 | Loop-B keeps the invariant and five drums exactly when it steals or the allocator it enters finds no idle voice missed |
| VoiceRuns.AllocateKeeps | src/hardware/sound_board.c:4117-4191 | below five drums allocation keeps the invariant and the drum limit exactly when an exhausted scan means a full board |
| VoiceRuns.AllocateExact | src/hardware/sound_board.c:4117-4191 | the allocator keeps the invariant exactly when an exhausted scan from its stored cursor means that every voice is live |
| VoiceRuns.ExhaustedExact | src/hardware/sound_board.c:4127-4191 | the scan is exhausted exactly when the voices from the cursor on are live, the records it reads past the table look busy and all lie inside RAM |
| VoiceRuns.ExhaustedAtStart | src/hardware/sound_board.c:4127-4191 | with the cursor at the table's start or end the scan is exhausted exactly when every voice is live |
| VoiceRuns.ReapExact | src/hardware/sound_board.c:4213-4267 | the reaper keeps the invariant exactly when all 32 voices are live |
| FullStop.FullStopClears | src/hardware/sound_board.c:4888-4993 | the full stop silences every voice and leaves normal ages 0, and leaves the counter 0 exactly when every live drum has flag bit 4 |
| FullStop.FullStopExact | src/hardware/sound_board.c:4888-4993 | the full stop keeps the ledger invariant exactly when no drum sounds; the drum counter and the age of every drum it silences stay as they were |
| FullStop.BelowIsRank | src/hardware/sound_board.c:4888-4993 | the number of normals below an age is that age, the fact the stop's loop invariant starts from |
| VoiceOps.MaintainVoices | src/hardware/sound_board.c:1295-1413 | the in-place sweep over sound RAM and chip registers computes the expiry function, timer pokes included, and writes nothing else |
| VoiceOps.VoiceSub11d0 | src/hardware/sound_board.c:2582-2674 | the in-place teardown computes its ledger function, chip stores included, and writes nothing else |
| VoiceOps.ReleaseScan | src/hardware/sound_board.c:2811-2858 | the in-place release scan computes its ledger function, chip stores included, and writes nothing else |
| VoiceOps.SetupScan | src/hardware/sound_board.c:3971-4016 | the in-place setup scan computes its ledger function, chip stores included, and writes nothing else |
| VoiceOps.SetupAuthor | src/hardware/sound_board.c:3390-3426 | the in-place author writes the record, counter, tail and slot registers the ledger function says |
| VoiceOps.Reaper | src/hardware/sound_board.c:4213-4267 | the in-place reaper computes its ledger function, including its silent-drop exit and chip stores |
| VoiceOps.Allocator | src/hardware/sound_board.c:4117-4191 | the in-place allocator, with its cursor's wrap and write-back and the records past the table as it reads them, computes its ledger function and moves nothing else but the cursor |
| VoiceOps.RunLoopB | src/hardware/sound_board.c:4018-4100 | the in-place Loop-B computes its ledger function and stores the looked-up byte and the cursor, nothing else |
| VoiceOps.FullStopVoices | src/hardware/sound_board.c:4908-4967 | the voices' part of the in-place full stop, table order and nested sweeps, computes its ledger function |
| VoiceOps.ApplyFullStop | src/hardware/sound_board.c:4888-4993 | the whole full stop computes its ledger function and clears exactly the sixteen channels' tables |
| LoopLaw.LawExact | src/hardware/sound_board.c:582-723 | in the arithmetic of the two arms' cursors the source pointer is the ideal looped position after every number of pages exactly when the first pass exceeds 512 and the loop is at least 512; which of those pages the copy accepts is `WalkerRuns.PagesCopied` |
| LoopLaw.SourcesEvenExact | src/hardware/sound_board.c:496-529 | on such a sample every page starts at an even address exactly when the sample's start and loop length are even and the loop starts with the parity of the first pass's length |
| LoopLaw.ShortLoopFails | src/hardware/sound_board.c:582-723 | a loop of 100 bytes behind two pages puts the third page 400 bytes off the ideal sample |
| WalkerTheory.TargetInWindow | src/hardware/sound_board.c:459-466 | an unarmed record's copy target is base plus 512 times the page counter and a whole page fits in its window |
| WalkerTheory.WalkConfined | src/hardware/sound_board.c:1022-1089 | a completed service writes only its record, its window and two bytes of its voice, moves the record by the transition function and names slot (i + 1) mod 32 |
| WalkerRuns.RunConfined | src/hardware/sound_board.c:496-529 | over every run of services a byte of RAM changes only if some visited slot owns it, and all records stay placed |
| WalkerRuns.WindowsApart | src/hardware/sound_board.c:459-466 | the 32 windows are disjoint, inside RAM and above every table and record |
| WalkerRuns.EndOffsetExact | src/hardware/sound_board.c:831-929 | the final page stores exactly 512 times the page counter plus what remained, at most 0x2000 |
| WalkerRuns.ArmedNeverCopies | src/hardware/sound_board.c:741-830 | over every run an armed record copies no page and keeps its end offset until the hand-back |
| WalkerRuns.HandBackPublishes | src/hardware/sound_board.c:741-929 | the hand-back stores the end offset in the chip's slot and clears the record's flags |
| WalkerRuns.KeyOnSeedsLaw | src/hardware/sound_board.c:3643-3661 | the key-on seed puts a looping record on the ideal position after one page, and leaves it placed exactly when the voice's sample long is the record's window |
| WalkerRuns.LoopRun | src/hardware/sound_board.c:582-723 | over every run of services a looping record stays on the ideal position, advanced by the pages it copied |
| WalkerRuns.PagesCopied | src/hardware/sound_board.c:496-529 | for a looping record whose sample lies in ROM the copy accepts every page of the ideal run exactly under that parity condition |
| WalkerLedger.WalkVoice | src/hardware/sound_board.c:741-929 | a service changes its voice's flag and rate bytes exactly when it hands the stream back, and then by the countdown and the arming bit |
| WalkerLedger.ServeTouches | src/hardware/sound_board.c:1022-1089 | below the windows a visit changes a byte only in its own record, or on a hand-back the two bytes of its own voice |
| WalkerLedger.ServeIsLedgerRun | src/hardware/sound_board.c:1022-1089 | a walker visit does to the ledger in RAM what the ledger's own arming or release step does, and nothing otherwise |
| WalkerLedger.WalkKeepsLedger | src/hardware/sound_board.c:1022-1089 | over every run of walker visits the ledger invariant and the five-drum limit persist |
| WalkerOps.CopyEnginePage512 | src/hardware/sound_board.c:496-529 | the 512-byte copy loop writes exactly the page, or refuses and writes nothing |
| WalkerOps.StepFullPage | src/hardware/sound_board.c:582-641 | the full-page arm on RAM computes its transition and refuses exactly where it should |
| WalkerOps.StepShortLoopPage | src/hardware/sound_board.c:660-723 | the looping short-page arm on RAM computes its transition |
| WalkerOps.StepShortRelease | src/hardware/sound_board.c:741-820 | the release arm on RAM and chip registers computes its transition |
| WalkerOps.StepShortTerminal | src/hardware/sound_board.c:831-929 | the terminal arm on RAM and chip registers computes its transition |
| WalkerOps.StepEmptyDispatch | src/hardware/sound_board.c:971-1016 | the idle arm on RAM computes its transition |
| WalkerOps.StepWalkOne | src/hardware/sound_board.c:1022-1089 | one service dispatches to the right arm and reports the next record's address |
| Fifo.FifoLaw | src/hardware/sound_board.c:5393-5600 | over every interleaving of emissions, UART bytes, ticks, dispatches and other stores, up to a UART packet that meets a full count, the packets taken and still pending are those pending at the start and then filed, in order and unharmed |
| Ring.CursorLaw | src/hardware/sound_board.c:5573-5600 | in a sound ring the write cursor is the read cursor plus four times the count, modulo 0x1000 |
| Ring.PushAppends | src/hardware/sound_board.c:5573-5600 | filing below 255 appends one packet and overwrites no pending one |
| Ring.PopRemoves | src/hardware/sound_board.c:5393-5571 | a completed dispatch removes exactly the oldest packet |
| Ring.PushOverruns | src/hardware/sound_board.c:3887-3914 | filing at 255 wraps the count to 0 and breaks the ring |
| Fifo.UartExact | src/hardware/sound_board.c:3887-3969 | a completed UART packet is appended exactly when the count is below 255 |
| Fifo.TickAppends | src/hardware/sound_board.c:2339-2518 | an admitted tick appends exactly its beat or its worker's packets |
| Uart.AssemblerRefinesGrammar | src/hardware/sound_board.c:3916-3969 | a stream that starts with a status byte and holds no 0xff files exactly the messages of the running-status grammar |
| Uart.RealtimeTransparent | src/hardware/sound_board.c:3916-3969 | deleting all bytes 0xf0-0xfe changes neither packets nor staged state |
| RingOps.EmitCommand | src/hardware/sound_board.c:5573-5600 | whatever the cursors hold, the emitter files its packet in RAM with every index masked, or refuses at 255 and changes nothing |
| RingOps.FileUartByte | src/hardware/sound_board.c:3916-3969 | whatever the cursors hold, the UART entry point computes the assembler and filing functions on RAM, and a refused byte changes nothing |
| RingOps.MaintainStreams | src/hardware/sound_board.c:2339-2518 | the tick computes its function on RAM and pokes the chip's two registers, and a refused tick changes nothing |
| RingOps.DispatchNext | src/hardware/sound_board.c:5393-5571 | a dispatch reads the packet at the read cursor, the oldest one of a sound ring, and retires it only when its handler completes |
| CfgDiscovery.MarksAreReachable | src/analysis/cfg.c:317-413 | without overlapping instructions, discovery marks an address as an instruction exactly when direct control flow reaches it and it decodes |
| CfgDiscovery.MarksAreClosed | src/analysis/cfg.c:317-413 | without overlap, a marked instruction's direct successor in the image is marked as an instruction exactly when it decodes |
| CfgExact.MarksClosedAlways | src/analysis/cfg.c:317-413 | in any image, every direct successor of a marked instruction inside the image is marked |
| CfgExact.MarksExact | src/analysis/cfg.c:317-413 | the marks are exactly the reachable instructions if and only if no two reachable instructions overlap |
| CfgExact.OverlayLosesAnInstruction | src/analysis/cfg.c:317-413 | a two-word branch to its own second word: the reachable instruction there is never marked |
| Cfg.QueueBound | src/analysis/cfg.c:62-82 | a queue of distinct code addresses is never longer than the image has words, so discovery ends |
| CfgBlocks.InExactlyOneBlock | src/analysis/cfg.c:415-507 | every reachable instruction lies in one block of the function and in no other |
| CfgBlocks.SuccessorsAreBlocks | src/analysis/cfg.c:415-507 | a recorded successor starts a block of the function exactly when it is word aligned |
| CfgBlocks.SkewedSuccessor | src/analysis/cfg.c:415-507 | a branch to address 2 records 2 as a successor of the only block, at 0 |
| CfgBlocks.StepsAreRecorded | src/analysis/cfg.c:415-507 | every direct step from a block's instruction stays in the block, enters a recorded successor or leaves the decoded instructions |
| CfgBlocks.MemberNext | src/analysis/cfg.c:436-497 | a direct step to a marked instruction leads from each instruction of a block to the next in its order, and from the last to a recorded successor |
| CfgBlocks.FirstBlockExact | src/analysis/cfg.c:415-507 | the first block starts at the function's entry exactly when no reachable instruction lies below the entry |
| CfgOps.Recovery.DiscoverReachable | src/analysis/cfg.c:317-413 | the nested worklist loops over the mark and leader arrays end with the discovery function's marks, leaders and queue |
| CfgOps.Recovery.BuildBlocks | src/analysis/cfg.c:415-507 | the block loops over those arrays append exactly the function's blocks |
| CfgOps.RecoverFunction | src/analysis/cfg.c:509-550 | recovering a function from zeroed arrays gives exactly its blocks |
| Semantics.MergeCovers | src/analysis/semantics.c:74-86 | a merge is no more precise than either input and reports a change exactly when there is one |
| Worklist.PushesPerBlock | src/analysis/semantics.c:780-827 | whatever the queue's size, a block is pushed at most once and once more for every register that some instruction of the function writes |
| Worklist.AtMost33Pushes | src/analysis/semantics.c:780-827 | whatever the queue's size, no block is pushed more than 33 times: one first visit and one per register that can still lose its value |
| Worklist.RoomySuffices | src/analysis/semantics.c:780-827 | a queue with one slot a block and one more for every written register never suppresses a push |
| Worklist.AllocatedSuffices | src/analysis/semantics.c:752-827 | the allocated queue of eight slots a block and one never suppresses a push of a function that writes at most seven registers |
| Worklist.SufficientSlots | src/analysis/semantics.c:780-827 | a queue of 33 slots a block, more than is ever allocated, never suppresses a push |
| Worklist.SuppressedExactly | src/analysis/semantics.c:752-827 | a queue of any size suppresses a push exactly when the analysis needs more pushes than it has slots, and otherwise the analysis ends in the same state as with enough |
| FixPoint.DrainedIsPostFixpoint | src/analysis/semantics.c:780-827 | if the cap suppressed no push, the drained state covers the transfer of every initialised block along every edge |
| FixPoint.AllocatedIsPostFixpoint | src/analysis/semantics.c:752-827 | with the queue as allocated the drained state of a function that writes at most seven registers is a post-fixpoint |
| FixPoint.SufficientIsPostFixpoint | src/analysis/semantics.c:780-827 | with 33 slots a block, more than is ever allocated, the drained state is always a post-fixpoint, and so is that of any smaller queue, the allocated one included, that holds the pushes needed |
| Overflow.CapacityLosesAPush | src/analysis/semantics.c:752-822 | a two-block function, 29 loads and a loop of 29 moves, on which the allocated queue suppresses a push and the result is no post-fixpoint |
| Overflow.NeedsMorePushes | src/analysis/semantics.c:752-822 | with enough slots the analysis of that function makes more pushes than the 17 slots allocated |
| Facts.FactsExact | src/analysis/semantics.c:763-827 | at a post-fixpoint a recorded constant is the register modulo 2^32 and a recorded argument the register's entry value on every execution from the function's entry, exactly when the entry block was reached and claims at most that a register still holds its own entry value |
| Facts.FirstIsEntry | src/analysis/semantics.c:763-774 | a function whose first block is its entry meets that condition, because the seed lies there |
| Facts.AnalysisIsSound | src/analysis/semantics.c:727-869 | if the entry is the lowest block the analysis result is sound on every execution from it whenever its queue never overflowed and every folded shift and unseen register of its result meets the stated condition |
| Facts.AllocatedIsSound | src/analysis/semantics.c:752-869 | with the queue as allocated it is sound for every function that writes at most seven registers, whose entry is its lowest block and that has no shifts or multi-register writes |
| Facts.SufficientIsSound | src/analysis/semantics.c:727-869 | with 33 slots a block, more than is ever allocated, it is sound for every function whose entry is its lowest block and that has no shifts or multi-register writes |
| Facts.StepMeans | src/analysis/semantics.c:408-487 | the transfer of one instruction keeps the facts true across its execution, shifts and further written registers included where they meet their condition |
| Facts.QuietExact | src/analysis/semantics.c:408-487 | facts left on registers the analyser does not see written survive every value written there exactly when there are none |
| Facts.PairLoadUnsound | src/analysis/semantics.c:408-487 | a ldl leaves a constant on its second register that an execution contradicts |
| ImageFacts.ImageFactsExact | src/analysis/semantics.c:763-827 | block recovery and propagation together: at every instruction of every execution of the image from the entry the instruction lies in one place of one block and the facts carried there hold, exactly when the entry block was reached and claims nothing that is not so on entry |
| ImageFacts.ImageIsSound | src/analysis/cfg.c:317-507 | they hold whenever no reachable instruction lies below the entry, the queue never overflowed and the instructions meet their conditions |
| ImageFacts.PlainImageIsSound | src/analysis/semantics.c:752-869 | with the queue as allocated, for every image whose reachable instructions write at most seven registers, none by a shift or to several at once, and do not lie below the entry |
| ImageFacts.EntryAboveFails | src/analysis/semantics.c:763-774 | a return at 0 and an entry at 4 that loads 7 and branches to 0: the analysis ends undisturbed and holds g0 to be its entry value in the block at 0, on an execution that brings 7 there |
| Folding.BitwiseWords | src/analysis/semantics.c:342-392 | a 64-bit and, or or xor agrees with the 32-bit one on the low word, for negative operands too |
| Folding.FoldExact | src/analysis/semantics.c:342-392 | for every folded operation and all constants the low word of the folded value is the machine's 32-bit result exactly under the stated condition on the operands |
| Folding.WordShifts | src/analysis/semantics.c:381-386 | on word constants and counts below 32 shlo and shro fold rightly, shri exactly when the sign bit is clear or nothing is shifted |
| Folding.OrdinalFoldedWrongly | src/i960/executor.c:774-781 | shro of -1 by 1 folds to all ones, the machine gives 0x7fffffff |
| Folding.IntegerFoldedWrongly | src/i960/executor.c:774-781 | shri of 0x80000000 by 1 folds to 0x40000000, the machine gives 0xc0000000 |
| Folding.CountFoldedWrongly | src/i960/executor.c:774-781 | a shift of 1 by 32 folds to 1, the machine gives 0 |
| SemanticsOps.MergeState | src/analysis/semantics.c:74-86 | the register loop computes the merge and its change flag |
| SemanticsOps.Analysis.RelaxSuccessor | src/analysis/semantics.c:800-827 | one successor edge over the state arrays and queue computes the relaxation function, cap included |
| SemanticsOps.Analysis.Run | src/analysis/semantics.c:780-827 | the worklist loop over the arrays computes the drained state |
| TgpCommands.RoundTrip | src/hardware/tgp.c:502-539 | printing a list of packets and parsing it returns the list exactly when no packet of unmeasured length has a header-shaped payload word |
| TgpCommands.PrintOfParse | src/hardware/tgp.c:502-539 | printing the commands parsed from any stream, followed by the unparsed rest, is the stream |
| TgpCommands.HeaderReads | src/hardware/tgp.c:346-355 | the three copies of an opcode in a header decode to it and are recognised |
| TgpCommands.NextCommand | src/hardware/tgp.c:502-539 | the scanning loop returns the command at a position with its payload slice, or 0 when it is absent or truncated |
| TgpCommands.ParseAll | src/hardware/tgp.c:502-539 | iterating next_command gives the parse and stops where parsing fails |
| TgpStrips.DirectDraws | src/hardware/tgp.c:841-904 | a framed direct command draws exactly its strip, never meets the decoder's bounds errors and is read to its framed length |
| TgpStrips.ObjectDraws | src/hardware/tgp.c:906-1029 | an object draws the strip its memory spells, cut at the link limit |
| TgpStrips.DecodersAgree | src/hardware/tgp.c:841-1029 | the two decoders draw the same polygons for the same strip exactly when the link limit does not cut it |
| TgpStrips.DecodersAgreeUnderRefusal | src/hardware/tgp.c:841-1029 | under the limit they agree for every renderer, down to the polygon it refuses |
| TgpStrips.WrittenDirect | src/hardware/tgp.c:560-580 | every strip has an inline encoding that frames to its whole length and decodes to the strip |
| TgpStrips.WrittenObject | src/hardware/tgp.c:906-1029 | every strip has an encoding in polygon memory that spells it, in either mode |
| TgpGeometry.ExecuteIsScanned | src/hardware/tgp.c:1053-1161 | whenever execution succeeds the scanner succeeds with the same words, commands, object, direct and data totals, longest command and end flag |
| TgpGeometry.TameExecutes | src/hardware/tgp.c:1053-1161 | a scanned stream without objects, under a renderer that refuses nothing, executes exactly when its data commands stay inside polygon RAM |
| TgpGeometry.UploadThenDraw | src/hardware/tgp.c:1053-1161 | loading a strip with a data command and drawing it as an object has the effect of drawing it inline, whatever polygon RAM held |
| TgpOps.CountWords | src/hardware/tgp.c:541-672 | the framing switch and loop compute the framing function |
| TgpOps.ScanStream | src/hardware/tgp.c:674-718 | the scanning loop computes the scan |
| TgpOps.Tgp.ExecuteDirect | src/hardware/tgp.c:841-904 | the inline strip loop has the outcome and polygons of its function, also those drawn before a failure |
| TgpOps.Tgp.ExecuteObject | src/hardware/tgp.c:906-1029 | the polygon-memory strip loop has the outcome and polygons of its function, also those drawn before a failure |
| TgpOps.Tgp.StoreData | src/hardware/tgp.c:1113-1130 | a data command splices its words into the addressed bank, or fails and changes nothing |
| TgpOps.Tgp.ExecuteStream | src/hardware/tgp.c:1053-1161 | the executing loop computes the execution function on the banks, mode, matrix, focus and drawn polygons, on success and on failure |
| Sha1Ops.Context.Update | src/core/hash.c:114-143 | an update extends the hashed stream by its data, the buffer holding the unfolded tail of fewer than 64 bytes |
| Sha1Ops.Context.Final | src/core/hash.c:145-177 | the digest is that of the block fold over the padded stream |
| Sha1Ops.Context.Transform | src/core/hash.c:34-101 | the schedule and 80-step loops compute the block function |
| Sha1Ops.HashChunks | src/core/hash.c:251-279 | however a message is cut into chunks the digest is that of the whole message |
| Sha1.PadFits | src/core/hash.c:145-177 | the padded message is the least whole number of blocks that holds the message, the marker and the length field |
| Sha1.PadInjective | src/core/hash.c:145-177 | different messages are padded differently |
| Sha1.WordBytesReads | src/core/hash.c:18-32 | writing a word big-endian and reading it back is the identity |
| Crc.RegisterSplit | src/core/hash.c:253-268 | the register after a message is the register after any prefix carried through the rest |
| Crc.AccumulateChunks | src/core/hash.c:251-279 | the chunked loop gives the one-shot value of the whole file |
| Crc.Accumulate | src/core/hash.c:179-196 | the masked bit loop computes the register |
| Crc.RegisterLinear | src/core/hash.c:179-196 | the register update is linear over xor, jointly in register and message |
| Crc.RegisterByTable | src/core/hash.c:179-196 | the bit loop computes the table-driven register of RFC 1952 section 8 |
| Crc.ResidueExact | src/core/hash.c:179-196 | four bytes after a message leave the register at 0xdebb20e3 exactly when they are its checksum in little-endian order |
| Crc.BurstDetected | src/core/hash.c:179-196 | messages that differ only within four consecutive bytes have equal checksums only if they are equal |
| Scsp.RunInRange | src/hardware/scsp.c:88-134 | over every run of frames and of writes that synchronise the slot its envelope stays in 0..32767 |
| Scsp.SilentWithin512 | src/hardware/scsp.c:57-134 | a slot held keyed off, through frames and writes, is inactive after 512 frames whatever else its registers do |
| Scsp.ReleaseExact | src/hardware/scsp.c:124-131 | with steady registers a slot is active after n frames exactly while n release steps have not used up its envelope |
| Scsp.Needs512 | src/hardware/scsp.c:124-131 | 512 is the least such bound |
| Scsp.StepBounds | src/hardware/scsp.c:41-55 | the increment lies in 16..1048064, so the substitute for a zero increment is never used |
| ScspMix.InterpolationBetween | src/hardware/scsp.c:183-203 | the interpolated sample lies between its neighbours and the 16-bit cast loses nothing |
| ScspMix.ContributionWithin | src/hardware/scsp.c:542-577 | a slot's part of either sum lies between silence and its sample |
| ScspMix.SumBound | src/hardware/scsp.c:542-577 | the sums over n slots stay within n times full scale |
| ScspMix.OneVoiceUnclipped | src/hardware/scsp.c:252-261 | a frame in which one slot sounds is never clipped |
| ScspOps.StepsAreRuns | src/hardware/scsp.c:527-583 | what a render call does to a slot is a run of that slot |
| ScspOps.ChipIsRuns | src/hardware/scsp.c:421-444 | over every history of byte writes and render calls each slot goes through one of its runs, so the run theorems hold of the chip |
| ScspOps.Chip.WriteByte | src/hardware/scsp.c:421-444 | a byte write stores the register, the two status registers masked, and synchronises the slot whose control or pitch it touches |
| ScspOps.Chip.SynchronizeSlot | src/hardware/scsp.c:57-86 | the in-place key handling computes its function on one slot and leaves the others |
| ScspOps.Chip.AdvanceEnvelope | src/hardware/scsp.c:88-134 | the in-place envelope step computes its function on one slot and leaves the others |
| ScspOps.Chip.AdvanceSlot | src/hardware/scsp.c:205-237 | the in-place position step computes its function on one slot and leaves the others |
| ScspOps.Chip.MixSlot | src/hardware/scsp.c:542-577 | a slot's turn, in 32-bit arithmetic that never overflows, adds its contribution and advances it one frame |
| ScspOps.Chip.Render | src/hardware/scsp.c:527-583 | every frame is the clamped sum of the contributions at that frame, with no 32-bit intermediate overflowing |
| Coverage.RangeBytesIsMeasure | tools/decomp_dev_report.py:62-73 | range_bytes is the number of addresses in the union of the ranges, and merged ranges keep the union and stand apart |
| Coverage.RecoveredBelowTracked | tools/decomp_dev_report.py:143-150 | recovered coverage never exceeds tracked coverage, so the second half of the error test never fires |
| Coverage.TotalExact | tools/decomp_dev_report.py:62-73 | range sizes add up to at least the measure of the union, exactly when they are disjoint |
| Coverage.UnitsCoverExactly | tools/decomp_dev_report.py:152-163 | a report's unit sizes reach the program total exactly when no two counted functions overlap |
| Coverage.MergeRanges | tools/decomp_dev_report.py:62-69 | the loop over the sorted ranges computes the merge |
| Coverage.BuildReport | tools/decomp_dev_report.py:143-163 | the report fails exactly when tracked addresses outnumber the program's bytes, and otherwise its matched figure is the number of recovered addresses |

## Left out

- Fifo.FifoLaw: a run stops at a UART packet that meets a full count, because the byte count wraps there and the law fails exactly then (`Fifo.UartExact`).
- VoiceRuns.AllocateKeeps: a drum request reaches the allocator only below five drums, as Loop-B's count test ensures.
- CfgBlocks.InExactlyOneBlock: for functions whose reachable instructions do not overlap; with overlap discovery itself is not exact (`CfgExact.MarksExact`).
- Facts.AnalysisIsSound: for functions whose entry is the lowest block, runs whose queue lost no push and results that meet the instructions' conditions; the code checks none of them (`CfgBlocks.FirstBlockExact`, `Worklist.SuppressedExactly`, `Folding.FoldExact` and `Facts.QuietExact` say exactly when they hold).
- ImageFacts.ImageIsSound: executions follow direct control flow, calls falling through with g0 to g14 changed, and stay on instructions that decode.
- VoiceRuns.RunKeeps: for runs in which an exhausted allocator scan finds the board full, the setup author is called for idle voices and a full stop finds no drum; the code checks none of it, and no other run keeps the ledger at every step (`VoiceRuns.RunExact`).
- RingOps.DispatchNext: the handlers' own stores are framed away from the ring and their verdict is a parameter.
- VoiceOps.SetupAuthor: the slot registers the volume, picker, sample tail and engine arms write are an input list, and the engine arms' stores into the stream record beyond its flag byte, their page copy and the staging bytes are left out.
- VoiceOps.Reaper: what is left out of the author it enters.
- VoiceOps.Allocator: what is left out of the author it enters, and the status it returns; a refusal shows as no authoring.
- VoiceOps.RunLoopB: what is left out of the author it enters; the byte looked up in the audio ROM is the request's tag.
- BootOps.Initialize: the command descriptors at 0x4000, the sample table from 0x5000 on and the chip's set-up; slot words and sample longs are inputs.
- Boot.CommandedExact: `clear_c0_voices` (sound_board.c:2520-2572) and B0/50 7E and 7D are commands too; they reproduce the original driver's counter changes without rebalancing, so they do not keep the rank invariant and are not operations of the ledger runs. Nor are writes through the board's memory bus.
- The recording pass after the worklist (semantics.c:829-853): for a block the worklist never reached it starts from the first block's facts.
- Malformed slot words: slot words are those `initialize` loads. A board operation's chip store sets the register byte; what the write does to the slot is the chip model's (`ScspOps.ChipIsRuns`).
- The session pump's ring access: on a refusal it moves the read cursor without lowering the count; the FIFO law is for the board's own entry points, and dispatch handlers are framed away from the ring, their verdict a parameter.
- The song bodies that a stream tick expands are looked up in maps from stream pointer to packets instead of the audio ROM.
- The Akira probes, ROM fingerprints, the 68000 interpreter bridge and the sample upload: constant matching or code that is not part of this model.
- Control-flow recovery: cross references, the image map, counters, the queue of functions, the indirect-flow flags and the terminal flag of a block; the decoder is any total function from words to instructions. Block members are recorded in the model so that containment can be stated.
- Semantics: floating-point registers, stack-relative arithmetic and edges added for indirect targets after the worklist are outside the soundness statement; what the further registers of ldl, ldt, ldq, movl, movt, movq, emul and ediv receive is arbitrary in it.
- Geometry: the framing loop of a direct command reads one word before comparing with the word count (tgp.c:565); the model reads within bounds and reports out of bounds there. Coordinates are opaque words, and a polygon is recorded, or refused by a parameter, instead of being rasterised.
- The object decoder's reads are described by a fetch function; the FIFOs, fixed-function units and program upload of the geometry processor are not modelled.
- Command names and reply counts, hexadecimal digests, file handling and reading errors.
- SHA-1 beyond 2^61 bytes: the length field wraps as in the code, which the standard does not define.
- Sound chip: MIDI, timers, word writes and reads of registers, and sample memory writes; the six parallel slot arrays are one array of records, and registers do not change during a render call.
- Coverage: categories, names, percentages and the table's text parsing.
- SDL host, CSV and DOT writers, ROM manifest, snapshots, command line, bus map and timers, audio ring and key bindings, ROM interleaving and task-table scan: I/O, constants or easier members.
