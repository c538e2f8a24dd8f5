# A verified model of the RISC-V machine simulator

This project models the parts of the simulator in which a mistake is easy to make and
hard to see, and proves what each of them is for. It models a five-stage pipeline and
a reference core over the same instruction semantics, the Sv32 page walker, the trap
state, the cache banks, the burst fabric of the memory map, the arbiter and the DMA
engine. Each component is a value with functions for its operations. Where the simulator updates
fields in place, a class with those fields has methods that are proved to compute
exactly those functions, and the theorems are about the functions.

**The CPU side.** `Isa` has the instructions and the decoder on 32-bit vectors, `CsrState`
the control and status registers and trap entry and return, `CpuBus` a bus whose Busy
answers are an arbitrary function of the call number. `Mmu` is the resumable walker with
its TLB. `Sv32` is its specification, the walk of sections 4.3.1 and 4.3.2 of the RISC-V
Privileged Architecture as one expression over memory. `WalkerProof`, `WalkerRuns` and
`Settle` relate the two. `Exec` has the sequential meaning of an instruction and the same
instruction cut into EX, MEM and WB, and `Reference` the reference core. `Pipeline` is
the pipelined core. `PipelineProof` proves that one of its cycles is at most one
instruction, then at most one trap, of the reference core. `PipelineRuns` extends this to
runs.

The pipeline does not refine the reference core everywhere. A wait for memory keeps
operands that were read before an older instruction retired, and traps raised in EX, ID
and IF are applied before older instructions commit. The model keeps this behaviour.
`PipelineLimits` proves for each of the four cases the condition on the latches under
which the cycle still agrees, in both directions, and `PipelineExamples` and
`TrapExamples` run concrete programs from reset into each of them.

**The memory side.** Words are four bytes, addresses natural numbers. `BusFabric` is the
memory map with its overlapping accesses and bursts. `FabricProof` proves that every beat
executes once, in order, on the right device, and `FabricReplay` that these beats and the
stores of single accesses are all that happens to memory. `Cache` is the cache bank:
geometry, replacement, write and allocation policy are all parameters. `CachePort` says
what a bank relies on below it. `CacheProof` and `CacheRuns` prove that a bank shows plain
memory, `CacheLru` which lines it holds and `CacheCost` how long a miss takes. A bank does
not always show plain memory: when the bus below has no room for the write-back of a dirty
victim, or the victim's device cannot be written, its words are dropped. `CacheLimits`
says exactly when, from facts known before the call, and `CacheExamples` runs a new bank
into both. `OpenAccess` has the single accesses that the memory map keeps open while their
caller is told to wait, `SplitL1` the split cache with its instruction-side invalidation,
and `Maintenance` the write-back of an address range.
`Dma` is the DMA engine over a bus that serves requests in any order. `Arbiter` is the
arbiter in front of the fabric, and `Arbiter.OrderIsExact` says exactly which refused
submissions break its order of responses.

## Model

| member | source | states |
|---|---|---|
| `CsrState.FirstTakeable` | crates/cpu/src/state/csr_file.rs:256-275 | the interrupt selected is one that can be taken, and none is selected only if none can |
| `CsrState.CsrFile.Sync` | crates/cpu/src/state/csr_file.rs:216-245 | sampling the interrupt lines in place gives the register file `SyncInterrupts` gives |
| `CsrState.CsrFile.Pending` | crates/cpu/src/state/csr_file.rs:256-275 | the loop over the fixed priority list finds the first interrupt that can be taken |
| `CsrState.CsrFile.Enter` | crates/cpu/src/state/csr_file.rs:433-452 | trap entry in place, delegation included, leaves the register file, privilege and handler address of `EnterTrap` |
| `CsrState.CsrFile.ReturnFromMachine` | crates/cpu/src/state/csr_file.rs:454-467 | MRET in place leaves what `ReturnFromMachineTrap` says |
| `CsrState.CsrFile.ReturnFromSupervisor` | crates/cpu/src/state/csr_file.rs:469-487 | SRET in place leaves what `ReturnFromSupervisorTrap` says |
| `TrapNesting.EntryNeverLowersPrivilege` | crates/cpu/src/state/csr_file.rs:317-326 | no trap, delegated or not, enters a handler of lower privilege; user handlers do not exist |
| `TrapNesting.MachineStatusRoundTrip` | crates/cpu/src/state/csr_file.rs:375-399 | after entry to M and MRET the previous privilege and every status bit the interrupted code owns are back |
| `TrapNesting.SupervisorStatusRoundTrip` | crates/cpu/src/state/csr_file.rs:401-431 | the same for entry to S and SRET |
| `TrapNesting.BodyKeepsHandlerState` | crates/cpu/src/state/csr_file.rs:375-487 | whatever traps a handler body takes, saving and restoring epc and status around them, the handler can still return |
| `TrapNesting.NestedTrapRestores` | crates/cpu/src/state/csr_file.rs:375-487 | for every tree of nested traps the matching returns restore pc, privilege and both interrupt enables of the code interrupted |
| `TrapNesting.AtMostTwoBackToBack` | crates/cpu/src/state/csr_file.rs:256-373 | from any state and for any changes of the lines at most two interrupts are taken with no instruction between |
| `Mmu.StepShape` | crates/cpu/src/mmu.rs:189-300 | a draining step never yields a translation, and a step that goes on does so one level down with the same request: the unreachable cases never occur |
| `Mmu.TranslateEndsWalk` | crates/cpu/src/mmu.rs:131-187 | an answer leaves no walk behind, and Stall is given exactly when a walk is left |
| `Mmu.PageWalker.Advance` | crates/cpu/src/mmu.rs:189-300 | one step of the walker in place is `Step` |
| `Mmu.PageWalker.FinishLeaf` | crates/cpu/src/mmu.rs:302-336 | the A/D update in place, with its store, TLB entry and drain cases, is `FinishLeafUpdate` |
| `Mmu.PageWalker.Lookup` | crates/cpu/src/mmu.rs:338-356 | the scan of the TLB finds what `LookupFrom` finds |
| `Mmu.PageWalker.Insert` | crates/cpu/src/mmu.rs:358-375 | a new entry fills the slot in turn and moves the turn on |
| `Mmu.PageWalker.TranslateRequest` | crates/cpu/src/mmu.rs:131-187 | the loop that drains, resumes and starts walks terminates and is `Translate` |
| `Mmu.PageWalker.Flush` | crates/cpu/src/mmu.rs:118-129 | a fence drops exactly the matching entries |
| `Sv32.AdWritesPreserveOutcomes` | crates/cpu/src/mmu.rs:302-336 | setting A and D bits anywhere changes no translation of any request |
| `Sv32.LookupSound` | crates/cpu/src/mmu.rs:338-356 | a coherent TLB answers, when it answers, what the page tables say |
| `Sv32.HitSound` | crates/cpu/src/mmu.rs:338-356 | a matching coherent entry gives the architectural page fault or address |
| `Sv32.TlbCoherentGrown` | crates/cpu/src/mmu.rs:302-336 | the walker's own A/D writes keep the TLB coherent |
| `Sv32.FenceRestoresCoherence` | crates/cpu/src/mmu.rs:118-129 | after software rewrites only translations the fence matches (by address, by ASID sparing global entries, or all), the flushed TLB is coherent with the new tables and entries not matched survive |
| `WalkerProof.StepIsSound` | crates/cpu/src/mmu.rs:189-300 | one step keeps the walk a prefix of the architectural walk, and what it ends with is that walk's outcome |
| `WalkerProof.TranslateIsSv32` | crates/cpu/src/mmu.rs:131-187 | from every walker state and for every Busy pattern an answer other than Stall, from the TLB, a resumed or a fresh walk, is the outcome of the two-level walk; memory changes only in A and D bits |
| `WalkerRuns.EveryRunAnswersRight` | crates/cpu/src/mmu.rs:118-187 | the same at every call of every run of requests, stores outside the tables, and table changes followed by their fence |
| `WalkerRuns.StoresElsewhereKeepSound` | crates/cpu/src/mmu.rs:131-187 | stores outside the page tables between two calls disturb neither the walk nor the TLB |
| `WalkerRuns.ResetIsSound` | crates/cpu/src/mmu.rs:107-116 | a reset walker over any tables with shared global mappings is a legal start of such a run |
| `WalkerRuns.TranslateIgnoresStalls` | crates/cpu/src/mmu.rs:131-187 | retried after a Stall, a translation ends with the walker, memory and answer a bus without waits gives at once |
| `Settle.TranslateSettles` | crates/cpu/src/mmu.rs:131-187 | a finished translation asked again gives the same address at once and touches nothing |
| `Exec.OperandsAgree` | crates/cpu/src/exec/mod.rs:29-317 | an absent source reads as x0 in both semantics |
| `Exec.StagedInteger` | crates/cpu/src/pipeline/ex_stage.rs:61-262 | EX, MEM and WB of an integer or control instruction have the sequential effect |
| `Exec.StagedMemory` | crates/cpu/src/pipeline/mem_stage.rs:21-96 | the same for loads and stores, with translation, stalls, faults and their traps |
| `Exec.StagedCsr` | crates/cpu/src/pipeline/ex_stage.rs:61-262 | the same for CSR instructions, illegal accesses included |
| `Exec.StagedSystem` | crates/cpu/src/pipeline/wb_stage.rs:9-57 | the same for environment calls, returns, WFI and SFENCE.VMA |
| `Exec.StagedEqualsSequential` | crates/cpu/src/exec/mod.rs:29-317 | for every decoded instruction and every hart, walker and bus the staged semantics gives the state, retirement and trap of the sequential one |
| `Reference.ResetCoreOk` | crates/cpu/src/core/reference.rs:22-63 | a reset core satisfies the bookkeeping the next rows start from |
| `Reference.FencesSeeNoWalk` | crates/cpu/src/core/reference.rs:72-183 | SFENCE.VMA, like every instruction but loads and stores, never runs with a page walk in progress |
| `Reference.ExecutionIsQuiet` | crates/cpu/src/exec/mod.rs:29-317 | an instruction told to wait has changed no register, and repeated it ends as on a bus without waits |
| `Reference.StepIgnoresStalls` | crates/cpu/src/core/reference.rs:72-183 | a cycle either is a stall, after which the cycle without waits is still ahead unchanged, or is that cycle |
| `Reference.RunsIgnoreStalls` | crates/cpu/src/core/reference.rs:72-183 | for every pattern of Busy answers the cycles that are not stalls show exactly the states, memories, retirements and traps of the machine without waits, each store done once |
| `Reference.ReferenceCore.StepCycle` | crates/cpu/src/core/reference.rs:72-183 | the core's cycle in place, with its held instruction, is `NextCycle` |
| `Pipeline.PipelineCore.StepCycle` | crates/cpu/src/core/pipeline.rs:160-555 | a cycle of the pipeline in place is `NextPipe`, with the same commit and trap |
| `Pipeline.PipelineCore.Execute` | crates/cpu/src/core/pipeline.rs:301-388 | EX in place: forwarding, branch training, redirect, translation barrier, trap |
| `Pipeline.PipelineCore.DecodeNext` | crates/cpu/src/core/pipeline.rs:390-450 | ID in place: load-use and CSR stalls, operand latching, illegal instructions |
| `Pipeline.PipelineCore.FetchNext` | crates/cpu/src/core/pipeline.rs:452-490 | IF in place, with the squash of a flushed cycle |
| `PipelineProof.ForwardingCorrect` | crates/cpu/src/core/pipeline.rs:91-121 | forwarding gives an operand the value it has once everything ahead has been written back, provided no load is directly ahead |
| `PipelineProof.ExecuteTracks` | crates/cpu/src/core/pipeline.rs:301-388 | EX computes what the instruction computes on the registers it will be committed with |
| `PipelineProof.MemoryTracks` | crates/cpu/src/core/pipeline.rs:264-299 | MEM stalls without effect, faults exactly as the reference core does, or yields its result |
| `PipelineProof.RetireTracks` | crates/cpu/src/pipeline/wb_stage.rs:9-57 | WB commits the instruction the reference core takes next, with the same state and commit event |
| `PipelineProof.InterruptIsTaken` | crates/cpu/src/core/reference.rs:72-183 | with an interrupt pending the reference core takes it at that boundary |
| `PipelineProof.PipelineTracksReference` | crates/cpu/src/core/pipeline.rs:160-555 | one cycle is at most one instruction and then at most one trap of the reference core, with the same commit, trap, registers, CSRs, privilege, pc and memory; interrupts, data faults and waits for memory included |
| `PipelineRuns.ResetTracks` | crates/cpu/src/core/pipeline.rs:46-65 | a reset pipeline stands for a reset reference core |
| `PipelineRuns.EveryRunRefines` | crates/cpu/src/core/pipeline.rs:160-555 | from reset, for every program, memory, branch table, interrupt and Busy pattern in scope, every cycle of every run agrees with the reference core |
| `PipelineRuns.CommitSequence` | crates/cpu/src/core/pipeline.rs:236-246 | the commits of a trap-free run, with the interrupt lines and the bus changing from cycle to cycle, are the reference core's instructions under the lines of their cycles, in order, none missing |
| `PipelineRuns.PcIsOldest` | crates/cpu/src/core/pipeline.rs:236-246 | the architectural pc is that of the oldest instruction not yet committed, or the fetch pc if there is none |
| `PipelineRuns.TrapsArePrecise` | crates/cpu/src/core/pipeline.rs:248-299 | an interrupt or data fault records that pc, changes no memory, leaves nothing in flight and gives the hart a sequential machine has when trapping there |
| `PipelineRuns.DistanceDrops` | crates/cpu/src/core/pipeline.rs:160-555 | on a bus without waits a cycle without a commit or trap brings the next commit nearer |
| `PipelineRuns.FiveCyclesCommit` | crates/cpu/src/core/pipeline.rs:160-555 | any five consecutive trap-free cycles, each with its own interrupt lines, contain a commit |
| `PipelineLimits.WaitIsExact` | crates/cpu/src/core/pipeline.rs:281-289 | a wait for memory keeps the relation to the reference core if and only if the retiring result is not one the waiting instruction latched before |
| `PipelineLimits.ExecuteTrapIsExact` | crates/cpu/src/core/pipeline.rs:379-385 | a trap in EX, of any instruction kind, is the reference core's if and only if EX/MEM is empty |
| `PipelineLimits.DecodeTrapIsExact` | crates/cpu/src/core/pipeline.rs:429-441 | an illegal instruction in ID traps as in the reference core if and only if EX/MEM and ID/EX are empty |
| `PipelineLimits.FetchTrapIsExact` | crates/cpu/src/core/pipeline.rs:480-486 | a fetch fault traps as in the reference core if and only if EX/MEM, ID/EX and IF/ID are empty |
| `PipelineExamples.WaitingTracks` | crates/cpu/src/core/pipeline.rs:281-289 | the state reached before the wait of the next row still agrees with the reference core |
| `PipelineExamples.WaitingIsStale` | crates/cpu/src/core/pipeline.rs:281-289 | that state meets the condition under which the wait breaks the relation |
| `PipelineExamples.StaleFromReset` | crates/cpu/src/core/pipeline.rs:281-289 | a run from reset on which a load waits once and the add behind it computes 0 where the committed registers give 10 |
| `TrapExamples.FetchFaultOvertakes` | crates/cpu/src/core/pipeline.rs:480-486 | a fetch fault taken while the instruction ahead has not reached EX |
| `TrapExamples.IllegalOvertakes` | crates/cpu/src/core/pipeline.rs:429-441 | an illegal instruction trapping while the instruction ahead is in EX |
| `TrapExamples.EcallOvertakes` | crates/cpu/src/core/pipeline.rs:379-385 | an environment call trapping while the instruction ahead is in MEM, and committing after it |
| `BusFabric.MapKeepsDisjoint` | crates/system/src/memory_map.rs:111-157 | mapping a device keeps regions disjoint and the bytes of the others |
| `BusFabric.RoutedToTheOnlyDevice` | crates/system/src/memory_map.rs:169-173 | routing finds the one device that contains an address |
| `BusFabric.SwapRemove` | crates/system/src/memory_map.rs:584-603 | removal moves the last element into the gap and nothing else |
| `BusFabric.MemoryMap.Submit` | crates/system/src/memory_map.rs:532-569 | accepting or refusing a burst in place is `SubmitBurst` |
| `BusFabric.MemoryMap.AdvanceBurst` | crates/system/src/memory_map.rs:346-428 | one step of a burst in place is `AdvanceBurstAt` |
| `BusFabric.MemoryMap.Clock` | crates/system/src/memory_map.rs:678-688 | a tick in place advances every access and then every burst once |
| `BusFabric.MemoryMap.Take` | crates/system/src/memory_map.rs:584-603 | taking a response in place is `TakeBurst` |
| `FabricProof.EveryBeatOnceInOrder` | crates/system/src/memory_map.rs:346-428 | in every run the beats executed for a burst are its beats 0, 1, ... each once, on its one device; ids stay unique; a read burst holds the words read |
| `FabricProof.TakenIsComplete` | crates/system/src/memory_map.rs:584-603 | a burst answered has executed all its beats, and a read answers with their words in order |
| `FabricReplay.TraceIsMemory` | crates/system/src/memory_map.rs:201-271 | in every run the recorded beats, with the stores of single accesses between them, done again in order take the memory of the start to that of the end, so nothing else is written; each read beat has the word its device held at that point |
| `FabricProof.NoBeatAfterwards` | crates/system/src/memory_map.rs:584-603 | a burst taken never executes another beat and its id never returns |
| `FabricProof.ClockLowersRank` | crates/system/src/memory_map.rs:346-428 | every tick lowers (beats left, phase, cycles left) of every burst that is not ready or failed |
| `CachePort.DriveServes` | crates/system/src/cache.rs:664-724 | driving the bank's burst until it blocks ends with its words in place or in hand, whatever else is in flight |
| `CachePort.DriveBurstServes` | crates/system/src/cache.rs:664-724 | the same from the submission of the burst on |
| `CachePort.TickServes` | crates/system/src/memory_map.rs:678-688 | a tick moves the bank's burst on and writes nothing but that burst's words |
| `Cache.DecodeRoundTrip` | crates/system/src/cache.rs:558-576 | set and tag of an address lead back to its line, for any set count |
| `Cache.QuotientIsDivision` | crates/system/src/cache.rs:558-576 | the quotient and remainder written as repeated subtraction are the division and remainder of the address decoding |
| `Cache.EncodeRoundTrip` | crates/system/src/cache.rs:558-576 | the line address made of a set and a tag decodes to that set and tag |
| `Cache.AlignedFits` | crates/system/src/cache.rs:1861-1881 | a store aligned to its width stays inside one word of its line |
| `CacheProof.StartKeepsView` | crates/system/src/cache.rs:619-662 | evicting a victim and starting a refill change nothing that can be read |
| `CacheProof.WriteBackKeeps` | crates/system/src/cache.rs:726-811 | neither does a victim on its way back to a device that takes writes, finished or not, whatever room the bus has for the refill |
| `CacheProof.RefillKeeps` | crates/system/src/cache.rs:746-766 | nor a refill, whose words are those of memory, from a device of any kind, even when the bus has no room for it and it is forgotten |
| `CacheProof.ContinueShows` | crates/system/src/cache.rs:768-811 | over devices of any kind, and any room below, a pending operation whose victim can go back keeps the view at every address and never fails |
| `CacheProof.ContinueKeeps` | crates/system/src/cache.rs:768-811 | a pending operation that goes on keeps the view at every address, never fails, and is done or Busy on the same line |
| `CacheProof.TickKeeps` | crates/system/src/cache.rs:1599-1602 | so does a tick |
| `CacheProof.LoadKeeps` | crates/system/src/cache.rs:813-860 | a load keeps the view, and a completed one returns the four bytes the view has there |
| `CacheProof.StoreKeeps` | crates/system/src/cache.rs:889-948 | a completed store changes exactly its own bytes, one told to wait changes nothing, and one to a cached line never fails |
| `CacheRuns.CacheIsTransparent` | crates/system/src/cache.rs:619-948 | for every geometry and policy and every order of loads, stores, retries and ticks the bank answers as plain memory |
| `CacheRuns.LoadedByteShows` | crates/system/src/cache.rs:1433-1449 | a byte load that completes returns the byte that can be read at its address |
| `CacheRuns.LoadedHalfShows` | crates/system/src/cache.rs:1437-1457 | a half load returns the two bytes at its address and the next |
| `CacheRuns.FreshBankShowsMemory` | crates/system/src/cache.rs:469-494 | a new bank over an idle fabric shows memory and satisfies the invariants |
| `CacheRuns.EveryCallKeepsOk` | crates/system/src/cache.rs:619-948 | every call and tick keeps the bank's invariant |
| `CacheInPlace.CacheBank.LookupWay` | crates/system/src/cache.rs:578-583 | the search finds the way `Lookup` finds |
| `CacheInPlace.CacheBank.ChooseVictim` | crates/system/src/cache.rs:594-617 | victim choice in place, by age or in turn, is `SelectVictim` |
| `CacheInPlace.CacheBank.Start` | crates/system/src/cache.rs:619-662 | starting a line operation in place is `StartPending` |
| `CacheInPlace.CacheBank.DriveUntilBlocked` | crates/system/src/cache.rs:664-724 | the loop over the memory map is `DriveBurst`, and terminates |
| `CacheInPlace.CacheBank.ContinueOperation` | crates/system/src/cache.rs:768-811 | continuing in place is `ContinuePending` |
| `CacheInPlace.CacheBank.LoadWord` | crates/system/src/cache.rs:846-860 | a load in place is `LoadLine` |
| `CacheInPlace.CacheBank.Store` | crates/system/src/cache.rs:889-948 | a store in place is `StoreLine` |
| `CacheLru.TouchFirst` | crates/system/src/cache.rs:589-592 | touching a line makes it the most recent of its set and keeps the order of the others |
| `CacheLru.EveryCallKeepsLru` | crates/system/src/cache.rs:578-617 | every load, store and tick keeps each set listed by its touches, through refills in progress |
| `CacheLru.MostRecentAreResident` | crates/system/src/cache.rs:578-617 | a set at rest holds exactly the min(ways, k) most recently touched of its k tags, with distinct ages |
| `CacheLru.MostRecentAfterEveryRun` | crates/system/src/cache.rs:578-617 | the same at the end of every run |
| `CacheLru.FreshLru` | crates/system/src/cache.rs:469-494 | a new bank starts with nothing touched |
| `CacheCost.TickTakesOne` | crates/system/src/memory_map.rs:346-428 | a tick takes exactly one cycle off what a waiting burst still needs |
| `CacheCost.DriveTakesNoTime` | crates/system/src/cache.rs:664-724 | driving a burst takes none, and finishes exactly when nothing is left |
| `CacheCost.PollCost` | crates/system/src/cache.rs:813-844 | a poll answers exactly when the remaining cost is zero and changes it by nothing |
| `CacheCost.MissCost` | crates/system/src/cache.rs:664-811 | a miss polled once a tick is Busy exactly words times latency times, and twice that with a dirty victim, for every line length and latency |
| `CacheLimits.RefusedExactly` | crates/system/src/memory_map.rs:532-569 | the memory map refuses a burst if and only if no one device holds all its beats, and then nothing has changed |
| `CacheLimits.ContinueIsExact` | crates/system/src/cache.rs:664-811 | for one call with a dirty victim's words unsent: an address reads as before if and only if it is not in the victim's line, or the bus has room for the write-back and the victim's device takes writes or makes this one wait, or memory already holds the byte |
| `CacheLimits.OperationIsExact` | crates/system/src/cache.rs:664-811 | for the whole operation and any retries and ticks: every address reads as before while the words are saved, and afterwards if and only if it is not in the victim's line, or the first call found room and the victim's device takes writes, or memory already held the byte |
| `CacheLimits.EvictionIsExact` | crates/system/src/cache.rs:619-811 | the same from the access that evicts the line |
| `CacheExamples.LostToReadOnly` | crates/system/src/cache.rs:768-811 | a new bank over a read-only device: a byte is stored and reads back, a load that needs the line fails, and the byte is gone |
| `CacheExamples.LostToNoRoom` | crates/system/src/cache.rs:676-680 | the same over a writable device when the bus below answers the write-back's submission with Busy: the load is told to wait, and the byte is gone |
| `OpenAccess.PerformPortOk` | crates/system/src/memory_map.rs:439-479 | the access in the slot stays active until it is answered, so the caller's lookup of it cannot fail |
| `OpenAccess.StoreIsOneStep` | crates/system/src/memory_map.rs:439-479 | a store kept open over any retries and ticks is done once: memory is as before or as `CommitStore` leaves it until the answer, and then reply and memory are those of `CommitStore` |
| `OpenAccess.ThroughStoreShows` | crates/system/src/cache.rs:874-948 | a write-through hit kept open below shows nothing before it is answered, although memory may already have its bytes, and exactly its bytes afterwards |
| `OpenAccess.PastStoreShows` | crates/system/src/cache.rs:889-948 | a store past a bank at rest may show its bytes before it is answered, and shows exactly them afterwards |
| `SplitL1.FetchCoherent` | crates/system/src/cache.rs:1748-1766 | a completed fetch of a cached line returns the word in memory, and leaves memory alone |
| `SplitL1.LoadCoherent` | crates/system/src/cache.rs:1821-1837 | so does a load |
| `SplitL1.StoreCoherent` | crates/system/src/cache.rs:1861-1881 | a completed store puts exactly its bytes in memory and leaves both banks matching it, even when a refill of the instruction line was in progress |
| `SplitL1.InvalidateKeeps` | crates/system/src/cache.rs:1011-1050 | invalidating the line of a store already in memory, pending refill included, makes the bank match the new memory |
| `SplitL1.InstructionLinesMatch` | crates/system/src/cache.rs:1782-1881 | every byte of a valid instruction line is the byte in memory |
| `SplitL1.FetchesSeeStores` | crates/system/src/cache.rs:1782-1881 | over every run, with a write-through data bank, fetches and loads read the memory left by the stores completed so far |
| `Maintenance.RangeIsCovered` | crates/system/src/cache.rs:520-541 | every address of a range lies in a listed line |
| `Maintenance.OneLinePastTheEnd` | crates/system/src/cache.rs:520-541 | the list has a line past the end if and only if the last address does not start a line |
| `Maintenance.CleanedKeeps` | crates/system/src/cache.rs:961-972 | marking a line clean once memory has its words changes no byte |
| `Maintenance.WriteBackKeeps` | crates/system/src/cache.rs:1202-1280 | a write-back call keeps the view at every address and never fails; one that returns done leaves every cached line of the range clean |
| `Maintenance.CleanRangeIsMemory` | crates/system/src/cache.rs:950-1009 | a clean cached line of the range equals memory |
| `Maintenance.RetriesWriteBack` | crates/system/src/cache.rs:1716-1724 | the same over any number of retries, ticks and turned-away loads and stores |
| `Dma.AlwaysAsks` | crates/devices/src/dma_controller.rs:296-345 | an unfinished transfer with nothing issued offers a request |
| `Dma.EveryScheduleConserves` | crates/devices/src/dma_controller.rs:182-403 | over every schedule length = remaining + issued beats + buffered words + transferred, with at most four read bursts held |
| `Dma.EveryScheduleCopies` | crates/devices/src/dma_controller.rs:182-403 | over every service order below, done means every word is copied, no other byte changed, and ceil(n/8) read and write bursts each; no error is ever reported |
| `Dma.DmaController.StartTransfer` | crates/devices/src/dma_controller.rs:182-203 | starting in place is `Start` |
| `Dma.DmaController.NextRequest` | crates/devices/src/dma_controller.rs:296-345 | offering a request in place is `Request` |
| `Dma.DmaController.Respond` | crates/devices/src/dma_controller.rs:347-403 | taking a response in place is `OnResponse` |
| `Arbiter.AnswersAreNotHeldBack` | crates/system/src/arbiter.rs:286-305 | after polling no completed request that is its master's oldest is held back |
| `Arbiter.TickAccounts` | crates/system/src/arbiter.rs:391-407 | whatever the bus below does, refusals included, no request is lost, duplicated or answered twice |
| `Arbiter.TickKeepsWindows` | crates/system/src/arbiter.rs:308-329 | no master ever has more than max(1, window) requests outstanding |
| `Arbiter.TickFits` | crates/system/src/arbiter.rs:170-204 | a master hears an error or the kind of answer its request calls for |
| `Arbiter.OrderIsExact` | crates/system/src/arbiter.rs:218-253 | a tick keeps every master's answers in request order if and only if no refused submission has older requests of its master in flight |
| `Arbiter.EveryRunAccounts` | crates/system/src/arbiter.rs:206-329 | accounting, windows and answer kinds over every run |
| `Arbiter.EveryRunInOrder` | crates/system/src/arbiter.rs:255-306 | in every run without such a refusal each master is answered in the order it asked, however completions below are reordered |
| `Arbiter.AnswersArePrefix` | crates/system/src/arbiter.rs:206-306 | from an idle arbiter a master's answers are a prefix of its requests, short of them by exactly what it has outstanding |
| `Arbiter.QueueJump` | crates/system/src/arbiter.rs:246-251 | a run in which a refused second request is answered before the first |
| `Arbiter.TurnComesNearer` | crates/system/src/arbiter.rs:308-329 | while a master is eligible a free tick takes a request, and one from another master lowers the circular distance to it |
| `Arbiter.BoundedWaiting` | crates/system/src/arbiter.rs:308-329 | a master eligible throughout a run and never selected in it was passed over at most N - 1 times |
| `Arbiter.ArbiterBus.PollInFlight` | crates/system/src/arbiter.rs:255-306 | the two loops in place collect and deliver what `PollAll` and `Deliver` say |
| `Arbiter.ArbiterBus.SelectNextRequest` | crates/system/src/arbiter.rs:308-329 | the search in place, with the turn it leaves, is `Choose` |
| `Arbiter.ArbiterBus.TrySubmit` | crates/system/src/arbiter.rs:218-253 | a submission in place is `Submit`, refusals answered at once |
| `Arbiter.ArbiterBus.Clock` | crates/system/src/arbiter.rs:391-407 | a tick in place is `Arbitrate` |

## Left out

- PipelineProof.PipelineTracksReference: in scope are cycles whose in-flight instructions are Lui, Auipc, Jal, Jalr, Branch, Load, Store, OpImm or Op, with translation off, no trap from EX, ID or IF, in-flight words not overwritten by the stores of the cycle, and no wait for memory that keeps a stale operand; outside it the code does not refine the reference core, as `PipelineLimits` shows.
- PipelineRuns.FiveCyclesCommit: needs a bus that never answers Busy, since a wait can be as long as the bus likes.
- PipelineLimits.WaitIsExact: compares the state after the waiting cycle; how far a stale operand spreads afterwards depends on the program.
- Reference.RunsIgnoreStalls: the interrupt lines are constant, and a bus that calls itself busy hides no interrupt that could be taken; otherwise an interrupt moves to a later boundary.
- WalkerRuns.EveryRunAnswersRight: global mappings are equal in the address spaces considered, and page tables change only by the walker or under a fence with no walk in progress.
- TrapNesting.NestedTrapRestores: a handler that lets itself be trapped at its own level saves and restores epc and status around it, as its code must.
- CacheProof.StoreKeeps: a store that must reach the lower bus is one step of a call that is let through, by a parameter; the access that the memory map keeps open between calls is in `OpenAccess`, which proves that it comes to that step when nothing else writes meanwhile.
- CacheRuns.CacheIsTransparent: stores reach the lower bus in one step, as above; the bus below is the memory map over plain memory in which every cacheable line lies in one writable device and has room for every burst, and other bursts in flight there are reads; `CacheLimits` says what happens without room or on a read-only device.
- CacheInPlace.CacheBank.Store: takes the same parameter in place of the memory map's open access.
- SplitL1.StoreCoherent: takes the same parameter.
- CacheLru.EveryCallKeepsLru: runs of loads, stores and ticks without invalidation, on an access counter that does not wrap.
- CacheCost.MissCost: every device has the same latency, and the bank is polled once per tick from rest.
- SplitL1.FetchesSeeStores: stores reach memory in one step, as above, and stay inside one word, which by `Cache.AlignedFits` the alignment checks in front of the banks ensure.
- Maintenance.RetriesWriteBack: for the cache directly in front of memory; the same request through two levels of cache, and invalidation of a range, are not modelled.
- Dma.EveryScheduleCopies: source and destination do not overlap and are mapped, and the transfer starts with nothing of an earlier one outstanding.
- Arbiter.BoundedWaiting: counts selections; how long a selected request waits to be accepted is up to the bus below.
- OpenAccess.StoreIsOneStep: nothing else writes while the store is open, and its caller comes back with the same request; liveness when callers change is not modelled.
- The counters (mcycle, time, minstret), statistics, traces and error messages.
- Wrap-around of burst ids, access counters and 64-bit addresses on the memory side, where they are natural numbers.
- Register interfaces of the devices, DRAM rows, UART, ROM, timer, block device and interrupt controller; a device here is a plain memory with a latency.
- The burst port a cache offers to a cache above it, and the second-level cache.
- CPU accesses through the arbiter, which masters may postpone without bound.
- The line mask of the cache is written as an address minus its remainder, which for the power-of-two line sizes the configuration demands is the same.
