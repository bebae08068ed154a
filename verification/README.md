# The Adreno A5xx command path and its neighbours, modelled in Dafny

This project models the A5xx (and, for the command streams, the A3xx) part of the Adreno GPU driver and a
fingerprint touch driver, and proves what their code is there to guarantee. `dafny verify dfyconfig.toml`
checks everything.

**Command streams.** `Pm4` gives the packet headers and a decoder that walks dwords as the command processor does;
`HeaderWords`, over `MachineWords`, ties its arithmetic to the OR-ed words and masks of the code, `Parity` says what
the parity bits are, `FlagWords` which bits the flags are; `CommandProcessor` says what a decoded packet does, and
under which protection and secure mode. `RingMemory` is the ring in memory, with its allocator. `A5xxStream` and
`A3xxStream` build the driver's streams, prove what their dwords decode to and bound their size; `StreamWords` spells
them out dword by dword, `IbLists` says which IBs of a list come to run, `Memstore` what is left in the memstore;
`A5xxRing` and `A3xxRing` are the ringbuffer operations writing those streams in place. `GpmuLoad` does the same for
the stream that loads the GPMU microcode.

**Preemption.** `PagetableStream` follows TTBR0 and its scratch copy through the effects a ring's dwords decode to.
`Preemption` is the protocol with whole handlers as steps, including the command processor; `PreemptionDriver` runs the
handlers on mutable state; `PreemptionRuns` proves properties of all runs, and `PreemptionProgress` that nothing queued
is stuck. `PreemptionThreads` and `PreemptionThreadRuns` cut the handlers and the submission into spinlock sections,
state exchanges, reads and register accesses and interleave any number of threads; `PreemptionAlone` proves that both
models agree on a handler nobody disturbs, and `PreemptionSpoiling` shows which interleavings go wrong.

**Around it.** `Firmware` is the firmware container parser and the register-sequence interpreter, `CrashDump` the
crash-dump script, its execution and its readers, `IrqStorm` the interrupt-storm detection and the interrupt hand-out,
`AhbTimeout` the AHB timeout arithmetic over `Bits`. `Touch` is the fingerprint driver's touch classification with its
two filters, `EventQueue` its event queue, `ExclusiveOpen` the exclusive opening of its device nodes.

What the hardware does is part of the model: a packet is decoded by its header; an effect of a stream writes memory dword
by dword; a requested switch happens only where the running ring yielded or allows fine-grained preemption, clears
CONTEXT_SWITCH_CNTL, and loads the write pointer from the next ring's record and TTBR0 from the SMMU info record; the read
pointer in memory lags behind. Time is a nondeterministic timer.

These promises turned out not to hold of the code without a condition. Each has its exact condition and a run or an
input that breaks it:

- A context switch that could not be queued is not noticed, so the following IBs run under a foreign pagetable. The
  invariant survives exactly the covered switches (`SwitchedKeepsTables`); the first uncovered one, on any ring and in any
  state, can be followed to a foreign IB (`UncoveredSwitchFails`); `UnqueuedUncovered` says which ones are uncovered, and
  `SwitchRefused` at which ring positions the switch is refused and the command behind it placed (`BusyRingDropsSwitch`).
- The doorbell can hold a wrong write pointer outside a switch. `Doorbell` excludes two things, and `UpsetRun` says that
  these are all: a hand-off decided before its trigger has written CONTEXT_SWITCH_CNTL, and a submission that writes the
  register while another ring runs.
  - The first: `DecisionSpoilsExactly`, a decision to hand over can lead to a wrong doorbell if and only if some trigger has
    yet to write that register and no submission is about to go astray; `EarlyDecisionSpoils` is the for-all half of it,
    `StaleInterrupt` shows that every trigger has the window, `EarlyHandOffMisses` a run from the start.
  - The second: `StrayExactly`, a submission past its two checks spoils the doorbell if and only if another ring runs by
    then, all of whose submissions were rung, with another pointer; `OvertakenSubmission` shows how it is overtaken,
    `SubmissionStrays` a run from the start.
- After a power-on fixup the A3xx ring is left unprotected unless the submission itself was unprotected (`SubmissionMeaning3`).
- The storm detection starts at the value 0, so that a first value of 0 suspends one interrupt early
  (`FirstInterrupts`), and its counter wraps, so a second suspension without a new value is possible after 2^32
  repeats (`SuspensionsApart`, `SuspendsAgain`).
- The minimum check of the AHB timeout is void for the longest timeout, because `1 << 31` is negative
  (`TimeoutBounds`, `TooFast`). This takes a hub clock above 2147483 MHz, which the u64 field holds; the cores listed in
  adreno-gpulist.h run it at 150 or 200 MHz, for which every timeout is right (`ListedClocks`).
- INTR2 can stay high with no finger down: `StuckHigh` and `StuckHighFromRight` say exactly after which passes,
  `LiftedTogether` that lifting two fingers in one pass is enough.
- A GPMU microcode file that is not taken is reported as success exactly if it is not framed as one or its header is good
  (`RejectedAsSuccess`, with three such files in `RejectedFiles`).
- A register file that is refused, and released, leaves a saved sequence behind exactly if an LM block stands in front of
  the first block that is not well-formed (`RefusedKeepsSequence`, `RefusedWithSequence`).
- A register sequence has the effect it is written for exactly if no register number and no value of it has an upper half
  (`FullEffect`, `UpperHalfLost`).
- The reader of the shader banks finds only bank 0, or any bank of an empty block (`ShaderBankOffsets`).

## Model

| member | source | states |
|---|---|---|
| HeaderWords.HeaderWord | qcom/opensource/graphics-kernel/adreno_pm4types.h:192-230 | for every packet of the field widths, of all four types, the header sum the decoder is defined on is the word the code ORs together, parity bits included |
| HeaderWords.HeaderMacros | qcom/opensource/graphics-kernel/adreno_pm4types.h:232-268 | on that word the packet's own type test holds, and the register, opcode and size macros give back what the packet was made of |
| HeaderWords.Type4Fields | qcom/opensource/graphics-kernel/adreno_pm4types.h:249-257 | whatever the fields of a type 4 word hold, within their masks they overlap neither one another nor the type |
| HeaderWords.Type7Fields | qcom/opensource/graphics-kernel/adreno_pm4types.h:259-268 | the same for a type 7 word |
| Parity.OddTogether | qcom/opensource/graphics-kernel/adreno_pm4types.h:192-198 | with the ones counted one by one, the ones of any field and its parity bit are together an odd number |
| Parity.FlippedBitRefused | qcom/opensource/graphics-kernel/adreno_pm4types.h:214-268 | a type 4 or type 7 header with any one bit of its fields flipped, parity bits included, fails its type test |
| Pm4.HeaderReadsBack | qcom/opensource/graphics-kernel/adreno_pm4types.h:205-268 | for all four packet types the header's type test, size and key macros give back what the packet was made of |
| Pm4.ParseEncode | qcom/opensource/graphics-kernel/adreno_pm4types.h:205-268 | decoding the dwords of any packet list gives exactly that list: no desynchronisation |
| Pm4.ParseConcat | qcom/opensource/graphics-kernel/adreno_pm4types.h:232-268 | what follows a parsable stream is decoded from its own first dword |
| RingMemory.AllocIsFree | qcom/opensource/graphics-kernel/adreno_ringbuffer.c:68-105 | an allocation is inside the ring iff its 32-bit sum did not wrap; it then covers no unread dword, loses none, and never makes a full ring look empty |
| RingMemory.AllocFindsRoom | qcom/opensource/graphics-kernel/adreno_ringbuffer.c:68-105 | space is found exactly when one contiguous free run is long enough, that is for sizes up to Room |
| RingMemory.FillAppends | qcom/opensource/graphics-kernel/adreno_ringbuffer.c:68-105 | filling an allocation appends to what the GPU will read, behind one NOP over the rest of the ring when it wraps |
| RingMemory.ReadInOrder | qcom/opensource/graphics-kernel/adreno_ringbuffer.c:68-105 | of the 8192 dwords the GPU reads those from its pointer up to the driver's, counted modulo the size, in that order |
| RingMemory.InputsCompose | qcom/opensource/graphics-kernel/adreno_ringbuffer.c:84-95 | input behind sound input starts on a packet boundary in the home mode and does its own work |
| RingMemory.Ringbuffer.AllocSpace | qcom/opensource/graphics-kernel/adreno_ringbuffer.c:68-105 | for every size the method returns Alloc's space, advances the pointer, and changes nothing in the ring but the NOP of a wrap |
| RingMemory.Ringbuffer.Emplace | qcom/opensource/graphics-kernel/adreno_a5xx_ringbuffer.c:161-281 | allocate, fill, give back: on success the unread input grows by exactly the submission, on failure nothing changes |
| A5xxStream.PreIbRuns | qcom/opensource/graphics-kernel/adreno_a5xx_preempt.c:319-392 | the preamble sets global and local preemption by style and writes the save address unprotected, protected again after |
| A5xxStream.HeadRuns | qcom/opensource/graphics-kernel/adreno_a5xx_ringbuffer.c:165-205 | what runs in front of the payload: preamble, profiling, start-of-pipe timestamps; then the mode the flags ask for |
| A5xxStream.TailRuns | qcom/opensource/graphics-kernel/adreno_a5xx_ringbuffer.c:210-278 | what runs behind it: retirement and end-of-pipe timestamps protected, then the yield, non-secure |
| A5xxStream.SubmissionMeaning | qcom/opensource/graphics-kernel/adreno_a5xx_ringbuffer.c:138-287 | every submission decodes; it writes start-of-pipe before and end-of-pipe after the payload, which runs unprotected iff NOTPROTECTED and secure iff SECURE; it ends protected and non-secure |
| A5xxStream.SubmissionFits | qcom/opensource/graphics-kernel/adreno_a5xx_ringbuffer.c:136-145 | at most A5XX_SUBMIT_MAX dwords around the payload, whatever the flags |
| A5xxStream.SkipSwallowsIb | qcom/opensource/graphics-kernel/adreno_a5xx_ringbuffer.c:455-468 | a bare count-4 NOP header followed by an IB packet is one NOP packet |
| A5xxStream.IbListMeaning | qcom/opensource/graphics-kernel/adreno_a5xx_ringbuffer.c:452-469 | for every IB list and flags exactly the IBs that are not skipped run, in order, with address and masked size |
| A5xxStream.CommandMeaning | qcom/opensource/graphics-kernel/adreno_a5xx_ringbuffer.c:426-499 | the whole command buffer decodes and runs the listed IBs between the profiling commands |
| A5xxStream.CommandFits | qcom/opensource/graphics-kernel/adreno_a5xx_ringbuffer.c:412-433 | 32 + 5n dwords are never exceeded |
| A5xxStream.TableSwitchShows | qcom/opensource/graphics-kernel/adreno_a5xx_ringbuffer.c:14-50 | the pagetable switch updates TTBR0 and then records it in the ring's scratch memory under APRIV |
| A5xxStream.ContextSwitchShows | qcom/opensource/graphics-kernel/adreno_a5xx_ringbuffer.c:335-371 | a context switch changes the pagetable iff the contexts' differ and it is not the default, then writes the current context twice |
| StreamWords.SubmissionWords | qcom/opensource/graphics-kernel/adreno_a5xx_ringbuffer.c:161-281 | an A5xx submission dword by dword, headers as numbers and addresses as sums: the named packets build exactly this |
| StreamWords.CommandWords | qcom/opensource/graphics-kernel/adreno_a5xx_ringbuffer.c:439-499 | the same for a command |
| StreamWords.SwitchWords | qcom/opensource/graphics-kernel/adreno_a5xx_ringbuffer.c:14-50 | the same for a context switch with its pagetable switch |
| StreamWords.SwitchSubmissionWords | qcom/opensource/graphics-kernel/adreno_a5xx_ringbuffer.c:369-371 | and what the context switch as a whole adds to the ring: unprotected, between the ring's own timestamps, without any IB |
| StreamWords.RequestWords | qcom/opensource/graphics-kernel/adreno_a5xx_ringbuffer.c:72-83 | the same for the request to report the read pointer |
| StreamWords.WrapWords | qcom/opensource/graphics-kernel/adreno_ringbuffer.c:84-95 | the header of the NOP over the rest of a ring that wraps, of type 3 on A3xx and type 7 on A5xx |
| FlagWords.SubmissionFlags | qcom/opensource/graphics-kernel/adreno_ringbuffer.h:27-50 | the submission flags, tested by dividing, are the bits 0 to 7 of the machine word |
| FlagWords.SkippedNode | qcom/opensource/graphics-kernel/adreno_a5xx_ringbuffer.c:455-460 | a node is skipped iff its SKIP bit is set, or its preamble bit in a submission without F_PREAMBLE, as machine-word masks |
| FlagWords.FineGrained | qcom/opensource/graphics-kernel/adreno_a5xx_preempt.c:327-343 | a context is preempted fine-grained iff its secure bit is clear and its style field holds FINEGRAIN |
| IbLists.CommandRunsNodes | qcom/opensource/graphics-kernel/adreno_a5xx_ringbuffer.c:426-499 | over the list given: the IBs run on reading a command are, in order, exactly the nodes whose own and the submission's bits let them run, between the two profiling IBs; none with F_SKIP |
| A5xxRing.SwitchDwords | qcom/opensource/graphics-kernel/adreno_a5xx_ringbuffer.c:342-367 | a context switch takes 30 dwords with a pagetable and 12 without, of the 32 on the stack |
| A5xxRing.PutIbs | qcom/opensource/graphics-kernel/adreno_a5xx_ringbuffer.c:455-468 | the loop writes the IB list's dwords and nothing else |
| A5xxRing.BuildCommand | qcom/opensource/graphics-kernel/adreno_a5xx_ringbuffer.c:426-499 | the allocated buffer is filled with exactly the command's dwords |
| A5xxRing.Submit | qcom/opensource/graphics-kernel/adreno_a5xx_ringbuffer.c:62-97 | the write pointer is published, the doorbell rung only for the current ring outside a switch |
| A5xxRing.AddCmds | qcom/opensource/graphics-kernel/adreno_a5xx_ringbuffer.c:138-287 | which error is returned when; on success, with and without preemption, the ring gains exactly one submission, which is published and rung for the current ring, and the timestamp and sequence advance |
| A5xxRing.RequestFits | qcom/opensource/graphics-kernel/adreno_a5xx_ringbuffer.c:62-97 | without preemption the three dwords behind a submission always find room, however far the GPU has come, so the ignored error never happens |
| A5xxRing.SwitchContext | qcom/opensource/graphics-kernel/adreno_a5xx_ringbuffer.c:373-398 | when the switch is queued, and then published and rung; the new context becomes active even if it is not, and the ring's timestamp advances even then unless the device is faulted |
| A5xxRing.SubmitCommand | qcom/opensource/graphics-kernel/adreno_a5xx_ringbuffer.c:414-531 | the ring gains the context switch, if due and placed, and then the command's submission; when the result is each error, what is published and which doorbells are rung in order |
| A5xxRing.SwitchRefused | qcom/opensource/graphics-kernel/adreno_a5xx_ringbuffer.c:501-524 | at any ring position and sizes: the switch is refused and the command behind it placed iff the free run is shorter than the one and long enough for the other |
| A5xxRing.BusyRingDropsSwitch | qcom/opensource/graphics-kernel/adreno_a5xx_ringbuffer.c:501-524 | such a position: filled up to dword 8100 with the read pointer at 50, every pagetable switch is refused and a one-IB command taken |
| A5xxRing.SubmissionsCompose | qcom/opensource/graphics-kernel/adreno_a5xx_ringbuffer.c:138-287 | submissions added to a ring do one another's work one after the other and leave it sound |
| A5xxRing.SyncedCompose | qcom/opensource/graphics-kernel/adreno_a5xx_ringbuffer.c:138-287 | without preemption each of them moreover reports the read pointer behind its work |
| A5xxRing.RequestReports | qcom/opensource/graphics-kernel/adreno_a5xx_ringbuffer.c:72-83 | decoded and run, the request reports the read pointer to the first dword of the ring's own shadow |
| Memstore.SubmissionStamps | qcom/opensource/graphics-kernel/adreno_a5xx_ringbuffer.c:183-270 | slot by slot: a submission whose payload stays outside leaves its start and end timestamps in the slots of its context and its ring and the sequence number in the global one, and every other word of the memstore as it was |
| Memstore.SwitchStamps | qcom/opensource/graphics-kernel/adreno_a5xx_ringbuffer.c:349-371 | a context switch moreover records the new context in the ring's slot and in the global one |
| Memstore.SubmissionInterrupts | qcom/opensource/graphics-kernel/adreno_a5xx_ringbuffer.c:246-270 | besides its payload a submission raises exactly one interrupt, by writing the end timestamp of its context or, without one, of its ring |
| Memstore.CommandOutside | qcom/opensource/graphics-kernel/adreno_a5xx_ringbuffer.c:439-499 | a command's buffer writes nothing into the memstore unless kernel profiling is pointed there |
| Memstore.RingSlotApart | qcom/opensource/graphics-kernel/kgsl.h:54-71 | a ring's words lie inside the memstore, apart from those of every context, of the global slot and of the other rings |
| A3xxStream.SubmissionMeaning3 | qcom/opensource/graphics-kernel/adreno_a3xx_ringbuffer.c:180-317 | the type 3 submission decodes; timestamps around the payload; the ring is left protected iff NOTPROTECTED or no power-on fixup |
| A3xxStream.SubmissionFits3 | qcom/opensource/graphics-kernel/adreno_a3xx_ringbuffer.c:178-186 | at most A3XX_SUBMIT_MAX dwords around the payload |
| A3xxStream.SkipSwallowsIb3 | qcom/opensource/graphics-kernel/adreno_a3xx_ringbuffer.c:413-422 | a bare count-3 NOP header followed by an IB packet is one NOP packet |
| A3xxStream.IbListMeaning3 | qcom/opensource/graphics-kernel/adreno_a3xx_ringbuffer.c:410-424 | exactly the IBs that are not skipped run, in order, with low address and unmasked size |
| A3xxStream.CommandMeaning3 | qcom/opensource/graphics-kernel/adreno_a3xx_ringbuffer.c:393-427 | the whole command buffer decodes and runs the listed IBs and nothing else |
| A3xxStream.CommandFits3 | qcom/opensource/graphics-kernel/adreno_a3xx_ringbuffer.c:380-401 | 4 + 4n dwords are never exceeded |
| A3xxStream.TableSwitchShows3 | qcom/opensource/graphics-kernel/adreno_a3xx_ringbuffer.c:105-156 | the pagetable is loaded between the acknowledged bus halt and its release, then the TLB is flushed |
| A3xxStream.ContextSwitchShows3 | qcom/opensource/graphics-kernel/adreno_a3xx_ringbuffer.c:319-351 | the context switch's effects, with the pagetable switch exactly when it is needed |
| A3xxStream.SwitchLoads | qcom/opensource/graphics-kernel/adreno_a3xx_ringbuffer.c:105-156 | a context switch writes TTBR0 of the SMMU iff the new context has its own pagetable and it is not the one before |
| StreamWords.SubmissionWords3 | qcom/opensource/graphics-kernel/adreno_a3xx_ringbuffer.c:201-308 | an A3xx submission dword by dword |
| StreamWords.CommandWords3 | qcom/opensource/graphics-kernel/adreno_a3xx_ringbuffer.c:403-427 | an A3xx command dword by dword |
| StreamWords.SwitchWords3 | qcom/opensource/graphics-kernel/adreno_a3xx_ringbuffer.c:319-351 | an A3xx context switch with its pagetable switch dword by dword |
| StreamWords.SwitchSubmissionWords3 | qcom/opensource/graphics-kernel/adreno_a3xx_ringbuffer.c:349-351 | and what the context switch as a whole adds to the ring |
| IbLists.CommandRunsNodes3 | qcom/opensource/graphics-kernel/adreno_a3xx_ringbuffer.c:393-427 | the IBs run on reading a command are, in order, exactly the nodes that may run, with the low half of their address and their unmasked size |
| A3xxStream.SwitchSize3 | qcom/opensource/graphics-kernel/adreno_a3xx_ringbuffer.c:327-350 | a context switch fits the 64 dwords on the stack |
| A3xxRing.BuildCommand3 | qcom/opensource/graphics-kernel/adreno_a3xx_ringbuffer.c:393-427 | the allocated buffer is filled with exactly the command's dwords |
| A3xxRing.AddCmds3 | qcom/opensource/graphics-kernel/adreno_a3xx_ringbuffer.c:180-317 | which error is returned when; on success the ring gains one submission and is rung at once |
| A3xxRing.SwitchContext3 | qcom/opensource/graphics-kernel/adreno_a3xx_ringbuffer.c:353-378 | when the switch is queued, and that the new context becomes active even if it is not |
| Memstore.SubmissionStamps3 | qcom/opensource/graphics-kernel/adreno_a3xx_ringbuffer.c:234-300 | on A3xx the timestamps of the context and the ring, and nothing else of the memstore |
| Memstore.SwitchStamps3 | qcom/opensource/graphics-kernel/adreno_a3xx_ringbuffer.c:331-351 | a context switch records the new context in the same two slots |
| Memstore.SubmissionInterrupts3 | qcom/opensource/graphics-kernel/adreno_a3xx_ringbuffer.c:277-300 | exactly one interrupt besides those of the payload |
| PagetableStream.ApartKeepsOthers | qcom/opensource/graphics-kernel/kgsl.h:85-125 | a write to a ring's own scratch slot, or outside the scratch page, changes no other ring's recorded pagetable |
| PagetableStream.MemstoreDistinct | qcom/opensource/graphics-kernel/kgsl.h:50-75 | no two timestamps or context words of different slots or fields share a memstore address |
| PagetableStream.LayoutMeans | qcom/opensource/graphics-kernel/kgsl.h:50-125 | the memstore and the scratch page: eight pages and one, aligned, not wrapping around, with no byte in common |
| PagetableStream.NeutralStretch | qcom/opensource/graphics-kernel/adreno_a5xx_ringbuffer.c:138-287 | effects that do not concern pagetables keep them, and are good iff their IBs belong to the pagetable in effect |
| PagetableStream.ActionsAround | qcom/opensource/graphics-kernel/adreno_a5xx_ringbuffer.c:138-287 | what the decoder makes of a submission: preemption level, setup, payload, retirement, yield |
| PagetableStream.WorkKeepsTable | qcom/opensource/graphics-kernel/adreno_a5xx_ringbuffer.c:138-287 | a submission from rest ends at rest under the same pagetable, and is good iff that is its context's own |
| PagetableStream.SecureStaysCoarse | qcom/opensource/graphics-kernel/adreno_a5xx_preempt.c:330-343 | behind every action of a secure context's submission but the last the ring can not be preempted, whatever the context's style, and it ends coarse |
| PagetableStream.TableSwitchSteps | qcom/opensource/graphics-kernel/adreno_a5xx_ringbuffer.c:14-50 | with fine-grained preemption off, TTBR0 and its record are never apart at a preemption point |
| PagetableStream.SwitchMovesTable | qcom/opensource/graphics-kernel/adreno_a5xx_ringbuffer.c:335-371 | a queued context switch is good and ends at rest under the new context's pagetable |
| PagetableStream.SwitchUpdates | qcom/opensource/graphics-kernel/adreno_a5xx_ringbuffer.c:14-32 | decoded, a context switch loads a pagetable iff the new context has its own and it is not that of the context before; then that one, once |
| PagetableStream.CommandNeutral | qcom/opensource/graphics-kernel/adreno_a5xx_ringbuffer.c:439-499 | a command object's buffer leaves the pagetable alone |
| PagetableStream.RingGrowsByActions | qcom/opensource/graphics-kernel/adreno_a5xx_ringbuffer.c:138-287 | the queue of actions is what the GPU decodes and does when it reads the ring's dwords |
| Preemption.FirstBusy | qcom/opensource/graphics-kernel/adreno_a5xx_preempt.c:147-166 | the first ring with work, all before it being empty, or none |
| Preemption.ProtocolKept | qcom/opensource/graphics-kernel/adreno_a5xx_preempt.c:45-317 | every handler and hardware step keeps the protocol: next ring valid and different, record and register in step, running ring known |
| PreemptionRuns.NoSubmissionLost | qcom/opensource/graphics-kernel/adreno_a5xx_preempt.c:18-43 | over every run, in state NONE the doorbell register is the current ring's write pointer and that ring is running |
| PreemptionRuns.HighestPriority | qcom/opensource/graphics-kernel/adreno_a5xx_preempt.c:168-253 | a trigger leaves the current ring only as the first non-empty one, or switches to the first non-empty one with record and pagetable set |
| PreemptionRuns.RestartClears | qcom/opensource/graphics-kernel/adreno_a5xx_preempt.c:412-460 | a restart leaves no switch under way, every ring empty with the default pagetable recorded and no active context, and the command processor at its start |
| PreemptionRuns.CompletedSwitchLands | qcom/opensource/graphics-kernel/adreno_a5xx_preempt.c:45-144 | a switch the hardware completed is handed off by whichever of interrupt, worker and schedule comes, and once |
| PreemptionRuns.DeferredSwitchLands | qcom/opensource/graphics-kernel/adreno_a5xx_preempt.c:255-281 | an interrupt answered while CONTEXT_SWITCH_CNTL is still set defers the hand-off: no time-out or worker undoes that, the dispatcher reports a fault until the switch is through and lands it then |
| PreemptionRuns.TimedOutSwitch | qcom/opensource/graphics-kernel/adreno_a5xx_preempt.c:91-144 | a timed-out switch is reported iff the power is off or the switch is not through; otherwise it lands |
| PreemptionRuns.FaultedStays | qcom/opensource/graphics-kernel/adreno_a5xx_preempt.c:91-144 | a reported switch keeps its state under every step but a later worker or a restart |
| PreemptionRuns.ExecutedKeepsTables | qcom/opensource/graphics-kernel/adreno_a5xx_ringbuffer.c:14-50 | the invariant of all rings' pagetables survives every action the command processor runs |
| PreemptionRuns.PreemptedKeepsTables | qcom/opensource/graphics-kernel/adreno_a5xx_preempt.c:216-233 | it survives the hardware switch, which loads the pagetable the trigger copied |
| PreemptionRuns.EnqueuedKeepsTables | qcom/opensource/graphics-kernel/adreno_a5xx_ringbuffer.c:521-524 | it survives submissions of the active context |
| PreemptionRuns.SwitchedKeepsTables | qcom/opensource/graphics-kernel/adreno_a5xx_ringbuffer.c:373-398 | it survives a context switch iff the switch was queued, needed no table, or the table was the last one queued |
| PreemptionRuns.TablesKept | qcom/opensource/graphics-kernel/adreno_a5xx_preempt.c:45-317 | a step keeps the pagetables in order iff it is not an uncovered context switch |
| PreemptionRuns.PagetableSurvives | qcom/opensource/graphics-kernel/adreno_a5xx_preempt.c:214-240 | over every run with covered switches, every IB of a context with its own pagetable runs with TTBR0 set to it |
| PreemptionRuns.CommandPlain | qcom/opensource/graphics-kernel/adreno_a5xx_ringbuffer.c:414-499 | what submitcmd builds is a payload those theorems cover |
| PreemptionProgress.UncoveredSwitchFails | qcom/opensource/graphics-kernel/adreno_a5xx_ringbuffer.c:388-397 | over every covered run: an uncovered switch, on any ring and in any state, and then any command with an IB can be followed, by the handlers and the hardware alone, to that IB running under a foreign pagetable |
| PreemptionProgress.UncoveredSwitchRuns | qcom/opensource/graphics-kernel/adreno_a5xx_ringbuffer.c:388-397 | the same from every state of the invariants |
| PreemptionProgress.BoundariesKept | qcom/opensource/graphics-kernel/adreno_a5xx_preempt.c:45-317 | every step keeps that the running ring, and the next one during a switch, are told to stop only behind a whole submission, and that a ring has yielded exactly there |
| PreemptionProgress.ActionRuns | qcom/opensource/graphics-kernel/adreno_a5xx_preempt.c:168-317 | nothing queued is stuck: from every such state each action of each ring can come to run, under the pagetable its own ring set last |
| PreemptionProgress.QueuedWorkRuns | qcom/opensource/graphics-kernel/adreno_a5xx_preempt.c:168-317 | the same over every covered run from the start |
| PreemptionRuns.UnqueuedUncovered | qcom/opensource/graphics-kernel/adreno_a5xx_ringbuffer.c:388-397 | a switch that could not be queued is uncovered iff the new context has its own pagetable and it is not the last queued; behind a context with its own, iff the two differ |
| PreemptionDriver.Driver.NextRingbuffer | qcom/opensource/graphics-kernel/adreno_a5xx_preempt.c:147-166 | the loop finds the first ring with work |
| PreemptionDriver.Driver.Trigger | qcom/opensource/graphics-kernel/adreno_a5xx_preempt.c:168-253 | the trigger moves the whole state as Triggers says |
| PreemptionDriver.Driver.Callback | qcom/opensource/graphics-kernel/adreno_a5xx_preempt.c:255-300 | the interrupt hands off, defers to the dispatcher, or does nothing, and triggers again |
| PreemptionDriver.Driver.Schedule | qcom/opensource/graphics-kernel/adreno_a5xx_preempt.c:302-317 | the dispatcher's hand-off and trigger, and when it reports a fault |
| PreemptionDriver.Driver.Worker | qcom/opensource/graphics-kernel/adreno_a5xx_preempt.c:96-144 | a timed-out switch is completed iff the power is on and the hardware is done, else a fault is reported |
| PreemptionDriver.Driver.Timer | qcom/opensource/graphics-kernel/adreno_ringbuffer.c:158-171 | only a triggered switch times out |
| PreemptionDriver.Driver.Submit | qcom/opensource/graphics-kernel/adreno_a5xx_ringbuffer.c:85-94 | the doorbell rings iff no switch is under way and the ring is current |
| PreemptionDriver.Driver.StartPreemption | qcom/opensource/graphics-kernel/adreno_a5xx_preempt.c:412-461 | the state is forced clear and every record and scratch pagetable reset |
| PreemptionDriver.Driver.SetActiveContextsNull | qcom/opensource/graphics-kernel/adreno.c:1713-1728 | no ring has an active context left |
| PreemptionDriver.Driver.Restart | qcom/opensource/graphics-kernel/adreno_a5xx.c:1811-1832 | the driver's loops together leave the restarted state |
| PreemptionThreads.OwnedKept | qcom/opensource/graphics-kernel/adreno.h:1766-1770 | every step of every thread keeps single ownership of the preemption state and of the mutex |
| PreemptionThreads.FlownKept | qcom/opensource/graphics-kernel/adreno_a5xx_preempt.c:168-317 | every step keeps the trigger in flight paired with its ring and its single hand-off |
| PreemptionThreads.WiredKept | qcom/opensource/graphics-kernel/adreno_a5xx_preempt.c:18-43 | every step, a submission's two reads, register write and store among them, keeps record, register and running ring in step, unless a hand-off came early or a submission went astray |
| PreemptionAlone.Undisturbed | qcom/opensource/graphics-kernel/adreno_a5xx_preempt.c:18-317 | the two models agree: each handler, and the submission, called while no submission is under way and nobody holds the mutex and left to run by itself, comes to its end and has done what the whole handler does |
| PreemptionAlone.EnvironmentMatches | qcom/opensource/graphics-kernel/adreno_a5xx_preempt.c:168-253 | so do the timer, the hardware switch and the report of a read pointer |
| PreemptionThreadRuns.SingleOwner | qcom/opensource/graphics-kernel/adreno_a5xx_preempt.c:45-317 | at most one thread is inside START, PENDING, fault or completion handling, and the state says where |
| PreemptionThreadRuns.OwnerExists | qcom/opensource/graphics-kernel/adreno_a5xx_preempt.c:168-317 | START and PENDING always have the thread that will end them |
| PreemptionThreadRuns.ValidHandOff | qcom/opensource/graphics-kernel/adreno_a5xx_preempt.c:45-144 | before any hand-off the next ring exists and is not the current one; each trigger is handed off at most once |
| PreemptionThreadRuns.Doorbell | qcom/opensource/graphics-kernel/adreno_a5xx_preempt.c:18-43 | with no early hand-off and no submission astray, in NONE the current ring runs, and its pointer, or that of its submission under way, is rung, or a submission slipped in |
| PreemptionThreadRuns.UpsetRun | qcom/opensource/graphics-kernel/adreno_a5xx_preempt.c:45-144 | the proviso of Doorbell is exactly that no decision was made while a trigger had yet to write the register and no submission wrote it while another ring ran |
| PreemptionThreadRuns.TriggerDelivers | qcom/opensource/graphics-kernel/adreno_a5xx_preempt.c:182-253 | a trigger or hand-off rings or stores its ring's pointer, which holds until a submission to the ring takes its spinlock |
| PreemptionSpoiling.EarlyDecisionSpoils | qcom/opensource/graphics-kernel/adreno_a5xx_preempt.c:45-93 | in every state of the invariant: a decided hand-off with a trigger unwritten can be followed, with nothing else early or astray, to a doorbell holding an old pointer with all submissions rung |
| PreemptionSpoiling.DecisionSpoilsExactly | qcom/opensource/graphics-kernel/adreno_a5xx_preempt.c:45-144 | over every run with nothing early or astray, the next decision can lead to a wrong doorbell, with nothing else early or astray, iff a trigger is unwritten and no submission is about to go astray |
| PreemptionSpoiling.StaleInterrupt | qcom/opensource/graphics-kernel/adreno_a5xx_preempt.c:249-300 | every trigger has the window: an interrupt answered between its state write and its register write is about to decide early |
| PreemptionSpoiling.EarlyHandOffMisses | qcom/opensource/graphics-kernel/adreno_a5xx_preempt.c:249-252 | for any two or more rings and threads a clean run from the start comes to such a decision |
| PreemptionSpoiling.StrayExactly | qcom/opensource/graphics-kernel/adreno_a5xx_ringbuffer.c:85-94 | over every such run, a submission that found NONE and its ring current spoils the doorbell with its last two steps in NONE iff another ring runs by then, all rung, with another pointer |
| PreemptionSpoiling.OvertakenSubmission | qcom/opensource/graphics-kernel/adreno_a5xx_ringbuffer.c:85-94 | every such submission has the window: with work on a ring of higher priority, one thread's trigger, switch and hand-off leave it about to go astray |
| PreemptionSpoiling.SubmissionStrays | qcom/opensource/graphics-kernel/adreno_a5xx_ringbuffer.c:85-94 | for any two or more rings and threads a clean run from the start ends with a doorbell spoilt that way |
| GpmuLoad.LoadFits | qcom/opensource/graphics-kernel/adreno_a5xx.c:493-505 | the stream takes size + size/max + 1 + 4 dwords, or one less when the last packet is full |
| GpmuLoad.LoadMeaning | qcom/opensource/graphics-kernel/adreno_a5xx.c:487-542 | decoded and run, the stream writes word k to instruction RAM word k, once and in order, protection off only around it |
| GpmuLoad.GpmuCommands.CreateLoadCmds | qcom/opensource/graphics-kernel/adreno_a5xx.c:487-542 | the loop fills the buffer with that stream; a second call changes nothing |
| GpmuLoad.GpmuCommands.LoadFirmware | qcom/opensource/graphics-kernel/adreno_a5xx.c:549-613 | an accepted file's code becomes the stream at the driver's packet size, a refused one leaves everything; the status is an error only for a bad header |
| GpmuLoad.FirmwareReachesRam | qcom/opensource/graphics-kernel/adreno_a5xx.c:480-607 | for every accepted file, running that stream writes the block behind its header, word by word, to the instruction RAM |
| Firmware.ReadBlockHeader | qcom/opensource/graphics-kernel/adreno_a5xx.c:759-808 | accepts exactly the headers of good size, with a known sequence first where one is due and no outdated major version |
| Firmware.HeaderTerms | qcom/opensource/graphics-kernel/adreno_a5xx.c:759-808 | in terms of pairs: one to five, inside the block, the first of a sequence naming one of three, and no other one a major version older than the driver's, except 0 |
| Firmware.NewerTaken | qcom/opensource/graphics-kernel/adreno_a5xx.c:783-790 | what a driver takes, one that asks for an older version takes too |
| Firmware.SmallFirmware | qcom/opensource/graphics-kernel/adreno_a5xx.c:581-607 | a small file is taken by a driver of its version, refused by a newer one, ignored as another kind or when too long for itself |
| Firmware.RamSize | qcom/opensource/graphics-kernel/adreno_a5xx.c:597-604 | a framed file with a good header is taken iff its code is at most 4095 dwords |
| Firmware.LoadGpmuFirmware | qcom/opensource/graphics-kernel/adreno_a5xx.c:549-613 | reads stay inside the file; which files give code, an error, or a silent refusal |
| Firmware.RejectedAsSuccess | qcom/opensource/graphics-kernel/adreno_a5xx.c:549-613 | a file is taken iff framed, with a good header and no larger than the RAM; a refused one is reported as success iff it is unframed or its header is good |
| Firmware.RejectedFiles | qcom/opensource/graphics-kernel/adreno_a5xx.c:581-604 | three refused files reported as success |
| Firmware.MicrocodeExact | qcom/opensource/graphics-kernel/adreno_a5xx.c:581-607 | the code of an accepted file is its block behind the header, not empty, inside the file and the RAM |
| Firmware.LoadRegfile | qcom/opensource/graphics-kernel/adreno_a5xx.c:832-894 | the block walk terminates, reads inside the file, and saves the last LM sequence on its way |
| Firmware.RegfileExact | qcom/opensource/graphics-kernel/adreno_a5xx.c:810-894 | a file is kept iff it is a sequence of well-formed blocks with an LM block; the last one's tail is saved |
| Firmware.RefusedKeepsSequence | qcom/opensource/graphics-kernel/adreno_a5xx.c:862-891 | a refused file leaves a saved sequence iff an LM block stands in front of the first block that is not well-formed; the sequence is that block's tail |
| Firmware.RefusedWithSequence | qcom/opensource/graphics-kernel/adreno_a5xx.c:862-891 | such a file |
| Firmware.SmallRegfiles | qcom/opensource/graphics-kernel/adreno_a5xx.c:832-894 | the smallest register file, and what a change of one dword does to it |
| Firmware.DecodePrefix | qcom/opensource/graphics-kernel/adreno_a5xx.c:896-926 | the decoder takes the longest well-formed prefix |
| Firmware.DecodeThen | qcom/opensource/graphics-kernel/adreno_a5xx.c:896-926 | decoding an encoded sequence gives it back, whatever follows |
| Firmware.EncodingUnique | qcom/opensource/graphics-kernel/adreno_a5xx.c:896-926 | words mean at most one instruction sequence |
| Firmware.ExecuteRegSequence | qcom/opensource/graphics-kernel/adreno_a5xx.c:896-926 | performs exactly the decoded prefix in order, and succeeds iff the words are a sequence of the three instructions |
| Firmware.FullEffect | qcom/opensource/graphics-kernel/adreno_a5xx.c:904-917 | the effect is the one written, at full width, iff no register and no value has an upper half |
| Firmware.UpperHalfLost | qcom/opensource/graphics-kernel/adreno_a5xx.c:910-917 | a complete sequence that writes 0 for 2^32 |
| CrashDump.DecodeEncode | qcom/opensource/graphics-kernel/adreno_a5xx_snapshot.c:1185-1219 | the command processor's reading of the script is the list of its commands |
| CrashDump.ScriptSize | qcom/opensource/graphics-kernel/adreno_a5xx_snapshot.c:1125-1163 | the script takes two qwords a span and four a selected capture |
| CrashDump.EntryWords | qcom/opensource/graphics-kernel/adreno_a5xx_snapshot.c:1052-1105 | the qwords of each kind of entry, bit for bit |
| CrashDump.Sizes | qcom/opensource/graphics-kernel/adreno_a5xx_snapshot.c:1110-1163 | the first pass computes the bytes of script and data, in 32 bits |
| CrashDump.Build | qcom/opensource/graphics-kernel/adreno_a5xx_snapshot.c:1183-1219 | the second pass writes that script with two zero qwords, of the size counted, and stores each block's offset |
| CrashDump.CapturesTile | qcom/opensource/graphics-kernel/adreno_a5xx_snapshot.c:1189-1215 | destinations are disjoint and tile the data buffer |
| CrashDump.ScriptExecutes | qcom/opensource/graphics-kernel/adreno_a5xx_snapshot.c:1052-1105 | running the commands fills the buffer with the captures, each under its own selector, and touches nothing else |
| CrashDump.DumpFillsBuffer | qcom/opensource/graphics-kernel/adreno_a5xx_snapshot.c:1107-1219 | the same from the qwords in memory |
| CrashDump.CaptureAt | qcom/opensource/graphics-kernel/adreno_a5xx_snapshot.c:1072-1100 | a capture's data lie where the captures before it end |
| CrashDump.SnapshotRegisters | qcom/opensource/graphics-kernel/adreno_a5xx_snapshot.c:679-722 | the reader pairs the registers of the spans that fit with the captured dwords in order, and returns four bytes and eight a register, never more than remain, with nothing left out that would fit |
| CrashDump.FittingIsMost | qcom/opensource/graphics-kernel/adreno_a5xx_snapshot.c:679-722 | the spans that fit take eight bytes a register and no more than there are, and the first one left out would not have fitted |
| CrashDump.RegistersReadBack | qcom/opensource/graphics-kernel/adreno_a5xx_snapshot.c:679-722 | every register of the main list comes back with its own value |
| CrashDump.RegistersAre | qcom/opensource/graphics-kernel/adreno_a5xx_snapshot.c:675-722 | these are the registers from the first to the last of each span, each with its own value, and no others |
| CrashDump.GetHlsqRegisters | qcom/opensource/graphics-kernel/adreno_a5xx_snapshot.c:796-808 | the reader pairs the bank's addresses with the dwords at its offset |
| CrashDump.HlsqReadsBack | qcom/opensource/graphics-kernel/adreno_a5xx_snapshot.c:796-808 | those dwords are the bank's registers read under its own selector |
| CrashDump.ShaderReadsBack | qcom/opensource/graphics-kernel/adreno_a5xx_snapshot.c:1052-1080 | every bank of a shader block lies where the script put it, read under the bank's own selector; the stored offset is that of bank 0 |
| CrashDump.ShaderBankOffsets | qcom/opensource/graphics-kernel/adreno_a5xx_snapshot.c:632-637 | the reader's offset of bank j is the writer's iff j is 0 or the block is empty |
| IrqStorm.SuspensionProtocol | qcom/opensource/graphics-kernel/adreno_a5xx.c:2085-2161 | over every run suspended, masked and worker pending coincide, and every ignored interrupt is followed by a schedule or the worker is still due |
| IrqStorm.CountStep | qcom/opensource/graphics-kernel/adreno_a5xx.c:2137-2157 | the counter counts repeats modulo 2^32 and prev is the value seen last |
| IrqStorm.SuspendsAt | qcom/opensource/graphics-kernel/adreno_a5xx.c:2137-2157 | the interrupt is suspended exactly by a repeat whose number since the last new value is 2 modulo 2^32 |
| IrqStorm.SuspensionsApart | qcom/opensource/graphics-kernel/adreno_a5xx.c:2137-2157 | between two suspensions there is a new value or a positive multiple of 2^32 repeats |
| IrqStorm.SuspendsAgain | qcom/opensource/graphics-kernel/adreno_a5xx.c:2137-2157 | after a resumption the n-th repeat suspends again iff n is a multiple of 2^32 |
| IrqStorm.FirstInterrupts | qcom/opensource/graphics-kernel/adreno_a5xx.c:2116-2157 | from the start, a first value of 0 counts as seen before: the second interrupt suspends, with any other value the third |
| IrqStorm.FlushBit | qcom/opensource/graphics-kernel/adreno_a5xx.c:2095-2102 | in the status and mask words the interrupt is bit 20 |
| IrqStorm.Interrupts.CpCallback | qcom/opensource/graphics-kernel/adreno_a5xx.c:2113-2161 | the callback moves the whole state as Callback says and schedules unless ignored or suspending |
| IrqStorm.Interrupts.StormWorker | qcom/opensource/graphics-kernel/adreno_a5xx.c:2085-2111 | clears and reads the status until the first reading without the interrupt, then resumes it and schedules |
| IrqStorm.Interrupts.IrqCallbacks | qcom/opensource/graphics-kernel/adreno.c:439-462 | every set, handled and enabled bit is called back once, highest first |
| IrqStorm.SetBitsExact | qcom/opensource/graphics-kernel/adreno.c:446-458 | taking the highest bit off until nothing is left visits exactly the set bits |
| AhbTimeout.TimeoutBounds | qcom/opensource/graphics-kernel/adreno.c:1915-1954 | a result v is the largest with 2^(v+1) below the NOC timeout, 9 to 30; it respects the minimum iff v < 30 or the minimum is at most 2^31 cycles |
| AhbTimeout.TimeoutExact | qcom/opensource/graphics-kernel/adreno.c:1915-1954 | there is a result iff the NOC timeout is 2 to 2^32 cycles and the greatest power of two below it is at least the minimum or is 2^31 |
| AhbTimeout.TooFast | qcom/opensource/graphics-kernel/adreno.c:1943-1947 | a clock, faster than any listed core's, for which the minimum is not respected |
| AhbTimeout.ListedClocks | qcom/opensource/graphics-kernel/adreno.c:1915-1954 | up to 200 MHz every timeout other than 0 lies between the minimum and the NOC timeout |
| AhbTimeout.GetAhbTimeoutVal | qcom/opensource/graphics-kernel/adreno.c:1917-1954 | the code computes TimeoutVal, for all inputs |
| Touch.ClassifyMeaning | qcom/opensource/fingerprint/qbt_handler.c:330-349 | a touch that begins inside the region is DOWN, one that ends is UP, one that goes on is MOVE, or DOWN for another finger |
| Touch.TouchingMeans | qcom/opensource/fingerprint/qbt_handler.c:254-269 | a touch counts unless it lies left of, right of, above or below the region |
| Touch.SlotStepValid | qcom/opensource/fingerprint/qbt_handler.c:285-366 | a slot is DOWN iff its last event touches inside the region; a MOVE is reported only while DOWN; unreported motion stays within the radius |
| Touch.AnchorFollows | qcom/opensource/fingerprint/qbt_handler.c:271-295 | the cumulative filter decides as if it measured from an anchor |
| Touch.FilterTelescopes | qcom/opensource/fingerprint/qbt_handler.c:271-295 | over any events the deltas are the displacement from the anchor, in int arithmetic, and the reports agree |
| Touch.FirstExcess | qcom/opensource/fingerprint/qbt_handler.c:351-354 | while a finger moves, the first report is the first event further than a radius from the last reported position |
| Touch.FurtherMeans | qcom/opensource/fingerprint/qbt_handler.c:271-295 | of coordinates that do not overflow, "further" means outside the rectangle of the two radii |
| Touch.PassReports | qcom/opensource/fingerprint/qbt_handler.c:351-377 | a pass reports, in slot order, exactly the slots whose event is worth it, each with its finger state and that event's coordinates; nothing without a consumer |
| Touch.PassesValid | qcom/opensource/fingerprint/qbt_handler.c:271-380 | from any state of the invariant, over any inputs, slots, radius bound, INTR2 line and reports still fit together |
| Touch.PassValid | qcom/opensource/fingerprint/qbt_handler.c:297-380 | after every pass the slots, the INTR2 line and the reports fit together |
| Touch.TouchRuns | qcom/opensource/fingerprint/qbt_handler.c:297-380 | over every run: DOWN iff touched inside the region, unreported motion within the radius, low INTR2 means none is DOWN, MOVE only after DOWN |
| Touch.LineAfter | qcom/opensource/fingerprint/qbt_handler.c:356-374 | after any number of slots INTR2 is high iff some slot was DOWN at one of the reports other than MOVE, or as before without such a report |
| Touch.StuckHigh | qcom/opensource/fingerprint/qbt_handler.c:356-374 | a pass leaves INTR2 high with no slot DOWN iff every slot ends lifted and a report came before a later slot that had been DOWN, or none came and it was high |
| Touch.StuckHighFromRight | qcom/opensource/fingerprint/qbt_handler.c:356-374 | when the line agreed with the slots before: iff all end lifted and a report came before a later slot that had been DOWN |
| Touch.LiftedTogether | qcom/opensource/fingerprint/qbt_handler.c:361-374 | lifting two fingers or more in one pass always leaves the line high |
| Touch.TouchDriver.FilterByRadius | qcom/opensource/fingerprint/qbt_handler.c:271-295 | the filter's result and new deltas, other slots untouched |
| Touch.TouchDriver.Work | qcom/opensource/fingerprint/qbt_handler.c:297-380 | the work function is a pass over the slots, in place |
| EventQueue.QueueIsFaithful | qcom/opensource/fingerprint/qbt_handler.c:122-136 | over every run delivered and queued events together are the accepted ones, at most 128 queued |
| EventQueue.StepIsFaithful | qcom/opensource/fingerprint/qbt_handler.c:127-128 | a report is dropped iff 128 are queued |
| EventQueue.ReaderSeesPrefix | qcom/opensource/fingerprint/qbt_handler.c:781-818 | from the start, the reader has seen a prefix of the accepted reports |
| EventQueue.EventFifo.ReportEvent | qcom/opensource/fingerprint/qbt_handler.c:122-136 | the report is appended, or dropped iff the queue is full |
| EventQueue.EventFifo.ReadFd | qcom/opensource/fingerprint/qbt_handler.c:781-805 | one FD read moves the whole queue into its buffer, in order, within 128 |
| ExclusiveOpen.ExclusiveHolder | qcom/opensource/fingerprint/qbt_handler.c:417-461 | over every interleaving the counter is one less holders and uncompensated failures, and at most one thread holds the node |
| ExclusiveOpen.OpensWhenFree | qcom/opensource/fingerprint/qbt_handler.c:417-426 | an open succeeds iff nobody holds the node and no failed opener is still to compensate |

## Left out

- Submission: the ring's read pointer is read once for a whole submission, although the GPU advances it meanwhile; the contents of the profiling slots are not modelled, only the IBs that run them.
- Type 3 packets: opcodes of 0x80 and above are not used, because the type test of adreno_pm4types.h rejects them.
- AddCmds: the submission times, the power scaling hints and the active-context reference counts are not modelled, because they do not reach the ring.
- A3xxRing.AddCmds3: the profiling IBs are parameters, because the profiling code is not part of this model.
- Preemption: only per-process pagetables are modelled; the CONTEXTIDR that travels with a pagetable is written by the streams but not followed.
- Preemption: ring positions count queued actions instead of dwords modulo the ring size; `AllocIsFree` says why an empty and a full ring cannot be confused.
- Preemption: the start-up streams of a restart (ME_INIT, critical packets, GPMU load) are not queued; a restarted ring counts as preemptable.
- Preemption: what user IBs do to memory is not modelled, and the targets of register-to-memory copies are taken to lie outside the scratch page.
- PreemptionThreads: a restart during interleaving, the pagetables (they are followed with handlers as steps), memory barriers and the timers' expiry times.
- Firmware.LoadGpmuFirmware: takes a file of at least one dword, because the code reads the first one before it looks at the size.
- CrashDump: the allocation guards, the legacy path without a valid dump, and the readers of the GPMU registers and of the shader banks' contents above bank 0.
- CrashDump.Build: takes tables whose counts and register numbers fit the fields of a script entry, and buffers as allocated.
- AhbTimeout.TimeoutBounds: takes frequencies and timeouts whose product fits 64 bits, because nothing is promised beyond.
- Touch: how input events fill the slots before a pass, the copy made while no consumer is enabled, timestamps, and the INTR2 test; the INTR2 line is taken as present.
- EventQueue: the blocking of a reader, and events lost when the copy to user space fails.
- ME_INIT, the static register and counter tables, power control, probing, sysfs, coresight and zap shaders.
- A3xx soft fault detection and the active-count wrappers, which would only add easy members.
