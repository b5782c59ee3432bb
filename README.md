# rust-asm execution engine in Dafny

This project models the software CPU of rust-asm (`rust/src/lib.rs`). The engine is a
word-addressed machine, and its memory is a growable list of 2048-word blocks. It
fetches one opcode per step at the instruction pointer `next` and reads its operands
from the words that follow. It then dispatches over opcodes 0 to 24; any other opcode
halts. Finally it advances `next` past the instruction, unless the opcode said not to.

An integer ALU keeps the two most recent operands and the result registers `hi` and
`lo`. A `Program` wraps the processor. It adds a set of breakpoint addresses and a
switch that enables them. It drives the processor through `step`, `run` (used by
`Continue`) and `StepOver`.

The model has two layers:

- **Value level.** Functions give the meaning of each operation, and lemmas prove what
  the source promises about them:
  - `Memory.Read`/`Write`/`Grow`;
  - `Arithmetic.Pushed`/`Added`/`Multiplied`/`Divided`;
  - `Cpu.Executed` for one `Processor::step`;
  - `Debugger.Stepped`/`RunLoop`/`Continued`/`SteppedOver`.
- **Objects.** Classes mirror the source's mutable objects (`Alu`, `Processor`,
  `Program`). Memory blocks are arrays written in place. Every method is proved to
  compute exactly the value-level function, for example
  `Outcome(State(), code) == Executed(old(State()), sys)`.

Words are `u32`/`i32`/`u64` subsets of `int`. The arithmetic is assumed to be a release build's
(wrapping `+`, `as` casts keeping the low bits), written out explicitly. Rust's `/`
rounds toward zero, and Dafny's does not, so `Words.TruncDiv` defines it.

The model follows the source where its comments describe something else:

- Opcodes 1/2 ("relative pointer") and 3/4 ("relative") use the same address.
- `cmp` is empty and `compare_result` starts at 0. So opcode 13 always branches and
  11/12 never do.
- `negate_int`, `alu_to_float`, `alu_to_int`, `get_lo` and `get_hi` change nothing.
- `multiply_int` leaves `hi` at 0, because `(hiMask & bits) as u32` keeps the low 32
  bits.

Where Rust panics, a step ends with `StopCode.Panic(fault)`:

- `/` by zero or `i32::MIN / -1` (`DivideByZero`, `DivideOverflow`);
- the unchecked block index of `_set_memory_loc` (`UnallocatedWrite`).

Modules: `Words`, `Memory`, `Arithmetic` (ALU), `Cpu` (processor), `Debugger` (program
and run control), `Scenarios` (worked runs).

## Model

| member | source | states |
|---|---|---|
| Words.BitsToI32 | rust/src/lib.rs:915-919 | the result is congruent to the bits mod 2^32, and negative exactly when the top bit is set |
| Words.I32ToBits | rust/src/lib.rs:909-913 | the bits are the value mod 2^32; the top bit is set exactly for negative values |
| Words.BitsRoundTrip | rust/src/lib.rs:909-919 | the two transmutes invert each other in both directions |
| Words.WrapI32 | rust/src/lib.rs:826-829 | wrapping `i32` arithmetic: the bits are the exact result mod 2^32, and a result that fits is kept |
| Words.WrapU32 | rust/src/lib.rs:674 | no contract; `x as u32` keeps the low 32 bits, and `OffsetAddress`, `WrapI32` and `AddedIsWrappingSum` state the wrap-around through it |
| Words.OffsetAddress | rust/src/lib.rs:673-676 | `((n as i32) + offset) as u32` equals `(n + offset) mod 2^32` |
| Words.I64ToBits | rust/src/lib.rs:921-925 | the 64-bit pattern is the value mod 2^64 |
| Words.WideMul | rust/src/lib.rs:844-847 | the product of two `i32` widened to `i64` is exact and within ±2^62 |
| Words.TruncDivBounds | rust/src/lib.rs:867-870 | the quotient's magnitude is the largest count of the divisor that fits in the dividend; its sign is the product of the operands' signs |
| Words.TruncDivRemainder | rust/src/lib.rs:867-870 | the remainder is smaller than the divisor and never opposes the dividend's sign |
| Words.TruncDivFits | rust/src/lib.rs:867-870 | whenever Rust's `i32` division does not panic, the quotient is an `i32` |
| Words.TruncDiv | rust/src/lib.rs:868 | no contract; `TruncDivBounds` and `TruncDivRemainder` pin it down as the quotient rounded toward zero |
| Words.DivisionDefined | rust/src/lib.rs:868 | no contract; exactly the operands for which `i32` `/` does not panic, as `Alu.Divide`'s `ok` and `Cpu.AluEffects` state |
| Words.DivI32 | rust/src/lib.rs:867-870 | Rust's `i32` `/` rounds toward zero: `a - q * b` is smaller in magnitude than `b` and is 0 or has the sign of `a` |
| Memory.OffsetOf | rust/src/lib.rs:685 | the offset within a block is below `MEM_SIZE` |
| Memory.RegionOf | rust/src/lib.rs:686 | no contract; `(location as f64 / MEM_SIZE as f64).floor()` is exact for a `u32`, so it is `location / MEM_SIZE`; `SplitInjective` and `AllocatedBelowSize` pin it down |
| Memory.Read | rust/src/lib.rs:684-693 | no contract; `ReadUnallocated`, `ReadAfterWrite`, `ReadAfterWriteElsewhere` and `ReadAfterGrow` pin it down |
| Memory.SplitInjective | rust/src/lib.rs:685-686 | two locations with the same block and offset are equal |
| Memory.ZeroBlock | rust/src/lib.rs:897-902 | a new block has `MEM_SIZE` words, all 0 |
| Memory.Write | rust/src/lib.rs:696-701 | a write keeps the block count and every block's size |
| Memory.Grow | rust/src/lib.rs:544-546 | growing adds exactly one well-formed block |
| Memory.AllocatedBelowSize | rust/src/lib.rs:684-693 | a location has a block exactly when it is below `blocks * MEM_SIZE` |
| Memory.ReadUnallocated | rust/src/lib.rs:689-693 | a location without a block reads 0 |
| Memory.ReadAfterWrite | rust/src/lib.rs:696-701 | reading back a written location gives the written value |
| Memory.ReadAfterWriteElsewhere | rust/src/lib.rs:696-701 | a write leaves every other location's value unchanged |
| Memory.ReadAfterGrow | rust/src/lib.rs:382-385 | growing changes no read; the new block's locations read 0 |
| Memory.GrowAppends | rust/src/lib.rs:544-546 | the old blocks are a prefix, the new last block is zero, and the addressable range grows by one block |
| Memory.NewBlock | rust/src/lib.rs:897-902 | `MemoryBlock::new` allocates a fresh array of `MEM_SIZE` zeros |
| Arithmetic.InitialAlu | rust/src/lib.rs:734-746 | no contract; the state `Alu.constructor` ensures: every field 0, integer mode |
| Arithmetic.Pushed | rust/src/lib.rs:815-818 | no contract; `PushedTwice` states the two-slot shift with the other fields kept |
| Arithmetic.Added | rust/src/lib.rs:826-829 | no contract; `AddedIsWrappingSum` gives `hi` = sum mod 2^32 and `lo` = 0 |
| Arithmetic.Negated | rust/src/lib.rs:836-837 | no contract; `negate_int` is empty, and `Alu.Negate` and `Cpu.AluEffects` (opcode 7) state that nothing changes |
| Arithmetic.MaskLow | rust/src/lib.rs:849-853 | no contract; `loMask & bits`, the low 32 bits; `MultipliedIsLowProduct` states its effect on `lo` |
| Arithmetic.MaskHigh | rust/src/lib.rs:850-852 | no contract; `hiMask & bits`, the high 32 bits in place; `MultipliedIsLowProduct` shows that the `as u32` after it leaves 0 |
| Arithmetic.Multiplied | rust/src/lib.rs:844-854 | no contract; `MultipliedIsLowProduct` gives `hi` = 0 and `lo` = product mod 2^32, and `MultiplyLosesUpperHalf` shows the loss |
| Arithmetic.Divided | rust/src/lib.rs:867-870 | no contract; `DividedIsTruncatedQuotient` gives `hi` = quotient rounded toward zero and `lo` = 0 |
| Arithmetic.PushedTwice | rust/src/lib.rs:815-818 | two pushes fill both slots (the latest in `valueA`) and touch no other field |
| Arithmetic.AddedIsWrappingSum | rust/src/lib.rs:826-829 | `hi` is the sum mod 2^32 (the exact sum when it fits), `lo` is 0, and the operands are kept |
| Arithmetic.MultipliedIsLowProduct | rust/src/lib.rs:844-854 | as written, `hi` is 0 and `lo` is the product mod 2^32 |
| Arithmetic.MultiplyLosesUpperHalf | rust/src/lib.rs:844-854 | 65536 × 65536 leaves both `hi` and `lo` at 0, so the upper half of the product is lost |
| Arithmetic.DividedIsTruncatedQuotient | rust/src/lib.rs:867-870 | `hi` is the quotient rounded toward zero, with a remainder smaller than the divisor; `lo` is 0 |
| Arithmetic.Alu.constructor | rust/src/lib.rs:734-746 | `ALU::new` zeroes every field and selects integer mode |
| Arithmetic.Alu.PushValue | rust/src/lib.rs:776-781 | in integer mode, the fields become `Pushed` of the old ones |
| Arithmetic.Alu.Add | rust/src/lib.rs:783-788 | in integer mode, the fields become `Added` of the old ones |
| Arithmetic.Alu.Negate | rust/src/lib.rs:790-795 | in integer mode, nothing changes |
| Arithmetic.Alu.Multiply | rust/src/lib.rs:797-802 | in integer mode, the fields become `Multiplied` of the old ones |
| Arithmetic.Alu.Divide | rust/src/lib.rs:804-809 | `ok` is false exactly where Rust panics; otherwise the fields become `Divided` of the old ones |
| Arithmetic.Alu.Cmp | rust/src/lib.rs:811-812 | `cmp` changes nothing, so `compare_result` is never written |
| Cpu.StatusCodeIsEncoding | rust/src/lib.rs:74-83 | status codes are 0 to 4, and distinct statuses get distinct codes |
| Cpu.StatusCode | rust/src/lib.rs:76-82 | no contract; `StatusCodeIsEncoding` states the 0 to 4 range and injectivity |
| Cpu.InitialState | rust/src/lib.rs:220-238 | no contract; `InitialStateInvariant` gives status `Empty`, one block and the invariant, and `Processor.constructor` is proved equal to it |
| Cpu.Param | rust/src/lib.rs:240-246 | no contract; the first operand `getParam` fetches, at `next + 1`; `Processor.GetParam` and `BusEffects` state its use |
| Cpu.Fetched | rust/src/lib.rs:240-246 | no contract; the counter increment of one `getParam`; `StepAdvancesPastOperands` states its effect on the advance |
| Cpu.Stored | rust/src/lib.rs:696-701 | no contract; `StoreEffects` gives the write when the block exists and the panic otherwise |
| Cpu.StoreTarget | rust/src/lib.rs:339-406 | no contract; relative for 2/4 and absolute for 19, as `StoreEffects` states |
| Cpu.LoadedBus | rust/src/lib.rs:335-410 | no contract; `BusEffects` states the bus for each of 1, 3, 15, 18 and 20 |
| Cpu.AluDispatched | rust/src/lib.rs:351-365 | no contract; `AluEffects` states the ALU and the panics for each of 5 to 9 |
| Cpu.Branched | rust/src/lib.rs:370-381 | no contract; `BranchIfZeroAlwaysTaken` and `SignBranchesNeverTaken` state what it does under the invariant |
| Cpu.ControlDispatched | rust/src/lib.rs:334-426 | no contract; `JumpIsRelativeToBus` and `StatusEffects` state its jump, halt, pause and inert arms |
| Cpu.Finished | rust/src/lib.rs:429-433 | no contract; `StepAdvancesPastOperands` and `JumpIsRelativeToBus` state the advance and its suppression |
| Cpu.Near | rust/src/lib.rs:455-460 | the relative opcodes address `next` plus the signed operand, mod 2^32 |
| Cpu.Dispatched | rust/src/lib.rs:333-427 | the `match op` keeps memory well formed and never changes the ALU mode |
| Cpu.Executed | rust/src/lib.rs:258-436 | one step keeps memory well formed and the ALU in integer mode |
| Cpu.InitialStateInvariant | rust/src/lib.rs:220-238 | `Processor::new` gives status `Empty` and one block, and satisfies the invariant |
| Cpu.ExecutedKeepsInvariant | rust/src/lib.rs:258-436 | every step keeps integer mode and `compare_result == 0`, since 21/22 are empty and nothing writes `compare_result` |
| Cpu.StepAdvancesPastOperands | rust/src/lib.rs:429-433 | every opcode but 10 and 13 moves `next` by its operand count + 1 (2 for 1–4, 11, 12, 15, 18–20; 1 otherwise, halt and pause included); a panic leaves `next` |
| Cpu.JumpIsRelativeToBus | rust/src/lib.rs:366-369 | opcode 10 sets `next` to `next` + signed bus with no auto-advance and changes nothing else |
| Cpu.BranchIfZeroAlwaysTaken | rust/src/lib.rs:378-381 | opcode 13 always branches: `next' = next + signed operand + 2` |
| Cpu.SignBranchesNeverTaken | rust/src/lib.rs:370-377 | opcodes 11 and 12 never branch: `next' = next + 2` |
| Cpu.RelativePointerIsDirect | rust/src/lib.rs:439-467 | opcodes 1 and 3, and 2 and 4, have identical effects: no indirection |
| Cpu.BusEffects | rust/src/lib.rs:335-410 | the bus after each opcode: a relative read for 1/3, an absolute read for 18, the host's answer for 15, the operand for 20, unchanged otherwise |
| Cpu.StoreEffects | rust/src/lib.rs:339-406 | stores write the bus at their target when its block exists; otherwise they panic with memory unchanged |
| Cpu.MemoryEffects | rust/src/lib.rs:333-427 | opcode 14 appends one zero block; no opcode outside 2, 4, 14, 19 touches memory |
| Cpu.AluEffects | rust/src/lib.rs:351-365 | 5/6/8/9 apply push/add/multiply/divide; 9 panics exactly on a zero divisor or on overflow (a legal division gives no stop code); 7 and all other opcodes leave the ALU alone |
| Cpu.StatusEffects | rust/src/lib.rs:333-427 | Halt exactly for 16 and opcodes above 24, Pause exactly for 17, with the matching status; panics only from 2, 4, 9, 19; otherwise the status is kept |
| Cpu.Processor.constructor | rust/src/lib.rs:220-238 | the fields equal `InitialState()` |
| Cpu.Processor.GetParam | rust/src/lib.rs:240-246 | increments the operand counter and returns the word at `next` + counter |
| Cpu.Processor.DontMoveParamPointer | rust/src/lib.rs:248-250 | sets `perStepDontMove` |
| Cpu.Processor.ResetPerStep | rust/src/lib.rs:252-255 | zeroes the operand counter and clears `perStepDontMove` |
| Cpu.Processor.GetMemoryLoc | rust/src/lib.rs:684-693 | returns `Read(blocks, location)`: the stored word, or 0 without a block |
| Cpu.Processor.SetMemoryLoc | rust/src/lib.rs:696-701 | writes the array in place; `ok` exactly when the block exists, and the contents become `Write(...)` |
| Cpu.Processor.RGetMemory | rust/src/lib.rs:673-676 | reads at `location + offset` mod 2^32 |
| Cpu.Processor.RSetMemory | rust/src/lib.rs:678-681 | writes at `location + offset` mod 2^32 |
| Cpu.Processor.AddRegion | rust/src/lib.rs:544-546 | appends the array; the contents gain its words |
| Cpu.Processor.LoadLocationRelativePointer | rust/src/lib.rs:439-444 | the bus gets the word at `next` + signed offset |
| Cpu.Processor.SetLocationRelativePointer | rust/src/lib.rs:447-452 | stores the bus at `next` + signed offset |
| Cpu.Processor.LoadLocationRelative | rust/src/lib.rs:455-459 | the bus gets the word at `next` + signed offset |
| Cpu.Processor.SetLocationRelative | rust/src/lib.rs:462-467 | stores the bus at `next` + signed offset |
| Cpu.Processor.PushToAlu | rust/src/lib.rs:470-472 | pushes the signed bus onto the ALU |
| Cpu.Processor.Jump | rust/src/lib.rs:497-500 | `next` moves by the signed bus, mod 2^32 |
| Cpu.Processor.Bgz | rust/src/lib.rs:503-514 | branches exactly when `compare_result > 0`; returns 0 if taken, else 2 |
| Cpu.Processor.Blz | rust/src/lib.rs:516-527 | branches exactly when `compare_result < 0`; returns 0 if taken, else 2 |
| Cpu.Processor.Bez | rust/src/lib.rs:529-539 | branches exactly when `compare_result == 0`; returns 0 if taken, else 2 |
| Cpu.Processor.Syscall | rust/src/lib.rs:549-553 | the bus becomes the host's answer to (signed bus, signed operand) |
| Cpu.Processor.LoadLocation | rust/src/lib.rs:555-557 | the bus gets the word at the location |
| Cpu.Processor.SetLocation | rust/src/lib.rs:560-563 | stores the bus at the location when its block exists |
| Cpu.Processor.LoadImmediate | rust/src/lib.rs:566-568 | the bus gets the operand |
| Cpu.Processor.Step | rust/src/lib.rs:258-436 | the new fields and the stop code are `Executed` of the old fields; new arrays are fresh |
| Cpu.Processor.Dispatch | rust/src/lib.rs:333-427 | the new fields and the stop code are `Dispatched` of the old fields |
| Cpu.Processor.DispatchLoadOp | rust/src/lib.rs:335-410 | the arms 1 (335), 3 (343), 15 (386-390), 18 (399-402) and 20 (407-410): one operand fetched; the bus is `LoadedBus` |
| Cpu.Processor.DispatchSetLocation | rust/src/lib.rs:403-406 | stores at the operand, or panics with memory unchanged when its block is missing |
| Cpu.Processor.DispatchRelativeStore | rust/src/lib.rs:339-350 | stores at `Near`, or panics with memory unchanged when its block is missing |
| Cpu.Processor.DispatchAluOp | rust/src/lib.rs:351-365 | the outcome is `AluDispatched` |
| Cpu.Processor.DispatchBranchOp | rust/src/lib.rs:370-381 | the new fields are `Branched` |
| Cpu.Processor.DispatchControlOp | rust/src/lib.rs:334-426 | the arms 0 (334), 10 (366-369), 16/17 (391-398), 21-24 (411-422) and `_` (423-426): the outcome is `ControlDispatched` (jump, halt, pause, inert opcodes, unknown opcodes halt) |
| Debugger.Stepped | rust/src/lib.rs:126-150 | a step keeps the processor ready |
| Debugger.RunLoop | rust/src/lib.rs:120-121 | the loop keeps the processor ready |
| Debugger.Iterated | rust/src/lib.rs:120-121 | one iteration followed by the rest of the loop keeps the processor ready |
| Debugger.Continued | rust/src/lib.rs:112-124 | `run` keeps the processor ready |
| Debugger.SteppedOver | rust/src/lib.rs:176-188 | `StepOver` keeps the processor ready |
| Debugger.InitialMachine | rust/src/lib.rs:196-205 | no contract; `Program.constructor` is proved equal to it, and `InitializedProgram` starts from it |
| Debugger.Initialized | rust/src/lib.rs:61-65 | no contract; `InitializedProgram` and `InitializedKeepsInvariant` state what `r_Initialize` gives |
| Debugger.WithBreakpoint | rust/src/lib.rs:158-163 | no contract; `BreakpointEdits` states insertion, idempotence and the frame on other points |
| Debugger.WithoutBreakpoint | rust/src/lib.rs:165-170 | no contract; `BreakpointEdits` and `RemovedBreakpointExecutes` state deletion and its effect on the next step |
| Debugger.AtBreakpoint | rust/src/lib.rs:128-129 | no contract; `BreakpointStopsBefore` and `StepExecutesAwayFromBreakpoint` state both outcomes of the test |
| Debugger.InitializedProgram | rust/src/lib.rs:61-65 | `Program::new` then `r_Initialize` gives `NotStarted`, two zero blocks, `next == 1` and no breakpoints |
| Debugger.BreakpointEdits | rust/src/lib.rs:158-170 | set/remove are idempotent insert/delete, removal undoes a fresh insert, and other points are untouched |
| Debugger.BreakpointStopsBefore | rust/src/lib.rs:128-133 | at an enabled breakpoint, `step` returns true and only the status changes, to `Paused` |
| Debugger.StepExecutesAwayFromBreakpoint | rust/src/lib.rs:135-149 | otherwise `step` is one processor step; it returns true exactly on Halt or Pause |
| Debugger.RemovedBreakpointExecutes | rust/src/lib.rs:165-170 | after the current breakpoint is removed, the next `step` executes the instruction |
| Debugger.RunLoopEndStatus | rust/src/lib.rs:120-121 | a loop that exits ends `Paused` or `Halted`; one that runs out of fuel or panics is still `Running`; breakpoints are kept |
| Debugger.ContinuedEndStatus | rust/src/lib.rs:112-124 | `run` leaves a halted or empty program alone; otherwise the loop's end status holds |
| Debugger.RunLoopKeepsInvariant | rust/src/lib.rs:120-121 | every run keeps integer mode and `compare_result == 0` |
| Debugger.InitializedKeepsInvariant | rust/src/lib.rs:61-65 | `r_Initialize` from any state satisfying the invariant keeps integer mode and `compare_result == 0` |
| Debugger.SteppedKeepsInvariant | rust/src/lib.rs:126-150 | `step` keeps integer mode and `compare_result == 0`, at a breakpoint or not |
| Debugger.ContinuedKeepsInvariant | rust/src/lib.rs:112-124 | `run` keeps integer mode and `compare_result == 0`, so after `Continue` 13 still always branches and 11/12 never do |
| Debugger.SteppedOverKeepsInvariant | rust/src/lib.rs:176-188 | `StepOver` keeps integer mode and `compare_result == 0` |
| Debugger.RunLoopFuelIrrelevant | rust/src/lib.rs:120-121 | a loop that exits within the fuel gives the same result with any larger fuel |
| Debugger.ContinueAtBreakpointIsStuck | rust/src/lib.rs:128-133 | continuing at an enabled breakpoint executes nothing and just pauses |
| Debugger.SteppedOverEffects | rust/src/lib.rs:176-188 | `Paused`: one step; `NotStarted`: one step, then `Paused` even after a halt; any other status: nothing |
| Debugger.Program.constructor | rust/src/lib.rs:195-205 | the fields equal `InitialMachine()` |
| Debugger.Program.Initialize | rust/src/lib.rs:61-65 | the fields become `Initialized` of the old ones |
| Debugger.Program.SetBreakpoint | rust/src/lib.rs:158-163 | the fields become `WithBreakpoint` |
| Debugger.Program.RemoveBreakpoint | rust/src/lib.rs:165-170 | the fields become `WithoutBreakpoint` |
| Debugger.Program.EnableBreakpoints | rust/src/lib.rs:86-90 | sets the switch |
| Debugger.Program.DisableBreakpoints | rust/src/lib.rs:92-96 | clears the switch |
| Debugger.Program.Step | rust/src/lib.rs:126-150 | the new fields and the result are `Stepped` of the old fields |
| Debugger.Program.Run | rust/src/lib.rs:112-124 | the new fields and the result are `Continued` of the old fields |
| Debugger.Program.StepUntilStopped | rust/src/lib.rs:120-121 | the loop computes `RunLoop` of the old fields |
| Debugger.Program.StepOnce | rust/src/lib.rs:120-121 | one iteration leaves the rest of the run unchanged |
| Debugger.Program.StepOver | rust/src/lib.rs:176-188 | the new fields and the result are `SteppedOver` of the old fields |
| Scenarios.AddProgram | rust/src/lib.rs:351-357 | `[20,5][5][20,3][5][6][16]` ends with `hi = 8`, `lo = 0`, `bus = 3`, halted at 9 |
| Scenarios.LoadImmediateStep | rust/src/lib.rs:407-410 | opcode 20 sets the bus to the operand and advances by 2 |
| Scenarios.PushStep | rust/src/lib.rs:351-353 | opcode 5 pushes the signed bus and advances by 1 |
| Scenarios.AddStep | rust/src/lib.rs:354-356 | opcode 6 adds and advances by 1 |
| Scenarios.HaltStep | rust/src/lib.rs:391-394 | opcode 16 halts and still advances by 1 |
| Scenarios.SixTimesSeven | rust/src/lib.rs:844-854 | 6 × 7 gives `hi = 0`, `lo = 42` |
| Scenarios.StepOverHaltPauses | rust/src/lib.rs:182-185 | `StepOver` on a not-started halt leaves the program `Paused` |

## Left out

- The `r_*` FFI exports and `#[no_mangle]` glue (rust/src/lib.rs:40-106) only forward to the modelled
  operations. `r_GetInstructionPointer`, `r_GetMemoryBlockSize` and `r_GetWasmMemoryLocation` are
  not modelled; the status numbering of `r_GetProcessorStatus` is `Cpu.StatusCode`.
- `js_syscall` and `syscall` (rust/src/lib.rs:36-38, 152-156) call into the host. The host is the
  function parameter `sys` (type `Cpu.Host`), and its answer is written to the bus. The model
  assumes a host whose answer depends only on (code, argument): one fixed `sys` serves every step
  of a run, so a host with its own state (an input stream, a clock) is not represented. Nor are
  host writes into engine memory, through `r_GetWasmMemoryLocation` addresses, during a call.
- The `lazy_static` `Mutex` singleton (rust/src/lib.rs:108-110) only serializes access. An
  explicit `Program` object stands in for it; concurrency is not modelled.
- `_get_pointer` (rust/src/lib.rs:704-714) returns a host memory address and has no machine
  semantics.
- The float ALU paths (`push_float`, `add_float`, `multiply_float`, `divide_float`, the `mode_*`
  conversions) are floating point. `step` cannot reach them, because no opcode changes `mode`
  (`Cpu.ExecutedKeepsInvariant`).
- Arithmetic.Alu.PushValue, Arithmetic.Alu.Add, Arithmetic.Alu.Negate, Arithmetic.Alu.Multiply,
  Arithmetic.Alu.Divide: these require integer mode. The float branch of each `match self.mode` is
  not modelled.
- The commented-out `print`/`open_file`/`dump` code is file and console I/O.
- Debug builds panic on overflow where release builds wrap. The model assumes a release build,
  so `+` wraps.
- After a panic, nothing is modelled. A panicking step returns the state at the panic point with
  `StopCode.Panic`; in WebAssembly it aborts the module.
- Debugger.Program.Run, Debugger.Program.StepUntilStopped, Debugger.RunLoop, Debugger.Continued:
  `run` may loop forever. The model runs at most `fuel` steps and reports `OutOfFuel` when the
  budget is exhausted. `RunLoopFuelIrrelevant` shows that the budget does not change a run that
  finishes.
- Debugger.Program.Step: the source's `step` returns a `bool`. The model returns `Proceed` for
  false, `Stopped` for true, and `Trapped` for a panic.
- The `Processor::step` opcode comments (absolute and pointer addressing for 1–8, 14 putting an
  address on the bus, 21–26 moving between modes, reading `hi`/`lo` and converting) disagree with
  the code. The model follows the code.
