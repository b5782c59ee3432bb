/** The processor: fetch, decode and execute one instruction. `Executed` is
    the value-level meaning of `Processor::step`; class `Processor` is the
    source's mutable object, and its `Step` is proved to compute exactly
    `Executed`. The lemmas state what one step does, opcode by opcode. */
module Cpu {
  import opened Words
  import opened Memory
  import opened Arithmetic

  datatype Status = Paused | Halted | NotStarted | Running | Empty

  /** The numbers `r_GetProcessorStatus` hands to the host. */
  function StatusCode(s: Status): int
  {
    match s
    case Paused => 0
    case Halted => 1
    case NotStarted => 2
    case Running => 3
    case Empty => 4
  }

  /** The host can tell every status from its number, and the numbers are
      0 to 4. */
  lemma StatusCodeIsEncoding(a: Status, b: Status)
    ensures 0 <= StatusCode(a) <= 4
    ensures StatusCode(a) == StatusCode(b) ==> a == b
  {
  }

  /** Why a step panicked: Rust's `/` on `i32`, or the unchecked block index
      of `_set_memory_loc`. */
  datatype Fault = DivideByZero | DivideOverflow | UnallocatedWrite(location: u32)

  /** The source's `StopCode` (`Pause`, `Halt`, `None`) plus `Panic`, which
      stands for a Rust panic raised during the step. */
  datatype StopCode = Pause | Halt | None | Panic(fault: Fault)

  /** The host's `js_syscall(code, argument)`; the engine never interprets it. */
  type Host = (i32, i32) -> i32

  /** The fields of `Processor`, with the address space as block contents. */
  datatype ProcState = ProcState(
    bus: u32,
    alu: AluState,
    next: u32,
    status: Status,
    mem: seq<seq<u32>>,
    perStepParamPointer: u32,
    perStepDontMove: bool)

  /** The new processor fields after one step, and the step's stop code. */
  datatype Outcome = Outcome(state: ProcState, code: StopCode)

  /** What a step needs: well-formed blocks and the ALU in integer mode (the
      float paths are not modelled). */
  predicate Ready(s: ProcState)
  {
    WellFormed(s.mem) && s.alu.mode == Int
  }

  /** What holds in every state the engine can reach: nothing ever writes
      `mode` or `compare_result`, so they keep their initial values. */
  predicate Invariant(s: ProcState)
  {
    Ready(s) && s.alu.compareResult == 0
  }

  /** `Processor::new`: bus 0, instruction pointer 1, one zeroed block,
      status `Empty`. */
  function InitialState(): ProcState
  {
    ProcState(0, InitialAlu(), 1, Empty, [ZeroBlock()], 0, false)
  }

  /** The opcodes that set the bus from an operand or from memory. */
  const LOAD_OPS: set<u32> := {1, 3, 15, 18, 20}
  /** The opcodes that store the bus in memory. */
  const STORE_OPS: set<u32> := {2, 4, 19}
  /** The opcodes that drive the ALU. */
  const ALU_OPS: set<u32> := {5, 6, 7, 8, 9}

  /** The number of operands each opcode fetches with `getParam`. */
  function OperandCount(op: u32): nat
  {
    if op in {1, 2, 3, 4, 11, 12, 13, 15, 18, 19, 20} then 1 else 0
  }

  /** The word at `next + 1`, which `getParam` fetches first. */
  function Param(s: ProcState): u32
    requires WellFormed(s.mem)
  {
    Read(s.mem, WrapU32(s.next + 1))
  }

  /** The location the relative opcodes use: the instruction pointer plus the
      signed operand. */
  function Near(s: ProcState): (a: u32)
    requires WellFormed(s.mem)
    ensures a == WrapU32(s.next + BitsToI32(Param(s)))
  {
    OffsetAddress(s.next, BitsToI32(Param(s)))
  }

  /** The bookkeeping of one `getParam` call that fetched `Param(r)`. */
  function Fetched(r: ProcState): ProcState
  {
    r.(perStepParamPointer := WrapU32(r.perStepParamPointer + 1))
  }

  /** A one-operand store of the bus at `target`; the source panics on the
      unchecked block index when the block does not exist. */
  function Stored(r: ProcState, target: u32): Outcome
    requires WellFormed(r.mem)
  {
    if RegionOf(target) < |r.mem| then Outcome(Fetched(r).(mem := Write(r.mem, target, r.bus)), None)
    else Outcome(Fetched(r), Panic(UnallocatedWrite(target)))
  }

  /** The bus value a load-group opcode produces: opcodes 1 and 3 read at the
      same instruction-relative address, 15 asks the host, 18 reads at an
      absolute location and 20 takes the operand itself. */
  function LoadedBus(r: ProcState, op: u32, sys: Host): u32
    requires WellFormed(r.mem) && op in LOAD_OPS
  {
    match op
    case 1 => Read(r.mem, Near(r))
    case 3 => Read(r.mem, Near(r))
    case 15 => I32ToBits(sys(BitsToI32(r.bus), BitsToI32(Param(r))))
    case 18 => Read(r.mem, Param(r))
    case 20 => Param(r)
  }

  /** The location a store-group opcode writes: relative for 2 and 4, the
      operand itself for 19. */
  function StoreTarget(r: ProcState, op: u32): u32
    requires WellFormed(r.mem) && op in STORE_OPS
  {
    if op == 19 then Param(r) else Near(r)
  }

  /** The ALU opcodes; division panics where Rust's `/` does. */
  function AluDispatched(r: ProcState, op: u32): Outcome
    requires op in ALU_OPS
  {
    match op
    case 5 => Outcome(r.(alu := Pushed(r.alu, BitsToI32(r.bus))), None)
    case 6 => Outcome(r.(alu := Added(r.alu)), None)
    case 7 => Outcome(r.(alu := Negated(r.alu)), None)
    case 8 => Outcome(r.(alu := Multiplied(r.alu)), None)
    case 9 =>
      if DivisionDefined(r.alu.valueA, r.alu.valueB) then Outcome(r.(alu := Divided(r.alu)), None)
      else Outcome(r, Panic(if r.alu.valueB == 0 then DivideByZero else DivideOverflow))
  }

  /** The three conditional branches: each fetches its operand and moves to
      the relative target when `compare_result` has the tested sign. */
  function Branched(r: ProcState, op: u32): ProcState
    requires WellFormed(r.mem) && 11 <= op <= 13
  {
    var c := r.alu.compareResult;
    var taken := if op == 11 then c > 0 else if op == 12 then c < 0 else c == 0;
    Fetched(r).(next := if taken then Near(r) else r.next)
  }

  /** The remaining opcodes: no-op (0), jump (10), halt (16), pause (17), the
      inert 21 to 24, and every unknown opcode, which halts. */
  function ControlDispatched(r: ProcState, op: u32): Outcome
  {
    if op == 10 then Outcome(r.(next := OffsetAddress(r.next, BitsToI32(r.bus)), perStepDontMove := true), None)
    else if op == 16 || op > 24 then Outcome(r.(status := Halted), Halt)
    else if op == 17 then Outcome(r.(status := Paused), Pause)
    else Outcome(r, None)
  }

  /** The `match op` of `Processor::step`, run on the processor `r` after
      `resetPerStep`, grouped by what the opcodes touch. */
  function Dispatched(r: ProcState, op: u32, sys: Host): (o: Outcome)
    requires WellFormed(r.mem)
    ensures WellFormed(o.state.mem) && o.state.alu.mode == r.alu.mode
  {
    if op == 14 then Outcome(r.(mem := Grow(r.mem)), None)
    else if op in LOAD_OPS then Outcome(Fetched(r).(bus := LoadedBus(r, op, sys)), None)
    else if op in STORE_OPS then Stored(r, StoreTarget(r, op))
    else if op in ALU_OPS then AluDispatched(r, op)
    else if 11 <= op <= 13 then Outcome(Branched(r, op), None)
    else ControlDispatched(r, op)
  }

  /** The end of `Processor::step`: unless the opcode suppressed it, `next`
      moves past the instruction and the operands it fetched. A panic leaves
      the step before this point. */
  function Finished(o: Outcome): Outcome
  {
    if o.code.Panic? || o.state.perStepDontMove then o
    else o.(state := o.state.(next := WrapU32(o.state.next + o.state.perStepParamPointer + 1)))
  }

  /** One `Processor::step`: reset the per-step counters, fetch the opcode at
      `next`, dispatch, advance. */
  function Executed(s: ProcState, sys: Host): (o: Outcome)
    requires Ready(s)
    ensures Ready(o.state)
  {
    var r := s.(perStepParamPointer := 0, perStepDontMove := false);
    Finished(Dispatched(r, Read(s.mem, s.next), sys))
  }

  /** The processor `Processor::new` builds satisfies the invariant. */
  lemma InitialStateInvariant()
    ensures Invariant(InitialState())
    ensures InitialState().status == Empty && |InitialState().mem| == 1
  {
  }

  /** Every step keeps the invariant: in particular the ALU stays in integer
      mode and `compare_result` stays 0. */
  lemma ExecutedKeepsInvariant(s: ProcState, sys: Host)
    requires Invariant(s)
    ensures Invariant(Executed(s, sys).state)
  {
  }

  /** Every opcode but the jump (10) and the always-taken branch (13) moves the
      instruction pointer past itself and the operands it fetched, unless it
      panicked, in which case the pointer stays. */
  lemma StepAdvancesPastOperands(s: ProcState, sys: Host)
    requires Invariant(s)
    requires Read(s.mem, s.next) != 10 && Read(s.mem, s.next) != 13
    ensures var o := Executed(s, sys); var op := Read(s.mem, s.next);
      if o.code.Panic? then o.state.next == s.next
      else o.state.next == WrapU32(s.next + OperandCount(op) + 1) &&
           o.state.perStepParamPointer == OperandCount(op) && !o.state.perStepDontMove
  {
  }

  /** Opcode 10 adds the signed bus to the instruction pointer and suppresses
      the auto-advance. */
  lemma JumpIsRelativeToBus(s: ProcState, sys: Host)
    requires Ready(s) && Read(s.mem, s.next) == 10
    ensures var o := Executed(s, sys);
      o.state.next == WrapU32(s.next + BitsToI32(s.bus)) && o.state.perStepDontMove &&
      o.code == None && o.state.(next := s.next, perStepDontMove := s.perStepDontMove, perStepParamPointer := s.perStepParamPointer) == s
  {
  }

  /** `wrap(wrap(x) + k) == wrap(x + k)`. */
  lemma WrapAdd(x: int, k: int)
    ensures WrapU32(WrapU32(x) + k) == WrapU32(x + k)
  {
    var q := x / TWO_32;
    assert x == q * TWO_32 + WrapU32(x);
    assert (x + k) == (WrapU32(x) + k) + q * TWO_32;
    ModAddMultiple(WrapU32(x) + k, q);
  }

  lemma ModAddMultiple(y: int, q: int)
    ensures (y + q * TWO_32) % TWO_32 == y % TWO_32
  {
  }

  /** As `compare_result` stays 0, opcode 13 always branches: afterwards the
      pointer is the instruction's address plus the signed operand, plus the
      auto-advance of 2 the source still applies. */
  lemma BranchIfZeroAlwaysTaken(s: ProcState, sys: Host)
    requires Invariant(s) && Read(s.mem, s.next) == 13
    ensures Executed(s, sys).state.next == WrapU32(s.next + BitsToI32(Param(s)) + 2)
    ensures Executed(s, sys).code == None
  {
    var r := s.(perStepParamPointer := 0, perStepDontMove := false);
    assert Param(r) == Param(s) && Near(r) == Near(s);
    var o := Dispatched(r, 13, sys);
    assert o == Outcome(Branched(r, 13), None);
    assert o.state.next == Near(s) && o.state.perStepParamPointer == 1 && !o.state.perStepDontMove;
    assert Executed(s, sys) == Finished(o);
    WrapAdd(s.next + BitsToI32(Param(s)), 2);
  }

  /** ...and opcodes 11 and 12 never branch: they only skip their operand. */
  lemma SignBranchesNeverTaken(s: ProcState, sys: Host)
    requires Invariant(s) && (Read(s.mem, s.next) == 11 || Read(s.mem, s.next) == 12)
    ensures Executed(s, sys).state.next == WrapU32(s.next + 2)
  {
  }

  /** Opcodes 1/2 ("relative pointer") do exactly what opcodes 3/4
      ("relative") do: the operand is an offset from the instruction pointer
      and the word there is the one loaded or overwritten, with no
      indirection through it. */
  lemma RelativePointerIsDirect(r: ProcState, sys: Host)
    requires WellFormed(r.mem)
    ensures Dispatched(r, 1, sys) == Dispatched(r, 3, sys)
    ensures Dispatched(r, 2, sys) == Dispatched(r, 4, sys)
  {
  }

  /** What each opcode does to the bus: it is only written by the loads
      (1, 3, 18), the syscall (15) and load-immediate (20). */
  lemma BusEffects(s: ProcState, sys: Host)
    requires Ready(s)
    ensures var o := Executed(s, sys); var op := Read(s.mem, s.next);
      (op in {1, 3} ==> o.state.bus == Read(s.mem, Near(s))) &&
      (op == 18 ==> o.state.bus == Read(s.mem, Param(s))) &&
      (op == 15 ==> o.state.bus == I32ToBits(sys(BitsToI32(s.bus), BitsToI32(Param(s))))) &&
      (op == 20 ==> o.state.bus == Param(s)) &&
      (op !in {1, 3, 15, 18, 20} ==> o.state.bus == s.bus)
  {
  }

  /** What the stores (2, 4, 19) do: write the bus at their target when its
      block exists, and otherwise panic with memory unchanged. Opcode 19
      targets its operand, 2 and 4 the operand's offset from `next`. */
  lemma StoreEffects(s: ProcState, sys: Host)
    requires Ready(s)
    requires Read(s.mem, s.next) in STORE_OPS
    ensures var o := Executed(s, sys); var op := Read(s.mem, s.next);
      var target := if op == 19 then Param(s) else Near(s);
      (RegionOf(target) < |s.mem| ==>
         o.state.mem == Write(s.mem, target, s.bus) && o.code == None) &&
      (RegionOf(target) >= |s.mem| ==>
         o.state.mem == s.mem && o.code == Panic(UnallocatedWrite(target)))
  {
  }

  /** Outside the stores, only grow (14) touches memory, appending one
      zeroed block. */
  lemma MemoryEffects(s: ProcState, sys: Host)
    requires Ready(s)
    ensures var o := Executed(s, sys); var op := Read(s.mem, s.next);
      (op == 14 ==> o.state.mem == Grow(s.mem)) &&
      (op !in {2, 4, 14, 19} ==> o.state.mem == s.mem)
  {
  }

  /** What each opcode does to the ALU: push, add, negate, multiply and divide
      (5 to 9) apply the corresponding integer operation, division panicking
      where Rust's does; every other opcode leaves the ALU alone, so
      21/22 never change its mode and 23/24 never read it. */
  lemma AluEffects(s: ProcState, sys: Host)
    requires Ready(s)
    ensures var o := Executed(s, sys); var op := Read(s.mem, s.next);
      (op == 5 ==> o.state.alu == Pushed(s.alu, BitsToI32(s.bus))) &&
      (op == 6 ==> o.state.alu == Added(s.alu)) &&
      (op == 7 ==> o.state.alu == s.alu) &&
      (op == 8 ==> o.state.alu == Multiplied(s.alu)) &&
      (op == 9 && DivisionDefined(s.alu.valueA, s.alu.valueB) ==> o.state.alu == Divided(s.alu) && o.code == None) &&
      (op == 9 && s.alu.valueB == 0 ==> o.code == Panic(DivideByZero)) &&
      (op == 9 && s.alu.valueB == -1 && s.alu.valueA == -TWO_31 ==> o.code == Panic(DivideOverflow)) &&
      (op !in {5, 6, 8, 9} ==> o.state.alu == s.alu)
  {
  }

  /** Status and stop code: 16 and every opcode above 24 halt, 17 pauses, and
      no other step changes the status. A step panics only in the cases
      above. */
  lemma StatusEffects(s: ProcState, sys: Host)
    requires Ready(s)
    ensures var o := Executed(s, sys); var op := Read(s.mem, s.next);
      (o.code == Halt <==> (op == 16 || op > 24)) &&
      (o.code == Pause <==> op == 17) &&
      (o.code == Halt ==> o.state.status == Halted) &&
      (o.code == Pause ==> o.state.status == Paused) &&
      (o.code.Panic? ==> op in {2, 4, 9, 19}) &&
      (o.code == None || o.code.Panic? ==> o.state.status == s.status)
  {
  }

  /** The source's `Processor` object. `blocks` is the ghost view of the words
      held by the `regions` arrays. */
  class Processor {
    var bus: u32
    const alu: Alu
    var next: u32
    var status: Status
    var regions: seq<array<u32>>
    var perStepParamPointer: u32
    var perStepDontMove: bool
    ghost var blocks: seq<seq<u32>>
    /** Every block array the processor has ever held: the footprint its
        callers may let it modify. */
    ghost var arrays: set<array<u32>>

    /** The arrays hold `blocks`, and no array is shared by two blocks. */
    ghost predicate MemoryValid()
      reads this`regions, this`blocks, regions
    {
      |regions| == |blocks| && WellFormed(blocks) &&
      (forall i :: 0 <= i < |regions| ==> regions[i][..] == blocks[i]) &&
      (forall i, j :: 0 <= i < j < |regions| ==> regions[i] != regions[j])
    }

    /** Every array in `regions` is in the footprint. */
    ghost predicate Owned()
      reads this`regions, this`arrays
    {
      forall i :: 0 <= i < |regions| ==> regions[i] in arrays
    }

    ghost predicate Valid()
      reads this`regions, this`blocks, this`arrays, alu`mode, regions
    {
      MemoryValid() && Owned() && alu.mode == Int
    }

    ghost function State(): ProcState
      reads this, alu
    {
      ProcState(bus, alu.State(), next, status, blocks, perStepParamPointer, perStepDontMove)
    }

    /** `Processor::new`. */
    constructor ()
      ensures Valid() && fresh(alu) && State() == InitialState()
      ensures fresh(arrays)
    {
      bus := 0;
      alu := new Alu();
      next := 1;
      status := Empty;
      var block := NewBlock();
      regions := [block];
      blocks := [block[..]];
      arrays := {block};
      perStepParamPointer := 0;
      perStepDontMove := false;
    }

    /** `getParam`: fetches the next operand of the current instruction. */
    method GetParam() returns (param: u32)
      requires MemoryValid()
      modifies this`perStepParamPointer
      ensures perStepParamPointer == WrapU32(old(perStepParamPointer) + 1)
      ensures param == Read(blocks, WrapU32(next + perStepParamPointer))
    {
      var n := next;
      var pointer := WrapU32(perStepParamPointer + 1);
      param := GetMemoryLoc(WrapU32(n as int + pointer));
      perStepParamPointer := pointer;
    }

    /** `dontMoveParamPointer`. */
    method DontMoveParamPointer()
      modifies this`perStepDontMove
      ensures perStepDontMove
    {
      perStepDontMove := true;
    }

    /** `resetPerStep`. */
    method ResetPerStep()
      modifies this`perStepParamPointer, this`perStepDontMove
      ensures perStepParamPointer == 0 && !perStepDontMove
    {
      perStepParamPointer := 0;
      perStepDontMove := false;
    }

    /** `_get_memory_loc`. */
    function GetMemoryLoc(location: u32): (value: u32)
      reads this`regions, this`blocks, regions
      requires MemoryValid()
      ensures value == Read(blocks, location)
    {
      var offset := OffsetOf(location);
      var regionNum := RegionOf(location);
      if regionNum < |regions| then
        assert regions[regionNum][..][offset] == blocks[regionNum][offset];
        regions[regionNum][offset]
      else 0
    }

    /** `_set_memory_loc`. `ok` is false exactly where the source's unchecked
        index panics; memory is then left alone. */
    method SetMemoryLoc(location: u32, value: u32) returns (ok: bool)
      requires MemoryValid()
      modifies this`blocks, regions
      ensures MemoryValid()
      ensures ok == (RegionOf(location) < |blocks|)
      ensures blocks == if ok then Write(old(blocks), location, value) else old(blocks)
    {
      var offset := OffsetOf(location);
      var regionNum := RegionOf(location);
      ok := regionNum < |regions|;
      if ok {
        regions[regionNum][offset] := value;
        blocks := Write(blocks, location, value);
        forall i | 0 <= i < |regions|
          ensures regions[i][..] == blocks[i]
        {
          if i != regionNum {
            assert regions[i][..] == old(regions[i][..]);
          }
        }
      }
    }

    /** `_r_get_memory`: the word at `location + offset`. */
    function RGetMemory(location: u32, offset: i32): (value: u32)
      reads this`regions, this`blocks, regions
      requires MemoryValid()
      ensures value == Read(blocks, WrapU32(location + offset))
    {
      GetMemoryLoc(OffsetAddress(location, offset))
    }

    /** `_r_set_memory`: stores at `location + offset`. */
    method RSetMemory(location: u32, offset: i32, value: u32) returns (ok: bool)
      requires MemoryValid()
      modifies this`blocks, regions
      ensures MemoryValid()
      ensures var target := WrapU32(location + offset);
        ok == (RegionOf(target) < |blocks|) &&
        blocks == if ok then Write(old(blocks), target, value) else old(blocks)
    {
      ok := SetMemoryLoc(OffsetAddress(location, offset), value);
    }

    /** `add_region`: takes ownership of a block and appends it. */
    method AddRegion(region: array<u32>)
      requires MemoryValid() && region.Length == MEM_SIZE && region !in regions
      modifies this`regions, this`blocks, this`arrays
      ensures MemoryValid()
      ensures regions == old(regions) + [region] && blocks == old(blocks) + [region[..]]
      ensures arrays == old(arrays) + {region}
    {
      regions := regions + [region];
      blocks := blocks + [region[..]];
      arrays := arrays + {region};
    }

    /** Opcode 1, `load_location_relative_pointer`. */
    method LoadLocationRelativePointer(offset: u32)
      requires MemoryValid()
      modifies this`bus
      ensures bus == Read(blocks, OffsetAddress(next, BitsToI32(offset)))
    {
      bus := RGetMemory(next, BitsToI32(offset));
    }

    /** Opcode 2, `set_location_relative_pointer`. */
    method SetLocationRelativePointer(offset: u32) returns (ok: bool)
      requires MemoryValid()
      modifies this`blocks, regions
      ensures MemoryValid()
      ensures var target := OffsetAddress(next, BitsToI32(offset));
        ok == (RegionOf(target) < |blocks|) &&
        blocks == if ok then Write(old(blocks), target, bus) else old(blocks)
    {
      ok := RSetMemory(next, BitsToI32(offset), bus);
    }

    /** Opcode 3, `load_location_relative`. */
    method LoadLocationRelative(offset: u32)
      requires MemoryValid()
      modifies this`bus
      ensures bus == Read(blocks, OffsetAddress(next, BitsToI32(offset)))
    {
      bus := GetMemoryLoc(OffsetAddress(next, BitsToI32(offset)));
    }

    /** Opcode 4, `set_location_relative`. */
    method SetLocationRelative(offset: u32) returns (ok: bool)
      requires MemoryValid()
      modifies this`blocks, regions
      ensures MemoryValid()
      ensures var target := OffsetAddress(next, BitsToI32(offset));
        ok == (RegionOf(target) < |blocks|) &&
        blocks == if ok then Write(old(blocks), target, bus) else old(blocks)
    {
      ok := SetMemoryLoc(OffsetAddress(next, BitsToI32(offset)), bus);
    }

    /** Opcode 5, `push_to_alu`. */
    method PushToAlu()
      requires Valid()
      modifies alu
      ensures alu.State() == Pushed(old(alu.State()), BitsToI32(bus))
    {
      alu.PushValue(BitsToI32(bus));
    }

    /** Opcode 10, `jump`: the instruction pointer moves by the signed bus. */
    method Jump()
      modifies this`next
      ensures next == WrapU32(old(next) + BitsToI32(bus))
    {
      next := OffsetAddress(next, BitsToI32(bus));
    }

    /** Opcode 11, `bgz`: branches when `compare_result > 0`; returns 0 when
        it branched and 2 otherwise (the caller ignores it). */
    method Bgz(relative: u32) returns (moved: u32)
      modifies this`next
      ensures next == if alu.compareResult > 0 then WrapU32(old(next) + BitsToI32(relative)) else old(next)
      ensures moved == if alu.compareResult > 0 then 0 else 2
    {
      alu.Cmp();
      if alu.compareResult > 0 {
        next := OffsetAddress(next, BitsToI32(relative));
        moved := 0;
      } else {
        moved := 2;
      }
    }

    /** Opcode 12, `blz`: branches when `compare_result < 0`. */
    method Blz(relative: u32) returns (moved: u32)
      modifies this`next
      ensures next == if alu.compareResult < 0 then WrapU32(old(next) + BitsToI32(relative)) else old(next)
      ensures moved == if alu.compareResult < 0 then 0 else 2
    {
      alu.Cmp();
      if alu.compareResult < 0 {
        next := OffsetAddress(next, BitsToI32(relative));
        moved := 0;
      } else {
        moved := 2;
      }
    }

    /** Opcode 13, `bez`: branches when `compare_result == 0`. */
    method Bez(relative: u32) returns (moved: u32)
      modifies this`next
      ensures next == if alu.compareResult == 0 then WrapU32(old(next) + BitsToI32(relative)) else old(next)
      ensures moved == if alu.compareResult == 0 then 0 else 2
    {
      alu.Cmp();
      if alu.compareResult == 0 {
        next := OffsetAddress(next, BitsToI32(relative));
        moved := 0;
      } else {
        moved := 2;
      }
    }

    /** Opcode 15, `syscall`: the host gets the signed bus as code and the
        signed operand as argument; its answer replaces the bus. */
    method Syscall(param: u32, sys: Host)
      modifies this`bus
      ensures bus == I32ToBits(sys(BitsToI32(old(bus)), BitsToI32(param)))
    {
      var code := bus;
      bus := I32ToBits(sys(BitsToI32(code), BitsToI32(param)));
    }

    /** Opcode 18, `load_location`. */
    method LoadLocation(location: u32)
      requires MemoryValid()
      modifies this`bus
      ensures bus == Read(blocks, location)
    {
      bus := GetMemoryLoc(location);
    }

    /** Opcode 19, `set_location`. */
    method SetLocation(location: u32) returns (ok: bool)
      requires MemoryValid()
      modifies this`blocks, regions
      ensures MemoryValid()
      ensures ok == (RegionOf(location) < |blocks|)
      ensures blocks == if ok then Write(old(blocks), location, bus) else old(blocks)
    {
      ok := SetMemoryLoc(location, bus);
    }

    /** Opcode 20, `load_immediate`. */
    method LoadImmediate(value: u32)
      modifies this`bus
      ensures bus == value
    {
      bus := value;
    }

    /** `Processor::step`. A panic returns at the point the source panics,
        before the auto-advance. The `match op` is split by opcode group as
        `Dispatched` is. */
    method Step(sys: Host) returns (code: StopCode)
      requires Valid()
      modifies this, alu, regions
      ensures Valid()
      ensures Outcome(State(), code) == Executed(old(State()), sys)
      ensures fresh(arrays - old(arrays))
    {
      var n := next;
      ResetPerStep();
      ghost var r := State();
      assert r == old(State()).(perStepParamPointer := 0, perStepDontMove := false);
      var op := GetMemoryLoc(n);
      code := Dispatch(op, sys);
      if code.Panic? {
        return;
      }
      if !perStepDontMove {
        next := WrapU32(next + perStepParamPointer + 1);
      }
    }

    /** The `match op` of `step`, on a processor whose per-step counters were
        just reset. Only opcode 14 allocates, and it adds one fresh block. */
    method Dispatch(op: u32, sys: Host) returns (code: StopCode)
      requires Valid() && perStepParamPointer == 0 && !perStepDontMove
      modifies this, alu, regions
      ensures Valid()
      ensures Outcome(State(), code) == Dispatched(old(State()), op, sys)
      ensures fresh(arrays - old(arrays))
    {
      if op == 14 {
        var newBlock := NewBlock();
        AddRegion(newBlock);
        code := None;
      } else if op in LOAD_OPS {
        DispatchLoadOp(op, sys);
        code := None;
      } else if op == 19 {
        code := DispatchSetLocation();
      } else if op in STORE_OPS {
        code := DispatchRelativeStore(op);
      } else if op in ALU_OPS {
        code := DispatchAluOp(op);
      } else if 11 <= op <= 13 {
        DispatchBranchOp(op);
        code := None;
      } else {
        code := DispatchControlOp(op);
      }
    }

    /** The load-group opcodes of `step`: fetch the operand, set the bus. */
    method DispatchLoadOp(op: u32, sys: Host)
      requires MemoryValid() && op in LOAD_OPS && perStepParamPointer == 0
      modifies this`perStepParamPointer, this`bus
      ensures perStepParamPointer == 1 && bus == LoadedBus(old(State()), op, sys)
    {
      ghost var r := State();
      var param := GetParam();
      assert param == Param(r);
      match op {
        case 1 => LoadLocationRelativePointer(param);
        case 3 => LoadLocationRelative(param);
        case 15 => Syscall(param, sys);
        case 18 => LoadLocation(param);
        case 20 => LoadImmediate(param);
      }
    }

    /** Opcode 19 of `step`: fetch the location, store the bus there; it
        panics where the unchecked block index would. */
    method DispatchSetLocation() returns (code: StopCode)
      requires MemoryValid() && perStepParamPointer == 0
      modifies this`perStepParamPointer, this`blocks, regions
      ensures MemoryValid() && perStepParamPointer == 1
      ensures var target := Param(old(State()));
        if RegionOf(target) < |old(blocks)| then blocks == Write(old(blocks), target, bus) && code == None
        else blocks == old(blocks) && code == Panic(UnallocatedWrite(target))
    {
      ghost var r := State();
      var param := GetParam();
      assert param == Param(r);
      var ok := SetLocation(param);
      code := if ok then None else Panic(UnallocatedWrite(param));
    }

    /** Opcodes 2 and 4 of `step`: fetch the offset, store the bus at the
        instruction-relative location; they panic where the unchecked block
        index would. */
    method DispatchRelativeStore(op: u32) returns (code: StopCode)
      requires MemoryValid() && (op == 2 || op == 4) && perStepParamPointer == 0
      modifies this`perStepParamPointer, this`blocks, regions
      ensures MemoryValid() && perStepParamPointer == 1
      ensures var target := Near(old(State()));
        if RegionOf(target) < |old(blocks)| then blocks == Write(old(blocks), target, bus) && code == None
        else blocks == old(blocks) && code == Panic(UnallocatedWrite(target))
    {
      ghost var r := State();
      var param := GetParam();
      ghost var target := OffsetAddress(next, BitsToI32(param));
      assert param == Param(r) && target == Near(r);
      var ok;
      if op == 2 {
        ok := SetLocationRelativePointer(param);
      } else {
        ok := SetLocationRelative(param);
      }
      code := if ok then None else Panic(UnallocatedWrite(OffsetAddress(next, BitsToI32(param))));
      assert ok == (RegionOf(target) < |r.mem|);
      assert blocks == if ok then Write(r.mem, target, bus) else r.mem;
    }

    /** The ALU opcodes of `step`: push, add, negate, multiply, divide. */
    method DispatchAluOp(op: u32) returns (code: StopCode)
      requires Valid() && op in ALU_OPS
      modifies alu
      ensures Valid()
      ensures Outcome(State(), code) == AluDispatched(old(State()), op)
    {
      code := None;
      match op {
        case 5 => PushToAlu();
        case 6 => alu.Add();
        case 7 => alu.Negate();
        case 8 => alu.Multiply();
        case 9 =>
          var ok := alu.Divide();
          if !ok {
            code := Panic(if alu.valueB == 0 then DivideByZero else DivideOverflow);
          }
      }
    }

    /** Opcodes 11 to 13 of `step`: fetch the offset and branch; the value the
        branch returns is dropped. */
    method DispatchBranchOp(op: u32)
      requires MemoryValid() && 11 <= op <= 13 && perStepParamPointer == 0
      modifies this`next, this`perStepParamPointer
      ensures State() == Branched(old(State()), op)
    {
      ghost var r := State();
      var param := GetParam();
      assert param == Param(r);
      if op == 11 {
        var _ := Bgz(param);
      } else if op == 12 {
        var _ := Blz(param);
      } else {
        var _ := Bez(param);
      }
    }

    /** The remaining opcodes of `step`: no-op, jump, halt, pause, the inert
        21 to 24, and every unknown opcode. */
    method DispatchControlOp(op: u32) returns (code: StopCode)
      modifies this`next, this`perStepDontMove, this`status
      ensures Outcome(State(), code) == ControlDispatched(old(State()), op)
    {
      code := None;
      if op == 10 {
        Jump();
        DontMoveParamPointer();
      } else if op == 16 || op > 24 {
        code := Halt;
        status := Halted;
      } else if op == 17 {
        code := Pause;
        status := Paused;
      }
      // Opcode 0 is a no-op; alu_to_float (21) and alu_to_int (22) have
      // empty bodies; get_lo (23) and get_hi (24) return 0 without touching
      // anything, and step drops the result.
    }
  }
}
