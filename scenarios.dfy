/** Worked runs of small programs, stated on the step function. A program is
    stored from location 1, the instruction pointer `Processor::new` starts
    at, in the first block of an initialized processor. */
module Scenarios {
  import opened Words
  import opened Memory
  import opened Arithmetic
  import opened Cpu
  import opened Debugger

  /** The first block holding `words` from location 1 on, zero elsewhere. */
  function ProgramBlock(words: seq<u32>): (b: seq<u32>)
    requires |words| < MEM_SIZE
    ensures |b| == MEM_SIZE
    ensures forall i :: 1 <= i <= |words| ==> b[i] == words[i - 1]
  {
    seq(MEM_SIZE, i => if 1 <= i <= |words| then words[i - 1] else 0)
  }

  /** An initialized, not yet started processor holding `words` from
      location 1 on. */
  function Loaded(words: seq<u32>): (s: ProcState)
    requires |words| < MEM_SIZE
    ensures Invariant(s)
  {
    InitialState().(mem := [ProgramBlock(words), ZeroBlock()], status := NotStarted)
  }

  /** `[20,5] [5] [20,3] [5] [6] [16]`: load 5, push, load 3, push, add,
      halt. After six steps `hi` is 8, `lo` 0, the bus still holds the last
      loaded 3, and the processor has halted one word past the halt. */
  lemma AddProgram(sys: Host)
    ensures var s0 := Loaded([20, 5, 5, 20, 3, 5, 6, 16]);
      var o1 := Executed(s0, sys);
      var o2 := Executed(o1.state, sys);
      var o3 := Executed(o2.state, sys);
      var o4 := Executed(o3.state, sys);
      var o5 := Executed(o4.state, sys);
      var o6 := Executed(o5.state, sys);
      o1.code == None && o2.code == None && o3.code == None && o4.code == None && o5.code == None &&
      o6.code == Halt && o6.state.status == Halted && o6.state.next == 9 &&
      o6.state.alu.hi == 8 && o6.state.alu.lo == 0 && o6.state.bus == 3
  {
    var s0 := Loaded([20, 5, 5, 20, 3, 5, 6, 16]);
    var blocks := s0.mem;
    assert Read(blocks, 1) == 20 && Read(blocks, 2) == 5 && Read(blocks, 3) == 5 && Read(blocks, 4) == 20;
    assert Read(blocks, 5) == 3 && Read(blocks, 6) == 5 && Read(blocks, 7) == 6 && Read(blocks, 8) == 16;
    var o1 := Executed(s0, sys);
    LoadImmediateStep(s0, sys);
    assert o1.state.bus == 5 && o1.state.next == 3 && o1.state.mem == blocks;
    var o2 := Executed(o1.state, sys);
    PushStep(o1.state, sys);
    assert o2.state.alu.valueA == 5 && o2.state.next == 4 && o2.state.mem == blocks;
    var o3 := Executed(o2.state, sys);
    LoadImmediateStep(o2.state, sys);
    assert o3.state.bus == 3 && o3.state.next == 6 && o3.state.alu == o2.state.alu && o3.state.mem == blocks;
    var o4 := Executed(o3.state, sys);
    PushStep(o3.state, sys);
    assert o4.state.alu.valueA == 3 && o4.state.alu.valueB == 5 && o4.state.next == 7 && o4.state.mem == blocks;
    var o5 := Executed(o4.state, sys);
    AddStep(o4.state, sys);
    assert o5.state.alu.hi == 8 && o5.state.alu.lo == 0 && o5.state.bus == 3 && o5.state.next == 8;
    HaltStep(o5.state, sys);
  }

  /** Opcode 20 with its operand: the bus takes the operand, `next` moves
      two words on, nothing else changes. */
  lemma LoadImmediateStep(s: ProcState, sys: Host)
    requires Invariant(s) && Read(s.mem, s.next) == 20
    ensures var o := Executed(s, sys);
      o.code == None && o.state.bus == Param(s) && o.state.next == WrapU32(s.next + 2) &&
      o.state.alu == s.alu && o.state.mem == s.mem && o.state.status == s.status
  {
    BusEffects(s, sys);
    MemoryEffects(s, sys);
    AluEffects(s, sys);
    StatusEffects(s, sys);
    StepAdvancesPastOperands(s, sys);
  }

  /** Opcode 5: the bus is pushed as a signed operand. */
  lemma PushStep(s: ProcState, sys: Host)
    requires Invariant(s) && Read(s.mem, s.next) == 5
    ensures var o := Executed(s, sys);
      o.code == None && o.state.alu == Pushed(s.alu, BitsToI32(s.bus)) && o.state.next == WrapU32(s.next + 1) &&
      o.state.bus == s.bus && o.state.mem == s.mem && o.state.status == s.status
  {
    BusEffects(s, sys);
    MemoryEffects(s, sys);
    AluEffects(s, sys);
    StatusEffects(s, sys);
    StepAdvancesPastOperands(s, sys);
  }

  /** Opcode 6: `hi` gets the sum of the two slots, `lo` 0. */
  lemma AddStep(s: ProcState, sys: Host)
    requires Invariant(s) && Read(s.mem, s.next) == 6
    ensures var o := Executed(s, sys);
      o.code == None && o.state.alu == Added(s.alu) && o.state.next == WrapU32(s.next + 1) &&
      o.state.bus == s.bus && o.state.mem == s.mem && o.state.status == s.status
  {
    BusEffects(s, sys);
    MemoryEffects(s, sys);
    AluEffects(s, sys);
    StatusEffects(s, sys);
    StepAdvancesPastOperands(s, sys);
  }

  /** Opcode 16: halts, and still advances past itself. */
  lemma HaltStep(s: ProcState, sys: Host)
    requires Invariant(s) && Read(s.mem, s.next) == 16
    ensures var o := Executed(s, sys);
      o.code == Halt && o.state.status == Halted && o.state.next == WrapU32(s.next + 1) &&
      o.state.alu == s.alu && o.state.bus == s.bus && o.state.mem == s.mem
  {
    BusEffects(s, sys);
    MemoryEffects(s, sys);
    AluEffects(s, sys);
    StatusEffects(s, sys);
    StepAdvancesPastOperands(s, sys);
  }

  /** Pushing 6 and 7 and multiplying gives `hi` 0 and `lo` 42. */
  lemma SixTimesSeven(s: AluState)
    ensures var t := Multiplied(Pushed(Pushed(s, 6), 7));
      t.hi == 0 && t.lo == 42
  {
    MultipliedIsLowProduct(Pushed(Pushed(s, 6), 7));
  }

  /** `StepOver` on a program that has not started, with the halt at its
      first instruction: the halt executes, yet the program ends up paused. */
  lemma StepOverHaltPauses(sys: Host)
    ensures var m := Machine(Loaded([16]), {}, false);
      var r := SteppedOver(m, sys);
      r.end == Done && r.machine.cpu.status == Paused && r.machine.cpu.next == 2
  {
    var m := Machine(Loaded([16]), {}, false);
    assert Read(m.cpu.mem, 1) == 16;
    HaltStep(m.cpu, sys);
  }
}
