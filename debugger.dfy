/** Run control: the `Program` that owns the processor, a set of breakpoint
    addresses and a switch for them, and the free functions `step`, `run`,
    `StepOver`, `SetBreakpoint` and `RemoveBreakpoint` that drive it.
    `Stepped`, `RunLoop`, `Continued` and `SteppedOver` are their value-level
    meanings; class `Program` is proved to compute exactly those. */
module Debugger {
  import opened Words
  import opened Memory
  import opened Arithmetic
  import opened Cpu

  /** The fields of `Program`. */
  datatype Machine = Machine(cpu: ProcState, breakpoints: set<u32>, doBreakpoints: bool)

  /** How one `step` ended: `Proceed` is the source's `false` (keep going),
      `Stopped` its `true` (breakpoint, pause or halt), `Trapped` a panic. */
  datatype StepEnd = Proceed | Stopped | Trapped(fault: Fault)

  datatype StepResult = StepResult(machine: Machine, end: StepEnd)

  /** How a run ended: `Done` when the source's loop exits, `OutOfFuel` when
      the step budget ran out first, `Faulted` when a step panicked. */
  datatype RunEnd = Done | OutOfFuel | Faulted(fault: Fault)

  datatype RunResult = RunResult(machine: Machine, end: RunEnd)

  /** `Program::new`: a new processor, no breakpoints, breakpoints off. */
  function InitialMachine(): Machine
  {
    Machine(InitialState(), {}, false)
  }

  /** `r_Initialize`: one more zeroed block, status `NotStarted`. */
  function Initialized(m: Machine): Machine
    requires Ready(m.cpu)
  {
    m.(cpu := m.cpu.(mem := Grow(m.cpu.mem), status := NotStarted))
  }

  /** `SetBreakpoint`: `point` becomes a breakpoint. */
  function WithBreakpoint(m: Machine, point: u32): Machine
  {
    m.(breakpoints := m.breakpoints + {point})
  }

  /** `RemoveBreakpoint`: `point` is no longer a breakpoint. */
  function WithoutBreakpoint(m: Machine, point: u32): Machine
  {
    m.(breakpoints := m.breakpoints - {point})
  }

  /** Whether `step` stops before executing the instruction at `next`. */
  predicate AtBreakpoint(m: Machine)
  {
    m.doBreakpoints && m.cpu.next in m.breakpoints
  }

  /** The free function `step`: the breakpoint test comes first and pauses
      without executing anything; otherwise one `Processor::step`, after which
      a halt or pause stops the caller's loop. */
  function Stepped(m: Machine, sys: Host): (t: StepResult)
    requires Ready(m.cpu)
    ensures Ready(t.machine.cpu)
  {
    if AtBreakpoint(m) then StepResult(m.(cpu := m.cpu.(status := Paused)), Stopped)
    else
      var o := Executed(m.cpu, sys);
      var end := match o.code
        case Halt => Stopped
        case Pause => Stopped
        case None => Proceed
        case Panic(f) => Trapped(f);
      StepResult(m.(cpu := o.state), end)
  }

  /** The loop `while !step(program) {}`, allowed at most `fuel` steps. */
  function RunLoop(m: Machine, fuel: nat, sys: Host): (r: RunResult)
    requires Ready(m.cpu)
    ensures Ready(r.machine.cpu)
    decreases fuel, 0
  {
    if fuel == 0 then RunResult(m, OutOfFuel)
    else Iterated(m, fuel - 1, sys)
  }

  /** One iteration of that loop, a `step`, followed by the loop with `fuel`
      steps left when it returned false; the loop ends otherwise. */
  function Iterated(m: Machine, fuel: nat, sys: Host): (r: RunResult)
    requires Ready(m.cpu)
    ensures Ready(r.machine.cpu)
    decreases fuel, 1
  {
    var t := Stepped(m, sys);
    match t.end
    case Proceed => RunLoop(t.machine, fuel, sys)
    case Stopped => RunResult(t.machine, Done)
    case Trapped(f) => RunResult(t.machine, Faulted(f))
  }

  /** `run`, which `Continue` calls: nothing on a halted or empty processor;
      otherwise status `Running` and the step loop. */
  function Continued(m: Machine, fuel: nat, sys: Host): (r: RunResult)
    requires Ready(m.cpu)
    ensures Ready(r.machine.cpu)
  {
    if m.cpu.status == Halted || m.cpu.status == Empty then RunResult(m, Done)
    else RunLoop(m.(cpu := m.cpu.(status := Running)), fuel, sys)
  }

  /** `StepOver`: one `step` when paused; one `step` and then status `Paused`
      when not started (unless that step panicked); nothing otherwise. */
  function SteppedOver(m: Machine, sys: Host): (r: RunResult)
    requires Ready(m.cpu)
    ensures Ready(r.machine.cpu)
  {
    match m.cpu.status
    case Paused =>
      var t := Stepped(m, sys);
      RunResult(t.machine, if t.end.Trapped? then Faulted(t.end.fault) else Done)
    case NotStarted =>
      var t := Stepped(m, sys);
      if t.end.Trapped? then RunResult(t.machine, Faulted(t.end.fault))
      else RunResult(t.machine.(cpu := t.machine.cpu.(status := Paused)), Done)
    case _ => RunResult(m, Done)
  }

  /** `r_Initialize` on a new program gives two zeroed blocks, `NotStarted`,
      instruction pointer 1 and no breakpoints. */
  lemma InitializedProgram()
    ensures var m := Initialized(InitialMachine());
      m.cpu.status == NotStarted && |m.cpu.mem| == 2 && m.cpu.next == 1 &&
      m.breakpoints == {} && !m.doBreakpoints && Invariant(m.cpu)
    ensures forall a: u32 :: Read(Initialized(InitialMachine()).cpu.mem, a) == 0
  {
    InitialStateInvariant();
    forall a: u32 ensures Read(Initialized(InitialMachine()).cpu.mem, a) == 0 {
      ReadAfterGrow(InitialState().mem, a);
    }
  }

  /** Setting and removing breakpoints are set insertion and deletion: each
      is idempotent, one undoes the other, and only `point` is affected. */
  lemma BreakpointEdits(m: Machine, point: u32, other: u32)
    requires other != point
    ensures point in WithBreakpoint(m, point).breakpoints
    ensures point !in WithoutBreakpoint(m, point).breakpoints
    ensures WithBreakpoint(WithBreakpoint(m, point), point) == WithBreakpoint(m, point)
    ensures WithoutBreakpoint(WithoutBreakpoint(m, point), point) == WithoutBreakpoint(m, point)
    ensures point !in m.breakpoints ==> WithoutBreakpoint(WithBreakpoint(m, point), point) == m
    ensures (other in WithBreakpoint(m, point).breakpoints <==> other in m.breakpoints)
    ensures (other in WithoutBreakpoint(m, point).breakpoints <==> other in m.breakpoints)
  {
  }

  /** At an enabled breakpoint `step` stops before the instruction: only the
      status changes, to `Paused`. */
  lemma BreakpointStopsBefore(m: Machine, sys: Host)
    requires Ready(m.cpu) && AtBreakpoint(m)
    ensures var t := Stepped(m, sys);
      t.end == Stopped && t.machine.cpu.status == Paused && t.machine.cpu.(status := m.cpu.status) == m.cpu &&
      t.machine.breakpoints == m.breakpoints && t.machine.doBreakpoints == m.doBreakpoints
  {
  }

  /** Away from an enabled breakpoint `step` is exactly one processor step. */
  lemma StepExecutesAwayFromBreakpoint(m: Machine, sys: Host)
    requires Ready(m.cpu) && !AtBreakpoint(m)
    ensures var t := Stepped(m, sys); var o := Executed(m.cpu, sys);
      t.machine == m.(cpu := o.state) &&
      (t.end == Proceed <==> o.code == None) &&
      (t.end == Stopped <==> o.code == Halt || o.code == Pause) &&
      (t.end.Trapped? <==> o.code.Panic?)
  {
  }

  /** Removing the breakpoint the processor is stopped at makes the next
      `step` execute the instruction there. */
  lemma RemovedBreakpointExecutes(m: Machine, sys: Host)
    requires Ready(m.cpu)
    ensures Stepped(WithoutBreakpoint(m, m.cpu.next), sys).machine.cpu == Executed(m.cpu, sys).state
  {
  }

  /** A run whose loop exits has "paused" or "halted" status; one that runs
      out of fuel or panics is still "running". No run edits the breakpoints. */
  lemma {:induction false} RunLoopEndStatus(m: Machine, fuel: nat, sys: Host)
    requires Ready(m.cpu) && m.cpu.status == Running
    ensures var r := RunLoop(m, fuel, sys);
      (r.end == Done ==> r.machine.cpu.status == Paused || r.machine.cpu.status == Halted) &&
      (r.end != Done ==> r.machine.cpu.status == Running) &&
      r.machine.breakpoints == m.breakpoints && r.machine.doBreakpoints == m.doBreakpoints
    decreases fuel
  {
    if fuel > 0 {
      var t := Stepped(m, sys);
      StatusEffects(m.cpu, sys);
      if t.end == Proceed {
        RunLoopEndStatus(t.machine, fuel - 1, sys);
      }
    }
  }

  /** `run`: a halted or empty program is left alone; any other run ends
      paused or halted when its loop exits and running otherwise. */
  lemma ContinuedEndStatus(m: Machine, fuel: nat, sys: Host)
    requires Ready(m.cpu)
    ensures var r := Continued(m, fuel, sys);
      if m.cpu.status == Halted || m.cpu.status == Empty then r == RunResult(m, Done)
      else
        (r.end == Done ==> r.machine.cpu.status == Paused || r.machine.cpu.status == Halted) &&
        (r.end != Done ==> r.machine.cpu.status == Running) &&
        r.machine.breakpoints == m.breakpoints && r.machine.doBreakpoints == m.doBreakpoints
  {
    if !(m.cpu.status == Halted || m.cpu.status == Empty) {
      RunLoopEndStatus(m.(cpu := m.cpu.(status := Running)), fuel, sys);
    }
  }

  /** Every run keeps the processor invariant (integer mode, `compare_result`
      0), so each step of it has the effects `Cpu` proves. */
  lemma {:induction false} RunLoopKeepsInvariant(m: Machine, fuel: nat, sys: Host)
    requires Invariant(m.cpu)
    ensures Invariant(RunLoop(m, fuel, sys).machine.cpu)
    decreases fuel
  {
    if fuel > 0 {
      var t := Stepped(m, sys);
      ExecutedKeepsInvariant(m.cpu, sys);
      if t.end == Proceed {
        RunLoopKeepsInvariant(t.machine, fuel - 1, sys);
      }
    }
  }

  /** `r_Initialize` keeps the processor invariant, from any ready state. */
  lemma InitializedKeepsInvariant(m: Machine)
    requires Invariant(m.cpu)
    ensures Invariant(Initialized(m).cpu)
  {
  }

  /** `step` keeps the processor invariant, at a breakpoint or not. */
  lemma SteppedKeepsInvariant(m: Machine, sys: Host)
    requires Invariant(m.cpu)
    ensures Invariant(Stepped(m, sys).machine.cpu)
  {
    ExecutedKeepsInvariant(m.cpu, sys);
  }

  /** `run` keeps the processor invariant. */
  lemma ContinuedKeepsInvariant(m: Machine, fuel: nat, sys: Host)
    requires Invariant(m.cpu)
    ensures Invariant(Continued(m, fuel, sys).machine.cpu)
  {
    RunLoopKeepsInvariant(m.(cpu := m.cpu.(status := Running)), fuel, sys);
  }

  /** `StepOver` keeps the processor invariant. */
  lemma SteppedOverKeepsInvariant(m: Machine, sys: Host)
    requires Invariant(m.cpu)
    ensures Invariant(SteppedOver(m, sys).machine.cpu)
  {
    SteppedKeepsInvariant(m, sys);
  }

  /** The fuel bound does not change what a finished run computes: once the
      loop exits within `fuel` steps, any larger budget gives the same run. */
  lemma {:induction false} RunLoopFuelIrrelevant(m: Machine, fuel: nat, more: nat, sys: Host)
    requires Ready(m.cpu) && fuel <= more
    requires RunLoop(m, fuel, sys).end != OutOfFuel
    ensures RunLoop(m, more, sys) == RunLoop(m, fuel, sys)
    decreases fuel
  {
    var t := Stepped(m, sys);
    if t.end == Proceed {
      RunLoopFuelIrrelevant(t.machine, fuel - 1, more - 1, sys);
    }
  }

  /** Continuing while stopped at an enabled breakpoint executes nothing: the
      first `step` hits the same breakpoint again and pauses. */
  lemma ContinueAtBreakpointIsStuck(m: Machine, fuel: nat, sys: Host)
    requires Ready(m.cpu) && AtBreakpoint(m) && fuel > 0
    requires m.cpu.status != Halted && m.cpu.status != Empty
    ensures Continued(m, fuel, sys) == RunResult(m.(cpu := m.cpu.(status := Paused)), Done)
  {
    var running := m.(cpu := m.cpu.(status := Running));
    assert AtBreakpoint(running);
    assert Stepped(running, sys) == StepResult(m.(cpu := m.cpu.(status := Paused)), Stopped);
    assert RunLoop(running, fuel, sys) == Iterated(running, fuel - 1, sys);
  }

  /** `StepOver` on a program that has not started runs one instruction and
      leaves it paused, even if that instruction halted; on a paused program
      it is one `step`; in any other status it does nothing. */
  lemma SteppedOverEffects(m: Machine, sys: Host)
    requires Ready(m.cpu)
    ensures var r := SteppedOver(m, sys); var t := Stepped(m, sys);
      (m.cpu.status == NotStarted && !t.end.Trapped? ==>
         r.end == Done && r.machine.cpu.status == Paused && r.machine.cpu.(status := Paused) == t.machine.cpu.(status := Paused)) &&
      (m.cpu.status == Paused ==> r.machine == t.machine && (r.end == Done <==> !t.end.Trapped?)) &&
      (m.cpu.status !in {Paused, NotStarted} ==> r == RunResult(m, Done))
  {
  }

  /** The source's `Program`. */
  class Program {
    const processor: Processor
    var breakpoints: set<u32>
    var doBreakpoints: bool

    ghost function State(): Machine
      reads this, processor, processor.alu
    {
      Machine(processor.State(), breakpoints, doBreakpoints)
    }

    ghost predicate Valid()
      reads this, processor, processor.alu, processor.regions
    {
      processor.Valid()
    }

    /** `Program::new`. */
    constructor ()
      ensures Valid() && fresh(processor) && fresh(processor.alu)
      ensures State() == InitialMachine()
      ensures fresh(processor.arrays)
    {
      processor := new Processor();
      breakpoints := {};
      doBreakpoints := false;
    }

    /** `r_Initialize`. */
    method Initialize()
      requires Valid()
      modifies processor`regions, processor`blocks, processor`arrays, processor`status
      ensures Valid()
      ensures State() == Initialized(old(State()))
      ensures fresh(processor.arrays - old(processor.arrays))
    {
      var block := NewBlock();
      processor.AddRegion(block);
      processor.status := NotStarted;
    }

    /** `SetBreakpoint`. */
    method SetBreakpoint(point: u32)
      modifies this`breakpoints
      ensures State() == WithBreakpoint(old(State()), point)
    {
      if point !in breakpoints {
        breakpoints := breakpoints + {point};
      }
    }

    /** `RemoveBreakpoint`. */
    method RemoveBreakpoint(point: u32)
      modifies this`breakpoints
      ensures State() == WithoutBreakpoint(old(State()), point)
    {
      if point in breakpoints {
        breakpoints := breakpoints - {point};
      }
    }

    /** `r_EnableBreakpoints`. */
    method EnableBreakpoints()
      modifies this`doBreakpoints
      ensures State() == old(State()).(doBreakpoints := true)
    {
      doBreakpoints := true;
    }

    /** `r_DisableBreakpoints`. */
    method DisableBreakpoints()
      modifies this`doBreakpoints
      ensures State() == old(State()).(doBreakpoints := false)
    {
      doBreakpoints := false;
    }

    /** The free function `step`. */
    method Step(sys: Host) returns (end: StepEnd)
      requires Valid()
      modifies processor, processor.alu, processor.arrays
      ensures Valid()
      ensures StepResult(State(), end) == Stepped(old(State()), sys)
      ensures fresh(processor.arrays - old(processor.arrays))
    {
      if doBreakpoints && processor.next in breakpoints {
        processor.status := Paused;
        return Stopped;
      }
      var code := processor.Step(sys);
      end := match code
        case Halt => Stopped
        case Pause => Stopped
        case None => Proceed
        case Panic(f) => Trapped(f);
    }

    /** `run` (and `Continue`, which only calls it), with at most `fuel`
        iterations of its loop. */
    method Run(fuel: nat, sys: Host) returns (end: RunEnd)
      requires Valid()
      modifies processor, processor.alu, processor.arrays
      ensures Valid()
      ensures RunResult(State(), end) == Continued(old(State()), fuel, sys)
      ensures fresh(processor.arrays - old(processor.arrays))
    {
      if processor.status == Halted || processor.status == Empty {
        return Done;
      }
      processor.status := Running;
      end := StepUntilStopped(fuel, sys);
    }

    /** The loop `while !step(program) {}` of `run`, with at most `fuel`
        iterations. */
    method StepUntilStopped(fuel: nat, sys: Host) returns (end: RunEnd)
      requires Valid()
      modifies processor, processor.alu, processor.arrays
      ensures Valid()
      ensures RunResult(State(), end) == RunLoop(old(State()), fuel, sys)
      ensures fresh(processor.arrays - old(processor.arrays))
    {
      ghost var goal := RunLoop(State(), fuel, sys);
      var k := fuel;
      while k > 0
        invariant Valid()
        invariant RunLoop(State(), k, sys) == goal
        invariant fresh(processor.arrays - old(processor.arrays))
        decreases k
      {
        var e := StepOnce(k, sys, goal);
        if e == Stopped {
          return Done;
        }
        if e.Trapped? {
          return Faulted(e.fault);
        }
        k := k - 1;
      }
      end := OutOfFuel;
    }

    /** One iteration of that loop: `step`, and what is left of the run. */
    method StepOnce(k: nat, sys: Host, ghost goal: RunResult) returns (e: StepEnd)
      requires Valid() && k > 0 && RunLoop(State(), k, sys) == goal
      modifies processor, processor.alu, processor.arrays
      ensures Valid()
      ensures e == Proceed ==> RunLoop(State(), k - 1, sys) == goal
      ensures e == Stopped ==> RunResult(State(), Done) == goal
      ensures e.Trapped? ==> RunResult(State(), Faulted(e.fault)) == goal
      ensures fresh(processor.arrays - old(processor.arrays))
    {
      ghost var before := State();
      e := Step(sys);
      assert RunLoop(before, k, sys) == Iterated(before, k - 1, sys);
    }

    /** `StepOver`. */
    method StepOver(sys: Host) returns (end: RunEnd)
      requires Valid()
      modifies processor, processor.alu, processor.arrays
      ensures Valid()
      ensures RunResult(State(), end) == SteppedOver(old(State()), sys)
      ensures fresh(processor.arrays - old(processor.arrays))
    {
      end := Done;
      if processor.status == Paused {
        var e := Step(sys);
        if e.Trapped? {
          end := Faulted(e.fault);
        }
      } else if processor.status == NotStarted {
        var e := Step(sys);
        if e.Trapped? {
          end := Faulted(e.fault);
        } else {
          processor.status := Paused;
        }
      }
    }
  }
}
