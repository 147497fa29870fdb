/**
 * The PMX engine of src/pmx.c as the C code runs it: a record whose arrays
 * and indices every handler updates in place.  Each method is proved to
 * leave exactly the state the matching function of module Pmx computes from
 * the state before the call, so the properties proved there hold of it.
 */
module PmxMachine {
  import opened Pmx
  import PmxProperties

  class Machine {
    const memory: array<Byte>
    const wst: array<Byte>
    const rst: array<Byte>
    const registers: array<int>
    const dev: array<int>
    var sp: int
    var rp: int
    var pc: int
    var time: int

    /** The buffer sizes of src/pmx.h; the three byte buffers are separate allocations. */
    predicate Valid()
    {
      && memory.Length == MemorySize
      && wst.Length == MemorySize
      && rst.Length == MemorySize
      && registers.Length == RegisterNumber
      && dev.Length == DevPorts
      && memory != wst && memory != rst && wst != rst
      && registers != dev
    }

    /** The machine's state as a value. */
    function Abstract(): (s: State)
      reads this, memory, wst, rst, registers, dev
      ensures Valid() ==> Wf(s)
    {
      State(memory[..], wst[..], rst[..], sp, rp, pc, registers[..], dev[..], time)
    }

    /** init_pmx: allocates and clears the three buffers and the registers; dev is left as allocated. */
    constructor ()
      ensures Valid() && IsInitial(Abstract())
      ensures fresh(memory) && fresh(wst) && fresh(rst) && fresh(registers) && fresh(dev)
    {
      memory := new Byte[MemorySize];
      wst := new Byte[MemorySize];
      rst := new Byte[MemorySize];
      registers := new int[RegisterNumber];
      dev := new int[DevPorts];
      new;
      var i := 0;
      while i < MemorySize
        invariant 0 <= i <= MemorySize
        invariant forall k :: 0 <= k < i ==> memory[k] == 0 && wst[k] == 0 && rst[k] == 0
      {
        memory[i] := 0;
        wst[i] := 0;
        rst[i] := 0;
        i := i + 1;
      }
      i := 0;
      while i < RegisterNumber
        invariant 0 <= i <= RegisterNumber
        invariant forall k :: 0 <= k < i ==> registers[k] == 0
        invariant forall k :: 0 <= k < MemorySize ==> memory[k] == 0 && wst[k] == 0 && rst[k] == 0
      {
        registers[i] := 0;
        i := i + 1;
      }
      sp := -1;
      rp := -1;
      pc := 0;
      time := 0;
    }

    /** load_program: copies `length` cells of the program into memory, as bytes. */
    method LoadProgram(program: seq<int>, length: int)
      requires Valid() && length <= |program| && length <= MemorySize
      modifies memory
      ensures Abstract() == Pmx.LoadProgram(old(Abstract()), program, length)
    {
      var i := 0;
      while i < length
        invariant 0 <= i && (i == 0 || i <= length)
        invariant forall k :: 0 <= k < i && k < length ==> memory[k] == ToByte(program[k])
        invariant forall k :: 0 <= k < MemorySize && !(k < i) ==> memory[k] == old(memory[k])
      {
        memory[i] := ToByte(program[i]);
        i := i + 1;
      }
      ghost var s0 := old(Abstract());
      ghost var t := Pmx.LoadProgram(s0, program, length);
      forall k | 0 <= k < MemorySize
        ensures memory[k] == t.memory[k]
      {
        assert s0.memory[k] == old(memory[k]);
      }
      assert memory[..] == t.memory;
    }

    /**
     * load_program_from_file once the file has been read as integers: keeps at
     * most MAX_PROGRAM_SIZE of them, records their number in R8, then loads them.
     */
    method LoadTokens(tokens: seq<int>)
      requires Valid()
      modifies memory, registers
      ensures Abstract() == Pmx.LoadTokens(old(Abstract()), tokens)
    {
      var programSize := if |tokens| < MaxProgramSize then |tokens| else MaxProgramSize;
      registers[7] := programSize;
      LoadProgram(tokens, programSize);
    }

    /** unload_program: resets the indices and clears the first R8 cells of memory, then R8. */
    method UnloadProgram()
      requires Valid() && registers[7] <= MemorySize
      modifies this, memory, registers
      ensures Abstract() == Pmx.UnloadProgram(old(Abstract()))
    {
      pc := 0;
      sp := -1;
      rp := -1;
      var i := 0;
      while i < registers[7]
        modifies memory
        invariant 0 <= i <= MemorySize
        invariant i == 0 || i <= registers[7]
        invariant forall k :: 0 <= k < i ==> memory[k] == 0
        invariant forall k :: 0 <= k < MemorySize && !(k < i) ==> memory[k] == old(memory[k])
      {
        memory[i] := 0;
        i := i + 1;
      }
      registers[7] := 0;
      ghost var s0 := old(Abstract());
      ghost var t := Pmx.UnloadProgram(s0);
      forall k | 0 <= k < MemorySize
        ensures memory[k] == t.memory[k]
      {
        assert s0.memory[k] == old(memory[k]);
      }
      assert memory[..] == t.memory;
    }

    /** halt: unloads the program and returns the new value of `running`. */
    method Halt() returns (running: bool)
      requires Valid() && registers[7] <= MemorySize
      modifies this, memory, registers
      ensures !running && Abstract() == Pmx.UnloadProgram(old(Abstract()))
    {
      UnloadProgram();
      running := false;
    }

    method Add()
      requires Valid() && CanPop(Abstract(), 2)
      modifies this, wst
      ensures Abstract() == Pmx.Add(old(Abstract()))
    {
      var a: int := wst[sp];
      sp := sp - 1;
      var b: int := wst[sp];
      sp := sp - 1;
      sp := sp + 1;
      wst[sp] := ToByte(a + b);
      pc := pc + 1;
    }

    method Sub()
      requires Valid() && CanPop(Abstract(), 2)
      modifies this, wst
      ensures Abstract() == Pmx.Sub(old(Abstract()))
    {
      var a: int := wst[sp];
      sp := sp - 1;
      var b: int := wst[sp];
      sp := sp - 1;
      sp := sp + 1;
      wst[sp] := ToByte(a - b);
      pc := pc + 1;
    }

    method Duplicate()
      requires Valid() && CanPop(Abstract(), 1) && CanPush(Abstract())
      modifies this, wst
      ensures Abstract() == Pmx.Duplicate(old(Abstract()))
    {
      wst[sp + 1] := wst[sp];
      sp := sp + 1;
      pc := pc + 1;
    }

    method Load(reg: int, value: int)
      requires Valid()
      modifies this, registers
      ensures Abstract() == Pmx.Load(old(Abstract()), reg, value)
    {
      if 1 <= reg <= RegisterNumber {
        registers[reg - 1] := value;
      }
      pc := pc + 2;
    }

    method ReadPc()
      requires Valid() && CanPush(Abstract())
      modifies this, wst
      ensures Abstract() == Pmx.ReadPc(old(Abstract()))
    {
      sp := sp + 1;
      wst[sp] := ToByte(pc);
      pc := pc + 1;
    }

    method Push(reg: int)
      requires Valid() && (1 <= reg <= RegisterNumber ==> CanPush(Abstract()))
      modifies this, wst
      ensures Abstract() == Pmx.Push(old(Abstract()), reg)
    {
      if 1 <= reg <= RegisterNumber {
        sp := sp + 1;
        wst[sp] := ToByte(registers[reg - 1]);
      }
      pc := pc + 2;
    }

    method Pop(reg: int)
      requires Valid() && (1 <= reg <= RegisterNumber ==> CanPop(Abstract(), 1))
      modifies this, registers
      ensures Abstract() == Pmx.Pop(old(Abstract()), reg)
    {
      if 1 <= reg <= RegisterNumber {
        registers[reg - 1] := wst[sp];
        sp := sp - 1;
      }
      pc := pc + 2;
    }

    method Jump()
      requires Valid() && CanPop(Abstract(), 1)
      modifies this
      ensures Abstract() == Pmx.Jump(old(Abstract()))
    {
      pc := wst[sp];
      sp := sp - 1;
    }

    method Over()
      requires Valid() && CanPop(Abstract(), 2) && sp + 1 < wst.Length
      modifies this, wst
      ensures Abstract() == Pmx.Over(old(Abstract()))
    {
      wst[sp + 1] := wst[sp - 1];
      sp := sp + 1;
      pc := pc + 1;
    }

    method JumpIfNotZero()
      requires Valid() && CanPop(Abstract(), 1) && (Top(Abstract()) != 0 ==> CanPop(Abstract(), 2))
      modifies this
      ensures Abstract() == Pmx.JumpIfNotZero(old(Abstract()))
    {
      var condition := wst[sp];
      sp := sp - 1;
      if condition != 0 {
        Jump();
      } else {
        pc := pc + 1;
      }
    }

    method Equal()
      requires Valid() && CanPop(Abstract(), 2)
      modifies this, wst
      ensures Abstract() == Pmx.Equal(old(Abstract()))
    {
      var co1 := wst[sp];
      sp := sp - 1;
      var co2 := wst[sp];
      sp := sp - 1;
      sp := sp + 1;
      wst[sp] := Flag(co1 == co2);
      pc := pc + 1;
    }

    method GreaterThan()
      requires Valid() && CanPop(Abstract(), 2)
      modifies this, wst
      ensures Abstract() == Pmx.GreaterThan(old(Abstract()))
    {
      var co1 := wst[sp];
      sp := sp - 1;
      var co2 := wst[sp];
      sp := sp - 1;
      sp := sp + 1;
      wst[sp] := Flag(co1 > co2);
      pc := pc + 1;
    }

    method LowerThan()
      requires Valid() && CanPop(Abstract(), 2)
      modifies this, wst
      ensures Abstract() == Pmx.LowerThan(old(Abstract()))
    {
      var co1 := wst[sp];
      sp := sp - 1;
      var co2 := wst[sp];
      sp := sp - 1;
      sp := sp + 1;
      wst[sp] := Flag(co1 < co2);
      pc := pc + 1;
    }

    method Swap()
      requires Valid() && CanPop(Abstract(), 2)
      requires 1 <= Top(Abstract()) <= RegisterNumber && 1 <= Second(Abstract()) <= RegisterNumber
      modifies this, registers
      ensures Abstract() == Pmx.Swap(old(Abstract()))
    {
      var reg1 := wst[sp];
      sp := sp - 1;
      var reg2 := wst[sp];
      sp := sp - 1;
      var temp := registers[reg1 - 1];
      registers[reg1 - 1] := registers[reg2 - 1];
      registers[reg2 - 1] := temp;
      pc := pc + 3;
    }

    /** console_deo: the write to stdout or stderr is left out. */
    method ConsoleDeo(addr: int)
      requires Valid()
      modifies this
      ensures Abstract() == Pmx.ConsoleDeo(old(Abstract()), addr)
    {
      pc := pc + 2;
    }

    method Increase()
      requires Valid() && CanPop(Abstract(), 1)
      modifies this, wst
      ensures Abstract() == Pmx.Increase(old(Abstract()))
    {
      wst[sp] := ToByte(wst[sp] as int + 1);
      pc := pc + 1;
    }

    method Decrease()
      requires Valid() && CanPop(Abstract(), 1)
      modifies this, wst
      ensures Abstract() == Pmx.Decrease(old(Abstract()))
    {
      wst[sp] := ToByte(wst[sp] as int - 1);
      pc := pc + 1;
    }

    method RemoveTopOfStack()
      requires Valid()
      modifies this
      ensures Abstract() == Pmx.RemoveTopOfStack(old(Abstract()))
    {
      sp := sp - 1;
      pc := pc + 1;
    }

    method DevWrite(addr: int)
      requires Valid() && CanPop(Abstract(), 1) && 0 <= addr < DevPorts
      modifies this, dev
      ensures Abstract() == Pmx.DevWrite(old(Abstract()), addr)
    {
      dev[addr] := wst[sp];
      sp := sp - 1;
      pc := pc + 2;
    }

    method PutOnTopOfStack(value: int)
      requires Valid() && CanPush(Abstract())
      modifies this, wst
      ensures Abstract() == Pmx.PutOnTopOfStack(old(Abstract()), value)
    {
      sp := sp + 1;
      wst[sp] := ToByte(value);
      pc := pc + 2;
    }

    /** goto_instruction: pushes pc + 1, then runs over and jump. */
    method GotoInstruction()
      requires Valid() && CanPop(Abstract(), 1) && sp + 2 < wst.Length
      modifies this, wst
      ensures Abstract() == Pmx.GotoInstruction(old(Abstract()))
    {
      sp := sp + 1;
      wst[sp] := ToByte(pc + 1);
      Over();
      Jump();
    }

    /** power: pow(value, exponent) computed exactly; the cast needs it below 2^31. */
    method Power()
      requires Valid() && CanPop(Abstract(), 2) && Pow(Top(Abstract()), Second(Abstract())) < 0x8000_0000
      modifies this, wst
      ensures Abstract() == Pmx.Power(old(Abstract()))
    {
      var value := wst[sp];
      sp := sp - 1;
      var power := wst[sp];
      sp := sp - 1;
      sp := sp + 1;
      wst[sp] := ToByte(Pow(value, power));
      pc := pc + 1;
    }

    method SqrtInstruction()
      requires Valid() && CanPop(Abstract(), 1)
      modifies this, wst
      ensures Abstract() == Pmx.SqrtInstruction(old(Abstract()))
    {
      var value := wst[sp];
      sp := sp - 1;
      sp := sp + 1;
      wst[sp] := FloorSqrt(value);
      pc := pc + 1;
    }

    method AbsInstruction()
      requires Valid() && CanPop(Abstract(), 1)
      modifies this, wst
      ensures Abstract() == Pmx.AbsInstruction(old(Abstract()))
    {
      var value := wst[sp];
      sp := sp - 1;
      sp := sp + 1;
      wst[sp] := ToByte(Abs(value));
      pc := pc + 1;
    }

    method Store()
      requires Valid() && CanPop(Abstract(), 2)
      modifies this, memory
      ensures Abstract() == Pmx.Store(old(Abstract()))
    {
      var addr := wst[sp];
      sp := sp - 1;
      var value := wst[sp];
      sp := sp - 1;
      memory[addr] := value;
      pc := pc + 1;
    }

    method Ret()
      requires Valid() && CanPop(Abstract(), 1) && -1 <= rp && rp + 1 < rst.Length
      modifies this, rst
      ensures Abstract() == Pmx.Ret(old(Abstract()))
    {
      rp := rp + 1;
      rst[rp] := wst[sp];
      sp := sp - 1;
      pc := pc + 1;
    }

    /**
     * One iteration of the loop of `run`: fetch memory[pc] and dispatch on it
     * through the switch (Decode), returning the new value of `running`.
     * Swap's call is dead: no byte cell holds 0x1CF, 0x2CF or 0x3CF.
     */
    method Execute() returns (running: bool)
      requires Valid() && CanStep(Abstract())
      modifies this, memory, wst, rst, registers, dev
      ensures (Abstract(), running) == Step(old(Abstract()))
    {
      running := true;
      var instruction: int := memory[pc];
      match Decode(instruction) {
        case DoHalt => running := Halt();
        case DoLoad(reg) => Load(reg, memory[pc + 1]);
        case DoAdd => Add();
        case DoSub => Sub();
        case DoPush => Push(memory[pc + 1]);
        case DoPop => Pop(memory[pc + 1]);
        case DoEqual => Equal();
        case DoLowerThan => LowerThan();
        case DoDuplicate => Duplicate();
        case DoPutOnTop => PutOnTopOfStack(memory[pc + 1]);
        case DoOver => Over();
        case DoIncrease => Increase();
        case DoDecrease => Decrease();
        case DoSqrt => SqrtInstruction();
        case DoAbs => AbsInstruction();
        case DoPower => Power();
        case DoStore => Store();
        case DoConsoleDeo => ConsoleDeo(memory[pc + 1]);
        case DoDevWrite => DevWrite(memory[pc + 1]);
        case DoGoto => GotoInstruction();
        case DoJump => Jump();
        case DoRemoveTop => RemoveTopOfStack();
        case DoJumpIfNotZero => JumpIfNotZero();
        case DoReadPc => ReadPc();
        case DoRet => Ret();
        case DoSwap => Swap();
        case DoStop => running := false;
      }
    }

    /** One iteration of the loop of `run` inside a run that is safe for `fuel` more iterations. */
    method Advance(ghost fuel: nat) returns (running: bool)
      requires Valid() && SafeLoop(StepFn, Steppable, Abstract(), fuel) && 0 < fuel
      modifies this, memory, wst, rst, registers, dev
      ensures running ==> SafeLoop(StepFn, Steppable, Abstract(), fuel - 1)
                          && Loop(StepFn, old(Abstract()), fuel) == Loop(StepFn, Abstract(), fuel - 1)
      ensures !running ==> Loop(StepFn, old(Abstract()), fuel) == Outcome(Abstract(), true)
    {
      ghost var before := Abstract();
      PmxProperties.LoopFirst(StepFn, Steppable, before, fuel);
      PmxProperties.StepFnIsStep(before);
      running := Execute();
    }

    /**
     * `run`, cut off after `fuel` iterations: returns whether the loop ended
     * by itself, and the machine is then in the state Pmx.Run describes.
     */
    method Run(fuel: nat) returns (stopped: bool)
      requires Valid() && SafeRun(Abstract(), fuel)
      modifies this, memory, wst, rst, registers, dev
      ensures Outcome(Abstract(), stopped) == Pmx.Run(old(Abstract()), fuel)
    {
      var running := true;
      var steps := 0;
      while running && steps < fuel
        invariant 0 <= steps <= fuel
        invariant running ==> SafeLoop(StepFn, Steppable, Abstract(), fuel - steps)
                              && Loop(StepFn, old(Abstract()), fuel) == Loop(StepFn, Abstract(), fuel - steps)
        invariant !running ==> Loop(StepFn, old(Abstract()), fuel) == Outcome(Abstract(), true)
        decreases fuel - steps
      {
        running := Advance(fuel - steps);
        steps := steps + 1;
      }
      stopped := !running;
    }

    /** get_assembly_instruction: a linear search of opcode_map for the first matching pair. */
    method GetAssemblyInstruction(opcode: Byte) returns (name: string)
      ensures name == Mnemonic(opcode)
    {
      var i := 0;
      while i < |OpcodeMap|
        invariant 0 <= i <= |OpcodeMap|
        invariant Mnemonic(opcode) == MnemonicFrom(opcode, i)
      {
        if OpcodeMap[i].0 == opcode {
          return OpcodeMap[i].1;
        }
        i := i + 1;
      }
      return "UNKNOWN";
    }
  }
}
