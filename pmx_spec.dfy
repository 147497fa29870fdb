/**
 * The PMX execution engine of src/pmx.c as pure state transformers.
 *
 * A `State` is the PMX record of src/pmx.h: byte-celled memory and stacks,
 * the stack indices, the program counter, eight int registers and 256 int
 * device ports.  Every opcode handler is a function from State to State;
 * `Step` is one iteration of the dispatch loop of `run` and `Run` is the loop
 * itself, bounded by a fuel parameter because it need not terminate.
 *
 * The C code never checks a stack index or an address: the `requires` clauses
 * below are exactly the accesses each handler makes.
 */
module Pmx {

  /** MEMORY_SIZE: the number of cells of memory, wst and rst that init_pmx clears. */
  const MemorySize: nat := 1024 * 64 * 10
  const RegisterNumber: nat := 8
  const DevPorts: nat := 0x100

  /** A cell of memory, wst or rst: all three are declared `unsigned char *`. */
  type Byte = x: int | 0 <= x < 256

  /** C's conversion of an int to unsigned char: reduction modulo 256. */
  function ToByte(v: int): (b: Byte)
    ensures (v - b) % 256 == 0
  {
    v % 256
  }

  datatype State = State(
    memory: seq<Byte>,
    wst: seq<Byte>,
    rst: seq<Byte>,
    sp: int,
    rp: int,
    pc: int,
    registers: seq<int>,
    dev: seq<int>,
    time: int)

  /** The cells init_pmx clears in each buffer, and the sizes every handler keeps. */
  predicate Wf(s: State)
  {
    && |s.memory| == MemorySize
    && |s.wst| == MemorySize
    && |s.rst| == MemorySize
    && |s.registers| == RegisterNumber
    && |s.dev| == DevPorts
  }

  /** Number of cells on the working stack (sp == -1 is the empty stack). */
  function Depth(s: State): int
  {
    s.sp + 1
  }

  /** The n cells wst[sp-n+1..sp] can be read. */
  predicate CanPop(s: State, n: nat)
  {
    n - 1 <= s.sp < |s.wst|
  }

  /** wst[sp+1] can be written. */
  predicate CanPush(s: State)
  {
    -1 <= s.sp && s.sp + 1 < |s.wst|
  }

  function Top(s: State): Byte
    requires CanPop(s, 1)
  {
    s.wst[s.sp]
  }

  function Second(s: State): Byte
    requires CanPop(s, 2)
  {
    s.wst[s.sp - 1]
  }

  /** Everything but the working stack, its index and the program counter agrees. */
  predicate KeepsRest(s: State, t: State)
  {
    && t.memory == s.memory
    && t.rst == s.rst
    && t.rp == s.rp
    && t.registers == s.registers
    && t.dev == s.dev
    && t.time == s.time
  }

  /** The working-stack cells below index n agree. */
  predicate KeepsBelow(s: State, t: State, n: int)
  {
    0 <= n <= |s.wst| && |t.wst| == |s.wst| && t.wst[..n] == s.wst[..n]
  }

  /** Every cell zero, both stacks empty: the state init_pmx leaves (dev is not cleared). */
  predicate IsInitial(s: State)
  {
    && Wf(s)
    && (forall i :: 0 <= i < |s.memory| ==> s.memory[i] == 0)
    && (forall i :: 0 <= i < |s.wst| ==> s.wst[i] == 0)
    && (forall i :: 0 <= i < |s.rst| ==> s.rst[i] == 0)
    && (forall i :: 0 <= i < |s.registers| ==> s.registers[i] == 0)
    && s.sp == -1 && s.rp == -1 && s.pc == 0 && s.time == 0
  }

  // ---------------------------------------------------------------------
  // Program loading

  /** load_program: the first `length` cells of memory receive the program, as bytes. */
  function LoadProgram(s: State, program: seq<int>, length: int): (t: State)
    requires Wf(s) && length <= |program| && length <= MemorySize
    ensures Wf(t)
    ensures forall i :: 0 <= i < length ==> t.memory[i] == ToByte(program[i])
    ensures forall i :: length <= i < MemorySize && 0 <= i ==> t.memory[i] == s.memory[i]
    ensures t == s.(memory := t.memory)
  {
    s.(memory := seq(|s.memory|, i requires 0 <= i < |s.memory| =>
                       if i < length then ToByte(program[i]) else s.memory[i]))
  }

  /** MAX_PROGRAM_SIZE of load_program_from_file. */
  const MaxProgramSize: nat := 1000

  /**
   * What load_program_from_file does once the file is parsed into integers:
   * at most 1000 of them are kept, R8 records their number, then load_program.
   */
  function LoadTokens(s: State, tokens: seq<int>): (t: State)
    requires Wf(s)
    ensures Wf(t)
    ensures t.registers[7] == if |tokens| < MaxProgramSize then |tokens| else MaxProgramSize
    ensures forall i :: 0 <= i < t.registers[7] ==> t.memory[i] == ToByte(tokens[i])
  {
    var n := if |tokens| < MaxProgramSize then |tokens| else MaxProgramSize;
    LoadProgram(s.(registers := s.registers[7 := n]), tokens, n)
  }

  /**
   * unload_program (run by halt): pc, sp and rp reset, the first R8 cells of
   * memory cleared, then R8 itself cleared.
   */
  function UnloadProgram(s: State): (t: State)
    requires Wf(s) && s.registers[7] <= MemorySize
    ensures Wf(t) && t.pc == 0 && t.sp == -1 && t.rp == -1
    ensures t.registers == s.registers[7 := 0]
    ensures forall i :: 0 <= i < MemorySize ==>
              t.memory[i] == if i < s.registers[7] then 0 else s.memory[i]
    ensures t.wst == s.wst && t.rst == s.rst && t.dev == s.dev && t.time == s.time
  {
    var n := s.registers[7];
    s.(pc := 0, sp := -1, rp := -1,
       memory := seq(|s.memory|, i requires 0 <= i < |s.memory| => if i < n then 0 else s.memory[i]),
       registers := s.registers[7 := 0])
  }

  // ---------------------------------------------------------------------
  // Opcode handlers

  /** add: pops a (top) and b, pushes a + b as a byte. */
  function Add(s: State): (t: State)
    requires Wf(s) && CanPop(s, 2)
    ensures Wf(t) && KeepsRest(s, t)
    ensures Depth(t) == Depth(s) - 1 && t.pc == s.pc + 1
    ensures t.wst[t.sp] == ToByte(Top(s) + Second(s))
    ensures KeepsBelow(s, t, t.sp)
  {
    var a: int := s.wst[s.sp];
    var b := s.wst[s.sp - 1];
    s.(wst := s.wst[s.sp - 1 := ToByte(a + b)], sp := s.sp - 1, pc := s.pc + 1)
  }

  /** sub: pops a (top) and b, pushes a - b (not b - a) as a byte. */
  function Sub(s: State): (t: State)
    requires Wf(s) && CanPop(s, 2)
    ensures Wf(t) && KeepsRest(s, t)
    ensures Depth(t) == Depth(s) - 1 && t.pc == s.pc + 1
    ensures t.wst[t.sp] == ToByte(Top(s) - Second(s))
    ensures KeepsBelow(s, t, t.sp)
  {
    var a: int := s.wst[s.sp];
    var b := s.wst[s.sp - 1];
    s.(wst := s.wst[s.sp - 1 := ToByte(a - b)], sp := s.sp - 1, pc := s.pc + 1)
  }

  /** duplicate: copies the top cell one place up. */
  function Duplicate(s: State): (t: State)
    requires Wf(s) && CanPop(s, 1) && CanPush(s)
    ensures Wf(t) && KeepsRest(s, t)
    ensures Depth(t) == Depth(s) + 1 && t.pc == s.pc + 1
    ensures Top(t) == Top(s) && KeepsBelow(s, t, s.sp + 1)
  {
    s.(wst := s.wst[s.sp + 1 := s.wst[s.sp]], sp := s.sp + 1, pc := s.pc + 1)
  }

  /** load: R<reg> := value when reg is 1..8; pc advances by 2 in every case. */
  function Load(s: State, reg: int, value: int): (t: State)
    requires Wf(s)
    ensures Wf(t) && t.pc == s.pc + 2
    ensures t == s.(registers := t.registers, pc := t.pc)
    ensures 1 <= reg <= RegisterNumber ==> t.registers == s.registers[reg - 1 := value]
    ensures !(1 <= reg <= RegisterNumber) ==> t.registers == s.registers
  {
    var regs := if 1 <= reg <= RegisterNumber then s.registers[reg - 1 := value] else s.registers;
    s.(registers := regs, pc := s.pc + 2)
  }

  /** read_pc: pushes the program counter, as a byte. */
  function ReadPc(s: State): (t: State)
    requires Wf(s) && CanPush(s)
    ensures Wf(t) && KeepsRest(s, t)
    ensures Depth(t) == Depth(s) + 1 && t.pc == s.pc + 1
    ensures Top(t) == ToByte(s.pc) && KeepsBelow(s, t, s.sp + 1)
  {
    s.(wst := s.wst[s.sp + 1 := ToByte(s.pc)], sp := s.sp + 1, pc := s.pc + 1)
  }

  /** push: pushes R<reg> as a byte when reg is 1..8; pc advances by 2 in every case. */
  function Push(s: State, reg: int): (t: State)
    requires Wf(s) && (1 <= reg <= RegisterNumber ==> CanPush(s))
    ensures Wf(t) && KeepsRest(s, t) && t.pc == s.pc + 2
    ensures 1 <= reg <= RegisterNumber ==>
              Depth(t) == Depth(s) + 1 && Top(t) == ToByte(s.registers[reg - 1])
              && KeepsBelow(s, t, s.sp + 1)
    ensures !(1 <= reg <= RegisterNumber) ==> t.wst == s.wst && t.sp == s.sp
  {
    if 1 <= reg <= RegisterNumber then
      s.(wst := s.wst[s.sp + 1 := ToByte(s.registers[reg - 1])], sp := s.sp + 1, pc := s.pc + 2)
    else
      s.(pc := s.pc + 2)
  }

  /** pop: R<reg> := top, popping it, when reg is 1..8; pc advances by 2 in every case. */
  function Pop(s: State, reg: int): (t: State)
    requires Wf(s) && (1 <= reg <= RegisterNumber ==> CanPop(s, 1))
    ensures Wf(t) && t.pc == s.pc + 2 && t.wst == s.wst
    ensures t == s.(registers := t.registers, sp := t.sp, pc := t.pc)
    ensures 1 <= reg <= RegisterNumber ==>
              Depth(t) == Depth(s) - 1 && t.registers == s.registers[reg - 1 := Top(s)]
    ensures !(1 <= reg <= RegisterNumber) ==> t.registers == s.registers && t.sp == s.sp
  {
    if 1 <= reg <= RegisterNumber then
      s.(registers := s.registers[reg - 1 := s.wst[s.sp]], sp := s.sp - 1, pc := s.pc + 2)
    else
      s.(pc := s.pc + 2)
  }

  /** jump: pops the top into pc. */
  function Jump(s: State): (t: State)
    requires Wf(s) && CanPop(s, 1)
    ensures Wf(t) && KeepsRest(s, t) && t.wst == s.wst
    ensures Depth(t) == Depth(s) - 1 && t.pc == Top(s)
  {
    s.(pc := s.wst[s.sp], sp := s.sp - 1)
  }

  /** over: copies the second cell onto the top. */
  function Over(s: State): (t: State)
    requires Wf(s) && CanPop(s, 2) && s.sp + 1 < |s.wst|
    ensures Wf(t) && KeepsRest(s, t)
    ensures Depth(t) == Depth(s) + 1 && t.pc == s.pc + 1
    ensures Top(t) == Second(s) && KeepsBelow(s, t, s.sp + 1)
  {
    s.(wst := s.wst[s.sp + 1 := s.wst[s.sp - 1]], sp := s.sp + 1, pc := s.pc + 1)
  }

  /**
   * jump_if_not_zero: pops the condition; when it is nonzero pops the next
   * cell into pc, otherwise only advances pc by 1.
   */
  function JumpIfNotZero(s: State): (t: State)
    requires Wf(s) && CanPop(s, 1) && (Top(s) != 0 ==> CanPop(s, 2))
    ensures Wf(t) && KeepsRest(s, t) && t.wst == s.wst
    ensures Top(s) != 0 ==> Depth(t) == Depth(s) - 2 && t.pc == Second(s)
    ensures Top(s) == 0 ==> Depth(t) == Depth(s) - 1 && t.pc == s.pc + 1
  {
    var condition := s.wst[s.sp];
    var s1 := s.(sp := s.sp - 1);
    if condition != 0 then Jump(s1) else s1.(pc := s1.pc + 1)
  }

  /** The three comparisons push 0 when the relation holds and 1 otherwise. */
  function Flag(holds: bool): Byte
  {
    if holds then 0 else 1
  }

  /** equal: pops a (top) and b; pushes 0 when a == b, else 1. */
  function Equal(s: State): (t: State)
    requires Wf(s) && CanPop(s, 2)
    ensures Wf(t) && KeepsRest(s, t)
    ensures Depth(t) == Depth(s) - 1 && t.pc == s.pc + 1
    ensures (t.wst[t.sp] == 0 <==> Top(s) == Second(s)) && (t.wst[t.sp] == 0 || t.wst[t.sp] == 1)
    ensures KeepsBelow(s, t, t.sp)
  {
    var co1 := s.wst[s.sp];
    var co2 := s.wst[s.sp - 1];
    s.(wst := s.wst[s.sp - 1 := Flag(co1 == co2)], sp := s.sp - 1, pc := s.pc + 1)
  }

  /** greater_than: pops a (top) and b; pushes 0 when a > b, else 1.  No opcode reaches it. */
  function GreaterThan(s: State): (t: State)
    requires Wf(s) && CanPop(s, 2)
    ensures Wf(t) && KeepsRest(s, t)
    ensures Depth(t) == Depth(s) - 1 && t.pc == s.pc + 1
    ensures (t.wst[t.sp] == 0 <==> Top(s) > Second(s)) && (t.wst[t.sp] == 0 || t.wst[t.sp] == 1)
    ensures KeepsBelow(s, t, t.sp)
  {
    var co1 := s.wst[s.sp];
    var co2 := s.wst[s.sp - 1];
    s.(wst := s.wst[s.sp - 1 := Flag(co1 > co2)], sp := s.sp - 1, pc := s.pc + 1)
  }

  /** lower_than: pops a (top) and b; pushes 0 when a < b, else 1. */
  function LowerThan(s: State): (t: State)
    requires Wf(s) && CanPop(s, 2)
    ensures Wf(t) && KeepsRest(s, t)
    ensures Depth(t) == Depth(s) - 1 && t.pc == s.pc + 1
    ensures (t.wst[t.sp] == 0 <==> Top(s) < Second(s)) && (t.wst[t.sp] == 0 || t.wst[t.sp] == 1)
    ensures KeepsBelow(s, t, t.sp)
  {
    var co1 := s.wst[s.sp];
    var co2 := s.wst[s.sp - 1];
    s.(wst := s.wst[s.sp - 1 := Flag(co1 < co2)], sp := s.sp - 1, pc := s.pc + 1)
  }

  /**
   * swap: pops two register numbers and exchanges those registers.  The
   * register numbers index registers[n - 1] unchecked, so both must be 1..8.
   */
  function Swap(s: State): (t: State)
    requires Wf(s) && CanPop(s, 2)
    requires 1 <= Top(s) <= RegisterNumber && 1 <= Second(s) <= RegisterNumber
    ensures Wf(t) && t.pc == s.pc + 3 && Depth(t) == Depth(s) - 2 && t.wst == s.wst
    ensures t == s.(registers := t.registers, sp := t.sp, pc := t.pc)
    ensures t.registers[Top(s) - 1] == s.registers[Second(s) - 1]
    ensures t.registers[Second(s) - 1] == s.registers[Top(s) - 1]
    ensures forall i :: 0 <= i < RegisterNumber && i != Top(s) - 1 && i != Second(s) - 1 ==>
              t.registers[i] == s.registers[i]
  {
    var reg1 := s.wst[s.sp];
    var reg2 := s.wst[s.sp - 1];
    var temp := s.registers[reg1 - 1];
    var regs := s.registers[reg1 - 1 := s.registers[reg2 - 1]];
    s.(registers := regs[reg2 - 1 := temp], sp := s.sp - 2, pc := s.pc + 3)
  }

  /** console_deo: the console write is not modelled; only pc advances by 2. */
  function ConsoleDeo(s: State, addr: int): (t: State)
    ensures t == s.(pc := s.pc + 2)
  {
    s.(pc := s.pc + 2)
  }

  /** increase: the top cell goes up by one, wrapping 255 to 0. */
  function Increase(s: State): (t: State)
    requires Wf(s) && CanPop(s, 1)
    ensures Wf(t) && KeepsRest(s, t) && t.sp == s.sp && t.pc == s.pc + 1
    ensures Top(t) == ToByte(Top(s) + 1) && KeepsBelow(s, t, s.sp)
  {
    s.(wst := s.wst[s.sp := ToByte(s.wst[s.sp] as int + 1)], pc := s.pc + 1)
  }

  /** decrease: the top cell goes down by one, wrapping 0 to 255. */
  function Decrease(s: State): (t: State)
    requires Wf(s) && CanPop(s, 1)
    ensures Wf(t) && KeepsRest(s, t) && t.sp == s.sp && t.pc == s.pc + 1
    ensures Top(t) == ToByte(Top(s) - 1) && KeepsBelow(s, t, s.sp)
  {
    s.(wst := s.wst[s.sp := ToByte(s.wst[s.sp] as int - 1)], pc := s.pc + 1)
  }

  /** remove_top_of_stack: sp goes down by one; no cell is read. */
  function RemoveTopOfStack(s: State): (t: State)
    ensures t == s.(sp := s.sp - 1, pc := s.pc + 1)
  {
    s.(sp := s.sp - 1, pc := s.pc + 1)
  }

  /** dev_write: pops the top into dev[addr]. */
  function DevWrite(s: State, addr: int): (t: State)
    requires Wf(s) && CanPop(s, 1) && 0 <= addr < DevPorts
    ensures Wf(t) && t.pc == s.pc + 2 && Depth(t) == Depth(s) - 1
    ensures t.dev == s.dev[addr := Top(s)]
    ensures t == s.(dev := t.dev, sp := t.sp, pc := t.pc)
  {
    s.(dev := s.dev[addr := s.wst[s.sp]], sp := s.sp - 1, pc := s.pc + 2)
  }

  /** put_on_top_of_stack: pushes the literal operand, as a byte. */
  function PutOnTopOfStack(s: State, value: int): (t: State)
    requires Wf(s) && CanPush(s)
    ensures Wf(t) && KeepsRest(s, t)
    ensures Depth(t) == Depth(s) + 1 && t.pc == s.pc + 2
    ensures Top(t) == ToByte(value) && KeepsBelow(s, t, s.sp + 1)
  {
    s.(wst := s.wst[s.sp + 1 := ToByte(value)], sp := s.sp + 1, pc := s.pc + 2)
  }

  /**
   * goto_instruction: pushes pc + 1, runs over, then jump.  The net effect:
   * pc becomes the old top, which stays in place, and pc + 1 sits above it.
   */
  function GotoInstruction(s: State): (t: State)
    requires Wf(s) && CanPop(s, 1) && s.sp + 2 < |s.wst|
    ensures Wf(t) && KeepsRest(s, t)
    ensures t.pc == Top(s) && Depth(t) == Depth(s) + 1
    ensures Top(t) == ToByte(s.pc + 1) && t.wst[t.sp - 1] == Top(s)
    ensures KeepsBelow(s, t, s.sp + 1)
  {
    var pushed := s.(wst := s.wst[s.sp + 1 := ToByte(s.pc + 1)], sp := s.sp + 1);
    Jump(Over(pushed))
  }

  /** Natural-number power; pow of two byte operands is exact while below 2^31. */
  function Pow(base: nat, exponent: nat): nat
  {
    if exponent == 0 then 1 else base * Pow(base, exponent - 1)
  }

  /** The integer part of a square root: (int)sqrt(n) for a byte n. */
  function FloorSqrt(n: nat): (r: nat)
    ensures r * r <= n < (r + 1) * (r + 1)
  {
    if n == 0 then 0
    else
      var r := FloorSqrt(n - 1);
      if (r + 1) * (r + 1) <= n then r + 1 else r
  }

  /**
   * power: pops value (top) and exponent, pushes (int)pow(value, exponent).
   * The cast is defined only while the result fits an int.
   */
  function Power(s: State): (t: State)
    requires Wf(s) && CanPop(s, 2) && Pow(Top(s), Second(s)) < 0x8000_0000
    ensures Wf(t) && KeepsRest(s, t)
    ensures Depth(t) == Depth(s) - 1 && t.pc == s.pc + 1
    ensures t.wst[t.sp] == ToByte(Pow(Top(s), Second(s))) && KeepsBelow(s, t, t.sp)
  {
    var value := s.wst[s.sp];
    var power := s.wst[s.sp - 1];
    s.(wst := s.wst[s.sp - 1 := ToByte(Pow(value, power))], sp := s.sp - 1, pc := s.pc + 1)
  }

  /** sqrt_instruction: replaces the top by its integer square root. */
  function SqrtInstruction(s: State): (t: State)
    requires Wf(s) && CanPop(s, 1)
    ensures Wf(t) && KeepsRest(s, t) && t.sp == s.sp && t.pc == s.pc + 1
    ensures Top(t) * Top(t) <= Top(s) < (Top(t) + 1) * (Top(t) + 1)
    ensures KeepsBelow(s, t, s.sp)
  {
    s.(wst := s.wst[s.sp := FloorSqrt(s.wst[s.sp])], pc := s.pc + 1)
  }

  function Abs(v: int): nat
  {
    if v < 0 then -v else v
  }

  /** abs_instruction: replaces the top by its absolute value, which for a byte is itself. */
  function AbsInstruction(s: State): (t: State)
    requires Wf(s) && CanPop(s, 1)
    ensures Wf(t) && KeepsRest(s, t) && t.sp == s.sp && t.pc == s.pc + 1
    ensures Top(t) == Top(s) && t.wst == s.wst
  {
    s.(wst := s.wst[s.sp := ToByte(Abs(s.wst[s.sp]))], pc := s.pc + 1)
  }

  /** store: pops addr (top) and value, writes memory[addr] and nothing else. */
  function Store(s: State): (t: State)
    requires Wf(s) && CanPop(s, 2)
    ensures Wf(t) && t.pc == s.pc + 1 && Depth(t) == Depth(s) - 2 && t.wst == s.wst
    ensures t.memory[Top(s)] == Second(s)
    ensures forall i :: 0 <= i < MemorySize && i != Top(s) ==> t.memory[i] == s.memory[i]
    ensures t == s.(memory := t.memory, sp := t.sp, pc := t.pc)
  {
    var addr := s.wst[s.sp];
    var value := s.wst[s.sp - 1];
    s.(memory := s.memory[addr := value], sp := s.sp - 2, pc := s.pc + 1)
  }

  /** ret: moves the top of the working stack onto the return stack. */
  function Ret(s: State): (t: State)
    requires Wf(s) && CanPop(s, 1) && -1 <= s.rp && s.rp + 1 < |s.rst|
    ensures Wf(t) && t.pc == s.pc + 1 && Depth(t) == Depth(s) - 1 && t.wst == s.wst
    ensures t.rp == s.rp + 1 && t.rst[t.rp] == Top(s) && t.rst[..t.rp] == s.rst[..t.rp]
    ensures t == s.(rst := t.rst, rp := t.rp, sp := t.sp, pc := t.pc)
  {
    s.(rst := s.rst[s.rp + 1 := s.wst[s.sp]], rp := s.rp + 1, sp := s.sp - 1, pc := s.pc + 1)
  }

  // ---------------------------------------------------------------------
  // Mnemonic table

  /** opcode_map: OPCODE_COUNT (31) pairs of an opcode and its assembly text, in source order. */
  const OpcodeMap: seq<(Byte, string)> := [
    (0x00, "RET"), (0x01, "LOAD R1"), (0x02, "LOAD R2"), (0x03, "LOAD R3"),
    (0x04, "LOAD R4"), (0x05, "LOAD R5"), (0x06, "LOAD R6"), (0x07, "LOAD R7"),
    (0x08, "LOAD R8"), (0x09, "ADD"), (0x0A, "SUB"), (0x0B, "PUSH"), (0x0C, "POP"),
    (0x0D, "EQUAL"), (0x0E, "GTH"), (0x0F, "LTH"), (0x10, "DUP"), (0x11, "POT"),
    (0x12, "OVR"), (0x13, "INC"), (0x14, "DCR"), (0xAA, "STR"), (0xAF, "DVO"),
    (0xBF, "DVW"), (0xCF, "SWAP"), (0xDE, "GOTO"), (0xDF, "JMP"), (0xEE, "RMV"),
    (0xEF, "JNZ"), (0xFE, "RPC"), (0xFF, "HALT")]

  /**
   * The text of the first pair of opcode_map at index `from` or later whose
   * opcode is `opcode`, or "UNKNOWN" when there is none.
   */
  function MnemonicFrom(opcode: Byte, from: nat): string
    requires from <= |OpcodeMap|
    decreases |OpcodeMap| - from
  {
    if from == |OpcodeMap| then "UNKNOWN"
    else if OpcodeMap[from].0 == opcode then OpcodeMap[from].1
    else MnemonicFrom(opcode, from + 1)
  }

  /** get_assembly_instruction as a value: the first text paired with `opcode`, else "UNKNOWN". */
  function Mnemonic(opcode: Byte): string
  {
    MnemonicFrom(opcode, 0)
  }

  // ---------------------------------------------------------------------
  // Dispatch

  /** The handler a `case` of the switch in `run` selects; DoStop is its `default`. */
  datatype Op =
    | DoHalt | DoLoad(reg: int) | DoAdd | DoSub | DoPush | DoPop | DoEqual | DoLowerThan
    | DoDuplicate | DoPutOnTop | DoOver | DoIncrease | DoDecrease | DoSqrt | DoAbs | DoPower
    | DoStore | DoConsoleDeo | DoDevWrite | DoGoto | DoJump | DoRemoveTop | DoJumpIfNotZero
    | DoReadPc | DoRet | DoSwap | DoStop

  /** The switch of `run`, keyed by the exact value fetched (an int). */
  function Decode(instruction: int): Op
  {
    match instruction
    case 0x00 => DoHalt
    case 0x01 => DoLoad(1)
    case 0x02 => DoLoad(2)
    case 0x03 => DoLoad(3)
    case 0x04 => DoLoad(4)
    case 0x05 => DoLoad(5)
    case 0x06 => DoLoad(6)
    case 0x07 => DoLoad(7)
    case 0x08 => DoLoad(8)
    case 0x09 => DoAdd
    case 0x0A => DoSub
    case 0x0B => DoPush
    case 0x0C => DoPop
    case 0x0D => DoEqual
    case 0x0F => DoLowerThan
    case 0x10 => DoDuplicate
    case 0x11 => DoPutOnTop
    case 0x12 => DoOver
    case 0x13 => DoIncrease
    case 0x14 => DoDecrease
    case 0x24 => DoSqrt
    case 0x25 => DoAbs
    case 0x23 => DoPower
    case 0xAA => DoStore
    case 0xAF => DoConsoleDeo
    case 0xBF => DoDevWrite
    case 0xDE => DoGoto
    case 0xDF => DoJump
    case 0xEE => DoRemoveTop
    case 0xEF => DoJumpIfNotZero
    case 0xFE => DoReadPc
    case 0xFF => DoRet
    case 0x1CF => DoSwap
    case 0x2CF => DoSwap
    case 0x3CF => DoSwap
    case _ => DoStop
  }

  /** The operand cell memory[pc + 1] exists. */
  predicate HasOperand(s: State)
  {
    0 <= s.pc && s.pc + 1 < |s.memory|
  }

  /** The accesses the handler selected by memory[pc] makes are in bounds. */
  predicate CanStep(s: State)
    requires Wf(s)
  {
    && 0 <= s.pc < |s.memory|
    && match Decode(s.memory[s.pc])
       case DoHalt => s.registers[7] <= MemorySize
       case DoLoad(_) => HasOperand(s)
       case DoAdd => CanPop(s, 2)
       case DoSub => CanPop(s, 2)
       case DoPush => HasOperand(s) && (1 <= s.memory[s.pc + 1] <= RegisterNumber ==> CanPush(s))
       case DoPop => HasOperand(s) && (1 <= s.memory[s.pc + 1] <= RegisterNumber ==> CanPop(s, 1))
       case DoEqual => CanPop(s, 2)
       case DoLowerThan => CanPop(s, 2)
       case DoDuplicate => CanPop(s, 1) && CanPush(s)
       case DoPutOnTop => HasOperand(s) && CanPush(s)
       case DoOver => CanPop(s, 2) && s.sp + 1 < |s.wst|
       case DoIncrease => CanPop(s, 1)
       case DoDecrease => CanPop(s, 1)
       case DoSqrt => CanPop(s, 1)
       case DoAbs => CanPop(s, 1)
       case DoPower => CanPop(s, 2) && Pow(Top(s), Second(s)) < 0x8000_0000
       case DoStore => CanPop(s, 2)
       case DoConsoleDeo => HasOperand(s)
       case DoDevWrite => HasOperand(s) && CanPop(s, 1)
       case DoGoto => CanPop(s, 1) && s.sp + 2 < |s.wst|
       case DoJump => CanPop(s, 1)
       case DoRemoveTop => true
       case DoJumpIfNotZero => CanPop(s, 1) && (Top(s) != 0 ==> CanPop(s, 2))
       case DoReadPc => CanPush(s)
       case DoRet => CanPop(s, 1) && -1 <= s.rp && s.rp + 1 < |s.rst|
       case DoSwap => CanPop(s, 2) && 1 <= Top(s) <= RegisterNumber && 1 <= Second(s) <= RegisterNumber
       case DoStop => true
  }

  /**
   * One iteration of the loop in `run`: the new state and the new value of
   * `running` (cleared by halt and by the default case).
   */
  function Step(s: State): (r: (State, bool))
    requires Wf(s) && CanStep(s)
    ensures Wf(r.0)
  {
    var operand := if HasOperand(s) then s.memory[s.pc + 1] else 0;
    match Decode(s.memory[s.pc])
    case DoHalt => (UnloadProgram(s), false)
    case DoLoad(reg) => (Load(s, reg, operand), true)
    case DoAdd => (Add(s), true)
    case DoSub => (Sub(s), true)
    case DoPush => (Push(s, operand), true)
    case DoPop => (Pop(s, operand), true)
    case DoEqual => (Equal(s), true)
    case DoLowerThan => (LowerThan(s), true)
    case DoDuplicate => (Duplicate(s), true)
    case DoPutOnTop => (PutOnTopOfStack(s, operand), true)
    case DoOver => (Over(s), true)
    case DoIncrease => (Increase(s), true)
    case DoDecrease => (Decrease(s), true)
    case DoSqrt => (SqrtInstruction(s), true)
    case DoAbs => (AbsInstruction(s), true)
    case DoPower => (Power(s), true)
    case DoStore => (Store(s), true)
    case DoConsoleDeo => (ConsoleDeo(s, operand), true)
    case DoDevWrite => (DevWrite(s, operand), true)
    case DoGoto => (GotoInstruction(s), true)
    case DoJump => (Jump(s), true)
    case DoRemoveTop => (RemoveTopOfStack(s), true)
    case DoJumpIfNotZero => (JumpIfNotZero(s), true)
    case DoReadPc => (ReadPc(s), true)
    case DoRet => (Ret(s), true)
    case DoSwap => (Swap(s), true)
    case DoStop => (s, false)
  }

  /** The states where Step is defined. */
  const Steppable: State -> bool := (s: State) => Wf(s) && CanStep(s)

  /**
   * Step as a function value for the generic loop below.  Outside Steppable
   * its value is never used: Run requires SafeRun, which keeps every iterated
   * state inside it.
   */
  const StepFn: State -> (State, bool) :=
    (s: State) => if Wf(s) && CanStep(s) then Step(s) else (s, false)

  /** Every state a `while (running)` loop over `step` reaches within `fuel` iterations satisfies `ok`. */
  ghost predicate SafeLoop(step: State -> (State, bool), ok: State -> bool, s: State, fuel: nat)
    decreases fuel
  {
    fuel == 0 || (ok(s) && (step(s).1 ==> SafeLoop(step, ok, step(s).0, fuel - 1)))
  }

  /** The final state of the loop and whether it ended (rather than the fuel). */
  datatype Outcome = Outcome(state: State, stopped: bool)

  /** A `while (running)` loop over `step`, at most `fuel` iterations. */
  function Loop(step: State -> (State, bool), s: State, fuel: nat): (o: Outcome)
    ensures fuel == 0 ==> o == Outcome(s, false)
    ensures o.stopped ==> fuel > 0
    decreases fuel
  {
    if fuel == 0 then Outcome(s, false)
    else
      var r := step(s);
      if r.1 then Loop(step, r.0, fuel - 1) else Outcome(r.0, true)
  }

  /** Every step `run` takes within `fuel` iterations makes only in-bounds accesses. */
  ghost predicate SafeRun(s: State, fuel: nat)
  {
    SafeLoop(StepFn, Steppable, s, fuel)
  }

  /** `run`: iterate Step while `running` holds, at most `fuel` times. */
  function Run(s: State, fuel: nat): (o: Outcome)
    requires SafeRun(s, fuel)
    ensures fuel == 0 ==> o == Outcome(s, false)
  {
    Loop(StepFn, s, fuel)
  }
}
