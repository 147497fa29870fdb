/**
 * Properties of the PMX engine that relate several handlers or several steps
 * of the `run` loop.
 */
module PmxProperties {
  import opened Pmx

  /** The switch of `run` has no case for a value a byte cell can hold that selects swap. */
  lemma SwapUnreachable(b: Byte)
    ensures Decode(b) != DoSwap
  {
  }

  /**
   * The dispatch quirks of `run`: GTH (0x0E), SWAP's table code 0xCF and the
   * assembler's MOV code 0x20 fall to `default`; 0x00 halts and 0xFF runs ret.
   */
  lemma DecodeQuirks()
    ensures Decode(0x0E) == DoStop && Decode(0xCF) == DoStop && Decode(0x20) == DoStop
    ensures Decode(0x00) == DoHalt && Decode(0xFF) == DoRet
    ensures Decode(0x1CF) == DoSwap
  {
  }

  /** opcode_map lists its opcodes in increasing order. */
  lemma {:induction false} OpcodeMapIncreasing(i: int, j: int)
    requires 0 <= i < j < |OpcodeMap|
    ensures OpcodeMap[i].0 < OpcodeMap[j].0
    decreases j - i
  {
    assert forall k :: 0 <= k < |OpcodeMap| - 1 ==> OpcodeMap[k].0 < OpcodeMap[k + 1].0;
    if i + 1 < j {
      OpcodeMapIncreasing(i + 1, j);
    }
  }

  /** The opcodes of opcode_map are pairwise distinct, so the first match is the only one. */
  lemma OpcodeMapDistinct()
    ensures forall i, j :: 0 <= i < j < |OpcodeMap| ==> OpcodeMap[i].0 != OpcodeMap[j].0
  {
    forall i, j | 0 <= i < j < |OpcodeMap|
      ensures OpcodeMap[i].0 != OpcodeMap[j].0
    {
      OpcodeMapIncreasing(i, j);
    }
  }

  /**
   * The search from index `from` answers "UNKNOWN" when no later pair has the
   * opcode, and otherwise the text of the first such pair.
   */
  lemma {:induction false} MnemonicFromFirst(opcode: Byte, from: nat)
    requires from <= |OpcodeMap|
    ensures (forall i :: from <= i < |OpcodeMap| ==> OpcodeMap[i].0 != opcode) ==>
              MnemonicFrom(opcode, from) == "UNKNOWN"
    ensures forall i :: from <= i < |OpcodeMap| && OpcodeMap[i].0 == opcode ==>
              (forall j :: from <= j < i ==> OpcodeMap[j].0 != opcode) ==> MnemonicFrom(opcode, from) == OpcodeMap[i].1
    decreases |OpcodeMap| - from
  {
    if from < |OpcodeMap| && OpcodeMap[from].0 != opcode {
      MnemonicFromFirst(opcode, from + 1);
    }
  }

  /** Since the opcodes of opcode_map are distinct, the lookup returns the text paired with the opcode. */
  lemma MnemonicFound(i: int)
    requires 0 <= i < |OpcodeMap|
    ensures Mnemonic(OpcodeMap[i].0) == OpcodeMap[i].1
  {
    OpcodeMapDistinct();
    MnemonicFromFirst(OpcodeMap[i].0, 0);
  }

  /** No text of opcode_map is "UNKNOWN". */
  lemma OpcodeMapNamed()
    ensures forall i :: 0 <= i < |OpcodeMap| ==> OpcodeMap[i].1 != "UNKNOWN"
  {
    forall i | 0 <= i < |OpcodeMap|
      ensures OpcodeMap[i].1 != "UNKNOWN"
    {
      assert OpcodeMap[i].1[0] != 'U' || OpcodeMap[i].1 == "SUB";
    }
  }

  /** get_assembly_instruction finds a text exactly for the opcodes of opcode_map, and it is the paired one. */
  lemma MnemonicKnown(opcode: Byte)
    ensures Mnemonic(opcode) != "UNKNOWN" <==> exists i :: 0 <= i < |OpcodeMap| && OpcodeMap[i].0 == opcode
    ensures forall i :: 0 <= i < |OpcodeMap| && OpcodeMap[i].0 == opcode ==> Mnemonic(opcode) == OpcodeMap[i].1
  {
    OpcodeMapDistinct();
    OpcodeMapNamed();
    MnemonicFromFirst(opcode, 0);
    forall i | 0 <= i < |OpcodeMap| && OpcodeMap[i].0 == opcode
      ensures Mnemonic(opcode) == OpcodeMap[i].1
    {
      MnemonicFound(i);
    }
  }

  /** The opcodes of opcode_map, as a set. */
  lemma OpcodeMapCodes(b: Byte)
    ensures (exists i :: 0 <= i < |OpcodeMap| && OpcodeMap[i].0 == b) <==>
            (b <= 0x14 || b == 0xAA || b == 0xAF || b == 0xBF || b == 0xCF || b == 0xDE
             || b == 0xDF || b == 0xEE || b == 0xEF || b == 0xFE || b == 0xFF)
  {
    if b <= 0x14 {
      assert OpcodeMap[b].0 == b;
    } else if b == 0xAA {
      assert OpcodeMap[21].0 == b;
    } else if b == 0xAF {
      assert OpcodeMap[22].0 == b;
    } else if b == 0xBF {
      assert OpcodeMap[23].0 == b;
    } else if b == 0xCF {
      assert OpcodeMap[24].0 == b;
    } else if b == 0xDE {
      assert OpcodeMap[25].0 == b;
    } else if b == 0xDF {
      assert OpcodeMap[26].0 == b;
    } else if b == 0xEE {
      assert OpcodeMap[27].0 == b;
    } else if b == 0xEF {
      assert OpcodeMap[28].0 == b;
    } else if b == 0xFE {
      assert OpcodeMap[29].0 == b;
    } else if b == 0xFF {
      assert OpcodeMap[30].0 == b;
    }
  }

  /** opcode_map names 0x00 "RET" though the switch halts on it, and 0xFF "HALT" though it runs ret. */
  lemma HaltRetNamesSwapped(b: Byte)
    ensures b == 0x00 ==> Mnemonic(b) == "RET" && Decode(b) == DoHalt
    ensures b == 0xFF ==> Mnemonic(b) == "HALT" && Decode(b) == DoRet
  {
    if b == 0x00 {
      MnemonicFound(0);
    } else if b == 0xFF {
      MnemonicFound(30);
    }
  }

  /** Exactly GTH (0x0E) and SWAP (0xCF) are named in opcode_map but have no `case`. */
  lemma NamedButNotDispatched(b: Byte)
    ensures (Mnemonic(b) != "UNKNOWN" && Decode(b) == DoStop) <==> (b == 0x0E || b == 0xCF)
  {
    MnemonicKnown(b);
    OpcodeMapCodes(b);
  }

  /** Exactly power (0x23), sqrt_instruction (0x24) and abs_instruction (0x25) have a `case` but no name. */
  lemma DispatchedButNotNamed(b: Byte)
    ensures (Mnemonic(b) == "UNKNOWN" && Decode(b) != DoStop) <==> (b == 0x23 || b == 0x24 || b == 0x25)
  {
    MnemonicKnown(b);
    OpcodeMapCodes(b);
  }

  /** A byte with no `case` ends the loop on the first iteration and changes nothing. */
  lemma UnknownOpcodeStops(s: State, fuel: nat)
    requires Wf(s) && 0 <= s.pc < |s.memory| && Decode(s.memory[s.pc]) == DoStop && 1 <= fuel
    ensures SafeRun(s, fuel) && Run(s, fuel) == Outcome(s, true)
  {
  }

  /** Opcode 0x00 ends the loop after unloading the program. */
  lemma HaltStops(s: State, fuel: nat)
    requires Wf(s) && 0 <= s.pc < |s.memory| && s.memory[s.pc] == 0x00
    requires s.registers[7] <= MemorySize && 1 <= fuel
    ensures SafeRun(s, fuel) && Run(s, fuel) == Outcome(UnloadProgram(s), true)
  {
  }

  /**
   * Once the loop has ended, more fuel changes nothing: the outcome of a run
   * that stopped does not depend on the bound.
   */
  lemma {:induction false} LoopStable(step: State -> (State, bool), s: State, n: nat, m: nat)
    requires Loop(step, s, n).stopped && n <= m
    ensures Loop(step, s, m) == Loop(step, s, n)
    decreases n
  {
    var r := step(s);
    if r.1 {
      LoopStable(step, r.0, n - 1, m - 1);
    }
  }

  /** Running n + m iterations is running n, then m more from where the first n left off. */
  lemma {:induction false} LoopSplit(step: State -> (State, bool), s: State, n: nat, m: nat)
    ensures Loop(step, s, n + m) ==
              if Loop(step, s, n).stopped then Loop(step, s, n) else Loop(step, Loop(step, s, n).state, m)
    decreases n
  {
    if n > 0 {
      var r := step(s);
      if r.1 {
        LoopSplit(step, r.0, n - 1, m);
      }
    }
  }

  /** The first iteration of a safe loop: `ok` holds and the loop continues from the state `step` leaves. */
  lemma LoopFirst(step: State -> (State, bool), ok: State -> bool, s: State, fuel: nat)
    requires SafeLoop(step, ok, s, fuel) && 0 < fuel
    ensures ok(s)
    ensures step(s).1 ==> SafeLoop(step, ok, step(s).0, fuel - 1) && Loop(step, s, fuel) == Loop(step, step(s).0, fuel - 1)
    ensures !step(s).1 ==> Loop(step, s, fuel) == Outcome(step(s).0, true)
  {
  }

  /** StepFn and Steppable are Step and its domain. */
  lemma StepFnIsStep(s: State)
    requires Steppable(s)
    ensures Wf(s) && CanStep(s) && StepFn(s) == Step(s)
  {
  }

  /** A property every safe step preserves holds of the state the loop ends in. */
  lemma {:induction false} LoopPreserves(step: State -> (State, bool), ok: State -> bool,
                                         inv: State -> bool, s: State, fuel: nat)
    requires forall t :: inv(t) && ok(t) ==> inv(step(t).0)
    requires inv(s) && SafeLoop(step, ok, s, fuel)
    ensures inv(Loop(step, s, fuel).state)
    decreases fuel
  {
    if fuel > 0 && step(s).1 {
      LoopPreserves(step, ok, inv, step(s).0, fuel - 1);
    }
  }

  /** Every state `run` reaches keeps the buffer sizes. */
  lemma RunKeepsWf(s: State, fuel: nat)
    requires Wf(s) && SafeRun(s, fuel)
    ensures Wf(Run(s, fuel).state)
  {
    var inv := (t: State) => Wf(t);
    forall t | inv(t) && Steppable(t) ensures inv(StepFn(t).0) {
      assert StepFn(t) == Step(t);
    }
    LoopPreserves(StepFn, Steppable, inv, s, fuel);
  }

  /**
   * POP Rn then PUSH Rn restores the machine: the popped byte is back on
   * the stack, it stays in Rn, and only pc has moved past both instructions.
   */
  lemma PopPushRoundTrip(s: State, reg: int)
    requires Wf(s) && 1 <= reg <= RegisterNumber && CanPop(s, 1)
    ensures Push(Pop(s, reg), reg) == s.(registers := s.registers[reg - 1 := Top(s)], pc := s.pc + 4)
  {
  }

  /**
   * halt undoes loading on a machine fresh from init_pmx: R8 counts the
   * loaded cells, so unload_program clears exactly them.
   */
  lemma UnloadUndoesLoad(s: State, tokens: seq<int>)
    requires IsInitial(s)
    ensures UnloadProgram(LoadTokens(s, tokens)).memory == s.memory
    ensures UnloadProgram(LoadTokens(s, tokens)).registers == s.registers
  {
    var t := UnloadProgram(LoadTokens(s, tokens));
    assert forall i :: 0 <= i < MemorySize ==> t.memory[i] == s.memory[i];
    assert forall i :: 0 <= i < RegisterNumber ==> t.registers[i] == s.registers[i];
  }

  /** The program POT 3, POT 4, ADD, HALT as the loader stores it. */
  const AddProgram: seq<int> := [0x11, 3, 0x11, 4, 0x09, 0x00]

  /** An iteration at a POT cell pushes the operand cell and goes on. */
  lemma PotStep(s: State)
    requires Wf(s) && HasOperand(s) && s.memory[s.pc] == 0x11 && CanPush(s)
    ensures Steppable(s) && StepFn(s) == (PutOnTopOfStack(s, s.memory[s.pc + 1]), true)
  {
    assert Decode(s.memory[s.pc]) == DoPutOnTop;
  }

  /** An iteration at an ADD cell adds and goes on. */
  lemma AddStep(s: State)
    requires Wf(s) && 0 <= s.pc < MemorySize && s.memory[s.pc] == 0x09 && CanPop(s, 2)
    ensures Steppable(s) && StepFn(s) == (Add(s), true)
  {
    assert Decode(s.memory[s.pc]) == DoAdd;
  }

  /** An iteration at a 0x00 cell unloads the program and stops. */
  lemma HaltStep(s: State)
    requires Wf(s) && 0 <= s.pc < MemorySize && s.memory[s.pc] == 0x00 && s.registers[7] <= MemorySize
    ensures Steppable(s) && StepFn(s) == (UnloadProgram(s), false)
  {
    assert Decode(s.memory[s.pc]) == DoHalt;
  }

  /**
   * The four iterations of `run` over AddProgram on a fresh machine: two
   * pushes, the addition, then halt.
   */
  lemma AddProgramTrace(s: State)
    requires IsInitial(s)
    ensures var l := LoadTokens(s, AddProgram);
            var s1 := PutOnTopOfStack(l, 3);
            var s2 := PutOnTopOfStack(s1, 4);
            var s3 := Add(s2);
            && Steppable(l) && StepFn(l) == (s1, true)
            && Steppable(s1) && StepFn(s1) == (s2, true)
            && Steppable(s2) && StepFn(s2) == (s3, true)
            && Steppable(s3) && StepFn(s3) == (UnloadProgram(s3), false)
            && s3.sp == 0 && s3.wst[0] == 7 && s3.registers[7] == 6
  {
    var l := LoadTokens(s, AddProgram);
    assert l.memory[0] == 0x11 && l.memory[1] == 3 && l.memory[2] == 0x11;
    assert l.memory[3] == 4 && l.memory[4] == 0x09 && l.memory[5] == 0x00;
    PotStep(l);
    var s1 := PutOnTopOfStack(l, 3);
    PotStep(s1);
    var s2 := PutOnTopOfStack(s1, 4);
    AddStep(s2);
    var s3 := Add(s2);
    HaltStep(s3);
  }

  /**
   * POT 3, POT 4, ADD, HALT loaded on a fresh machine: after three steps the
   * stack holds the single cell 7; the fourth step halts, emptying the stack
   * and clearing the six program cells while the 7 stays in wst[0].
   */
  lemma AddProgramExample(s: State)
    requires IsInitial(s)
    ensures var l := LoadTokens(s, AddProgram);
            && SafeRun(l, 4)
            && Run(l, 3).state.sp == 0 && Run(l, 3).state.wst[0] == 7 && !Run(l, 3).stopped
            && Run(l, 4).stopped && Run(l, 4).state.sp == -1 && Run(l, 4).state.wst[0] == 7
            && (forall i :: 0 <= i < 6 ==> Run(l, 4).state.memory[i] == 0)
  {
    AddProgramTrace(s);
    var l := LoadTokens(s, AddProgram);
    var s1 := PutOnTopOfStack(l, 3);
    var s2 := PutOnTopOfStack(s1, 4);
    var s3 := Add(s2);
    assert SafeLoop(StepFn, Steppable, s3, 1);
    assert SafeLoop(StepFn, Steppable, s2, 2);
    assert SafeLoop(StepFn, Steppable, s1, 3);
    assert SafeLoop(StepFn, Steppable, l, 4);
    assert Loop(StepFn, s3, 0) == Outcome(s3, false);
    assert Loop(StepFn, s2, 1) == Outcome(s3, false);
    assert Loop(StepFn, s1, 2) == Outcome(s3, false);
    assert Loop(StepFn, l, 3) == Outcome(s3, false);
    assert Loop(StepFn, l, 4) == Outcome(UnloadProgram(s3), true);
  }
}
