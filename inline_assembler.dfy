/**
 * The emitters of assembler.py, the earlier assembler.  Its
 * parse_instructions writes every handler inline and differs from
 * pmxAssembler.py in four places:
 *   - LOAD may follow a variable or "0x" operand with "+ n" / "- n" words,
 *     evaluated with an operator stack and a value stack;
 *   - GOTO has a branch of its own and keeps its operand;
 *   - MOV is neither handled nor in the table, so it emits nothing;
 *   - the display address is a parameter that WCHR advances only locally,
 *     so the caller's address never moves.
 * The handlers that are the same code in both files (VAR, CALL, LABEL, the
 * unary words, SWAP, the WCHR stores and replace_variables) reuse the
 * PmxAssembler definitions.
 */
module InlineAssembler {
  import opened PyText
  import PmxAssembler

  /** assembler.py's assembly_to_opcode: pmxAssembler.py's table without MOV. */
  const AssemblyToOpcode: map<string, string> := PmxAssembler.AssemblyToOpcode - {"MOV"}

  /** The words parse_instructions hands to a branch of its own. */
  const HandledWords: set<string> := {
    "LOAD", "PUSH", "POP", "SWAP", "DVW", "POT", "DVO",
    "VAR", "LABEL", "GOTO", "CALL", "WCHR", "WSTR", "IMPORT"}

  /** The branch of parse_instructions a mnemonic takes. */
  datatype Handler =
    | LoadLine | VarLine | CallLine | GotoLine | ImportLine | LabelLine | WchrLine | UnaryLine | SwapLine
    | WstrLine
    | BareLine(opcode: string)  // a table word without a branch: its opcode alone
    | Ignored                   // neither handled nor in the table

  function Dispatch(word: string): (h: Handler)
    ensures h == UnaryLine ==> word in PmxAssembler.UnaryWords
  {
    if word in HandledWords then
      if word == "LOAD" then LoadLine
      else if word == "VAR" then VarLine
      else if word == "CALL" then CallLine
      else if word == "GOTO" then GotoLine
      else if word == "IMPORT" then ImportLine
      else if word == "LABEL" then LabelLine
      else if word == "WCHR" then WchrLine
      else if word in PmxAssembler.UnaryWords then UnaryLine
      else if word == "SWAP" then SwapLine
      else WstrLine
    else if word in AssemblyToOpcode then BareLine(AssemblyToOpcode[word])
    else Ignored
  }

  // ---------------------------------------------------------------------
  // LOAD with operator and value stacks

  /** One word after a LOAD operand: an operator ('-' or '+' anywhere in it) or a number. */
  datatype Term = Operator(minus: bool) | Number(n: int)

  function ClassifyWord(word: string): Result<Term>
  {
    if '-' in word then Ok(Operator(true))
    else if '+' in word then Ok(Operator(false))
    else
      match ParseInt(word)
      case None => Raised(ValueError)
      case Some(n) => Ok(Number(n))
  }

  /**
   * The stacks ost and vst after reading `words` left to right: the
   * operators (true for '-') and the numbers, each in order; or the
   * ValueError of the first word that is neither.
   */
  function Stacks(words: seq<string>): Result<(seq<bool>, seq<int>)>
    decreases |words|
  {
    if |words| == 0 then Ok(([], []))
    else
      match Stacks(words[..|words| - 1])
      case Raised(e) => Raised(e)
      case Ok(stacks) =>
        match ClassifyWord(words[|words| - 1])
        case Raised(e) => Raised(e)
        case Ok(Operator(minus)) => Ok((stacks.0 + [minus], stacks.1))
        case Ok(Number(n)) => Ok((stacks.0, stacks.1 + [n]))
  }

  /**
   * The pop loop: once per operator, the last value and the last operator
   * are popped and applied to the operand.  An empty value stack raises
   * IndexError; arithmetic on a "0x" operand (a str) raises TypeError.
   */
  function Fold(operand: Value, ops: seq<bool>, vals: seq<int>): Result<Value>
    decreases |ops|
  {
    if |ops| == 0 then Ok(operand)
    else if |vals| == 0 then Raised(IndexError)
    else if operand.Str? then Raised(TypeError)
    else
      var a := vals[|vals| - 1];
      Fold(Int(if ops[|ops| - 1] then operand.i - a else operand.i + a), ops[..|ops| - 1], vals[..|vals| - 1])
  }

  /** The entries LOAD appends, or the exception it raises first. */
  function LoadEmit(parts: seq<string>, variables: map<string, int>): Result<seq<Value>>
  {
    if |parts| < 2 then Raised(IndexError)
    else if parts[1] !in PmxAssembler.LoadOpcodes then Raised(KeyError)
    else if |parts| < 3 then Raised(IndexError)
    else if parts[2] !in variables && !Contains(parts[2], "0x") then
      match ParseInt(Remove(parts[2], '#'))
      case None => Raised(ValueError)
      case Some(n) => Ok([Str(PmxAssembler.LoadOpcodes[parts[1]]), Str(IntToString(n))])
    else
      var operand := if !Contains(parts[2], "0x") then Int(variables[parts[2]]) else Str(parts[2]);
      match Stacks(parts[3..])
      case Raised(e) => Raised(e)
      case Ok(stacks) =>
        match Fold(operand, stacks.0, stacks.1)
        case Raised(e) => Raised(e)
        case Ok(v) => Ok([Str(PmxAssembler.LoadOpcodes[parts[1]]), Str(PyStr(v))])
  }

  /** A ValueError while reading the words stops the whole reading. */
  lemma {:induction false} StacksRaisedPrefix(words: seq<string>, k: nat)
    requires k <= |words| && Stacks(words[..k]).Raised?
    ensures Stacks(words) == Stacks(words[..k])
    decreases |words| - k
  {
    if k < |words| {
      assert words[..k + 1][..k] == words[..k];
      StacksRaisedPrefix(words, k + 1);
    } else {
      assert words[..k] == words;
    }
  }

  /** The LOAD branch of parse_instructions, stacks and all. */
  method LoadInstruction(program: PyList, variables: PyDict, parts: seq<string>) returns (r: Result<()>)
    modifies program
    ensures PmxAssembler.Appended(LoadEmit(parts, variables.entries), old(program.items), program.items, r)
  {
    if |parts| < 2 {
      return Raised(IndexError);
    }
    if parts[1] !in PmxAssembler.LoadOpcodes {
      return Raised(KeyError);
    }
    var opcode := PmxAssembler.LoadOpcodes[parts[1]];
    if |parts| < 3 {
      return Raised(IndexError);
    }
    var operand: Value;
    if parts[2] !in variables.entries && !Contains(parts[2], "0x") {
      var parsed := ParseInt(Remove(parts[2], '#'));
      if parsed.None? {
        return Raised(ValueError);
      }
      operand := Int(parsed.value);
    } else {
      var ost: seq<bool> := [];
      var vst: seq<int> := [];
      var size := |parts|;
      operand := if !Contains(parts[2], "0x") then Int(variables.entries[parts[2]]) else Str(parts[2]);
      ghost var start := operand;
      assert parts[3..][..0] == [];
      if size > 3 {
        var i := 1;
        while i < size - 2
          invariant 1 <= i <= size - 2
          invariant Stacks(parts[3..][..i - 1]) == Ok((ost, vst))
        {
          var word := parts[2 + i];
          assert parts[3..][..i] == parts[3..][..i - 1] + [word];
          assert parts[3..][..i][..i - 1] == parts[3..][..i - 1];
          if '-' in word {
            ost := ost + [true];
          } else if '+' in word {
            ost := ost + [false];
          } else {
            var value := ParseInt(word);
            if value.None? {
              StacksRaisedPrefix(parts[3..], i);
              return Raised(ValueError);
            }
            vst := vst + [value.value];
          }
          i := i + 1;
        }
        assert parts[3..][..i - 1] == parts[3..];
        var ostLen := |ost|;
        var j := 0;
        while j < ostLen
          invariant 0 <= j <= ostLen && |ost| == ostLen - j
          invariant Fold(operand, ost, vst) == Fold(start, Stacks(parts[3..]).value.0, Stacks(parts[3..]).value.1)
        {
          if |vst| == 0 {
            return Raised(IndexError);
          }
          var a := vst[|vst| - 1];
          vst := vst[..|vst| - 1];
          var op := ost[|ost| - 1];
          ost := ost[..|ost| - 1];
          if operand.Str? {
            return Raised(TypeError);
          }
          if op {
            operand := Int(operand.i - a);
          } else {
            operand := Int(operand.i + a);
          }
          j := j + 1;
        }
      }
    }
    program.Append(Str(opcode));
    program.Append(Str(PyStr(operand)));
    return Ok(());
  }

  // ---------------------------------------------------------------------
  // GOTO and WCHR

  /** GOTO target: the opcode, then the target kept as it is. */
  function GotoEmit(parts: seq<string>): Result<seq<Value>>
  {
    if |parts| < 2 then Raised(IndexError)
    else Ok([Str(AssemblyToOpcode["GOTO"]), Str(parts[1])])
  }

  method GotoInstruction(program: PyList, parts: seq<string>) returns (r: Result<()>)
    modifies program
    ensures PmxAssembler.Appended(GotoEmit(parts), old(program.items), program.items, r)
  {
    if |parts| < 2 {
      return Raised(IndexError);
    }
    var operand := parts[1];
    program.Append(Str(AssemblyToOpcode["GOTO"]));
    program.Append(Str(operand));
    return Ok(());
  }

  /**
   * The WCHR branch: five blocks of POT item, POT address, STR, with the
   * address advanced in a local copy only.  Each block is the body of
   * pmxAssembler.py's add_to_display_mem.
   */
  method WchrInstruction(displayAddr: int, program: PyList, parts: seq<string>) returns (r: Result<()>)
    modifies program
    ensures PmxAssembler.Appended(PmxAssembler.WchrEmit(parts, displayAddr), old(program.items), program.items, r)
  {
    if |parts| < 2 {
      return Raised(IndexError);
    }
    if parts[1] !in PmxAssembler.CharToHex {
      return Raised(KeyError);
    }
    var charHex := PmxAssembler.CharToHex[parts[1]];
    if |parts| < 6 {
      return Raised(IndexError);
    }
    var x := Remove(parts[2], '#');
    var y := Remove(parts[3], '#');
    var scale := Remove(parts[4], '#');
    var color := parts[5];
    ghost var fields := [Str(charHex), Str(x), Str(y), Str(scale), Str(color)];
    assert fields == PmxAssembler.WchrFields(parts);
    PmxAssembler.DisplayWritesFive(fields, displayAddr);
    var addr := PmxAssembler.AddToDisplayMem(displayAddr, program, Str(charHex));
    addr := PmxAssembler.AddToDisplayMem(addr, program, Str(x));
    addr := PmxAssembler.AddToDisplayMem(addr, program, Str(y));
    addr := PmxAssembler.AddToDisplayMem(addr, program, Str(scale));
    addr := PmxAssembler.AddToDisplayMem(addr, program, Str(color));
    return Ok(());
  }

  // ---------------------------------------------------------------------
  // parse_instructions

  /**
   * parse_instructions on one line; None is a blank or comment line.  The
   * display address is read, never written.  IMPORT is outside the model.
   */
  function Parse(st: PmxAssembler.AsmState, parts: seq<string>, instruction: Option<string>, pc: int)
    : Result<PmxAssembler.AsmState>
    requires instruction != Some("IMPORT")
  {
    match instruction
    case None => Ok(st)
    case Some(word) =>
      if word == "#END" then Ok(st)
      else
        match Dispatch(word)
        case LoadLine => PmxAssembler.AfterAppend(st, LoadEmit(parts, st.variables))
        case VarLine => PmxAssembler.AfterBind(st, PmxAssembler.VarBinding(parts))
        case CallLine => PmxAssembler.AfterAppend(st, PmxAssembler.CallEmit(parts))
        case GotoLine => PmxAssembler.AfterAppend(st, GotoEmit(parts))
        case ImportLine => Ok(st)
        case LabelLine => PmxAssembler.AfterBind(st, PmxAssembler.LabelBinding(parts, |st.program|, pc))
        case WchrLine => PmxAssembler.AfterAppend(st, PmxAssembler.WchrEmit(parts, st.displayAddr))
        case UnaryLine => PmxAssembler.AfterAppend(st, PmxAssembler.UnaryEmit(parts, word, st.variables))
        case SwapLine => PmxAssembler.AfterAppend(st, PmxAssembler.SwapEmit(parts))
        case WstrLine => Ok(st)
        case BareLine(opcode) => Ok(st.(program := st.program + [Str(opcode)]))
        case Ignored => Ok(st)
  }

  /** parse_instructions: dispatches one line, appending to program and assigning into variables. */
  method ParseInstructions(displayAddr: int, program: PyList, variables: PyDict, parts: seq<string>,
                           instruction: Option<string>, pc: int) returns (r: Result<()>)
    requires instruction != Some("IMPORT")
    modifies program, variables
    ensures var e := Parse(PmxAssembler.AsmState(old(program.items), old(variables.entries), displayAddr), parts, instruction, pc);
            && (e.Raised? ==> r == Raised(e.error)
                              && program.items == old(program.items) && variables.entries == old(variables.entries))
            && (e.Ok? ==> r == Ok(()) && e.value.displayAddr == displayAddr
                          && program.items == e.value.program && variables.entries == e.value.variables)
  {
    if instruction.None? {
      return Ok(());
    }
    var word := instruction.value;
    if word == "#END" {
      return Ok(());
    }
    r := Ok(());
    match Dispatch(word) {
      case LoadLine =>
        r := LoadInstruction(program, variables, parts);
      case VarLine =>
        r := PmxAssembler.VarInstruction(variables, parts);
      case CallLine =>
        r := PmxAssembler.CallInstruction(program, parts);
      case GotoLine =>
        r := GotoInstruction(program, parts);
      case ImportLine =>
      case LabelLine =>
        r := PmxAssembler.LabelInstruction(program, variables, parts, pc);
      case WchrLine =>
        r := WchrInstruction(displayAddr, program, parts);
      case UnaryLine =>
        r := PmxAssembler.UnaryInstruction(program, variables, parts, word);
      case SwapLine =>
        r := PmxAssembler.SwapInstruction(program, parts);
      case WstrLine =>
      case BareLine(opcode) =>
        program.Append(Str(opcode));
      case Ignored =>
    }
  }

  // ---------------------------------------------------------------------
  // Properties

  /** One "- n" or "+ n" pair of words after a LOAD operand. */
  datatype Step = Step(minus: bool, amount: nat)

  /** The words a run of steps is written as. */
  function StepWords(steps: seq<Step>): seq<string>
    decreases |steps|
  {
    if |steps| == 0 then []
    else
      var last := steps[|steps| - 1];
      StepWords(steps[..|steps| - 1]) + [if last.minus then "-" else "+", NatToString(last.amount)]
  }

  /** The signed sum of the steps, the arithmetic the words mean. */
  function Total(steps: seq<Step>): int
    decreases |steps|
  {
    if |steps| == 0 then 0
    else
      var last := steps[|steps| - 1];
      Total(steps[..|steps| - 1]) + (if last.minus then -(last.amount as int) else last.amount)
  }

  function Signs(steps: seq<Step>): seq<bool>
    decreases |steps|
  {
    if |steps| == 0 then [] else Signs(steps[..|steps| - 1]) + [steps[|steps| - 1].minus]
  }

  function Amounts(steps: seq<Step>): seq<int>
    decreases |steps|
  {
    if |steps| == 0 then [] else Amounts(steps[..|steps| - 1]) + [steps[|steps| - 1].amount]
  }

  /** str(n) reads as the number n, never as an operator. */
  lemma NumberWord(n: nat)
    ensures ClassifyWord(NatToString(n)) == Ok(Number(n))
  {
    var digits := NatToString(n);
    PmxAssembler.DigitsHaveNoLetter(digits, '-');
    PmxAssembler.DigitsHaveNoLetter(digits, '+');
    assert IsDigit(digits[0]);
  }

  /** Reading the words of a run of steps pushes its signs and its amounts. */
  lemma {:induction false} StacksOfSteps(steps: seq<Step>)
    ensures Stacks(StepWords(steps)) == Ok((Signs(steps), Amounts(steps)))
    decreases |steps|
  {
    if |steps| > 0 {
      var front := steps[..|steps| - 1];
      var last := steps[|steps| - 1];
      var sign := if last.minus then "-" else "+";
      var number := NatToString(last.amount);
      StacksOfSteps(front);
      NumberWord(last.amount);
      var words := StepWords(steps);
      assert words == StepWords(front) + [sign, number];
      assert words[..|words| - 1] == StepWords(front) + [sign];
      assert (StepWords(front) + [sign])[..|words| - 2] == StepWords(front);
      assert ClassifyWord(sign) == Ok(Operator(last.minus));
    }
  }

  /** Popping the stacks of a run of steps adds up exactly its signed sum. */
  lemma {:induction false} FoldSteps(base: int, steps: seq<Step>)
    ensures Fold(Int(base), Signs(steps), Amounts(steps)) == Ok(Int(base + Total(steps)))
    decreases |steps|
  {
    if |steps| > 0 {
      var front := steps[..|steps| - 1];
      var last := steps[|steps| - 1];
      var next := if last.minus then base - last.amount else base + last.amount;
      SignsAmountsLength(steps);
      assert Signs(steps)[..|steps| - 1] == Signs(front);
      assert Amounts(steps)[..|steps| - 1] == Amounts(front);
      FoldSteps(next, front);
    }
  }

  lemma SignsAmountsLength(steps: seq<Step>)
    ensures |Signs(steps)| == |Amounts(steps)| == |steps|
  {
  }

  /**
   * LOAD Rk name + a - b ...: with a variable operand, the register gets the
   * variable's value plus the signed sum of the steps.
   */
  lemma LoadArithmetic(reg: string, name: string, variables: map<string, int>, steps: seq<Step>)
    requires reg in PmxAssembler.LoadOpcodes && name in variables && !Contains(name, "0x")
    ensures LoadEmit(["LOAD", reg, name] + StepWords(steps), variables)
            == Ok([Str(PmxAssembler.LoadOpcodes[reg]), Str(IntToString(variables[name] + Total(steps)))])
  {
    var parts := ["LOAD", reg, name] + StepWords(steps);
    assert parts[1] == reg && parts[2] == name;
    assert parts[3..] == StepWords(steps);
    StacksOfSteps(steps);
    FoldSteps(variables[name], steps);
  }

  /**
   * A negative literal holds '-', so it is read as an operator, not a
   * number: "LOAD Rk name -n" pops an empty value stack.
   */
  lemma NegativeLiteralIsOperator(reg: string, name: string, variables: map<string, int>, value: int)
    requires reg in PmxAssembler.LoadOpcodes && name in variables && !Contains(name, "0x") && value < 0
    ensures ClassifyWord(IntToString(value)) == Ok(Operator(true))
    ensures LoadEmit(["LOAD", reg, name, IntToString(value)], variables) == Raised(IndexError)
  {
    var word := IntToString(value);
    assert word[0] == '-';
    var parts := ["LOAD", reg, name, word];
    assert parts[2] == name && parts[3..] == [word];
    var none: seq<string> := [];
    assert Stacks(none) == Ok(([], []));
    assert parts[3..][..0] == none;
    assert ClassifyWord(word) == Ok(Operator(true));
  }

  /** A "0x" operand cannot take part in arithmetic: a step raises TypeError. */
  lemma HexOperandArithmetic(reg: string, hex: string, variables: map<string, int>, step: Step)
    requires reg in PmxAssembler.LoadOpcodes && Contains(hex, "0x")
    ensures LoadEmit(["LOAD", reg, hex] + StepWords([step]), variables) == Raised(TypeError)
  {
    var parts := ["LOAD", reg, hex] + StepWords([step]);
    assert parts[2] == hex;
    assert parts[3..] == StepWords([step]);
    var none: seq<Step> := [];
    assert [step][..0] == none;
    StacksOfSteps([step]);
  }

  /** Without words after the operand, the two assemblers emit the same LOAD. */
  lemma LoadAgreesWithoutArithmetic(parts: seq<string>, variables: map<string, int>)
    requires |parts| <= 3
    ensures LoadEmit(parts, variables) == PmxAssembler.LoadEmit(parts, variables)
  {
    if |parts| == 3 {
      assert parts[3..] == [];
    }
  }

  /** GOTO keeps its operand here (pmxAssembler.py drops it). */
  lemma GotoKeepsOperand(st: PmxAssembler.AsmState, target: string, pc: int)
    ensures Parse(st, ["GOTO", target], Some("GOTO"), pc)
            == Ok(st.(program := st.program + [Str("0xDE"), Str(target)]))
  {
  }

  /** MOV is unknown to this assembler: the line emits nothing. */
  lemma MovIgnored(st: PmxAssembler.AsmState, parts: seq<string>, pc: int)
    ensures Parse(st, parts, Some("MOV"), pc) == Ok(st)
  {
  }

  /**
   * Two WCHR lines in a row store their characters on the same five cells,
   * displayAddr .. displayAddr + 4, since the address never advances: the
   * second character overwrites the first.
   */
  lemma WchrRepeatsAddresses(st: PmxAssembler.AsmState, first: seq<string>, second: seq<string>, pc: int)
    requires Parse(st, first, Some("WCHR"), pc).Ok?
    requires Parse(Parse(st, first, Some("WCHR"), pc).value, second, Some("WCHR"), pc).Ok?
    ensures var s1 := Parse(st, first, Some("WCHR"), pc).value;
            var s2 := Parse(s1, second, Some("WCHR"), pc).value;
            && s2.displayAddr == st.displayAddr
            && |s1.program| == |st.program| + 25 && |s2.program| == |s1.program| + 25
            && forall k :: 0 <= k < 5 ==>
                 && s2.program[|st.program| + 5 * k + 3] == Int(st.displayAddr + k)
                 && s2.program[|s1.program| + 5 * k + 3] == Int(st.displayAddr + k)
  {
    var s1 := Parse(st, first, Some("WCHR"), pc).value;
    WchrStores(st, first, pc);
    WchrStores(s1, second, pc);
    var s2 := Parse(s1, second, Some("WCHR"), pc).value;
    forall k | 0 <= k < 5
      ensures s2.program[|st.program| + 5 * k + 3] == Int(st.displayAddr + k)
    {
      assert s2.program[|st.program| + 5 * k + 3] == s1.program[|st.program| + 5 * k + 3];
    }
  }

  /** One WCHR line: 25 entries appended, the k-th store aimed at displayAddr + k, the address kept. */
  lemma WchrStores(st: PmxAssembler.AsmState, parts: seq<string>, pc: int)
    requires Parse(st, parts, Some("WCHR"), pc).Ok?
    ensures var t := Parse(st, parts, Some("WCHR"), pc).value;
            && t.displayAddr == st.displayAddr
            && |t.program| == |st.program| + 25 && t.program[..|st.program|] == st.program
            && forall k :: 0 <= k < 5 ==> t.program[|st.program| + 5 * k + 3] == Int(st.displayAddr + k)
  {
    var block := PmxAssembler.WchrEmit(parts, st.displayAddr).value;
    PmxAssembler.DisplayWritesAddresses(PmxAssembler.WchrFields(parts), st.displayAddr);
    assert Parse(st, parts, Some("WCHR"), pc).value.program == st.program + block;
  }

  /**
   * Apart from LOAD, GOTO and MOV (and the display address WCHR leaves
   * behind), a line assembles to the same entries and bindings under both
   * assemblers, exceptions included.
   */
  lemma AgreesWithPmxAssembler(st: PmxAssembler.AsmState, parts: seq<string>, word: string, pc: int)
    requires word != "LOAD" && word != "GOTO" && word != "MOV" && word != "IMPORT"
    ensures var here := Parse(st, parts, Some(word), pc);
            var there := PmxAssembler.Parse(st, parts, Some(word), pc);
            && here.Raised? == there.Raised?
            && (here.Raised? ==> here.error == there.error)
            && (here.Ok? ==> here.value.program == there.value.program && here.value.variables == there.value.variables)
  {
    if word != "#END" {
      DispatchAgrees(word);
      var here := Parse(st, parts, Some(word), pc);
      var there := PmxAssembler.Parse(st, parts, Some(word), pc);
      match Dispatch(word)
      case WchrLine =>
        assert here.Ok? ==> here.value.program == st.program + PmxAssembler.WchrEmit(parts, st.displayAddr).value;
      case UnaryLine =>
        assert here == PmxAssembler.AfterAppend(st, PmxAssembler.UnaryEmit(parts, word, st.variables));
      case _ =>
    }
  }

  /** The two dispatches send every word other than LOAD, GOTO, MOV and IMPORT to the same branch. */
  lemma DispatchAgrees(word: string)
    requires word != "LOAD" && word != "GOTO" && word != "MOV" && word != "IMPORT"
    ensures match Dispatch(word)
            case VarLine => PmxAssembler.Dispatch(word) == PmxAssembler.VarLine
            case CallLine => PmxAssembler.Dispatch(word) == PmxAssembler.CallLine
            case LabelLine => PmxAssembler.Dispatch(word) == PmxAssembler.LabelLine
            case WchrLine => PmxAssembler.Dispatch(word) == PmxAssembler.WchrLine
            case UnaryLine => PmxAssembler.Dispatch(word) == PmxAssembler.UnaryLine
            case SwapLine => PmxAssembler.Dispatch(word) == PmxAssembler.SwapLine
            case WstrLine => PmxAssembler.Dispatch(word) == PmxAssembler.WstrLine
            case BareLine(opcode) => PmxAssembler.Dispatch(word) == PmxAssembler.BareLine(opcode)
            case Ignored => PmxAssembler.Dispatch(word) == PmxAssembler.Ignored
            case _ => false
  {
  }
}
