/**
 * The code emitters of pmxAssembler.py.  Each handler reads the split words
 * of one assembly line (`parts`, with `parts[0]` the mnemonic) and appends a
 * fixed pattern of entries to the shared `program` list, or assigns into the
 * shared `variables` dict.  Every exception a handler can raise on malformed
 * text (a missing word, an unknown key, a bad number) is raised before its
 * first append, so a Raised result leaves both containers as they were.
 *
 * Each handler is a method on the shared PyList / PyDict objects, proved
 * equal to a function that gives the entries it appends; Parse composes
 * those functions the way parse_instructions dispatches.
 */
module PmxAssembler {
  import opened PyText

  /** assembly_to_opcode, without its nested "LOAD" entry (LoadOpcodes). */
  const AssemblyToOpcode: map<string, string> := map[
    "HALT" := "0x00", "ADD" := "0x09", "SUB" := "0x0A", "PUSH" := "0x0B",
    "POP" := "0x0C", "EQUAL" := "0x0D", "GTH" := "0x0E", "LTH" := "0x0F",
    "DUP" := "0x10", "POT" := "0x11", "OVR" := "0x12", "INC" := "0x13",
    "DCR" := "0x14", "MOV" := "0x20", "STR" := "0xAA", "DVO" := "0xAF",
    "DVW" := "0xBF", "SWAP" := "0xCF", "GOTO" := "0xDE", "JMP" := "0xDF",
    "JNZ" := "0xEF", "RMV" := "0xEE", "RPC" := "0xFE", "RET" := "0xFF"]

  /** assembly_to_opcode["LOAD"]: one opcode per destination register. */
  const LoadOpcodes: map<string, string> := map[
    "R1" := "0x01", "R2" := "0x02", "R3" := "0x03", "R4" := "0x04",
    "R5" := "0x05", "R6" := "0x06", "R7" := "0x07", "R8" := "0x08"]

  /** char_to_hex: the display code of each letter; 0x16 is skipped between U and V. */
  const CharToHex: map<string, string> := map[
    " " := "0x00", "A" := "0x01", "B" := "0x02", "C" := "0x03", "D" := "0x04",
    "E" := "0x05", "F" := "0x06", "G" := "0x07", "H" := "0x08", "I" := "0x09",
    "J" := "0x0A", "K" := "0x0B", "L" := "0x0C", "M" := "0x0D", "N" := "0x0E",
    "O" := "0x0F", "P" := "0x10", "Q" := "0x11", "R" := "0x12", "S" := "0x13",
    "T" := "0x14", "U" := "0x15", "V" := "0x17", "W" := "0x18", "X" := "0x19",
    "Y" := "0x1A", "Z" := "0x1B"]

  /** assembly_to_opcode["POT"] and assembly_to_opcode["STR"], the two opcodes of a display store. */
  const PotOpcode: string := "0x11"
  const StrOpcode: string := "0xAA"

  /** The words parse_instructions hands to a dedicated handler. */
  const HandledWords: set<string> := {
    "LOAD", "MOV", "PUSH", "POP", "SWAP", "DVW", "POT", "DVO",
    "VAR", "LABEL", "CALL", "WCHR", "WSTR", "IMPORT"}

  /** The words unary_instrucition serves. */
  const UnaryWords: set<string> := {"PUSH", "POP", "DVW", "POT", "DVO"}

  /** The assembler's state between lines: the list, the dict and the next display address. */
  datatype AsmState = AsmState(program: seq<Value>, variables: map<string, int>, displayAddr: int)

  /** A handler that only appends: on Ok the list grew by exactly `emitted`, on Raised nothing changed. */
  ghost predicate Appended(emitted: Result<seq<Value>>, before: seq<Value>, after: seq<Value>, r: Result<()>)
  {
    match emitted
    case Raised(e) => r == Raised(e) && after == before
    case Ok(tokens) => r == Ok(()) && after == before + tokens
  }

  // ---------------------------------------------------------------------
  // add_to_display_mem and wchr_instruction

  /** The five entries add_to_display_mem appends: POT item, POT addr, STR. */
  function StoreTokens(item: Value, addr: int): seq<Value>
  {
    [Str(PotOpcode), item, Str(PotOpcode), Int(addr), Str(StrOpcode)]
  }

  /** Consecutive add_to_display_mem calls: item k goes to address addr + k. */
  function DisplayWrites(items: seq<Value>, addr: int): seq<Value>
    decreases |items|
  {
    if |items| == 0 then [] else StoreTokens(items[0], addr) + DisplayWrites(items[1..], addr + 1)
  }

  /** Five consecutive stores, written out. */
  lemma DisplayWritesFive(items: seq<Value>, addr: int)
    requires |items| == 5
    ensures DisplayWrites(items, addr)
            == StoreTokens(items[0], addr) + StoreTokens(items[1], addr + 1) + StoreTokens(items[2], addr + 2)
               + StoreTokens(items[3], addr + 3) + StoreTokens(items[4], addr + 4)
  {
    var rest1 := items[1..];
    var rest2 := rest1[1..];
    var rest3 := rest2[1..];
    var rest4 := rest3[1..];
    assert rest4[1..] == [];
    assert DisplayWrites(rest4, addr + 4) == StoreTokens(items[4], addr + 4) + [];
    assert DisplayWrites(rest3, addr + 3) == StoreTokens(items[3], addr + 3) + DisplayWrites(rest4, addr + 4);
    assert DisplayWrites(rest2, addr + 2) == StoreTokens(items[2], addr + 2) + DisplayWrites(rest3, addr + 3);
    assert DisplayWrites(rest1, addr + 1) == StoreTokens(items[1], addr + 1) + DisplayWrites(rest2, addr + 2);
  }

  /** add_to_display_mem: stores `item` at displayAddr and returns the next address. */
  method AddToDisplayMem(displayAddr: int, program: PyList, item: Value) returns (next: int)
    modifies program
    ensures program.items == old(program.items) + StoreTokens(item, displayAddr)
    ensures next == displayAddr + 1
  {
    program.Append(Str(PotOpcode));
    program.Append(item);
    program.Append(Str(PotOpcode));
    program.Append(Int(displayAddr));
    next := displayAddr + 1;
    program.Append(Str(StrOpcode));
  }

  /** The five values WCHR stores: char code, x, y and scale without '#', and colour. */
  function WchrFields(parts: seq<string>): seq<Value>
    requires 6 <= |parts| && parts[1] in CharToHex
  {
    [Str(CharToHex[parts[1]]), Str(Remove(parts[2], '#')), Str(Remove(parts[3], '#')),
     Str(Remove(parts[4], '#')), Str(parts[5])]
  }

  /** The entries WCHR appends, or the exception it raises first. */
  function WchrEmit(parts: seq<string>, displayAddr: int): Result<seq<Value>>
  {
    if |parts| < 2 then Raised(IndexError)
    else if parts[1] !in CharToHex then Raised(KeyError)
    else if |parts| < 6 then Raised(IndexError)
    else Ok(DisplayWrites(WchrFields(parts), displayAddr))
  }

  /** wchr_instruction: five display stores; returns the address after them. */
  method WchrInstruction(displayAddr: int, program: PyList, parts: seq<string>) returns (r: Result<int>)
    modifies program
    ensures WchrEmit(parts, displayAddr).Raised? ==>
              r == Raised(WchrEmit(parts, displayAddr).error) && program.items == old(program.items)
    ensures WchrEmit(parts, displayAddr).Ok? ==>
              r == Ok(displayAddr + 5) && program.items == old(program.items) + WchrEmit(parts, displayAddr).value
  {
    if |parts| < 2 {
      return Raised(IndexError);
    }
    var letter := parts[1];
    if letter !in CharToHex {
      return Raised(KeyError);
    }
    var charHex := CharToHex[letter];
    if |parts| < 6 {
      return Raised(IndexError);
    }
    var x := Remove(parts[2], '#');
    var y := Remove(parts[3], '#');
    var scale := Remove(parts[4], '#');
    var color := parts[5];
    ghost var fields := [Str(charHex), Str(x), Str(y), Str(scale), Str(color)];
    assert fields == WchrFields(parts);
    DisplayWritesFive(fields, displayAddr);
    var addr := AddToDisplayMem(displayAddr, program, Str(charHex));
    addr := AddToDisplayMem(addr, program, Str(x));
    addr := AddToDisplayMem(addr, program, Str(y));
    addr := AddToDisplayMem(addr, program, Str(scale));
    addr := AddToDisplayMem(addr, program, Str(color));
    return Ok(addr);
  }

  // ---------------------------------------------------------------------
  // swap_instruction, unary_instrucition, call_instruction, mov

  /** SWAP Ra Rb: the opcode, then both operands with every 'R' removed. */
  function SwapEmit(parts: seq<string>): Result<seq<Value>>
  {
    if |parts| < 3 then Raised(IndexError)
    else Ok([Str(AssemblyToOpcode["SWAP"]), Str(Remove(parts[1], 'R')), Str(Remove(parts[2], 'R'))])
  }

  method SwapInstruction(program: PyList, parts: seq<string>) returns (r: Result<()>)
    modifies program
    ensures Appended(SwapEmit(parts), old(program.items), program.items, r)
  {
    if |parts| < 3 {
      return Raised(IndexError);
    }
    var reg1 := Remove(parts[1], 'R');
    var reg2 := Remove(parts[2], 'R');
    program.Append(Str(AssemblyToOpcode["SWAP"]));
    program.Append(Str(reg1));
    program.Append(Str(reg2));
    return Ok(());
  }

  /**
   * The operand unary_instrucition emits: a word that is not a variable loses
   * its 'R's (if it has one) or else its '#'s; a variable holding '@' or "0x"
   * stays a name; any other variable becomes its value.
   */
  function UnaryOperand(reg: string, variables: map<string, int>): Value
  {
    if reg !in variables then Str(if 'R' in reg then Remove(reg, 'R') else Remove(reg, '#'))
    else if '@' in reg then Str(reg)
    else if Contains(reg, "0x") then Str(reg)
    else Int(variables[reg])
  }

  function UnaryEmit(parts: seq<string>, instruction: string, variables: map<string, int>): Result<seq<Value>>
    requires instruction in UnaryWords
  {
    if |parts| < 2 then Raised(IndexError)
    else Ok([Str(AssemblyToOpcode[instruction]), UnaryOperand(parts[1], variables)])
  }

  method UnaryInstruction(program: PyList, variables: PyDict, parts: seq<string>, instruction: string)
    returns (r: Result<()>)
    requires instruction in UnaryWords
    modifies program
    ensures Appended(UnaryEmit(parts, instruction, variables.entries), old(program.items), program.items, r)
  {
    if |parts| < 2 {
      return Raised(IndexError);
    }
    var reg := parts[1];
    var regNum: Value;
    if reg !in variables.entries {
      regNum := Str(if 'R' in reg then Remove(reg, 'R') else Remove(reg, '#'));
    } else if '@' in reg {
      regNum := Str(reg);
    } else if Contains(reg, "0x") {
      regNum := Str(reg);
    } else {
      regNum := Int(variables.entries[reg]);
    }
    program.Append(Str(AssemblyToOpcode[instruction]));
    program.Append(regNum);
    return Ok(());
  }

  /** CALL target: POT target, then GOTO. */
  function CallEmit(parts: seq<string>): Result<seq<Value>>
  {
    if |parts| < 2 then Raised(IndexError)
    else Ok([Str("0x11"), Str(parts[1]), Str("0xDE")])
  }

  method CallInstruction(program: PyList, parts: seq<string>) returns (r: Result<()>)
    modifies program
    ensures Appended(CallEmit(parts), old(program.items), program.items, r)
  {
    if |parts| < 2 {
      return Raised(IndexError);
    }
    var reg := parts[1];
    program.Append(Str("0x11"));
    program.Append(Str(reg));
    program.Append(Str("0xDE"));
    return Ok(());
  }

  /** A MOV operand: kept whole when it holds "0x", otherwise stripped of 'R'. */
  function MovArg(arg: string): string
  {
    if Contains(arg, "0x") then arg else Remove(arg, 'R')
  }

  /** A MOV flag: 1 when the emitted operand holds "0x". */
  function MovFlag(arg: string): int
  {
    if Contains(arg, "0x") then 1 else 0
  }

  function MovEmit(parts: seq<string>): Result<seq<Value>>
  {
    if |parts| < 3 then Raised(IndexError)
    else
      var arg1 := MovArg(parts[1]);
      var arg2 := MovArg(parts[2]);
      Ok([Str(AssemblyToOpcode["MOV"]), Int(MovFlag(arg1)), Int(MovFlag(arg2)), Str(arg1), Str(arg2)])
  }

  method Mov(program: PyList, parts: seq<string>) returns (r: Result<()>)
    modifies program
    ensures Appended(MovEmit(parts), old(program.items), program.items, r)
  {
    if |parts| < 3 {
      return Raised(IndexError);
    }
    var opcode := AssemblyToOpcode["MOV"];
    var arg1 := MovArg(parts[1]);
    var flag1 := 0;
    if Contains(arg1, "0x") {
      flag1 := 1;
    }
    var arg2 := MovArg(parts[2]);
    var flag2 := 0;
    if Contains(arg2, "0x") {
      flag2 := 1;
    }
    assert MovEmit(parts) == Ok([Str(opcode), Int(flag1), Int(flag2), Str(arg1), Str(arg2)]);
    program.Append(Str(opcode));
    program.Append(Int(flag1));
    program.Append(Int(flag2));
    program.Append(Str(arg1));
    program.Append(Str(arg2));
    return Ok(());
  }

  // ---------------------------------------------------------------------
  // load_instruction, var_instruction, label_instruction

  /**
   * The operand text LOAD emits: a plain number is parsed after dropping '#'
   * (ValueError if it is not one); a variable becomes its value; a word with
   * "0x" is kept.  Trailing words are ignored.
   */
  function LoadOperand(operand: string, variables: map<string, int>): Result<string>
  {
    if operand !in variables && !Contains(operand, "0x") then
      match ParseInt(Remove(operand, '#'))
      case None => Raised(ValueError)
      case Some(n) => Ok(IntToString(n))
    else if !Contains(operand, "0x") then Ok(IntToString(variables[operand]))
    else Ok(operand)
  }

  function LoadEmit(parts: seq<string>, variables: map<string, int>): Result<seq<Value>>
  {
    if |parts| < 2 then Raised(IndexError)
    else if parts[1] !in LoadOpcodes then Raised(KeyError)
    else if |parts| < 3 then Raised(IndexError)
    else
      match LoadOperand(parts[2], variables)
      case Raised(e) => Raised(e)
      case Ok(text) => Ok([Str(LoadOpcodes[parts[1]]), Str(text)])
  }

  method LoadInstruction(program: PyList, variables: PyDict, parts: seq<string>) returns (r: Result<()>)
    modifies program
    ensures Appended(LoadEmit(parts, variables.entries), old(program.items), program.items, r)
  {
    if |parts| < 2 {
      return Raised(IndexError);
    }
    if parts[1] !in LoadOpcodes {
      return Raised(KeyError);
    }
    var opcode := LoadOpcodes[parts[1]];
    if |parts| < 3 {
      return Raised(IndexError);
    }
    var operand: string;
    if parts[2] !in variables.entries && !Contains(parts[2], "0x") {
      var parsed := ParseInt(Remove(parts[2], '#'));
      if parsed.None? {
        return Raised(ValueError);
      }
      operand := IntToString(parsed.value);
    } else {
      operand := if !Contains(parts[2], "0x") then IntToString(variables.entries[parts[2]]) else parts[2];
    }
    program.Append(Str(opcode));
    program.Append(Str(operand));
    return Ok(());
  }

  /** VAR name #v: the binding it makes, or the exception. */
  function VarBinding(parts: seq<string>): Result<(string, int)>
  {
    if |parts| < 3 then Raised(IndexError)
    else
      match ParseInt(Remove(parts[2], '#'))
      case None => Raised(ValueError)
      case Some(v) => Ok((parts[1], v))
  }

  method VarInstruction(variables: PyDict, parts: seq<string>) returns (r: Result<()>)
    modifies variables
    ensures VarBinding(parts).Raised? ==>
              r == Raised(VarBinding(parts).error) && variables.entries == old(variables.entries)
    ensures VarBinding(parts).Ok? ==>
              r == Ok(()) && variables.entries == old(variables.entries)[VarBinding(parts).value.0 := VarBinding(parts).value.1]
  {
    if |parts| < 3 {
      return Raised(IndexError);
    }
    var name := parts[1];
    var value := ParseInt(Remove(parts[2], '#'));
    if value.None? {
      return Raised(ValueError);
    }
    variables.Set(name, value.value);
    return Ok(());
  }

  /** LABEL name: the name is bound to the index of the next entry, offset by pc. */
  function LabelBinding(parts: seq<string>, programLength: int, pc: int): Result<(string, int)>
  {
    if |parts| < 2 then Raised(IndexError) else Ok((parts[1], programLength + pc))
  }

  method LabelInstruction(program: PyList, variables: PyDict, parts: seq<string>, pc: int) returns (r: Result<()>)
    modifies variables
    ensures var b := LabelBinding(parts, |program.items|, pc);
            && (b.Raised? ==> r == Raised(b.error) && variables.entries == old(variables.entries))
            && (b.Ok? ==> r == Ok(()) && variables.entries == old(variables.entries)[b.value.0 := b.value.1])
  {
    if |parts| < 2 {
      return Raised(IndexError);
    }
    var name := parts[1];
    variables.Set(name, |program.items| + pc);
    return Ok(());
  }

  // ---------------------------------------------------------------------
  // parse_instructions

  /** The state after an appending handler. */
  function AfterAppend(st: AsmState, emitted: Result<seq<Value>>): Result<AsmState>
  {
    match emitted
    case Raised(e) => Raised(e)
    case Ok(tokens) => Ok(st.(program := st.program + tokens))
  }

  /** The state after a binding handler. */
  function AfterBind(st: AsmState, binding: Result<(string, int)>): Result<AsmState>
  {
    match binding
    case Raised(e) => Raised(e)
    case Ok(b) => Ok(st.(variables := st.variables[b.0 := b.1]))
  }

  /** The branch of parse_instructions a mnemonic takes. */
  datatype Handler =
    | LoadLine | VarLine | CallLine | LabelLine | WchrLine | UnaryLine | SwapLine | MovLine
    | WstrLine | ImportLine
    | BareLine(opcode: string)  // a table word without a handler: its opcode alone
    | Ignored                   // neither handled nor in the table

  /** parse_instructions' dispatch: the handled words first, then the table. */
  function Dispatch(word: string): (h: Handler)
    ensures h == UnaryLine ==> word in UnaryWords
  {
    if word in HandledWords then
      if word == "LOAD" then LoadLine
      else if word == "VAR" then VarLine
      else if word == "CALL" then CallLine
      else if word == "LABEL" then LabelLine
      else if word == "WCHR" then WchrLine
      else if word in UnaryWords then UnaryLine
      else if word == "SWAP" then SwapLine
      else if word == "MOV" then MovLine
      else if word == "WSTR" then WstrLine
      else ImportLine
    else if word in AssemblyToOpcode then BareLine(AssemblyToOpcode[word])
    else Ignored
  }

  /**
   * parse_instructions on one line; None is a blank or comment line.  IMPORT
   * (recursive assembly of another file) is outside the model.
   */
  function Parse(st: AsmState, parts: seq<string>, instruction: Option<string>, pc: int): Result<AsmState>
    requires instruction != Some("IMPORT")
  {
    match instruction
    case None => Ok(st)
    case Some(word) =>
      if word == "#END" then Ok(st)
      else
        match Dispatch(word)
        case LoadLine => AfterAppend(st, LoadEmit(parts, st.variables))
        case VarLine => AfterBind(st, VarBinding(parts))
        case CallLine => AfterAppend(st, CallEmit(parts))
        case LabelLine => AfterBind(st, LabelBinding(parts, |st.program|, pc))
        case WchrLine =>
          (match WchrEmit(parts, st.displayAddr)
           case Raised(e) => Raised(e)
           case Ok(tokens) => Ok(AsmState(st.program + tokens, st.variables, st.displayAddr + 5)))
        case UnaryLine => AfterAppend(st, UnaryEmit(parts, word, st.variables))
        case SwapLine => AfterAppend(st, SwapEmit(parts))
        case MovLine => AfterAppend(st, MovEmit(parts))
        case WstrLine => Ok(st)
        case ImportLine => Ok(st)
        case BareLine(opcode) => Ok(st.(program := st.program + [Str(opcode)]))
        case Ignored => Ok(st)
  }

  /** parse_instructions: dispatches one line and returns the display address. */
  method ParseInstructions(displayAddr: int, program: PyList, variables: PyDict, parts: seq<string>,
                           instruction: Option<string>, pc: int) returns (r: Result<int>)
    requires instruction != Some("IMPORT")
    modifies program, variables
    ensures var e := Parse(AsmState(old(program.items), old(variables.entries), displayAddr), parts, instruction, pc);
            && (e.Raised? ==> r == Raised(e.error)
                              && program.items == old(program.items) && variables.entries == old(variables.entries))
            && (e.Ok? ==> r == Ok(e.value.displayAddr)
                          && program.items == e.value.program && variables.entries == e.value.variables)
  {
    if instruction.None? {
      return Ok(displayAddr);
    }
    var word := instruction.value;
    if word == "#END" {
      return Ok(displayAddr);
    }
    var done: Result<()> := Ok(());
    match Dispatch(word) {
      case LoadLine =>
        done := LoadInstruction(program, variables, parts);
      case VarLine =>
        done := VarInstruction(variables, parts);
      case CallLine =>
        done := CallInstruction(program, parts);
      case LabelLine =>
        done := LabelInstruction(program, variables, parts, pc);
      case WchrLine =>
        r := WchrInstruction(displayAddr, program, parts);
        return;
      case UnaryLine =>
        done := UnaryInstruction(program, variables, parts, word);
      case SwapLine =>
        done := SwapInstruction(program, parts);
      case MovLine =>
        done := Mov(program, parts);
      case WstrLine =>
      case ImportLine =>
      case BareLine(opcode) =>
        program.Append(Str(opcode));
      case Ignored =>
    }
    match done
    case Raised(e) => return Raised(e);
    case Ok(_) => return Ok(displayAddr);
  }

  // ---------------------------------------------------------------------
  // replace_variables

  /**
   * One entry of replace_variables: a name bound in `variables` becomes the
   * decimal text of its value, an unbound name holding '@' raises KeyError,
   * any other entry becomes its str().
   */
  function ReplaceEntry(v: Value, variables: map<string, int>): Result<Value>
  {
    match v
    case Int(i) => Ok(Str(IntToString(i)))
    case Str(s) =>
      if '@' in s then (if s in variables then Ok(Str(IntToString(variables[s]))) else Raised(KeyError))
      else if s in variables then Ok(Str(IntToString(variables[s])))
      else Ok(Str(s))
  }

  /**
   * replace_variables: rewrites the list in place, entry by entry.  When an
   * entry raises, the entries before it are already rewritten and the rest
   * are untouched.
   */
  method ReplaceVariables(program: PyList, variables: PyDict) returns (r: Result<()>)
    modifies program
    ensures |program.items| == |old(program.items)|
    ensures r.Ok? <==> forall i :: 0 <= i < |old(program.items)| ==> ReplaceEntry(old(program.items)[i], variables.entries).Ok?
    ensures r.Ok? ==> forall i :: 0 <= i < |program.items| ==>
              ReplaceEntry(old(program.items)[i], variables.entries) == Ok(program.items[i])
    ensures r.Raised? ==>
              && r.error == KeyError
              && (exists n :: && 0 <= n < |program.items|
                              && ReplaceEntry(old(program.items)[n], variables.entries).Raised?
                              && (forall i :: 0 <= i < n ==> ReplaceEntry(old(program.items)[i], variables.entries) == Ok(program.items[i]))
                              && program.items[n..] == old(program.items)[n..])
  {
    var i := 0;
    while i < |program.items|
      invariant 0 <= i <= |program.items| == |old(program.items)|
      invariant forall j :: 0 <= j < i ==> ReplaceEntry(old(program.items)[j], variables.entries) == Ok(program.items[j])
      invariant program.items[i..] == old(program.items)[i..]
    {
      assert program.items[i] == old(program.items)[i] by {
        assert program.items[i..][0] == old(program.items)[i..][0];
      }
      var entry := program.items[i];
      var text: string;
      if entry.Str? && '@' in entry.s {
        if entry.s !in variables.entries {
          return Raised(KeyError);
        }
        text := IntToString(variables.entries[entry.s]);
      } else if entry.Str? && entry.s in variables.entries {
        text := IntToString(variables.entries[entry.s]);
      } else {
        text := PyStr(entry);
      }
      program.items := program.items[i := Str(text)];
      assert program.items[i + 1..] == old(program.items)[i + 1..] by {
        assert program.items[i + 1..] == program.items[i..][1..];
      }
      i := i + 1;
    }
    return Ok(());
  }

  // ---------------------------------------------------------------------
  // Properties

  /**
   * Display stores laid end to end: five entries per item, item k stored at
   * address addr + k by the pattern POT item, POT addr + k, STR.
   */
  lemma {:induction false} DisplayWritesShape(items: seq<Value>, addr: int)
    ensures |DisplayWrites(items, addr)| == 5 * |items|
    ensures forall k :: 0 <= k < |items| ==>
              DisplayWrites(items, addr)[5 * k..5 * k + 5] == StoreTokens(items[k], addr + k)
    decreases |items|
  {
    if |items| > 0 {
      DisplayWritesShape(items[1..], addr + 1);
      var rest := DisplayWrites(items[1..], addr + 1);
      var all := DisplayWrites(items, addr);
      assert all == StoreTokens(items[0], addr) + rest;
      forall k | 0 <= k < |items|
        ensures all[5 * k..5 * k + 5] == StoreTokens(items[k], addr + k)
      {
        if k > 0 {
          assert all[5 * k..5 * k + 5] == rest[5 * (k - 1)..5 * (k - 1) + 5];
          assert items[1..][k - 1] == items[k];
        }
      }
    }
  }

  /**
   * WCHR appends 25 entries: the character's display code, x, y, scale and
   * colour, stored at displayAddr .. displayAddr + 4 in that order.
   */
  lemma WchrShape(parts: seq<string>, displayAddr: int)
    requires WchrEmit(parts, displayAddr).Ok?
    ensures var tokens := WchrEmit(parts, displayAddr).value;
            && |tokens| == 25
            && tokens[..5] == StoreTokens(Str(CharToHex[parts[1]]), displayAddr)
            && tokens[5..10] == StoreTokens(Str(Remove(parts[2], '#')), displayAddr + 1)
            && tokens[10..15] == StoreTokens(Str(Remove(parts[3], '#')), displayAddr + 2)
            && tokens[15..20] == StoreTokens(Str(Remove(parts[4], '#')), displayAddr + 3)
            && tokens[20..] == StoreTokens(Str(parts[5]), displayAddr + 4)
  {
    var fields := WchrFields(parts);
    DisplayWritesFive(fields, displayAddr);
    var s0, s1, s2 := StoreTokens(fields[0], displayAddr), StoreTokens(fields[1], displayAddr + 1), StoreTokens(fields[2], displayAddr + 2);
    var s3, s4 := StoreTokens(fields[3], displayAddr + 3), StoreTokens(fields[4], displayAddr + 4);
    var tokens := WchrEmit(parts, displayAddr).value;
    assert tokens == s0 + s1 + s2 + s3 + s4;
  }

  /** The display code char_to_hex gives a capital letter: A..U are 1..21, V..Z are 23..27. */
  function LetterCode(letter: char): int
  {
    if letter <= 'U' then letter as int - 'A' as int + 1 else letter as int - 'A' as int + 2
  }

  /** The display code of a char_to_hex key: 0 for the space. */
  function KeyCode(key: string): int
  {
    if |key| == 1 && 'A' <= key[0] <= 'Z' then LetterCode(key[0]) else 0
  }

  /** char_to_hex covers the space and the 26 capitals, nothing else. */
  lemma CharToHexKeys(key: string)
    ensures key in CharToHex <==> key == " " || (|key| == 1 && 'A' <= key[0] <= 'Z')
  {
    if |key| == 1 && 'A' <= key[0] <= 'Z' {
      assert key == [key[0]];
    }
  }

  /** The entries of A .. M, each read as a hexadecimal literal. */
  lemma CharToHexFirstHalf(letter: char)
    requires 'A' <= letter <= 'M'
    ensures [letter] in CharToHex && HexLiteral(CharToHex[[letter]]) == Some(LetterCode(letter))
  {
    CharToHexKeys([letter]);
    TwoDigitHex(CharToHex[[letter]]);
    if letter == 'A' {
      assert CharToHex[[letter]] == "0x01";
    } else if letter == 'B' {
      assert CharToHex[[letter]] == "0x02";
    } else if letter == 'C' {
      assert CharToHex[[letter]] == "0x03";
    } else if letter == 'D' {
      assert CharToHex[[letter]] == "0x04";
    } else if letter == 'E' {
      assert CharToHex[[letter]] == "0x05";
    } else if letter == 'F' {
      assert CharToHex[[letter]] == "0x06";
    } else if letter == 'G' {
      assert CharToHex[[letter]] == "0x07";
    } else if letter == 'H' {
      assert CharToHex[[letter]] == "0x08";
    } else if letter == 'I' {
      assert CharToHex[[letter]] == "0x09";
    } else if letter == 'J' {
      assert CharToHex[[letter]] == "0x0A";
    } else if letter == 'K' {
      assert CharToHex[[letter]] == "0x0B";
    } else if letter == 'L' {
      assert CharToHex[[letter]] == "0x0C";
    } else {
      assert CharToHex[[letter]] == "0x0D";
    }
  }

  /** The entries of N .. Z, each read as a hexadecimal literal. */
  lemma CharToHexSecondHalf(letter: char)
    requires 'N' <= letter <= 'Z'
    ensures [letter] in CharToHex && HexLiteral(CharToHex[[letter]]) == Some(LetterCode(letter))
  {
    CharToHexKeys([letter]);
    TwoDigitHex(CharToHex[[letter]]);
    if letter == 'N' {
      assert CharToHex[[letter]] == "0x0E";
    } else if letter == 'O' {
      assert CharToHex[[letter]] == "0x0F";
    } else if letter == 'P' {
      assert CharToHex[[letter]] == "0x10";
    } else if letter == 'Q' {
      assert CharToHex[[letter]] == "0x11";
    } else if letter == 'R' {
      assert CharToHex[[letter]] == "0x12";
    } else if letter == 'S' {
      assert CharToHex[[letter]] == "0x13";
    } else if letter == 'T' {
      assert CharToHex[[letter]] == "0x14";
    } else if letter == 'U' {
      assert CharToHex[[letter]] == "0x15";
    } else if letter == 'V' {
      assert CharToHex[[letter]] == "0x17";
    } else if letter == 'W' {
      assert CharToHex[[letter]] == "0x18";
    } else if letter == 'X' {
      assert CharToHex[[letter]] == "0x19";
    } else if letter == 'Y' {
      assert CharToHex[[letter]] == "0x1A";
    } else {
      assert CharToHex[[letter]] == "0x1B";
    }
  }

  /** Every entry of char_to_hex is a hexadecimal literal denoting the key's display code. */
  lemma CharToHexCodes(key: string)
    requires key in CharToHex
    ensures HexLiteral(CharToHex[key]) == Some(KeyCode(key))
  {
    CharToHexKeys(key);
    if key == " " {
      TwoDigitHex(CharToHex[" "]);
    } else {
      assert key == [key[0]];
      if key[0] <= 'M' {
        CharToHexFirstHalf(key[0]);
      } else {
        CharToHexSecondHalf(key[0]);
      }
    }
  }

  /** Distinct keys of char_to_hex denote distinct codes: no two characters share one. */
  lemma CharToHexInjective(a: string, b: string)
    requires a in CharToHex && b in CharToHex && a != b
    ensures HexLiteral(CharToHex[a]) != HexLiteral(CharToHex[b])
  {
    CharToHexCodes(a);
    CharToHexCodes(b);
    CharToHexKeys(a);
    CharToHexKeys(b);
    KeyCodeInjective(a, b);
  }

  /** The display codes of distinct keys differ. */
  lemma KeyCodeInjective(a: string, b: string)
    requires a == " " || (|a| == 1 && 'A' <= a[0] <= 'Z')
    requires b == " " || (|b| == 1 && 'A' <= b[0] <= 'Z')
    requires a != b
    ensures KeyCode(a) != KeyCode(b)
  {
    if a != " " && b != " " {
      assert a == [a[0]] && b == [b[0]];
    }
  }

  /** A register operand "Rn" of PUSH/POP/DVW/POT/DVO that is not a variable is emitted as n. */
  lemma UnaryRegister(n: nat, variables: map<string, int>)
    requires "R" + NatToString(n) !in variables
    ensures UnaryOperand("R" + NatToString(n), variables) == Str(NatToString(n))
  {
    var digits := NatToString(n);
    assert ("R" + digits)[1..] == digits;
    DigitsHaveNoLetter(digits, 'R');
  }

  /** A run of decimal digits holds no other character. */
  lemma DigitsHaveNoLetter(digits: string, letter: char)
    requires IsDigits(digits) && !IsDigit(letter)
    ensures letter !in digits
  {
  }

  /** A variable operand without '@' or "0x" is emitted as its value, an int entry. */
  lemma UnaryVariable(name: string, variables: map<string, int>)
    requires name in variables && '@' !in name && !Contains(name, "0x")
    ensures UnaryOperand(name, variables) == Int(variables[name])
  {
  }

  /**
   * MOV tells the machine which operands are literals: a "0x" operand is
   * kept with flag 1, a register "Rn" becomes n with flag 0.
   */
  lemma MovOperandKinds(hex: string, n: nat)
    requires |hex| >= 2 && hex[..2] == "0x"
    ensures MovArg(hex) == hex && MovFlag(MovArg(hex)) == 1
    ensures MovArg("R" + NatToString(n)) == NatToString(n) && MovFlag(MovArg("R" + NatToString(n))) == 0
  {
    var digits := NatToString(n);
    DigitsHaveNoLetter(digits, 'R');
    DigitsHaveNoLetter(digits, 'x');
    assert 'x' !in "R" + digits;
    ContainsNeedsChar("R" + digits, "0x", 'x');
    ContainsNeedsChar(digits, "0x", 'x');
    assert ("R" + digits)[1..] == digits;
  }

  /** LOAD with a literal "#n" emits str(n), which the loader reads back as n. */
  lemma LoadLiteral(n: int, variables: map<string, int>)
    requires "#" + IntToString(n) !in variables
    ensures LoadOperand("#" + IntToString(n), variables) == Ok(IntToString(n))
    ensures ParseInt(IntToString(n)) == Some(n)
  {
    var text := IntToString(n);
    IntToStringShape(n);
    assert '#' !in text && 'x' !in text by {
      forall i | 0 <= i < |text|
        ensures text[i] != '#' && text[i] != 'x'
      {
        if i > 0 || n >= 0 {
          assert IsDigit(text[i]);
        }
      }
    }
    assert ("#" + text)[1..] == text;
    assert Remove("#" + text, '#') == Remove(text, '#');
    assert 'x' !in "#" + text;
    ContainsNeedsChar("#" + text, "0x", 'x');
    ParseIntToString(n);
  }

  /** pmxAssembler's LOAD ignores every word after its operand (no "+ m" arithmetic). */
  lemma LoadIgnoresTrailingWords(parts: seq<string>, extra: seq<string>, variables: map<string, int>)
    requires 3 <= |parts|
    ensures LoadEmit(parts + extra, variables) == LoadEmit(parts, variables)
  {
    assert (parts + extra)[1] == parts[1] && (parts + extra)[2] == parts[2];
  }

  /** The entries one line appends, by the branch it takes. */
  function EmitLength(h: Handler): nat
  {
    match h
    case WchrLine => 25
    case MovLine => 5
    case SwapLine | CallLine => 3
    case LoadLine | UnaryLine => 2
    case BareLine(_) => 1
    case VarLine | LabelLine | WstrLine | ImportLine | Ignored => 0
  }

  /** Only WCHR moves the display address, by the five cells it stores. */
  lemma ParseDisplayAddr(st: AsmState, parts: seq<string>, instruction: Option<string>, pc: int)
    requires instruction != Some("IMPORT") && Parse(st, parts, instruction, pc).Ok?
    ensures Parse(st, parts, instruction, pc).value.displayAddr
            == st.displayAddr + (if instruction.Some? && instruction.value != "#END" && Dispatch(instruction.value) == WchrLine then 5 else 0)
  {
  }

  /** Only VAR and LABEL touch the variables. */
  lemma ParseVariables(st: AsmState, parts: seq<string>, instruction: Option<string>, pc: int)
    requires instruction != Some("IMPORT") && Parse(st, parts, instruction, pc).Ok?
    ensures instruction.Some? && Dispatch(instruction.value) != VarLine && Dispatch(instruction.value) != LabelLine ==>
              Parse(st, parts, instruction, pc).value.variables == st.variables
  {
  }

  /** A line that assembles only appends, and by exactly EmitLength of its branch. */
  lemma ParseGrowth(st: AsmState, parts: seq<string>, instruction: Option<string>, pc: int)
    requires instruction != Some("IMPORT") && Parse(st, parts, instruction, pc).Ok?
    ensures var t := Parse(st, parts, instruction, pc).value;
            && st.program <= t.program
            && |t.program| == |st.program| + (if instruction.Some? && instruction.value != "#END" then EmitLength(Dispatch(instruction.value)) else 0)
  {
    if instruction.Some? && instruction.value != "#END" && Dispatch(instruction.value) == WchrLine {
      DisplayWritesShape(WchrFields(parts), st.displayAddr);
    }
  }

  /** GOTO goes down the bare-mnemonic path: its operand is dropped. */
  lemma GotoDropsOperand(st: AsmState, target: string, pc: int)
    ensures Parse(st, ["GOTO", target], Some("GOTO"), pc) == Ok(st.(program := st.program + [Str("0xDE")]))
  {
  }

  /**
   * LABEL binds the name to pc plus the index where the next line's entries
   * begin.
   */
  lemma LabelMarksNextEntry(st: AsmState, name: string, pc: int, parts: seq<string>, instruction: Option<string>)
    requires instruction != Some("IMPORT")
    requires Parse(st, ["LABEL", name], Some("LABEL"), pc).Ok?
    requires Parse(Parse(st, ["LABEL", name], Some("LABEL"), pc).value, parts, instruction, pc).Ok?
    ensures var s1 := Parse(st, ["LABEL", name], Some("LABEL"), pc).value;
            var s2 := Parse(s1, parts, instruction, pc).value;
            && s1.variables[name] - pc == |st.program|
            && s2.program[..s1.variables[name] - pc] == st.program
  {
    var s1 := Parse(st, ["LABEL", name], Some("LABEL"), pc).value;
    ParseGrowth(s1, parts, instruction, pc);
  }

  /**
   * replace_variables on one entry: an entry raises exactly when it is an
   * unbound name holding '@'; a bound name becomes text the loader reads
   * back as the name's value; every other entry keeps its str().
   */
  lemma ReplaceEntryMeaning(v: Value, variables: map<string, int>)
    ensures ReplaceEntry(v, variables).Raised? <==> v.Str? && '@' in v.s && v.s !in variables
    ensures v.Str? && v.s in variables ==>
              ReplaceEntry(v, variables).Ok? && ParseInt(PyStr(ReplaceEntry(v, variables).value)) == Some(variables[v.s])
    ensures !(v.Str? && v.s in variables) && ReplaceEntry(v, variables).Ok? ==>
              ReplaceEntry(v, variables).value == Str(PyStr(v))
  {
    if v.Str? && v.s in variables {
      ParseIntToString(variables[v.s]);
    }
  }

  /**
   * Two WCHR lines in a row store their characters on disjoint cells: the
   * second line's five stores go to displayAddr + 5 .. displayAddr + 9.
   */
  lemma WchrAddressesAdvance(st: AsmState, first: seq<string>, second: seq<string>, pc: int)
    requires Parse(st, first, Some("WCHR"), pc).Ok?
    requires Parse(Parse(st, first, Some("WCHR"), pc).value, second, Some("WCHR"), pc).Ok?
    ensures var s1 := Parse(st, first, Some("WCHR"), pc).value;
            var s2 := Parse(s1, second, Some("WCHR"), pc).value;
            && |s1.program| == |st.program| + 25 && |s2.program| == |s1.program| + 25
            && forall k :: 0 <= k < 5 ==>
                 && s2.program[|st.program| + 5 * k + 3] == Int(st.displayAddr + k)
                 && s2.program[|s1.program| + 5 * k + 3] == Int(st.displayAddr + 5 + k)
  {
    var s1 := Parse(st, first, Some("WCHR"), pc).value;
    var s2 := Parse(s1, second, Some("WCHR"), pc).value;
    WchrLineStores(st, first, pc);
    WchrLineStores(s1, second, pc);
    forall k | 0 <= k < 5
      ensures s2.program[|st.program| + 5 * k + 3] == Int(st.displayAddr + k)
    {
      assert s2.program[|st.program| + 5 * k + 3] == s1.program[|st.program| + 5 * k + 3];
    }
  }

  /** One WCHR line: 25 entries appended, the k-th store aimed at displayAddr + k. */
  lemma WchrLineStores(st: AsmState, parts: seq<string>, pc: int)
    requires Parse(st, parts, Some("WCHR"), pc).Ok?
    ensures var t := Parse(st, parts, Some("WCHR"), pc).value;
            && t.displayAddr == st.displayAddr + 5
            && |t.program| == |st.program| + 25 && t.program[..|st.program|] == st.program
            && forall k :: 0 <= k < 5 ==> t.program[|st.program| + 5 * k + 3] == Int(st.displayAddr + k)
  {
    var block := WchrEmit(parts, st.displayAddr).value;
    DisplayWritesAddresses(WchrFields(parts), st.displayAddr);
    assert Parse(st, parts, Some("WCHR"), pc).value.program == st.program + block;
  }

  /** In a run of display stores, entry 5k + 3 is the k-th address. */
  lemma DisplayWritesAddresses(items: seq<Value>, addr: int)
    ensures |DisplayWrites(items, addr)| == 5 * |items|
    ensures forall k :: 0 <= k < |items| ==> DisplayWrites(items, addr)[5 * k + 3] == Int(addr + k)
  {
    DisplayWritesShape(items, addr);
    var all := DisplayWrites(items, addr);
    forall k | 0 <= k < |items|
      ensures all[5 * k + 3] == Int(addr + k)
    {
      assert all[5 * k..5 * k + 5] == StoreTokens(items[k], addr + k);
      assert all[5 * k..5 * k + 5][3] == all[5 * k + 3];
    }
  }
}
