/**
 * What the PMX engine makes of the text the assemblers write.  The ROM file
 * is the program list joined with commas; load_program_from_file reads it in
 * fgets chunks of 199 characters, splits each chunk on commas with strtok,
 * reads each token as a number ("0x..." through %x, anything else through
 * %d) and load_program keeps it as a byte cell.  This module follows the emitted
 * opcodes and patterns through that reading and through `run`: which
 * handler each assembly word selects and what name get_assembly_instruction
 * gives it back, what a display store and a CALL do when executed, and the
 * corrected readings of the two places where the engine disagrees with the
 * assemblers.
 */
module AsmSemantics {
  import opened Pmx
  import PmxProperties
  import opened PyText
  import PmxAssembler

  /** display_addr as both assemblers initialise it. */
  const DisplayStart: int := 0x2AD00

  // ---------------------------------------------------------------------
  // Reading the ROM file

  /**
   * The number load_program_from_file reads from one token: "0x" and hex
   * digits through %x, otherwise an optionally signed decimal through %d.
   * A token sscanf would read only a prefix of, or not at all, gives None.
   */
  function TokenValue(token: string): Option<int>
  {
    if |token| >= 2 && token[..2] == "0x" then HexLiteral(token) else ParseInt(token)
  }

  /** A four-character "0xHL" token reads as its two hex digits. */
  lemma HexToken(token: string)
    requires |token| == 4 && token[..2] == "0x" && IsHexDigit(token[2]) && IsHexDigit(token[3])
    ensures TokenValue(token) == Some(16 * HexDigitValue(token[2]) + HexDigitValue(token[3]))
  {
    TwoDigitHex(token);
  }

  /** A number the assembler appends as an int is written as str(n) and read back as n. */
  lemma IntTokenValue(n: int)
    ensures TokenValue(IntToString(n)) == Some(n)
  {
    ParseIntToString(n);
    IntToStringShape(n);
    var s := IntToString(n);
    if |s| >= 2 {
      assert s[1] != 'x';
    }
  }

  /** Every entry of `program` is a token the loader reads whole. */
  predicate Readable(program: seq<Value>)
  {
    forall j :: 0 <= j < |program| ==> TokenValue(PyStr(program[j])).Some?
  }

  /** write_rom_file: str() of every entry, joined with commas. */
  function RomText(program: seq<Value>): string
    decreases |program|
  {
    if |program| == 0 then ""
    else if |program| == 1 then PyStr(program[0])
    else PyStr(program[0]) + "," + RomText(program[1..])
  }

  /** fgets(line, 200, file) hands strtok at most 199 characters at a time. */
  const LineChunk: nat := 199

  /** The length of the token strtok finds at the start of `line`: the run before the first comma. */
  function TokenLength(line: string): (n: nat)
    ensures n <= |line|
    ensures n < |line| ==> line[n] == ','
    ensures forall i :: 0 <= i < n ==> line[i] != ','
    decreases |line|
  {
    if |line| == 0 || line[0] == ',' then 0 else 1 + TokenLength(line[1..])
  }

  /** strtok over one chunk: its maximal comma-free runs, empty ones skipped. */
  function Tokens(line: string): seq<string>
    decreases |line|
  {
    if |line| == 0 then []
    else if line[0] == ',' then Tokens(line[1..])
    else
      var n := TokenLength(line);
      [line[..n]] + Tokens(line[n..])
  }

  /** The tokens load_program_from_file sees: each fgets chunk split on its own. */
  function FileTokens(text: string): seq<string>
    decreases |text|
  {
    if |text| <= LineChunk then Tokens(text)
    else Tokens(text[..LineChunk]) + FileTokens(text[LineChunk..])
  }

  /** A token strtok keeps whole: not empty and without a comma. */
  predicate Plain(token: string)
  {
    |token| > 0 && ',' !in token
  }

  /** The str() of each entry, as write_rom_file writes them. */
  function Texts(program: seq<Value>): seq<string>
  {
    seq(|program|, j requires 0 <= j < |program| => PyStr(program[j]))
  }

  /** A token the loader reads is plain: digits, a sign or a hex literal hold no comma. */
  lemma ReadableIsPlain(token: string)
    requires TokenValue(token).Some?
    ensures Plain(token)
  {
    if |token| >= 2 && token[..2] == "0x" {
      forall i | 0 <= i < |token| ensures token[i] != ',' {
        if i >= 2 {
          assert IsHexDigit(token[i]);
        } else {
          assert token[i] == token[..2][i];
        }
      }
    } else if |token| > 0 && (token[0] == '-' || token[0] == '+') && IsDigits(token[1..]) {
      forall i | 0 <= i < |token| ensures token[i] != ',' {
        if i >= 1 {
          assert IsDigit(token[1..][i - 1]);
        }
      }
    } else {
      assert IsDigits(token);
    }
  }

  /** The token at the start of a plain token followed by more text is that token. */
  lemma {:induction false} TokenLengthOfPlain(token: string, rest: string)
    requires ',' !in token
    ensures TokenLength(token + rest) == |token| + TokenLength(rest)
    decreases |token|
  {
    if |token| > 0 {
      assert (token + rest)[1..] == token[1..] + rest;
      TokenLengthOfPlain(token[1..], rest);
    } else {
      assert token + rest == rest;
    }
  }

  /** strtok over a plain token, a comma and more text gives the token, then the rest's tokens. */
  lemma TokensCons(token: string, rest: string)
    requires Plain(token)
    ensures Tokens(token + "," + rest) == [token] + Tokens(rest)
  {
    var line := token + "," + rest;
    TokenLengthOfPlain(token, "," + rest);
    assert line == token + ("," + rest);
    assert line[..|token|] == token;
    assert line[|token|..] == "," + rest;
    assert line[|token|..][1..] == rest;
  }

  /** strtok over one plain token gives that token. */
  lemma TokensOne(token: string)
    requires Plain(token)
    ensures Tokens(token) == [token]
  {
    TokenLengthOfPlain(token, "");
    assert token + "" == token;
  }

  /**
   * Split on commas as one line, the ROM text gives back the entries, one
   * token each: the reading load_program_from_file is written for.
   */
  lemma {:induction false} TokensOfRomText(program: seq<Value>)
    requires forall j :: 0 <= j < |program| ==> Plain(PyStr(program[j]))
    ensures Tokens(RomText(program)) == Texts(program)
    decreases |program|
  {
    if |program| == 1 {
      TokensOne(PyStr(program[0]));
    } else if |program| > 1 {
      TokensOfRomText(program[1..]);
      TokensCons(PyStr(program[0]), RomText(program[1..]));
      assert Texts(program) == [PyStr(program[0])] + Texts(program[1..]);
    }
  }

  /** strtok finds at most one token per character. */
  lemma {:induction false} TokensCount(line: string)
    ensures |Tokens(line)| <= |line|
    decreases |line|
  {
    if |line| > 0 {
      if line[0] == ',' {
        TokensCount(line[1..]);
      } else {
        TokensCount(line[TokenLength(line)..]);
      }
    }
  }

  /** A ROM text that fits one fgets chunk is read one token per entry. */
  lemma ShortRomReadsWhole(program: seq<Value>)
    requires Readable(program) && |RomText(program)| <= LineChunk
    ensures FileTokens(RomText(program)) == Texts(program)
  {
    forall j | 0 <= j < |program| ensures Plain(PyStr(program[j])) {
      ReadableIsPlain(PyStr(program[j]));
    }
    TokensOfRomText(program);
  }

  /** k copies of a token, each followed by a comma. */
  function Repeated(token: string, k: nat): string
  {
    if k == 0 then "" else token + "," + Repeated(token, k - 1)
  }

  /** k copies of a token with their commas take k times one more character than the token. */
  lemma {:induction false} RepeatedLength(token: string, k: nat)
    ensures |Repeated(token, k)| == k * (|token| + 1)
  {
    if k > 0 {
      RepeatedLength(token, k - 1);
      assert k * (|token| + 1) == (k - 1) * (|token| + 1) + |token| + 1;
    }
  }

  /** k + 1 copies of one entry are written as k copies with commas, then the last one. */
  lemma {:induction false} RomTextRepeated(v: Value, k: nat)
    ensures RomText(seq(k + 1, _ => v)) == Repeated(PyStr(v), k) + PyStr(v)
  {
    if k > 0 {
      var program := seq(k + 1, _ => v);
      var t := PyStr(v);
      RomTextRepeated(v, k - 1);
      assert program[1..] == seq(k, _ => v);
      calc {
        RomText(program);
        t + "," + RomText(program[1..]);
        t + "," + (Repeated(t, k - 1) + t);
        (t + "," + Repeated(t, k - 1)) + t;
      }
    }
  }

  /** strtok splits k comma-terminated copies of a plain token into k tokens. */
  lemma {:induction false} TokensRepeated(token: string, k: nat, rest: string)
    requires Plain(token)
    ensures Tokens(Repeated(token, k) + rest) == seq(k, _ => token) + Tokens(rest)
  {
    if k > 0 {
      TokensRepeated(token, k - 1, rest);
      assert Repeated(token, k) + rest == token + "," + (Repeated(token, k - 1) + rest);
      TokensCons(token, Repeated(token, k - 1) + rest);
      assert seq(k, _ => token) == [token] + seq(k - 1, _ => token);
    } else {
      assert Repeated(token, k) + rest == rest;
    }
  }

  /**
   * 66 comma-terminated copies of a two-character token and one more copy
   * make 200 characters; the first fgets chunk ends between the last copy's
   * two characters, so strtok returns them as two tokens.
   */
  lemma ChunkSplitsLastToken(first: char, second: char)
    requires first != ',' && second != ','
    ensures FileTokens(Repeated([first, second], 66) + [first, second])
            == seq(66, _ => [first, second]) + [[first], [second]]
  {
    var token := [first, second];
    var text := Repeated(token, 66) + token;
    RepeatedLength(token, 66);
    assert text[..LineChunk] == Repeated(token, 66) + [first];
    assert text[LineChunk..] == [second];
    TokensRepeated(token, 66, [first]);
    TokensOne([first]);
    TokensOne([second]);
  }

  /**
   * 67 entries of 17 make a ROM text of 200 characters.  Split on commas as
   * one line it gives the 67 entries back, but the loader reads it as 68
   * numbers: the first fgets chunk ends between the two digits of the last
   * entry, so strtok returns "1" and "7" where the assembler wrote 17.
   */
  lemma LongRomSplitsToken()
    ensures var program := seq(67, _ => Int(17));
            var text := RomText(program);
            && Readable(program)
            && |text| == LineChunk + 1
            && Tokens(text) == Texts(program)
            && |FileTokens(text)| == 68
            && FileTokens(text)[..66] == Texts(program)[..66]
            && TokenValue(FileTokens(text)[66]) == Some(1)
            && TokenValue(FileTokens(text)[67]) == Some(7)
  {
    var program := seq(67, _ => Int(17));
    SeventeensRom();
    TokensOfRomText(program);
    ChunkSplitsLastToken('1', '7');
    assert TokenValue("1") == Some(1) && TokenValue("7") == Some(7);
  }

  /** The ROM text and token strings of 67 entries of 17. */
  lemma SeventeensRom()
    ensures var program := seq(67, _ => Int(17));
            && Readable(program)
            && (forall j :: 0 <= j < |program| ==> Plain(PyStr(program[j])))
            && RomText(program) == Repeated("17", 66) + "17"
            && |Repeated("17", 66)| == 198
            && Texts(program) == seq(67, _ => "17")
  {
    assert NatToString(17) == NatToString(1) + [DigitChar(7)];
    assert PyStr(Int(17)) == "17";
    IntTokenValue(17);
    RomTextRepeated(Int(17), 66);
    RepeatedLength("17", 66);
  }

  /**
   * The ints load_program_from_file collects from a ROM text that fits one
   * fgets chunk: one per entry, each the value of the entry's token.
   */
  function LoaderInput(program: seq<Value>): (ints: seq<int>)
    requires Readable(program) && |RomText(program)| <= LineChunk
    ensures |ints| == |program| == |FileTokens(RomText(program))| <= LineChunk
    ensures forall j :: 0 <= j < |program| ==>
              && Some(ints[j]) == TokenValue(FileTokens(RomText(program))[j])
              && Some(ints[j]) == TokenValue(PyStr(program[j]))
  {
    var tokens := FileTokens(RomText(program));
    ShortRomReadsWhole(program);
    TokensCount(RomText(program));
    seq(|tokens|, j requires 0 <= j < |tokens| => TokenValue(tokens[j]).value)
  }

  /** Memory from cell `at` on holds the byte the loader makes of each entry. */
  predicate Image(s: State, at: int, entries: seq<Value>)
  {
    && Readable(entries)
    && 0 <= at && at + |entries| <= |s.memory|
    && forall j :: 0 <= j < |entries| ==> s.memory[at + j] == ToByte(TokenValue(PyStr(entries[j])).value)
  }

  /** Loading a readable program whose ROM text fits one fgets chunk puts its image at cell 0. */
  lemma LoadedImage(s: State, program: seq<Value>)
    requires Wf(s) && Readable(program) && |RomText(program)| <= LineChunk
    ensures Image(LoadTokens(s, LoaderInput(program)), 0, program)
  {
  }

  /** A slice of a loaded image is the image of that slice. */
  lemma ImageSlice(s: State, at: int, entries: seq<Value>, from: int, to: int)
    requires Image(s, at, entries) && 0 <= from <= to <= |entries|
    ensures Image(s, at + from, entries[from..to])
  {
    assert forall j :: 0 <= j < to - from ==> entries[from..to][j] == entries[from + j];
  }

  // ---------------------------------------------------------------------
  // The opcode table through the loader and the engine

  /**
   * get_assembly_instruction as the switch of `run` reads the opcodes: the
   * names of 0x00 and 0xFF exchanged, every other name as opcode_map gives it.
   */
  function CorrectedMnemonic(opcode: Byte): string
  {
    if opcode == 0x00 then "HALT" else if opcode == 0xFF then "RET" else Mnemonic(opcode)
  }

  /** Only the first and the last pair of opcode_map carry the names "RET" and "HALT". */
  lemma InnerNames(i: int)
    requires 0 < i < |OpcodeMap| - 1
    ensures OpcodeMap[i].1 != "HALT" && OpcodeMap[i].1 != "RET"
  {
    var name := OpcodeMap[i].1;
    assert name[0] != 'H' && (name[0] == 'R' ==> name[1] != 'E');
  }

  /** With the names exchanged, "HALT" names exactly the halting opcode and "RET" exactly the ret opcode. */
  lemma CorrectedNamesMatchDispatch(b: Byte)
    ensures CorrectedMnemonic(b) == "HALT" <==> Decode(b) == DoHalt
    ensures CorrectedMnemonic(b) == "RET" <==> Decode(b) == DoRet
  {
    PmxProperties.MnemonicKnown(b);
    if b != 0x00 && b != 0xFF && Mnemonic(b) != "UNKNOWN" {
      var i :| 0 <= i < |OpcodeMap| && OpcodeMap[i].0 == b;
      InnerNames(i);
    }
  }

  /** The tokens the assemblers emit for HALT and RET read as 0x00 and 0xFF. */
  lemma HaltRetTokens()
    ensures TokenValue(PmxAssembler.AssemblyToOpcode["HALT"]) == Some(0x00)
    ensures TokenValue(PmxAssembler.AssemblyToOpcode["RET"]) == Some(0xFF)
  {
    assert PmxAssembler.AssemblyToOpcode["HALT"] == "0x00";
    assert PmxAssembler.AssemblyToOpcode["RET"] == "0xFF";
    HexToken("0x00");
    HexToken("0xFF");
  }

  /**
   * The assemblers' HALT halts and their RET runs ret, as the switch of
   * `run` has it; get_assembly_instruction names the two the other way
   * round, and the corrected lookup names them as the assemblers do.
   */
  lemma HaltRetAsAssembled()
    ensures var halt := TokenValue(PmxAssembler.AssemblyToOpcode["HALT"]).value;
            && 0 <= halt < 256 && Decode(halt) == DoHalt
            && Mnemonic(halt) == "RET" && CorrectedMnemonic(halt) == "HALT"
    ensures var ret := TokenValue(PmxAssembler.AssemblyToOpcode["RET"]).value;
            && 0 <= ret < 256 && Decode(ret) == DoRet
            && Mnemonic(ret) == "HALT" && CorrectedMnemonic(ret) == "RET"
  {
    HaltRetTokens();
    PmxProperties.HaltRetNamesSwapped(0x00);
    PmxProperties.HaltRetNamesSwapped(0xFF);
  }

  /**
   * The tokens the assemblers emit for GTH, SWAP and MOV read as 0x0E, 0xCF
   * and 0x20, and the switch of `run` has no case for any of the three: an
   * iteration at such a cell ends the loop (PmxProperties.UnknownOpcodeStops).
   */
  lemma AssembledWordsThatStop()
    ensures TokenValue(PmxAssembler.AssemblyToOpcode["GTH"]) == Some(0x0E) && Decode(0x0E) == DoStop
    ensures TokenValue(PmxAssembler.AssemblyToOpcode["SWAP"]) == Some(0xCF) && Decode(0xCF) == DoStop
    ensures TokenValue(PmxAssembler.AssemblyToOpcode["MOV"]) == Some(0x20) && Decode(0x20) == DoStop
  {
    assert PmxAssembler.AssemblyToOpcode["GTH"] == "0x0E";
    assert PmxAssembler.AssemblyToOpcode["SWAP"] == "0xCF";
    assert PmxAssembler.AssemblyToOpcode["MOV"] == "0x20";
    HexToken("0x0E");
    HexToken("0xCF");
    HexToken("0x20");
    PmxProperties.DecodeQuirks();
  }

  // ---------------------------------------------------------------------
  // Emitted patterns, executed

  /** An iteration at a STR cell stores and goes on. */
  lemma StoreStep(s: State)
    requires Wf(s) && 0 <= s.pc < MemorySize && s.memory[s.pc] == 0xAA && CanPop(s, 2)
    ensures Steppable(s) && StepFn(s) == (Store(s), true)
  {
    assert Decode(s.memory[s.pc]) == DoStore;
  }

  /** An iteration at a GOTO cell jumps and goes on. */
  lemma GotoStep(s: State)
    requires Wf(s) && 0 <= s.pc < MemorySize && s.memory[s.pc] == 0xDE && CanPop(s, 1) && s.sp + 2 < |s.wst|
    ensures Steppable(s) && StepFn(s) == (GotoInstruction(s), true)
  {
    assert Decode(s.memory[s.pc]) == DoGoto;
  }

  /** The bytes the loader makes of the five entries of a display store. */
  lemma StoreCells(s: State, item: Value, addr: int)
    requires Image(s, s.pc, PmxAssembler.StoreTokens(item, addr))
    ensures TokenValue(PyStr(item)).Some?
    ensures && s.memory[s.pc] == 0x11 && s.memory[s.pc + 1] == ToByte(TokenValue(PyStr(item)).value)
            && s.memory[s.pc + 2] == 0x11 && s.memory[s.pc + 3] == ToByte(addr) && s.memory[s.pc + 4] == 0xAA
  {
    var tokens := PmxAssembler.StoreTokens(item, addr);
    StoreOpcodeTokens();
    IntTokenValue(addr);
    assert tokens[0] == Str("0x11") && tokens[2] == Str("0x11") && tokens[4] == Str("0xAA");
    assert tokens[1] == item && tokens[3] == Int(addr);
    ImageCell(s, s.pc, tokens, 0);
    ImageCell(s, s.pc, tokens, 1);
    ImageCell(s, s.pc, tokens, 2);
    ImageCell(s, s.pc, tokens, 3);
    ImageCell(s, s.pc, tokens, 4);
  }

  /** The POT and STR tokens the display stores use read as 0x11 and 0xAA. */
  lemma StoreOpcodeTokens()
    ensures TokenValue("0x11") == Some(0x11) && TokenValue("0xAA") == Some(0xAA)
  {
    HexToken("0x11");
    HexToken("0xAA");
  }

  /** One cell of an image: the byte of the entry's token. */
  lemma ImageCell(s: State, at: int, entries: seq<Value>, j: int)
    requires Image(s, at, entries) && 0 <= j < |entries|
    ensures TokenValue(PyStr(entries[j])).Some?
    ensures s.memory[at + j] == ToByte(TokenValue(PyStr(entries[j])).value)
  {
  }

  /** Three iterations over the cells POT v, POT a, STR: memory[a] becomes v and the stack is as before. */
  lemma StoreTripleRun(s: State, v: Byte, a: Byte)
    requires Wf(s) && 0 <= s.pc && s.pc + 5 <= MemorySize
    requires s.memory[s.pc] == 0x11 && s.memory[s.pc + 1] == v && s.memory[s.pc + 2] == 0x11
    requires s.memory[s.pc + 3] == a && s.memory[s.pc + 4] == 0xAA
    requires -1 <= s.sp && s.sp + 2 < MemorySize
    ensures SafeRun(s, 3)
    ensures var o := Run(s, 3);
            && !o.stopped && o.state.memory == s.memory[a := v]
            && o.state.pc == s.pc + 5 && o.state.sp == s.sp
            && o.state.registers == s.registers && o.state.rst == s.rst && o.state.dev == s.dev
  {
    PmxProperties.PotStep(s);
    var s1 := PutOnTopOfStack(s, v);
    PmxProperties.PotStep(s1);
    var s2 := PutOnTopOfStack(s1, a);
    StoreStep(s2);
    var s3 := Store(s2);
    assert Second(s2) == v by {
      assert s2.wst[..s1.sp + 1][s1.sp] == s1.wst[..s1.sp + 1][s1.sp];
    }
    assert s3.memory == s.memory[a := v];
    assert Loop(StepFn, s2, 1) == Outcome(s3, false);
    assert SafeLoop(StepFn, Steppable, s1, 2);
  }

  /**
   * The five cells add_to_display_mem emits, loaded at pc: three iterations
   * of `run` (POT item, POT addr, STR) write the item's byte into the cell
   * the address's byte names, leave the stack as it was and move pc past
   * the pattern.  No other cell changes.
   */
  lemma StoreRun(s: State, item: Value, addr: int)
    requires Wf(s) && Image(s, s.pc, PmxAssembler.StoreTokens(item, addr))
    requires -1 <= s.sp && s.sp + 2 < MemorySize
    ensures TokenValue(PyStr(item)).Some? && SafeRun(s, 3)
    ensures var o := Run(s, 3);
            && !o.stopped
            && o.state.memory == s.memory[ToByte(addr) := ToByte(TokenValue(PyStr(item)).value)]
            && o.state.pc == s.pc + 5 && o.state.sp == s.sp
            && o.state.registers == s.registers && o.state.rst == s.rst && o.state.dev == s.dev
  {
    StoreCells(s, item, addr);
    StoreTripleRun(s, ToByte(TokenValue(PyStr(item)).value), ToByte(addr));
  }

  /**
   * A store emitted by WCHR for display address DisplayStart + k: the
   * address cell holds only its low byte, k, so the store overwrites memory
   * cell k (a cell of the loaded program) and never the display cell.
   */
  lemma DisplayStoreHitsProgram(s: State, item: Value, k: int)
    requires 0 <= k < 256
    requires Wf(s) && Image(s, s.pc, PmxAssembler.StoreTokens(item, DisplayStart + k))
    requires -1 <= s.sp && s.sp + 2 < MemorySize
    ensures TokenValue(PyStr(item)).Some? && SafeRun(s, 3)
    ensures var t := Run(s, 3).state;
            && t.memory == s.memory[k := ToByte(TokenValue(PyStr(item)).value)]
            && t.memory[DisplayStart + k] == s.memory[DisplayStart + k]
  {
    assert ToByte(DisplayStart + k) == k;
    StoreRun(s, item, DisplayStart + k);
  }

  /** Two iterations over the cells POT target, GOTO: a call to target returning to pc + 3. */
  lemma CallPairRun(s: State, target: Byte)
    requires Wf(s) && 0 <= s.pc && s.pc + 3 <= MemorySize
    requires s.memory[s.pc] == 0x11 && s.memory[s.pc + 1] == target && s.memory[s.pc + 2] == 0xDE
    requires -1 <= s.sp && s.sp + 3 < MemorySize
    ensures SafeRun(s, 2)
    ensures var o := Run(s, 2);
            && !o.stopped && Depth(o.state) == Depth(s) + 2 && o.state.pc == target
            && Top(o.state) == ToByte(s.pc + 3) && o.state.wst[o.state.sp - 1] == target
            && o.state.memory == s.memory && o.state.registers == s.registers
  {
    PmxProperties.PotStep(s);
    var s1 := PutOnTopOfStack(s, target);
    GotoStep(s1);
    var s2 := GotoInstruction(s1);
    assert Loop(StepFn, s1, 1) == Outcome(s2, false);
    assert SafeLoop(StepFn, Steppable, s1, 1);
  }

  /**
   * The three cells call_instruction emits (POT target, GOTO), loaded at pc:
   * two iterations jump to the target's byte, leaving the return address
   * pc + 3 (as a byte) on top with the target beneath it.
   */
  lemma CallRun(s: State, target: Value)
    requires Wf(s) && Image(s, s.pc, [Str("0x11"), target, Str("0xDE")])
    requires -1 <= s.sp && s.sp + 3 < MemorySize
    ensures TokenValue(PyStr(target)).Some? && SafeRun(s, 2)
    ensures var o := Run(s, 2);
            && !o.stopped && Depth(o.state) == Depth(s) + 2
            && o.state.pc == ToByte(TokenValue(PyStr(target)).value)
            && Top(o.state) == ToByte(s.pc + 3) && o.state.wst[o.state.sp - 1] == o.state.pc
            && o.state.memory == s.memory && o.state.registers == s.registers
  {
    var tokens := [Str("0x11"), target, Str("0xDE")];
    HexToken("0x11");
    HexToken("0xDE");
    assert tokens[0] == Str("0x11") && tokens[1] == target && tokens[2] == Str("0xDE");
    CallPairRun(s, ToByte(TokenValue(PyStr(target)).value));
  }

  // ---------------------------------------------------------------------
  // GTH, dispatched

  /**
   * One iteration of `run` with the case for 0x0E that opcode_map and
   * greater_than imply; every other cell is dispatched as written.
   */
  function CorrectedStep(s: State): (r: (State, bool))
    requires Wf(s) && CanStep(s) && (s.memory[s.pc] == 0x0E ==> CanPop(s, 2))
    ensures Wf(r.0)
  {
    if s.memory[s.pc] == 0x0E then (GreaterThan(s), true) else Step(s)
  }

  /**
   * With the 0x0E case, every opcode get_assembly_instruction names keeps
   * the loop running, except the halting 0x00 and SWAP's 0xCF; at 0x0E the
   * flag pushed is 0 exactly when the top exceeds the cell beneath it.
   */
  lemma CorrectedStepRunsNamedOpcodes(s: State)
    requires Wf(s) && CanStep(s) && (s.memory[s.pc] == 0x0E ==> CanPop(s, 2))
    requires Mnemonic(s.memory[s.pc]) != "UNKNOWN" && s.memory[s.pc] != 0x00 && s.memory[s.pc] != 0xCF
    ensures CorrectedStep(s).1
    ensures s.memory[s.pc] == 0x0E ==>
              var t := CorrectedStep(s).0;
              && Depth(t) == Depth(s) - 1 && t.pc == s.pc + 1
              && (t.wst[t.sp] == 0 <==> Top(s) > Second(s))
  {
    PmxProperties.NamedButNotDispatched(s.memory[s.pc]);
  }
}
