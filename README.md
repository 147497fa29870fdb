# PMX: engine, glyph rasteriser and assemblers, in Dafny

PMX is a small stack machine. Its engine (`src/pmx.c`) keeps a byte memory
of 655360 cells (the ones `init_pmx` clears), a working stack `wst` indexed
by `sp`, a return stack `rst` indexed by `rp`, a program counter, eight `int` registers and 256 device
ports. `run` fetches the byte at `pc` and dispatches it through a `switch`
to a handler that updates the machine in place; it stops on `0x00` (halt)
or on any byte without a `case`. A display device (`src/devices/display.c`)
rasterises text from a 5-row, 130-column '0'/'1' font into an 800×600
buffer of 16-bit pixels. Two Python assemblers turn assembly lines into the
comma-separated integer programs the engine loads: `pmxAssembler.py` and
the earlier inline version `assembler.py`, which differs in LOAD, GOTO, MOV
and WCHR.

The project models:

- **`pmx_spec.dfy` (module `Pmx`)**: the machine state as a value, and every
  handler as a function from state to state. Every cell the C code stores is
  reduced to a byte. Bounds the C code never checks become `requires`. The
  module also has the `switch` of `run` (`Decode`, `Step`), the loop of `run`
  with a fuel bound (`Loop`, `Run`), `opcode_map` and
  `get_assembly_instruction`.
- **`pmx_machine.dfy` (module `PmxMachine`)**: class `Machine`, holding
  arrays for memory, the two stacks, the registers and the ports, plus the
  index fields. Each handler is a method that updates them in place, and is
  proved to leave exactly the state the matching `Pmx` function computes.
  `Execute` is one iteration of the `switch`; `Run` is the `while (running)`
  loop.
- **`pmx_properties.dfy` (module `PmxProperties`)**: lemmas that relate
  several handlers or steps. They cover the dispatch quirks, the opcode
  table, halting, round trips and a traced example program.
- **`display.dfy` (module `PmxDisplay`)**: class `Display` over the pixel
  array, with `drawPixel`, `drawBitmap`, `drawChar`, `drawString` and the
  `initDisplay` fill as loops. Each is proved equal to a specification
  function. Lemmas state which pixels each call paints.
- **`py_text.dfy` (module `PyText`)**: the Python built-ins the assemblers
  use (`in` on strings, `replace`, `str`, `int`), the exceptions a handler
  can raise, and the shared `program` list and `variables` dict as classes.
- **`pmx_assembler.dfy` (module `PmxAssembler`)** and **`inline_assembler.dfy`
  (module `InlineAssembler`)**: each handler of the two assemblers as a
  method that appends to the shared list or assigns into the shared dict.
  Each method is proved equal to a function that gives what it appends or
  binds. `Parse` composes these functions the way `parse_instructions`
  dispatches.
- **`asm_semantics.dfy` (module `AsmSemantics`)**: follows the emitted text
  through the loader and `run`. It covers how `fgets` and `strtok` cut the
  ROM text into tokens, the value each token reads as, what an executed
  display store and an executed CALL do, and the corrected readings of the
  findings below. Every stack cell is a byte, so two more consequences
  follow. A display store to `0x2AD00 + k` writes program cell `k` and
  never reaches the display (`DisplayStoreHitsProgram`). A CALL to a label
  at 256 or above jumps to the label's low byte (`CallRun`).

## Model

| member | source | states |
|---|---|---|
| Pmx.ToByte | src/pmx.h:14-16 | storing an int into an `unsigned char` cell keeps it modulo 256 |
| Pmx.LoadProgram | src/pmx.c:33-39 | cells `0..length` receive the program as bytes; every other cell and all other fields unchanged |
| Pmx.LoadTokens | src/pmx.c:441-443 | R8 becomes the token count capped at 1000, and those tokens are loaded as bytes |
| Pmx.UnloadProgram | src/pmx.c:42-53 | pc 0, sp and rp -1, exactly the first R8 cells cleared, R8 cleared; stacks and ports unchanged |
| Pmx.Add | src/pmx.c:57-62 | pops a (top) and b, pushes (a+b) mod 256, depth −1, pc +1, cells below unchanged |
| Pmx.Sub | src/pmx.c:64-69 | pushes (a−b) mod 256 with a the top, depth −1, pc +1 |
| Pmx.Duplicate | src/pmx.c:72-76 | the top is copied above itself, depth +1, pc +1 |
| Pmx.Load | src/pmx.c:79-84 | register reg−1 set to value when 1 ≤ reg ≤ 8, registers unchanged otherwise; pc +2 either way |
| Pmx.ReadPc | src/pmx.c:87-90 | pushes pc as a byte, pc +1 |
| Pmx.Push | src/pmx.c:93-100 | pushes register reg−1 as a byte when reg is 1..8; otherwise the stack is unchanged; pc +2 |
| Pmx.Pop | src/pmx.c:103-108 | pops the top into register reg−1 when reg is 1..8; otherwise nothing but pc changes; pc +2 |
| Pmx.Jump | src/pmx.c:116-119 | pc becomes the popped top, depth −1 |
| Pmx.Over | src/pmx.c:122-126 | pushes the second cell, depth +1, pc +1 |
| Pmx.JumpIfNotZero | src/pmx.c:129-136 | a non-zero top: a second pop goes into pc (depth −2); a zero top: pc +1 (depth −1) |
| Pmx.Equal | src/pmx.c:139-144 | pushes 0 exactly when a == b, 1 otherwise, depth −1 |
| Pmx.GreaterThan | src/pmx.c:147-152 | pushes 0 exactly when a > b (a the top), 1 otherwise, depth −1 |
| Pmx.LowerThan | src/pmx.c:155-160 | pushes 0 exactly when a < b, 1 otherwise, depth −1 |
| Pmx.Swap | src/pmx.c:163-170 | exchanges the two registers the top two cells name, all other registers kept, depth −2, pc +3 |
| Pmx.ConsoleDeo | src/pmx.c:175-182 | only pc +2 (the console write is not modelled) |
| Pmx.Increase | src/pmx.c:185-188 | top becomes (top+1) mod 256, pc +1 |
| Pmx.Decrease | src/pmx.c:191-194 | top becomes (top−1) mod 256, pc +1 |
| Pmx.RemoveTopOfStack | src/pmx.c:197-200 | sp −1, pc +1, nothing else |
| Pmx.DevWrite | src/pmx.c:204-207 | port addr receives the popped top, pc +2, nothing else changes |
| Pmx.PutOnTopOfStack | src/pmx.c:210-215 | pushes the value as a byte, depth +1, pc +2 |
| Pmx.GotoInstruction | src/pmx.c:218-224 | pc becomes the old top, depth +1, (old pc + 1) mod 256 on top with the target beneath |
| Pmx.FloorSqrt | src/pmx.c:235-239 | r·r ≤ n < (r+1)·(r+1) |
| Pmx.Power | src/pmx.c:227-232 | pushes value^exponent as a byte, depth −1, pc +1 |
| Pmx.SqrtInstruction | src/pmx.c:235-239 | replaces the top by its integer square root, pc +1 |
| Pmx.AbsInstruction | src/pmx.c:242-246 | leaves the top as it is (a byte is never negative), pc +1 |
| Pmx.Store | src/pmx.c:249-255 | pops addr then value and writes memory[addr] := value only; depth −2, pc +1 |
| Pmx.Ret | src/pmx.c:338-341 | moves the top onto the return stack, pc +1 |
| Pmx.Step | src/pmx.c:354-394 | one iteration of the `switch`: the handler the fetched byte selects, and whether `running` stays set |
| Pmx.Loop | src/pmx.c:354-396 | no fuel gives the state unchanged; a stopped loop used at least one iteration |
| Pmx.Run | src/pmx.c:344-397 | `run` as at most `fuel` iterations of Step |
| PmxProperties.SwapUnreachable | src/pmx.c:390-392 | no byte cell selects swap: its cases are 0x1CF, 0x2CF and 0x3CF |
| PmxProperties.DecodeQuirks | src/pmx.c:357-393 | 0x0E, 0xCF and 0x20 fall to `default`; 0x00 halts; 0xFF runs ret |
| PmxProperties.OpcodeMapIncreasing | src/pmx.c:266-298 | opcode_map lists its opcodes in increasing order |
| PmxProperties.OpcodeMapDistinct | src/pmx.c:266-298 | the opcodes of opcode_map are pairwise distinct |
| PmxProperties.MnemonicFromFirst | src/pmx.c:300-307 | the search returns the first matching pair's text, or "UNKNOWN" when none matches |
| PmxProperties.MnemonicFound | src/pmx.c:300-307 | looking up a table opcode gives the text paired with it |
| PmxProperties.OpcodeMapNamed | src/pmx.c:266-298 | no text in the table is "UNKNOWN" |
| PmxProperties.MnemonicKnown | src/pmx.c:300-307 | the result is not "UNKNOWN" exactly for the table's opcodes, and then it is the paired text |
| PmxProperties.OpcodeMapCodes | src/pmx.c:266-298 | the table's opcodes are exactly 0x00..0x14 plus the ten high opcodes 0xAA, 0xAF, 0xBF, 0xCF, 0xDE, 0xDF, 0xEE, 0xEF, 0xFE and 0xFF |
| PmxProperties.HaltRetNamesSwapped | src/pmx.c:267 | 0x00 is named "RET" but halts; 0xFF is named "HALT" but runs ret |
| PmxProperties.NamedButNotDispatched | src/pmx.c:266-298 | the named bytes that fall to `default` are exactly 0x0E and 0xCF |
| PmxProperties.DispatchedButNotNamed | src/pmx.c:378-380 | the unnamed bytes with a case are exactly 0x23, 0x24 and 0x25 |
| PmxProperties.UnknownOpcodeStops | src/pmx.c:393 | a byte without a case ends `run` after one iteration, leaving the whole state unchanged |
| PmxProperties.HaltStops | src/pmx.c:358 | a 0x00 cell ends `run` after one iteration, with the program unloaded |
| PmxProperties.LoopStable | src/pmx.c:354 | once the loop has stopped, more fuel changes nothing |
| PmxProperties.LoopSplit | src/pmx.c:354 | n + m iterations are n iterations followed by m more, unless the loop stopped first |
| PmxProperties.LoopFirst | src/pmx.c:354-396 | a safe loop runs its first step and continues from its result |
| PmxProperties.StepFnIsStep | src/pmx.c:357-394 | on safe states the loop's step function is Step |
| PmxProperties.LoopPreserves | src/pmx.c:354-396 | an invariant every safe step keeps holds in the state the loop ends in |
| PmxProperties.RunKeepsWf | src/pmx.c:344-397 | `run` keeps the buffer sizes |
| PmxProperties.PopPushRoundTrip | src/pmx.c:93-108 | POP Rk then PUSH Rk gives back the whole state except that Rk now holds the old top and pc has moved by 4 |
| PmxProperties.UnloadUndoesLoad | src/pmx.c:33-53 | on a fresh machine, unloading after loading restores memory and registers |
| PmxProperties.PotStep | src/pmx.c:374 | an iteration at 0x11 pushes the operand cell and goes on |
| PmxProperties.AddStep | src/pmx.c:367 | an iteration at 0x09 adds and goes on |
| PmxProperties.HaltStep | src/pmx.c:358 | an iteration at 0x00 unloads and stops |
| PmxProperties.AddProgramTrace | src/pmx.c:358-374 | the four iterations of POT 3, POT 4, ADD, HALT on a fresh machine |
| PmxProperties.AddProgramExample | src/pmx.c:344-397 | POT 3, POT 4, ADD, HALT stops after four iterations with 7 left in wst[0] and the program cleared |
| PmxMachine.Machine.constructor | src/pmx.c:8-30 | every memory, stack and register cell 0, sp = rp = −1, pc = time = 0 |
| PmxMachine.Machine.LoadProgram | src/pmx.c:33-39 | the loop leaves the state Pmx.LoadProgram describes |
| PmxMachine.Machine.LoadTokens | src/pmx.c:441-443 | R8 := count, then load_program, as Pmx.LoadTokens |
| PmxMachine.Machine.UnloadProgram | src/pmx.c:42-53 | the clearing loop leaves the state Pmx.UnloadProgram describes |
| PmxMachine.Machine.Halt | src/pmx.c:110-113 | unloads and returns `running` = 0 |
| PmxMachine.Machine.Add | src/pmx.c:57-62 | the in-place update equals Pmx.Add |
| PmxMachine.Machine.Sub | src/pmx.c:64-69 | equals Pmx.Sub |
| PmxMachine.Machine.Duplicate | src/pmx.c:72-76 | equals Pmx.Duplicate |
| PmxMachine.Machine.Load | src/pmx.c:79-84 | equals Pmx.Load |
| PmxMachine.Machine.ReadPc | src/pmx.c:87-90 | equals Pmx.ReadPc |
| PmxMachine.Machine.Push | src/pmx.c:93-100 | equals Pmx.Push |
| PmxMachine.Machine.Pop | src/pmx.c:103-108 | equals Pmx.Pop |
| PmxMachine.Machine.Jump | src/pmx.c:116-119 | equals Pmx.Jump |
| PmxMachine.Machine.Over | src/pmx.c:122-126 | equals Pmx.Over |
| PmxMachine.Machine.JumpIfNotZero | src/pmx.c:129-136 | equals Pmx.JumpIfNotZero |
| PmxMachine.Machine.Equal | src/pmx.c:139-144 | equals Pmx.Equal |
| PmxMachine.Machine.GreaterThan | src/pmx.c:147-152 | equals Pmx.GreaterThan |
| PmxMachine.Machine.LowerThan | src/pmx.c:155-160 | equals Pmx.LowerThan |
| PmxMachine.Machine.Swap | src/pmx.c:163-170 | equals Pmx.Swap |
| PmxMachine.Machine.ConsoleDeo | src/pmx.c:175-182 | equals Pmx.ConsoleDeo |
| PmxMachine.Machine.Increase | src/pmx.c:185-188 | equals Pmx.Increase |
| PmxMachine.Machine.Decrease | src/pmx.c:191-194 | equals Pmx.Decrease |
| PmxMachine.Machine.RemoveTopOfStack | src/pmx.c:197-200 | equals Pmx.RemoveTopOfStack |
| PmxMachine.Machine.DevWrite | src/pmx.c:204-207 | equals Pmx.DevWrite |
| PmxMachine.Machine.PutOnTopOfStack | src/pmx.c:210-215 | equals Pmx.PutOnTopOfStack |
| PmxMachine.Machine.GotoInstruction | src/pmx.c:218-224 | pushing pc + 1, then over, then jump, equals Pmx.GotoInstruction |
| PmxMachine.Machine.Power | src/pmx.c:227-232 | equals Pmx.Power |
| PmxMachine.Machine.SqrtInstruction | src/pmx.c:235-239 | equals Pmx.SqrtInstruction |
| PmxMachine.Machine.AbsInstruction | src/pmx.c:242-246 | equals Pmx.AbsInstruction |
| PmxMachine.Machine.Store | src/pmx.c:249-255 | equals Pmx.Store |
| PmxMachine.Machine.Ret | src/pmx.c:338-341 | equals Pmx.Ret |
| PmxMachine.Machine.Execute | src/pmx.c:355-394 | one pass of the `switch` leaves the state and `running` that Pmx.Step gives |
| PmxMachine.Machine.Advance | src/pmx.c:354-396 | one iteration inside a safe run: either it continues with one less fuel or the loop has stopped here |
| PmxMachine.Machine.Run | src/pmx.c:344-397 | the `while (running)` loop ends in the state and the stop flag of Pmx.Run |
| PmxMachine.Machine.GetAssemblyInstruction | src/pmx.c:300-307 | the linear search returns Mnemonic(opcode) |
| PmxDisplay.ToUint16 | src/devices/display.c:72 | a Uint32 colour stored in a Uint16 pixel keeps its low 16 bits |
| PmxDisplay.PaintPixel | src/devices/display.c:63-75 | the buffer keeps its length |
| PmxDisplay.BlockBounds | src/devices/display.c:66-70 | every index drawPixel writes lies between the block's first and last index |
| PmxDisplay.BlockInjective | src/devices/display.c:66-70 | for scale ≤ 800, distinct (r, c) give distinct indices, so the block has scale·scale pixels |
| PmxDisplay.PaintBitmap | src/devices/display.c:78-93 | the buffer keeps its length |
| PmxDisplay.AlphabetIndex | src/devices/display.c:101-106 | letter == 'A' + index, with no range check; 'A'..'Z' give 0..25 |
| PmxDisplay.PaintChar | src/devices/display.c:96-98 | the buffer keeps its length |
| PmxDisplay.PaintString | src/devices/display.c:109-115 | the buffer keeps its length |
| PmxDisplay.BlockPartStep | src/devices/display.c:64-74 | one more inner iteration of drawPixel adds exactly index (r, c) |
| PmxDisplay.BlockPartRow | src/devices/display.c:64-74 | a finished inner loop is the start of the next row |
| PmxDisplay.GlyphPartStep | src/devices/display.c:84-92 | one more inner iteration of drawBitmap adds exactly that cell's block |
| PmxDisplay.GlyphPartRow | src/devices/display.c:84-92 | a finished column loop is the start of the next bitmap row |
| PmxDisplay.Display.DrawPixel | src/devices/display.c:63-75 | the nested loops leave PaintPixel of the old buffer |
| PmxDisplay.Display.DrawBitmap | src/devices/display.c:78-93 | the nested loops leave PaintBitmap of the old buffer |
| PmxDisplay.Display.DrawChar | src/devices/display.c:96-98 | drawBitmap with width 5 over the alphabet leaves PaintChar |
| PmxDisplay.Display.DrawString | src/devices/display.c:109-115 | the loop, x advancing by 6, leaves PaintString |
| PmxDisplay.Display.InitDisplay | src/devices/display.c:118-127 | the fill, then "START" at (0, 0) in red at scale 4 |
| PmxDisplay.Filled | src/devices/display.c:122-125 | all 800·600 pixels equal bg (as a Uint16) |
| PmxDisplay.AlphabetShape | src/devices/display.c:16-33 | 5 rows of 130 characters: exactly 26 glyphs of width 5 |
| PmxDisplay.AlphabetReadable | src/devices/display.c:96-98 | the glyph block of index lies inside every row exactly for 0 ≤ index < 26 |
| PmxDisplay.ScaleMonotonic | src/devices/display.c:66-67 | scaling keeps order |
| PmxDisplay.BlockOnScreen | src/devices/display.c:63-75 | a block whose scaled corner is on the 800×600 screen is written in bounds |
| PmxDisplay.CharOnScreen | src/devices/display.c:96-98 | a capital letter whose scaled 5×5 glyph is on screen is drawn in bounds |
| PmxDisplay.StringOnScreen | src/devices/display.c:109-115 | a string of capitals whose scaled extent is on screen is drawn in bounds |
| PmxDisplay.StartOnScreen | src/devices/display.c:127 | the "START" banner fits the screen |
| PmxDisplay.InBlockDecoded | src/devices/display.c:66-70 | a pixel is in drawPixel's block exactly when its offset from the block's first index has row < scale and column < scale |
| PmxDisplay.LetterCoversTail | src/devices/display.c:109-115 | letter n+1 of s at x covers what letter n of s[1..] covers at x + 6 |
| PmxDisplay.InStringCons | src/devices/display.c:109-115 | a string covers a pixel exactly when its first letter does, or the rest does from x + 6 |
| PmxDisplay.FirstLetterPaints | src/devices/display.c:111-112 | drawChar of the first letter paints exactly the pixels that letter covers |
| PmxDisplay.PaintBitmapAt | src/devices/display.c:84-92 | drawBitmap sets a pixel to the colour exactly when a '1' cell of the glyph covers it; every other pixel keeps its value |
| PmxDisplay.PaintStringCovers | src/devices/display.c:109-115 | drawString sets a pixel to the colour exactly when some letter covers it; every other pixel keeps its value |
| PmxDisplay.PaintStringIdempotent | src/devices/display.c:109-115 | drawing the same string twice gives the result of drawing it once |
| PmxDisplay.PaintStringAppend | src/devices/display.c:109-115 | drawing s + t is drawing s, then t from x + 6·|s| |
| PmxDisplay.StartScreen | src/devices/display.c:118-127 | after initDisplay a pixel is 0xf00 exactly when "START" covers it, and bg otherwise |
| PmxDisplay.ColorsAreRgb444 | src/devices/display.c:35-43 | each of the 7 colours is below 0x1000 and survives the Uint16 store |
| PyText.ContainsAt | pmxAssembler.py:169-173 | Python's `sub in s` holds exactly when sub occurs at some offset |
| PyText.ContainsChar | pmxAssembler.py:171 | for a one-character pattern, `in` is membership |
| PyText.ContainsNeedsChar | pmxAssembler.py:173 | a pattern containing a character s lacks does not occur in s |
| PyText.Remove | pmxAssembler.py:170 | `replace(c, "")` leaves no c, and changes nothing when there was none |
| PyText.RemoveKeepsOthers | pmxAssembler.py:161-162 | `replace(c, "")` keeps every other character as often as before |
| PyText.NatToString | pmxAssembler.py:259 | str(n) is a run of digits whose value is n |
| PyText.ParseIntToString | pmxAssembler.py:259 | int(str(n)) == n |
| PyText.IntToStringShape | pmxAssembler.py:279-285 | str(n) is digits, after a '-' exactly when n < 0 |
| PyText.TwoDigitHex | pmxAssembler.py:2-29 | a four-character "0xHL" literal denotes 16·H + L |
| PyText.PyList.Append | pmxAssembler.py:163-165 | list.append adds one entry at the end |
| PyText.PyDict.Set | pmxAssembler.py:229 | d[key] = value |
| PmxAssembler.DisplayWritesFive | pmxAssembler.py:188-192 | five stores in a row, spelled out |
| PmxAssembler.AddToDisplayMem | pmxAssembler.py:195-202 | appends exactly [POT, item, POT, display_addr, STR] and returns display_addr + 1 |
| PmxAssembler.WchrInstruction | pmxAssembler.py:181-193 | an unknown letter or a missing word raises with nothing appended; otherwise appends the five stores and returns display_addr + 5 |
| PmxAssembler.SwapInstruction | pmxAssembler.py:160-165 | appends [0xCF, reg1, reg2] with "R" removed, or raises with nothing appended |
| PmxAssembler.UnaryInstruction | pmxAssembler.py:167-179 | appends [opcode, operand]: a variable's value, an '@' name, a "0x" literal, or the word with "R" removed |
| PmxAssembler.CallInstruction | pmxAssembler.py:220-224 | appends [0x11, target, 0xDE], or raises with nothing appended |
| PmxAssembler.Mov | pmxAssembler.py:261-273 | appends [0x20, flag1, flag2, arg1, arg2] |
| PmxAssembler.LoadInstruction | pmxAssembler.py:231-259 | appends [opcode(Rn), operand] with the operand resolved as the source does |
| PmxAssembler.VarInstruction | pmxAssembler.py:226-229 | binds name to int of the value with '#' removed, or raises with the dict unchanged |
| PmxAssembler.LabelInstruction | pmxAssembler.py:204-206 | binds name to len(program) + pc, list unchanged |
| PmxAssembler.ParseInstructions | pmxAssembler.py:132-158 | the dispatch leaves the list, dict and display address Parse gives, and nothing changes when a handler raises |
| PmxAssembler.ReplaceVariables | pmxAssembler.py:275-286 | length kept; bound names become str(value), other entries str(entry); on a KeyError the entries before it are rewritten and the rest untouched |
| PmxAssembler.DisplayWritesShape | pmxAssembler.py:195-202 | n stores are 5n entries, store k being the five entries for item k at addr + k |
| PmxAssembler.WchrShape | pmxAssembler.py:181-193 | WCHR emits 25 entries storing the char code, x, y and scale without '#', and the colour, at display_addr..display_addr+4 |
| PmxAssembler.CharToHexKeys | pmxAssembler.py:31-59 | the keys are exactly " " and the 26 capitals |
| PmxAssembler.CharToHexFirstHalf | pmxAssembler.py:32-45 | A..M read as 0x01..0x0D |
| PmxAssembler.CharToHexSecondHalf | pmxAssembler.py:46-58 | N..U read as 0x0E..0x15 and V..Z as 0x17..0x1B: 0x16 is skipped |
| PmxAssembler.CharToHexCodes | pmxAssembler.py:31-59 | every entry reads as its key's code |
| PmxAssembler.CharToHexInjective | pmxAssembler.py:31-59 | distinct keys have distinct codes |
| PmxAssembler.KeyCodeInjective | pmxAssembler.py:31-59 | the code function is injective on the keys |
| PmxAssembler.UnaryRegister | pmxAssembler.py:169-170 | an operand "Rn" that is not a variable becomes "n" |
| PmxAssembler.UnaryVariable | pmxAssembler.py:169-176 | an operand bound in variables becomes its value |
| PmxAssembler.MovOperandKinds | pmxAssembler.py:264-271 | a "0x" argument is kept with flag 1; "Rn" becomes "n" with flag 0 |
| PmxAssembler.LoadLiteral | pmxAssembler.py:232-235 | LOAD Rn #k emits str(k), which reads back as k |
| PmxAssembler.LoadIgnoresTrailingWords | pmxAssembler.py:231-259 | words after the operand do not change what LOAD emits |
| PmxAssembler.ParseDisplayAddr | pmxAssembler.py:147-148 | only WCHR moves the display address, by 5 |
| PmxAssembler.ParseVariables | pmxAssembler.py:139-146 | only VAR and LABEL change variables |
| PmxAssembler.ParseGrowth | pmxAssembler.py:136-157 | the list only grows: WCHR 25, MOV 5, SWAP and CALL 3, LOAD and unary 2, a bare opcode 1, other words 0 |
| PmxAssembler.GotoDropsOperand | pmxAssembler.py:155-157 | GOTO x appends only 0xDE; the target is dropped |
| PmxAssembler.LabelMarksNextEntry | pmxAssembler.py:204-206 | a label's value minus pc indexes the next entry emitted, and the entries before it are unchanged |
| PmxAssembler.ReplaceEntryMeaning | pmxAssembler.py:275-286 | raises exactly for an unbound name with '@'; a bound name becomes text that reads back as its value; other entries become their str() |
| PmxAssembler.WchrAddressesAdvance | pmxAssembler.py:147-148 | two WCHR lines store to display_addr..+4 and then display_addr+5..+9 |
| PmxAssembler.WchrLineStores | pmxAssembler.py:181-193 | one WCHR line: 25 entries after the old ones, address entries display_addr + k, display_addr + 5 after |
| PmxAssembler.DisplayWritesAddresses | pmxAssembler.py:195-202 | entry 5k+3 of the stores is the address addr + k |
| InlineAssembler.StacksRaisedPrefix | assembler.py:149-154 | a word that raises while classifying makes the whole LOAD raise the same error |
| InlineAssembler.LoadInstruction | assembler.py:136-167 | the classify and pop loops append what LoadEmit gives, or raise with nothing appended |
| InlineAssembler.GotoInstruction | assembler.py:178-181 | appends [0xDE, target] |
| InlineAssembler.WchrInstruction | assembler.py:193-233 | appends the five stores, or raises with nothing appended |
| InlineAssembler.ParseInstructions | assembler.py:131-257 | the dispatch leaves what Parse gives, and the display address is never changed |
| InlineAssembler.NumberWord | assembler.py:149-154 | a digit word classifies as a number |
| InlineAssembler.StacksOfSteps | assembler.py:149-154 | a run of "± n" words yields the sign and value stacks |
| InlineAssembler.FoldSteps | assembler.py:158-165 | popping the stacks adds the signed amounts to the base value |
| InlineAssembler.SignsAmountsLength | assembler.py:149-154 | the two stacks are as long as the run of steps |
| InlineAssembler.LoadArithmetic | assembler.py:136-167 | LOAD Rn var ± m … emits [opcode, str(var + the signed total)] |
| InlineAssembler.NegativeLiteralIsOperator | assembler.py:149-152 | a negative literal is taken for a '-' operator, so the pop loop raises IndexError |
| InlineAssembler.HexOperandArithmetic | assembler.py:158-165 | arithmetic on a "0x" operand raises TypeError |
| InlineAssembler.LoadAgreesWithoutArithmetic | assembler.py:136-167 | without trailing terms, LOAD emits what pmxAssembler's LOAD emits |
| InlineAssembler.GotoKeepsOperand | assembler.py:178-181 | GOTO x appends [0xDE, x] |
| InlineAssembler.MovIgnored | assembler.py:135 | MOV is not handled and appends nothing |
| InlineAssembler.WchrRepeatsAddresses | assembler.py:193-233 | two WCHR lines both store to display_addr..display_addr+4 |
| InlineAssembler.WchrStores | assembler.py:193-233 | one WCHR line: 25 entries, address entries display_addr + k, display address unchanged |
| InlineAssembler.AgreesWithPmxAssembler | assembler.py:131-257 | for every word but LOAD, GOTO, MOV and IMPORT, the same error or the same list and dict as pmxAssembler |
| InlineAssembler.DispatchAgrees | assembler.py:135 | apart from LOAD, GOTO, MOV and IMPORT, both dispatches pick the same handler |
| AsmSemantics.HexToken | src/pmx.c:422-424 | a "0xHL" token is read through %x as 16·H + L |
| AsmSemantics.IntTokenValue | src/pmx.c:425-427 | str(n) is read through %d as n |
| AsmSemantics.TokenLength | src/pmx.c:417-418 | the token strtok finds at the start of a chunk is its whole run before the first comma |
| AsmSemantics.ReadableIsPlain | src/pmx.c:422-427 | a token that reads as a number is non-empty and holds no comma |
| AsmSemantics.TokenLengthOfPlain | src/pmx.c:417 | strtok's first token runs over a comma-free prefix and on into what follows it |
| AsmSemantics.TokensCons | src/pmx.c:417-434 | a plain token followed by a comma is returned whole, then strtok goes on after the comma |
| AsmSemantics.TokensOne | src/pmx.c:417-434 | a chunk holding one plain token yields exactly that token |
| AsmSemantics.TokensOfRomText | pmxAssembler.py:290-292 | the comma-joined ROM text, split on commas as one line, gives back exactly the entries' str() |
| AsmSemantics.TokensCount | src/pmx.c:417-434 | strtok finds at most one token per character of the chunk |
| AsmSemantics.ShortRomReadsWhole | src/pmx.c:416-436 | a ROM text of at most 199 characters is one fgets chunk and is read one token per entry |
| AsmSemantics.RomTextRepeated | pmxAssembler.py:290-292 | k + 1 copies of an entry are written as k copies with commas and then the last one |
| AsmSemantics.RepeatedLength | pmxAssembler.py:290-292 | k comma-terminated copies of a token are k · (length + 1) characters long |
| AsmSemantics.TokensRepeated | src/pmx.c:417-434 | k comma-terminated copies of a plain token split into k tokens |
| AsmSemantics.ChunkSplitsLastToken | src/pmx.c:415-417 | in a 200-character text whose last token starts at 198, the 199-character fgets chunk cuts that token in two |
| AsmSemantics.SeventeensRom | pmxAssembler.py:290-292 | 67 entries of 17 are readable and are written as 200 characters |
| AsmSemantics.LongRomSplitsToken | src/pmx.c:415-436 | for 67 entries of 17 the loader reads 68 numbers, the last two being 1 and 7, although the text split as one line gives the 67 entries |
| AsmSemantics.LoaderInput | src/pmx.c:416-436 | for a ROM text that fits one fgets chunk, the ints read are one per file token and one per entry, each the entry's token value |
| AsmSemantics.LoadedImage | src/pmx.c:441-443 | loading a readable program whose ROM text fits one fgets chunk puts its bytes at cell 0 |
| AsmSemantics.ImageSlice | src/pmx.c:33-39 | a slice of a loaded image is the image of the slice |
| AsmSemantics.InnerNames | src/pmx.c:268-296 | no entry of opcode_map but the first and the last is named "HALT" or "RET" |
| AsmSemantics.CorrectedNamesMatchDispatch | src/pmx.c:267 | with the two names exchanged, "HALT" names exactly the halting byte and "RET" exactly the ret byte |
| AsmSemantics.HaltRetTokens | pmxAssembler.py:3-27 | the assemblers' HALT and RET tokens read as 0x00 and 0xFF |
| AsmSemantics.HaltRetAsAssembled | src/pmx.c:358 | assembled HALT halts and RET runs ret, while get_assembly_instruction names them the other way |
| AsmSemantics.AssembledWordsThatStop | pmxAssembler.py:10-21 | assembled GTH, SWAP and MOV read as 0x0E, 0xCF and 0x20, bytes `run` has no case for |
| AsmSemantics.StoreStep | src/pmx.c:381 | an iteration at 0xAA stores and goes on |
| AsmSemantics.GotoStep | src/pmx.c:384 | an iteration at 0xDE runs goto_instruction and goes on |
| AsmSemantics.StoreCells | pmxAssembler.py:195-202 | a loaded display store is the bytes 0x11, item, 0x11, addr mod 256, 0xAA |
| AsmSemantics.StoreTripleRun | src/pmx.c:374-381 | POT v, POT a, STR: memory[a] := v, stack as before, pc + 5 |
| AsmSemantics.StoreRun | pmxAssembler.py:195-202 | an executed display store writes the item's byte to cell addr mod 256 and nothing else |
| AsmSemantics.DisplayStoreHitsProgram | pmxAssembler.py:88 | a store to 0x2AD00 + k writes program cell k, never the display cell |
| AsmSemantics.CallPairRun | src/pmx.c:218-224 | POT t, GOTO: pc becomes t, with return address pc + 3 on top and t beneath it |
| AsmSemantics.CallRun | pmxAssembler.py:220-224 | an executed CALL jumps to the target's byte and leaves the return address pc + 3 |
| AsmSemantics.CorrectedStep | src/pmx.c:147-152 | the `switch` with a case for 0x0E that runs greater_than |
| AsmSemantics.CorrectedStepRunsNamedOpcodes | src/pmx.c:281 | with that case, every named opcode but 0x00 and 0xCF keeps `run` going, and GTH pushes 0 exactly when a > b |

## Left out

- Logging and tracing. `dump`, the `log.txt` open in `run`, and every `printf` are console and file output.
- File input. `fopen` and the file's bytes are left out; the file is the text `RomText` gives. `FileTokens` models `fgets` chunks of 199 characters and `strtok` over each chunk. `fgets` also stops at a newline; the model assumes the ROM text has none, since `write_rom_file` writes one line of entries that hold no whitespace.
- AsmSemantics.LoaderInput: it gives one int per entry only for ROM text of at most 199 characters, one `fgets` chunk. Over that, the chunk boundary can cut a token in two, so the loader reads more numbers than there are entries and reads the wrong values (see Findings). `LongRomSplitsToken` shows this for 200 characters. The general shape of longer reads is not characterised.
- AsmSemantics.LoadedImage: it inherits the 199-character bound of `LoaderInput`. Two WCHR lines already exceed it.
- AsmSemantics.TokenValue: it does not model `%d`'s leading whitespace or trailing junk. It also does not model the value left behind when `sscanf` fails.
- `write_rom_file` joins the list with commas. The model assumes no entry contains a comma.
- Pmx.Power and Pmx.SqrtInstruction: the C code uses floating-point `pow` and `sqrt`. The model computes them exactly on the byte operands. Pmx.Power requires the result to fit an `int`, because above that the C cast is undefined.
- Pmx.ConsoleDeo: the console write is left out. Only `pc += 2` is modelled.
- `init_pmx` allocates `MEMORY_SIZE * sizeof(unsigned int)` bytes per buffer but clears only the first `MEMORY_SIZE`. The uncleared tail is not modelled: each buffer has `MEMORY_SIZE` cells.
- `dev[]` is not cleared by `init_pmx`. The constructor leaves it arbitrary, and nothing in `run` reads it.
- `display_deo` has no body in the source, and the device bus is not part of this model.
- The SDL window, renderer and texture code, `updateDisplayBg`, `display_update` and the host loop in `src/pmx11.c` are graphics and foreign calls.
- PmxDisplay.Display.InitDisplay: it ignores `w` and `h`, as the source does. The `malloc` becomes a fresh array.
- C `int` overflow in the index arithmetic of drawPixel and the handlers is not modelled. Integers are unbounded, and bounds are preconditions.
- The bounds the C code never checks (stack, memory, pixel indices) are `requires`. The model says nothing about what the C code does outside them.
- Pmx.Run: `run` may never end, so the model gives it a fuel bound. A run longer than its fuel ends with `stopped` false.
- The assembler drivers are left out: `assembler`, `assembler_START`, the `#START`/`#END` passes, `import_instruction`, `write_rom_file` and `assemble`. They read and write files. Their line splitting (`strip`, `split`, cutting words at commas) is not modelled either.
- `IMPORT` is excluded from `Parse` (it requires `instruction != Some("IMPORT")`), because it assembles another file.
- The `#END` branch of pmxAssembler's `parse_instructions` returns a 2-tuple, and its caller unpacks three values. That branch is never reached, because the drivers catch `#END` first. The model treats `#END` as appending nothing.
- pmxAssembler's `goto_instruction` (pmxAssembler.py:215-218) is never called. GOTO goes through the bare-opcode path instead, and that path is what `GotoDropsOperand` models.
- The `print(variables)` calls and the `icecream` import are output and a foreign library.
- Python's `int()` accepts surrounding whitespace and `_` separators. The model's `ParseInt` accepts only an optional sign and digits. The words reaching it come from `split()`, so they hold no whitespace.
- The `" "` key of `char_to_hex` cannot be reached, because the words come from `split()`. It is kept in the table.
- The round trip of every assembly word through the engine's name table is shown only for HALT, RET, GTH, SWAP and MOV. The other words have no quirk to show, and checking all 24 map entries is too costly for the solver.

## Findings

| source | as written | input that shows it | evidently intended | confidence | as-written member | corrected member |
|---|---|---|---|---|---|---|
| assembler.py:193-233 | WCHR counts `display_addr` up in a local, but the caller at assembler.py:125 ignores the return value, so the address is never passed back | two WCHR lines in one file | the second WCHR stores to display_addr+5..+9, as pmxAssembler.py does by returning the address | not executed | InlineAssembler.WchrRepeatsAddresses | PmxAssembler.WchrAddressesAdvance |
| src/pmx.c:267 | opcode_map names 0x00 "RET" and 0xFF "HALT", but `run` halts on 0x00 and runs ret on 0xFF, and both assemblers emit 0x00 for HALT and 0xFF for RET | get_assembly_instruction(0x00) | "HALT" for 0x00 and "RET" for 0xFF | not executed | PmxProperties.HaltRetNamesSwapped | AsmSemantics.CorrectedNamesMatchDispatch |
| src/pmx.c:357-393 | the `switch` has no case for 0x0E, although opcode_map names it GTH, greater_than is written, and both assemblers emit it | a program cell 0x0E | 0x0E runs greater_than and `run` goes on | not executed | PmxProperties.NamedButNotDispatched | AsmSemantics.CorrectedStepRunsNamedOpcodes |
| src/pmx.c:413-417 | `fgets(line, 200, file)` reads the one-line ROM file in chunks of at most 199 characters, and `strtok` splits each chunk on its own, so a token that straddles a chunk boundary becomes two tokens | 67 entries of 17 (a ROM text of 200 characters): the loader reads 66 × 17, then 1, then 7 | every comma-separated entry reads as one number, whatever the file's length | not executed | AsmSemantics.LongRomSplitsToken | AsmSemantics.TokensOfRomText |
