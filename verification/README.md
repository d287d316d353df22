# CHIP-8 interpreter core in Dafny

This project models the core of a Python CHIP-8 interpreter and proves
properties of it. The core has three parts:

- **The machine state** (`State.py`): sixteen byte registers V0..VF, 4096
  bytes of RAM, the program counter, the index register I, the call stack,
  the delay and sound timers, and sixteen key flags.
- **The interpreter** (`CPU.py`): one `run_cycle` fetches the two-byte
  instruction at PC, advances PC, splits the word into nibbles and executes
  it from the full opcode table. It covers arithmetic with carry and borrow
  in VF, shifts, skips, jumps, calls and returns, index arithmetic, BCD,
  register store and load, random numbers, drawing and key waits.
- **The framebuffer** (`Display.py`, `PygameDisplay.py`, `screen_test.py`):
  a 32 x 64 grid of 0/1 cells. Sprites are XOR-drawn into it, most
  significant bit first, clipped at the right and bottom edges, and the
  drawing code returns a collision flag.

Each part is modelled twice:

- as values, with functions on them:
  - `State.Machine`, with one function per accessor;
  - `Sprite.Blit` and `Sprite.BlitFlag`;
  - `Cpu.Step`, the whole cycle as a function of the state, the screen and
    the inputs;
- as the imperative code the source is, with classes whose methods update
  fields and arrays in place:
  - `State.State`;
  - `Display.Display` and `PygameDisplay.Display`;
  - `Cpu.CPU`.

Each method is proved to leave its object in the state the value function
gives. `Cpu.CPU.RunCycle` is proved to leave the state and the screen
exactly as `Cpu.Step` says.

The properties of the interpreter are lemmas about `Step` and the functions
it dispatches to (module `CpuProps`). The properties of the state accessors
are in `StateProps`, and those of the blit in `Sprite` and `ScreenTest`.

Inputs from outside are parameters of a cycle:

- `held`: the set of keys held down (`Keyboard.is_pressed(k)`);
- `released`: the key released since the last poll, if any
  (`Keyboard.is_pressed()`);
- `rnd`: the byte `random.randint(0, 0xff)` returns.

The configuration is the two quirk switches `nineties_shift` and
`nineties_bnnn`.

Python behaviour that is modelled explicitly:

- Slices are clamped (`Common.Slice`), so a read near or past the end of
  RAM is short or empty rather than an error.
- `int.from_bytes` of an empty slice is 0.
- `>>`, `&` and `%` are modelled on non-negative integers.
- The exception each error path raises is returned as a `Result`/`Outcome`
  value. ValueError, IndexError, OverflowError and SyntaxError are
  distinguished.
- An instruction that raises keeps whatever its earlier steps did: PC has
  already been advanced by the fetch, and Fx55 keeps the bytes it already
  wrote.

## Model

| member | source | states |
|---|---|---|
| Common.Slice | State.py:65 | Python's `s[lo:hi]`: the bounds are clamped, the length is the clamped difference, and element k is `s[lo + k]` |
| Common.IntFromBytes | State.py:24-25 | big-endian bytes to an integer; an empty slice gives 0 and a single byte gives that byte |
| State.Initial | State.py:5-13 | a fresh state: given PC, I = 0, sixteen zero registers, 4096 zero RAM bytes, an empty stack, both timers 0, all keys released |
| State.Machine.SetVx | State.py:21-26 | succeeds iff the register number is at most 15; stores `value % 256` and leaves every other register and field unchanged; raises ValueError otherwise |
| State.Machine.GetVx | State.py:28-32 | returns register vx iff vx <= 15, ValueError otherwise |
| State.Machine.IncrementPc | State.py:34-35 | PC advances by the amount modulo 4096 and ends in 0..4095; nothing else changes |
| State.Machine.DecrementPc | State.py:37-38 | PC goes back by the amount without wrapping, so it can become negative |
| State.Machine.SetPc | State.py:43-46 | succeeds iff the value is at most 4096 (4096 itself is accepted), and then sets PC; raises IndexError otherwise |
| State.Machine.SetIndex | State.py:48-51 | I becomes value mod 4096; VF becomes 1 only when the overflow flag is asked for and value > 4095, otherwise VF is untouched; V0..VE are unchanged |
| State.Machine.GetRamAtPc | State.py:57-58 | the bytes at PC when the slice fits; empty when PC is -2 or past the end |
| State.Machine.Address | State.py:63-64 | with no address given, the access uses I, which is always a RAM address below 4096 |
| State.Machine.GetRam | State.py:60-65 | the slice at the address (default I): `min(length, 4096 - a)` bytes, or none past the end, each equal to the RAM byte at its address |
| State.Machine.SetRam | State.py:67-78 | succeeds iff address + length <= 4096; writes the data at the address (default I) and leaves every other byte and every other field unchanged; raises OverflowError otherwise |
| State.Machine.DecrementDelayTimer | State.py:89-91 | the delay timer becomes max(t - 1, 0); nothing else changes |
| State.Machine.DecrementSoundTimer | State.py:93-95 | the sound timer becomes max(t - 1, 0); nothing else changes |
| State.Machine.StackPush | State.py:97-98 | the value is appended on top of the stack |
| State.Machine.StackPop | State.py:100-103 | succeeds iff the stack is non-empty; the returned top and the remaining stack give back the old stack; raises IndexError on an empty stack |
| State.Machine.ClearKeyState | State.py:105-106 | all sixteen key flags become false |
| State.Machine.SetKeyState | State.py:108-113 | succeeds iff 0 <= key < 16; sets that flag and keeps the other fifteen; raises ValueError otherwise |
| State.Machine.GetKeyState | State.py:115-121 | the flag of the key iff 0 <= key < 16, ValueError otherwise |
| State.State.constructor | State.py:5-13 | the new object's state is `Initial(pc)`, with fresh register and RAM arrays |
| State.State.SetVx | State.py:21-26 | updates the register array as `Machine.SetVx` says, or raises and changes nothing |
| State.State.GetVx | State.py:28-32 | returns what `Machine.GetVx` returns on the current state |
| State.State.IncrementPc | State.py:34-35 | the state becomes `Machine.IncrementPc` of the old state |
| State.State.DecrementPc | State.py:37-38 | the state becomes `Machine.DecrementPc` of the old state |
| State.State.GetPc | State.py:40-41 | returns PC |
| State.State.SetPc | State.py:43-46 | the state becomes `Machine.SetPc` of the old state, or IndexError is raised and nothing changes |
| State.State.SetIndex | State.py:48-51 | the state becomes `Machine.SetIndex` of the old state, including the VF write on overflow |
| State.State.GetIndex | State.py:53-54 | returns I, which is always in 0..4095 |
| State.State.GetRamAtPc | State.py:57-58 | returns `Machine.GetRamAtPc` of the current state |
| State.State.GetRam | State.py:60-65 | returns `Machine.GetRam` of the current state |
| State.State.SetRam | State.py:67-78 | the RAM array becomes `Machine.SetRam` of the old state, or OverflowError is raised and nothing is written |
| State.State.SetDelayTimer | State.py:80-81 | the delay timer becomes the value; nothing else changes |
| State.State.GetDelayTimer | State.py:83-84 | returns the delay timer |
| State.State.SetSoundTimer | State.py:86-87 | the sound timer becomes the value; nothing else changes |
| State.State.DecrementDelayTimer | State.py:89-91 | the state becomes `Machine.DecrementDelayTimer` of the old state and the new timer value is returned |
| State.State.DecrementSoundTimer | State.py:93-95 | the state becomes `Machine.DecrementSoundTimer` of the old state and the new timer value is returned |
| State.State.StackPush | State.py:97-98 | the state becomes `Machine.StackPush` of the old state |
| State.State.StackPop | State.py:100-103 | returns the top and removes it, or raises IndexError on an empty stack and changes nothing |
| State.State.ClearKeyState | State.py:105-106 | the state becomes `Machine.ClearKeyState` of the old state |
| State.State.SetKeyState | State.py:108-113 | the state becomes `Machine.SetKeyState` of the old state, or ValueError is raised and nothing changes |
| State.State.GetKeyStates | State.py:115-117 | without a key, returns all sixteen flags |
| State.State.GetKeyState | State.py:115-121 | returns `Machine.GetKeyState` of the current state |
| StateProps.RegisterRoundTrip | State.py:21-32 | `get_vx` after `set_vx` returns the value mod 256, and the value itself when it is a byte |
| StateProps.SetVxOwnValue | State.py:21-26 | writing a register's own value back changes nothing |
| StateProps.RamRoundTrip | State.py:60-78 | `get_ram` of the same length at the address `set_ram` wrote returns the data written |
| StateProps.PushThenPop | State.py:97-103 | a pop after a push returns the pushed value and the state before the push |
| StateProps.PopThenPush | State.py:97-103 | pushing back the popped value restores the state |
| StateProps.IncrementThenDecrement | State.py:34-38 | going back by 2 after going forward by 2 restores PC exactly when -2 <= PC < 4094 |
| StateProps.DelayCountsDown | State.py:89-91 | k >= 1 decrements leave the delay timer at max(t - k, 0) and change nothing else, so from 0 it stays 0 |
| StateProps.SoundCountsDown | State.py:93-95 | k >= 1 decrements leave the sound timer at max(t - k, 0) and change nothing else |
| StateProps.KeyRoundTrip | State.py:105-121 | `get_key_state(k)` returns what `set_key_state(k, v)` stored; after `clear_key_state` every key reads false |
| Sprite.Shr | screen_test.py:10 | `b >> i` is `b` divided by 2^i rounded down, for negative `b` as well |
| Sprite.Bit | screen_test.py:10 | `(b >> i) & 1` is 0 or 1 |
| Sprite.BitsRoundTrip | screen_test.py:6-12 | eight bits taken most significant first reassemble to the byte |
| Sprite.Toggle | Display.py:53-58 | a set bit turns a 1 into 0 and anything else into 1, so a 0/1 cell always flips to the other value |
| Sprite.Blit | Display.py:42-87 | drawing a sprite keeps the number of rows and the length of every row: bits past the right or bottom edge are dropped |
| Sprite.RowCollides | Display.py:50-56 | a collision needs the start column inside the row and a lit cell in the row; a row without a 1 never collides |
| Sprite.BlitFlag | Display.py:81-87 | the returned flag can be true only when the start row is on the grid and the sprite has a row |
| Sprite.Blank | Display.py:91 | the cleared screen: h rows of w cells, all 0 |
| Sprite.BlitFootprint | Display.py:50-59 | a cell changes only under a set bit of the sprite: column x + c for bit 7 - c of row r, on row y + r |
| Sprite.BlitKeepsBinary | Display.py:53-58 | drawing keeps every cell 0 or 1 |
| Sprite.BlitTwice | Display.py:53-58 | drawing the same sprite at the same place twice restores a 0/1 grid |
| Sprite.BlitOffScreen | Display.py:81-85 | a start row below the grid or a start column right of every row draws nothing and reports no collision: no wrap-around |
| Sprite.FlagImpliesCollision | Display.py:68-87 | the returned flag implies that some drawn row erased a lit cell |
| Sprite.CollisionFlagIsLastRowOnly | Display.py:67-87 | the converse fails: a collision in the first of two rows is not reported when the last row collides with nothing |
| ScreenTest.IntToBitsBitwise | screen_test.py:6-12 | exactly eight bits, element k being bit 7 - k of the byte |
| ScreenTest.UpdateScreenRow | screen_test.py:15-34 | for a row past the grid, raises ValueError and draws nothing; otherwise the grid becomes the one-row blit of the old grid, clipped at the row's own length, and the result is that row's collision flag |
| ScreenTest.UpdateScreen | screen_test.py:41-60 | the grid becomes `Blit` of the old grid, clipped at the array's own size; the result is the flag of the last row drawn, false when none is drawn |
| ScreenTest.BlitAddRow | screen_test.py:54-58 | drawing one more sprite row extends the blit by that row and touches a row not touched before |
| ScreenTest.BlitStops | screen_test.py:54-56 | once the next row is below the grid, the rest of the sprite changes nothing and does not change the flag |
| ScreenTest.DemoSprite | screen_test.py:109-112 | `ff 00 ff 00` at (0, 0) on a blank 32 x 64 grid lights cells 0..7 of rows 0 and 2, leaves every other cell 0, and returns false |
| ScreenTest.ClipAtRightEdge | screen_test.py:23-25 | a full byte drawn at column 60 lights only columns 60..63; nothing wraps to column 0 |
| Display.Display.constructor | Display.py:22-23 | the screen memory starts as a blank 32 x 64 grid |
| Display.Display.IntToBitsBitwise | Display.py:33-39 | eight bits, most significant first |
| Display.Display.UpdateScreenRow | Display.py:42-61 | raises ValueError for a row >= 32; otherwise the screen becomes the one-row blit and the row's collision flag is returned |
| Display.Display.UpdateScreen | Display.py:68-87 | the screen becomes `Blit` of the old screen and the flag of the last row drawn is returned |
| Display.Display.ClearScreen | Display.py:90-91 | the screen memory becomes a new blank 32 x 64 grid |
| PygameDisplay.Display.constructor | PygameDisplay.py:22-23 | the screen memory starts as a blank 32 x 64 grid |
| PygameDisplay.Display.IntToBitsBitwise | PygameDisplay.py:34-40 | eight bits, most significant first |
| PygameDisplay.Display.UpdateScreenRow | PygameDisplay.py:43-62 | raises ValueError for a row >= 32; otherwise the screen becomes the one-row blit and the row's collision flag is returned |
| PygameDisplay.Display.UpdateScreen | PygameDisplay.py:69-88 | the screen becomes `Blit` of the old screen and the flag of the last row drawn is returned |
| PygameDisplay.Display.ClearScreen | PygameDisplay.py:91-92 | the screen memory becomes a new blank 32 x 64 grid |
| Cpu.Decode | CPU.py:18-31 | succeeds iff the instruction has two bytes, ValueError otherwise; the four nibbles reassemble the two bytes, nn is the low byte and nnn the low 12 bits of the big-endian word |
| Cpu.And | CPU.py:129-131 | `a & b` is at most each operand |
| Cpu.Or | CPU.py:126-128 | `a \| b` is at least each operand and at most their sum |
| Cpu.Xor | CPU.py:132-134 | `a ^ b` is at most the sum of the operands |
| Cpu.AddWithCarry | CPU.py:34-40 | `_add` changes nothing but the registers |
| Cpu.SubtractWithBorrow | CPU.py:43-50 | `_subtract` changes nothing but the registers |
| Cpu.ShiftRight | CPU.py:53-61 | `_right_shift` changes nothing but the registers |
| Cpu.ShiftLeft | CPU.py:64-72 | `_left_shift` changes nothing but the registers |
| Cpu.Draw | CPU.py:75-80 | Dxyn leaves a state of the machine's shape (16 registers, 4096 bytes of RAM, I below 4096) |
| Cpu.Family0 | CPU.py:94-102 | family 0 leaves a state of the machine's shape |
| Cpu.Family8 | CPU.py:122-146 | family 8 leaves a state of the machine's shape |
| Cpu.FamilyE | CPU.py:163-172 | family E leaves a state of the machine's shape |
| Cpu.FamilyF | CPU.py:173-203 | family F leaves a state of the machine's shape |
| Cpu.Basic | CPU.py:103-159 | families 1 to 7, 9, A, B and C leave the screen alone and a state of the machine's shape |
| Cpu.Dispatch | CPU.py:93-203 | every decoded word leaves a state of the machine's shape |
| Cpu.Step | CPU.py:82-203 | every cycle leaves a state of the machine's shape |
| Cpu.Run | CPU.py:82-203 | successive cycles, one input each: no input leaves the state, the screen and the outcome as they were, and every run ends in a state of the machine's shape |
| Cpu.RunStopsAtFailure | CPU.py:82-203 | once a cycle has raised, later inputs change nothing: the run ends with that exception, state and screen |
| Cpu.StoreFrom | CPU.py:196-198 | the Fx55 loop changes nothing but RAM |
| Cpu.LoadFrom | CPU.py:199-201 | the Fx65 loop changes nothing but the registers |
| Cpu.LoadOne | CPU.py:201 | one Fx65 step: Vi becomes the byte at I + i, or 0 past address 4095, and nothing else changes |
| Cpu.CPU.constructor | CPU.py:8-14 | the CPU works on the given state and display, with the caller's configuration |
| Cpu.CPU.Add | CPU.py:34-40 | the registers become `AddWithCarry` of the old state |
| Cpu.CPU.Subtract | CPU.py:43-50 | the registers become `SubtractWithBorrow` of the old state |
| Cpu.CPU.RightShift | CPU.py:53-61 | the registers become `ShiftRight` of the old state under the configured quirk |
| Cpu.CPU.LeftShift | CPU.py:64-72 | the registers become `ShiftLeft` of the old state under the configured quirk |
| Cpu.CPU.DrawInstr | CPU.py:75-80 | the screen and VF become those of `Draw` on the old state and screen |
| Cpu.CPU.RunCycle | CPU.py:82-203 | the outcome, the new state and the new screen are exactly `Step` of the old state and screen with the same inputs |
| Cpu.CPU.RunCycles | CPU.py:82-203 | calling `run_cycle` once per input until one raises gives the outcome, state and screen that `Run` gives |
| Cpu.CPU.Execute | CPU.py:93-203 | executes a decoded word as `Dispatch` says |
| Cpu.CPU.Execute0 | CPU.py:94-102 | family 0 as `Family0` says: clear, return, or SyntaxError |
| Cpu.CPU.Execute8 | CPU.py:122-146 | family 8 as `Family8` says |
| Cpu.CPU.ExecuteE | CPU.py:163-172 | family E as `FamilyE` says |
| Cpu.CPU.ExecuteF | CPU.py:173-203 | family F as `FamilyF` says |
| Cpu.CPU.ExecuteBasic | CPU.py:103-159 | families 1 to 7, 9, A, B and C as `Basic` says |
| Cpu.CPU.StoreRegisters | CPU.py:196-198 | the loop ends with the outcome and the state `StoreFrom` gives |
| Cpu.CPU.LoadRegisters | CPU.py:199-201 | the loop ends with the state `LoadFrom` gives |
| CpuProps.StepFetches | CPU.py:84-88 | with PC in 0..4094, a cycle executes the word at PC on the state whose PC is already advanced by 2 mod 4096 |
| CpuProps.FetchOutsideRam | CPU.py:84-88 | at PC -2, 4095 or 4096 the fetch is short: ValueError, with PC already advanced |
| CpuProps.StoreFromClosed | CPU.py:196-198 | Fx55 writes Vi to I + i for every i <= x that fits, raises OverflowError iff I + x > 4095, and changes nothing but those bytes |
| CpuProps.LoadFromClosed | CPU.py:199-201 | Fx65 loads the byte at I + i into Vi for every i <= x, 0 past address 4095, and changes nothing but those registers |
| CpuProps.StoreThenLoad | CPU.py:196-201 | Fx65 after a complete Fx55 with the same x leaves the registers as they were |
| CpuProps.Bcd | CPU.py:192-195 | Fx33 writes three digits < 10 at I with 100a + 10b + c = Vx and nothing else, or raises OverflowError and writes nothing when I + 3 > 4096 |
| CpuProps.AddCarry | CPU.py:34-40 | 8xy4: Vx becomes (Vx + Vy) mod 256, then VF becomes 1 iff Vx + Vy > 255, written last so that it wins when x = F; nothing else changes |
| CpuProps.SubtractBorrow | CPU.py:43-50 | 8xy5 (Vx - Vy) and 8xy7 (Vy - Vx): Vx becomes the difference modulo 256, then VF becomes 1 iff the minuend is at least the subtrahend; nothing else changes |
| CpuProps.ShiftRightFlag | CPU.py:53-61 | 8xy6 on v (Vy under the nineties quirk, else Vx): Vx becomes v / 2, then VF becomes the bit shifted out; nothing else changes |
| CpuProps.ShiftRightClosed | CPU.py:53-61 | `_right_shift` in closed form: the quirk's copy into Vx is overwritten, leaving only v / 2 in Vx and v mod 2 in VF |
| CpuProps.ShiftLeftFlag | CPU.py:64-72 | 8xyE on v (Vy under the nineties quirk, else Vx): Vx becomes 2v mod 256, then VF becomes bit 7 of v; nothing else changes |
| CpuProps.ShiftLeftClosed | CPU.py:64-72 | `_left_shift` in closed form: the quirk's copy into Vx is overwritten, leaving only 2v mod 256 in Vx and v / 128 in VF |
| CpuProps.AddImmediateNoCarry | CPU.py:119-121 | 7xnn: Vx' = (Vx + nn) mod 256 and every other register, VF included, is unchanged |
| CpuProps.OrAndSum | CPU.py:126-131 | `a \| b` + `a & b` = a + b for all non-negative a, b |
| CpuProps.XorAndSum | CPU.py:129-134 | `a ^ b` + 2 (`a & b`) = a + b for all non-negative a, b |
| CpuProps.AndAllOnes | CPU.py:159 | AND with 2^k - 1 keeps every number below 2^k |
| CpuProps.RandomMasked | CPU.py:157-159 | Cxnn: Vx becomes nn & r and nothing else changes; nn & r is at most nn and at most r, and equals r when nn = FF |
| CpuProps.StepSkips | CPU.py:108-116 | 3xnn, 4xnn, 5xy0 and 9xy0 (last nibble ignored) move PC by 4 when the condition holds and by 2 otherwise, changing nothing else |
| CpuProps.StepKeySkips | CPU.py:163-170 | Ex9E and ExA1 skip on the key Vx mod 16 being held, respectively not held |
| CpuProps.StepCall | CPU.py:105-107 | 2nnn pushes the address after the call and jumps to nnn |
| CpuProps.CallThenReturn | CPU.py:99-107 | a call to a 00EE returns to the instruction after the call with the stack as before |
| CpuProps.ReturnOnEmptyStack | CPU.py:99-100 | 00EE on an empty stack raises IndexError and changes nothing |
| CpuProps.JumpWithOffset | CPU.py:152-156 | Bnnn jumps to nnn without the quirk; with it, it jumps to nnn + Vx iff that is at most 4096, and otherwise raises IndexError without jumping |
| CpuProps.AddToIndex | CPU.py:187-189 | Fx1E: I' + 4096 (overflow) = I + Vx; VF becomes 1 on overflow and is otherwise left as it was, never cleared |
| CpuProps.FontGlyph | CPU.py:190-191 | Fx29 sets I to 0x50 + 5 Vx and changes nothing else |
| CpuProps.DelayTimerRoundTrip | CPU.py:175-184 | Fx15 then Fy07 copies Vx into Vy through the delay timer |
| CpuProps.WaitForKeyRepeats | CPU.py:177-180 | Fx0A with no released key, or key 0, leaves the whole state as it was, so the wait repeats |
| CpuProps.WaitForKeyStores | CPU.py:177-182 | Fx0A with released key k != 0 stores k in Vx and moves on by 2 |
| CpuProps.WaitAtEndOfRam | CPU.py:177-180 | an Fx0A at 4094 leaves PC at -2, and the next cycle raises ValueError |
| CpuProps.DrawTwiceRestores | CPU.py:75-80 | Dxyn changes no register but VF, and drawing the same sprite again restores a 0/1 screen |
| CpuProps.SyntaxErrorIffUnrecognised | CPU.py:93-203 | a word raises SyntaxError iff its family 0, 8, E or F sub-selector is unknown; such a word changes nothing |
| CpuProps.RaisingKeepsState | CPU.py:93-203 | an instruction that raises leaves the screen and the state unchanged, except for the RAM bytes an Fx55 already wrote |
| CpuProps.DispatchKeepsPc | CPU.py:93-203 | every word other than jumps, calls, returns, skips and Fx0A leaves PC where the fetch put it |
| CpuProps.StepAdvancesPc | CPU.py:84-85 | a cycle on such a word leaves PC at old PC + 2 mod 4096 |
| CpuProps.Family0KeepsReachable | CPU.py:99-100 | a return jumps to an address that a call pushed |
| CpuProps.FamilyFKeepsReachable | CPU.py:177-180 | the key wait moves PC back to no less than -2 |
| CpuProps.DispatchKeepsReachable | CPU.py:93-203 | executing a decoded word keeps PC in -2..4096 and the stack entries in 0..4095 |
| CpuProps.StepKeepsReachable | CPU.py:82-203 | every cycle from a state with PC in -2..4096 and stack entries in 0..4095 leaves such a state |
| CpuProps.StepLoadImmediate | CPU.py:117-118 | a cycle on 6xnn sets Vx to nn and PC to PC + 2 mod 4096, and changes nothing else |
| CpuProps.DispatchImmediate | CPU.py:117-121 | once fetched, 6xnn sets Vx to nn and 7xnn sets Vx to (Vx + nn) mod 256; nothing else changes |
| CpuProps.StepAddImmediate | CPU.py:119-121 | a cycle on 7xnn sets Vx to (Vx + nn) mod 256 and PC to PC + 2 mod 4096, and changes nothing else, VF included |
| CpuProps.ClearScreen | CPU.py:95-98 | once fetched, 00E0 makes the screen a blank 32 x 64 grid and changes nothing in the state |
| CpuProps.Jump | CPU.py:103-104 | once fetched, 1nnn sets PC to nnn; an address past 4096 raises IndexError and changes nothing |
| CpuProps.LoadIndex | CPU.py:150-151 | once fetched, Annn sets I to nnn mod 4096; VF and everything else are unchanged |
| CpuProps.RegisterLogic | CPU.py:124-134 | once fetched, 8xy0, 8xy1, 8xy2 and 8xy3 set Vx to Vy, Vx \| Vy, Vx & Vy or Vx ^ Vy, which is a byte already; nothing else changes |
| CpuProps.Family8Logic | CPU.py:124-134 | the same closed form for the 8 family on its own |
| CpuProps.BitwiseBelow | CPU.py:126-134 | OR and XOR of two numbers below 2^k stay below 2^k, so on two registers they give a byte |
| CpuProps.TimerLoads | CPU.py:183-186 | once fetched, Fx15 sets the delay timer and Fx18 the sound timer to Vx; nothing else changes |

## Left out

- Rendering is not modelled: the window and renderer set-up in the display
  constructors, `render_screen`, `_draw`, `quit`, and the renderer clear in
  `clear_screen`. They only draw the grid on screen.
- `main` and `drawscreen` in screen_test.py are not modelled. They open a
  window; the sprite `main` draws is the `DemoSprite` lemma.
- Keyboard.py is not modelled: pygame event polling and the physical key
  map. Each cycle takes the held keys and the released key as inputs.
- Beeper.py (sound output) is not modelled.
- chip8.py (the older main loop with its own interpreter) is not modelled.
- The 60 Hz timer cadence is left out. It is real-time, floating-point code
  in the main loop; the timer decrements themselves are modelled.
- `random.randint` is left out. The random byte is a parameter of the cycle.
- The debug trace is left out: the `debug` switch, the prints in
  `run_cycle` and the `__str__` of the state. They only format text.
- The configuration is the two quirk switches. The constructor replaces
  the merged defaults with the caller's dictionary, so a missing key would
  raise KeyError at the first lookup. The model assumes every key is given.
- `set_ram`'s conversion of an int or a list to bytes happens at the call
  site. Its ValueError for any other data type cannot occur, because data
  is typed `seq<Byte>`.
- `set_vx`'s conversion of bytes with `int.from_bytes` happens in Fx65, the
  one place that passes bytes. A value that is not an integer cannot occur.
- `set_key_state`'s TypeError for a value that is not a bool cannot occur,
  because the value is typed `bool`.
- Register and address arguments are non-negative. Python's negative
  indexing of the register bytearray and of the RAM slice is not modelled,
  and the interpreter never passes a negative one. Key arguments are plain
  integers: a negative key raises ValueError in `set_key_state` and
  `get_key_state`, as the model states. A negative PC is
  modelled, because `decrement_pc` can produce -2.
- Screen coordinates are non-negative; Vx and Vy are bytes.
- `get_key_state()` without a key returns the list itself, so the caller
  could change it. The model returns a copy, so that aliasing is not
  captured.
- The screen is an `array2`, whose rows all have the same length and are
  distinct. The functions in screen_test.py accept any list of lists, which
  may be ragged or share rows. A shared row would be drawn twice over, and
  that is not modelled.
- The display classes hold their grid in `mm_screen`, which `clear_screen`
  replaces. A caller holding the old grid would still see it; the model
  proves the new grid is fresh.
- StateProps.DelayCountsDown: stated for at least one decrement. With zero
  decrements a negative timer stays negative; `set_delay_timer` can store
  any integer.
- StateProps.SoundCountsDown: stated for at least one decrement, for the
  same reason.
- CpuProps.RaisingKeepsState and CpuProps.DispatchKeepsReachable: stated
  for the fields `Decode` produces (nnn < 4096). With a larger nnn a call
  would push its return address before `set_pc` raised.
