/** The interpreter of CPU.py: one fetch-decode-execute cycle over the machine
    state and the screen memory.

    `Step` is the cycle as a function of the state, the screen and the
    inputs; class `CPU` runs it in place on a `State.State` and a
    `Display.Display`, and `RunCycle` is proved to leave them as `Step` says.
    The keyboard and the random number generator are inputs of the cycle:
    `held` is the set of keys held down (`is_pressed(k)`), `released` is the
    answer of the released-key poll (`is_pressed()`), and `rnd` is the byte
    that `random.randint(0, 0xff)` would return. */
module Cpu {
  import opened Common
  import opened State
  import opened Sprite
  import Display

  /** Where the font glyphs start: Fx29 points I at glyph Vx here. */
  const FONTSTART := 0x50

  /** The two quirk switches the interpreter reads from its configuration. */
  datatype Config = Config(ninetiesShift: bool, ninetiesBnnn: bool)

  /** The fields of an instruction word: its four nibbles, its low byte and
      its low twelve bits. */
  datatype Fields = Fields(n1: Nibble, n2: Nibble, n3: Nibble, n4: Nibble, nn: Byte, nnn: int)

  /** `_decode_instruction`: splits a two-byte instruction into its fields;
      an instruction of any other length raises ValueError. The nibbles
      put back together give the two bytes again. */
  function Decode(instr: seq<Byte>): (r: Result<Fields>)
    ensures r.Ok? <==> |instr| == 2
    ensures r.Ok? ==> instr[0] == 16 * r.value.n1 + r.value.n2 && instr[1] == 16 * r.value.n3 + r.value.n4
    ensures r.Ok? ==> r.value.nn == instr[1]
    ensures r.Ok? ==> r.value.nnn == (256 * (instr[0] as int) + instr[1]) % 4096 && 0 <= r.value.nnn < 4096
  {
    if |instr| != 2 then Err(ValueError)
    else
      NibblesOf(instr[0]);
      NibblesOf(instr[1]);
      LowTwelveBits(instr[0], instr[1]);
      var n1: Nibble, n2: Nibble := (instr[0] / 16) % 16, instr[0] % 16;
      var n3: Nibble, n4: Nibble := (instr[1] / 16) % 16, instr[1] % 16;
      // (n2 << 8) | (n3 << 4) | n4: the three fields sit on disjoint bits,
      // so the OR is their sum
      Ok(Fields(n1, n2, n3, n4, instr[1], (n2 as int) * 256 + n3 * 16 + n4))
  }

  /** A byte is its high nibble followed by its low nibble. */
  lemma NibblesOf(b: Byte)
    ensures (b / 16) % 16 == b / 16 && b == 16 * (b / 16) + b % 16
  {
  }

  /** The low twelve bits of the big-endian word `hi lo` are the low nibble
      of `hi` followed by `lo`. */
  lemma LowTwelveBits(hi: Byte, lo: Byte)
    ensures (256 * (hi as int) + lo) % 4096 == 256 * (hi % 16) + lo
  {
    var w := 256 * (hi as int) + lo;
    assert w == 4096 * (hi / 16) + (256 * (hi % 16) + lo);
    assert 0 <= 256 * (hi % 16) + lo < 4096;
  }

  /** Python's `a & b` on non-negative integers, bit by bit from the least
      significant end; a bit of the result needs the bit in both, so the
      result is at most either operand. */
  function And(a: nat, b: nat): (r: nat)
    ensures r <= a && r <= b
    decreases a
  {
    if a == 0 || b == 0 then 0 else 2 * And(a / 2, b / 2) + (if a % 2 == 1 && b % 2 == 1 then 1 else 0)
  }

  /** Python's `a | b` on non-negative integers. */
  function Or(a: nat, b: nat): (r: nat)
    ensures a <= r && b <= r && r <= a + b
    decreases a + b
  {
    if a == 0 then b
    else if b == 0 then a
    else 2 * Or(a / 2, b / 2) + (if a % 2 == 1 || b % 2 == 1 then 1 else 0)
  }

  /** Python's `a ^ b` on non-negative integers. */
  function Xor(a: nat, b: nat): (r: nat)
    ensures r <= a + b
    decreases a + b
  {
    if a == 0 then b
    else if b == 0 then a
    else 2 * Xor(a / 2, b / 2) + (a % 2 + b % 2) % 2
  }

  /** The state, the screen and the outcome after one cycle. */
  datatype Cycle = Cycle(outcome: Outcome, machine: Machine, screen: Grid)

  /** Finishes a cycle with a state operation that may raise: on an
      exception the state stays `m`. */
  function Finish(res: Result<Machine>, m: Machine, screen: Grid): Cycle {
    match res
    case Ok(m1) => Cycle(Pass, m1, screen)
    case Err(e) => Cycle(Fail(e), m, screen)
  }

  /** `_add`: Vresult receives Va + Vb modulo 256, then VF the carry. */
  function AddWithCarry(m: Machine, a: Nibble, b: Nibble, resultTo: Nibble): (r: Machine)
    requires m.Valid()
    ensures r.Valid() && r == m.(registers := r.registers)
  {
    var value := (m.registers[a] as int) + m.registers[b];
    var (v, vf) := if value > 255 then (value % 256, 1) else (value, 0);
    m.SetVx(resultTo, v).value.SetVx(0xf, vf).value
  }

  /** `_subtract`: Vresult receives Va - Vb modulo 256, then VF is 0 on a
      borrow and 1 otherwise. */
  function SubtractWithBorrow(m: Machine, a: Nibble, b: Nibble, resultTo: Nibble): (r: Machine)
    requires m.Valid()
    ensures r.Valid() && r == m.(registers := r.registers)
  {
    var value := (m.registers[a] as int) - m.registers[b];
    var (v, vf) := if value < 0 then ((value + 256) % 256, 0) else (value, 1);
    m.SetVx(resultTo, v).value.SetVx(0xf, vf).value
  }

  /** `_right_shift`: with the nineties quirk Va first receives Vb; VF gets
      the bit shifted out of Va. */
  function ShiftRight(m: Machine, a: Nibble, b: Nibble, cfg: Config): (r: Machine)
    requires m.Valid()
    ensures r.Valid() && r == m.(registers := r.registers)
  {
    var m1 := if cfg.ninetiesShift then m.SetVx(a, m.registers[b]).value else m;
    var vf := m1.registers[a] % 2;
    m1.SetVx(a, m1.registers[a] / 2).value.SetVx(0xf, vf).value
  }

  /** `_left_shift`: like `_right_shift`, shifting the other way; set_vx
      drops the bit shifted past bit 7. */
  function ShiftLeft(m: Machine, a: Nibble, b: Nibble, cfg: Config): (r: Machine)
    requires m.Valid()
    ensures r.Valid() && r == m.(registers := r.registers)
  {
    var m1 := if cfg.ninetiesShift then m.SetVx(a, m.registers[b]).value else m;
    var vf := (m1.registers[a] / 128) % 2;
    m1.SetVx(a, (m1.registers[a] as int) * 2).value.SetVx(0xf, vf).value
  }

  /** `_draw_instr`: draws the n bytes at I (fewer near the end of RAM) at
      (Vx, Vy) and puts the returned flag in VF. */
  function Draw(vx: Nibble, vy: Nibble, n: Nibble, m: Machine, screen: Grid): (c: Cycle)
    requires m.Valid()
    ensures c.machine.Valid()
  {
    var x, y := m.registers[vx], m.registers[vy];
    var sprite := m.GetRam(n, None);
    var vf := BlitFlag(screen, x, y, sprite);
    Cycle(Pass, m.SetVx(0xf, if vf then 1 else 0).value, Blit(screen, x, y, sprite))
  }

  /** Fx55 from register `i` on: writes Vi .. Vlast to RAM at I + i ..,
      stopping at the first write that raises. */
  function StoreFrom(m: Machine, i: nat, last: Nibble): (r: (Outcome, Machine))
    requires m.Valid()
    ensures r.1.Valid() && r.1 == m.(ram := r.1.ram)
    decreases last + 1 - i
  {
    if i > last then (Pass, m)
    else match m.SetRam([m.registers[i]], Some(m.index + i))
      case Err(e) => (Fail(e), m)
      case Ok(m1) => StoreFrom(m1, i + 1, last)
  }

  /** Fx65 from register `i` on: Vi .. Vlast receive the bytes at I + i ..;
      a one-byte read past the end of RAM is empty and gives 0. */
  function LoadFrom(m: Machine, i: nat, last: Nibble): (r: Machine)
    requires m.Valid()
    ensures r.Valid() && r == m.(registers := r.registers)
    decreases last + 1 - i
  {
    if i > last then m
    else LoadFrom(LoadOne(m, i), i + 1, last)
  }

  /** One turn of the Fx65 loop: Vi receives the one-byte read at I + i,
      which is 0 past the end of RAM, where the read is empty. */
  function LoadOne(m: Machine, i: Nibble): (r: Machine)
    requires m.Valid()
    ensures r.Valid()
    ensures r == m.(registers := m.registers[i := if m.index + i < RAM_SIZE then m.ram[m.index + i] else 0])
  {
    m.SetVx(i, IntFromBytes(m.GetRam(1, Some(m.index + i)))).value
  }

  /** Family 0: 00E0 clears the screen and 00EE returns from a subroutine;
      only the low byte is looked at, and any other low byte raises
      SyntaxError. */
  function Family0(f: Fields, m: Machine, screen: Grid): (c: Cycle)
    requires m.Valid()
    ensures c.machine.Valid()
  {
    if f.nn == 0xe0 then Cycle(Pass, m, Blank(HEIGHT, WIDTH))
    else if f.nn == 0xee then
      match m.StackPop()
      case Err(e) => Cycle(Fail(e), m, screen)
      case Ok((top, m1)) => Finish(m1.SetPc(top), m1, screen)
    else Cycle(Fail(SyntaxError), m, screen)
  }

  /** Family 8: register to register arithmetic selected by the last nibble;
      an unknown last nibble raises SyntaxError. */
  function Family8(f: Fields, m: Machine, screen: Grid, cfg: Config): (c: Cycle)
    requires m.Valid()
    ensures c.machine.Valid()
  {
    var x, y := f.n2, f.n3;
    match f.n4
    case 0x0 => Cycle(Pass, m.SetVx(x, m.registers[y]).value, screen)
    case 0x1 => Cycle(Pass, m.SetVx(x, Or(m.registers[x], m.registers[y])).value, screen)
    case 0x2 => Cycle(Pass, m.SetVx(x, And(m.registers[x], m.registers[y])).value, screen)
    case 0x3 => Cycle(Pass, m.SetVx(x, Xor(m.registers[x], m.registers[y])).value, screen)
    case 0x4 => Cycle(Pass, AddWithCarry(m, x, y, x), screen)
    case 0x5 => Cycle(Pass, SubtractWithBorrow(m, x, y, x), screen)
    case 0x6 => Cycle(Pass, ShiftRight(m, x, y, cfg), screen)
    case 0x7 => Cycle(Pass, SubtractWithBorrow(m, y, x, x), screen)
    case 0xe => Cycle(Pass, ShiftLeft(m, x, y, cfg), screen)
    case _ => Cycle(Fail(SyntaxError), m, screen)
  }

  /** Family E: skip on key Vx (masked to 0..15) held or not held; any other
      low byte raises SyntaxError. */
  function FamilyE(f: Fields, m: Machine, screen: Grid, held: set<Nibble>): (c: Cycle)
    requires m.Valid()
    ensures c.machine.Valid()
  {
    var key: Nibble := m.registers[f.n2] % 16;
    if f.nn == 0x9e then Cycle(Pass, if key in held then m.IncrementPc(2) else m, screen)
    else if f.nn == 0xa1 then Cycle(Pass, if key !in held then m.IncrementPc(2) else m, screen)
    else Cycle(Fail(SyntaxError), m, screen)
  }

  /** Family F: timers, key wait, I arithmetic, BCD and register transfer;
      any other low byte raises SyntaxError. */
  function FamilyF(f: Fields, m: Machine, screen: Grid, released: Option<Nibble>): (c: Cycle)
    requires m.Valid()
    ensures c.machine.Valid()
  {
    var x := f.n2;
    match f.nn
    case 0x07 => Cycle(Pass, m.SetVx(x, m.delayTimer).value, screen)
    case 0x0a =>
      // key 0 is falsy, so a released key 0 counts as no key
      if released.None? || released.value == 0 then Cycle(Pass, m.DecrementPc(2), screen)
      else Cycle(Pass, m.SetVx(x, released.value).value, screen)
    case 0x15 => Cycle(Pass, m.(delayTimer := m.registers[x]), screen)
    case 0x18 => Cycle(Pass, m.(soundTimer := m.registers[x]), screen)
    case 0x1e => Cycle(Pass, m.SetIndex(m.index + m.registers[x], true), screen)
    case 0x29 => Cycle(Pass, m.SetIndex(m.registers[x] * 5 + FONTSTART, false), screen)
    case 0x33 =>
      var v := m.registers[x];
      Finish(m.SetRam([v / 100, (v % 100) / 10, v % 10], None), m, screen)
    case 0x55 => var (o, m1) := StoreFrom(m, 0, x); Cycle(o, m1, screen)
    case 0x65 => Cycle(Pass, LoadFrom(m, 0, x), screen)
    case _ => Cycle(Fail(SyntaxError), m, screen)
  }

  /** The instructions selected by their first nibble alone that only touch
      the state: jumps, calls, skips, register loads and adds, Annn and
      Cxnn. */
  function Basic(f: Fields, m: Machine, screen: Grid, cfg: Config, rnd: Byte): (c: Cycle)
    requires m.Valid() && f.n1 !in {0x0, 0x8, 0xd, 0xe, 0xf}
    ensures c.machine.Valid() && c.screen == screen
  {
    var x, y := f.n2, f.n3;
    match f.n1
    case 0x1 => Finish(m.SetPc(f.nnn), m, screen)
    case 0x2 => var m1 := m.StackPush(m.pc); Finish(m1.SetPc(f.nnn), m1, screen)
    case 0x3 => Cycle(Pass, if m.registers[x] == f.nn then m.IncrementPc(2) else m, screen)
    case 0x4 => Cycle(Pass, if m.registers[x] != f.nn then m.IncrementPc(2) else m, screen)
    case 0x5 => Cycle(Pass, if m.registers[x] == m.registers[y] then m.IncrementPc(2) else m, screen)
    case 0x6 => Cycle(Pass, m.SetVx(x, f.nn).value, screen)
    case 0x7 => Cycle(Pass, m.SetVx(x, m.registers[x] + f.nn).value, screen)
    case 0x9 => Cycle(Pass, if m.registers[x] != m.registers[y] then m.IncrementPc(2) else m, screen)
    case 0xa => Cycle(Pass, m.SetIndex(f.nnn, false), screen)
    case 0xb => Finish(m.SetPc(if cfg.ninetiesBnnn then f.nnn + m.registers[x] else f.nnn), m, screen)
    case _ => Cycle(Pass, m.SetVx(x, And(f.nn, rnd)).value, screen)
  }

  /** Executes a decoded instruction on a state whose program counter has
      already been advanced past it. */
  function Dispatch(f: Fields, m: Machine, screen: Grid, cfg: Config,
                    held: set<Nibble>, released: Option<Nibble>, rnd: Byte): (c: Cycle)
    requires m.Valid()
    ensures c.machine.Valid()
  {
    match f.n1
    case 0x0 => Family0(f, m, screen)
    case 0x8 => Family8(f, m, screen, cfg)
    case 0xd => Draw(f.n2, f.n3, f.n4, m, screen)
    case 0xe => FamilyE(f, m, screen, held)
    case 0xf => FamilyF(f, m, screen, released)
    case _ => Basic(f, m, screen, cfg, rnd)
  }

  /** `run_cycle`: fetches the two bytes at PC, advances PC by 2 modulo 4096
      (before decoding, so also when decoding raises), decodes and
      executes. */
  function Step(m: Machine, screen: Grid, cfg: Config,
                held: set<Nibble>, released: Option<Nibble>, rnd: Byte): (c: Cycle)
    requires m.Valid()
    ensures c.machine.Valid()
  {
    var instr := m.GetRamAtPc(2);
    var m1 := m.IncrementPc(2);
    match Decode(instr)
    case Err(e) => Cycle(Fail(e), m1, screen)
    case Ok(f) => Dispatch(f, m1, screen, cfg, held, released, rnd)
  }

  /** What the keyboard and the random generator supply to one cycle. */
  datatype Input = Input(held: set<Nibble>, released: Option<Nibble>, rnd: Byte)

  /** Cycles run one after another on successive inputs, stopping at the
      first one that raises. */
  function Run(m: Machine, screen: Grid, cfg: Config, inputs: seq<Input>): (c: Cycle)
    requires m.Valid()
    ensures c.machine.Valid()
    ensures inputs == [] ==> c == Cycle(Pass, m, screen)
  {
    if inputs == [] then Cycle(Pass, m, screen)
    else
      var c := Run(m, screen, cfg, inputs[..|inputs| - 1]);
      var input := inputs[|inputs| - 1];
      if c.outcome != Pass then c else Step(c.machine, c.screen, cfg, input.held, input.released, input.rnd)
  }

  /** Once a cycle has raised, later inputs change nothing. */
  lemma {:induction false} RunStopsAtFailure(m: Machine, screen: Grid, cfg: Config, inputs: seq<Input>, i: nat)
    requires m.Valid() && i <= |inputs| && Run(m, screen, cfg, inputs[..i]).outcome != Pass
    ensures Run(m, screen, cfg, inputs) == Run(m, screen, cfg, inputs[..i])
    decreases |inputs| - i
  {
    if i < |inputs| {
      assert inputs[..i + 1][..i] == inputs[..i];
      RunStopsAtFailure(m, screen, cfg, inputs, i + 1);
    } else {
      assert inputs[..i] == inputs;
    }
  }

  class CPU {
    const state: State
    const display: Display.Display
    const config: Config

    ghost predicate Valid()
      reads this, state, display
    {
      state.Valid() && display.Valid()
    }

    /** `CPU(state, keyboard, display, config)`: the configuration in force
        is the caller's own (the merged defaults are thrown away). */
    constructor (state: State, display: Display.Display, config: Config)
      ensures this.state == state && this.display == display && this.config == config
    {
      this.state := state;
      this.display := display;
      this.config := config;
    }

    method Add(a: Nibble, b: Nibble, resultTo: Nibble)
      requires state.Valid()
      modifies state.registers
      ensures state.Valid() && state.Snapshot() == AddWithCarry(old(state.Snapshot()), a, b, resultTo)
    {
      var va := state.GetVx(a);
      var vb := state.GetVx(b);
      var value := va.value + vb.value;
      var v, vf := if value > 255 then value % 256 else value, if value > 255 then 1 else 0;
      var _ := state.SetVx(resultTo, v);
      var _ := state.SetVx(0xf, vf);
    }

    method Subtract(a: Nibble, b: Nibble, resultTo: Nibble)
      requires state.Valid()
      modifies state.registers
      ensures state.Valid() && state.Snapshot() == SubtractWithBorrow(old(state.Snapshot()), a, b, resultTo)
    {
      var va := state.GetVx(a);
      var vb := state.GetVx(b);
      var value := va.value - vb.value;
      var v, vf := if value < 0 then (value + 256) % 256 else value, if value < 0 then 0 else 1;
      var _ := state.SetVx(resultTo, v);
      var _ := state.SetVx(0xf, vf);
    }

    method RightShift(a: Nibble, b: Nibble)
      requires state.Valid()
      modifies state.registers
      ensures state.Valid() && state.Snapshot() == ShiftRight(old(state.Snapshot()), a, b, config)
    {
      if config.ninetiesShift {
        var vb := state.GetVx(b);
        var _ := state.SetVx(a, vb.value);
      }
      var va := state.GetVx(a);
      var vf := va.value % 2;
      va := state.GetVx(a);
      var _ := state.SetVx(a, va.value / 2);
      var _ := state.SetVx(0xf, vf);
    }

    method LeftShift(a: Nibble, b: Nibble)
      requires state.Valid()
      modifies state.registers
      ensures state.Valid() && state.Snapshot() == ShiftLeft(old(state.Snapshot()), a, b, config)
    {
      if config.ninetiesShift {
        var vb := state.GetVx(b);
        var _ := state.SetVx(a, vb.value);
      }
      var va := state.GetVx(a);
      var vf := (va.value / 128) % 2;
      va := state.GetVx(a);
      var _ := state.SetVx(a, va.value * 2);
      var _ := state.SetVx(0xf, vf);
    }

    method DrawInstr(vx: Nibble, vy: Nibble, n: Nibble)
      requires Valid()
      modifies state.registers, display.mmScreen
      ensures Valid()
      ensures Cycle(Pass, state.Snapshot(), display.Cells()) ==
              Draw(vx, vy, n, old(state.Snapshot()), old(display.Cells()))
    {
      var x := state.GetVx(vx);
      var y := state.GetVx(vy);
      var sprite := state.GetRam(n, None);
      var vf := display.UpdateScreen(x.value, y.value, sprite);
      var _ := state.SetVx(0xf, if vf then 1 else 0);
    }

    /** `run_cycle`. */
    method RunCycle(held: set<Nibble>, released: Option<Nibble>, rnd: Byte) returns (r: Outcome)
      requires Valid()
      modifies state, state.registers, state.ram, display, display.mmScreen
      ensures Valid()
      ensures display.mmScreen == old(display.mmScreen) || fresh(display.mmScreen)
      ensures Cycle(r, state.Snapshot(), display.Cells()) ==
              Step(old(state.Snapshot()), old(display.Cells()), config, held, released, rnd)
    {
      var instr := state.GetRamAtPc(2);
      state.IncrementPc(2);
      var decoded := Decode(instr);
      if decoded.Err? {
        return Fail(decoded.error);
      }
      r := Execute(decoded.value, held, released, rnd);
    }

    /** Calls `run_cycle` once per input, as the main loop does, and stops at
        the first cycle that raises. */
    method RunCycles(inputs: seq<Input>) returns (r: Outcome)
      requires Valid()
      modifies state, state.registers, state.ram, display, display.mmScreen
      ensures Valid()
      ensures Cycle(r, state.Snapshot(), display.Cells()) ==
              Run(old(state.Snapshot()), old(display.Cells()), config, inputs)
    {
      ghost var m, g := state.Snapshot(), display.Cells();
      r := Pass;
      var i := 0;
      while i < |inputs| && r == Pass
        invariant 0 <= i <= |inputs| && Valid()
        invariant display.mmScreen == old(display.mmScreen) || fresh(display.mmScreen)
        invariant Cycle(r, state.Snapshot(), display.Cells()) == Run(m, g, config, inputs[..i])
        invariant r != Pass ==> Run(m, g, config, inputs[..i]) == Run(m, g, config, inputs)
      {
        assert inputs[..i + 1][..i] == inputs[..i];
        var input := inputs[i];
        r := RunCycle(input.held, input.released, input.rnd);
        i := i + 1;
        if r != Pass {
          RunStopsAtFailure(m, g, config, inputs, i);
        }
      }
      if r == Pass {
        assert inputs[..i] == inputs;
      }
    }

    method Execute(f: Fields, held: set<Nibble>, released: Option<Nibble>, rnd: Byte) returns (r: Outcome)
      requires Valid()
      modifies state, state.registers, state.ram, display, display.mmScreen
      ensures Valid()
      ensures display.mmScreen == old(display.mmScreen) || fresh(display.mmScreen)
      ensures Cycle(r, state.Snapshot(), display.Cells()) ==
              Dispatch(f, old(state.Snapshot()), old(display.Cells()), config, held, released, rnd)
    {
      ghost var m, g := state.Snapshot(), display.Cells();
      ghost var want := Dispatch(f, m, g, config, held, released, rnd);
      match f.n1 {
        case 0x0 =>
          assert want == Family0(f, m, g);
          r := Execute0(f);
        case 0x8 =>
          assert want == Family8(f, m, g, config);
          r := Execute8(f);
        case 0xd =>
          assert want == Draw(f.n2, f.n3, f.n4, m, g);
          DrawInstr(f.n2, f.n3, f.n4);
          r := Pass;
        case 0xe =>
          assert want == FamilyE(f, m, g, held);
          r := ExecuteE(f, held);
        case 0xf =>
          assert want == FamilyF(f, m, g, released);
          r := ExecuteF(f, released);
        case _ =>
          assert want == Basic(f, m, g, config, rnd);
          r := ExecuteBasic(f, rnd);
      }
    }

    /** The instructions `Basic` covers; they change the state only. */
    method ExecuteBasic(f: Fields, rnd: Byte) returns (r: Outcome)
      requires state.Valid() && f.n1 !in {0x0, 0x8, 0xd, 0xe, 0xf}
      modifies state, state.registers
      ensures state.Valid()
      ensures Cycle(r, state.Snapshot(), display.Cells()) ==
              Basic(f, old(state.Snapshot()), display.Cells(), config, rnd)
    {
      ghost var m, g := state.Snapshot(), display.Cells();
      ghost var want := Basic(f, m, g, config, rnd);
      var x, y := f.n2, f.n3;
      r := Pass;
      match f.n1 {
        case 0x1 =>
          assert want == Finish(m.SetPc(f.nnn), m, g);
          r := state.SetPc(f.nnn);
        case 0x2 =>
          assert want == Finish(m.StackPush(m.pc).SetPc(f.nnn), m.StackPush(m.pc), g);
          var pc := state.GetPc();
          state.StackPush(pc);
          r := state.SetPc(f.nnn);
        case 0x3 =>
          assert want == Cycle(Pass, if m.registers[x] == f.nn then m.IncrementPc(2) else m, g);
          var vx := state.GetVx(x);
          if vx.value == f.nn {
            state.IncrementPc(2);
          }
        case 0x4 =>
          assert want == Cycle(Pass, if m.registers[x] != f.nn then m.IncrementPc(2) else m, g);
          var vx := state.GetVx(x);
          if vx.value != f.nn {
            state.IncrementPc(2);
          }
        case 0x5 =>
          assert want == Cycle(Pass, if m.registers[x] == m.registers[y] then m.IncrementPc(2) else m, g);
          var vx := state.GetVx(x);
          var vy := state.GetVx(y);
          if vx.value == vy.value {
            state.IncrementPc(2);
          }
        case 0x6 =>
          assert want == Cycle(Pass, m.SetVx(x, f.nn).value, g);
          var _ := state.SetVx(x, f.nn);
        case 0x7 =>
          assert want == Cycle(Pass, m.SetVx(x, m.registers[x] + f.nn).value, g);
          var vx := state.GetVx(x);
          var _ := state.SetVx(x, vx.value + f.nn);
        case 0x9 =>
          assert want == Cycle(Pass, if m.registers[x] != m.registers[y] then m.IncrementPc(2) else m, g);
          var vx := state.GetVx(x);
          var vy := state.GetVx(y);
          if vx.value != vy.value {
            state.IncrementPc(2);
          }
        case 0xa =>
          assert want == Cycle(Pass, m.SetIndex(f.nnn, false), g);
          state.SetIndex(f.nnn, false);
        case 0xb =>
          assert want == Finish(m.SetPc(if config.ninetiesBnnn then f.nnn + m.registers[x] else f.nnn), m, g);
          if config.ninetiesBnnn {
            var vx := state.GetVx(x);
            r := state.SetPc(f.nnn + vx.value);
          } else {
            r := state.SetPc(f.nnn);
          }
        case 0xc =>
          assert want == Cycle(Pass, m.SetVx(x, And(f.nn, rnd)).value, g);
          var _ := state.SetVx(x, And(f.nn, rnd));
      }
    }

    method Execute0(f: Fields) returns (r: Outcome)
      requires Valid()
      modifies state, display
      ensures Valid()
      ensures display.mmScreen == old(display.mmScreen) || fresh(display.mmScreen)
      ensures Cycle(r, state.Snapshot(), display.Cells()) == Family0(f, old(state.Snapshot()), old(display.Cells()))
    {
      if f.nn == 0xe0 {
        display.ClearScreen();
        r := Pass;
      } else if f.nn == 0xee {
        var top := state.StackPop();
        if top.Err? {
          return Fail(top.error);
        }
        r := state.SetPc(top.value);
      } else {
        r := Fail(SyntaxError);
      }
    }

    method Execute8(f: Fields) returns (r: Outcome)
      requires state.Valid()
      modifies state.registers
      ensures state.Valid()
      ensures Cycle(r, state.Snapshot(), display.Cells()) == Family8(f, old(state.Snapshot()), display.Cells(), config)
    {
      var x, y := f.n2, f.n3;
      r := Pass;
      match f.n4 {
        case 0x0 =>
          var vy := state.GetVx(y);
          var _ := state.SetVx(x, vy.value);
        case 0x1 =>
          var vx := state.GetVx(x);
          var vy := state.GetVx(y);
          var _ := state.SetVx(x, Or(vx.value, vy.value));
        case 0x2 =>
          var vx := state.GetVx(x);
          var vy := state.GetVx(y);
          var _ := state.SetVx(x, And(vx.value, vy.value));
        case 0x3 =>
          var vx := state.GetVx(x);
          var vy := state.GetVx(y);
          var _ := state.SetVx(x, Xor(vx.value, vy.value));
        case 0x4 =>
          Add(x, y, x);
        case 0x5 =>
          Subtract(x, y, x);
        case 0x6 =>
          RightShift(x, y);
        case 0x7 =>
          Subtract(y, x, x);
        case 0xe =>
          LeftShift(x, y);
        case _ =>
          r := Fail(SyntaxError);
      }
    }

    method ExecuteE(f: Fields, held: set<Nibble>) returns (r: Outcome)
      requires state.Valid()
      modifies state
      ensures state.Valid()
      ensures Cycle(r, state.Snapshot(), display.Cells()) == FamilyE(f, old(state.Snapshot()), display.Cells(), held)
    {
      var vx := state.GetVx(f.n2);
      var key: Nibble := vx.value % 16;
      r := Pass;
      if f.nn == 0x9e {
        if key in held {
          state.IncrementPc(2);
        }
      } else if f.nn == 0xa1 {
        if key !in held {
          state.IncrementPc(2);
        }
      } else {
        r := Fail(SyntaxError);
      }
    }

    method ExecuteF(f: Fields, released: Option<Nibble>) returns (r: Outcome)
      requires state.Valid()
      modifies state, state.registers, state.ram
      ensures state.Valid()
      ensures Cycle(r, state.Snapshot(), display.Cells()) ==
              FamilyF(f, old(state.Snapshot()), display.Cells(), released)
    {
      var x := f.n2;
      r := Pass;
      match f.nn {
        case 0x07 =>
          var t := state.GetDelayTimer();
          var _ := state.SetVx(x, t);
        case 0x0a =>
          if released.None? || released.value == 0 {
            state.DecrementPc(2);
          } else {
            var _ := state.SetVx(x, released.value);
          }
        case 0x15 =>
          var vx := state.GetVx(x);
          state.SetDelayTimer(vx.value);
        case 0x18 =>
          var vx := state.GetVx(x);
          state.SetSoundTimer(vx.value);
        case 0x1e =>
          var i := state.GetIndex();
          var vx := state.GetVx(x);
          state.SetIndex(i + vx.value, true);
        case 0x29 =>
          var vx := state.GetVx(x);
          state.SetIndex(vx.value * 5 + FONTSTART, false);
        case 0x33 =>
          var vx := state.GetVx(x);
          var bcd := vx.value;
          r := state.SetRam([bcd / 100, (bcd % 100) / 10, bcd % 10], None);
        case 0x55 =>
          r := StoreRegisters(x);
        case 0x65 =>
          LoadRegisters(x);
        case _ =>
          r := Fail(SyntaxError);
      }
    }

    /** The loop of Fx55: V0 .. Vlast go to RAM at I, I + 1, ..; a write
        past the end of RAM raises OverflowError and ends the loop, keeping
        the bytes already written. */
    method StoreRegisters(last: Nibble) returns (r: Outcome)
      requires state.Valid()
      modifies state.ram
      ensures state.Valid()
      ensures (r, state.Snapshot()) == StoreFrom(old(state.Snapshot()), 0, last)
    {
      r := Pass;
      var i := 0;
      while i <= last
        invariant 0 <= i <= last + 1 && state.Valid()
        invariant StoreFrom(state.Snapshot(), i, last) == StoreFrom(old(state.Snapshot()), 0, last)
        invariant r == Pass
      {
        var vi := state.GetVx(i);
        var index := state.GetIndex();
        r := state.SetRam([vi.value], Some(index + i));
        if r.Fail? {
          return;
        }
        i := i + 1;
      }
    }

    /** The loop of Fx65: V0 .. Vlast receive the bytes at I, I + 1, ... */
    method LoadRegisters(last: Nibble)
      requires state.Valid()
      modifies state.registers
      ensures state.Valid()
      ensures state.Snapshot() == LoadFrom(old(state.Snapshot()), 0, last)
    {
      var i := 0;
      while i <= last
        invariant 0 <= i <= last + 1 && state.Valid()
        invariant LoadFrom(state.Snapshot(), i, last) == LoadFrom(old(state.Snapshot()), 0, last)
      {
        ghost var before := state.Snapshot();
        var index := state.GetIndex();
        var bytes := state.GetRam(1, Some(index + i));
        assert bytes == before.GetRam(1, Some(before.index + i));
        var _ := state.SetVx(i, IntFromBytes(bytes));
        assert state.Snapshot() == LoadOne(before, i);
        i := i + 1;
      }
    }
  }
}
