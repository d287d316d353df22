/** What one cycle of the interpreter does, instruction family by
    instruction family, stated as properties of `Cpu.Step` and the functions
    it dispatches to: which program counters and stacks can occur, which
    instructions raise and what is left after they do, the arithmetic flags,
    the memory transfers, the call stack, and the quirks of the key wait and
    of the index addition. */
module CpuProps {
  import opened Common
  import opened State
  import opened Sprite
  import opened Cpu

  /** The state can fetch a whole instruction word at PC. */
  ghost predicate Fetches(m: Machine) {
    m.Valid() && 0 <= m.pc <= RAM_SIZE - 2
  }

  /** The fields of the instruction word at PC. */
  function FieldsAt(m: Machine): Fields
    requires m.Valid() && 0 <= m.pc <= RAM_SIZE - 2
  {
    Decode(m.ram[m.pc..m.pc + 2]).value
  }

  /** The states a cycle can leave behind: PC is between -2 (a key wait at
      address 4094) and 4096 (a jump with offset to the very end), and every
      return address on the stack is a program counter after an increment. */
  ghost predicate Reachable(m: Machine) {
    m.Valid() && -2 <= m.pc <= RAM_SIZE &&
    forall k :: 0 <= k < |m.stack| ==> 0 <= m.stack[k] < RAM_SIZE
  }

  /** The instructions `run_cycle` knows; every other word raises
      SyntaxError. */
  predicate Recognised(f: Fields) {
    match f.n1
    case 0x0 => f.nn == 0xe0 || f.nn == 0xee
    case 0x8 => f.n4 <= 7 || f.n4 == 0xe
    case 0xe => f.nn == 0x9e || f.nn == 0xa1
    case 0xf => f.nn in {0x07, 0x0a, 0x15, 0x18, 0x1e, 0x29, 0x33, 0x55, 0x65}
    case _ => true
  }

  /** A cycle at a PC with a whole word fetches that word, moves PC past it
      and executes it. */
  lemma StepFetches(m: Machine, screen: Grid, cfg: Config, held: set<Nibble>, released: Option<Nibble>, rnd: Byte)
    requires Fetches(m)
    ensures Step(m, screen, cfg, held, released, rnd) ==
            Dispatch(FieldsAt(m), m.(pc := (m.pc + 2) % RAM_SIZE), screen, cfg, held, released, rnd)
  {
  }

  /** A cycle at PC -2, 4095 or 4096 fetches fewer than two bytes: it raises
      ValueError after PC has already moved on by two. */
  lemma FetchOutsideRam(m: Machine, screen: Grid, cfg: Config, held: set<Nibble>, released: Option<Nibble>, rnd: Byte)
    requires m.Valid() && (m.pc == -2 || m.pc >= RAM_SIZE - 1)
    ensures Step(m, screen, cfg, held, released, rnd) ==
            Cycle(Fail(ValueError), m.(pc := (m.pc + 2) % RAM_SIZE), screen)
  {
    assert |m.GetRamAtPc(2)| < 2;
  }

  /** Fx55 from register i on, in closed form: the registers i .. last are
      written from I + i on as far as RAM reaches; the loop raises
      OverflowError exactly when I + last is past the end, and nothing but
      RAM changes. */
  lemma StoreFromClosed(m: Machine, i: nat, last: Nibble)
    requires m.Valid() && i <= last + 1
    ensures var (o, m1) := StoreFrom(m, i, last);
            o == (if i > last || m.index + last < RAM_SIZE then Pass else Fail(OverflowError)) &&
            forall a :: 0 <= a < RAM_SIZE ==>
              m1.ram[a] == if m.index + i <= a <= m.index + last then m.registers[a - m.index] else m.ram[a]
  {
    StoreFromOutcome(m, i, last);
    forall a | 0 <= a < RAM_SIZE
      ensures StoreFrom(m, i, last).1.ram[a] ==
              if m.index + i <= a <= m.index + last then m.registers[a - m.index] else m.ram[a]
    {
      StoreFromAt(m, i, last, a);
    }
  }

  lemma {:induction false} StoreFromOutcome(m: Machine, i: nat, last: Nibble)
    requires m.Valid() && i <= last + 1
    ensures StoreFrom(m, i, last).0 == if i > last || m.index + last < RAM_SIZE then Pass else Fail(OverflowError)
    decreases last + 1 - i
  {
    if i <= last {
      var r := m.SetRam([m.registers[i]], Some(m.index + i));
      if r.Ok? {
        StoreFromOutcome(r.value, i + 1, last);
      }
    }
  }

  /** One address of RAM after Fx55 from register i on. */
  lemma {:induction false} StoreFromAt(m: Machine, i: nat, last: Nibble, a: int)
    requires m.Valid() && i <= last + 1 && 0 <= a < RAM_SIZE
    ensures StoreFrom(m, i, last).1.ram[a] ==
            if m.index + i <= a <= m.index + last then m.registers[a - m.index] else m.ram[a]
    decreases last + 1 - i
  {
    if i <= last && m.index + i < RAM_SIZE {
      StoreFromStep(m, i, last);
      StoreFromAt(m.(ram := m.ram[m.index + i := m.registers[i]]), i + 1, last, a);
    }
  }

  /** One turn of Fx55 below the end of RAM writes one byte and goes on
      from the next register. */
  lemma StoreFromStep(m: Machine, i: nat, last: Nibble)
    requires m.Valid() && i <= last && m.index + i < RAM_SIZE
    ensures StoreFrom(m, i, last) == StoreFrom(m.(ram := m.ram[m.index + i := m.registers[i]]), i + 1, last)
  {
    var m2 := m.SetRam([m.registers[i]], Some(m.index + i)).value;
    assert m2.ram == m.ram[m.index + i := m.registers[i]];
  }

  /** Fx65 from register i on, in closed form: registers i .. last receive
      the bytes from I + i on, 0 for an address past the end, and nothing but
      the registers changes. */
  lemma LoadFromClosed(m: Machine, i: nat, last: Nibble)
    requires m.Valid() && i <= last + 1
    ensures var m1 := LoadFrom(m, i, last);
            m1.Valid() && m1 == m.(registers := m1.registers) &&
            forall k :: 0 <= k < 16 ==>
              m1.registers[k] == if i <= k <= last then (if m.index + k < RAM_SIZE then m.ram[m.index + k] else 0)
                                 else m.registers[k]
  {
    forall k | 0 <= k < 16
      ensures LoadFrom(m, i, last).registers[k] ==
              if i <= k <= last then (if m.index + k < RAM_SIZE then m.ram[m.index + k] else 0) else m.registers[k]
    {
      LoadFromAt(m, i, last, k);
    }
  }

  /** One register after Fx65 from register i on. */
  lemma {:induction false} LoadFromAt(m: Machine, i: nat, last: Nibble, k: int)
    requires m.Valid() && i <= last + 1 && 0 <= k < 16
    ensures LoadFrom(m, i, last).registers[k] ==
            if i <= k <= last then (if m.index + k < RAM_SIZE then m.ram[m.index + k] else 0) else m.registers[k]
    decreases last + 1 - i
  {
    if i <= last {
      LoadFromAt(LoadOne(m, i), i + 1, last, k);
    }
  }

  /** Fx65 after a complete Fx55 with the same last register loads back the
      values just stored: the registers are unchanged. */
  lemma StoreThenLoad(m: Machine, last: Nibble)
    requires m.Valid() && m.index + last < RAM_SIZE
    ensures var (o, m1) := StoreFrom(m, 0, last);
            o == Pass && m1.registers == m.registers && LoadFrom(m1, 0, last) == m1
  {
    StoreFromClosed(m, 0, last);
    var (o, m1) := StoreFrom(m, 0, last);
    assert m1.index == m.index && m1.registers == m.registers;
    LoadFromClosed(m1, 0, last);
    var m2 := LoadFrom(m1, 0, last);
    forall k | 0 <= k < 16
      ensures m2.registers[k] == m1.registers[k]
    {
      if k <= last {
        assert m1.ram[m.index + k] == m.registers[k];
      }
    }
    assert m2.registers == m1.registers;
  }

  /** Fx33 stores the three decimal digits of Vx at I, I + 1, I + 2, which
      spell Vx again; past the end of RAM it raises OverflowError and writes
      nothing. */
  lemma Bcd(f: Fields, m: Machine, screen: Grid, released: Option<Nibble>)
    requires m.Valid() && f.nn == 0x33
    ensures var c := FamilyF(f, m, screen, released); var v := m.registers[f.n2]; var i := m.index;
            (c.outcome == Pass <==> i + 3 <= RAM_SIZE) &&
            (c.outcome == Pass ==>
               c.machine == m.(ram := c.machine.ram) &&
               c.machine.ram[i] < 10 && c.machine.ram[i + 1] < 10 && c.machine.ram[i + 2] < 10 &&
               100 * c.machine.ram[i] + 10 * c.machine.ram[i + 1] + c.machine.ram[i + 2] == v &&
               forall a :: 0 <= a < RAM_SIZE && !(i <= a < i + 3) ==> c.machine.ram[a] == m.ram[a]) &&
            (c.outcome != Pass ==> c == Cycle(Fail(OverflowError), m, screen))
  {
  }

  /** 8xy4 adds with carry: Vx receives the sum modulo 256 and VF the
      carry, VF written last so that it wins when x is F. */
  lemma AddCarry(f: Fields, m: Machine, screen: Grid, cfg: Config)
    requires m.Valid() && f.n4 == 0x4
    ensures var sum := m.registers[f.n2] as int + m.registers[f.n3];
            Family8(f, m, screen, cfg) ==
            Cycle(Pass, m.(registers := m.registers[f.n2 := sum % 256][0xf := if sum > 255 then 1 else 0]), screen)
  {
    assert Family8(f, m, screen, cfg) == Cycle(Pass, AddWithCarry(m, f.n2, f.n3, f.n2), screen);
  }

  /** 8xy5 (Vx - Vy) and 8xy7 (Vy - Vx) subtract with borrow: Vx receives
      the difference modulo 256 and VF is 1 when there is no borrow (the
      operands may be equal), VF written last. */
  lemma SubtractBorrow(f: Fields, m: Machine, screen: Grid, cfg: Config)
    requires m.Valid() && (f.n4 == 0x5 || f.n4 == 0x7)
    ensures var (a, b) := if f.n4 == 0x5 then (m.registers[f.n2], m.registers[f.n3])
                          else (m.registers[f.n3], m.registers[f.n2]);
            Family8(f, m, screen, cfg) ==
            Cycle(Pass, m.(registers := m.registers[f.n2 := ((a as int) - b) % 256][0xf := if a >= b then 1 else 0]), screen)
  {
    if f.n4 == 0x5 {
      assert Family8(f, m, screen, cfg) == Cycle(Pass, SubtractWithBorrow(m, f.n2, f.n3, f.n2), screen);
    } else {
      assert Family8(f, m, screen, cfg) == Cycle(Pass, SubtractWithBorrow(m, f.n3, f.n2, f.n2), screen);
    }
  }

  /** 8xy6 shifts v (Vx, or Vy with the nineties quirk) right by one bit
      into Vx, and the bit shifted out goes to VF, written last. */
  lemma ShiftRightFlag(f: Fields, m: Machine, screen: Grid, cfg: Config)
    requires m.Valid() && f.n4 == 0x6
    ensures var v := if cfg.ninetiesShift then m.registers[f.n3] else m.registers[f.n2];
            Family8(f, m, screen, cfg) ==
            Cycle(Pass, m.(registers := m.registers[f.n2 := v / 2][0xf := v % 2]), screen)
  {
    assert Family8(f, m, screen, cfg) == Cycle(Pass, ShiftRight(m, f.n2, f.n3, cfg), screen);
    ShiftRightClosed(m, f.n2, f.n3, cfg);
  }

  lemma ShiftRightClosed(m: Machine, a: Nibble, b: Nibble, cfg: Config)
    requires m.Valid()
    ensures var v := if cfg.ninetiesShift then m.registers[b] else m.registers[a];
            ShiftRight(m, a, b, cfg) == m.(registers := m.registers[a := v / 2][0xf := v % 2])
  {
    var v := if cfg.ninetiesShift then m.registers[b] else m.registers[a];
    var m1 := if cfg.ninetiesShift then m.SetVx(a, m.registers[b]).value else m;
    ShiftOperand(m, a, b, cfg);
    var m2 := m1.SetVx(a, m1.registers[a] / 2).value;
    assert m2.registers == m.registers[a := v][a := v / 2];
    Overwrite(m.registers, a, v, v / 2);
    assert m2.SetVx(0xf, v % 2).value.registers == m.registers[a := v / 2][0xf := v % 2];
  }

  /** The operand of a shift, and the state left after the nineties quirk's
      copy: Vx now holds v, and that is all that has changed. */
  lemma ShiftOperand(m: Machine, a: Nibble, b: Nibble, cfg: Config)
    requires m.Valid()
    ensures var v := if cfg.ninetiesShift then m.registers[b] else m.registers[a];
            var m1 := if cfg.ninetiesShift then m.SetVx(a, m.registers[b]).value else m;
            m1 == m.(registers := m.registers[a := v])
  {
    if !cfg.ninetiesShift {
      assert m.registers[a := m.registers[a]] == m.registers;
    }
  }

  /** Writing a register twice keeps only the second value. */
  lemma Overwrite(s: seq<Byte>, i: nat, x: Byte, y: Byte)
    requires i < |s|
    ensures s[i := x][i := y] == s[i := y]
  {
  }

  /** 8xyE shifts v (Vx, or Vy with the nineties quirk) left by one bit
      into Vx, dropping bit 7, and bit 7 goes to VF, written last. */
  lemma ShiftLeftFlag(f: Fields, m: Machine, screen: Grid, cfg: Config)
    requires m.Valid() && f.n4 == 0xe
    ensures var v := if cfg.ninetiesShift then m.registers[f.n3] else m.registers[f.n2];
            Family8(f, m, screen, cfg) ==
            Cycle(Pass, m.(registers := m.registers[f.n2 := (2 * v as int) % 256][0xf := v / 128]), screen)
  {
    assert Family8(f, m, screen, cfg) == Cycle(Pass, ShiftLeft(m, f.n2, f.n3, cfg), screen);
    ShiftLeftClosed(m, f.n2, f.n3, cfg);
  }

  lemma ShiftLeftClosed(m: Machine, a: Nibble, b: Nibble, cfg: Config)
    requires m.Valid()
    ensures var v := if cfg.ninetiesShift then m.registers[b] else m.registers[a];
            ShiftLeft(m, a, b, cfg) == m.(registers := m.registers[a := (2 * v as int) % 256][0xf := v / 128])
  {
    var v := if cfg.ninetiesShift then m.registers[b] else m.registers[a];
    var m1 := if cfg.ninetiesShift then m.SetVx(a, m.registers[b]).value else m;
    ShiftOperand(m, a, b, cfg);
    var w: Byte := (2 * v as int) % 256;
    var m2 := m1.SetVx(a, (m1.registers[a] as int) * 2).value;
    assert m2.registers == m.registers[a := v][a := w];
    Overwrite(m.registers, a, v, w);
    assert (v / 128) % 2 == v / 128;
    assert m2.SetVx(0xf, v / 128).value.registers == m.registers[a := w][0xf := v / 128];
  }

  /** 7xnn adds without touching VF: the sum is simply reduced to a byte. */
  lemma AddImmediateNoCarry(f: Fields, m: Machine, screen: Grid, cfg: Config,
                            held: set<Nibble>, released: Option<Nibble>, rnd: Byte)
    requires m.Valid() && f.n1 == 0x7
    ensures var c := Dispatch(f, m, screen, cfg, held, released, rnd);
            c.outcome == Pass && c.screen == screen && c.machine == m.(registers := c.machine.registers) &&
            c.machine.registers[f.n2] == (m.registers[f.n2] + f.nn) % 256 &&
            forall k :: 0 <= k < 16 && k != f.n2 ==> c.machine.registers[k] == m.registers[k]
  {
  }

  /** OR and AND agree with the arithmetic of their bits: a | b adds the two
      operands less their common bits. */
  lemma {:induction false} OrAndSum(a: nat, b: nat)
    ensures Or(a, b) + And(a, b) == a + b
    decreases a + b
  {
    if a != 0 && b != 0 {
      OrAndSum(a / 2, b / 2);
      assert Or(a, b) == 2 * Or(a / 2, b / 2) + (if a % 2 == 1 || b % 2 == 1 then 1 else 0);
      assert And(a, b) == 2 * And(a / 2, b / 2) + (if a % 2 == 1 && b % 2 == 1 then 1 else 0);
      assert a == 2 * (a / 2) + a % 2 && b == 2 * (b / 2) + b % 2;
    }
  }

  /** XOR and AND agree with the arithmetic of their bits: a ^ b adds the two
      operands less their common bits counted twice. */
  lemma {:induction false} XorAndSum(a: nat, b: nat)
    ensures Xor(a, b) + 2 * And(a, b) == a + b
    decreases a + b
  {
    if a != 0 && b != 0 {
      XorAndSum(a / 2, b / 2);
      XorAndStep(a, b);
    }
  }

  /** One bit of XOR and AND: the low bits of a and b add up to the low bit
      of a ^ b plus twice that of a & b. */
  lemma XorAndStep(a: nat, b: nat)
    requires a != 0 && b != 0
    ensures Xor(a, b) + 2 * And(a, b) == 2 * (Xor(a / 2, b / 2) + 2 * And(a / 2, b / 2)) + a % 2 + b % 2
  {
    if a % 2 == 1 && b % 2 == 1 {
      assert Xor(a, b) == 2 * Xor(a / 2, b / 2) && And(a, b) == 2 * And(a / 2, b / 2) + 1;
    } else {
      assert Xor(a, b) == 2 * Xor(a / 2, b / 2) + a % 2 + b % 2 && And(a, b) == 2 * And(a / 2, b / 2);
    }
  }

  /** AND with a mask of k ones keeps every number below 2^k. */
  lemma {:induction false} AndAllOnes(a: nat, k: nat)
    requires a < Pow2(k)
    ensures And(a, Pow2(k) - 1) == a
  {
    if k > 0 && a > 0 {
      AndAllOnes(a / 2, k - 1);
      assert (Pow2(k) - 1) / 2 == Pow2(k - 1) - 1 && (Pow2(k) - 1) % 2 == 1;
    }
  }

  /** Cxnn: Vx receives the random byte masked by nn and nothing else
      changes; the value is at most either of them, and a mask of FF passes
      the random byte through. */
  lemma RandomMasked(f: Fields, m: Machine, screen: Grid, cfg: Config,
                     held: set<Nibble>, released: Option<Nibble>, rnd: Byte)
    requires m.Valid() && f.n1 == 0xc
    ensures Dispatch(f, m, screen, cfg, held, released, rnd) ==
            Cycle(Pass, m.(registers := m.registers[f.n2 := And(f.nn, rnd)]), screen)
    ensures And(f.nn, rnd) <= f.nn && And(f.nn, rnd) <= rnd
    ensures f.nn == 0xff ==> And(f.nn, rnd) == rnd
  {
    var v := And(f.nn, rnd);
    assert Dispatch(f, m, screen, cfg, held, released, rnd) == Basic(f, m, screen, cfg, rnd);
    assert Basic(f, m, screen, cfg, rnd) == Cycle(Pass, m.SetVx(f.n2, v).value, screen);
    assert m.SetVx(f.n2, v).value == m.(registers := m.registers[f.n2 := v]);
    if f.nn == 0xff {
      AndFullByte(rnd);
    }
  }

  /** A mask of eight ones passes a byte through. */
  lemma AndFullByte(b: Byte)
    ensures And(0xff, b) == b
  {
    assert Pow2(8) - 1 == 0xff;
    AndAllOnes(b, 8);
    AndCommutes(0xff, b);
  }

  lemma {:induction false} AndCommutes(a: nat, b: nat)
    ensures And(a, b) == And(b, a)
    decreases a
  {
    if a != 0 && b != 0 {
      AndCommutes(a / 2, b / 2);
    }
  }

  /** The skip instructions 3xnn, 4xnn, 5xy0 and 9xy0 (the last nibble of
      the last two is not looked at) move PC on by four when their condition
      holds and by two otherwise, changing nothing else. */
  lemma StepSkips(m: Machine, screen: Grid, cfg: Config, held: set<Nibble>, released: Option<Nibble>, rnd: Byte)
    requires Fetches(m) && FieldsAt(m).n1 in {0x3, 0x4, 0x5, 0x9}
    ensures var f := FieldsAt(m); var vx, vy := m.registers[f.n2], m.registers[f.n3];
            var taken := match f.n1
                         case 0x3 => vx == f.nn
                         case 0x4 => vx != f.nn
                         case 0x5 => vx == vy
                         case _ => vx != vy;
            Step(m, screen, cfg, held, released, rnd) ==
            Cycle(Pass, m.(pc := (m.pc + if taken then 4 else 2) % RAM_SIZE), screen)
  {
  }

  /** Ex9E and ExA1 skip on the key numbered Vx mod 16 being held or not
      held. */
  lemma StepKeySkips(m: Machine, screen: Grid, cfg: Config, held: set<Nibble>, released: Option<Nibble>, rnd: Byte)
    requires Fetches(m) && FieldsAt(m).n1 == 0xe && FieldsAt(m).nn in {0x9e, 0xa1}
    ensures var f := FieldsAt(m); var key := m.registers[f.n2] % 16;
            var taken := (f.nn == 0x9e) == (key in held);
            Step(m, screen, cfg, held, released, rnd) ==
            Cycle(Pass, m.(pc := (m.pc + if taken then 4 else 2) % RAM_SIZE), screen)
  {
  }

  /** 2nnn pushes the address of the next instruction and jumps to nnn. */
  lemma StepCall(m: Machine, screen: Grid, cfg: Config, held: set<Nibble>, released: Option<Nibble>, rnd: Byte)
    requires Fetches(m) && FieldsAt(m).n1 == 0x2
    ensures Step(m, screen, cfg, held, released, rnd) ==
            Cycle(Pass, m.(pc := FieldsAt(m).nnn, stack := m.stack + [(m.pc + 2) % RAM_SIZE]), screen)
  {
  }

  /** A call whose target is 00EE comes straight back: two cycles leave the
      state as a plain step over the call would, with the stack as before. */
  lemma CallThenReturn(m: Machine, screen: Grid, cfg: Config, held: set<Nibble>, released: Option<Nibble>, rnd: Byte)
    requires Fetches(m) && FieldsAt(m).n1 == 0x2
    requires FieldsAt(m).nnn <= RAM_SIZE - 2 && m.ram[FieldsAt(m).nnn..FieldsAt(m).nnn + 2] == [0x00, 0xee]
    ensures var c := Step(m, screen, cfg, held, released, rnd);
            Step(c.machine, c.screen, cfg, held, released, rnd) ==
            Cycle(Pass, m.(pc := (m.pc + 2) % RAM_SIZE), screen)
  {
    StepCall(m, screen, cfg, held, released, rnd);
    var c := Step(m, screen, cfg, held, released, rnd);
    var m1 := c.machine;
    assert FieldsAt(m1).n1 == 0 && FieldsAt(m1).nn == 0xee;
    StepFetches(m1, screen, cfg, held, released, rnd);
    var s := m1.stack;
    assert s[..|s| - 1] == m.stack;
  }

  /** 00EE on an empty stack raises IndexError and leaves the state as the
      fetch left it. */
  lemma ReturnOnEmptyStack(f: Fields, m: Machine, screen: Grid)
    requires m.Valid() && f.nn == 0xee && m.stack == []
    ensures Family0(f, m, screen) == Cycle(Fail(IndexError), m, screen)
  {
  }

  /** Bnnn jumps to nnn, or to nnn + V0.. with the nineties quirk to
      nnn + Vx, which can lie past 4096 and then raises IndexError without
      jumping. */
  lemma JumpWithOffset(f: Fields, m: Machine, screen: Grid, cfg: Config,
                       held: set<Nibble>, released: Option<Nibble>, rnd: Byte)
    requires m.Valid() && f.n1 == 0xb && 0 <= f.nnn < RAM_SIZE
    ensures var c := Dispatch(f, m, screen, cfg, held, released, rnd);
            (!cfg.ninetiesBnnn ==> c == Cycle(Pass, m.(pc := f.nnn), screen)) &&
            (cfg.ninetiesBnnn ==>
               (c.outcome == Pass <==> f.nnn + m.registers[f.n2] as int <= RAM_SIZE) &&
               (c.outcome == Pass ==> c.machine == m.(pc := f.nnn + m.registers[f.n2])) &&
               (c.outcome != Pass ==> c == Cycle(Fail(IndexError), m, screen)))
  {
  }

  /** Fx1E sets VF to 1 when I + Vx passes the end of RAM and otherwise
      leaves VF as it was: the flag is never cleared. I wraps round. */
  lemma AddToIndex(f: Fields, m: Machine, screen: Grid, released: Option<Nibble>)
    requires m.Valid() && f.nn == 0x1e
    ensures var c := FamilyF(f, m, screen, released); var sum := m.index + m.registers[f.n2] as int;
            c.outcome == Pass && c.machine == m.(index := c.machine.index, registers := c.machine.registers) &&
            c.machine.index + (if sum > RAM_SIZE - 1 then RAM_SIZE else 0) == sum &&
            c.machine.registers[0xf] == (if sum > RAM_SIZE - 1 then 1 else m.registers[0xf]) &&
            forall k :: 0 <= k < 15 ==> c.machine.registers[k] == m.registers[k]
  {
  }

  /** Fx29 points I at the five-byte glyph numbered Vx in the font at 0x50;
      Vx is not reduced to a hexadecimal digit first. */
  lemma FontGlyph(f: Fields, m: Machine, screen: Grid, released: Option<Nibble>)
    requires m.Valid() && f.nn == 0x29
    ensures var c := FamilyF(f, m, screen, released);
            c == Cycle(Pass, m.(index := FONTSTART + 5 * m.registers[f.n2] as int), screen)
  {
  }

  /** Fx15 then Fy07 copies Vx to Vy through the delay timer. */
  lemma DelayTimerRoundTrip(x: Nibble, y: Nibble, m: Machine, screen: Grid, released: Option<Nibble>)
    requires m.Valid()
    ensures var set_ := FamilyF(Fields(0xf, x, 1, 5, 0x15, x * 256 + 0x15), m, screen, released);
            var get := FamilyF(Fields(0xf, y, 0, 7, 0x07, y * 256 + 0x07), set_.machine, screen, released);
            get.machine.registers[y] == m.registers[x] && get.machine.delayTimer == m.registers[x]
  {
  }

  /** Fx0A with no released key (or key 0, which reads as none) puts PC back
      on the Fx0A itself, so the next cycle waits again. */
  lemma WaitForKeyRepeats(m: Machine, screen: Grid, cfg: Config, held: set<Nibble>, released: Option<Nibble>, rnd: Byte)
    requires Fetches(m) && m.pc < RAM_SIZE - 2
    requires FieldsAt(m).n1 == 0xf && FieldsAt(m).nn == 0x0a
    requires released.None? || released.value == 0
    ensures Step(m, screen, cfg, held, released, rnd) == Cycle(Pass, m, screen)
  {
  }

  /** Fx0A with a released key k other than 0 stores k in Vx and moves on. */
  lemma WaitForKeyStores(m: Machine, screen: Grid, cfg: Config, held: set<Nibble>, k: Nibble, rnd: Byte)
    requires Fetches(m) && FieldsAt(m).n1 == 0xf && FieldsAt(m).nn == 0x0a && k != 0
    ensures Step(m, screen, cfg, held, Some(k), rnd) ==
            Cycle(Pass, m.(pc := (m.pc + 2) % RAM_SIZE, registers := m.registers[FieldsAt(m).n2 := k]), screen)
  {
  }

  /** An Fx0A at 4094 waiting for a key does not come back to itself: PC
      wraps to 0 and is then put back to -2, and the next cycle fetches an
      empty slice and raises ValueError. */
  lemma WaitAtEndOfRam(m: Machine, screen: Grid, cfg: Config, held: set<Nibble>, rnd: Byte)
    requires Fetches(m) && m.pc == RAM_SIZE - 2 && FieldsAt(m).n1 == 0xf && FieldsAt(m).nn == 0x0a
    ensures var c := Step(m, screen, cfg, held, None, rnd);
            c.machine == m.(pc := -2) &&
            Step(c.machine, c.screen, cfg, held, None, rnd) == Cycle(Fail(ValueError), m.(pc := 0), screen)
  {
    var c := Step(m, screen, cfg, held, None, rnd);
    FetchOutsideRam(c.machine, c.screen, cfg, held, None, rnd);
  }

  /** Dxyn draws the n bytes at I at (Vx, Vy) and changes no register but VF;
      drawing the same sprite again with x and y not F restores a screen of
      0s and 1s. */
  lemma DrawTwiceRestores(vx: Nibble, vy: Nibble, n: Nibble, m: Machine, screen: Grid)
    requires m.Valid() && Binary(screen) && vx != 0xf && vy != 0xf
    ensures var c := Draw(vx, vy, n, m, screen);
            c.outcome == Pass && c.machine == m.(registers := c.machine.registers) &&
            (forall k :: 0 <= k < 15 ==> c.machine.registers[k] == m.registers[k]) &&
            Draw(vx, vy, n, c.machine, c.screen).screen == screen
  {
    var c := Draw(vx, vy, n, m, screen);
    BlitTwice(screen, m.registers[vx], m.registers[vy], m.GetRam(n, None));
  }

  /** Exactly the unknown words raise SyntaxError, and they change nothing
      beyond the PC advance of the fetch. */
  lemma SyntaxErrorIffUnrecognised(f: Fields, m: Machine, screen: Grid, cfg: Config,
                                   held: set<Nibble>, released: Option<Nibble>, rnd: Byte)
    requires m.Valid()
    ensures var c := Dispatch(f, m, screen, cfg, held, released, rnd);
            (c.outcome == Fail(SyntaxError) <==> !Recognised(f)) &&
            (!Recognised(f) ==> c == Cycle(Fail(SyntaxError), m, screen))
  {
    if f.n1 == 0xf && f.nn == 0x55 {
      StoreFromClosed(m, 0, f.n2);
    }
  }

  /** An instruction that raises leaves the screen and the state as they
      were, except for the bytes an Fx55 wrote before it ran off the end of
      RAM. */
  lemma RaisingKeepsState(f: Fields, m: Machine, screen: Grid, cfg: Config,
                          held: set<Nibble>, released: Option<Nibble>, rnd: Byte)
    requires Reachable(m) && 0 <= m.pc < RAM_SIZE && 0 <= f.nnn < RAM_SIZE
    ensures var c := Dispatch(f, m, screen, cfg, held, released, rnd);
            c.outcome.Fail? ==> c.screen == screen && c.machine == m.(ram := c.machine.ram) &&
                                (c.machine.ram != m.ram ==> f.n1 == 0xf && f.nn == 0x55)
  {
    var c := Dispatch(f, m, screen, cfg, held, released, rnd);
    if f.n1 == 0x0 {
      if f.nn == 0xee && |m.stack| > 0 {
        var (top, m1) := m.StackPop().value;
        assert top == m.stack[|m.stack| - 1] < RAM_SIZE;
        assert c.outcome == Pass;
      }
    } else if f.n1 == 0x2 {
      assert c.outcome == Pass;
    } else if f.n1 == 0xf {
      assert c == FamilyF(f, m, screen, released);
    }
  }

  /** The words that may set PC themselves: jumps, calls, returns, skips
      and the key wait. */
  predicate MovesPc(f: Fields) {
    f.n1 in {0x1, 0x2, 0x3, 0x4, 0x5, 0x9, 0xb, 0xe} ||
    (f.n1 == 0x0 && f.nn == 0xee) || (f.n1 == 0xf && f.nn == 0x0a)
  }

  /** Every other word leaves PC where the fetch put it. */
  lemma DispatchKeepsPc(f: Fields, m: Machine, screen: Grid, cfg: Config,
                        held: set<Nibble>, released: Option<Nibble>, rnd: Byte)
    requires m.Valid() && !MovesPc(f)
    ensures Dispatch(f, m, screen, cfg, held, released, rnd).machine.pc == m.pc
  {
    var c := Dispatch(f, m, screen, cfg, held, released, rnd);
    if f.n1 == 0x0 {
      assert c == Family0(f, m, screen);
    } else if f.n1 == 0x8 {
      assert c == Family8(f, m, screen, cfg);
    } else if f.n1 == 0xd {
      assert c == Draw(f.n2, f.n3, f.n4, m, screen);
    } else if f.n1 == 0xf {
      assert c == FamilyF(f, m, screen, released);
    }
  }

  /** A cycle on a word that does not move PC itself leaves PC two bytes on,
      modulo 4096. */
  lemma StepAdvancesPc(m: Machine, screen: Grid, cfg: Config, held: set<Nibble>, released: Option<Nibble>, rnd: Byte)
    requires Fetches(m) && !MovesPc(FieldsAt(m))
    ensures Step(m, screen, cfg, held, released, rnd).machine.pc == (m.pc + 2) % RAM_SIZE
  {
    StepFetches(m, screen, cfg, held, released, rnd);
    DispatchKeepsPc(FieldsAt(m), m.(pc := (m.pc + 2) % RAM_SIZE), screen, cfg, held, released, rnd);
  }

  /** Family 0 from a reachable state after the fetch leaves a reachable
      state: a return jumps to an address that was pushed by a call. */
  lemma Family0KeepsReachable(f: Fields, m: Machine, screen: Grid)
    requires Reachable(m)
    ensures Reachable(Family0(f, m, screen).machine)
  {
    if f.nn == 0xee && |m.stack| > 0 {
      var s := m.stack;
      assert s[|s| - 1] < RAM_SIZE;
      assert forall k :: 0 <= k < |s| - 1 ==> s[..|s| - 1][k] == s[k];
    }
  }

  /** Family F from a reachable state after the fetch leaves a reachable
      state: a key wait moves PC back by two from at least 0. */
  lemma FamilyFKeepsReachable(f: Fields, m: Machine, screen: Grid, released: Option<Nibble>)
    requires Reachable(m) && 0 <= m.pc < RAM_SIZE
    ensures Reachable(FamilyF(f, m, screen, released).machine)
  {
  }

  /** Executing a decoded word on a reachable state whose PC has just been
      advanced leaves a reachable state. */
  lemma DispatchKeepsReachable(f: Fields, m: Machine, screen: Grid, cfg: Config,
                               held: set<Nibble>, released: Option<Nibble>, rnd: Byte)
    requires Reachable(m) && 0 <= m.pc < RAM_SIZE && 0 <= f.nnn < RAM_SIZE
    ensures Reachable(Dispatch(f, m, screen, cfg, held, released, rnd).machine)
  {
    var c := Dispatch(f, m, screen, cfg, held, released, rnd);
    if f.n1 == 0x0 {
      assert c == Family0(f, m, screen);
      Family0KeepsReachable(f, m, screen);
    } else if f.n1 == 0x2 {
      var s := m.StackPush(m.pc).stack;
      assert forall k :: 0 <= k < |s| ==> 0 <= s[k] < RAM_SIZE;
    } else if f.n1 == 0x8 {
      assert c == Family8(f, m, screen, cfg);
    } else if f.n1 == 0xd {
      assert c == Draw(f.n2, f.n3, f.n4, m, screen);
    } else if f.n1 == 0xe {
      assert c == FamilyE(f, m, screen, held);
    } else if f.n1 == 0xf {
      assert c == FamilyF(f, m, screen, released);
      FamilyFKeepsReachable(f, m, screen, released);
    }
  }

  /** Every cycle from a reachable state leaves a reachable state. */
  lemma StepKeepsReachable(m: Machine, screen: Grid, cfg: Config,
                           held: set<Nibble>, released: Option<Nibble>, rnd: Byte)
    requires Reachable(m)
    ensures Reachable(Step(m, screen, cfg, held, released, rnd).machine)
  {
    var m1 := m.IncrementPc(2);
    var instr := m.GetRamAtPc(2);
    if Decode(instr).Ok? {
      DispatchKeepsReachable(Decode(instr).value, m1, screen, cfg, held, released, rnd);
    }
  }

  /** 00E0 replaces the screen by a blank 32 x 64 one and changes nothing
      else. */
  lemma ClearScreen(f: Fields, m: Machine, screen: Grid, cfg: Config,
                    held: set<Nibble>, released: Option<Nibble>, rnd: Byte)
    requires m.Valid() && f.n1 == 0x0 && f.nn == 0xe0
    ensures Dispatch(f, m, screen, cfg, held, released, rnd) == Cycle(Pass, m, Blank(HEIGHT, WIDTH))
  {
  }

  /** 1nnn jumps to nnn; an address past 4096 raises IndexError and leaves
      PC alone. */
  lemma Jump(f: Fields, m: Machine, screen: Grid, cfg: Config,
             held: set<Nibble>, released: Option<Nibble>, rnd: Byte)
    requires m.Valid() && f.n1 == 0x1
    ensures Dispatch(f, m, screen, cfg, held, released, rnd) ==
            if f.nnn <= RAM_SIZE then Cycle(Pass, m.(pc := f.nnn), screen) else Cycle(Fail(IndexError), m, screen)
  {
    assert Dispatch(f, m, screen, cfg, held, released, rnd) == Basic(f, m, screen, cfg, rnd);
  }

  /** Annn sets I to nnn modulo 4096 and leaves VF alone. */
  lemma LoadIndex(f: Fields, m: Machine, screen: Grid, cfg: Config,
                  held: set<Nibble>, released: Option<Nibble>, rnd: Byte)
    requires m.Valid() && f.n1 == 0xa
    ensures Dispatch(f, m, screen, cfg, held, released, rnd) == Cycle(Pass, m.(index := f.nnn % RAM_SIZE), screen)
  {
    assert Dispatch(f, m, screen, cfg, held, released, rnd) == Basic(f, m, screen, cfg, rnd);
  }

  /** 8xy0 to 8xy3 put Vy, Vx | Vy, Vx & Vy or Vx ^ Vy into Vx; the value is
      a byte already, and VF is not touched (unless x is F). */
  lemma RegisterLogic(f: Fields, m: Machine, screen: Grid, cfg: Config,
                      held: set<Nibble>, released: Option<Nibble>, rnd: Byte)
    requires m.Valid() && f.n1 == 0x8 && f.n4 <= 0x3
    ensures var a, b := m.registers[f.n2], m.registers[f.n3];
            var v := if f.n4 == 0x0 then b else if f.n4 == 0x1 then Or(a, b) else if f.n4 == 0x2 then And(a, b) else Xor(a, b);
            v < 256 && Dispatch(f, m, screen, cfg, held, released, rnd) == Cycle(Pass, m.(registers := m.registers[f.n2 := v]), screen)
  {
    Family8Logic(f, m, screen, cfg);
    assert Dispatch(f, m, screen, cfg, held, released, rnd) == Family8(f, m, screen, cfg);
  }

  /** The same, one level down, for the 8 family alone. */
  lemma Family8Logic(f: Fields, m: Machine, screen: Grid, cfg: Config)
    requires m.Valid() && f.n4 <= 0x3
    ensures var a, b := m.registers[f.n2], m.registers[f.n3];
            var v := if f.n4 == 0x0 then b else if f.n4 == 0x1 then Or(a, b) else if f.n4 == 0x2 then And(a, b) else Xor(a, b);
            v < 256 && Family8(f, m, screen, cfg) == Cycle(Pass, m.(registers := m.registers[f.n2 := v]), screen)
  {
    var a, b := m.registers[f.n2], m.registers[f.n3];
    BitwiseBelow(a, b, 8);
    var v := if f.n4 == 0x0 then b else if f.n4 == 0x1 then Or(a, b) else if f.n4 == 0x2 then And(a, b) else Xor(a, b);
    assert Family8(f, m, screen, cfg) == Cycle(Pass, m.SetVx(f.n2, v).value, screen);
    ByteUnchanged(v);
  }

  /** Reducing a byte modulo 256 gives it back. */
  lemma ByteUnchanged(v: int)
    requires 0 <= v < 256
    ensures v % 256 == v
  {
  }

  /** OR and XOR of two numbers below 2^k stay below 2^k. */
  lemma {:induction false} BitwiseBelow(a: nat, b: nat, k: nat)
    requires a < Pow2(k) && b < Pow2(k)
    ensures Or(a, b) < Pow2(k) && Xor(a, b) < Pow2(k)
  {
    if k > 0 && a != 0 && b != 0 {
      BitwiseBelow(a / 2, b / 2, k - 1);
    }
  }

  /** Fx15 and Fx18 load Vx into the delay, respectively the sound, timer and
      change nothing else. */
  lemma TimerLoads(f: Fields, m: Machine, screen: Grid, cfg: Config,
                   held: set<Nibble>, released: Option<Nibble>, rnd: Byte)
    requires m.Valid() && f.n1 == 0xf && (f.nn == 0x15 || f.nn == 0x18)
    ensures Dispatch(f, m, screen, cfg, held, released, rnd) ==
            Cycle(Pass, if f.nn == 0x15 then m.(delayTimer := m.registers[f.n2]) else m.(soundTimer := m.registers[f.n2]), screen)
  {
    assert Dispatch(f, m, screen, cfg, held, released, rnd) == FamilyF(f, m, screen, released);
  }

  /** 6xnn loads nn into Vx and moves on by 2. */
  lemma StepLoadImmediate(m: Machine, screen: Grid, cfg: Config, held: set<Nibble>, released: Option<Nibble>, rnd: Byte)
    requires Fetches(m) && FieldsAt(m).n1 == 0x6
    ensures var f := FieldsAt(m);
            Step(m, screen, cfg, held, released, rnd) ==
            Cycle(Pass, m.(pc := (m.pc + 2) % RAM_SIZE, registers := m.registers[f.n2 := f.nn]), screen)
  {
    StepFetches(m, screen, cfg, held, released, rnd);
    DispatchImmediate(FieldsAt(m), m.(pc := (m.pc + 2) % RAM_SIZE), screen, cfg, held, released, rnd);
  }

  /** 7xnn adds nn to Vx modulo 256 and moves on by 2. */
  lemma StepAddImmediate(m: Machine, screen: Grid, cfg: Config, held: set<Nibble>, released: Option<Nibble>, rnd: Byte)
    requires Fetches(m) && FieldsAt(m).n1 == 0x7
    ensures var f := FieldsAt(m);
            Step(m, screen, cfg, held, released, rnd) ==
            Cycle(Pass, m.(pc := (m.pc + 2) % RAM_SIZE,
                           registers := m.registers[f.n2 := (m.registers[f.n2] + f.nn) % 256]), screen)
  {
    StepFetches(m, screen, cfg, held, released, rnd);
    DispatchImmediate(FieldsAt(m), m.(pc := (m.pc + 2) % RAM_SIZE), screen, cfg, held, released, rnd);
  }

  /** 6xnn and 7xnn once fetched: Vx receives nn, respectively Vx + nn
      reduced to a byte, and nothing else changes. */
  lemma DispatchImmediate(f: Fields, m: Machine, screen: Grid, cfg: Config,
                          held: set<Nibble>, released: Option<Nibble>, rnd: Byte)
    requires m.Valid() && (f.n1 == 0x6 || f.n1 == 0x7)
    ensures Dispatch(f, m, screen, cfg, held, released, rnd) ==
            Cycle(Pass, m.(registers := m.registers[f.n2 := if f.n1 == 0x6 then f.nn else (m.registers[f.n2] + f.nn) % 256]), screen)
  {
    assert Dispatch(f, m, screen, cfg, held, released, rnd) == Basic(f, m, screen, cfg, rnd);
  }
}
