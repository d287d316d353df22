/** The machine state of State.py: sixteen byte registers, 4096 bytes of RAM,
    the program counter, the index register I, the call stack, the delay and
    sound timers and the sixteen key flags.

    `Machine` is the state as a value, with one function per accessor of the
    class; class `State` keeps the state in fields and arrays that its methods
    update in place, and each method is proved to do what the function of the
    same name does to `Snapshot()`. */
module State {
  import opened Common

  /** Where a program is loaded and where the program counter starts. */
  const ROMSTART := 0x200
  const RAM_SIZE := 4096

  datatype Machine = Machine(
    index: int,
    registers: seq<Byte>,
    pc: int,
    delayTimer: int,
    soundTimer: int,
    stack: seq<int>,
    keyState: seq<bool>,
    ram: seq<Byte>)
  {
    /** The shape every state has: the bytearrays keep their sizes, the key
        list has one flag per key and I is always reduced modulo 4096. */
    ghost predicate Valid() {
      |registers| == 16 && |ram| == RAM_SIZE && |keyState| == 16 && 0 <= index < RAM_SIZE
    }

    /** `set_vx`: register `vx` receives `value` reduced to a byte; a register
        number above 15 raises ValueError and changes nothing. */
    function SetVx(vx: nat, value: int): (r: Result<Machine>)
      requires Valid()
      ensures r.Ok? <==> vx <= 15
      ensures r.Ok? ==> r.value.Valid() && r.value.registers[vx] == value % 256
      ensures r.Ok? ==> forall i :: 0 <= i < 16 && i != vx ==> r.value.registers[i] == registers[i]
      ensures r.Ok? ==> r.value == this.(registers := r.value.registers)
    {
      if vx > 15 then Err(ValueError) else Ok(this.(registers := registers[vx := value % 256]))
    }

    /** `get_vx`: the byte in register `vx`; above 15 raises ValueError. */
    function GetVx(vx: nat): (r: Result<Byte>)
      requires Valid()
      ensures r.Ok? <==> vx <= 15
      ensures r.Ok? ==> r.value == registers[vx]
    {
      if vx > 15 then Err(ValueError) else Ok(registers[vx])
    }

    /** `increment_pc`: advances the program counter, wrapping modulo 4096. */
    function IncrementPc(amount: int): (r: Machine)
      requires Valid()
      ensures r.Valid() && r == this.(pc := r.pc)
      ensures 0 <= r.pc < RAM_SIZE && (pc + amount - r.pc) % RAM_SIZE == 0
    {
      this.(pc := (pc + amount) % RAM_SIZE)
    }

    /** `decrement_pc`: moves the program counter back WITHOUT wrapping, so
        it can become negative. */
    function DecrementPc(amount: int): (r: Machine)
      requires Valid()
      ensures r.Valid() && r == this.(pc := r.pc)
      ensures r.pc + amount == pc
    {
      this.(pc := pc - amount)
    }

    /** `set_pc`: only a value above 4096 raises IndexError, so 4096 itself,
        one past the last address, is accepted. */
    function SetPc(value: int): (r: Result<Machine>)
      requires Valid()
      ensures r.Ok? <==> value <= RAM_SIZE
      ensures r.Ok? ==> r.value.Valid() && r.value == this.(pc := value)
    {
      if value > RAM_SIZE then Err(IndexError) else Ok(this.(pc := value))
    }

    /** `set_index`: I receives `value` modulo 4096; VF is set to 1 when
        overflow reporting is asked for and `value` is past 4095, and is
        otherwise left alone (never cleared). */
    function SetIndex(value: int, setOverflow: bool): (r: Machine)
      requires Valid()
      ensures r.Valid() && r == this.(index := r.index, registers := r.registers)
      ensures r.index == value % RAM_SIZE
      ensures r.registers[15] == if setOverflow && value > 4095 then 1 else registers[15]
      ensures forall i :: 0 <= i < 15 ==> r.registers[i] == registers[i]
    {
      var regs := if setOverflow && value > 4095 then registers[15 := 1] else registers;
      this.(index := value % RAM_SIZE, registers := regs)
    }

    /** The address a RAM access uses: the one given, or I when none is. */
    function Address(address: Option<nat>): (r: nat)
      requires Valid()
      ensures address.None? ==> r == index && r < RAM_SIZE
    {
      if address.None? then index else address.value
    }

    /** `get_ram_at_pc`: the slice `ram[pc:pc+length]`, with Python's slice
        rules for a program counter that is negative or past the end. */
    function GetRamAtPc(length: nat): (r: seq<Byte>)
      requires Valid()
      ensures 0 <= pc && pc + length <= RAM_SIZE ==> r == ram[pc..pc + length]
      ensures (pc == -2 || pc >= RAM_SIZE) && length == 2 ==> r == []
    {
      Slice(ram, pc, pc + length)
    }

    /** `get_ram`: `ram[address:address+length]`, which is shorter than
        `length` near the end of RAM and empty past it. */
    function GetRam(length: nat, address: Option<nat>): (r: seq<Byte>)
      requires Valid()
      ensures var a := Address(address);
              |r| == (if a >= RAM_SIZE then 0 else Min(length, RAM_SIZE - a)) &&
              forall k :: 0 <= k < |r| ==> r[k] == ram[a + k]
    {
      var a := Address(address);
      Slice(ram, a, a + length)
    }

    /** `set_ram`: writes `data` at the address (I by default); a write that
        would run past the end of RAM raises OverflowError and writes nothing. */
    function SetRam(data: seq<Byte>, address: Option<nat>): (r: Result<Machine>)
      requires Valid()
      ensures r.Ok? <==> Address(address) + |data| <= RAM_SIZE
      ensures r.Ok? ==> r.value.Valid() && r.value == this.(ram := r.value.ram)
      ensures r.Ok? ==> forall k :: 0 <= k < |data| ==> r.value.ram[Address(address) + k] == data[k]
      ensures r.Ok? ==> forall j :: 0 <= j < RAM_SIZE && !(Address(address) <= j < Address(address) + |data|)
                                    ==> r.value.ram[j] == ram[j]
    {
      var a := Address(address);
      if a + |data| > RAM_SIZE then Err(OverflowError)
      else Ok(this.(ram := ram[..a] + data + ram[a + |data|..]))
    }

    /** `decrement_delay_timer`: one step towards zero, never below it. */
    function DecrementDelayTimer(): (r: Machine)
      requires Valid()
      ensures r.Valid() && r == this.(delayTimer := r.delayTimer)
      ensures r.delayTimer >= 0
      ensures delayTimer > 0 ==> r.delayTimer == delayTimer - 1
      ensures delayTimer <= 0 ==> r.delayTimer == 0
    {
      this.(delayTimer := if delayTimer - 1 > 0 then delayTimer - 1 else 0)
    }

    /** `decrement_sound_timer`: one step towards zero, never below it. */
    function DecrementSoundTimer(): (r: Machine)
      requires Valid()
      ensures r.Valid() && r == this.(soundTimer := r.soundTimer)
      ensures r.soundTimer >= 0
      ensures soundTimer > 0 ==> r.soundTimer == soundTimer - 1
      ensures soundTimer <= 0 ==> r.soundTimer == 0
    {
      this.(soundTimer := if soundTimer - 1 > 0 then soundTimer - 1 else 0)
    }

    /** `stack_push`: the value goes on top of the call stack. */
    function StackPush(value: int): (r: Machine)
      requires Valid()
      ensures r.Valid() && r == this.(stack := r.stack)
      ensures |r.stack| == |stack| + 1 && r.stack[..|stack|] == stack && r.stack[|stack|] == value
    {
      this.(stack := stack + [value])
    }

    /** `stack_pop`: the top of the call stack and the state without it; an
        empty stack raises IndexError. */
    function StackPop(): (r: Result<(int, Machine)>)
      requires Valid()
      ensures r.Ok? <==> |stack| > 0
      ensures r.Ok? ==> var (top, m) := r.value;
                        m.Valid() && m == this.(stack := m.stack) && m.stack + [top] == stack
    {
      if |stack| <= 0 then Err(IndexError)
      else Ok((stack[|stack| - 1], this.(stack := stack[..|stack| - 1])))
    }

    /** `clear_key_state`: every key released. */
    function ClearKeyState(): (r: Machine)
      requires Valid()
      ensures r.Valid() && r == this.(keyState := r.keyState)
      ensures forall k :: 0 <= k < 16 ==> !r.keyState[k]
    {
      this.(keyState := seq(16, _ => false))
    }

    /** `set_key_state`: a key outside 0..15 raises ValueError. */
    function SetKeyState(key: int, value: bool): (r: Result<Machine>)
      requires Valid()
      ensures r.Ok? <==> 0 <= key < 16
      ensures r.Ok? ==> r.value.Valid() && r.value == this.(keyState := r.value.keyState)
      ensures r.Ok? ==> r.value.keyState[key] == value &&
                        forall k :: 0 <= k < 16 && k != key ==> r.value.keyState[k] == keyState[k]
    {
      if key >= 16 || key < 0 then Err(ValueError) else Ok(this.(keyState := keyState[key := value]))
    }

    /** `get_key_state(key)`: a key outside 0..15 raises ValueError. */
    function GetKeyState(key: int): (r: Result<bool>)
      requires Valid()
      ensures r.Ok? <==> 0 <= key < 16
      ensures r.Ok? ==> r.value == keyState[key]
    {
      if key >= 16 || key < 0 then Err(ValueError) else Ok(keyState[key])
    }
  }

  /** A freshly constructed state with the program counter at `pc`. */
  function Initial(pc: int): (m: Machine)
    ensures m.Valid() && m.pc == pc && m.index == 0 && m.stack == []
    ensures m.delayTimer == 0 && m.soundTimer == 0
    ensures forall i :: 0 <= i < 16 ==> m.registers[i] == 0 && !m.keyState[i]
    ensures forall a :: 0 <= a < RAM_SIZE ==> m.ram[a] == 0
  {
    Machine(0, seq(16, _ => 0), pc, 0, 0, [], seq(16, _ => false), seq(RAM_SIZE, _ => 0))
  }

  /** `now` and `r` are what the operation result `res` makes of `before`:
      the new state on success, the unchanged state and the exception on
      failure. */
  ghost predicate Applied(res: Result<Machine>, r: Outcome, before: Machine, now: Machine) {
    match res
    case Ok(m) => r == Pass && now == m
    case Err(e) => r == Fail(e) && now == before
  }

  class State {
    var index: int
    const registers: array<Byte>
    var pc: int
    var delayTimer: int
    var soundTimer: int
    var stack: seq<int>
    var keyState: seq<bool>
    const ram: array<Byte>

    ghost predicate Valid()
      reads this
    {
      registers.Length == 16 && ram.Length == RAM_SIZE && registers != ram &&
      |keyState| == 16 && 0 <= index < RAM_SIZE
    }

    /** The state as a value. */
    function Snapshot(): (m: Machine)
      reads this, registers, ram
      ensures Valid() ==> m.Valid()
    {
      Machine(index, registers[..], pc, delayTimer, soundTimer, stack, keyState, ram[..])
    }

    /** `State(pc)`: zero registers, RAM, I and timers, an empty stack and
        every key released. */
    constructor (pc: int)
      ensures Valid() && fresh(registers) && fresh(ram)
      ensures Snapshot() == Initial(pc)
    {
      index := 0;
      registers := new Byte[16](_ => 0);
      this.pc := pc;
      delayTimer, soundTimer := 0, 0;
      stack := [];
      keyState := seq(16, _ => false);
      ram := new Byte[RAM_SIZE](_ => 0);
    }

    method SetVx(vx: nat, value: int) returns (r: Outcome)
      requires Valid()
      modifies registers
      ensures Valid()
      ensures Applied(old(Snapshot()).SetVx(vx, value), r, old(Snapshot()), Snapshot())
    {
      if vx > 15 {
        return Fail(ValueError);
      }
      registers[vx] := value % 256;
      r := Pass;
    }

    method GetVx(vx: nat) returns (r: Result<Byte>)
      requires Valid()
      ensures r == Snapshot().GetVx(vx)
    {
      if vx > 15 {
        return Err(ValueError);
      }
      r := Ok(registers[vx]);
    }

    method IncrementPc(amount: int)
      requires Valid()
      modifies this
      ensures Valid() && Snapshot() == old(Snapshot()).IncrementPc(amount)
    {
      pc := (pc + amount) % RAM_SIZE;
    }

    method DecrementPc(amount: int)
      requires Valid()
      modifies this
      ensures Valid() && Snapshot() == old(Snapshot()).DecrementPc(amount)
    {
      pc := pc - amount;
    }

    method GetPc() returns (r: int)
      ensures r == pc
    {
      r := pc;
    }

    method SetPc(value: int) returns (r: Outcome)
      requires Valid()
      modifies this
      ensures Valid()
      ensures Applied(old(Snapshot()).SetPc(value), r, old(Snapshot()), Snapshot())
    {
      if value > RAM_SIZE {
        return Fail(IndexError);
      }
      pc := value;
      r := Pass;
    }

    method SetIndex(value: int, setOverflow: bool)
      requires Valid()
      modifies this, registers
      ensures Valid() && Snapshot() == old(Snapshot()).SetIndex(value, setOverflow)
    {
      if setOverflow && value > 4095 {
        var _ := SetVx(0xf, 1);
      }
      index := value % RAM_SIZE;
    }

    method GetIndex() returns (r: int)
      requires Valid()
      ensures 0 <= r < RAM_SIZE && r == index
    {
      r := index;
    }

    method GetRamAtPc(length: nat) returns (r: seq<Byte>)
      requires Valid()
      ensures r == Snapshot().GetRamAtPc(length)
    {
      r := Slice(ram[..], pc, pc + length);
    }

    method GetRam(length: nat, address: Option<nat>) returns (r: seq<Byte>)
      requires Valid()
      ensures r == Snapshot().GetRam(length, address)
    {
      var a := if address.None? then index else address.value;
      r := Slice(ram[..], a, a + length);
    }

    method SetRam(data: seq<Byte>, address: Option<nat>) returns (r: Outcome)
      requires Valid()
      modifies ram
      ensures Valid()
      ensures Applied(old(Snapshot()).SetRam(data, address), r, old(Snapshot()), Snapshot())
    {
      var a := if address.None? then index else address.value;
      if a + |data| > RAM_SIZE {
        return Fail(OverflowError);
      }
      forall k | 0 <= k < |data| {
        ram[a + k] := data[k];
      }
      assert ram[..] == old(ram[..])[..a] + data + old(ram[..])[a + |data|..];
      r := Pass;
    }

    method SetDelayTimer(value: int)
      requires Valid()
      modifies this
      ensures Valid() && Snapshot() == old(Snapshot()).(delayTimer := value)
    {
      delayTimer := value;
    }

    method GetDelayTimer() returns (r: int)
      ensures r == delayTimer
    {
      r := delayTimer;
    }

    method SetSoundTimer(value: int)
      requires Valid()
      modifies this
      ensures Valid() && Snapshot() == old(Snapshot()).(soundTimer := value)
    {
      soundTimer := value;
    }

    method DecrementDelayTimer() returns (r: int)
      requires Valid()
      modifies this
      ensures Valid() && Snapshot() == old(Snapshot()).DecrementDelayTimer()
      ensures r == delayTimer
    {
      delayTimer := if delayTimer - 1 > 0 then delayTimer - 1 else 0;
      r := delayTimer;
    }

    method DecrementSoundTimer() returns (r: int)
      requires Valid()
      modifies this
      ensures Valid() && Snapshot() == old(Snapshot()).DecrementSoundTimer()
      ensures r == soundTimer
    {
      soundTimer := if soundTimer - 1 > 0 then soundTimer - 1 else 0;
      r := soundTimer;
    }

    method StackPush(value: int)
      requires Valid()
      modifies this
      ensures Valid() && Snapshot() == old(Snapshot()).StackPush(value)
    {
      stack := stack + [value];
    }

    method StackPop() returns (r: Result<int>)
      requires Valid()
      modifies this
      ensures Valid()
      ensures match old(Snapshot()).StackPop()
              case Ok((top, m)) => r == Ok(top) && Snapshot() == m
              case Err(e) => r == Err(e) && Snapshot() == old(Snapshot())
    {
      if |stack| <= 0 {
        return Err(IndexError);
      }
      r := Ok(stack[|stack| - 1]);
      stack := stack[..|stack| - 1];
    }

    method ClearKeyState()
      requires Valid()
      modifies this
      ensures Valid() && Snapshot() == old(Snapshot()).ClearKeyState()
    {
      keyState := seq(16, _ => false);
    }

    method SetKeyState(key: int, value: bool) returns (r: Outcome)
      requires Valid()
      modifies this
      ensures Valid()
      ensures Applied(old(Snapshot()).SetKeyState(key, value), r, old(Snapshot()), Snapshot())
    {
      if key >= 16 || key < 0 {
        return Fail(ValueError);
      }
      keyState := keyState[key := value];
      r := Pass;
    }

    /** `get_key_state()` without a key: the sixteen flags. */
    method GetKeyStates() returns (r: seq<bool>)
      requires Valid()
      ensures |r| == 16 && r == keyState
    {
      r := keyState;
    }

    method GetKeyState(key: int) returns (r: Result<bool>)
      requires Valid()
      ensures r == Snapshot().GetKeyState(key)
    {
      if key >= 16 || key < 0 {
        return Err(ValueError);
      }
      r := Ok(keyState[key]);
    }
  }
}
