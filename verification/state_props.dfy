/** Properties that relate several accessors of State.py: what a setter
    stores its getter returns, the call stack is last in first out, and the
    timers count down to zero and stay there. */
module StateProps {
  import opened Common
  import opened State

  /** `get_vx` returns what `set_vx` stored, reduced to a byte. */
  lemma RegisterRoundTrip(m: Machine, vx: Nibble, value: int)
    requires m.Valid()
    ensures m.SetVx(vx, value).value.GetVx(vx) == Ok(value % 256)
    ensures 0 <= value < 256 ==> m.SetVx(vx, value).value.GetVx(vx) == Ok(value)
  {
  }

  /** Setting a register to the value it holds changes nothing. */
  lemma {:induction false} SetVxOwnValue(m: Machine, vx: Nibble)
    requires m.Valid()
    ensures m.SetVx(vx, m.registers[vx]) == Ok(m)
  {
    assert m.registers[vx := m.registers[vx] % 256] == m.registers;
  }

  /** `get_ram` at the address `set_ram` wrote returns the data written. */
  lemma RamRoundTrip(m: Machine, data: seq<Byte>, address: Option<nat>)
    requires m.Valid() && m.SetRam(data, address).Ok?
    ensures m.SetRam(data, address).value.GetRam(|data|, address) == data
  {
    var m1 := m.SetRam(data, address).value;
    assert m1.Address(address) == m.Address(address);
    var r := m1.GetRam(|data|, address);
    assert |r| == |data|;
    forall k | 0 <= k < |data| ensures r[k] == data[k] {
    }
  }

  /** A pop undoes a push: it returns the pushed value and the state before
      the push. */
  lemma {:induction false} PushThenPop(m: Machine, value: int)
    requires m.Valid()
    ensures m.StackPush(value).StackPop() == Ok((value, m))
  {
    var s := m.stack + [value];
    assert s[..|s| - 1] == m.stack;
  }

  /** Popping a state and pushing the value back gives the state again. */
  lemma {:induction false} PopThenPush(m: Machine)
    requires m.Valid() && |m.stack| > 0
    ensures var (top, m1) := m.StackPop().value; m1.StackPush(top) == m
  {
    assert m.stack[..|m.stack| - 1] + [m.stack[|m.stack| - 1]] == m.stack;
  }

  /** Going back by two after going forward by two returns to the same
      program counter exactly when the forward step did not wrap round, and
      a counter of -2 (left by a key wait at address 0) comes back to 0. */
  lemma IncrementThenDecrement(m: Machine)
    requires m.Valid()
    ensures m.IncrementPc(2).DecrementPc(2).pc == m.pc <==> -2 <= m.pc < RAM_SIZE - 2
  {
  }

  /** The state after `k` decrements of the delay timer. */
  function DelayAfter(m: Machine, k: nat): (r: Machine)
    requires m.Valid()
    ensures r.Valid()
  {
    if k == 0 then m else DelayAfter(m, k - 1).DecrementDelayTimer()
  }

  /** The state after `k` decrements of the sound timer. */
  function SoundAfter(m: Machine, k: nat): (r: Machine)
    requires m.Valid()
    ensures r.Valid()
  {
    if k == 0 then m else SoundAfter(m, k - 1).DecrementSoundTimer()
  }

  /** After `k` decrements (at least one) the delay timer reads
      max(t - k, 0) and nothing else has changed. */
  lemma {:induction false} DelayCountsDown(m: Machine, k: nat)
    requires m.Valid()
    ensures k > 0 ==> DelayAfter(m, k) == m.(delayTimer := if m.delayTimer - k > 0 then m.delayTimer - k else 0)
  {
    if k > 1 {
      DelayCountsDown(m, k - 1);
    }
  }

  /** After `k` decrements (at least one) the sound timer reads
      max(t - k, 0) and nothing else has changed. */
  lemma {:induction false} SoundCountsDown(m: Machine, k: nat)
    requires m.Valid()
    ensures k > 0 ==> SoundAfter(m, k) == m.(soundTimer := if m.soundTimer - k > 0 then m.soundTimer - k else 0)
  {
    if k > 1 {
      SoundCountsDown(m, k - 1);
    }
  }

  /** `get_key_state(k)` returns what `set_key_state(k, v)` stored, and
      `clear_key_state` releases every key. */
  lemma KeyRoundTrip(m: Machine, key: Nibble, value: bool)
    requires m.Valid()
    ensures m.SetKeyState(key, value).value.GetKeyState(key) == Ok(value)
    ensures forall k :: 0 <= k < 16 ==> m.ClearKeyState().GetKeyState(k) == Ok(false)
  {
  }
}
