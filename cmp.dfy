/** The CMP instruction family of an Intel 8080 emulator: compare the
    accumulator with a register or with the byte of memory that H:L addresses,
    advance the cycle counter and set the five condition flags, leaving every
    register as it was.

    `Execute` is the executor as the service runs it, step by step on a local
    copy of the CPU record and with the flag rules at the bit level. `Expected`
    is an independent description of the same effect: the operand comes from
    the 8080 encoding of CMP (the low three opcode bits name the source) and the
    flags from closed forms on unbounded integers. `Execute` is proved equal to
    `Expected`, and the properties of CMP are proved about `Expected`. */
module Cmp {
  import opened RustInts

  /** The condition flags; `auxCarry` is the 8080's auxiliary carry. */
  datatype CpuFlags = CpuFlags(sign: bool, zero: bool, auxCarry: bool, parity: bool, carry: bool)

  datatype CpuState = CpuState(
    a: u8, b: u8, c: u8, d: u8, e: u8, h: u8, l: u8,
    stackPointer: u16,
    programCounter: u16,
    cycles: u64,
    flags: CpuFlags,
    interruptsEnabled: bool)

  /** One request: the CPU snapshot, the identifier of the CPU instance (used
      only to address the memory service) and the opcode to execute. */
  datatype Cpu = Cpu(state: CpuState, id: string, opcode: u8)

  /** Ways a memory read can fail: the service's address is not configured,
      the service cannot be reached or its body cannot be retrieved, or the
      body is not the decimal text of a byte. */
  datatype ReadError = MissingConfiguration | Unavailable | MalformedResponse

  datatype MemoryReply = Byte(value: u8) | Failed(reason: ReadError)

  /** The memory service: given the CPU identifier and a 16-bit address, the
      byte stored there or the reason the read failed. */
  type MemoryOracle = (string, u16) -> MemoryReply

  datatype Error = InvalidOpcode(opcode: u8) | MemoryReadFailed(reason: ReadError)

  datatype Result<T> = Ok(value: T) | Err(error: Error)

  /*** Bit-level pieces of the executor ***/

  lemma SignBit(x: bv8)
    ensures (x & 0x80 == 0x80) <==> x as int >= 0x80
  {
  }

  lemma LowNibbleBits(x: bv8)
    ensures (x & 0x0F) as int == x as int % 16
  {
  }

  lemma HighLowBits(h: bv8, l: bv8)
    ensures ((h as bv16 << 8) | l as bv16) as int == h as int * 0x100 + l as int
  {
  }

  lemma LowBit(n: nat)
    requires n <= 8
    ensures (n as bv32 & 1 == 0) <==> n % 2 == 0
  {
  }

  /** The cycle cost of a CMP opcode: seven for the memory operand, four for
      a register; any other opcode is refused. */
  function CycleCost(opcode: u8): (cost: Result<u64>)
    ensures cost.Ok? <==> 0xB8 <= opcode <= 0xBF
    ensures cost.Ok? ==> (cost.value == 7 <==> opcode == 0xBE)
    ensures cost.Ok? ==> (cost.value == 4 <==> opcode != 0xBE)
    ensures cost.Err? ==> cost.error == InvalidOpcode(opcode)
  {
    if opcode == 0xBE then Ok(7)
    else if opcode in {0xB8, 0xB9, 0xBA, 0xBB, 0xBC, 0xBD, 0xBF} then Ok(4)
    else Err(InvalidOpcode(opcode))
  }

  /** The 16-bit address `(h << 8) | l` that H:L forms. */
  function AddressOf(h: u8, l: u8): (address: u16)
    ensures address as int == h as int * 0x100 + l as int
  {
    BitsOfByte(h);
    BitsOfByte(l);
    HighLowBits(h as bv8, l as bv8);
    ((h as bv8 as bv16 << 8) | l as bv8 as bv16) as int as u16
  }

  /** Sign: bit 7 of the result. */
  function SignFlag(result: u8): (sign: bool)
    ensures sign <==> result >= 0x80
  {
    BitsOfByte(result);
    SignBit(result as bv8);
    (result as bv8 & 0x80) == 0x80
  }

  /** `x & 0x0F`: the low nibble of a byte. */
  function LowNibble(x: u8): (n: u8)
    ensures n as int == x as int % 16
  {
    BitsOfByte(x);
    LowNibbleBits(x as bv8);
    (x as bv8 & 0x0F) as int as u8
  }

  /** `(x as i8) & 0x0f`: for an `i8` the mask keeps the low four bits of its
      two's-complement form, which are `x as i8 % 16`; that value equals the
      masked byte read as `i8`. */
  lemma CastThenMask(x: u8)
    ensures AsI8(x) as int % 16 == AsI8(LowNibble(x)) as int
  {
  }

  /** Auxiliary carry as the executor computes it: both operands are read as
      `i8`, masked to their low nibbles and subtracted in `i8`; the flag is set
      when the difference is not negative. Masking an `i8` keeps the same bits
      as masking the `u8`, so the masked value is `AsI8(LowNibble(x))`
      (`CastThenMask`). The `i8` subtraction is checked by the newtype and cannot overflow. */
  function AuxCarryFlag(a: u8, operand: u8): (auxCarry: bool)
    ensures auxCarry <==> a as int % 16 >= operand as int % 16
  {
    var lhs := AsI8(LowNibble(a));
    var rhs := AsI8(LowNibble(operand));
    lhs - rhs >= 0
  }

  /** Parity: the lowest bit of the result's population count is clear. */
  function ParityFlag(result: u8): (parity: bool)
    ensures parity <==> BitCount(result as int) % 2 == 0
  {
    CountOnesIsBitCount(result);
    LowBit(CountOnes(result));
    (CountOnes(result) as bv32 & 1) == 0
  }

  /** The bit-level flag rules give the closed-form flags. */
  lemma FlagRulesAgree(a: u8, operand: u8)
    ensures var result := WrappingSub(a, operand);
      CpuFlags(
        sign := SignFlag(result),
        zero := result == 0,
        auxCarry := AuxCarryFlag(a, operand),
        parity := ParityFlag(result),
        carry := a as int as u16 < operand as int as u16)
      == CompareFlags(a, operand)
  {
  }

  /*** The executor ***/

  /** The operand of a CMP opcode: a register, or for 0xBE the byte the
      memory service holds at H:L. Any other opcode is refused. */
  method FetchOperand(cpu: Cpu, oracle: MemoryOracle) returns (operand: Result<u8>)
    ensures IsCmpOpcode(cpu.opcode) ==> operand == ExpectedOperand(cpu, oracle)
    ensures !IsCmpOpcode(cpu.opcode) ==> operand == Err(InvalidOpcode(cpu.opcode))
  {
    var s := cpu.state;
    if cpu.opcode == 0xB8 {
      operand := Ok(s.b);
    } else if cpu.opcode == 0xB9 {
      operand := Ok(s.c);
    } else if cpu.opcode == 0xBA {
      operand := Ok(s.d);
    } else if cpu.opcode == 0xBB {
      operand := Ok(s.e);
    } else if cpu.opcode == 0xBC {
      operand := Ok(s.h);
    } else if cpu.opcode == 0xBD {
      operand := Ok(s.l);
    } else if cpu.opcode == 0xBE {
      var address := AddressOf(s.h, s.l);
      var reply := oracle(cpu.id, address);
      if reply.Failed? {
        operand := Err(MemoryReadFailed(reply.reason));
      } else {
        operand := Ok(reply.value);
      }
    } else if cpu.opcode == 0xBF {
      operand := Ok(s.a);
    } else {
      operand := Err(InvalidOpcode(cpu.opcode));
    }
  }

  /** Executes one CMP instruction on `cpu`: the cycle counter grows by the
      opcode's cost, the operand is fetched (from `oracle` at H:L for 0xBE),
      and the five flags are overwritten from `a - operand`, which is not
      stored. An unknown opcode or a failed memory read yields an error and no
      CPU. */
  method Execute(cpu: Cpu, oracle: MemoryOracle) returns (r: Result<Cpu>)
    ensures r == Expected(cpu, oracle)
  {
    var next := cpu;

    var cost := CycleCost(next.opcode);
    if cost.Err? {
      return Err(cost.error);
    }
    next := next.(state := next.state.(cycles := WrappingAdd(next.state.cycles, cost.value)));

    var fetched := FetchOperand(next, oracle);
    if fetched.Err? {
      return Err(fetched.error);
    }
    var operand := fetched.value;

    var result := WrappingSub(next.state.a, operand);
    var flags := next.state.flags;
    flags := flags.(sign := SignFlag(result));
    flags := flags.(zero := result == 0);
    flags := flags.(auxCarry := AuxCarryFlag(next.state.a, operand));
    flags := flags.(parity := ParityFlag(result));
    flags := flags.(carry := next.state.a as int as u16 < operand as int as u16);
    next := next.(state := next.state.(flags := flags));

    FlagRulesAgree(cpu.state.a, operand);
    assert flags == CompareFlags(cpu.state.a, operand);
    assert Expected(cpu, oracle) == Ok(Compared(cpu, operand, cost.value));
    r := Ok(next);
  }

  /*** Reference description of CMP ***/

  /** The CMP family is `10111sss`, 0xB8 to 0xBF. */
  predicate IsCmpOpcode(opcode: u8)
  {
    0xB8 <= opcode <= 0xBF
  }

  /** The source field `sss` of a CMP opcode: 0 to 5 name B, C, D, E, H, L,
      6 names memory at H:L and 7 names A. */
  function SourceField(opcode: u8): (field: int)
    requires IsCmpOpcode(opcode)
  {
    opcode as int - 0xB8
  }

  ghost function Register(s: CpuState, field: int): (r: u8)
    requires 0 <= field < 8 && field != 6
  {
    match field
    case 0 => s.b
    case 1 => s.c
    case 2 => s.d
    case 3 => s.e
    case 4 => s.h
    case 5 => s.l
    case 7 => s.a
  }

  /** The difference `a - operand` reduced into 0..255. */
  ghost function Difference(a: u8, operand: u8): (result: int)
  {
    (a as int - operand as int) % 0x100
  }

  /** The flags CMP sets, as closed forms on integers. */
  ghost function CompareFlags(a: u8, operand: u8): (flags: CpuFlags)
  {
    var result := Difference(a, operand);
    CpuFlags(
      sign := result >= 0x80,
      zero := result == 0,
      auxCarry := a as int % 16 >= operand as int % 16,
      parity := BitCount(result) % 2 == 0,
      carry := a as int < operand as int)
  }

  /** `cpu` after comparing its accumulator with `operand` at the given cost. */
  ghost function Compared(cpu: Cpu, operand: u8, cost: u64): (next: Cpu)
  {
    var s := cpu.state;
    cpu.(state := s.(
      cycles := WrappingAdd(s.cycles, cost),
      flags := CompareFlags(s.a, operand)))
  }

  /** The operand a CMP opcode names by its source field; for the memory
      source, the reply of the memory service for the address H:L. */
  ghost function ExpectedOperand(cpu: Cpu, oracle: MemoryOracle): (operand: Result<u8>)
    requires IsCmpOpcode(cpu.opcode)
  {
    if SourceField(cpu.opcode) == 6 then
      match oracle(cpu.id, AddressOf(cpu.state.h, cpu.state.l))
      case Byte(v) => Ok(v)
      case Failed(reason) => Err(MemoryReadFailed(reason))
    else
      Ok(Register(cpu.state, SourceField(cpu.opcode)))
  }

  /** What executing `cpu.opcode` on `cpu` yields. */
  ghost function Expected(cpu: Cpu, oracle: MemoryOracle): (r: Result<Cpu>)
  {
    if !IsCmpOpcode(cpu.opcode) then
      Err(InvalidOpcode(cpu.opcode))
    else
      match ExpectedOperand(cpu, oracle)
      case Ok(v) => Ok(Compared(cpu, v, if SourceField(cpu.opcode) == 6 then 7 else 4))
      case Err(e) => Err(e)
  }

  /*** Properties of CMP ***/

  /** An opcode outside 0xB8..0xBF is refused, and only such an opcode is. */
  lemma InvalidOpcodeRejected(cpu: Cpu, oracle: MemoryOracle)
    ensures Expected(cpu, oracle) == Err(InvalidOpcode(cpu.opcode))
            <==> !(0xB8 <= cpu.opcode <= 0xBF)
  {
  }

  /** A failed memory read is reported as such and only arises for 0xBE. */
  lemma MemoryFailureReported(cpu: Cpu, oracle: MemoryOracle)
    ensures Expected(cpu, oracle).Err? && Expected(cpu, oracle).error.MemoryReadFailed?
            <==> cpu.opcode == 0xBE && oracle(cpu.id, AddressOf(cpu.state.h, cpu.state.l)).Failed?
    ensures cpu.opcode == 0xBE && oracle(cpu.id, AddressOf(cpu.state.h, cpu.state.l)).Failed? ==>
            Expected(cpu, oracle)
            == Err(MemoryReadFailed(oracle(cpu.id, AddressOf(cpu.state.h, cpu.state.l)).reason))
  {
  }

  /** The operand each opcode compares with, and the cost it is charged. */
  lemma OperandSelection(cpu: Cpu, oracle: MemoryOracle)
    ensures var s := cpu.state;
      && (cpu.opcode == 0xB8 ==> Expected(cpu, oracle) == Ok(Compared(cpu, s.b, 4)))
      && (cpu.opcode == 0xB9 ==> Expected(cpu, oracle) == Ok(Compared(cpu, s.c, 4)))
      && (cpu.opcode == 0xBA ==> Expected(cpu, oracle) == Ok(Compared(cpu, s.d, 4)))
      && (cpu.opcode == 0xBB ==> Expected(cpu, oracle) == Ok(Compared(cpu, s.e, 4)))
      && (cpu.opcode == 0xBC ==> Expected(cpu, oracle) == Ok(Compared(cpu, s.h, 4)))
      && (cpu.opcode == 0xBD ==> Expected(cpu, oracle) == Ok(Compared(cpu, s.l, 4)))
      && (cpu.opcode == 0xBF ==> Expected(cpu, oracle) == Ok(Compared(cpu, s.a, 4)))
      && (cpu.opcode == 0xBE && oracle(cpu.id, AddressOf(s.h, s.l)).Byte? ==>
            Expected(cpu, oracle) == Ok(Compared(cpu, oracle(cpu.id, AddressOf(s.h, s.l)).value, 7)))
  {
  }

  /** The cycle counter grows by exactly 7 for 0xBE and 4 for the register
      forms, modulo 2^64. */
  lemma CyclesAdvance(cpu: Cpu, oracle: MemoryOracle)
    requires Expected(cpu, oracle).Ok?
    ensures var before := cpu.state.cycles as int;
      var after := Expected(cpu, oracle).value.state.cycles as int;
      var cost := if cpu.opcode == 0xBE then 7 else 4;
      && (before + cost < U64_MODULUS ==> after == before + cost)
      && (before + cost >= U64_MODULUS ==> after == before + cost - U64_MODULUS)
  {
  }

  /** CMP is non-destructive: only the cycle counter and the flags change. */
  lemma NonDestructive(cpu: Cpu, oracle: MemoryOracle)
    requires Expected(cpu, oracle).Ok?
    ensures var next := Expected(cpu, oracle).value;
      var s, t := cpu.state, next.state;
      && next.id == cpu.id && next.opcode == cpu.opcode
      && t.a == s.a && t.b == s.b && t.c == s.c && t.d == s.d
      && t.e == s.e && t.h == s.h && t.l == s.l
      && t.stackPointer == s.stackPointer && t.programCounter == s.programCounter
      && t.interruptsEnabled == s.interruptsEnabled
  {
  }

  /** Zero is set exactly when the two bytes are equal, although the
      subtraction wraps. */
  lemma ZeroIffEqual(a: u8, operand: u8)
    ensures CompareFlags(a, operand).zero <==> a == operand
  {
  }

  /** Carry is set exactly when the subtraction borrowed, that is when the
      wrapped result differs from the exact difference. */
  lemma CarryIffBorrow(a: u8, operand: u8)
    ensures CompareFlags(a, operand).carry <==> Difference(a, operand) != a as int - operand as int
    ensures CompareFlags(a, operand).carry <==> Difference(a, operand) == a as int - operand as int + 0x100
  {
  }

  /** Comparing A with itself always gives zero, even parity and auxiliary
      carry, and neither sign nor carry. */
  lemma SelfCompare(cpu: Cpu, oracle: MemoryOracle)
    requires cpu.opcode == 0xBF
    ensures Expected(cpu, oracle).Ok?
    ensures Expected(cpu, oracle).value.state.flags
            == CpuFlags(sign := false, zero := true, auxCarry := true, parity := true, carry := false)
  {
  }

  /** a = 5 compared with a memory byte of 200 at H:L = 0x0102: the result is
      61, which has five set bits. */
  lemma MemoryCompareExample(cpu: Cpu, oracle: MemoryOracle)
    requires cpu.opcode == 0xBE
    requires cpu.state.a == 5 && cpu.state.h == 0x01 && cpu.state.l == 0x02
    requires oracle(cpu.id, 0x0102) == Byte(200)
    ensures Difference(cpu.state.a, 200) == 61
    ensures Expected(cpu, oracle).Ok?
    ensures Expected(cpu, oracle).value.state.flags
            == CpuFlags(sign := false, zero := false, auxCarry := false, parity := false, carry := true)
  {
    assert Difference(5, 200) == 61;
    assert BitCount(61) == 5;
  }

  /** a = b = 0x0A compared by 0xB8. */
  lemma RegisterCompareExample(cpu: Cpu, oracle: MemoryOracle)
    requires cpu.opcode == 0xB8 && cpu.state.a == 0x0A && cpu.state.b == 0x0A
    requires cpu.state.cycles as int + 4 < U64_MODULUS
    ensures Expected(cpu, oracle).Ok?
    ensures Expected(cpu, oracle).value.state.flags
            == CpuFlags(sign := false, zero := true, auxCarry := true, parity := true, carry := false)
    ensures Expected(cpu, oracle).value.state.cycles == cpu.state.cycles + 4
  {
  }

  /** Executing the same CMP twice sets the same flags again and charges the
      cost twice: CMP reads only registers it does not write, provided the
      memory service answers the same address the same way. */
  lemma RepeatedCompare(cpu: Cpu, oracle: MemoryOracle)
    requires Expected(cpu, oracle).Ok?
    ensures var once := Expected(cpu, oracle).value;
      var cost := if cpu.opcode == 0xBE then 7 else 4;
      && Expected(once, oracle).Ok?
      && Expected(once, oracle).value.state.flags == once.state.flags
      && Expected(once, oracle).value.state.cycles as int
         == (cpu.state.cycles as int + 2 * cost) % U64_MODULUS
  {
    var once := Expected(cpu, oracle).value;
    var cost: u64 := if cpu.opcode == 0xBE then 7 else 4;
    OperandSelection(cpu, oracle);
    OperandSelection(once, oracle);
    WrappingAddTwice(cpu.state.cycles, cost, cost);
  }
}
