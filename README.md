# CMP executor of an Intel 8080 emulator service

This project is a Dafny model of the service that executes the 8080 CMP
instruction family. The service receives a whole CPU snapshot with an opcode,
executes one CMP and returns the snapshot. Opcodes 0xB8–0xBD and 0xBF compare
the accumulator `a` with register `b`, `c`, `d`, `e`, `h`, `l` or `a`. Opcode
0xBE compares `a` with the memory byte at the address that `h:l` forms, which
it fetches from a memory service. The executor adds the opcode's cycle cost
(7 for memory, 4 for a register). It computes `a - operand` with 8-bit
wrap-around but does not store it. It then overwrites the five flags: sign,
zero, auxiliary carry, parity and carry.

The project has two files:

- `rust_ints.dfy` (module `RustInts`) models the Rust integer types `u8`, `u16`,
  `u64` and `i8` as integers with their Rust ranges. It also models the
  primitives the executor uses: `wrapping_sub`, wrap-around `+=` on `u64`,
  `as i8` and `count_ones`. Bitwise operators go through Dafny's bit-vector
  view of the same value. Small lemmas connect that view to the integer
  value. `count_ones` is proved equal to a reference population count.
- `cmp.dfy` (module `Cmp`) holds the `CpuFlags`, `CpuState` and `Cpu` records,
  the flag rules at the bit level, and the executor itself:
  - `Execute` follows the service step by step. It works on a local copy of
    the record, as the Rust function does with its `mut cpu`.
  - `FetchOperand` is the operand `match`.
  - `Expected` (with `ExpectedOperand`, `Compared` and `CompareFlags`) is an
    independent description of CMP. It takes the operand from the 8080
    encoding `10111sss`, where the low three bits name B, C, D, E, H, L,
    memory or A. It states every flag as a closed form on unbounded integers.
  
  `Execute` is proved to return exactly `Expected`. The properties of CMP are
  then proved as lemmas about `Expected`.

Rust structs are owned values, and the function takes its argument by value
and returns it. So the records are datatypes, and `Execute` is a method that
updates a local copy field by field: first `cycles`, then the five flags one
by one.

The memory service is a parameter: `oracle: (string, u16) -> MemoryReply`.
It receives the CPU identifier and the address. It returns either a byte or
one of three failures:

- `MissingConfiguration`: the service URL environment variable is not set.
- `Unavailable`: the request or the retrieval of the body failed.
- `MalformedResponse`: the body is not a decimal byte.

In each of these cases, and on an unknown opcode, the source panics and the
request gets no reply. The model returns `Err(...)` instead, and no CPU
snapshot. So a refused request changes no field that anyone can observe.

The auxiliary-carry rule is kept as the source writes it at
src/main.rs:77. The source reads both operands as `i8`, masks them to their
low nibbles and subtracts them in `i8`. The flag is set when the difference
is not negative. The model proves that this `i8` subtraction cannot overflow,
and that the flag is set exactly when `a % 16 >= operand % 16`. This is not
the textbook 8080 half-borrow rule, and the model does not replace it with
that rule.

## Model

| member | source | states |
|---|---|---|
| RustInts.WrappingSub | src/main.rs:74 | `a.wrapping_sub(operand)` is the byte that, added to `operand` modulo 256, gives `a`. It is the exact difference when `operand <= a` and the difference plus 256 otherwise. |
| RustInts.WrappingAdd | src/main.rs:42 | `cycles += cost` on `u64` is the exact sum below 2^64 and the sum minus 2^64 when it overflows. |
| RustInts.WrappingAddTwice | src/main.rs:42 | Two wrapping additions equal the total sum reduced modulo 2^64. |
| RustInts.AsI8 | src/main.rs:77 | `x as i8` reads the same bits in two's complement: it is congruent to `x` modulo 256, and it is non-negative exactly when `x < 0x80`. |
| RustInts.CountLowOnes | src/main.rs:78 | The count of set bits among the `k` lowest bits is at most `k`. |
| RustInts.CountOnes | src/main.rs:78 | `count_ones` of a byte is at most 8. |
| RustInts.CountLowOnesIsBitCount | src/main.rs:78 | Counting the `k` low bits of a value below 2^k gives its binary population count. |
| RustInts.CountOnesIsBitCount | src/main.rs:78 | The bit-level `count_ones` equals the reference population count on naturals. |
| Cmp.CycleCost | src/main.rs:42-46 | The cost is defined exactly for 0xB8–0xBF: 7 for 0xBE and 4 for the other seven. Every other opcode is refused with `InvalidOpcode(opcode)`. |
| Cmp.AddressOf | src/main.rs:60 | Shifting `h` into the high byte and combining it with `l` gives `h * 256 + l`, so it lies in 0..65535. |
| Cmp.SignFlag | src/main.rs:75 | `(result & 0x80) == 0x80` holds exactly when `result >= 128`. |
| Cmp.LowNibble | src/main.rs:77 | `x & 0x0F` equals `x % 16`. |
| Cmp.CastThenMask | src/main.rs:77 | Masking `x as i8` to its low nibble gives the same value as reading the masked `u8` as `i8`, so masking before the cast matches the source's cast-then-mask order. |
| Cmp.AuxCarryFlag | src/main.rs:77 | The `i8` form of the rule cannot overflow, and it is true exactly when `a % 16 >= operand % 16`. |
| Cmp.ParityFlag | src/main.rs:78 | `(count_ones(result) & 1) == 0` holds exactly when the population count of `result` is even. |
| Cmp.FlagRulesAgree | src/main.rs:74-79 | The five bit-level flag rules, applied to `a` and `operand`, give exactly the closed-form flags `CompareFlags(a, operand)`. |
| Cmp.FetchOperand | src/main.rs:48-72 | The operand `match`: for a CMP opcode it returns the operand its source field names, and for 0xBE the memory reply at `h:l`, including a read failure. Any other opcode gives `InvalidOpcode`. |
| Cmp.Execute | src/main.rs:41-82 | The executor returns exactly `Expected(cpu, oracle)`: a refused opcode, a failed read, or the CPU with its cycle counter advanced and its flags set by the closed forms. |
| Cmp.InvalidOpcodeRejected | src/main.rs:42-46 | The result is `Err(InvalidOpcode(opcode))` exactly when the opcode is outside 0xB8–0xBF. |
| Cmp.MemoryFailureReported | src/main.rs:55-68 | A memory-read error arises exactly for 0xBE when the service fails at address `h:l`, and it carries the service's reason. |
| Cmp.OperandSelection | src/main.rs:48-70 | Opcodes 0xB8→b, 0xB9→c, 0xBA→d, 0xBB→e, 0xBC→h, 0xBD→l and 0xBF→a compare at cost 4. Opcode 0xBE compares with the byte the service returns for `h:l`, at cost 7. |
| Cmp.CyclesAdvance | src/main.rs:42-44 | On success the counter grows by exactly 7 for 0xBE and by 4 otherwise, modulo 2^64. |
| Cmp.NonDestructive | src/main.rs:41-82 | On success, `a`, `b`, `c`, `d`, `e`, `h`, `l`, the stack pointer, the program counter, `interruptsEnabled`, the id and the opcode are all unchanged. |
| Cmp.ZeroIffEqual | src/main.rs:76 | Zero is set exactly when `a == operand`, even though the subtraction wraps. |
| Cmp.CarryIffBorrow | src/main.rs:79 | Carry (`a < operand` unsigned) is set exactly when the wrapped result differs from the exact difference, that is, when it is the difference plus 256. |
| Cmp.SelfCompare | src/main.rs:70-79 | 0xBF always succeeds, with zero, parity and auxCarry set and sign and carry clear. |
| Cmp.MemoryCompareExample | src/main.rs:55-79 | a = 5 against a memory byte of 200 at `h:l` = 0x0102 gives result 61: carry set, and zero, sign, parity and auxCarry clear. |
| Cmp.RegisterCompareExample | src/main.rs:49-79 | a = b = 0x0A with 0xB8 gives zero, parity and auxCarry set, sign and carry clear, and cycles + 4. |
| Cmp.RepeatedCompare | src/main.rs:41-82 | Executing the same CMP again on the result succeeds, sets the same flags again, and charges the cost a second time. This assumes the memory service answers the same address the same way. |

## Left out

- HTTP transport, routing, the request body size limit and JSON (de)serialisation (src/main.rs:1-8, 84-107). The model takes and returns the records directly.
- The `/status` health check and the debug `readMemory` endpoint, which answers 10 to any request with an `address` parameter and panics otherwise. Neither takes part in executing CMP.
- The memory read as network I/O. This covers the environment-variable lookup, the HTTP request, async retrieval of the body and `parse::<u8>()` of the text. The `oracle` parameter replaces all of them; its three failure kinds are listed above and are not told apart further.
- Async execution and concurrency between requests. Each call is independent.
- Panics (`panic!`, `unwrap`). The source panics and the request gets no reply. The model returns an `Err` result instead, with no CPU snapshot.
- The second `match` in the source (src/main.rs:48-72) repeats the `_ => panic!` arm. That arm cannot be reached, because the cycle-cost `match` has already refused every other opcode. `FetchOperand` keeps that arm as an `InvalidOpcode` result; `Execute` never reaches it.
- Execute: the cycle counter wraps modulo 2^64, as a release build does. A debug build of the source panics on that overflow instead; the model does not capture that panic.
- RepeatedCompare: this lemma treats the memory service as a function of the identifier and the address. A service whose memory changes between two calls is not modelled.
