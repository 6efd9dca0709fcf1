# CHIP-8 machine state and instruction fetch

This project models the core of a CHIP-8 interpreter at its present stage:
the machine state and the fetch step of its fetch-decode-execute cycle.

The machine (`Chip8.Chip8`) holds three things:

- 4096 bytes of RAM (`ram: array<Byte>`);
- a 64x32 video RAM of 2048 on/off pixels (`vram: array<bool>`);
- a program counter (`pc: nat`).

A new machine has all RAM zero, every pixel off and the program counter at
0x200, the first address of program memory. Addresses below 0x200 are
reserved for the interpreter.

Fetching reads the byte at the program counter and the byte after it. It
composes them big-endian into a 16-bit instruction word: the first byte is
shifted into the upper half and the second is or-ed into the lower half.
The interpreter aborts in two cases:

- the program counter points into the reserved region;
- the second byte lies past the end of RAM, because of the array index check.

The model returns these as the errors `ReservedMemoryAccess` and
`AddressOutOfRange`. A machine step (`Tick`) only fetches; decoding and
executing are not written yet.

Bytes and words are the integer types `Byte` (0 to 255) and `Word` (0 to
65535). The source composes the word with a left shift and a bitwise or.
Both operators are defined on these integers: the shift drops the bits that
leave the 16-bit word, and the or works bit by bit. The lemmas prove that on
two bytes this is the same as multiplying the first by 256 and adding the
second.

The pure function `Chip8.FetchAt` states the fetch over the memory contents
and the program counter. The method `Chip8.Chip8.Fetch` works on the
machine's array and is proved equal to it. The lemmas give the integer
meaning of the word, the byte round trip and the fact that a fetch reads
only two bytes. The two unit tests of the fetch stage are methods whose
contracts state their expected results.

## Model

| member | source | states |
|---|---|---|
| `Chip8.Chip8.constructor` | src/chip8.rs:13-19 | a new machine has RAM of 4096 bytes, all zero; video RAM of 64*32 pixels, all off; and the program counter at 0x200 |
| `Chip8.FetchAt` | src/chip8.rs:21-29 | a fetch fails with ReservedMemoryAccess exactly when pc < 0x200; it fails with AddressOutOfRange exactly when pc >= 0x200 and pc + 1 is not a RAM index; otherwise it succeeds with a word whose high byte is ram[pc], whose low byte is ram[pc+1] and whose value is ram[pc]*256 + ram[pc+1] |
| `Chip8.Chip8.Fetch` | src/chip8.rs:21-29 | the fetch on the machine's own RAM and program counter returns what FetchAt gives for them; having no modifies clause, it changes nothing |
| `Chip8.Chip8.Tick` | src/chip8.rs:31-35 | a step keeps the program counter, the contents of RAM and of video RAM, and the arrays themselves; it faults exactly when the fetch at the program counter fails, with the same error |
| `Chip8.OrBelow` | src/chip8.rs:28 | or-ing two numbers below 2^k gives a number below 2^k, so `\|` on two 16-bit words stays a 16-bit word |
| `Chip8.OrDisjoint` | src/chip8.rs:26-28 | or-ing a number whose low k bits are clear with a number below 2^k gives their sum, since no bit is set in both |
| `Chip8.ComposeValue` | src/chip8.rs:26-28 | the word built by shifting the first byte left by 8 and or-ing in the second has the value first*256 + second |
| `Chip8.SplitCompose` | src/chip8.rs:26-28 | the high byte of a composed word is the first byte and its low byte is the second |
| `Chip8.ComposeSplit` | src/chip8.rs:26-28 | composing the high and low bytes of any 16-bit word gives back that word, so every word is the fetch of some pair of bytes |
| `Chip8.StoreThenFetch` | src/chip8.rs:43-48 | writing any word's high byte at a program address pc and its low byte at pc+1, then fetching at pc, returns that word |
| `Chip8.FetchReadsTwoBytes` | src/chip8.rs:26-27 | two RAMs of the same size that agree at pc and pc+1 give the same fetch result at pc |
| `Chip8.FetchBigEndianExample` | src/chip8.rs:43-48 | on a new machine with 0xA2 at 0x200 and 0xF0 at 0x201, the fetch returns 0xA2F0 |
| `Chip8.FetchReservedExample` | src/chip8.rs:51-57 | on a new machine with the program counter set to 0x1FF, the fetch fails with ReservedMemoryAccess |

## Left out

- src/main.rs: it holds a second machine struct that nothing uses, with an empty step, and an entry point that prints a greeting. There is no logic in it to model.
- Decoding and executing instructions: src/chip8.rs:33-34 leaves both as to-do comments. The opcode catalogue, sprite drawing, call stack, registers, timers, keypad, font table and ROM loading are not part of this code, so they are not modelled. In particular the constructor zeroes all of RAM; no font table is preloaded.
- Aborting the process: the reserved-address panic and the array index failure become error values of `Fetch`. Unwinding is not modelled.
- The width of `pc`: the source's program counter is a machine-sized unsigned integer; here it is a `nat`. The upper bound makes no difference: any pc of 4095 or more fails the index check before pc + 1 could overflow.
- The read-only nature of `fetch` is not restated as an `ensures` clause. `Chip8.Chip8.Fetch` has no modifies clause, so Dafny's framing already rules out any change to the machine or its arrays.
