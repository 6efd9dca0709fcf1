/**
  A model of the CHIP-8 machine state and its instruction-fetch stage.

  The machine owns 4096 bytes of RAM, a 64x32 monochrome video RAM and a
  program counter. Fetching reads the two bytes at the program counter and
  composes them big-endian into a 16-bit instruction word. Addresses below
  0x200 belong to the interpreter and are never fetched from; an address
  whose second byte lies past the end of RAM cannot be fetched either.
  Both conditions abort the interpreter; here they are explicit errors.
 */
module Chip8 {

  const WIDTH: nat := 64
  const HEIGHT: nat := 32
  const RAM_SIZE: nat := 4096
  const VRAM_SIZE: nat := WIDTH * HEIGHT

  /** First address of program memory; everything below is reserved. */
  const PROGRAM_START: nat := 0x200

  /** The two ways a fetch can abort the interpreter. */
  datatype FetchError =
    | ReservedMemoryAccess  // the program counter points into the reserved region
    | AddressOutOfRange     // one of the two bytes lies past the end of RAM

  datatype Result<T> = Ok(value: T) | Err(error: FetchError)

  /** What one step of the machine reports to its host. */
  datatype Outcome = Continue | Fault(error: FetchError)

  // ---------------------------------------------------------------------
  // Unsigned machine integers and the bit operations fetch uses
  // ---------------------------------------------------------------------

  /** An unsigned 8-bit integer: one cell of RAM. */
  newtype Byte = x: int | 0 <= x < 0x100

  /** An unsigned 16-bit integer: one instruction word. */
  newtype Word = x: int | 0 <= x < 0x1_0000

  function Pow2(k: nat): (p: nat)
    ensures p >= 1
  {
    if k == 0 then 1 else 2 * Pow2(k - 1)
  }

  /** Bitwise or of two unsigned integers, lowest bit first. */
  function BitOr(a: nat, b: nat): nat
    decreases a + b
  {
    if a == 0 then b
    else if b == 0 then a
    else 2 * BitOr(a / 2, b / 2) + (if a % 2 == 1 || b % 2 == 1 then 1 else 0)
  }

  /** Or-ing two k-bit numbers gives a k-bit number. */
  lemma {:induction false} OrBelow(a: nat, b: nat, k: nat)
    requires a < Pow2(k) && b < Pow2(k)
    ensures BitOr(a, b) < Pow2(k)
  {
    if k > 0 && a != 0 && b != 0 {
      OrBelow(a / 2, b / 2, k - 1);
    }
  }

  /**
    Or-ing a number whose low k bits are clear with a number below 2^k
    adds them: no bit is set in both.
   */
  lemma {:induction false} OrDisjoint(m: nat, b: nat, k: nat)
    requires b < Pow2(k)
    ensures BitOr(m * Pow2(k), b) == m * Pow2(k) + b
  {
    if k > 0 && m != 0 && b != 0 {
      assert m * Pow2(k) == 2 * (m * Pow2(k - 1));
      OrDisjoint(m, b / 2, k - 1);
    }
  }

  /** The `|` operator on 16-bit words. */
  function Or16(a: Word, b: Word): Word
  {
    assert Pow2(8) == 0x100;
    assert Pow2(16) == 0x1_0000;
    OrBelow(a as nat, b as nat, 16);
    BitOr(a as nat, b as nat) as Word
  }

  /** The `<< 8` operator on 16-bit words: bits shifted past the top are lost. */
  function ShiftLeft8(w: Word): Word
  {
    (w as int * 0x100 % 0x1_0000) as Word
  }

  // ---------------------------------------------------------------------
  // Instruction words: two bytes, most significant first
  // ---------------------------------------------------------------------

  /** The first byte widened and shifted into the upper half, the second or-ed below it. */
  function Compose(hi: Byte, lo: Byte): Word
  {
    Or16(ShiftLeft8(hi as Word), lo as Word)
  }

  /** The upper half of a word (`w >> 8` narrowed to a byte). */
  function HighByte(w: Word): Byte
  {
    (w / 0x100) as Byte
  }

  /** The lower half of a word (`w` truncated to a byte). */
  function LowByte(w: Word): Byte
  {
    (w % 0x100) as Byte
  }

  /** The word, read as an unsigned number, is the first byte times 256 plus the second. */
  lemma ComposeValue(hi: Byte, lo: Byte)
    ensures Compose(hi, lo) as int == hi as int * 0x100 + lo as int
  {
    assert Pow2(8) == 0x100;
    OrDisjoint(hi as nat, lo as nat, 8);
  }

  /** Splitting a composed word gives back the two bytes it was made of. */
  lemma SplitCompose(hi: Byte, lo: Byte)
    ensures HighByte(Compose(hi, lo)) == hi
    ensures LowByte(Compose(hi, lo)) == lo
  {
    ComposeValue(hi, lo);
  }

  /** Composing the two halves of a word gives back the word. */
  lemma ComposeSplit(w: Word)
    ensures Compose(HighByte(w), LowByte(w)) == w
  {
    ComposeValue(HighByte(w), LowByte(w));
  }

  // ---------------------------------------------------------------------
  // Fetch, as a function of the memory contents and the program counter
  // ---------------------------------------------------------------------

  /**
    The instruction word at `pc` in `ram`: refused inside the reserved
    region, refused when either byte is out of range, otherwise the two
    bytes composed big-endian.
   */
  function FetchAt(ram: seq<Byte>, pc: nat): (r: Result<Word>)
    ensures r == Err(ReservedMemoryAccess) <==> pc < PROGRAM_START
    ensures r == Err(AddressOutOfRange) <==> PROGRAM_START <= pc && |ram| <= pc + 1
    ensures r.Ok? <==> PROGRAM_START <= pc && pc + 1 < |ram|
    ensures r.Ok? ==> HighByte(r.value) == ram[pc] && LowByte(r.value) == ram[pc + 1]
    ensures r.Ok? ==> r.value as int == ram[pc] as int * 0x100 + ram[pc + 1] as int
  {
    if pc < PROGRAM_START then
      Err(ReservedMemoryAccess)
    else if |ram| <= pc + 1 then
      Err(AddressOutOfRange)
    else
      SplitCompose(ram[pc], ram[pc + 1]);
      Ok(Compose(ram[pc], ram[pc + 1]))
  }

  /** Storing a word big-endian at a program address and fetching it back yields that word. */
  lemma StoreThenFetch(ram: seq<Byte>, pc: nat, w: Word)
    requires PROGRAM_START <= pc && pc + 1 < |ram|
    ensures FetchAt(ram[pc := HighByte(w)][pc + 1 := LowByte(w)], pc) == Ok(w)
  {
    ComposeSplit(w);
  }

  /** A fetch depends on nothing in RAM but the two bytes at `pc` (and the size of RAM). */
  lemma FetchReadsTwoBytes(ram: seq<Byte>, ram': seq<Byte>, pc: nat)
    requires |ram| == |ram'|
    requires pc < |ram| ==> ram[pc] == ram'[pc]
    requires pc + 1 < |ram| ==> ram[pc + 1] == ram'[pc + 1]
    ensures FetchAt(ram, pc) == FetchAt(ram', pc)
  {
  }

  // ---------------------------------------------------------------------
  // The machine
  // ---------------------------------------------------------------------

  class Chip8 {
    var ram: array<Byte>
    var vram: array<bool>
    var pc: nat

    /** The memories have the sizes the machine is declared with. */
    ghost predicate Valid()
      reads this
    {
      ram.Length == RAM_SIZE && vram.Length == VRAM_SIZE
    }

    /** A machine with all RAM zero, every pixel off and the program counter at 0x200. */
    constructor ()
      ensures Valid() && fresh(ram) && fresh(vram)
      ensures pc == PROGRAM_START
      ensures forall i :: 0 <= i < RAM_SIZE ==> ram[i] == 0
      ensures forall i :: 0 <= i < VRAM_SIZE ==> !vram[i]
    {
      ram := new Byte[RAM_SIZE](_ => 0);
      vram := new bool[VRAM_SIZE](_ => false);
      pc := PROGRAM_START;
    }

    /**
      The instruction word at the program counter. Without a modifies
      clause the method can change neither the machine nor its memories.
     */
    method Fetch() returns (r: Result<Word>)
      requires Valid()
      ensures r == FetchAt(ram[..], pc)
    {
      if pc < PROGRAM_START {
        return Err(ReservedMemoryAccess);
      }
      if ram.Length <= pc {
        return Err(AddressOutOfRange);
      }
      var first := ShiftLeft8(ram[pc] as Word);
      if ram.Length <= pc + 1 {
        return Err(AddressOutOfRange);
      }
      var second := ram[pc + 1] as Word;
      r := Ok(Or16(first, second));
    }

    /**
      One machine step. Decoding and executing are not implemented, so a
      step only fetches: it faults exactly when the fetch does and leaves
      the program counter, RAM and video RAM as they were.
     */
    method Tick() returns (outcome: Outcome)
      requires Valid()
      modifies this, ram, vram
      ensures Valid() && ram == old(ram) && vram == old(vram)
      ensures pc == old(pc) && ram[..] == old(ram[..]) && vram[..] == old(vram[..])
      ensures outcome.Fault? <==> FetchAt(ram[..], pc).Err?
      ensures outcome.Fault? ==> outcome.error == FetchAt(ram[..], pc).error
    {
      var opcode := Fetch();
      if opcode.Err? {
        return Fault(opcode.error);
      }
      outcome := Continue;
    }
  }

  // ---------------------------------------------------------------------
  // The two unit tests of the fetch stage
  // ---------------------------------------------------------------------

  /** With 0xA2, 0xF0 stored at 0x200 on a new machine, the fetched word is 0xA2F0. */
  method FetchBigEndianExample() returns (r: Result<Word>)
    ensures r == Ok(0xA2F0)
  {
    var chip := new Chip8();
    chip.ram[chip.pc] := 0xA2;
    chip.ram[chip.pc + 1] := 0xF0;
    r := chip.Fetch();
  }

  /** With the program counter moved to 0x1FF, the fetch is refused as reserved. */
  method FetchReservedExample() returns (r: Result<Word>)
    ensures r == Err(ReservedMemoryAccess)
  {
    var chip := new Chip8();
    chip.pc := 0x1FF;
    r := chip.Fetch();
  }
}
