/**
 Machine words, the RISC-V constants the emulator's core refers to, and the
 build-time configuration of the emulated board.

 Registers, addresses and counters are `uint32_t` in the emulator and are
 modelled as integers in [0, 2^32); shifts and masks on them are written as
 division and remainder by powers of two, which is what they compute on
 unsigned values. Words that the emulator updates bit by bit (`sip`,
 `plic.active`) are `bv32`.
 */
module Machine {

  const WORD_RANGE: int := 0x1_0000_0000

  /** C's `uint32_t`. */
  type u32 = x: int | 0 <= x < 0x1_0000_0000

  /** C's `int32_t`. */
  type i32 = x: int | -0x8000_0000 <= x < 0x8000_0000

  /** `(uint32_t) x`: the value modulo 2^32. */
  function ToU32(x: i32): (r: u32)
    ensures (r - x) % WORD_RANGE == 0
    ensures 0 <= x ==> r == x
  {
    if x < 0 then x + WORD_RANGE else x
  }

  /**
   `(int32_t) w`: the two's-complement reading of a register. Out-of-range
   conversions are implementation-defined in C; this is the modular
   conversion every compiler the emulator targets performs.
   */
  function ToI32(w: u32): (r: i32)
    ensures (w - r) % WORD_RANGE == 0
    ensures w < 0x8000_0000 ==> r == w
  {
    if w < 0x8000_0000 then w else w - WORD_RANGE
  }

  /** Conversion of a wider integer constant to `int32_t`, modulo 2^32. */
  function WrapI32(x: int): (r: i32)
    ensures (x - r) % WORD_RANGE == 0
    ensures -0x8000_0000 <= x < 0x8000_0000 ==> r == x
  {
    ToI32(x % WORD_RANGE)
  }

  lemma ConversionsRoundTrip(x: i32, w: u32)
    ensures ToI32(ToU32(x)) == x
    ensures ToU32(ToI32(w)) == w
  {
  }

  /** Integer register numbers of the RISC-V calling convention. */
  const REG_A0: nat := 10
  const REG_A1: nat := 11
  const REG_A6: nat := 16
  const REG_A7: nat := 17
  const REG_COUNT: nat := 32

  /** Exception cause codes of the RISC-V privileged architecture. */
  const EXC_FETCH_FAULT: u32 := 1
  const EXC_LOAD_FAULT: u32 := 5
  const EXC_STORE_FAULT: u32 := 7
  const EXC_ECALL_S: u32 := 9

  /** The supervisor timer interrupt-pending bit of `sip` (bit 5). */
  const INT_STI_BIT: bv32 := 1 << 5

  /** The emulator's error state after a step: none, a pending exception, or a fatal error. */
  datatype VmError = ErrNone | ErrException | ErrOther

  /**
   Build-time parameters of the emulated board: the RAM size, the PLIC
   interrupt line masks of the three devices, and whether the virtio-net and
   virtio-blk devices are compiled in.
   */
  datatype Config = Config(
    ramSize: u32,
    irqUartBit: bv32,
    irqVnetBit: bv32,
    irqVblkBit: bv32,
    hasVirtioNet: bool,
    hasVirtioBlk: bool)

  /** `word |= mask`: raise the lines of `mask`. */
  function WithBits(word: bv32, mask: bv32): bv32
  {
    word | mask
  }

  /** `word &= ~mask`: lower the lines of `mask`. */
  function WithoutBits(word: bv32, mask: bv32): bv32
  {
    word & !mask
  }

  /** Raise the lines of `mask` in `word` when `on`, lower them otherwise. */
  function SetBits(word: bv32, mask: bv32, on: bool): bv32
  {
    if on then WithBits(word, mask) else WithoutBits(word, mask)
  }

  /** Raising lines makes every bit of `mask` one and keeps every other bit. */
  lemma WithBitsEffect(word: bv32, mask: bv32)
    ensures WithBits(word, mask) & mask == mask
    ensures WithBits(word, mask) & !mask == word & !mask
  {
  }

  /** Lowering lines makes every bit of `mask` zero and keeps every other bit. */
  lemma WithoutBitsEffect(word: bv32, mask: bv32)
    ensures WithoutBits(word, mask) & mask == 0
    ensures WithoutBits(word, mask) & !mask == word & !mask
  {
  }

  /**
   Setting an interrupt line: its bits are ones exactly when `on`, and every
   other line keeps its state.
   */
  lemma SetBitsEffect(word: bv32, mask: bv32, on: bool)
    ensures on ==> SetBits(word, mask, on) & mask == mask
    ensures !on ==> SetBits(word, mask, on) & mask == 0
    ensures SetBits(word, mask, on) & !mask == word & !mask
  {
    if on {
      WithBitsEffect(word, mask);
    } else {
      WithoutBitsEffect(word, mask);
    }
  }
}
