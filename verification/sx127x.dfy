/**
 * The MicroPython SX1276/77/78/79 LoRa driver, against a model of the chip
 * as a register map. The driver talks to the chip in SPI frames: a read
 * sends the address with bit 7 clear, a write sends it with bit 7 set
 * followed by the value. The chip keeps 128 registers and a 256-byte FIFO;
 * IRQ_FLAGS is write-one-to-clear and REG_FIFO reads walk FIFO_ADDR_PTR.
 *
 * Python integers are unbounded; every value the driver sends is reduced to
 * its low byte by `& 0xFF` or by the SPI byte, so register values are bytes
 * and each Python expression is written out on the low byte it produces.
 * Bitwise operators are spelled out bit by bit (`OrBits`, `AndNotBits`).
 */
module Sx127x {
  import opened Wrappers
  import opened Bytes

  const REG_FIFO: byte := 0x00
  const REG_OP_MODE: byte := 0x01
  const REG_FRF_MSB: byte := 0x06
  const REG_FRF_MID: byte := 0x07
  const REG_FRF_LSB: byte := 0x08
  const REG_PA_CONFIG: byte := 0x09
  const REG_OCP: byte := 0x0B
  const REG_LNA: byte := 0x0C
  const REG_FIFO_ADDR_PTR: byte := 0x0D
  const REG_FIFO_TX_BASE: byte := 0x0E
  const REG_FIFO_RX_BASE: byte := 0x0F
  const REG_FIFO_RX_CURRENT: byte := 0x10
  const REG_IRQ_FLAGS: byte := 0x12
  const REG_RX_NB_BYTES: byte := 0x13
  const REG_PKT_SNR: byte := 0x19
  const REG_PKT_RSSI: byte := 0x1A
  const REG_MODEM_CFG1: byte := 0x1D
  const REG_MODEM_CFG2: byte := 0x1E
  const REG_PREAMBLE_MSB: byte := 0x20
  const REG_PREAMBLE_LSB: byte := 0x21
  const REG_MODEM_CFG3: byte := 0x26
  const REG_SYNC_WORD: byte := 0x39
  const REG_DIO_MAPPING1: byte := 0x40
  const REG_VERSION: byte := 0x42

  const MODE_SLEEP: byte := 0x00
  const MODE_STANDBY: byte := 0x01
  const MODE_RX_CONTINUOUS: byte := 0x05
  const LORA_MODE_BIT: byte := 0x80

  /** IRQ flag positions: RX_DONE is 0x40, PAYLOAD_CRC_ERROR is 0x20. */
  const IRQ_RX_DONE_BIT: nat := 6
  const IRQ_CRC_ERROR_BIT: nat := 5

  /** The silicon revision an SX1276/77/78/79 reports. */
  const CHIP_VERSION: byte := 0x12

  const NUM_REGS: nat := 128
  const FIFO_SIZE: nat := 256

  // ── Bits ─────────────────────────────────────────────────────────────────

  const BYTE_BITS: nat := 8

  function Pow2(k: nat): (p: nat)
    ensures p >= 1
  {
    if k == 0 then 1 else 2 * Pow2(k - 1)
  }

  /** Whether bit k of v is set (`v & (1 << k) != 0`). */
  predicate Bit(v: int, k: nat) {
    (v / Pow2(k)) % 2 == 1
  }

  /** The low n bits of `a | b`. */
  function OrBits(a: int, b: int, n: nat): (r: nat)
    ensures r < Pow2(n)
    decreases n
  {
    if n == 0 then 0
    else (if a % 2 == 1 || b % 2 == 1 then 1 else 0) + 2 * OrBits(a / 2, b / 2, n - 1)
  }

  /** The low n bits of `a & ~b`. */
  function AndNotBits(a: int, b: int, n: nat): (r: nat)
    ensures r < Pow2(n)
    decreases n
  {
    if n == 0 then 0
    else (if a % 2 == 1 && b % 2 == 0 then 1 else 0) + 2 * AndNotBits(a / 2, b / 2, n - 1)
  }

  /** `a | b` on bytes. */
  function Or(a: byte, b: byte): byte {
    OrBits(a, b, BYTE_BITS)
  }

  lemma {:induction false} OrZero(a: nat, n: nat)
    requires a < Pow2(n)
    ensures OrBits(a, 0, n) == a
  {
    if n > 0 {
      OrZero(a / 2, n - 1);
    }
  }

  /** OR-ing a value into the zero bits below a shifted one is addition. */
  lemma {:induction false} OrShifted(a: nat, b: nat, k: nat, n: nat)
    requires k <= n && b < Pow2(k) && a * Pow2(k) < Pow2(n)
    ensures OrBits(a * Pow2(k), b, n) == a * Pow2(k) + b
    decreases k
  {
    if k == 0 {
      OrZero(a, n);
    } else {
      assert a * Pow2(k) == 2 * (a * Pow2(k - 1));
      OrShifted(a, b / 2, k - 1, n - 1);
    }
  }

  /** Setting bit 7 of a 7-bit value adds 128. */
  lemma OrHighBit(v: byte)
    requires v < 128
    ensures Or(0x80, v) == 0x80 + v
  {
    Pow2Values();
    OrShifted(1, v, 7, BYTE_BITS);
  }

  /** Writing all ones to a write-one-to-clear register clears every bit. */
  lemma {:induction false} AndNotAll(a: int, n: nat)
    ensures AndNotBits(a, Pow2(n) - 1, n) == 0
    decreases n
  {
    if n > 0 {
      assert (Pow2(n) - 1) % 2 == 1 && (Pow2(n) - 1) / 2 == Pow2(n - 1) - 1;
      AndNotAll(a / 2, n - 1);
    }
  }

  // ── SPI frames ─────────────────────────────────────────────────────────────

  /** Python's `v & 0xFF`: the low byte of any integer, negative ones included. */
  function LowByte(v: int): (b: byte)
    ensures (v - b) % 256 == 0
    ensures 0 <= v < 256 ==> b == v
  {
    v % 256
  }

  /** _read_reg's command byte: `addr & 0x7F`. */
  function ReadFrame(addr: byte): seq<byte> {
    [addr % 128]
  }

  /** _write_reg's frame: `addr | 0x80`, then `val & 0xFF`. */
  function WriteFrame(addr: byte, val: int): seq<byte> {
    [addr % 128 + 128, LowByte(val)]
  }

  /** How the chip reads a frame's first byte: bit 7 selects a write, bits 6..0 are the register. */
  function DecodeCommand(b: byte): (cmd: (bool, byte))
    ensures cmd.1 < 128
  {
    (b >= 128, b % 128)
  }

  /** The chip sees a read frame as a read and a write frame as a write, each of the register the driver meant. */
  lemma FramesDecode(addr: byte, val: int)
    requires addr < 128
    ensures DecodeCommand(ReadFrame(addr)[0]) == (false, addr)
    ensures DecodeCommand(WriteFrame(addr, val)[0]) == (true, addr)
  {
  }

  /** The register file after the chip takes a write of `v` to register `a`: IRQ_FLAGS clears the bits set in `v`, any other register takes `v`. */
  function RegisterWrite(regs: seq<byte>, a: byte, v: byte): (r: seq<byte>)
    requires |regs| == NUM_REGS && a < 128
    ensures |r| == NUM_REGS
    ensures forall i :: 0 <= i < NUM_REGS && i != a ==> r[i] == regs[i]
    ensures a == REG_IRQ_FLAGS ==> r[a] == AndNotBits(regs[a], v, BYTE_BITS)
    ensures a != REG_IRQ_FLAGS ==> r[a] == v
  {
    regs[a := if a == REG_IRQ_FLAGS then AndNotBits(regs[a], v, BYTE_BITS) else v]
  }

  /** `n` bytes read from the FIFO starting at `ptr`, wrapping at its end. */
  function FifoBurst(fifo: seq<byte>, ptr: byte, n: byte): (data: seq<byte>)
    requires |fifo| == FIFO_SIZE
    ensures |data| == n
    ensures forall i :: 0 <= i < n ==> data[i] == fifo[(ptr + i) % FIFO_SIZE]
  {
    seq(n, i requires 0 <= i < n => fifo[(ptr + i) % FIFO_SIZE])
  }

  // ── Register values ──────────────────────────────────────────────────────

  /** The synthesizer step FXOSC / 2^19 in Hz, FXOSC being 32 MHz. */
  const FSTEP: real := 32_000_000.0 / 524288.0

  /**
   * `int(freq / _FSTEP)`: the number of whole synthesizer steps in the
   * carrier frequency, computed on exact reals. The interpreter's floats
   * (single precision on the Pico) round the quotient; that rounding is not
   * modelled.
   */
  function Frf(freq: nat): (frf: nat)
    ensures frf as real * FSTEP <= freq as real < (frf + 1) as real * FSTEP
  {
    var frf := freq * 256 / 15625;
    assert FSTEP == 15625.0 / 256.0;
    assert frf * 15625 <= freq * 256 < (frf + 1) * 15625;
    frf
  }

  /** `(v >> 8k) & 0xFF` on a Python integer. */
  function ByteAt(v: int, k: nat): byte {
    (v / Pow2(8 * k)) % 256
  }

  /** The three FRF registers, most significant first. */
  function FrfBytes(frf: nat): (b: seq<byte>)
    ensures |b| == 3
  {
    [ByteAt(frf, 2), ByteAt(frf, 1), ByteAt(frf, 0)]
  }

  lemma Pow2Values()
    ensures Pow2(0) == 1 && Pow2(1) == 2 && Pow2(4) == 16 && Pow2(7) == 128
    ensures Pow2(8) == 256 && Pow2(16) == 65536 && Pow2(BYTE_BITS) == 256
  {
    assert Pow2(4) == 16;
    assert Pow2(8) == 256;
    assert Pow2(12) == 4096;
  }

  /** The three FRF bytes hold the whole register value whenever it fits in 24 bits. */
  lemma FrfBytesRoundTrip(frf: nat)
    requires frf < 0x100_0000
    ensures var b := FrfBytes(frf); b[0] as int * 65536 + b[1] as int * 256 + b[2] as int == frf
  {
    Pow2Values();
    var q := frf / 256;
    var hi, mid, lo := q / 256, q % 256, frf % 256;
    assert frf == hi * 65536 + mid * 256 + lo;
    assert frf / 65536 == hi;
    var b := FrfBytes(frf);
    assert b[0] == hi && b[1] == mid && b[2] == lo;
  }

  /** Every carrier below 1.024 GHz (2^24 steps) fits the FRF registers; 915 MHz gives 0xE4C000. */
  lemma FrfFits(freq: nat)
    requires freq < 1_024_000_000
    ensures Frf(freq) < 0x100_0000
    ensures freq == 915_000_000 ==> Frf(freq) == 0xE4C000 && FrfBytes(Frf(freq)) == [0xE4, 0xC0, 0x00]
  {
    Pow2Values();
  }

  /** The preamble length registers: high byte, low byte. */
  function PreambleBytes(preamble: int): (b: seq<byte>)
    ensures |b| == 2
    ensures 0 <= preamble < 65536 ==> b[0] as int * 256 + b[1] as int == preamble
  {
    Pow2Values();
    [ByteAt(preamble, 1), ByteAt(preamble, 0)]
  }

  /** The bandwidth table of the datasheet, Hz to register code. */
  const BW_TABLE: map<int, int> := map[
    7_800 := 0, 10_400 := 1, 15_600 := 2, 20_800 := 3, 31_250 := 4,
    41_700 := 5, 62_500 := 6, 125_000 := 7, 250_000 := 8, 500_000 := 9]

  /** `_BW_TABLE.get(bw, 7)`: a listed bandwidth's code, and 125 kHz's code for anything else. */
  function BandwidthCode(bwHz: int): (code: int)
    ensures 0 <= code <= 9
    ensures bwHz !in BW_TABLE ==> code == 7
    ensures bwHz in BW_TABLE ==> code == BW_TABLE[bwHz]
  {
    if bwHz in BW_TABLE then BW_TABLE[bwHz] else 7
  }

  /** The table is strictly increasing: wider bandwidths get larger codes, so no two bandwidths share one. */
  lemma BandwidthCodeOrdered(a: int, b: int)
    requires a in BW_TABLE && b in BW_TABLE && a < b
    ensures BandwidthCode(a) < BandwidthCode(b)
  {
  }

  /** `(v << k) & 0xFF` on a Python integer. */
  function ShiftedByte(v: int, k: nat): byte {
    (v * Pow2(k)) % 256
  }

  /** MODEM_CONFIG1: `(bw_val << 4) | ((cr - 4) << 1)`, as the byte written. */
  function ModemConfig1(bwHz: int, cr: int): byte {
    Or(ShiftedByte(BandwidthCode(bwHz), 4), ShiftedByte(cr - 4, 1))
  }

  /**
   * For a coding rate 4/5..4/8 the byte is bandwidth code * 16 + (cr - 4) * 2:
   * bits 7..4 hold the bandwidth code, bits 3..1 the rate's code and bit 0
   * (implicit header) is clear.
   */
  lemma ModemConfig1Fields(bwHz: int, cr: int)
    requires 5 <= cr <= 8
    ensures ModemConfig1(bwHz, cr) == BandwidthCode(bwHz) * 16 + (cr - 4) * 2
  {
    var code := BandwidthCode(bwHz);
    Pow2Values();
    assert ShiftedByte(code, 4) == code * 16;
    assert ShiftedByte(cr - 4, 1) == 2 * (cr - 4);
    OrShifted(code, 2 * (cr - 4), 4, BYTE_BITS);
  }

  /** MODEM_CONFIG2: `(sf << 4) | 0x04`, spreading factor and payload CRC on. */
  function ModemConfig2(sf: int): byte {
    Or(ShiftedByte(sf, 4), 0x04)
  }

  /** For a spreading factor 6..12 the byte is sf * 16 + 4: bits 7..4 hold the factor, bit 2 turns the payload CRC on, nothing else is set. */
  lemma ModemConfig2Fields(sf: int)
    requires 6 <= sf <= 12
    ensures ModemConfig2(sf) == sf * 16 + 0x04
  {
    Pow2Values();
    assert ShiftedByte(sf, 4) == sf * 16;
    OrShifted(sf, 4, 4, BYTE_BITS);
  }

  /** `max(0, min(tx_power - 2, 15))`: the PA_BOOST output-power field. */
  function OutputPower(txPower: int): (p: int)
    ensures 0 <= p <= 15
    ensures 2 <= txPower <= 17 ==> p == txPower - 2
    ensures txPower < 2 ==> p == 0
    ensures txPower > 17 ==> p == 15
  {
    var m := if txPower - 2 < 15 then txPower - 2 else 15;
    if 0 > m then 0 else m
  }

  /** PA_CONFIG: `0x80 | output power`: bit 7 selects PA_BOOST, bits 6..4 (max power) stay 0, bits 3..0 hold the output power. */
  function PaConfig(txPower: int): (pa: byte)
    ensures pa == 0x80 + OutputPower(txPower)
  {
    OrHighBit(OutputPower(txPower));
    Or(0x80, OutputPower(txPower))
  }

  /** On the PA_BOOST pin the chip emits 2 + OutputPower dBm: the requested power for 2..17 dBm, the nearer limit otherwise. */
  lemma PaConfigPower(txPower: int)
    ensures 2 <= PaConfig(txPower) - 0x80 + 2 <= 17
    ensures 2 <= txPower <= 17 ==> PaConfig(txPower) - 0x80 + 2 == txPower
  {
  }

  /** The SNR register as the driver reads it: a two's-complement byte in quarter dB. */
  function SnrFromReg(v: byte): (snr: real)
    ensures -32.0 <= snr <= 31.75
    ensures v < 128 ==> snr == v as real / 4.0
    ensures v >= 128 ==> snr == (v - 256) as real / 4.0
  {
    var s := if v > 127 then v - 256 else v;
    s as real / 4.0
  }

  /** The register byte a chip stores for an SNR of q quarter dB (two's complement). */
  function SnrToReg(q: int): (v: byte)
    requires -128 <= q <= 127
  {
    LowByte(q)
  }

  /** The SNR decoding inverts the chip's encoding on the whole representable range, and vice versa. */
  lemma SnrRoundTrip(q: int, v: byte)
    requires -128 <= q <= 127
    ensures SnrFromReg(SnrToReg(q)) == q as real / 4.0
    ensures SnrToReg((SnrFromReg(v) * 4.0).Floor) == v
  {
    var s := if v > 127 then v - 256 else v;
    assert SnrFromReg(v) * 4.0 == s as real;
  }

  /** Packet RSSI in dBm: the register minus 157. */
  function RssiFromReg(v: byte): (rssi: int)
    ensures -157 <= rssi <= 98
    ensures rssi + 157 == v
  {
    v - 157
  }

  /** A received packet: payload, RSSI in dBm and SNR in dB. */
  datatype RxPacket = RxPacket(payload: seq<byte>, rssi: int, snr: real)

  // ── The chip ─────────────────────────────────────────────────────────────

  /** The radio as the driver sees it: its registers, its FIFO, and every SPI frame sent to it so far. */
  class Chip {
    var regs: seq<byte>
    var fifo: seq<byte>
    /** The bytes the driver wrote in each chip-select cycle, oldest first. */
    var frames: seq<seq<byte>>

    ghost predicate Valid()
      reads this
    {
      |regs| == NUM_REGS && |fifo| == FIFO_SIZE
    }

    constructor (regs: seq<byte>, fifo: seq<byte>)
      requires |regs| == NUM_REGS && |fifo| == FIFO_SIZE
      ensures Valid() && this.regs == regs && this.fifo == fifo && frames == []
    {
      this.regs := regs;
      this.fifo := fifo;
      frames := [];
    }
  }

  /** The registers _configure writes. */
  const CONFIGURED: set<int> := {
    REG_OP_MODE, REG_FRF_MSB, REG_FRF_MID, REG_FRF_LSB, REG_FIFO_TX_BASE, REG_FIFO_RX_BASE,
    REG_LNA, REG_MODEM_CFG3, REG_MODEM_CFG1, REG_MODEM_CFG2, REG_PREAMBLE_MSB,
    REG_PREAMBLE_LSB, REG_SYNC_WORD, REG_PA_CONFIG, REG_OCP}

  /**
   * The register file after _configure's three groups of writes: every
   * written register holds its last value and every other register is as
   * it was.
   */
  lemma ConfigureWrites(before: seq<byte>, r1: seq<byte>, r2: seq<byte>, r3: seq<byte>, frf: seq<byte>,
                        lna: byte, cfg1: byte, cfg2: byte, pre: seq<byte>, sync: byte, pa: byte)
    requires |before| == NUM_REGS && |frf| == 3 && |pre| == 2
    requires r1 == before[REG_OP_MODE := LORA_MODE_BIT + MODE_SLEEP]
      [REG_FRF_MSB := frf[0]][REG_FRF_MID := frf[1]][REG_FRF_LSB := frf[2]]
    requires r2 == r1[REG_FIFO_TX_BASE := 0][REG_FIFO_RX_BASE := 0][REG_LNA := lna][REG_MODEM_CFG3 := 0x04]
      [REG_MODEM_CFG1 := cfg1][REG_MODEM_CFG2 := cfg2][REG_PREAMBLE_MSB := pre[0]][REG_PREAMBLE_LSB := pre[1]]
      [REG_SYNC_WORD := sync]
    requires r3 == r2[REG_PA_CONFIG := pa][REG_OCP := 0x2B][REG_OP_MODE := LORA_MODE_BIT + MODE_STANDBY]
    ensures |r3| == NUM_REGS
    ensures r3[REG_OP_MODE] == LORA_MODE_BIT + MODE_STANDBY && r3[REG_FRF_MSB..REG_FRF_LSB + 1] == frf
    ensures r3[REG_FIFO_TX_BASE] == 0 && r3[REG_FIFO_RX_BASE] == 0 && r3[REG_LNA] == lna
    ensures r3[REG_MODEM_CFG3] == 0x04 && r3[REG_MODEM_CFG1] == cfg1 && r3[REG_MODEM_CFG2] == cfg2
    ensures r3[REG_PREAMBLE_MSB..REG_PREAMBLE_LSB + 1] == pre && r3[REG_SYNC_WORD] == sync
    ensures r3[REG_PA_CONFIG] == pa && r3[REG_OCP] == 0x2B
    ensures forall i :: 0 <= i < NUM_REGS && i !in CONFIGURED ==> r3[i] == before[i]
  {
    assert r3[REG_FRF_MSB..REG_FRF_LSB + 1] == [r3[REG_FRF_MSB], r3[REG_FRF_MID], r3[REG_FRF_LSB]];
    assert r3[REG_PREAMBLE_MSB..REG_PREAMBLE_LSB + 1] == [r3[REG_PREAMBLE_MSB], r3[REG_PREAMBLE_LSB]];
    forall i | 0 <= i < NUM_REGS && i !in CONFIGURED
      ensures r3[i] == before[i]
    {
      assert r1[i] == before[i];
      assert r2[i] == r1[i];
    }
  }

  /** SX127x: the driver and its configuration. */
  class Sx127x {
    const chip: Chip
    const freq: nat
    const bw: int
    const sf: int
    const cr: int
    const txPower: int
    const preamble: int
    const syncWord: int

    /** Stores the configuration; the pins and the reset pulse are not modelled. */
    constructor (chip: Chip, freq: nat, bw: int, sf: int, cr: int, txPower: int, preamble: int, syncWord: int)
      ensures this.chip == chip && this.freq == freq && this.bw == bw && this.sf == sf && this.cr == cr
      ensures this.txPower == txPower && this.preamble == preamble && this.syncWord == syncWord
    {
      this.chip := chip;
      this.freq := freq;
      this.bw := bw;
      this.sf := sf;
      this.cr := cr;
      this.txPower := txPower;
      this.preamble := preamble;
      this.syncWord := syncWord;
    }

    /** _read_reg: send the address with bit 7 clear, read one byte. */
    method ReadReg(addr: byte) returns (v: byte)
      requires chip.Valid() && addr < 128
      modifies chip
      ensures chip.Valid()
      ensures v == old(chip.regs)[addr]
      ensures chip.frames == old(chip.frames) + [ReadFrame(addr)]
      ensures chip.regs == old(chip.regs) && chip.fifo == old(chip.fifo)
    {
      chip.frames := chip.frames + [ReadFrame(addr)];
      v := chip.regs[addr % 128];
    }

    /** _write_reg: send the address with bit 7 set and the value's low byte. */
    method WriteReg(addr: byte, val: int)
      requires chip.Valid() && addr < 128
      modifies chip
      ensures chip.Valid()
      ensures chip.frames == old(chip.frames) + [WriteFrame(addr, val)]
      ensures chip.regs == RegisterWrite(old(chip.regs), addr, LowByte(val))
      ensures addr != REG_IRQ_FLAGS ==> chip.regs == old(chip.regs)[addr := LowByte(val)]
      ensures chip.fifo == old(chip.fifo)
    {
      var frame := WriteFrame(addr, val);
      chip.frames := chip.frames + [frame];
      var (_, a) := DecodeCommand(frame[0]);
      chip.regs := RegisterWrite(chip.regs, a, frame[1]);
    }

    /** _read_fifo: a burst read of REG_FIFO, which walks FIFO_ADDR_PTR. */
    method ReadFifo(n: byte) returns (data: seq<byte>)
      requires chip.Valid()
      modifies chip
      ensures chip.Valid()
      ensures data == FifoBurst(old(chip.fifo), old(chip.regs)[REG_FIFO_ADDR_PTR], n)
      ensures chip.frames == old(chip.frames) + [ReadFrame(REG_FIFO)]
      ensures chip.regs == old(chip.regs)[REG_FIFO_ADDR_PTR := (old(chip.regs)[REG_FIFO_ADDR_PTR] + n) % FIFO_SIZE]
      ensures chip.fifo == old(chip.fifo)
    {
      chip.frames := chip.frames + [ReadFrame(REG_FIFO)];
      var ptr := chip.regs[REG_FIFO_ADDR_PTR];
      data := FifoBurst(chip.fifo, ptr, n);
      chip.regs := chip.regs[REG_FIFO_ADDR_PTR := (ptr + n) % FIFO_SIZE];
    }

    /** _set_mode: LoRa mode bit plus the requested mode. */
    method SetMode(mode: byte)
      requires chip.Valid() && mode < 8
      modifies chip
      ensures chip.Valid()
      ensures chip.frames == old(chip.frames) + [WriteFrame(REG_OP_MODE, LORA_MODE_BIT + mode)]
      ensures chip.regs == old(chip.regs)[REG_OP_MODE := LORA_MODE_BIT + mode]
      ensures chip.fifo == old(chip.fifo)
    {
      OrHighBit(mode);
      WriteReg(REG_OP_MODE, Or(LORA_MODE_BIT, mode));
    }

    /** standby(): LoRa standby. */
    method Standby()
      requires chip.Valid()
      modifies chip
      ensures chip.Valid()
      ensures chip.regs == old(chip.regs)[REG_OP_MODE := 0x81] && chip.fifo == old(chip.fifo)
      ensures chip.frames == old(chip.frames) + [WriteFrame(REG_OP_MODE, 0x81)]
    {
      SetMode(MODE_STANDBY);
    }

    /** sleep(): LoRa sleep. */
    method Sleep()
      requires chip.Valid()
      modifies chip
      ensures chip.Valid()
      ensures chip.regs == old(chip.regs)[REG_OP_MODE := 0x80] && chip.fifo == old(chip.fifo)
      ensures chip.frames == old(chip.frames) + [WriteFrame(REG_OP_MODE, 0x80)]
    {
      SetMode(MODE_SLEEP);
    }

    /** The registers _configure leaves behind, in terms of the registers before it. */
    ghost predicate ConfiguredAs(regs: seq<byte>, before: seq<byte>)
      requires |regs| == NUM_REGS && |before| == NUM_REGS
      reads this
    {
      && regs[REG_OP_MODE] == LORA_MODE_BIT + MODE_STANDBY
      && regs[REG_FRF_MSB..REG_FRF_LSB + 1] == FrfBytes(Frf(freq))
      && regs[REG_FIFO_TX_BASE] == 0 && regs[REG_FIFO_RX_BASE] == 0
      && regs[REG_LNA] == Or(before[REG_LNA], 0x03)
      && regs[REG_MODEM_CFG3] == 0x04
      && regs[REG_MODEM_CFG1] == ModemConfig1(bw, cr)
      && regs[REG_MODEM_CFG2] == ModemConfig2(sf)
      && regs[REG_PREAMBLE_MSB..REG_PREAMBLE_LSB + 1] == PreambleBytes(preamble)
      && regs[REG_SYNC_WORD] == LowByte(syncWord)
      && regs[REG_PA_CONFIG] == PaConfig(txPower)
      && regs[REG_OCP] == 0x2B
      && forall i :: 0 <= i < NUM_REGS && i !in CONFIGURED ==> regs[i] == before[i]
    }

    /**
     * _configure. A chip that does not report version 0x12 is refused (the
     * RuntimeError) after that one read, with no register written.
     * Otherwise the chip ends in LoRa standby with the carrier, modem,
     * preamble, sync word, power and current-limit registers as computed
     * above, the FIFO bases at 0, the LNA boost bits set, auto-AGC on, and
     * every other register as it was.
     */
    method Configure() returns (ok: bool)
      requires chip.Valid()
      modifies chip
      ensures chip.Valid() && chip.fifo == old(chip.fifo)
      ensures ok <==> old(chip.regs)[REG_VERSION] == CHIP_VERSION
      ensures !ok ==> chip.regs == old(chip.regs) && chip.frames == old(chip.frames) + [ReadFrame(REG_VERSION)]
      ensures ok ==> ConfiguredAs(chip.regs, old(chip.regs))
      ensures ok ==> chip.frames == old(chip.frames) + [ReadFrame(REG_VERSION)] + CarrierFrames()
                                   + ModemFrames(old(chip.regs)[REG_LNA]) + PowerFrames()
    {
      var ver := ReadReg(REG_VERSION);
      if ver != CHIP_VERSION {
        return false;
      }
      ghost var before := chip.regs;
      SetCarrier();
      ghost var r1 := chip.regs;
      SetModem();
      ghost var r2 := chip.regs;
      SetPower();
      ConfiguredFromSteps(before, r1, r2, chip.regs);
      return true;
    }

    /** The SPI frames of SetCarrier, in order. */
    function CarrierFrames(): seq<seq<byte>> {
      var frf := Frf(freq);
      [WriteFrame(REG_OP_MODE, LORA_MODE_BIT + MODE_SLEEP), WriteFrame(REG_OP_MODE, LORA_MODE_BIT + MODE_SLEEP),
       WriteFrame(REG_FRF_MSB, ByteAt(frf, 2)), WriteFrame(REG_FRF_MID, ByteAt(frf, 1)),
       WriteFrame(REG_FRF_LSB, ByteAt(frf, 0))]
    }

    /** The SPI frames of SetModem, in order, for an LNA register that reads `lna`. */
    function ModemFrames(lna: byte): seq<seq<byte>> {
      [WriteFrame(REG_FIFO_TX_BASE, 0), WriteFrame(REG_FIFO_RX_BASE, 0),
       ReadFrame(REG_LNA), WriteFrame(REG_LNA, Or(lna, 0x03)), WriteFrame(REG_MODEM_CFG3, 0x04),
       WriteFrame(REG_MODEM_CFG1, ModemConfig1(bw, cr)), WriteFrame(REG_MODEM_CFG2, ModemConfig2(sf)),
       WriteFrame(REG_PREAMBLE_MSB, ByteAt(preamble, 1)), WriteFrame(REG_PREAMBLE_LSB, ByteAt(preamble, 0)),
       WriteFrame(REG_SYNC_WORD, syncWord)]
    }

    /** The SPI frames of SetPower, in order. */
    function PowerFrames(): seq<seq<byte>> {
      [WriteFrame(REG_PA_CONFIG, PaConfig(txPower)), WriteFrame(REG_OCP, 0x2B),
       WriteFrame(REG_OP_MODE, LORA_MODE_BIT + MODE_STANDBY)]
    }

    /** The first part of _configure: LoRa sleep, then the three FRF registers. */
    method SetCarrier()
      requires chip.Valid()
      modifies chip
      ensures chip.Valid() && chip.fifo == old(chip.fifo)
      ensures chip.frames == old(chip.frames) + CarrierFrames()
      ensures chip.regs == old(chip.regs)[REG_OP_MODE := LORA_MODE_BIT + MODE_SLEEP]
        [REG_FRF_MSB := ByteAt(Frf(freq), 2)][REG_FRF_MID := ByteAt(Frf(freq), 1)][REG_FRF_LSB := ByteAt(Frf(freq), 0)]
    {
      SetMode(MODE_SLEEP);
      WriteReg(REG_OP_MODE, LORA_MODE_BIT + MODE_SLEEP);
      var frf := Frf(freq);
      WriteReg(REG_FRF_MSB, ByteAt(frf, 2));
      WriteReg(REG_FRF_MID, ByteAt(frf, 1));
      WriteReg(REG_FRF_LSB, ByteAt(frf, 0));
    }

    /** The middle part of _configure: FIFO bases, LNA boost, AGC, modem configuration, preamble and sync word. */
    method SetModem()
      requires chip.Valid()
      modifies chip
      ensures chip.Valid() && chip.fifo == old(chip.fifo)
      ensures chip.frames == old(chip.frames) + ModemFrames(old(chip.regs)[REG_LNA])
      ensures chip.regs == old(chip.regs)[REG_FIFO_TX_BASE := 0][REG_FIFO_RX_BASE := 0]
        [REG_LNA := Or(old(chip.regs)[REG_LNA], 0x03)][REG_MODEM_CFG3 := 0x04]
        [REG_MODEM_CFG1 := ModemConfig1(bw, cr)][REG_MODEM_CFG2 := ModemConfig2(sf)]
        [REG_PREAMBLE_MSB := ByteAt(preamble, 1)][REG_PREAMBLE_LSB := ByteAt(preamble, 0)]
        [REG_SYNC_WORD := LowByte(syncWord)]
    {
      WriteReg(REG_FIFO_TX_BASE, 0x00);
      WriteReg(REG_FIFO_RX_BASE, 0x00);
      var lna := ReadReg(REG_LNA);
      WriteReg(REG_LNA, Or(lna, 0x03));
      WriteReg(REG_MODEM_CFG3, 0x04);
      WriteReg(REG_MODEM_CFG1, ModemConfig1(bw, cr));
      WriteReg(REG_MODEM_CFG2, ModemConfig2(sf));
      WriteReg(REG_PREAMBLE_MSB, ByteAt(preamble, 1));
      WriteReg(REG_PREAMBLE_LSB, ByteAt(preamble, 0));
      WriteReg(REG_SYNC_WORD, syncWord);
      ModemFramesInOrder(old(chip.frames), lna);
    }

    /** The frames SetModem sends one by one make up ModemFrames. */
    lemma ModemFramesInOrder(before: seq<seq<byte>>, lna: byte)
      ensures before + [WriteFrame(REG_FIFO_TX_BASE, 0)] + [WriteFrame(REG_FIFO_RX_BASE, 0)]
              + [ReadFrame(REG_LNA)] + [WriteFrame(REG_LNA, Or(lna, 0x03))] + [WriteFrame(REG_MODEM_CFG3, 0x04)]
              + [WriteFrame(REG_MODEM_CFG1, ModemConfig1(bw, cr))] + [WriteFrame(REG_MODEM_CFG2, ModemConfig2(sf))]
              + [WriteFrame(REG_PREAMBLE_MSB, ByteAt(preamble, 1))] + [WriteFrame(REG_PREAMBLE_LSB, ByteAt(preamble, 0))]
              + [WriteFrame(REG_SYNC_WORD, syncWord)]
              == before + ModemFrames(lna)
    {
    }

    /** The last part of _configure: PA, over-current trim, standby. */
    method SetPower()
      requires chip.Valid()
      modifies chip
      ensures chip.Valid() && chip.fifo == old(chip.fifo)
      ensures chip.frames == old(chip.frames) + PowerFrames()
      ensures chip.regs == old(chip.regs)[REG_PA_CONFIG := PaConfig(txPower)][REG_OCP := 0x2B]
        [REG_OP_MODE := LORA_MODE_BIT + MODE_STANDBY]
    {
      WriteReg(REG_PA_CONFIG, PaConfig(txPower));
      WriteReg(REG_OCP, 0x2B);
      SetMode(MODE_STANDBY);
    }

    lemma ConfiguredFromSteps(before: seq<byte>, r1: seq<byte>, r2: seq<byte>, r3: seq<byte>)
      requires |before| == NUM_REGS
      requires r1 == before[REG_OP_MODE := LORA_MODE_BIT + MODE_SLEEP]
        [REG_FRF_MSB := ByteAt(Frf(freq), 2)][REG_FRF_MID := ByteAt(Frf(freq), 1)][REG_FRF_LSB := ByteAt(Frf(freq), 0)]
      requires r2 == r1[REG_FIFO_TX_BASE := 0][REG_FIFO_RX_BASE := 0]
        [REG_LNA := Or(r1[REG_LNA], 0x03)][REG_MODEM_CFG3 := 0x04]
        [REG_MODEM_CFG1 := ModemConfig1(bw, cr)][REG_MODEM_CFG2 := ModemConfig2(sf)]
        [REG_PREAMBLE_MSB := ByteAt(preamble, 1)][REG_PREAMBLE_LSB := ByteAt(preamble, 0)]
        [REG_SYNC_WORD := LowByte(syncWord)]
      requires r3 == r2[REG_PA_CONFIG := PaConfig(txPower)][REG_OCP := 0x2B][REG_OP_MODE := LORA_MODE_BIT + MODE_STANDBY]
      ensures |r3| == NUM_REGS && ConfiguredAs(r3, before)
    {
      var frf, pre := FrfBytes(Frf(freq)), PreambleBytes(preamble);
      ConfigureWrites(before, r1, r2, r3, frf, Or(before[REG_LNA], 0x03), ModemConfig1(bw, cr), ModemConfig2(sf),
                      pre, LowByte(syncWord), PaConfig(txPower));
    }

    /** receive_continuous: standby, FIFO pointer 0, all IRQ flags cleared, DIO0 on RX-done, continuous receive. */
    method ReceiveContinuous()
      requires chip.Valid()
      modifies chip
      ensures chip.Valid() && chip.fifo == old(chip.fifo)
      ensures chip.regs == old(chip.regs)[REG_FIFO_ADDR_PTR := 0][REG_IRQ_FLAGS := 0]
                                         [REG_DIO_MAPPING1 := 0][REG_OP_MODE := 0x85]
      ensures chip.frames == old(chip.frames) + [WriteFrame(REG_OP_MODE, 0x81), WriteFrame(REG_FIFO_ADDR_PTR, 0),
                                                 WriteFrame(REG_IRQ_FLAGS, 0xFF), WriteFrame(REG_DIO_MAPPING1, 0),
                                                 WriteFrame(REG_OP_MODE, 0x85)]
    {
      SetMode(MODE_STANDBY);
      WriteReg(REG_FIFO_ADDR_PTR, 0x00);
      AndNotAll(chip.regs[REG_IRQ_FLAGS], BYTE_BITS);
      Pow2Values();
      WriteReg(REG_IRQ_FLAGS, 0xFF);
      WriteReg(REG_DIO_MAPPING1, 0x00);
      SetMode(MODE_RX_CONTINUOUS);
    }

    /**
     * poll_rx. With RX_DONE clear: nothing, after one read and no write.
     * With a CRC error: nothing, and the IRQ flags are cleared. Otherwise
     * the RX_NB_BYTES bytes at FIFO_RX_CURRENT, the decoded RSSI and SNR,
     * and the IRQ flags cleared.
     */
    method PollRx() returns (r: Option<RxPacket>)
      requires chip.Valid()
      modifies chip
      ensures chip.Valid() && chip.fifo == old(chip.fifo)
      ensures !Bit(old(chip.regs)[REG_IRQ_FLAGS], IRQ_RX_DONE_BIT) ==>
        r == None && chip.regs == old(chip.regs) && chip.frames == old(chip.frames) + [ReadFrame(REG_IRQ_FLAGS)]
      ensures Bit(old(chip.regs)[REG_IRQ_FLAGS], IRQ_RX_DONE_BIT) && Bit(old(chip.regs)[REG_IRQ_FLAGS], IRQ_CRC_ERROR_BIT) ==>
        r == None && chip.regs == old(chip.regs)[REG_IRQ_FLAGS := 0]
        && chip.frames == old(chip.frames) + [ReadFrame(REG_IRQ_FLAGS), WriteFrame(REG_IRQ_FLAGS, 0xFF)]
      ensures Bit(old(chip.regs)[REG_IRQ_FLAGS], IRQ_RX_DONE_BIT) && !Bit(old(chip.regs)[REG_IRQ_FLAGS], IRQ_CRC_ERROR_BIT) ==>
        var regs := old(chip.regs);
        && r == Some(RxPacket(FifoBurst(old(chip.fifo), regs[REG_FIFO_RX_CURRENT], regs[REG_RX_NB_BYTES]),
                              RssiFromReg(regs[REG_PKT_RSSI]), SnrFromReg(regs[REG_PKT_SNR])))
        && chip.regs == regs[REG_FIFO_ADDR_PTR := (regs[REG_FIFO_RX_CURRENT] + regs[REG_RX_NB_BYTES]) % FIFO_SIZE]
                            [REG_IRQ_FLAGS := 0]
        && chip.frames == old(chip.frames) + [ReadFrame(REG_IRQ_FLAGS), ReadFrame(REG_RX_NB_BYTES),
                                              ReadFrame(REG_FIFO_RX_CURRENT), WriteFrame(REG_FIFO_ADDR_PTR, regs[REG_FIFO_RX_CURRENT]),
                                              ReadFrame(REG_FIFO), ReadFrame(REG_PKT_SNR), ReadFrame(REG_PKT_RSSI),
                                              WriteFrame(REG_IRQ_FLAGS, 0xFF)]
    {
      var flags := ReadReg(REG_IRQ_FLAGS);
      AndNotAll(flags, BYTE_BITS);
      Pow2Values();
      if !Bit(flags, IRQ_RX_DONE_BIT) {
        return None;
      }
      if Bit(flags, IRQ_CRC_ERROR_BIT) {
        WriteReg(REG_IRQ_FLAGS, 0xFF);
        return None;
      }
      var nb := ReadReg(REG_RX_NB_BYTES);
      var current := ReadReg(REG_FIFO_RX_CURRENT);
      WriteReg(REG_FIFO_ADDR_PTR, current);
      var payload := ReadFifo(nb);
      var snrReg := ReadReg(REG_PKT_SNR);
      var snr := SnrFromReg(snrReg);
      var rssiReg := ReadReg(REG_PKT_RSSI);
      var rssi := RssiFromReg(rssiReg);
      WriteReg(REG_IRQ_FLAGS, 0xFF);
      return Some(RxPacket(payload, rssi, snr));
    }

    /** get_rssi: the last packet's RSSI in dBm. */
    method GetRssi() returns (rssi: int)
      requires chip.Valid()
      modifies chip
      ensures chip.Valid() && chip.regs == old(chip.regs)
      ensures rssi == RssiFromReg(old(chip.regs)[REG_PKT_RSSI])
      ensures chip.fifo == old(chip.fifo) && chip.frames == old(chip.frames) + [ReadFrame(REG_PKT_RSSI)]
    {
      var v := ReadReg(REG_PKT_RSSI);
      rssi := v as int - 157;
    }

    /** get_snr: the last packet's SNR in dB. */
    method GetSnr() returns (snr: real)
      requires chip.Valid()
      modifies chip
      ensures chip.Valid() && chip.regs == old(chip.regs)
      ensures snr == SnrFromReg(old(chip.regs)[REG_PKT_SNR])
      ensures chip.fifo == old(chip.fifo) && chip.frames == old(chip.frames) + [ReadFrame(REG_PKT_SNR)]
    {
      var reg := ReadReg(REG_PKT_SNR);
      var v: int := reg;
      if v > 127 {
        v := v - 256;
      }
      snr := v as real / 4.0;
    }
  }
}
