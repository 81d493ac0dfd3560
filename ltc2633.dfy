/**
 * The LTC2633 DAC driver (lib/LTC2633.c): one channel write as the bytes
 * it puts on the I2C bus.  Whether the device acknowledges its address is
 * an input; the I2C driver itself is not part of this model.
 */
module Ltc2633 {
  import opened Bits

  /** LTC2633_CHAN_SELECT: channel A, channel B, or any other value (all channels). */
  datatype ChanSelect = ChanA | ChanB | ChanAll

  /** One byte written on the bus, and whether a stop condition follows it. */
  datatype I2cWrite = I2cWrite(b: Byte, stop: bool)

  /** LTC2633_WriteChan's status and the bytes it wrote after the address. */
  datatype Transfer = Transfer(status: int, bytes: seq<I2cWrite>)

  /** The command byte: write to and update the channel, power up (command 0010, address 0000, 0001 or 1111). */
  function Command(chan: ChanSelect): (c: Byte)
    ensures c / 16 == 0x2
    ensures chan.ChanA? ==> c % 16 == 0x0
    ensures chan.ChanB? ==> c % 16 == 0x1
    ensures chan.ChanAll? ==> c % 16 == 0xF
  {
    match chan
    case ChanA => 0x20
    case ChanB => 0x21
    case ChanAll => 0x2F
  }

  /** The first data byte, `(unsigned char)(Value >> 4)`. */
  function Msb(value: UInt16): (b: Byte)
  {
    Low8(value / 16)
  }

  /** The second data byte, `(unsigned char)(Value << 4)` with the shift done in 16 bits. */
  function Lsb(value: UInt16): (b: Byte)
  {
    Low8(Low16(value * 16))
  }

  /** The 12-bit code the DAC assembles from the two data bytes: MSB then the upper nibble of LSB. */
  function DacCode(msb: Byte, lsb: Byte): (code: nat)
    ensures code < 4096
  {
    msb * 16 + lsb / 16
  }

  /**
   * LTC2633_WriteChan: -1 and nothing more written when the address is not
   * acknowledged; otherwise the command, MSB and LSB bytes, a stop after
   * the last, and 0.
   */
  function WriteChan(value: UInt16, chan: ChanSelect, addressAcked: bool): (t: Transfer)
    ensures !addressAcked <==> t.status == -1
    ensures !addressAcked ==> t.bytes == []
    ensures addressAcked ==> t.status == 0 && |t.bytes| == 3
                             && t.bytes[0].b == Command(chan)
                             && !t.bytes[0].stop && !t.bytes[1].stop && t.bytes[2].stop
                             && DacCode(t.bytes[1].b, t.bytes[2].b) == value % 4096
  {
    if !addressAcked then Transfer(-1, [])
    else
      CodeRoundTrip(value);
      Transfer(0, [I2cWrite(Command(chan), false), I2cWrite(Msb(value), false), I2cWrite(Lsb(value), true)])
  }

  /**
   * The DAC reads back the low twelve bits of the value; the top four are
   * lost, and a 12-bit value comes back unchanged.
   */
  lemma CodeRoundTrip(value: UInt16)
    ensures DacCode(Msb(value), Lsb(value)) == value % 4096
    ensures value < 4096 ==> DacCode(Msb(value), Lsb(value)) == value
  {
    var m, l := Msb(value), Lsb(value);
    assert m == value / 16 % 0x100;
    LsbIsLowNibble(value);
    Split16(l, value % 16, 0);
    Recombine(value);
  }

  /** A 16-bit value's low twelve bits: its second and third nibbles, then its lowest. */
  lemma Recombine(value: UInt16)
    ensures 16 * (value / 16 % 0x100) + value % 16 == value % 4096
  {
    var hi, lo := value / 16, value % 16;
    var q, r := hi / 0x100, hi % 0x100;
    Split4096(value, q, 16 * r + lo);
  }

  /** The second data byte carries the value's low nibble in its upper half, and its low nibble is 0. */
  lemma LsbIsLowNibble(value: UInt16)
    ensures Lsb(value) == (value % 16) * 16
    ensures Lsb(value) % 16 == 0
  {
    var a, b := value / 16, value % 16;
    var k, c := a / 0x100, a % 0x100;
    var x := value * 16;
    Split65536(x, k, 0x100 * c + 16 * b);
    Split256(0x100 * c + 16 * b, c, 16 * b);
    Split16(16 * b, b, 0);
  }

  /** Division by 16 of a number given as quotient and remainder. */
  lemma Split16(x: int, q: int, r: int)
    requires x == 16 * q + r && 0 <= r < 16
    ensures x / 16 == q && x % 16 == r
  {
  }

  /** Division by 0x100 of a number given as quotient and remainder. */
  lemma Split256(x: int, q: int, r: int)
    requires x == 0x100 * q + r && 0 <= r < 0x100
    ensures x / 0x100 == q && x % 0x100 == r
  {
  }

  /** Division by 4096 of a number given as quotient and remainder. */
  lemma Split4096(x: int, q: int, r: int)
    requires x == 4096 * q + r && 0 <= r < 4096
    ensures x / 4096 == q && x % 4096 == r
  {
  }

  /** Division by 0x1_0000 of a number given as quotient and remainder. */
  lemma Split65536(x: int, q: int, r: int)
    requires x == 0x1_0000 * q + r && 0 <= r < 0x1_0000
    ensures x / 0x1_0000 == q && x % 0x1_0000 == r
  {
  }

  /** The driver's own example: 0x0123 is sent as 0x12 then 0x30. */
  lemma Example0123()
    ensures Msb(0x0123) == 0x12 && Lsb(0x0123) == 0x30
  {
  }
}
