/**
 * The serial communications interface library (SCI/lib/sci.c): the baud
 * divisor, the receive and transmit status handshakes and string
 * transmission.  The status flags RDRF and TDRE and the received byte are
 * set by the hardware; the bytes written to the data register are logged.
 */
module Sci {
  import opened Bits
  import opened Text

  /** SCI_BaudRate. */
  datatype BaudRate =
    | Baud75 | Baud110 | Baud300 | Baud600 | Baud1200 | Baud2400 | Baud4800
    | Baud9600 | Baud14400 | Baud19200 | Baud38400 | Baud57600 | Baud115200

  /** SCI_RDRF_InterruptMode. */
  datatype InterruptMode = InterruptOff | InterruptOn

  /** The bits per second each enum value stands for. */
  function Bps(b: BaudRate): (bps: nat)
    ensures 75 <= bps <= 115200
  {
    match b
    case Baud75 => 75
    case Baud110 => 110
    case Baud300 => 300
    case Baud600 => 600
    case Baud1200 => 1200
    case Baud2400 => 2400
    case Baud4800 => 4800
    case Baud9600 => 9600
    case Baud14400 => 14400
    case Baud19200 => 19200
    case Baud38400 => 38400
    case Baud57600 => 57600
    case Baud115200 => 115200
  }

  /** Ten times bus / (16 * bps), truncated, with the `unsigned long` product wrapping. */
  function TenthsOfDivisor(bus: nat, b: BaudRate): nat
  {
    Low32(bus * 10) / 16 / Bps(b)
  }

  /**
   * The SCI0BD value: bus / (16 * bps) computed in tenths and rounded to
   * the nearest integer, half up, then cast to `unsigned int`.
   */
  function Divisor(bus: nat, b: BaudRate): (d: UInt16)
    ensures TenthsOfDivisor(bus, b) < 655_350 ==>
              10 * d - 5 <= TenthsOfDivisor(bus, b) < 10 * d + 5
  {
    Low16((TenthsOfDivisor(bus, b) + 5) / 10)
  }

  /** At a 20 MHz bus: 9600 baud gives 130, 115200 gives 11, 75 gives 16667. */
  lemma DivisorsAt20MHz()
    ensures Divisor(20_000_000, Baud9600) == 130
    ensures Divisor(20_000_000, Baud115200) == 11
    ensures Divisor(20_000_000, Baud75) == 16667
  {
    assert Low32(20_000_000 * 10) / 16 == 12_500_000;
    assert TenthsOfDivisor(20_000_000, Baud9600) == 1302;
    assert TenthsOfDivisor(20_000_000, Baud115200) == 108;
    assert TenthsOfDivisor(20_000_000, Baud75) == 166666;
  }

  /** SCI0_Read's result: 0 with the received byte, or -1 with `*pData` as it was. */
  datatype ReadResult = ReadResult(status: int, data: Byte)

  /** SCI0 and what has been sent through it. */
  class Sci0 {
    /** SCI0BD. */
    var baud: UInt16
    /** SCI0CR2: receiver enable, transmitter enable, receive interrupt enable. */
    var re: bool
    var te: bool
    var rie: bool
    /** SCI0SR1_RDRF: a received byte waits in the data register. */
    var rdrf: bool
    /** SCI0SR1_TDRE: the transmit data register is empty. */
    var tdre: bool
    /** The byte the receiver holds in SCI0DRL. */
    var received: Byte
    /** Every byte written to SCI0DRL, in order. */
    var sent: seq<Byte>

    /** Reset: nothing received or sent, the transmitter empty. */
    constructor ()
      ensures baud == 0 && !re && !te && !rie && !rdrf && tdre && received == 0 && sent == []
    {
      baud := 0;
      re, te, rie := false, false, false;
      rdrf, tdre := false, true;
      received := 0;
      sent := [];
    }

    /** SCI0_Init: the baud divisor, receiver and transmitter on, RIE as requested. */
    method Init(bus: nat, b: BaudRate, mode: InterruptMode)
      requires bus < 0x1_0000_0000
      modifies this
      ensures baud == Divisor(bus, b)
      ensures re && te && (rie <==> mode.InterruptOn?)
      ensures rdrf == old(rdrf) && tdre == old(tdre) && received == old(received) && sent == old(sent)
    {
      baud := Divisor(bus, b);
      re := true;
      te := true;
      rie := mode.InterruptOn?;
    }

    /**
     * SCI0_Read: -1 and `pData` untouched when no byte has arrived;
     * otherwise 0 and the received byte.  Reading the status and then the
     * data register clears RDRF.
     */
    method Read(pData: Byte) returns (r: ReadResult)
      modifies this
      ensures r.status == 0 || r.status == -1
      ensures r.status == -1 <==> !old(rdrf)
      ensures r.status == -1 ==> r.data == pData
      ensures r.status == 0 ==> r.data == received
      ensures !rdrf
      ensures baud == old(baud) && re == old(re) && te == old(te) && rie == old(rie)
      ensures tdre == old(tdre) && received == old(received) && sent == old(sent)
    {
      if !rdrf {
        return ReadResult(-1, pData);
      }
      r := ReadResult(0, received);
      rdrf := false;
    }

    /** The byte read once is not read again: a second read with no new byte gives -1. */
    method ReadTwice(pData: Byte) returns (first: ReadResult, second: ReadResult)
      modifies this
      ensures first.status == 0 <==> old(rdrf)
      ensures second.status == -1 && second.data == first.data
    {
      first := Read(pData);
      second := Read(first.data);
    }

    /**
     * SCI0_TxByte_NonBlock: when TDRE is set the byte is written and 0
     * returned; otherwise nothing is written and -1 returned.  Writing
     * the data register clears TDRE.
     */
    method TxByteNonBlock(data: Byte) returns (status: int)
      modifies this
      ensures status == 0 || status == -1
      ensures status == 0 <==> old(tdre)
      ensures sent == if old(tdre) then old(sent) + [data] else old(sent)
      ensures !tdre
      ensures baud == old(baud) && re == old(re) && te == old(te) && rie == old(rie)
      ensures rdrf == old(rdrf) && received == old(received)
    {
      if tdre {
        sent := sent + [data];
        tdre := false;
        return 0;
      }
      return -1;
    }

    /**
     * SCI0_TxByte_Block: wait until the transmitter is empty (the hardware
     * sets TDRE), then write the byte.
     */
    method TxByteBlock(data: Byte)
      modifies this
      ensures sent == old(sent) + [data] && !tdre
      ensures baud == old(baud) && re == old(re) && te == old(te) && rie == old(rie)
      ensures rdrf == old(rdrf) && received == old(received)
    {
      tdre := true;
      sent := sent + [data];
      tdre := false;
    }

    /** SCI0_TxStr: the characters before the NUL are sent in order; the NUL is not. */
    method TxStr(s: seq<Byte>)
      modifies this
      ensures sent == old(sent) + CString(s)
      ensures baud == old(baud) && re == old(re) && te == old(te) && rie == old(rie)
      ensures rdrf == old(rdrf) && received == old(received)
    {
      var i := 0;
      while i < |s| && s[i] != Nul
        invariant 0 <= i <= |s|
        invariant Nul !in s[..i]
        invariant sent == old(sent) + s[..i]
        invariant baud == old(baud) && re == old(re) && te == old(te) && rie == old(rie)
        invariant rdrf == old(rdrf) && received == old(received)
      {
        TxByteBlock(s[i]);
        assert s[..i + 1] == s[..i] + [s[i]];
        i := i + 1;
      }
      CStringEndsAtFirstNul(s, i);
    }
  }
}
