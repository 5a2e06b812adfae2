/**
 Writing a linear baud rate to the chip: the encoding of the sequence and the registers written.

 The prescaler fields of CPR are M = cpr / 8 and N = cpr % 8; with SCR they make the chip divide
 its clock by div * M * (16 - SCR + N).
 */
module LinearBaudChip {
  import opened Basics
  import opened Division
  import opened LinearBaud

  const MAX_SCR := 12
  const MAX_CPRN := 7
  const DLAB: bv8 := 0x80
  const ENABLE_TCNT: bv8 := 0x80

  /** The sequence that the chip takes from its registers. */
  function Sequence(cpr: byte, scr: byte): int {
    (cpr as int / 8) * (16 - scr as int + cpr as int % 8)
  }

  /** The search for SCR and N: it leaves the last pair that gives the sequence. */
  method Encode(sequence: int) returns (scr: int, n: int)
    ensures 0 <= scr <= MAX_SCR && 0 <= n <= MAX_CPRN
    ensures 4 <= sequence <= 23 ==> 16 - scr + n == sequence
    ensures !(4 <= sequence <= 23) ==> scr == 0 && n == 0
  {
    ghost var best := if sequence <= 16 then (16 - sequence, 0) else (0, sequence - 16);
    scr, n := 0, 0;
    var i := MAX_SCR;
    while i >= 0
      invariant -1 <= i <= MAX_SCR && 0 <= scr <= MAX_SCR && 0 <= n <= MAX_CPRN
      invariant (scr == 0 && n == 0) || 16 - scr + n == sequence
      invariant 4 <= sequence <= 23 && i < best.0 ==> 16 - scr + n == sequence
    {
      var j := 0;
      while j <= MAX_CPRN
        invariant 0 <= j <= MAX_CPRN + 1 && 0 <= scr <= MAX_SCR && 0 <= n <= MAX_CPRN
        invariant (scr == 0 && n == 0) || 16 - scr + n == sequence
        invariant 4 <= sequence <= 23 && (i < best.0 || (i == best.0 && j > best.1)) ==> 16 - scr + n == sequence
      {
        if 16 - i + j == sequence {
          scr, n := i, j;
        }
        j := j + 1;
      }
      i := i - 1;
    }
  }

  class Puart {
    var mcr: bv8
    var cpr: byte
    var sfr: bv8
    var scr: byte
    var lcr: bv8
    var lsb: byte
    var msb: byte
    var gpioIn: byte
    var gpioEn: byte

    /** Offset 0x16 is SCR, unless SFR shows the transmit counter there. */
    method Write16(v: byte)
      modifies this`scr
      ensures scr == if sfr & ENABLE_TCNT == 0 then v else old(scr)
    {
      if sfr & ENABLE_TCNT == 0 {
        scr := v;
      }
    }

    /** Offsets 8 and 9 are the divisor while DLAB is set, and the GPIO registers otherwise. */
    method Write8(v: byte)
      modifies this`lsb, this`gpioIn
      ensures lsb == (if lcr & DLAB != 0 then v else old(lsb)) && gpioIn == if lcr & DLAB != 0 then old(gpioIn) else v
    {
      if lcr & DLAB != 0 {
        lsb := v;
      } else {
        gpioIn := v;
      }
    }

    method Write9(v: byte)
      modifies this`msb, this`gpioEn
      ensures msb == (if lcr & DLAB != 0 then v else old(msb)) && gpioEn == if lcr & DLAB != 0 then old(gpioEn) else v
    {
      if lcr & DLAB != 0 {
        msb := v;
      } else {
        gpioEn := v;
      }
    }

    function Divisor(): int
      reads this
    {
      msb as int * 256 + lsb as int
    }

    /** write_div_scr: SCR and the divisor are programmed; SFR and LCR are as before. */
    method WriteDivScr(div: int, s: byte)
      requires 0 <= div < 0x10000
      modifies this`sfr, this`scr, this`lcr, this`lsb, this`msb, this`gpioIn, this`gpioEn
      ensures scr == s && Divisor() == div
      ensures sfr == old(sfr) && lcr == old(lcr) && gpioIn == old(gpioIn) && gpioEn == old(gpioEn)
    {
      var oldsfr := sfr;
      sfr := oldsfr & !ENABLE_TCNT;
      Write16(s);
      sfr := oldsfr;
      var l := lcr;
      lcr := l | DLAB;
      Write8((div % 256) as byte);
      Write9((div / 256) as byte);
      lcr := l;
    }

    /**
     set_linear_baud.  From 252 baud up the chip divides by the best pair's divisor and sequence.
     Below, the encoding is skipped and the chip divides by 255 * 16, not by the 255 * 46 found.
     */
    method SetLinearBaud(newspd: int) returns (ghost d: int, ghost q: int)
      requires 0 < newspd <= MAX_SPEED
      modifies this`mcr, this`cpr, this`sfr, this`scr, this`lcr, this`lsb, this`msb, this`gpioIn, this`gpioEn
      ensures Best(d, q, newspd) && Divisor() == d
      ensures Sequence(cpr, scr) == if newspd >= 252 then q else 16
      ensures newspd < 252 ==> d == 255 && q == 46
      ensures newspd >= 1257 ==> 25 * Distance(Rate(Divisor(), Sequence(cpr, scr)), newspd) <= newspd
      ensures scr <= 12 && cpr < 24 && (cpr / 8 == 1 || cpr / 8 == 2)
      ensures sfr == old(sfr) && lcr == old(lcr) && gpioIn == old(gpioIn) && gpioEn == old(gpioEn)
      ensures mcr == old(mcr) | 0x80
    {
      var min, divisor, sequence := Search(newspd);
      d, q := divisor, sequence;
      GuardPassesFrom252(d, q, newspd);
      var m, n, s := 1, 0, 0;
      if min * 100 / (newspd * 100) <= 3 {
        if sequence > MAXSEQUENCE / 2 {
          m := 2;
          sequence := sequence / 2;
        }
        s, n := Encode(sequence);
      }
      if newspd < 252 {
        SlowestIsLast(d, q);
      } else if newspd >= 1257 {
        WithinFourPercent(d, q, newspd);
      }
      mcr := mcr | 0x80;
      cpr := (m * 8 + n) as byte;
      WriteDivScr(divisor, s as byte);
    }
  }

  /** Only the last candidate is as slow as 1257. */
  lemma SlowestIsLast(i: int, j: int)
    requires Candidate(i, j) && Rate(i, j) <= 1257
    ensures i == 255 && j == 46
  {
    if i != 255 || j != 46 {
      assert Times(i, j) <= 11684 by {
        Monotone(i, 255, j);
        Monotone(i, 254, j);
      }
      assert 1258 * Times(i, j) <= FREQUENCY;
      QuotientAtLeast(FREQUENCY, Times(i, j), 1258);
    }
  }
}
