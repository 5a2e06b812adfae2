/** mxser_set_baud: the divisor and the eighths that make a baud rate on a MUST chip. */
module MustBaud {
  import opened Basics
  import opened Division
  import opened MustChip

  const TABLE := [0, 50, 75, 110, 134, 150, 200, 300, 600, 1200, 1800, 2400, 4800,
                  9600, 19200, 38400, 57600, 115200, 230400, 460800, 921600, 0]

  /** The divisor; 0 when the line is to be dropped. */
  function Quot(base: nat, speed: int, max: int): nat {
    if speed in TABLE then
      if speed == 134 then 2 * base / 269
      else if speed != 0 then (if base / speed == 0 then 1 else base / speed)
      else 0
    else if speed <= 0 || speed > max then 0
    else base / speed
  }

  /** The remainder in eighths, rounded. */
  function Eighths(base: nat, speed: int): nat
    requires speed > 0
  {
    Rounded(base % speed * 8, speed)
  }

  function Rounded(rest: nat, speed: int): nat
    requires speed > 0
  {
    if rest % speed > speed / 2 then rest / speed + 1 else rest / speed
  }

  /** What goes to ENUM. */
  function EnumByte(base: nat, speed: int): bv8 {
    (Enum(base, speed) % 256) as bv8
  }

  function Enum(base: nat, speed: int): nat {
    if speed in TABLE || speed <= 0 then 0 else Eighths(base, speed)
  }

  /** info->timeout: 32-bit unsigned arithmetic, and a fiftieth of a second of slop. */
  function Timeout(work: nat, hz: nat, base: pos): int {
    work % 0x1_0000_0000 / base + hz / 50
  }

  /** A full FIFO of ten-bit characters at the divisor quot, in jiffies times the base rate. */
  function Work(fifo: nat, hz: nat, quot: nat): nat
  {
    fifo * hz * 10 * quot
  }

  /** The two bytes that outb takes of quot and of quot >> 8. */
  function Low(quot: nat): (b: nat)
    ensures b < 256
  {
    quot % 256
  }

  function High(quot: nat): (b: nat)
    ensures b < 256
  {
    quot / 256 % 256
  }

  /** q is n divided by d, rounded down. */
  predicate Divides(n: int, d: int, q: int) {
    Times(d, q) <= n < Times(d, q + 1)
  }

  /** t eighths are as near to n / d as eighths can be. */
  predicate NearestEighths(n: int, d: int, t: int) {
    -d <= 2 * (8 * n - Times(d, t)) <= d
  }

  /** The speeds for which there is a divisor. */
  predicate HasDivisor(base: nat, speed: int, max: int) {
    if speed == 134 then 2 * base >= 269
    else if speed in TABLE then speed != 0
    else 0 < speed <= max && speed <= base
  }

  /** The chip divides by d, and ENUM, register 4 of bank 2, holds e eighths. */
  ghost predicate Holds(r: Regs, d: nat, e: nat)
    requires Whole(r)
  {
    d < 65536 && e < 256 && r.dll == (d % 256) as bv8 && r.dlm == (d / 256) as bv8 && r.bank[8] == e as bv8
  }

  /** The divisor and the eighths that a speed is to have. */
  ghost predicate Makes(base: nat, speed: int, d: nat, e: nat) {
    && (speed == 134 ==> Divides(2 * base, 269, d))
    && (speed != 134 && speed <= base ==> Divides(base, speed, d))
    && (speed != 134 && speed > base ==> d == 1)
    && (speed in TABLE ==> e == 0)
    && (speed !in TABLE ==> e <= 8 && NearestEighths(base, speed, 8 * d + e))
  }

  ghost predicate Programmed(r: Regs, base: nat, speed: int)
    requires Whole(r)
  {
    exists d, e :: Holds(r, d, e) && Makes(base, speed, d, e)
  }

  class Port {
    const chip: Chip
    const baudBase: pos
    const maxBaud: int
    const fifoSize: nat       // xmit_fifo_size
    const hz: nat             // HZ, jiffies a second
    var dtr: bool
    var realbaud: int
    var timeout: int          // jiffies

    constructor (chip: Chip, baudBase: pos, maxBaud: int, fifoSize: nat, hz: nat)
      ensures this.chip == chip && this.baudBase == baudBase && this.maxBaud == maxBaud
      ensures this.fifoSize == fifoSize && this.hz == hz && !dtr && realbaud == 0 && timeout == 0
    {
      this.chip, this.baudBase, this.maxBaud, this.fifoSize, this.hz := chip, baudBase, maxBaud, fifoSize, hz;
      dtr, realbaud, timeout := false, 0, 0;
    }

    method FindQuot(speed: int) returns (quot: nat)
      ensures quot == Quot(baudBase, speed, maxBaud)
    {
      if speed !in TABLE {
        quot := if speed <= 0 || speed > maxBaud then 0 else baudBase / speed;
      } else if speed == 134 {
        quot := 2 * baudBase / 269;
      } else if speed != 0 {
        quot := baudBase / speed;
        if quot == 0 {
          quot := 1;
        }
      } else {
        quot := 0;
      }
    }

    method FindEighths(speed: int) returns (e: nat)
      requires speed > 0
      ensures e == Eighths(baudBase, speed) && e <= 8
    {
      EighthsFit(baudBase, speed);
      e := baudBase % speed;
      e := e * 8;
      if e % speed > speed / 2 {
        e := e / speed;
        e := e + 1;
      } else {
        e := e / speed;
      }
    }

    /** Called with the speed that mxser_change_speed put in info->speed. */
    method SetBaud(speed: int)
      requires chip.Valid()
      modifies this, chip, chip.plain, chip.bank
      ensures speed > maxBaud ==>
                && chip.View() == old(chip.View()) && dtr == old(dtr)
                && realbaud == old(realbaud) && timeout == old(timeout)
      ensures speed <= maxBaud ==>
                var work := Work(fifoSize, hz, Quot(baudBase, speed, maxBaud));
                realbaud == speed && timeout == Timeout(work, hz, baudBase)
      ensures speed <= maxBaud ==> dtr == (Quot(baudBase, speed, maxBaud) != 0)
      ensures speed <= maxBaud && !dtr ==> chip.View() == old(chip.View())
      ensures speed <= maxBaud && dtr ==>
                var quot := Quot(baudBase, speed, maxBaud);
                chip.View() == Banked(old(chip.View()).(dll := Low(quot) as bv8, dlm := High(quot) as bv8), BANK2,
                    4, EnumByte(baudBase, speed))
      ensures speed <= maxBaud ==> dtr == HasDivisor(baudBase, speed, maxBaud)
      ensures speed <= maxBaud && dtr && Quot(baudBase, speed, maxBaud) < 65536 ==>
                Programmed(chip.View(), baudBase, speed)
    {
      if speed > maxBaud {
        return;
      }
      HasOne(baudBase, speed, maxBaud);
      realbaud := speed;
      var quot := FindQuot(speed);
      SetTimeout(quot);
      dtr := quot != 0;
      if quot == 0 {
        return;
      }
      Program(speed, quot, speed in TABLE);
    }

    method SetTimeout(quot: nat)
      modifies this`timeout
      ensures timeout == Timeout(Work(fifoSize, hz, quot), hz, baudBase)
    {
      timeout := fifoSize * hz * 10 * quot % 0x1_0000_0000 / baudBase;
      timeout := timeout + hz / 50;
    }

    /** The registers written for a rate that has a divisor. */
    method Program(speed: int, quot: nat, table: bool)
      requires chip.Valid() && table == (speed in TABLE) && (table || speed > 0)
      requires 0 < quot == Quot(baudBase, speed, maxBaud)
      modifies chip, chip.plain, chip.bank
      ensures chip.View() == Banked(old(chip.View()).(dll := Low(quot) as bv8, dlm := High(quot) as bv8), BANK2,
                  4, EnumByte(baudBase, speed))
      ensures quot < 65536 ==> Programmed(chip.View(), baudBase, speed)
    {
      if quot < 65536 {
        HoldsDivisor(chip.View(), baudBase, speed, maxBaud);
      }
      WriteDivisor(chip, quot);
      var eighths := 0;
      if !table {
        eighths := FindEighths(speed);
      }
      chip.SetBanked(BANK2, 4, (eighths % 256) as bv8);
    }
  }

  /**
   Where the product fits 32 bits, the timeout less its slop is the time, in whole jiffies, that a
   full FIFO takes at the base rate divided by the divisor: base * t <= work < base * (t + 1).
   */
  lemma TimeoutDrainsFifo(work: nat, hz: nat, base: pos)
    requires work < 0x1_0000_0000
    ensures var t := Timeout(work, hz, base) - hz / 50;
      Times(base, t) <= work < Times(base, t + 1)
  {
    Quotient(work, base);
  }

  /** Quot is the divisor meant: rounded down, 1 for a speed of the table above the base, and 134.5 for 134. */
  lemma QuotIsDivisor(base: nat, speed: int, max: int)
    ensures var q := Quot(base, speed, max);
      && (q != 0 <==> HasDivisor(base, speed, max))
      && (speed == 134 ==> Divides(2 * base, 269, q))
      && (speed != 134 && q != 0 && speed <= base ==> Divides(base, speed, q))
      && (speed != 134 && q != 0 && speed > base ==> q == 1)
  {
    TableIsPositive(speed);
    if speed == 134 {
      Quotient(2 * base, 269);
    } else if speed > 0 {
      Quotient(base, speed);
      if base >= speed {
        QuotientAtLeast(base, speed, 1);
      } else {
        QuotientIs(base, speed, 0, base);
      }
    }
  }

  lemma HasOne(base: nat, speed: int, max: int)
    ensures Quot(base, speed, max) != 0 <==> HasDivisor(base, speed, max)
  {
    QuotIsDivisor(base, speed, max);
  }

  lemma TableIsPositive(speed: int)
    ensures speed in TABLE ==> speed >= 0
  {
  }

  lemma QuotMakes(base: nat, speed: int, max: int)
    requires Quot(base, speed, max) != 0
    ensures Makes(base, speed, Quot(base, speed, max), Enum(base, speed)) && Enum(base, speed) <= 8
  {
    QuotIsDivisor(base, speed, max);
    TableIsPositive(speed);
    if speed !in TABLE {
      NearestEighth(base, speed);
    }
  }

  lemma BytesHold(r: Regs, d: nat, e: nat)
    requires Whole(r) && d < 65536 && e < 256
    ensures Holds(Banked(r.(dll := Low(d) as bv8, dlm := High(d) as bv8), BANK2, 4, (e % 256) as bv8), d, e)
  {
    assert BankOf(BANK2) == 2;
    assert High(d) == d / 256;
  }

  /** The bytes written hold it, with the eighths beside it. */
  lemma HoldsDivisor(r: Regs, base: nat, speed: int, max: int)
    requires Whole(r) && 0 < Quot(base, speed, max) < 65536
    ensures var quot := Quot(base, speed, max);
      var r' := Banked(r.(dll := Low(quot) as bv8, dlm := High(quot) as bv8), BANK2, 4, EnumByte(base, speed));
      Programmed(r', base, speed)
  {
    QuotMakes(base, speed, max);
    BytesHold(r, Quot(base, speed, max), Enum(base, speed));
  }

  /** Each character of the FIFO takes ten bits of quot clocks. */
  lemma WorkOfCharacter(fifo: nat, hz: nat, quot: nat)
    ensures Work(0, hz, quot) == 0 && Work(fifo + 1, hz, quot) == Work(fifo, hz, quot) + 10 * Times(hz, quot)
  {
  }

  /** Opens the divisor latch, writes both bytes, closes it. */
  method WriteDivisor(chip: Chip, quot: nat)
    requires chip.Valid()
    modifies chip, chip.plain, chip.bank
    ensures chip.View() == old(chip.View()).(dll := Low(quot) as bv8, dlm := High(quot) as bv8)
  {
    var cval := chip.Inb(LCR);
    Latch(cval);
    chip.Outb(LCR, cval | DLAB);
    chip.Outb(0, Low(quot) as bv8);
    chip.Outb(1, High(quot) as bv8);
    chip.Outb(LCR, cval);
  }

  lemma Latch(l: bv8)
    ensures (l | DLAB) & DLAB != 0
  {
  }

  lemma EighthsFit(base: nat, speed: int)
    requires speed > 0
    ensures Eighths(base, speed) <= 8
  {
    EighthsOfRest(speed, base % speed * 8);
  }

  /** The divisor and the eighths together are a nearest eighth to the exact divisor. */
  lemma NearestEighth(base: nat, speed: int)
    requires speed > 0
    ensures NearestEighths(base, speed, 8 * (base / speed) + Eighths(base, speed))
    ensures Eighths(base, speed) <= 8
    ensures Eighths(base, speed) == 8 <==> 16 * (speed - base % speed) < speed
  {
    Nearest(base, speed, base / speed, base % speed);
  }

  lemma Nearest(base: nat, speed: int, d: nat, r: nat)
    requires speed > 0 && base == speed * d + r && r < speed
    ensures var e := Rounded(r * 8, speed);
      && -speed <= 2 * (8 * base - Times(speed, 8 * d + e)) <= speed
      && e <= 8 && (e == 8 <==> 16 * (speed - r) < speed)
  {
    EighthsOfRest(speed, r * 8);
    Residue(base, speed, d, r, Rounded(r * 8, speed));
  }

  lemma Residue(base: int, speed: int, d: int, r: int, e: int)
    requires base == speed * d + r
    ensures 8 * base - Times(speed, 8 * d + e) == r * 8 - Times(speed, e)
  {
  }

  /** A number below 8 * speed, divided by speed and rounded. */
  lemma EighthsOfRest(speed: int, rest: nat)
    requires speed > 0 && rest < 8 * speed
    ensures var e := Rounded(rest, speed);
      e <= 8 && (e == 8 <==> 16 * speed - 2 * rest < speed) && -speed <= 2 * (rest - Times(speed, e)) <= speed
  {
    RoundedQuotient(speed, rest, rest / speed, rest % speed);
  }

  lemma RoundedQuotient(speed: int, rest: nat, q: nat, m: nat)
    requires rest == speed * q + m && m < speed && rest < 8 * speed
    ensures var e := if m > speed / 2 then q + 1 else q;
      e <= 8 && (e == 8 <==> 16 * speed - 2 * rest < speed) && -speed <= 2 * (rest - Times(speed, e)) <= speed
  {
    assert speed * (q + 1) == speed * q + speed;
    Monotone(8, q, speed);
    Monotone(q, 6, speed);
  }

  /** The bytes hold the divisor exactly when it fits in two. */
  lemma DivisorBytes(quot: nat)
    ensures High(quot) * 256 + Low(quot) == quot <==> quot < 65536
  {
  }

  /** At the clock of these boards the divisor of a speed in range does so from 15 baud up. */
  lemma DivisorFitsFrom15(speed: int, max: int)
    requires 0 < speed <= max
    ensures Quot(921600, speed, max) < 65536 <==> speed >= 15
  {
    FloorFitsFrom15(speed);
  }

  lemma FloorFitsFrom15(speed: int)
    requires 0 < speed
    ensures 921600 / speed < 65536 <==> speed >= 15
  {
    var q := 921600 / speed;
    assert q * speed <= 921600 < (q + 1) * speed;
    Monotone(65536, q, speed);
    Monotone(q + 1, 65536, speed);
  }
}
