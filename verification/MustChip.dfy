/**
 The hidden registers of the MOXA MUST UART and the macros that reach them.

 While LCR reads 0xBF, offset 2 is EFR and offsets 4 to 7 are one of four banks, which EFR's top
 two bits choose; while LCR's DLAB bit is set, offsets 0 and 1 are the divisor.  Every macro opens
 this file by writing LCR and closes it by writing LCR back.
 */
module MustChip {

  const ENTER: bv8 := 0xBF
  const DLAB: bv8 := 0x80
  const BANK_MASK: bv8 := 0xC0
  const BANK0: bv8 := 0x00
  const BANK1: bv8 := 0x40
  const BANK2: bv8 := 0x80
  const EFRB_ENABLE: bv8 := 0x10
  const TX_MASK: bv8 := 0x0C
  const TX1: bv8 := 0x08
  const RX_MASK: bv8 := 0x03
  const RX1: bv8 := 0x02
  const FLOW_MASK: bv8 := 0x0F

  const LCR := 3
  const EFR := 2

  /** Everything the chip remembers.  `plain` and `bank` are offsets 4 to 7 outside and inside the file. */
  datatype Regs = Regs(lcr: bv8, efr: bv8, dll: bv8, dlm: bv8, thr: bv8, ier: bv8, fcr: bv8,
                       plain: seq<bv8>, bank: seq<bv8>)

  function BankOf(efr: bv8): (b: nat)
    ensures b < 4
  {
    if efr & BANK_MASK == BANK0 then 0
    else if efr & BANK_MASK == BANK1 then 1
    else if efr & BANK_MASK == BANK2 then 2
    else 3
  }

  predicate Whole(r: Regs) {
    |r.plain| == 4 && |r.bank| == 16
  }

  /** What a write to an offset does to the chip. */
  function Written(r: Regs, off: nat, v: bv8): Regs
    requires Whole(r) && off < 8
  {
    if off == 0 then (if r.lcr & DLAB != 0 then r.(dll := v) else r.(thr := v))
    else if off == 1 then (if r.lcr & DLAB != 0 then r.(dlm := v) else r.(ier := v))
    else if off == 2 then (if r.lcr == ENTER then r.(efr := v) else r.(fcr := v))
    else if off == 3 then r.(lcr := v)
    else if r.lcr == ENTER then r.(bank := r.bank[4 * BankOf(r.efr) + off - 4 := v])
    else r.(plain := r.plain[off - 4 := v])
  }

  /** The net effect of a macro that writes one banked register. */
  function Banked(r: Regs, bits: bv8, off: nat, v: bv8): Regs
    requires Whole(r) && 4 <= off < 8
  {
    r.(efr := (r.efr & !BANK_MASK) | bits, bank := r.bank[4 * BankOf(bits) + off - 4 := v])
  }

  predicate IsBank(bits: bv8) {
    bits & !BANK_MASK == 0
  }

  class Chip {
    var lcr: bv8
    var efr: bv8
    var dll: bv8
    var dlm: bv8
    var thr: bv8
    var ier: bv8
    var fcr: bv8
    const plain: array<bv8>
    const bank: array<bv8>

    constructor ()
      ensures Valid() && fresh(plain) && fresh(bank)
    {
      plain := new bv8[4];
      bank := new bv8[16];
    }

    ghost predicate Valid()
      reads this
    {
      plain.Length == 4 && bank.Length == 16 && plain != bank
    }

    ghost function View(): Regs
      reads this, plain, bank
    {
      Regs(lcr, efr, dll, dlm, thr, ier, fcr, plain[..], bank[..])
    }

    method Outb(off: nat, v: bv8)
      requires Valid() && off < 8
      modifies this, plain, bank
      ensures View() == Written(old(View()), off, v)
    {
      if off == 0 {
        if lcr & DLAB != 0 { dll := v; } else { thr := v; }
      } else if off == 1 {
        if lcr & DLAB != 0 { dlm := v; } else { ier := v; }
      } else if off == 2 {
        if lcr == ENTER { efr := v; } else { fcr := v; }
      } else if off == 3 {
        lcr := v;
      } else if lcr == ENTER {
        bank[4 * BankOf(efr) + off - 4] := v;
      } else {
        plain[off - 4] := v;
      }
    }

    /** inb of LCR, or of EFR while the file is open. */
    method Inb(off: nat) returns (v: bv8)
      requires Valid() && (off == LCR || (off == EFR && lcr == ENTER))
      ensures v == if off == LCR then lcr else efr
    {
      v := if off == LCR then lcr else efr;
    }

    /** SET_MOXA_MUST_*_VALUE with one register: the shape they all share. */
    method SetBanked(bits: bv8, off: nat, v: bv8)
      requires Valid() && IsBank(bits) && 4 <= off < 8
      modifies this, plain, bank
      ensures View() == Banked(old(View()), bits, off, v)
    {
      var oldlcr := Inb(LCR);
      Outb(LCR, ENTER);
      var e := Inb(EFR);
      e := e & !BANK_MASK;
      e := e | bits;
      SameBank(efr, bits);
      Outb(EFR, e);
      Outb(off, v);
      Outb(LCR, oldlcr);
    }

    /** SET_MOXA_MUST_FIFO_VALUE: the four thresholds of bank 1, with the bank chosen once. */
    method SetFifo(high: bv8, trigger: bv8, low: bv8)
      requires Valid()
      modifies this, plain, bank
      ensures View() == old(View()).(efr := (old(efr) & !BANK_MASK) | BANK1,
                                     bank := old(bank[..])[5 := high][6 := trigger][4 := low][7 := 0])
    {
      var oldlcr := Inb(LCR);
      Outb(LCR, ENTER);
      var e := Inb(EFR);
      e := e & !BANK_MASK;
      e := e | BANK1;
      SameBank(efr, BANK1);
      Outb(EFR, e);
      Outb(5, high);
      Outb(6, trigger);
      Outb(4, low);
      Outb(7, 0);
      Outb(LCR, oldlcr);
    }

    /** The macros that clear some bits of EFR and set others. */
    method ChangeEfr(clear: bv8, bits: bv8)
      requires Valid()
      modifies this, plain, bank
      ensures View() == old(View()).(efr := (old(efr) & !clear) | bits)
    {
      var oldlcr := Inb(LCR);
      Outb(LCR, ENTER);
      var e := Inb(EFR);
      e := e & !clear;
      e := e | bits;
      Outb(EFR, e);
      Outb(LCR, oldlcr);
    }

    /** GET_MOXA_MUST_HARDWARE_ID, for any banked register: leaves EFR's bank bits changed, all else alone. */
    method GetBanked(bits: bv8, off: nat) returns (v: bv8)
      requires Valid() && IsBank(bits) && 4 <= off < 8
      modifies this, plain, bank
      ensures v == old(bank[4 * BankOf(bits) + off - 4])
      ensures View() == old(View()).(efr := (old(efr) & !BANK_MASK) | bits)
    {
      var oldlcr := Inb(LCR);
      Outb(LCR, ENTER);
      var e := Inb(EFR);
      e := e & !BANK_MASK;
      e := e | bits;
      SameBank(efr, bits);
      Outb(EFR, e);
      v := bank[4 * BankOf(efr) + off - 4];
      Outb(LCR, oldlcr);
    }

    /** Thresholds and flow-control characters, as mxser_change_speed programs them. */
    method SetThresholds(start: bv8, stop: bv8, high: bv8, trigger: bv8, low: bv8)
      requires Valid()
      modifies this, plain, bank
      ensures View() == old(View()).(efr := efr,
          bank := old(bank[..])[5 := high][6 := trigger][4 := low][7 := 0][0 := start][2 := stop])
      ensures efr == old(efr) & !BANK_MASK
    {
      SetFifo(high, trigger, low);
      SetBanked(BANK0, 4, start);
      SetBanked(BANK0, 6, stop);
    }

    /** ENABLE or DISABLE of the chip's software flow control, in each direction. */
    method SetFlow(ixon: bool, ixoff: bool)
      requires Valid()
      modifies this, plain, bank
      ensures View() == old(View()).(efr := Tx(Rx(old(efr), ixon), ixoff))
    {
      if ixon {
        ChangeEfr(RX_MASK, RX1);
      } else {
        ChangeEfr(RX_MASK, 0);
      }
      if ixoff {
        ChangeEfr(TX_MASK, TX1);
      } else {
        ChangeEfr(TX_MASK, 0);
      }
    }

    /** The part of mxser_change_speed that programs the FIFO and the software flow control. */
    method ChangeSpeed(ixon: bool, ixoff: bool, start: bv8, stop: bv8, high: bv8, trigger: bv8, low: bv8)
      requires Valid()
      modifies this, plain, bank
      ensures View() == old(View()).(efr := efr,
          bank := old(bank[..])[5 := high][6 := trigger][4 := low][7 := 0][0 := start][2 := stop])
      ensures efr & FLOW_MASK == (if ixon then RX1 else 0) | (if ixoff then TX1 else 0)
      ensures efr & !(FLOW_MASK | BANK_MASK) == old(efr) & !(FLOW_MASK | BANK_MASK)
      ensures efr & EFRB_ENABLE == old(efr) & EFRB_ENABLE && efr & BANK_MASK == BANK0
    {
      SetThresholds(start, stop, high, trigger, low);
      SetFlow(ixon, ixoff);
      FlowBits(old(efr), ixon, ixoff);
    }
  }

  /** What the macros for received and for sent XON/XOFF make of EFR. */
  function Rx(e: bv8, on: bool): bv8 {
    (e & !RX_MASK) | (if on then RX1 else 0)
  }

  function Tx(e: bv8, on: bool): bv8 {
    (e & !TX_MASK) | (if on then TX1 else 0)
  }

  /** The macros of the two directions are independent, and of one direction the last one counts. */
  lemma FlowMacrosCompose(e: bv8, a: bool, b: bool, c: bool)
    ensures Tx(Rx(e, a), b) == Rx(Tx(e, b), a)
    ensures Rx(Rx(e, a), c) == Rx(e, c) && Tx(Tx(e, b), c) == Tx(e, c)
    ensures Rx(Tx(Rx(e, a), b), false) == Tx(Rx(e, false), b)
  {
  }

  /** Writing one banked register leaves the fifteen others, and what another bank held, alone. */
  lemma BankedIsPrecise(r: Regs, bits: bv8, off: nat, v: bv8, bits': bv8, off': nat)
    requires Whole(r) && IsBank(bits) && IsBank(bits') && 4 <= off < 8 && 4 <= off' < 8
    ensures Banked(r, bits, off, v).bank[4 * BankOf(bits') + off' - 4] ==
              if bits' == bits && off' == off then v else r.bank[4 * BankOf(bits') + off' - 4]
    ensures Banked(r, bits, off, v).efr & !BANK_MASK == r.efr & !BANK_MASK
    ensures Banked(r, bits, off, v) == r.(efr := Banked(r, bits, off, v).efr, bank := Banked(r, bits, off, v).bank)
  {
    if BankOf(bits) == BankOf(bits') {
      BankOfIsOneToOne(bits, bits');
    }
  }

  lemma BankOfIsOneToOne(bits: bv8, bits': bv8)
    requires IsBank(bits) && IsBank(bits') && BankOf(bits) == BankOf(bits')
    ensures bits == bits'
  {
  }

  lemma SameBank(efr: bv8, bits: bv8)
    requires IsBank(bits)
    ensures BankOf((efr & !BANK_MASK) | bits) == BankOf(bits)
  {
    assert ((efr & !BANK_MASK) | bits) & BANK_MASK == bits & BANK_MASK;
  }

  lemma FlowBits(e0: bv8, ixon: bool, ixoff: bool)
    ensures var e := Tx(Rx(e0 & !BANK_MASK, ixon), ixoff);
      && e & FLOW_MASK == (if ixon then RX1 else 0) | (if ixoff then TX1 else 0)
      && e & !(FLOW_MASK | BANK_MASK) == e0 & !(FLOW_MASK | BANK_MASK)
      && e & EFRB_ENABLE == e0 & EFRB_ENABLE && e & BANK_MASK == BANK0
  {
  }
}
