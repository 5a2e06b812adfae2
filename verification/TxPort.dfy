/**
 The transmit side of a port, updated in place: mxser's entry points, each from its first line to
 its last, and the chunked drain of mxupcie.
 */
module TxPort {
  import opened Basics
  import opened TxRing

  const FIFO_SIZE := 128      // MX_TX_FIFO_SIZE

  class Port {
    const xmitBuf: array<byte>
    const fifoSize: int       // xmit_fifo_size
    const auto: bool          // a 16550A or a MUST chip: it obeys CTS by itself
    const must: bool
    var head: int
    var tail: int
    var cnt: int
    var stopped: bool
    var hwStopped: bool
    var thri: bool
    var xChar: byte
    var recv: bool            // the MUST chip's receive interrupts
    var rts: bool
    var ldiscStopRx: bool
    var txcnt: nat
    ghost var wire: seq<byte> // what went to the chip, flow-control characters included

    ghost function AsRing(): Ring
      reads this, xmitBuf
    {
      Ring(xmitBuf[..], head, tail, cnt)
    }

    ghost function Waiting(): seq<byte>
      reads this, xmitBuf
    {
      Queue(AsRing())
    }

    predicate Held()
      reads this
    {
      stopped || (hwStopped && !auto)
    }

    /** The transmit counter counts what was sent. */
    ghost predicate Counted()
      reads this
    {
      txcnt == |wire|
    }

    /** The page is in order, and the interrupt is armed when there is something it may send. */
    ghost predicate Valid()
      reads this, xmitBuf
    {
      RingOk(AsRing()) && Counted() && (must ==> auto) && (cnt > 0 && !Held() ==> thri)
    }

    constructor (fifoSize: int, auto: bool, must: bool)
      requires must ==> auto
      ensures Valid() && Waiting() == [] && !thri && fresh(xmitBuf) && txcnt == 0 && wire == []
      ensures this.fifoSize == fifoSize && this.auto == auto && this.must == must
    {
      xmitBuf := new byte[SIZE];
      this.fifoSize, this.auto, this.must := fifoSize, auto, must;
      head, tail, cnt := 0, 0, 0;
      recv, rts, ldiscStopRx := must, true, false;
      stopped, hwStopped, thri, xChar := false, false, false, 0;
      txcnt, wire := 0, [];
    }

    /** mxser_write_room */
    method WriteRoom() returns (room: int)
      requires RingOk(AsRing())
      ensures room == SIZE - 1 - |Waiting()|
    {
      room := SIZE - cnt - 1;
      if room < 0 {
        room := 0;
      }
    }

    /** Clears and sets THRI, unless transmission is held back. */
    method Rearm()
      modifies this`thri
      ensures thri == (old(thri) || !Held())
    {
      if !stopped {
        if !hwStopped || auto {
          thri := true;
        }
      }
    }

    /** memcpy of src[..c] to the page at head */
    method CopyIn(src: seq<byte>, c: int)
      requires 0 <= c <= |src| && 0 <= head && head + c <= xmitBuf.Length
      modifies xmitBuf
      ensures forall j :: 0 <= j < xmitBuf.Length ==>
                xmitBuf[j] == if head <= j < head + c then src[j - head] else old(xmitBuf[j])
    {
      for i := 0 to c
        invariant forall j :: 0 <= j < xmitBuf.Length ==>
                    xmitBuf[j] == if head <= j < head + i then src[j - head] else old(xmitBuf[j])
      {
        xmitBuf[head + i] := src[i];
      }
    }

    /** One turn of mxser_write's loop. */
    method WriteChunk(src: seq<byte>, c: int)
      requires RingOk(AsRing()) && 0 < c <= |src| && c <= SIZE - cnt - 1 && c <= SIZE - head
      modifies this`head, this`cnt, xmitBuf
      ensures RingOk(AsRing()) && Waiting() == old(Waiting()) + src[..c]
      ensures cnt == old(cnt) + c && head == if old(head) + c == SIZE then 0 else old(head) + c
    {
      ghost var r := AsRing();
      CopyIn(src, c);
      CopyCommits(r, xmitBuf[..], src, c);
      head := (head + c) % SIZE;
      cnt := cnt + c;
    }

    /** mxser_write, mxupcie_write: takes what there is room for, in at most two copies. */
    method Write(src: seq<byte>) returns (total: nat, ghost copies: nat)
      requires Valid()
      modifies this`head, this`cnt, this`thri, xmitBuf
      ensures Valid()
      ensures total == Min(|src|, SIZE - 1 - old(cnt)) && copies <= 2
      ensures Waiting() == old(Waiting()) + src[..total]
      ensures thri == (old(thri) || (cnt > 0 && !Held()))
    {
      total, copies := 0, 0;
      var c := Min(|src|, Min(SIZE - cnt - 1, SIZE - head));
      while c > 0
        invariant RingOk(AsRing()) && total <= |src| && cnt == old(cnt) + total && thri == old(thri)
        invariant Waiting() == old(Waiting()) + src[..total]
        invariant c == Min(|src| - total, Min(SIZE - cnt - 1, SIZE - head))
        invariant copies <= 2 && (copies == 1 ==> c <= 0 || head == 0) && (copies == 2 ==> c <= 0)
        decreases |src| - total
      {
        WriteChunk(src[total..], c);
        PrefixGrows(src, total, c);
        total := total + c;
        copies := copies + 1;
        c := Min(|src| - total, Min(SIZE - cnt - 1, SIZE - head));
      }
      if cnt > 0 {
        Rearm();
      }
    }

    /** mxser_put_char */
    method PutChar(ch: byte) returns (n: int)
      requires Valid()
      modifies this`head, this`cnt, this`thri, xmitBuf
      ensures Valid()
      ensures n == if old(cnt) < SIZE - 1 then 1 else 0
      ensures Waiting() == old(Waiting()) + if n == 1 then [ch] else []
      ensures thri == (old(thri) || (n == 1 && !Held()))
    {
      if cnt >= SIZE - 1 {
        return 0;
      }
      ghost var r := AsRing();
      xmitBuf[head] := ch;
      CopyCommits(r, xmitBuf[..], [ch], 1);
      head := (head + 1) % SIZE;
      cnt := cnt + 1;
      Rearm();
      n := 1;
    }

    /** mxser_flush_chars */
    method FlushChars()
      requires Valid()
      modifies this`thri
      ensures Valid() && thri == (old(thri) || (cnt > 0 && !Held()))
    {
      if cnt <= 0 || stopped || (hwStopped && !auto) {
        return;
      }
      thri := true;
    }

    /** mxser_flush_buffer */
    method FlushBuffer()
      requires Valid()
      modifies this`head, this`tail, this`cnt
      ensures Valid() && Waiting() == []
    {
      cnt, head, tail := 0, 0, 0;
    }

    /** Takes the oldest byte off the page and gives it to the chip. */
    method SendOne()
      requires RingOk(AsRing()) && cnt > 0
      modifies this`tail, this`cnt, this`wire
      ensures RingOk(AsRing()) && cnt == old(cnt) - 1
      ensures wire == old(wire) + [old(Waiting())[0]] && Waiting() == old(Waiting())[1..]
    {
      ChunkSent(AsRing(), 1);
      assert xmitBuf[tail] == Waiting()[0] by {
        assert Slot(tail, 0) == tail;
      }
      wire := wire + [xmitBuf[tail]];
      tail := tail + 1;
      tail := tail % SIZE;
      cnt := cnt - 1;
    }

    /** mxser_transmit_chars */
    method TransmitChars()
      requires Valid()
      modifies this`tail, this`cnt, this`thri, this`xChar, this`txcnt, this`wire
      ensures Valid()
      ensures var n := if old(xChar) != 0 || Held() then 0 else Min(old(cnt), if fifoSize < 1 then 1 else fifoSize);
        && wire == old(wire) + (if old(xChar) != 0 then [old(xChar)] else old(Waiting())[..n])
        && Waiting() == old(Waiting())[n..]
        && txcnt == old(txcnt) + if old(xChar) != 0 then 1 else n
      ensures xChar == 0
      ensures thri == (old(thri) && (old(xChar) != 0 || old(cnt) == 0 || !Held()))
    {
      if xChar != 0 {
        wire := wire + [xChar];
        xChar := 0;
        txcnt := txcnt + 1;
        return;
      }
      if cnt == 0 {
        return;
      }
      if stopped || (hwStopped && !auto) {
        thri := false;
        return;
      }
      var n := SendBurst();
      txcnt := txcnt + n;
    }

    /** The loop of mxser_transmit_chars: a FIFO's worth, but at least one byte. */
    method SendBurst() returns (n: nat)
      requires RingOk(AsRing()) && cnt > 0
      modifies this`tail, this`cnt, this`wire
      ensures RingOk(AsRing()) && n == Min(old(cnt), if fifoSize < 1 then 1 else fifoSize)
      ensures wire == old(wire) + old(Waiting())[..n] && Waiting() == old(Waiting())[n..]
    {
      var count := fifoSize;
      var going := true;
      n := 0;
      while going
        invariant RingOk(AsRing()) && 0 <= cnt && n == old(cnt) - cnt
        invariant going ==> cnt > 0 && count == fifoSize - n && (n == 0 || count > 0)
        invariant !going ==> (n == 1 || 1 <= n <= fifoSize) && (cnt == 0 || n >= fifoSize)
        invariant wire == old(wire) + old(Waiting())[..n]
        invariant Waiting() == old(Waiting())[n..]
        decreases cnt, going
      {
        SendOne();
        n := n + 1;
        if cnt <= 0 {
          going := false;
        } else {
          count := count - 1;
          going := count > 0;
        }
      }
    }

    /** The memcpy of mx_transmit_chars and the fields it moves. */
    method SendChunk(n: nat)
      requires RingOk(AsRing()) && n <= cnt && tail + n <= SIZE
      modifies this`tail, this`cnt, this`wire
      ensures RingOk(AsRing()) && cnt == old(cnt) - n && tail == if old(tail) + n == SIZE then 0 else old(tail) + n
      ensures wire == old(wire) + old(Waiting())[..n] && Waiting() == old(Waiting())[n..]
    {
      ChunkSent(AsRing(), n);
      wire := wire + xmitBuf[tail..tail + n];
      tail := tail + n;
      tail := tail % SIZE;
      cnt := cnt - n;
    }

    /**
     mx_transmit_chars of mxupcie: one copy of the oldest bytes, as many as there are, as the
     chip has room for, and as stand before the page's end.
     */
    method TransmitChunk(tcnt: nat) returns (n: nat)
      requires Valid() && tcnt <= FIFO_SIZE
      modifies this`tail, this`cnt, this`thri, this`txcnt, this`wire
      ensures RingOk(AsRing()) && Counted() && thri == (old(thri) && (old(cnt) == 0 || !stopped))
      ensures n <= FIFO_SIZE - tcnt && n <= old(cnt) && txcnt == old(txcnt) + n
      ensures wire == old(wire) + old(Waiting())[..n] && Waiting() == old(Waiting())[n..]
      ensures stopped ==> n == 0
      ensures !stopped ==> Waiting() == [] || n == FIFO_SIZE - tcnt || (n > 0 && tail == 0)
    {
      n := 0;
      if cnt == 0 {
        return;
      }
      if stopped {
        thri := false;
        return;
      }
      n := Min(cnt, Min(FIFO_SIZE - tcnt, SIZE - tail));
      if n != 0 {
        SendChunk(n);
      }
      txcnt := txcnt + n;
    }

    /** mxser_stop, as stop_tty calls it. */
    method Stop()
      requires Valid()
      modifies this`stopped, this`thri
      ensures Valid() && stopped && !thri
    {
      stopped := true;
      if thri {
        thri := false;
      }
    }

    /** mxser_start, after the caller cleared tty->stopped, or tty->hw_stopped, or both. */
    method Start(clearStopped: bool, clearHw: bool)
      requires Valid()
      modifies this`stopped, this`hwStopped, this`thri
      ensures Valid() && stopped == (old(stopped) && !clearStopped) && hwStopped == (old(hwStopped) && !clearHw)
      ensures thri == (old(thri) || cnt > 0)
    {
      stopped := stopped && !clearStopped;
      hwStopped := hwStopped && !clearHw;
      if cnt != 0 {
        thri := true;
      }
    }

    /** The CTS part of mxser_check_modem_status. */
    method CheckModemStatus(ctsFlow: bool, cts: bool)
      requires Valid()
      modifies this`hwStopped, this`thri
      ensures Valid() && hwStopped == if ctsFlow then !cts else old(hwStopped)
      ensures auto || hwStopped == old(hwStopped) ==> thri == old(thri)
      ensures !auto && hwStopped != old(hwStopped) ==> thri == !hwStopped
    {
      if ctsFlow {
        if hwStopped {
          if cts {
            hwStopped := false;
            if !auto {
              thri := true;
            }
          }
        } else if !cts {
          hwStopped := true;
          if !auto {
            thri := false;
          }
        }
      }
    }

    /** The CRTSCTS part of mxser_change_speed, which sees to hw_stopped only if the chip does not. */
    method ChangeSpeed(crtscts: bool, cts: bool)
      requires Valid()
      modifies this`hwStopped, this`thri
      ensures Valid() && hwStopped == if crtscts && !auto then !cts else old(hwStopped)
      ensures thri == if hwStopped == old(hwStopped) then old(thri) else !hwStopped
    {
      if crtscts && !auto {
        CheckModemStatus(true, cts);
      }
    }

    /** mxser_set_termios, for a change of the flags that change_speed looks at. */
    method SetTermios(wasCrtscts: bool, crtscts: bool, cts: bool, wasIxon: bool, ixon: bool)
      requires Valid()
      modifies this`stopped, this`hwStopped, this`thri
      ensures Valid()
      ensures stopped == (old(stopped) && !(wasIxon && !ixon))
      ensures hwStopped == if crtscts then (if auto then old(hwStopped) else !cts) else old(hwStopped) && !wasCrtscts
      ensures var first := if crtscts && !auto && old(hwStopped) == cts then cts else old(thri);
        thri == (first || (cnt > 0 && ((wasCrtscts && !crtscts) || (wasIxon && !ixon))))
    {
      ChangeSpeed(crtscts, cts);
      if wasCrtscts && !crtscts {
        Start(false, true);
      }
      if wasIxon && !ixon {
        Start(true, false);
      }
    }

    /** mxser_stoprx: asks the other side to pause by character, by the chip, or by RTS. */
    method StopRx(ixoff: bool, crtscts: bool, closing: bool, stopChar: byte)
      requires Valid()
      modifies this`xChar, this`thri, this`recv, this`rts, this`ldiscStopRx
      ensures Valid() && ldiscStopRx && thri == (old(thri) || (ixoff && !must && !closing))
      ensures xChar == if ixoff && !must && !closing then stopChar else old(xChar)
      ensures recv == (old(recv) && !(ixoff && must)) && rts == (old(rts) && !crtscts)
    {
      ldiscStopRx := true;
      if ixoff {
        if must {
          recv := false;
        } else if !closing {
          xChar := stopChar;
          thri := true;
        }
      }
      if crtscts {
        rts := false;
      }
    }

    /** mxser_startrx: takes the request back, or asks the other side to go on. */
    method StartRx(ixoff: bool, crtscts: bool, closing: bool, startChar: byte)
      requires Valid()
      modifies this`xChar, this`thri, this`recv, this`rts, this`ldiscStopRx
      ensures Valid() && !ldiscStopRx && thri == (old(thri) || (ixoff && old(xChar) == 0 && !must && !closing))
      ensures xChar == if !ixoff then old(xChar)
                       else if old(xChar) != 0 || must || closing then 0 else startChar
      ensures recv == (old(recv) || (ixoff && old(xChar) == 0 && must)) && rts == (old(rts) || crtscts)
    {
      ldiscStopRx := false;
      if ixoff {
        if xChar != 0 {
          xChar := 0;
        } else if must {
          recv := true;
        } else if !closing {
          xChar := startChar;
          thri := true;
        }
      }
      if crtscts {
        rts := true;
      }
    }
  }

  lemma PrefixGrows(src: seq<byte>, n: nat, c: nat)
    requires n + c <= |src|
    ensures src[..n] + src[n..][..c] == src[..n + c]
  {
    assert src[n..][..c] == src[n..n + c];
  }

  /** Bytes copied to the page at head, up to its end, are then the last of the queue. */
  lemma CopyCommits(r: Ring, page: seq<byte>, src: seq<byte>, c: nat)
    requires RingOk(r) && |page| == SIZE && 0 < c <= |src| && r.cnt + c <= SIZE - 1 && r.head + c <= SIZE
    requires forall j :: 0 <= j < SIZE ==> page[j] == if r.head <= j < r.head + c then src[j - r.head] else r.page[j]
    ensures var r' := Ring(page, (r.head + c) % SIZE, r.tail, r.cnt + c); RingOk(r') && Queue(r') == Queue(r) + src[..c]
  {
    var r' := Ring(page, (r.head + c) % SIZE, r.tail, r.cnt + c);
    assert r'.head == Slot(r.tail, r.cnt + c);
    forall i | 0 <= i < r.cnt + c
      ensures Queue(r')[i] == (Queue(r) + src[..c])[i]
    {
      var j := Slot(r.tail, i);
      assert i >= r.cnt ==> j == r.head + (i - r.cnt);
      assert i < r.cnt ==> !(r.head <= j < r.head + c);
    }
  }
}
