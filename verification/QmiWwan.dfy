/**
 qmi_wwan's receive fixup and the address rule it rests on.

 A frame and a raw IP packet are told apart by the first four bits: 4 or 6 is an IP version
 (RFC 791, section 3.1; RFC 8200, section 3).  That works as long as no Ethernet frame meant for
 the host starts so, which the driver sees to by never keeping such an address.
 */
module QmiWwan {
  import opened Basics

  const ETH_ALEN := 6
  const ETH_HLEN := 14
  const DEFAULT_MODEM_ADDR: seq<bv8> := [0x02, 0x50, 0xf3, 0x00, 0x00, 0x00]
  const BUGGY_FW_ADDR: seq<bv8> := [0x00, 0xa0, 0xc6, 0x00, 0x00, 0x00]
  const ETH_P_IP: seq<bv8> := [0x08, 0x00]
  const ETH_P_IPV6: seq<bv8> := [0x86, 0xdd]

  // ----- addresses -------------------------------------------------------------------------

  predicate PossiblyIpHdr(b: bv8) {
    b & 0xd0 == 0x40
  }

  /** The mask of possibly_iphdr picks out exactly the version numbers 4 and 6. */
  lemma PossiblyIpHdrMeaning(b: bv8)
    ensures PossiblyIpHdr(b) <==> b & 0xf0 == 0x40 || b & 0xf0 == 0x60
  {
  }

  predicate IsAddr(a: seq<bv8>) {
    |a| == ETH_ALEN
  }

  /** What qmi_wwan_bind leaves of an address: made local, and no IP version any more. */
  function Fixed(b: bv8): bv8 {
    if PossiblyIpHdr(b) then (b | 0x02) & 0xbf else b
  }

  lemma FixedIsSafe(b: bv8)
    ensures !PossiblyIpHdr(Fixed(b)) && Fixed(b) & 0x01 == b & 0x01
    ensures PossiblyIpHdr(b) ==> Fixed(b) & 0x02 != 0
  {
  }

  /** Who sets the address: bind, with what the device says and a random one in hand, or user space. */
  datatype AddrEvent = Bind(told: seq<bv8>, random: seq<bv8>) | Change(addr: seq<bv8>, prepared: bool)

  predicate WellFormed(e: AddrEvent) {
    match e
    case Bind(told, random) => IsAddr(told) && IsAddr(random)
    case Change(addr, _) => IsAddr(addr)
  }

  function NextAddr(a: seq<bv8>, e: AddrEvent): seq<bv8>
    requires WellFormed(e)
  {
    match e
    case Bind(told, random) =>
      var chosen := if told == DEFAULT_MODEM_ADDR || told == BUGGY_FW_ADDR then random else told;
      chosen[0 := Fixed(chosen[0])]
    case Change(addr, prepared) => if prepared && !PossiblyIpHdr(addr[0]) then addr else a
  }

  ghost predicate AddrRun(a: seq<bv8>, es: seq<AddrEvent>, a': seq<bv8>)
    decreases |es|
  {
    if es == [] then a' == a else WellFormed(es[0]) && AddrRun(NextAddr(a, es[0]), es[1..], a')
  }

  predicate Safe(a: seq<bv8>) {
    IsAddr(a) && !PossiblyIpHdr(a[0])
  }

  /** From bind on, through any sequence of changes, no address starts like an IP header. */
  lemma {:induction false} AddressStaysSafe(a: seq<bv8>, es: seq<AddrEvent>, a': seq<bv8>)
    requires AddrRun(a, es, a') && (Safe(a) || (es != [] && es[0].Bind?))
    ensures Safe(a')
    decreases |es|
  {
    if es != [] {
      if es[0].Bind? {
        var told, random := es[0].told, es[0].random;
        var chosen := if told == DEFAULT_MODEM_ADDR || told == BUGGY_FW_ADDR then random else told;
        FixedIsSafe(chosen[0]);
      }
      AddressStaysSafe(NextAddr(a, es[0]), es[1..], a');
    }
  }

  // ----- the fixup -------------------------------------------------------------------------

  function Zeros(n: nat): seq<bv8> {
    seq(n, _ => 0)
  }

  /** What the stack is given; None when the buffer is rejected.  `first` is the byte at skb->data. */
  function Fixup(rawip: bool, dev: seq<bv8>, headroom: nat, first: bv8, data: seq<bv8>): (r: Option<seq<bv8>>)
    requires IsAddr(dev)
  {
    if |data| < (if rawip then 0 else ETH_HLEN) then None
    else if first & 0xf0 == 0x40 || first & 0xf0 == 0x60 then
      if rawip then Some(data)
      else if headroom < ETH_HLEN then None
      else Some(dev + Zeros(ETH_ALEN) + (if first & 0xf0 == 0x40 then ETH_P_IP else ETH_P_IPV6) + data)
    else if rawip then None
    else if first & 0xf0 == 0x00 && first & 0x01 == 0 then Some(dev + data[ETH_ALEN..])
    else Some(data)
  }

  /** A frame sent to the host arrives as it was sent exactly when the host's address is safe. */
  lemma FramesToUsUnchanged(dev: seq<bv8>, headroom: nat, data: seq<bv8>)
    requires IsAddr(dev) && |data| >= ETH_HLEN && data[..ETH_ALEN] == dev
    ensures Fixup(false, dev, headroom, data[0], data) == Some(data) <==> !PossiblyIpHdr(dev[0])
  {
    assert data[0] == dev[0];
    PossiblyIpHdrMeaning(dev[0]);
    assert dev + data[ETH_ALEN..] == data;
  }

  /** Broadcast frames, and the multicast frames of IPv4, IPv6 and ARP, are passed along. */
  lemma GroupFramesUnchanged(dev: seq<bv8>, headroom: nat, data: seq<bv8>)
    requires IsAddr(dev) && |data| >= ETH_HLEN && (data[0] == 0xff || data[0] == 0x01 || data[0] == 0x33)
    ensures Fixup(false, dev, headroom, data[0], data) == Some(data)
  {
  }

  /** A raw IP packet gets a header that names the host, with the packet's own type, and is not touched. */
  lemma RawPacketGetsHeader(dev: seq<bv8>, headroom: nat, data: seq<bv8>)
    requires IsAddr(dev) && |data| >= ETH_HLEN && headroom >= ETH_HLEN && PossiblyIpHdr(data[0])
    ensures var r := Fixup(false, dev, headroom, data[0], data);
      && r.Some? && |r.value| == ETH_HLEN + |data| && r.value[ETH_HLEN..] == data
      && r.value[..ETH_ALEN] == dev && r.value[ETH_ALEN..2 * ETH_ALEN] == Zeros(ETH_ALEN)
      && r.value[2 * ETH_ALEN..ETH_HLEN] == if data[0] & 0xf0 == 0x40 then ETH_P_IP else ETH_P_IPV6
  {
    PossiblyIpHdrMeaning(data[0]);
  }

  /**
   An Ethernet frame keeps its length and everything behind its destination.  Its destination becomes
   the host's exactly when it has first nibble 0 and is no group's; otherwise it stays too.
   */
  lemma FrameKeepsItsRest(dev: seq<bv8>, headroom: nat, data: seq<bv8>)
    requires IsAddr(dev) && |data| >= ETH_HLEN && !PossiblyIpHdr(data[0])
    ensures var r := Fixup(false, dev, headroom, data[0], data);
      && r.Some? && |r.value| == |data| && r.value[ETH_ALEN..] == data[ETH_ALEN..]
      && (data[0] & 0xf0 == 0x00 && data[0] & 0x01 == 0 ==> r.value[..ETH_ALEN] == dev)
      && (data[0] & 0xf0 != 0x00 || data[0] & 0x01 != 0 ==> r.value == data)
  {
    PossiblyIpHdrMeaning(data[0]);
  }

  /** Whatever is accepted in Ethernet mode is addressed to the host, or to a group, or to a stranger. */
  lemma AcceptedDestination(dev: seq<bv8>, headroom: nat, data: seq<bv8>)
    requires Safe(dev) && |data| >= ETH_HLEN
    ensures var r := Fixup(false, dev, headroom, data[0], data);
      r.Some? ==> |r.value| >= ETH_HLEN && !PossiblyIpHdr(r.value[0])
                  && (r.value[..ETH_ALEN] == dev || (r.value == data && (data[0] & 0x01 != 0 || data[0] & 0xf0 != 0)))
  {
    PossiblyIpHdrMeaning(data[0]);
  }

  /** What is rejected: short frames, packets without room for a header, and in raw mode all but IP. */
  lemma Rejected(rawip: bool, dev: seq<bv8>, headroom: nat, first: bv8, data: seq<bv8>)
    requires IsAddr(dev)
    ensures var r := Fixup(rawip, dev, headroom, first, data);
      && (rawip ==> r == if PossiblyIpHdr(first) then Some(data) else None)
      && (!rawip ==> (r.None? <==> |data| < ETH_HLEN || (PossiblyIpHdr(first) && headroom < ETH_HLEN)))
  {
    PossiblyIpHdrMeaning(first);
  }

  /** Fixing up what was fixed up changes nothing more: no header is ever made twice. */
  lemma FixupIdempotent(dev: seq<bv8>, headroom: nat, headroom': nat, data: seq<bv8>)
    requires Safe(dev) && |data| >= ETH_HLEN
    ensures var r := Fixup(false, dev, headroom, data[0], data);
      r.Some? ==> |r.value| > 0 && Fixup(false, dev, headroom', r.value[0], r.value) == r
  {
    PossiblyIpHdrMeaning(data[0]);
    PossiblyIpHdrMeaning(dev[0]);
    var r := Fixup(false, dev, headroom, data[0], data);
    if r.Some? && r.value[..ETH_ALEN] == dev {
      assert dev + r.value[ETH_ALEN..] == r.value;
    }
  }

  // ----- in place --------------------------------------------------------------------------

  /** A socket buffer: the bytes from start to end of its memory; start is the headroom. */
  class SkBuff {
    const buf: array<bv8>
    var start: nat
    var end: nat
    var protocol: seq<bv8>

    constructor (size: nat, headroom: nat, len: nat)
      requires headroom + len < size
      ensures Valid() && fresh(buf) && start == headroom && end == headroom + len
    {
      buf := new bv8[size];
      start, end, protocol := headroom, headroom + len, [];
    }

    /** There is always a byte to be read at skb->data, if perhaps not one of the packet's. */
    ghost predicate Valid()
      reads this
    {
      start <= end <= buf.Length && start < buf.Length
    }

    ghost function Data(): seq<bv8>
      reads this, buf
      requires Valid()
    {
      buf[start..end]
    }

    method Put(at: nat, bytes: seq<bv8>)
      requires at + |bytes| <= buf.Length
      modifies buf
      ensures forall k :: 0 <= k < buf.Length ==>
                buf[k] == if at <= k < at + |bytes| then bytes[k - at] else old(buf[k])
    {
      for i := 0 to |bytes|
        invariant forall k :: 0 <= k < buf.Length ==>
                    buf[k] == if at <= k < at + i then bytes[k - at] else old(buf[k])
      {
        buf[at + i] := bytes[i];
      }
    }
  }

  class Device {
    var devAddr: seq<bv8>
    var rawip: bool

    constructor (rawip: bool)
      ensures devAddr == Zeros(ETH_ALEN) && this.rawip == rawip
    {
      devAddr, this.rawip := Zeros(ETH_ALEN), rawip;
    }

    /** The end of qmi_wwan_bind. */
    method BindAddr(told: seq<bv8>, random: seq<bv8>)
      requires IsAddr(told) && IsAddr(random)
      modifies this`devAddr
      ensures devAddr == NextAddr(old(devAddr), Bind(told, random)) && Safe(devAddr)
      ensures var chosen := if told == DEFAULT_MODEM_ADDR || told == BUGGY_FW_ADDR then random else told;
        if PossiblyIpHdr(chosen[0]) then devAddr == [(chosen[0] | 0x02) & 0xbf] + chosen[1..] else devAddr == chosen
    {
      devAddr := told;
      if devAddr == DEFAULT_MODEM_ADDR || devAddr == BUGGY_FW_ADDR {
        devAddr := random;
      }
      FixedIsSafe(devAddr[0]);
      if PossiblyIpHdr(devAddr[0]) {
        devAddr := devAddr[0 := devAddr[0] | 0x02];
        devAddr := devAddr[0 := devAddr[0] & 0xbf];
      }
    }

    /** qmi_wwan_mac_addr; `prepared` is the answer of eth_prepare_mac_addr_change. */
    method MacAddr(addr: seq<bv8>, prepared: bool) returns (ok: bool)
      requires IsAddr(addr) && Safe(devAddr)
      modifies this`devAddr
      ensures devAddr == NextAddr(old(devAddr), Change(addr, prepared)) && Safe(devAddr)
      ensures ok == (prepared && !PossiblyIpHdr(addr[0])) && devAddr == if ok then addr else old(devAddr)
    {
      if !prepared {
        return false;
      }
      if PossiblyIpHdr(addr[0]) {
        return false;
      }
      devAddr := addr;
      ok := true;
    }

    /** qmi_wwan_rx_fixup */
    method RxFixup(skb: SkBuff) returns (ok: bool)
      requires skb.Valid() && IsAddr(devAddr)
      modifies skb, skb.buf
      ensures skb.Valid()
      ensures var r := Fixup(rawip, devAddr, old(skb.start), old(skb.buf[skb.start]), old(skb.Data()));
        && ok == r.Some?
        && skb.Data() == if ok then r.value else old(skb.Data())
      ensures skb.end == old(skb.end)
      ensures ok && |skb.Data()| == |old(skb.Data())| && !rawip ==>
                skb.Data()[ETH_ALEN..] == old(skb.Data())[ETH_ALEN..]
      ensures ok && |skb.Data()| != |old(skb.Data())| ==> skb.Data()[ETH_HLEN..] == old(skb.Data())
      ensures ok && rawip ==> skb.protocol == if old(skb.buf[skb.start]) & 0xf0 == 0x40 then ETH_P_IP else ETH_P_IPV6
    {
      if skb.end - skb.start < (if rawip then 0 else ETH_HLEN) {
        return false;
      }
      var first := skb.buf[skb.start];
      var proto := [];
      if first & 0xf0 == 0x40 {
        proto := ETH_P_IP;
      } else if first & 0xf0 == 0x60 {
        proto := ETH_P_IPV6;
      } else if first & 0xf0 == 0x00 {
        if rawip {
          return false;
        }
        if first & 0x01 != 0 {
          return true;
        }
        FixDest(skb);
        return true;
      } else {
        return !rawip;
      }
      if rawip {
        skb.protocol := proto;
        return true;
      }
      if skb.start < ETH_HLEN {
        return false;
      }
      MakeHeader(skb, proto);
      ok := true;
    }

    /** skb_push and the three fields of the header. */
    method MakeHeader(skb: SkBuff, proto: seq<bv8>)
      requires skb.Valid() && IsAddr(devAddr) && skb.start >= ETH_HLEN && |proto| == 2
      modifies skb`start, skb.buf
      ensures skb.Valid() && skb.start == old(skb.start) - ETH_HLEN
      ensures skb.Data() == devAddr + Zeros(ETH_ALEN) + proto + old(skb.Data())
    {
      skb.start := skb.start - ETH_HLEN;
      skb.Put(skb.start + 2 * ETH_ALEN, proto);
      skb.Put(skb.start + ETH_ALEN, Zeros(ETH_ALEN));
      skb.Put(skb.start, devAddr);
      ghost var d := skb.Data();
      ghost var want := devAddr + Zeros(ETH_ALEN) + proto + old(skb.Data());
      forall k | 0 <= k < |want|
        ensures d[k] == want[k]
      {
        assert d[k] == skb.buf[skb.start + k];
        if k >= ETH_HLEN {
          assert want[k] == old(skb.Data())[k - ETH_HLEN];
        }
      }
    }

    method FixDest(skb: SkBuff)
      requires skb.Valid() && IsAddr(devAddr) && skb.end - skb.start >= ETH_HLEN
      modifies skb.buf
      ensures skb.Valid() && skb.Data() == devAddr + old(skb.Data())[ETH_ALEN..]
    {
      skb.Put(skb.start, devAddr);
      ghost var d := skb.Data();
      assert d[..ETH_ALEN] == devAddr;
      assert d[ETH_ALEN..] == old(skb.Data())[ETH_ALEN..];
    }
  }
}
