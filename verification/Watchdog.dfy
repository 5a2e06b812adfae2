/**
 The magic close of the Moxa V2100 watchdog: closing the device stops the timer only if the last
 thing written said so.
 */
module Watchdog {
  import opened Basics

  const MIN_TIME := 2
  const MAX_TIME := 255

  datatype Call =
    | Open
    | Write(bytes: seq<char>, fault: bool)     // the bytes that can be read, and whether one after them cannot
    | Release
    | SetTimeout(time: int)
    | SetOptions(disable: bool, enable: bool)
    | KeepAlive
    | SetParams(nowayout: bool, timeout: int)  // the module's parameters, written through sysfs
    | Shutdown                                 // the reboot notifier

  /** counter is the time-out register, a byte; 0 stops the timer. */
  datatype State = State(inUse: bool, okToClose: bool, nowayout: bool, timeout: int, counter: nat)

  predicate Timeout(t: int) {
    MIN_TIME < t <= MAX_TIME
  }

  /** A write of at least one byte, readable or not. */
  predicate IsData(c: Call) {
    c.Write? && (c.bytes != [] || c.fault)
  }

  /** A call on the device needs the open file. */
  predicate Allowed(s: State, c: Call) {
    c.Open? || c.SetParams? || c.Shutdown? || s.inUse
  }

  /** Puts the timeout's low byte, which is also that of a negative one, in its register. */
  function Wound(s: State): State {
    s.(counter := s.timeout % 256)
  }

  function Next(s: State, c: Call): State {
    match c
    case Open => if s.inUse then s else Wound(s.(inUse := true, okToClose := false))
    case Write(bytes, fault) =>
      if !IsData(c) then s
      else if s.nowayout then Wound(s)
      else if fault then s.(okToClose := 'V' in bytes)
      else Wound(s.(okToClose := 'V' in bytes))
    case Release => s.(inUse := false, okToClose := false, counter := if s.okToClose then 0 else s.counter)
    case SetTimeout(time) => if Timeout(time) then Wound(s.(timeout := time)) else s
    case SetOptions(disable, enable) => if enable then Wound(s) else if disable then s.(counter := 0) else s
    case KeepAlive => Wound(s)
    case SetParams(nowayout, timeout) => s.(nowayout := nowayout, timeout := timeout)
    case Shutdown => s.(counter := 0)
  }

  /** The state after a sequence of calls; None when one needed a file that was not open. */
  function Run(s: State, cs: seq<Call>): Option<State>
    decreases |cs|
  {
    if cs == [] then Some(s)
    else
      var m := Run(s, cs[..|cs| - 1]);
      if m.Some? && Allowed(m.value, cs[|cs| - 1]) then Some(Next(m.value, cs[|cs| - 1])) else None
  }

  predicate Fresh(s: State) {
    !s.inUse && !s.okToClose
  }

  /** nowayout after some calls: what the last write of the parameters made it. */
  function Nowayout(before: bool, cs: seq<Call>): bool
    decreases |cs|
  {
    if cs == [] then before
    else if cs[|cs| - 1].SetParams? then cs[|cs| - 1].nowayout
    else Nowayout(before, cs[..|cs| - 1])
  }

  /** Data written while nowayout was off. */
  predicate Speaks(before: bool, cs: seq<Call>, k: nat)
    requires k < |cs|
  {
    IsData(cs[k]) && !Nowayout(before, cs[..k])
  }

  /** The last such data written since the device was opened contained a V that could be read. */
  ghost predicate SaidV(before: bool, cs: seq<Call>) {
    exists k :: 0 <= k < |cs| && Speaks(before, cs, k) && 'V' in cs[k].bytes
                && forall j :: k < j < |cs| ==> !Speaks(before, cs, j) && !cs[j].Release?
  }

  lemma SpeaksInPrefix(before: bool, cs: seq<Call>, n: nat, k: nat)
    requires k < n <= |cs|
    ensures Speaks(before, cs[..n], k) == Speaks(before, cs, k)
  {
    assert cs[..n][..k] == cs[..k];
  }

  lemma {:induction false} OkToCloseMeaning(s: State, cs: seq<Call>, s': State)
    requires Fresh(s) && Run(s, cs) == Some(s')
    ensures s'.okToClose <==> SaidV(s.nowayout, cs)
    ensures s'.okToClose ==> s'.inUse
    ensures s'.nowayout == Nowayout(s.nowayout, cs)
    decreases |cs|
  {
    if cs != [] {
      var n := |cs| - 1;
      var m := Run(s, cs[..n]).value;
      OkToCloseMeaning(s, cs[..n], m);
      if Speaks(s.nowayout, cs, n) {
        SaidNow(s.nowayout, cs);
      } else if cs[n].Release? {
        NothingSaid(s.nowayout, cs);
      } else {
        SaidStays(s.nowayout, cs);
      }
    }
  }

  lemma SaidNow(before: bool, cs: seq<Call>)
    requires cs != [] && Speaks(before, cs, |cs| - 1)
    ensures SaidV(before, cs) <==> 'V' in cs[|cs| - 1].bytes
  {
    if 'V' in cs[|cs| - 1].bytes {
      assert Speaks(before, cs, |cs| - 1);
    }
  }

  lemma NothingSaid(before: bool, cs: seq<Call>)
    requires cs != [] && cs[|cs| - 1].Release?
    ensures !SaidV(before, cs)
  {
  }

  /** A last call that neither speaks nor releases says nothing new. */
  lemma SaidStays(before: bool, cs: seq<Call>)
    requires cs != [] && !Speaks(before, cs, |cs| - 1) && !cs[|cs| - 1].Release?
    ensures SaidV(before, cs) <==> SaidV(before, cs[..|cs| - 1])
  {
    var n := |cs| - 1;
    forall k | 0 <= k < n
      ensures Speaks(before, cs[..n], k) == Speaks(before, cs, k) && cs[..n][k] == cs[k]
    {
      SpeaksInPrefix(before, cs, n, k);
    }
    if SaidV(before, cs[..n]) {
      var k :| 0 <= k < n && Speaks(before, cs[..n], k) && 'V' in cs[..n][k].bytes
               && forall j :: k < j < n ==> !Speaks(before, cs[..n], j) && !cs[..n][j].Release?;
      assert Speaks(before, cs, k);
      assert forall j :: k < j < |cs| ==>
        j == n || (Speaks(before, cs[..n], j) == Speaks(before, cs, j) && cs[j] == cs[..n][j]);
    }
    if SaidV(before, cs) {
      var k :| 0 <= k < |cs| && Speaks(before, cs, k) && 'V' in cs[k].bytes
               && forall j :: k < j < |cs| ==> !Speaks(before, cs, j) && !cs[j].Release?;
      assert Speaks(before, cs[..n], k);
    }
  }

  /**
   Data starts the timer anew with the timeout, but for a write that faults while nowayout is off, and
   sets the bit only while it is off.
   */
  lemma DataRestarts(s: State, bytes: seq<char>, fault: bool)
    requires bytes != [] || fault
    ensures var s' := Next(s, Write(bytes, fault));
      && s'.counter == (if fault && !s.nowayout then s.counter else s.timeout % 256)
      && s'.okToClose == (if s.nowayout then s.okToClose else 'V' in bytes)
      && s'.inUse == s.inUse && s'.nowayout == s.nowayout && s'.timeout == s.timeout
  {
  }

  /** Over any run, release stops the timer exactly when the last data said so; else it leaves it alone. */
  lemma ReleaseStopsTimer(s: State, cs: seq<Call>, s': State)
    requires Fresh(s) && Run(s, cs) == Some(s') && s'.inUse
    ensures Next(s', Release).counter == if SaidV(s.nowayout, cs) then 0 else s'.counter
  {
    OkToCloseMeaning(s, cs, s');
  }

  /** A call that may stop the timer, or make a later one stop it, though nowayout is on. */
  predicate Stops(c: Call) {
    || (c.SetOptions? && c.disable && !c.enable) || c.Shutdown?
    || (c.SetParams? && (!c.nowayout || c.timeout % 256 == 0))
  }

  /**
   With nowayout on, a running timer goes on running over any calls but the switch of
   WDIOC_SETOPTIONS, a shutdown, and a change of the parameters that takes nowayout back or makes
   the timeout a multiple of 256.
   */
  lemma {:induction false} NoWayOut(s: State, cs: seq<Call>, s': State)
    requires Fresh(s) && Run(s, cs) == Some(s') && (forall i :: 0 <= i < |cs| ==> !Stops(cs[i]))
    requires s.nowayout && s.timeout % 256 != 0
    ensures s'.nowayout && s'.timeout % 256 != 0 && !s'.okToClose
    ensures s.counter != 0 || s'.inUse ==> s'.counter != 0
    decreases |cs|
  {
    if cs != [] {
      var n := |cs| - 1;
      NoWayOut(s, cs[..n], Run(s, cs[..n]).value);
    }
  }

  /** Each of those calls does stop it, at once or at the next keep-alive or release. */
  lemma StopsDoStop(s: State, c: Call)
    requires Stops(c) && s.inUse && s.nowayout
    ensures var s' := Next(s, c);
      || s'.counter == 0 || Next(s', KeepAlive).counter == 0
      || Next(Next(s', Write("V", false)), Release).counter == 0
  {
  }

  class Wdt {
    var nowayout: bool
    var inUse: bool
    var okToClose: bool
    var timeout: int
    var counter: nat

    constructor (nowayout: bool, timeout: int)
      requires Timeout(timeout)
      ensures Fresh(AsState()) && this.nowayout == nowayout && this.timeout == timeout && counter == 0
    {
      this.nowayout, this.timeout := nowayout, timeout;
      inUse, okToClose, counter := false, false, 0;
    }

    function AsState(): State
      reads this
    {
      State(inUse, okToClose, nowayout, timeout, counter)
    }

    /** moxawdt_open; false for a device already open. */
    method OpenDevice() returns (ok: bool)
      modifies this
      ensures AsState() == Next(old(AsState()), Open) && ok == !old(inUse)
      ensures inUse && (ok ==> !okToClose && counter == timeout % 256) && (!ok ==> AsState() == old(AsState()))
    {
      if inUse {
        return false;
      }
      inUse := true;
      okToClose := false;
      counter := timeout % 256;
      ok := true;
    }

    /** moxawdt_write of the readable bytes and, with fault, one more that is not. */
    method WriteData(bytes: seq<char>, fault: bool) returns (ok: bool)
      modifies this
      ensures AsState() == Next(old(AsState()), Write(bytes, fault))
      ensures ok == !(fault && !nowayout)
      ensures okToClose == if nowayout || (bytes == [] && !fault) then old(okToClose) else 'V' in bytes
      ensures counter == if ok && (bytes != [] || fault) then timeout % 256 else old(counter)
    {
      if bytes != [] || fault {
        if !nowayout {
          okToClose := false;
          for i := 0 to |bytes|
            invariant okToClose == ('V' in bytes[..i])
            invariant AsState() == old(AsState()).(okToClose := okToClose)
          {
            if bytes[i] == 'V' {
              okToClose := true;
            }
          }
          assert bytes[..|bytes|] == bytes;
          if fault {
            return false;
          }
        }
        counter := timeout % 256;
      }
      ok := true;
    }

    /** moxawdt_release */
    method ReleaseDevice()
      modifies this
      ensures AsState() == Next(old(AsState()), Release)
      ensures !inUse && !okToClose && counter == if old(okToClose) then 0 else old(counter)
    {
      if okToClose {
        counter := 0;
      }
      inUse := false;
      okToClose := false;
    }

    /** WDIOC_SETTIMEOUT in moxawdt_ioctl */
    method SetTime(time: int) returns (ok: bool)
      modifies this
      ensures AsState() == Next(old(AsState()), SetTimeout(time)) && ok == (MIN_TIME < time <= MAX_TIME)
      ensures if ok then timeout == counter == time else timeout == old(timeout) && counter == old(counter)
    {
      if time <= MIN_TIME || time > MAX_TIME {
        return false;
      }
      timeout := time;
      counter := timeout % 256;
      ok := true;
    }

    /** WDIOC_SETOPTIONS in moxawdt_ioctl; false stands for -ENOTTY. */
    method SetCard(disable: bool, enable: bool) returns (ok: bool)
      modifies this
      ensures AsState() == Next(old(AsState()), SetOptions(disable, enable)) && ok == (disable || enable)
      ensures counter == if enable then timeout % 256 else if disable then 0 else old(counter)
    {
      ok := false;
      if disable {
        counter := 0;
        ok := true;
      }
      if enable {
        counter := timeout % 256;
        ok := true;
      }
    }
  }
}
