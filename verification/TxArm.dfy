/**
 When the transmit interrupt of an mxser port is armed.

 IER's THRI bit, the flags that hold transmission back, and the handlers between their steps.
 A step is what a handler does under the port's spinlock, or one read or write that it makes
 without it.  `flow` is the lock under which the tty core stops and restarts a terminal.
 */
module TxArm {
  import opened Basics

  type Tid = int

  datatype Pc =
    | Queued                  // write has queued bytes; its three tests are next
    | SawBytes | SawRunning   // xmit_cnt was not 0; then the terminal was not stopped
    | Arming                  // all tests passed, THRI is set next
    | Stopping                // the core set tty->stopped, mxser_stop is next
    | Starting(locked: bool)  // a flag was cleared, mxser_start is next
    | Holding                 // mxser_transmit_chars saw transmission held back; clears THRI next

  /** auto: the chip itself obeys CTS (a 16550A, or a MUST chip). */
  datatype State = State(auto: bool, cnt: nat, stopped: bool, hwStopped: bool, thri: bool, xChar: bool,
                         slock: Option<Tid>, flow: Option<Tid>, threads: map<Tid, Pc>)

  datatype Event =
    | Store(t: Tid, n: nat)          // a copy of mxser_write, committed
    | PutChar(t: Tid)                // mxser_put_char has stored its byte
    | FlushChars(t: Tid)             // mxser_flush_chars entered
    | Test(t: Tid) | Arm(t: Tid)
    | FlushBuffer
    | Transmit(k: nat) | Hold(t: Tid) | Disarm(t: Tid)
    | Modem(cts: bool) | ChangeSpeed(cts: bool)
    | StopTty(t: Tid) | DriverStop(t: Tid)
    | StartTty(t: Tid) | TermiosIxon(t: Tid) | TermiosCrtscts(t: Tid) | DriverStart(t: Tid)
    | StopRx | StartRx

  predicate Is(s: State, t: Tid, pc: Pc) {
    t in s.threads && s.threads[t] == pc
  }

  /** Transmission is held back by the terminal or, where the driver obeys CTS itself, by the line. */
  predicate Held(s: State) {
    s.stopped || (s.hwStopped && !s.auto)
  }

  predicate Enabled(s: State, e: Event) {
    match e
    case Store(t, n) => n > 0 && s.slock.None? && (t in s.threads ==> s.threads[t] == Queued)
    case PutChar(t) => t !in s.threads && s.slock.None?
    case FlushChars(t) => t !in s.threads
    case Test(t) => t in s.threads && (s.threads[t].Queued? || s.threads[t].SawBytes? || s.threads[t].SawRunning?)
    case Arm(t) => Is(s, t, Arming) && s.slock.None?
    case FlushBuffer => s.slock.None?
    case Transmit(k) => s.slock.None? && (s.xChar || s.cnt == 0 || (!Held(s) && 0 < k <= s.cnt))
    case Hold(t) => t !in s.threads && s.slock.None? && !s.xChar && s.cnt > 0 && Held(s)
    case Disarm(t) => Is(s, t, Holding)
    case Modem(_) => s.slock.None?
    case ChangeSpeed(_) => s.slock.None?
    case StopTty(t) => t !in s.threads && s.flow.None? && !s.stopped
    case DriverStop(t) => Is(s, t, Stopping) && s.slock.None?
    case StartTty(t) => t !in s.threads && s.flow.None? && s.stopped
    case TermiosIxon(t) => t !in s.threads
    case TermiosCrtscts(t) => t !in s.threads
    case DriverStart(t) => t in s.threads && s.threads[t].Starting? && s.slock.None?
    case StopRx => s.slock.None?
    case StartRx => s.slock.None?
  }

  function Goto(s: State, t: Tid, pc: Pc): State {
    s.(threads := s.threads[t := pc])
  }

  function End(s: State, t: Tid): State {
    s.(threads := s.threads - {t})
  }

  /** One of the tests by which a writer decides whether to arm. */
  function DoTest(s: State, t: Tid): State
    requires t in s.threads
  {
    match s.threads[t]
    case Queued => if s.cnt > 0 then Goto(s, t, SawBytes) else End(s, t)
    case SawBytes => if !s.stopped then Goto(s, t, SawRunning) else End(s, t)
    case _ => if !s.hwStopped || s.auto then Goto(s, t, Arming) else End(s, t)
  }

  /** The CTS part of mxser_check_modem_status. */
  function DoModem(s: State, cts: bool): State {
    if s.hwStopped && cts then s.(hwStopped := false, thri := s.thri || !s.auto)
    else if !s.hwStopped && !cts then s.(hwStopped := true, thri := s.thri && s.auto)
    else s
  }

  function Next(s: State, e: Event): State
    requires Enabled(s, e)
  {
    match e
    case Store(t, n) => Goto(s.(cnt := s.cnt + n), t, Queued)
    case PutChar(t) => Goto(s.(cnt := s.cnt + 1), t, SawBytes)
    case FlushChars(t) => Goto(s, t, Queued)
    case Test(t) => DoTest(s, t)
    case Arm(t) => End(s.(thri := true), t)
    case FlushBuffer => s.(cnt := 0)
    case Transmit(k) =>
      if s.xChar then s.(xChar := false) else if s.cnt == 0 then s else s.(cnt := s.cnt - k)
    case Hold(t) => Goto(s.(slock := Some(t)), t, Holding)
    case Disarm(t) => End(s.(thri := false, slock := None), t)
    case Modem(cts) => DoModem(s, cts)
    case ChangeSpeed(cts) => if s.auto then s else DoModem(s, cts)
    case StopTty(t) => Goto(s.(stopped := true, flow := Some(t)), t, Stopping)
    case DriverStop(t) => End(s.(thri := false, flow := None), t)
    case StartTty(t) => Goto(s.(stopped := false, flow := Some(t)), t, Starting(true))
    case TermiosIxon(t) => Goto(s.(stopped := false), t, Starting(false))
    case TermiosCrtscts(t) => Goto(s.(hwStopped := false), t, Starting(false))
    case DriverStart(t) =>
      End(s.(thri := s.thri || s.cnt > 0, flow := if s.threads[t].locked then None else s.flow), t)
    case StopRx => s.(xChar := true, thri := true)
    case StartRx => if s.xChar then s.(xChar := false) else s.(xChar := true, thri := true)
  }

  /** set_termios clears tty->stopped while mxser_stop is still to come. */
  ghost predicate Races(s: State, e: Event) {
    e.TermiosIxon? && exists t :: Is(s, t, Stopping)
  }

  ghost function Run(s: State, es: seq<Event>): Option<State>
    decreases |es|
  {
    if es == [] then Some(s)
    else if Enabled(s, es[0]) && !Races(s, es[0]) then Run(Next(s, es[0]), es[1..])
    else None
  }

  /** startup enables the port with an empty page and THRI clear. */
  predicate Started(s: State) {
    s.cnt == 0 && !s.thri && !s.xChar && s.slock.None? && s.flow.None? && s.threads == map[]
  }

  // ----- the invariant ---------------------------------------------------------------------

  /** A thread that will arm the interrupt, unless it finds nothing to send or sending held back. */
  predicate WillArm(pc: Pc) {
    pc.Queued? || pc.SawBytes? || pc.SawRunning? || pc.Arming? || pc.Starting?
  }

  ghost predicate Pending(s: State) {
    exists t :: t in s.threads && WillArm(s.threads[t])
  }

  ghost predicate Restarting(s: State) {
    exists t :: t in s.threads && s.threads[t].Starting?
  }

  ghost predicate Locks(s: State) {
    && (forall t :: Is(s, t, Holding) <==> s.slock == Some(t))
    && (forall t :: Is(s, t, Stopping) ==> s.flow == Some(t) && s.stopped)
    && (forall t :: Is(s, t, Starting(true)) ==> s.flow == Some(t))
  }

  ghost predicate Inv(s: State) {
    && Locks(s)
    && (s.slock.Some? ==> Held(s) || Restarting(s))
    && (s.cnt > 0 && !Held(s) ==> s.thri || Pending(s))
  }

  lemma HolderKeeps(s: State, e: Event)
    requires Locks(s) && Enabled(s, e) && !Races(s, e)
    ensures forall t :: Is(Next(s, e), t, Holding) <==> Next(s, e).slock == Some(t)
  {
    var s' := Next(s, e);
    forall t
      ensures Is(s', t, Holding) <==> s'.slock == Some(t)
    {
      assert Is(s, t, Holding) <==> s.slock == Some(t);
    }
  }

  lemma StopperKeeps(s: State, e: Event)
    requires Locks(s) && Enabled(s, e) && !Races(s, e)
    ensures forall t :: Is(Next(s, e), t, Stopping) ==> Next(s, e).flow == Some(t) && Next(s, e).stopped
  {
    var s' := Next(s, e);
    if e.DriverStart? {
      assert s.threads[e.t].locked ==> Is(s, e.t, Starting(true));
    } else if e.DriverStop? {
      assert Is(s, e.t, Stopping);
    }
    forall t
      ensures Is(s', t, Stopping) ==> s'.flow == Some(t) && s'.stopped
    {
      assert Is(s, t, Stopping) ==> s.flow == Some(t) && s.stopped;
    }
  }

  lemma StarterKeeps(s: State, e: Event)
    requires Locks(s) && Enabled(s, e) && !Races(s, e)
    ensures forall t :: Is(Next(s, e), t, Starting(true)) ==> Next(s, e).flow == Some(t)
  {
    var s' := Next(s, e);
    if e.DriverStart? {
      assert s.threads[e.t].locked ==> Is(s, e.t, Starting(true));
    } else if e.DriverStop? {
      assert Is(s, e.t, Stopping);
    }
    forall t
      ensures Is(s', t, Starting(true)) ==> s'.flow == Some(t)
    {
      assert Is(s, t, Starting(true)) ==> s.flow == Some(t);
    }
  }

  lemma RestartingStays(s: State, e: Event)
    requires Enabled(s, e) && s.slock.Some? && Locks(s)
    requires Held(s) || Restarting(s)
    ensures Next(s, e).slock.Some? ==> Held(Next(s, e)) || Restarting(Next(s, e))
  {
    var s' := Next(s, e);
    assert Is(s, s.slock.value, Holding);
    if Restarting(s) {
      var r :| r in s.threads && s.threads[r].Starting?;
      assert r in s'.threads && s'.threads[r].Starting?;
    } else {
      match e
      case StartTty(t) => assert s'.threads[t].Starting?;
      case TermiosIxon(t) => assert s'.threads[t].Starting?;
      case TermiosCrtscts(t) => assert s'.threads[t].Starting?;
      case _ =>
    }
  }

  /** A thread that will arm stays, or arms, or was right not to. */
  lemma PendingStays(s: State, e: Event)
    requires Enabled(s, e) && Pending(s)
    ensures var s' := Next(s, e); Pending(s') || s'.thri || s'.cnt == 0 || Held(s')
  {
    var s' := Next(s, e);
    var p :| p in s.threads && WillArm(s.threads[p]);
    assert (p in s'.threads && WillArm(s'.threads[p])) || e == Test(p) || e == Arm(p) || e == DriverStart(p);
  }

  lemma ArmedStays(s: State, e: Event)
    requires Inv(s) && Enabled(s, e) && !Pending(s)
    ensures var s' := Next(s, e); s'.cnt > 0 && !Held(s') ==> s'.thri || Pending(s')
  {
    var s' := Next(s, e);
    match e
    case Store(t, _) => assert WillArm(s'.threads[t]);
    case PutChar(t) => assert WillArm(s'.threads[t]);
    case StartTty(t) => assert WillArm(s'.threads[t]);
    case TermiosIxon(t) => assert WillArm(s'.threads[t]);
    case TermiosCrtscts(t) => assert WillArm(s'.threads[t]);
    case DriverStop(t) => assert Is(s, t, Stopping);
    case Disarm(t) =>
      assert s.slock == Some(t);
      assert Restarting(s) ==> Pending(s);
    case _ =>
  }

  lemma StepKeeps(s: State, e: Event)
    requires Inv(s) && Enabled(s, e) && !Races(s, e)
    ensures Inv(Next(s, e))
  {
    HolderKeeps(s, e);
    StopperKeeps(s, e);
    StarterKeeps(s, e);
    if Pending(s) {
      PendingStays(s, e);
    } else {
      ArmedStays(s, e);
    }
    if s.slock.Some? {
      RestartingStays(s, e);
    }
  }

  lemma {:induction false} RunKeeps(s: State, es: seq<Event>)
    requires Inv(s)
    ensures Run(s, es).Some? ==> Inv(Run(s, es).value)
    decreases |es|
  {
    if es != [] && Run(s, es).Some? {
      StepKeeps(s, es[0]);
      RunKeeps(Next(s, es[0]), es[1..]);
    }
  }

  // ----- theorems --------------------------------------------------------------------------

  /**
   The transmitter is never stuck: while bytes wait and nothing holds them back, THRI is set, or
   a thread is about to set it.  Once the threads are done, THRI is set.
   */
  lemma NeverStuck(s: State, es: seq<Event>)
    requires Started(s) && Run(s, es).Some?
    ensures var s' := Run(s, es).value;
      s'.cnt > 0 && !Held(s') ==> s'.thri || exists t :: t in s'.threads && WillArm(s'.threads[t])
    ensures var s' := Run(s, es).value;
      s'.cnt > 0 && !Held(s') && s'.threads == map[] ==> s'.thri
  {
    RunKeeps(s, es);
  }

  /** A thread that will arm does so, or ends because at that moment there was no need to. */
  lemma PendingArms(s: State, t: Tid)
    requires t in s.threads && WillArm(s.threads[t]) && s.slock.None?
    ensures var pc := s.threads[t];
      var e := if pc.Arming? then Arm(t) else if pc.Starting? then DriverStart(t) else Test(t);
      && Enabled(s, e)
      && var s' := Next(s, e);
         if t in s'.threads then WillArm(s'.threads[t]) && s' == s.(threads := s'.threads)
         else s'.thri || s'.cnt == 0 || Held(s')
  {
  }

  // ----- the race --------------------------------------------------------------------------

  /** Bytes wait, nothing holds them back, no thread is under way, and the interrupt is not armed. */
  predicate Stuck(s: State) {
    s.cnt > 0 && !Held(s) && s.threads == map[] && !s.thri
  }

  /** A continuation without a further race gets the port stuck. */
  ghost predicate CanStick(s: State) {
    exists es :: Run(s, es).Some? && Stuck(Run(s, es).value)
  }

  lemma Before(s: State, e: Event, es: seq<Event>)
    requires Enabled(s, e) && !e.TermiosIxon?
    ensures Run(s, [e] + es) == Run(Next(s, e), es)
  {
    assert ([e] + es)[1..] == es;
  }

  lemma CanStickBefore(s: State, e: Event)
    requires Enabled(s, e) && !e.TermiosIxon? && CanStick(Next(s, e))
    ensures CanStick(s)
  {
    var es :| Run(Next(s, e), es).Some? && Stuck(Run(Next(s, e), es).value);
    Before(s, e, es);
  }

  /** Nothing stands in the way of transmission, nor of a thread. */
  ghost predicate Open(s: State) {
    s.cnt > 0 && !Held(s) && s.slock.None? && forall t :: t in s.threads ==> !s.threads[t].Holding?
  }

  /** The next step of a thread. */
  function Onward(t: Tid, pc: Pc): Event {
    match pc
    case Arming => Arm(t)
    case Stopping => DriverStop(t)
    case Starting(_) => DriverStart(t)
    case Holding => Disarm(t)
    case _ => Test(t)
  }

  function StepsLeft(pc: Pc): nat {
    match pc
    case Queued => 4
    case SawBytes => 3
    case SawRunning => 2
    case _ => 1
  }

  lemma OneStepOn(s: State, t: Tid)
    requires Open(s) && t in s.threads
    ensures var e := Onward(t, s.threads[t]);
      && Enabled(s, e) && !e.TermiosIxon?
      && var s' := Next(s, e);
         Open(s') && if t in s'.threads then
           StepsLeft(s'.threads[t]) < StepsLeft(s.threads[t]) && s'.threads == s.threads[t := s'.threads[t]]
         else s'.threads == s.threads - {t}
  {
  }

  /** With the way open, threads other than t can end one after the other; then t disarms for good. */
  lemma {:induction false} StopperLast(s: State, t: Tid)
    requires Open(s) && Is(s, t, Stopping)
    ensures CanStick(s)
    decreases |s.threads|, 5
  {
    if exists k :: k in s.threads && k != t {
      var k :| k in s.threads && k != t;
      OtherEnds(s, t, k);
    } else {
      var s' := Next(s, DriverStop(t));
      assert s'.threads == map[];
      assert Run(s', []) == Some(s');
      CanStickBefore(s, DriverStop(t));
    }
  }

  lemma {:induction false} OtherEnds(s: State, t: Tid, k: Tid)
    requires Open(s) && Is(s, t, Stopping) && k in s.threads && k != t
    ensures CanStick(s)
    decreases |s.threads|, StepsLeft(s.threads[k])
  {
    OneStepOn(s, k);
    var e := Onward(k, s.threads[k]);
    var s' := Next(s, e);
    if k in s'.threads {
      SameSize(s.threads, k, s'.threads[k]);
      OtherEnds(s', t, k);
    } else {
      OneLess(s.threads, k);
      StopperLast(s', t);
    }
    CanStickBefore(s, e);
  }

  lemma SameSize(threads: map<Tid, Pc>, k: Tid, pc: Pc)
    requires k in threads
    ensures |threads[k := pc]| == |threads|
  {
    assert threads[k := pc].Keys == threads.Keys;
    assert |threads[k := pc].Keys| == |threads.Keys|;
  }

  lemma OneLess(threads: map<Tid, Pc>, k: Tid)
    requires k in threads
    ensures |threads - {k}| < |threads|
  {
    assert (threads - {k}).Keys == threads.Keys - {k};
    assert |(threads - {k}).Keys| < |threads.Keys|;
  }

  /** Whoever holds the spinlock gives it back, bytes arrive, and CTS rises: the way is open. */
  lemma WayOpens(s: State, t: Tid)
    requires Is(s, t, Stopping) && !s.stopped && forall k :: Is(s, k, Holding) <==> s.slock == Some(k)
    ensures CanStick(s)
  {
    if s.slock.Some? {
      var h := s.slock.value;
      assert Is(s, h, Holding);
      var s1 := Next(s, Disarm(h));
      assert forall k :: Is(s1, k, Holding) ==> Is(s, k, Holding) && k != h;
      BytesArrive(s1, t);
      CanStickBefore(s, Disarm(h));
    } else {
      BytesArrive(s, t);
    }
  }

  lemma BytesArrive(s: State, t: Tid)
    requires Is(s, t, Stopping) && !s.stopped && s.slock.None? && forall k :: !Is(s, k, Holding)
    ensures CanStick(s)
  {
    if s.cnt == 0 {
      FreshId(s.threads.Keys);
      var w :| w !in s.threads.Keys;
      var s1 := Next(s, Store(w, 1));
      assert forall k :: Is(s1, k, Holding) ==> Is(s, k, Holding);
      LineRises(s1, t);
      CanStickBefore(s, Store(w, 1));
    } else {
      LineRises(s, t);
    }
  }

  lemma LineRises(s: State, t: Tid)
    requires Is(s, t, Stopping) && !s.stopped && s.slock.None? && s.cnt > 0 && forall k :: !Is(s, k, Holding)
    ensures CanStick(s)
  {
    assert forall k :: k in s.threads && s.threads[k].Holding? ==> Is(s, k, Holding);
    if Held(s) {
      var s1 := Next(s, Modem(true));
      StopperLast(s1, t);
      CanStickBefore(s, Modem(true));
    } else {
      StopperLast(s, t);
    }
  }

  /** Wherever set_termios cuts in between tty->stopped and mxser_stop, the port can get stuck. */
  lemma RaceSticks(s: State, e: Event)
    requires Locks(s) && Enabled(s, e) && Races(s, e)
    ensures CanStick(Next(s, e))
  {
    var t :| Is(s, t, Stopping);
    var s1 := Next(s, e);
    assert Is(s1, t, Stopping);
    forall k
      ensures Is(s1, k, Holding) <==> s1.slock == Some(k)
    {
      assert Is(s, k, Holding) <==> s.slock == Some(k);
    }
    WayOpens(s1, t);
  }

  /**
   That is the whole of it: after a step of a run without the race, the port can get stuck before
   another race exactly when the step is that race.
   */
  lemma StuckIffRace(s0: State, es: seq<Event>, e: Event)
    requires Started(s0) && Run(s0, es).Some? && Enabled(Run(s0, es).value, e)
    ensures CanStick(Next(Run(s0, es).value, e)) <==> Races(Run(s0, es).value, e)
  {
    RunKeeps(s0, es);
    var s := Run(s0, es).value;
    if Races(s, e) {
      RaceSticks(s, e);
    } else {
      StepKeeps(s, e);
      forall fs | Run(Next(s, e), fs).Some?
        ensures !Stuck(Run(Next(s, e), fs).value)
      {
        RunKeeps(Next(s, e), fs);
      }
    }
  }
}
